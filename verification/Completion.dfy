/** What a command of the user comes to, whatever the interleaving. */
module Completion {
  import opened Wire
  import opened Framing
  import opened Audio
  import opened Service
  import opened Phases
  import opened Liveness

  /** A calm run in which the user does nothing. */
  ghost predicate InternalRun(capacity: nat, s: State, acts: seq<Action>) {
    CalmRun(capacity, s, acts) && forall a :: a in acts ==> Internal(a)
  }

  /** A run without the user is no longer than the measure of its first state. */
  lemma {:induction false} RunBounded(capacity: nat, ph: Phase, s: State, acts: seq<Action>)
    requires InPhase(ph, s) && InternalRun(capacity, s, acts)
    ensures Errand(ph) && |acts| <= Energy(ph, s)
    decreases |acts|
  {
    ControlErrand(ph, s);
    if acts != [] {
      var next := StepLowersEnergy(capacity, ph, s, acts[0]);
      RunBounded(capacity, next, Next(capacity, s, acts[0]), acts[1..]);
    }
  }

  /** From every state the processes can go on to where none of them can move. */
  lemma {:induction false} RunsDry(capacity: nat, ph: Phase, s: State) returns (acts: seq<Action>)
    requires InPhase(ph, s) && Errand(ph)
    ensures InternalRun(capacity, s, acts) && Stuck(capacity, After(capacity, s, acts))
    decreases Energy(ph, s)
  {
    acts := [];
    if !Stuck(capacity, s) {
      var a :| Internal(a) && Calm(capacity, s, a);
      var next := StepLowersEnergy(capacity, ph, s, a);
      var rest := RunsDry(capacity, next, Next(capacity, s, a));
      acts := [a] + rest;
      assert acts[1..] == rest;
    }
  }

  /** A bound on the steps of one phase. */
  function Unit(a: Audio): nat {
    12 * (|a.left| + |a.right|) + 30
  }

  /** The number of steps a phase and its successors take is linear in the audio. */
  lemma {:induction false} BudgetLinear(ph: Phase, a: Audio)
    requires Errand(ph)
    ensures Budget(ph, a) <= Distance(ph) * Unit(a)
    decreases Distance(ph)
  {
    if ph != Idle && ph != Over {
      SuccCloser(ph);
      BudgetLinear(Succ(ph), a);
      SizeBounded(Succ(ph), a);
      AtMostProduct(Distance(Succ(ph)), Distance(ph), Unit(a));
    }
  }

  lemma AtMostProduct(m: nat, n: nat, unit: nat)
    requires m < n
    ensures m * unit + unit <= n * unit
  {
    assert (m + 1) * unit <= n * unit;
  }

  lemma SizeBounded(ph: Phase, a: Audio)
    ensures Size(ph, a) <= 4 * (|a.left| + |a.right|) + 9
  {
  }

  lemma RunLinear(capacity: nat, ph: Phase, s: State, acts: seq<Action>)
    requires InPhase(ph, s) && InternalRun(capacity, s, acts)
    ensures |acts| <= Distance(ph) * Unit(s.gui.audio) + 3 * Size(ph, s.gui.audio) + 2
  {
    RunBounded(capacity, ph, s, acts);
    BudgetLinear(ph, s.gui.audio);
    TrafficBounded(ph, s);
  }

  // ----- the reverse command -----

  /** A reverse command for audio `a`, given after `k` others, is being served or done. */
  predicate Underway(ph: Phase, a: Audio, k: nat, t: State) {
    && InPhase(ph, t)
    && (if ph == Idle then a.IsFramed() && t.turns == k + 1 && t.gui.audio == ReversedAudio(a)
        else (Serving(ph) || ph == Turning) && t.turns == k && t.gui.audio == a)
  }

  lemma SuccServes(ph: Phase)
    requires Serving(ph) || ph == Turning
    ensures Succ(ph) == Idle || Serving(Succ(ph)) || Succ(ph) == Turning
    ensures Succ(ph) == Idle ==> ph == Playing(Download, Right)
  {
  }

  lemma DownloadEnds(capacity: nat, s: State, a: Action)
    requires InPhase(Playing(Download, Right), s) && Calm(capacity, s, a) && a.Read? && a.n < CHUNK_BYTES
    ensures Next(capacity, s, a).turns == s.turns + 1
    ensures Next(capacity, s, a).gui.audio == ReversedAudio(s.gui.audio)
  {
    RightLastNext(capacity, Download, s, a);
  }

  lemma UnderwayStep(capacity: nat, ph: Phase, a: Audio, k: nat, s: State, act: Action) returns (next: Phase)
    requires Underway(ph, a, k, s) && Calm(capacity, s, act) && Internal(act)
    ensures Underway(next, a, k, Next(capacity, s, act))
    ensures next == if Advances(ph, s, act) then Succ(ph) else ph
    ensures Advances(ph, s, act) ==> ph != Idle
  {
    next := StepLowersEnergy(capacity, ph, s, act);
    AudioKept(capacity, ph, s, act);
    if next != ph {
      SuccServes(ph);
      if ph == Playing(Download, Right) {
        ReadEndsDownload(capacity, s, act);
        DownloadEnds(capacity, s, act);
      }
    }
  }

  lemma ReadEndsDownload(capacity: nat, s: State, act: Action)
    requires InPhase(Playing(Download, Right), s) && Calm(capacity, s, act) && Advances(Playing(Download, Right), s, act)
    ensures act.Read? && act.n < CHUNK_BYTES
  {
    var ph := Playing(Download, Right);
    if act.Read? {
      PlayingLastTaken(capacity, Download, Right, s, act);
    } else {
      BurstFits(ph);
      RunInBurst(capacity, ph, s, act);
    }
  }

  lemma {:induction false} UnderwayRun(capacity: nat, ph: Phase, a: Audio, k: nat, s: State, acts: seq<Action>)
    returns (last: Phase)
    requires Underway(ph, a, k, s) && InternalRun(capacity, s, acts)
    ensures Underway(last, a, k, After(capacity, s, acts))
    decreases |acts|
  {
    last := ph;
    if acts != [] {
      var next := UnderwayStep(capacity, ph, a, k, s, acts[0]);
      last := UnderwayRun(capacity, next, a, k, Next(capacity, s, acts[0]), acts[1..]);
    }
  }

  /** A reverse command whose text is under way, to the last step of any interleaving. */
  lemma ReverseServed(capacity: nat, s: State, acts: seq<Action>)
    requires InPhase(Talking(AskReverse), s) && capacity >= CHUNK_BYTES
    requires InternalRun(capacity, s, acts)
    ensures |acts| <= 22 * Unit(s.gui.audio) + 23
    ensures Stuck(capacity, After(capacity, s, acts)) ==> Outcome(s, After(capacity, s, acts))
  {
    RunLinear(capacity, Talking(AskReverse), s, acts);
    var last := UnderwayRun(capacity, Talking(AskReverse), s.gui.audio, s.turns, s, acts);
    var t := After(capacity, s, acts);
    if Stuck(capacity, t) {
      WhereItEnds(capacity, last, s.gui.audio, s.turns, t);
    }
  }

  /** The reverse command, from the menu to the last step of any interleaving.

  The number of steps is bounded by the length of the audio.  When no process can move
  any more, the GUI has the reversed audio and all three processes are back at their
  idle reads, if and only if neither channel length is a multiple of the chunk size;
  otherwise DSP waits for ever for the rest of a channel and the GUI keeps its audio. */
  lemma ReverseCompletes(capacity: nat, s: State, acts: seq<Action>)
    requires Inv(s) && capacity >= CHUNK_BYTES
    requires Calm(capacity, s, Choose(ReverseAudio))
    requires InternalRun(capacity, Next(capacity, s, Choose(ReverseAudio)), acts)
    ensures |acts| <= 22 * Unit(s.gui.audio) + 23
    ensures var t := After(capacity, Next(capacity, s, Choose(ReverseAudio)), acts);
      Stuck(capacity, t) ==> Outcome(s, t)
  {
    ReverseBegins(capacity, s);
    ReverseServed(capacity, Next(capacity, s, Choose(ReverseAudio)), acts);
  }

  lemma ReverseBegins(capacity: nat, s: State)
    requires Inv(s) && Calm(capacity, s, Choose(ReverseAudio))
    ensures var s1 := Next(capacity, s, Choose(ReverseAudio));
      InPhase(Talking(AskReverse), s1) && s1.gui.audio == s.gui.audio && s1.turns == s.turns
  {
    var ph0 :| InPhase(ph0, s);
    ChooseStarts(capacity, ph0, s, Choose(ReverseAudio));
  }

  /** What a reverse command given in `s` has come to in `t`. */
  predicate Outcome(s: State, t: State) {
    var a := s.gui.audio;
    && (a.IsFramed() <==> Resting(t))
    && (if a.IsFramed() then t.gui.audio == ReversedAudio(a) && t.turns == s.turns + 1
        else
          && t.gui.audio == a && t.turns == s.turns
          && t.dsp.pc == Record(Upload, if Framed(a.left) then Right else Left))
  }

  lemma WhereItEnds(capacity: nat, last: Phase, a: Audio, k: nat, t: State)
    requires Underway(last, a, k, t) && Stuck(capacity, t) && capacity >= CHUNK_BYTES
    ensures a.IsFramed() <==> Resting(t)
    ensures a.IsFramed() ==> last == Idle
    ensures !a.IsFramed() ==> t.gui.audio == a && t.turns == k && t.dsp.pc == Record(Upload, if Framed(a.left) then Right else Left)
  {
    if !Resting(t) && !Ended(t) && !Starved(last, t) {
      var act := Progress(capacity, last, t);
      assert false;
    }
    ServingNotAtRest(last, t);
    if Starved(last, t) {
      ReversedKeepsLengths(a);
    }
  }

  lemma ServingNotAtRest(ph: Phase, t: State)
    requires Control(ph, t)
    ensures Resting(t) ==> ph == Idle
    ensures Ended(t) ==> ph == Over
  {
    if IsBurst(ph) {
      BurstFits(ph);
    }
  }

  // ----- the commands without audio -----

  /** The phases that a shift, stretch or exit command goes through. */
  predicate Brief(c: Command, ph: Phase) {
    if c == ExitProgram then ph == Talking(AskExit) || ph == Dialing(TellExit) || ph == Talking(TellExit) || ph == Over
    else c != ReverseAudio && (ph == Talking(Request(c)) || ph == Idle)
  }

  lemma BriefSucc(c: Command, ph: Phase)
    requires Brief(c, ph) && ph != Idle && ph != Over
    ensures Brief(c, Succ(ph))
  {
  }

  lemma {:induction false} BriefRun(capacity: nat, c: Command, ph: Phase, s: State, acts: seq<Action>)
    returns (last: Phase)
    requires InPhase(ph, s) && Brief(c, ph) && InternalRun(capacity, s, acts)
    ensures var t := After(capacity, s, acts);
      InPhase(last, t) && Brief(c, last) && t.gui.audio == s.gui.audio && t.turns == s.turns
    decreases |acts|
  {
    last := ph;
    if acts != [] {
      var next := StepLowersEnergy(capacity, ph, s, acts[0]);
      AudioKept(capacity, ph, s, acts[0]);
      if next != ph {
        BriefSucc(c, ph);
      }
      last := BriefRun(capacity, c, next, Next(capacity, s, acts[0]), acts[1..]);
    }
  }

  lemma BriefBudget(c: Command, a: Audio)
    requires c != ReverseAudio
    ensures Budget(Talking(Request(c)), a) <= 21
  {
    var ph := Talking(Request(c));
    if c == ExitProgram {
      assert Budget(Talking(TellExit), a) == 3;
      assert Budget(Dialing(TellExit), a) == 18;
    }
  }

  lemma BriefBounded(capacity: nat, c: Command, s: State, acts: seq<Action>)
    requires InPhase(Talking(Request(c)), s) && c != ReverseAudio && InternalRun(capacity, s, acts)
    ensures |acts| <= 44
  {
    RunBounded(capacity, Talking(Request(c)), s, acts);
    BriefBudget(c, s.gui.audio);
    TrafficBounded(Talking(Request(c)), s);
  }

  /** A shift, stretch or exit command whose text is under way. */
  lemma BriefServed(capacity: nat, c: Command, s: State, acts: seq<Action>)
    requires InPhase(Talking(Request(c)), s) && c != ReverseAudio && capacity >= CHUNK_BYTES
    requires InternalRun(capacity, s, acts)
    ensures |acts| <= 44
    ensures var t := After(capacity, s, acts);
      && t.gui.audio == s.gui.audio && t.turns == s.turns
      && (Stuck(capacity, t) ==> if c == ExitProgram then Ended(t) else Resting(t))
  {
    var ph := Talking(Request(c));
    BriefBounded(capacity, c, s, acts);
    var last := BriefRun(capacity, c, ph, s, acts);
    var t := After(capacity, s, acts);
    if Stuck(capacity, t) {
      BriefEnds(capacity, c, last, t);
    }
  }

  /** After "exit" all three processes end; after "shift" or "stretch" all three are back
  at their idle reads with the audio unchanged; and that within a fixed number of steps. */
  lemma BriefCompletes(capacity: nat, c: Command, s: State, acts: seq<Action>)
    requires Inv(s) && capacity >= CHUNK_BYTES && c != ReverseAudio
    requires Calm(capacity, s, Choose(c))
    requires InternalRun(capacity, Next(capacity, s, Choose(c)), acts)
    ensures |acts| <= 44
    ensures var t := After(capacity, Next(capacity, s, Choose(c)), acts);
      && t.gui.audio == s.gui.audio && t.turns == s.turns
      && (Stuck(capacity, t) ==> if c == ExitProgram then Ended(t) else Resting(t))
  {
    var ph0 :| InPhase(ph0, s);
    ChooseStarts(capacity, ph0, s, Choose(c));
    BriefServed(capacity, c, Next(capacity, s, Choose(c)), acts);
  }

  lemma BriefEnds(capacity: nat, c: Command, last: Phase, t: State)
    requires InPhase(last, t) && Brief(c, last) && Stuck(capacity, t) && capacity >= CHUNK_BYTES
    ensures if c == ExitProgram then Ended(t) else Resting(t)
  {
    if !Resting(t) && !Ended(t) {
      var act := Progress(capacity, last, t);
      assert false;
    }
    ServingNotAtRest(last, t);
  }
}
