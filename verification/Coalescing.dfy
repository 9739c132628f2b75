/** What happens when the user does not wait: "shift" and "stretch" are not answered, so
the next command can join them in the queue, and DSP reads the queue in blocks of up to
1024 bytes whatever the commands were. */
module Coalescing {
  import opened Wire
  import opened Framing
  import opened Audio
  import opened Service
  import opened Phases
  import opened Liveness
  import opened Completion

  /** The texts of commands that DSP has not read and will not answer. */
  function Unread(pending: seq<Command>): string {
    if pending == [] then "" else Text(Request(pending[0])) + Unread(pending[1..])
  }

  predicate Unanswered(pending: seq<Command>) {
    forall i :: 0 <= i < |pending| ==> pending[i] == ShiftAudio || pending[i] == StretchAudio
  }

  // ----- texts that DSP does not understand -----

  /** What a part of unread commands looks like that reaches to their end. */
  predicate Murmur(text: string) {
    && (forall i :: 0 <= i < |text| ==> text[i] in "shiftrec")
    && (text != "" ==> text[|text| - 1] == 't' || text[|text| - 1] == 'h')
  }

  lemma {:induction false} UnreadMurmurs(pending: seq<Command>)
    requires Unanswered(pending)
    ensures Murmur(Unread(pending))
  {
    if pending != [] {
      var first, rest := Text(Request(pending[0])), Unread(pending[1..]);
      UnreadMurmurs(pending[1..]);
      CommandMurmurs(pending[0]);
      assert forall i :: 0 <= i < |first + rest| ==> (first + rest)[i] == if i < |first| then first[i] else rest[i - |first|];
    }
  }

  lemma CommandMurmurs(c: Command)
    requires c == ShiftAudio || c == StretchAudio
    ensures Murmur(Text(Request(c))) && Text(Request(c)) != ""
  {
  }

  /** DSP throws the text away. */
  predicate Ignored(text: string) {
    AfterHearing(Hear(ForCommand), text) == Hear(ForCommand)
  }

  lemma BlockIgnored(rest: string)
    requires Murmur(rest) && |rest| >= MESSAGE_SIZE
    ensures Ignored(rest[..MESSAGE_SIZE])
  {
    assert rest[..MESSAGE_SIZE][..4][1] == rest[1];
  }

  /** The end of the unread commands, together with all or the beginning of the last one. */
  lemma MixtureIgnored(rest: string, c: Command, n: nat)
    requires Murmur(rest) && rest != "" && (c == ReverseAudio || c == ExitProgram)
    requires n == Smaller(|rest| + |Text(Request(c))|, MESSAGE_SIZE) && |rest| < MESSAGE_SIZE
    ensures Ignored((rest + Text(Request(c)))[..n])
  {
    var text := (rest + Text(Request(c)))[..n];
    assert text[0] == rest[0] && (|rest| > 1 ==> text[1] == rest[1]);
    if |text| >= 4 {
      assert text[..4][0] == text[0] && text[..4][1] == text[1];
    }
    if |text| == 7 {
      assert c == ExitProgram && text[6] == 't';
    }
  }

  /** The end of a command that a block boundary has cut. */
  lemma TailIgnored(c: Command, i: nat)
    requires (c == ReverseAudio || c == ExitProgram) && 0 < i <= |Text(Request(c))|
    ensures Ignored(Text(Request(c))[i..])
  {
    var tail := Text(Request(c))[i..];
    if |tail| >= 4 {
      assert tail[..4][1] == Text(Request(c))[i + 1];
    }
  }

  function Smaller(a: nat, b: nat): nat {
    if a < b then a else b
  }

  // ----- the queue is drained -----

  /** The GUI has given command `c` while `rest` was still unread. */
  predicate Piled(s: State, rest: string, c: Command) {
    && (c == ReverseAudio || c == ExitProgram)
    && Standing(s.gui, AfterSay(Request(c))) && Standing(s.dsp, Hear(ForCommand)) && Available(s.rev)
    && Silent(s.(gd := "")) && s.gd == rest + Text(Request(c)) && Murmur(rest)
    && s.gui.audio == ReversedTimes(s.original, s.turns)
    && (c == ReverseAudio ==> s.gui.audio.NonEmpty())
  }

  /** Command `c` has been thrown away, but for an end of it that may still be queued. */
  predicate Lost(s: State, c: Command) {
    && (c == ReverseAudio || c == ExitProgram)
    && Standing(s.gui, AfterSay(Request(c))) && Available(s.rev) && Silent(s.(gd := ""))
    && (|| (Standing(s.dsp, Hear(ForCommand)) && exists i: nat | 0 < i <= |Text(Request(c))| :: s.gd == Text(Request(c))[i..])
        || (c == ExitProgram && s.dsp.pc == Failed && s.dsp.out == "" && s.gd == ""))
  }

  lemma PiledAction(capacity: nat, s: State, c: Command, a: Action)
    requires Standing(s.gui, AfterSay(Request(c))) && (c == ReverseAudio || c == ExitProgram)
    requires Standing(s.dsp, Hear(ForCommand)) && Available(s.rev) && Silent(s.(gd := ""))
    requires Calm(capacity, s, a) && Internal(a)
    ensures (a == Run(Rev) && s.rev.pc == Hangup)
         || (a == Read(Dsp, Smaller(|s.gd|, MESSAGE_SIZE)) && s.gd != "")
         || (a == Fail(Dsp) && s.gd == "" && c == ExitProgram)
  {
  }

  lemma ReverseHangsUp(capacity: nat, s: State)
    requires Standing(s.rev, Hangup)
    ensures Enabled(capacity, s, Run(Rev))
    ensures Next(capacity, s, Run(Rev)) == s.(rev := s.rev.(pc := Accept))
  {
  }

  /** A read whose text is thrown away. */
  lemma ReadIgnored(capacity: nat, s: State, n: nat)
    requires Standing(s.dsp, Hear(ForCommand)) && Enabled(capacity, s, Read(Dsp, n)) && Ignored(s.gd[..n])
    ensures Next(capacity, s, Read(Dsp, n)) == s.(gd := s.gd[n..])
  {
  }

  lemma ReadBlock(capacity: nat, s: State, rest: string, c: Command)
    requires Piled(s, rest, c) && |rest| >= MESSAGE_SIZE
    requires Enabled(capacity, s, Read(Dsp, MESSAGE_SIZE))
    ensures Next(capacity, s, Read(Dsp, MESSAGE_SIZE)) == s.(gd := rest[MESSAGE_SIZE..] + Text(Request(c)))
  {
    BlockIgnored(rest);
    CutFirst(rest, Text(Request(c)), MESSAGE_SIZE);
    ReadIgnored(capacity, s, MESSAGE_SIZE);
  }

  lemma CutFirst(rest: string, text: string, n: nat)
    requires n <= |rest|
    ensures (rest + text)[..n] == rest[..n] && (rest + text)[n..] == rest[n..] + text
  {
  }

  lemma CutSecond(rest: string, text: string, n: nat)
    requires |rest| <= n <= |rest| + |text|
    ensures (rest + text)[n..] == text[n - |rest|..]
  {
  }

  lemma ReadMixture(capacity: nat, s: State, rest: string, c: Command, n: nat)
    requires Piled(s, rest, c) && 0 < |rest| < MESSAGE_SIZE && n == Smaller(|s.gd|, MESSAGE_SIZE)
    requires Enabled(capacity, s, Read(Dsp, n))
    ensures Next(capacity, s, Read(Dsp, n)) == s.(gd := Text(Request(c))[n - |rest|..])
  {
    MixtureIgnored(rest, c, n);
    CutSecond(rest, Text(Request(c)), n);
    ReadIgnored(capacity, s, n);
  }

  /** A step while the command is behind something unread. */
  lemma PiledStep(capacity: nat, s: State, rest: string, c: Command, a: Action) returns (left: string)
    requires Piled(s, rest, c) && rest != "" && Calm(capacity, s, a) && Internal(a)
    ensures Closer(s, Next(capacity, s, a), rest, left, c)
  {
    hide Next;
    left := rest;
    PiledAction(capacity, s, c, a);
    if a == Run(Rev) {
      ReverseHangsUp(capacity, s);
    } else {
      left := PiledRead(capacity, s, rest, c, a.n);
    }
  }

  /** From `s` to `t` in one step: the command is still behind as much, but for a block, or
  it is lost. */
  predicate Closer(s: State, t: State, rest: string, left: string, c: Command) {
    && Progressed(s, t)
    && (|| (Piled(t, left, c) && |left| % MESSAGE_SIZE == |rest| % MESSAGE_SIZE)
        || (Lost(t, c) && |rest| % MESSAGE_SIZE != 0 && t.dsp.pc == Hear(ForCommand)))
  }

  lemma PiledRead(capacity: nat, s: State, rest: string, c: Command, n: nat) returns (left: string)
    requires Piled(s, rest, c) && rest != "" && n == Smaller(|s.gd|, MESSAGE_SIZE)
    requires Enabled(capacity, s, Read(Dsp, n))
    ensures Closer(s, Next(capacity, s, Read(Dsp, n)), rest, left, c)
  {
    hide Closer, Next, Enabled;
    left := rest;
    if |rest| >= MESSAGE_SIZE {
      ReadBlock(capacity, s, rest, c);
      left := rest[MESSAGE_SIZE..];
      StillPiled(s, rest, c);
    } else {
      ReadMixture(capacity, s, rest, c, n);
      NowLost(s, rest, c, n - |rest|);
    }
  }

  lemma StillPiled(s: State, rest: string, c: Command)
    requires Piled(s, rest, c) && |rest| >= MESSAGE_SIZE
    ensures Closer(s, s.(gd := rest[MESSAGE_SIZE..] + Text(Request(c))), rest, rest[MESSAGE_SIZE..], c)
  {
  }

  lemma NowLost(s: State, rest: string, c: Command, i: nat)
    requires Piled(s, rest, c) && 0 < |rest| < MESSAGE_SIZE && 0 < i <= |Text(Request(c))|
    ensures Closer(s, s.(gd := Text(Request(c))[i..]), rest, rest, c)
  {
  }

  /** What every step lowers until the command is understood or thrown away for good. */
  function Waits(s: State): nat {
    |s.gd| + (if s.rev.pc == Hangup then 1 else 0) + (if s.dsp.pc == Failed then 0 else 1)
  }

  predicate Progressed(s: State, t: State) {
    t.gui.audio == s.gui.audio && t.turns == s.turns && Waits(t) < Waits(s)
  }

  lemma LostStep(capacity: nat, s: State, c: Command, a: Action)
    requires Lost(s, c) && Calm(capacity, s, a) && Internal(a)
    ensures var t := Next(capacity, s, a);
      Lost(t, c) && Progressed(s, t) && (a.Read? ==> t.dsp.pc == s.dsp.pc)
  {
    if s.dsp.pc == Failed {
      assert a == Run(Rev) && s.rev.pc == Hangup;
      ReverseHangsUp(capacity, s);
    } else {
      PiledAction(capacity, s, c, a);
      if a == Run(Rev) {
        ReverseHangsUp(capacity, s);
      } else if a.Read? {
        LostRead(capacity, s, c, a.n);
      }
    }
  }

  /** The end of a command that was cut is thrown away as well. */
  lemma LostRead(capacity: nat, s: State, c: Command, n: nat)
    requires Lost(s, c) && s.dsp.pc == Hear(ForCommand) && n == |s.gd|
    requires Enabled(capacity, s, Read(Dsp, n))
    ensures Next(capacity, s, Read(Dsp, n)) == s.(gd := "") && Lost(s.(gd := ""), c)
  {
    var text := Text(Request(c));
    var i: nat :| 0 < i <= |text| && s.gd == text[i..];
    TailIgnored(c, i);
    assert s.gd[..n] == s.gd && s.gd[n..] == "";
    ReadIgnored(capacity, s, n);
    assert text[|text|..] == "";
  }

  /** Nothing is left in front of the command: it is as if the user had waited. */
  lemma AloneInPhase(s: State, c: Command)
    requires Piled(s, "", c)
    ensures InPhase(Talking(Request(c)), s)
  {
    assert "" + Text(Request(c)) == Text(Request(c));
    BurstFits(Talking(Request(c)));
  }

  /** The command is served as if the user had waited. */
  predicate Served(s: State, c: Command, t: State) {
    if c == ExitProgram then Ended(t) else Outcome(s, t)
  }

  /** The command has had no effect.  The GUI waits for the answer to "reverse", or has
  ended; in that case DSP has found the end of the stream and has ended by an exception,
  without a word to Reverse, which waits for a connection. */
  predicate Dropped(s: State, c: Command, t: State) {
    && t.rev.pc == Accept && Silent(t)
    && t.gui.audio == s.gui.audio && t.turns == s.turns
    && (if c == ExitProgram then t.gui.pc == Exit(Gui) && t.dsp.pc == Failed
        else t.gui.pc == Hear(ForReady) && t.dsp.pc == Hear(ForCommand))
  }

  lemma LostStuck(capacity: nat, t: State, c: Command)
    requires Lost(t, c) && Stuck(capacity, t)
    ensures Dropped(t, c, t)
  {
    if t.rev.pc == Hangup {
      ReverseHangsUp(capacity, t);
      assert Calm(capacity, t, Run(Rev));
    }
    if t.dsp.pc != Failed {
      if t.gd != "" {
        assert Calm(capacity, t, Read(Dsp, |t.gd|));
      } else if c == ExitProgram {
        assert Calm(capacity, t, Fail(Dsp));
      }
    }
  }

  lemma {:induction false} LostRun(capacity: nat, s: State, c: Command, acts: seq<Action>)
    requires Lost(s, c) && InternalRun(capacity, s, acts)
    ensures var t := After(capacity, s, acts);
      Lost(t, c) && t.gui.audio == s.gui.audio && t.turns == s.turns
    decreases |acts|
  {
    if acts != [] {
      LostStep(capacity, s, c, acts[0]);
      LostRun(capacity, Next(capacity, s, acts[0]), c, acts[1..]);
    }
  }

  lemma PiledNotStuck(capacity: nat, s: State, rest: string, c: Command)
    requires Piled(s, rest, c)
    ensures !Stuck(capacity, s)
  {
    assert Calm(capacity, s, Read(Dsp, Smaller(|s.gd|, MESSAGE_SIZE)));
  }

  /** A command given while `rest` was unread is served in every interleaving if `rest` is
  a whole number of blocks of 1024 bytes, and in none otherwise. */
  lemma {:induction false} ImpatientCommand(capacity: nat, s: State, rest: string, c: Command, acts: seq<Action>)
    requires Piled(s, rest, c) && capacity >= CHUNK_BYTES
    requires InternalRun(capacity, s, acts) && Stuck(capacity, After(capacity, s, acts))
    ensures var t := After(capacity, s, acts);
      && (Served(s, c, t) <==> |rest| % MESSAGE_SIZE == 0)
      && (Dropped(s, c, t) <==> |rest| % MESSAGE_SIZE != 0)
    decreases |acts|
  {
    hide Next, Piled, Lost, Stuck, Internal;
    if rest == "" {
      AloneServed(capacity, s, c, acts);
    } else {
      if acts == [] {
        PiledNotStuck(capacity, s, rest, c);
      }
      var next := Next(capacity, s, acts[0]);
      var left := PiledStep(capacity, s, rest, c, acts[0]);
      if Lost(next, c) && |rest| % MESSAGE_SIZE != 0 {
        LostDropped(capacity, next, c, acts[1..]);
      } else {
        ImpatientCommand(capacity, next, left, c, acts[1..]);
      }
    }
  }

  lemma AloneServed(capacity: nat, s: State, c: Command, acts: seq<Action>)
    requires Piled(s, "", c) && capacity >= CHUNK_BYTES
    requires InternalRun(capacity, s, acts) && Stuck(capacity, After(capacity, s, acts))
    ensures Served(s, c, After(capacity, s, acts)) && !Dropped(s, c, After(capacity, s, acts))
  {
    AloneInPhase(s, c);
    if c == ExitProgram {
      BriefServed(capacity, c, s, acts);
    } else {
      ReverseServed(capacity, s, acts);
    }
  }

  lemma LostDropped(capacity: nat, s: State, c: Command, acts: seq<Action>)
    requires Lost(s, c) && InternalRun(capacity, s, acts) && Stuck(capacity, After(capacity, s, acts))
    ensures Dropped(s, c, After(capacity, s, acts)) && !Served(s, c, After(capacity, s, acts))
  {
    LostRun(capacity, s, c, acts);
    LostStuck(capacity, After(capacity, s, acts), c);
  }

  /** The reads of DSP alone: those that empty the queue end with DSP answering "reverse"
  or calling Reverse to tell it "exit" if the unread commands are a whole number of
  blocks, and with DSP waiting for a command otherwise. */
  lemma {:induction false} Drained(capacity: nat, s: State, rest: string, c: Command, acts: seq<Action>)
    requires Piled(s, rest, c) && InternalRun(capacity, s, acts)
    requires (forall a :: a in acts ==> a.Read?) && After(capacity, s, acts).gd == ""
    ensures After(capacity, s, acts).dsp.pc ==
      if |rest| % MESSAGE_SIZE != 0 then Hear(ForCommand) else if c == ReverseAudio then Say(AnswerReady) else Dial(TellExit)
    decreases |acts|
  {
    assert acts != [];
    hide Next, Piled, Lost, Internal;
    var next := Next(capacity, s, acts[0]);
    FirstRead(capacity, s, acts);
    if rest == "" {
      DrainedAlone(capacity, s, c, acts);
    } else {
      var left := PiledStep(capacity, s, rest, c, acts[0]);
      if Lost(next, c) && |rest| % MESSAGE_SIZE != 0 {
        LostReads(capacity, next, c, acts[1..]);
      } else {
        Drained(capacity, next, left, c, acts[1..]);
      }
    }
  }

  lemma DrainedAlone(capacity: nat, s: State, c: Command, acts: seq<Action>)
    requires Piled(s, "", c) && InternalRun(capacity, s, acts)
    requires (forall a :: a in acts ==> a.Read?) && acts != []
    ensures After(capacity, s, acts).dsp.pc == if c == ReverseAudio then Say(AnswerReady) else Dial(TellExit)
  {
    hide Piled, Next;
    FirstRead(capacity, s, acts);
    CommandAloneRead(capacity, s, c, acts[0]);
    if acts[1..] != [] {
      FirstRead(capacity, Next(capacity, s, acts[0]), acts[1..]);
    }
  }

  /** After the command has been read alone, no process can read. */
  lemma CommandAloneRead(capacity: nat, s: State, c: Command, a: Action)
    requires Piled(s, "", c) && Calm(capacity, s, a) && a.Read?
    ensures var t := Next(capacity, s, a);
      && t.dsp.pc == (if c == ReverseAudio then Say(AnswerReady) else Dial(TellExit))
      && forall b: Action :: b.Read? ==> !Calm(capacity, t, b)
  {
    var pc := if c == ReverseAudio then Say(AnswerReady) else Dial(TellExit);
    PiledAction(capacity, s, c, a);
    UnderstoodRead(capacity, s, c, a.n, pc);
    var t := s.(gd := "", dsp := Enter(s.dsp, pc));
    NobodyReads(capacity, t);
  }

  lemma UnderstoodRead(capacity: nat, s: State, c: Command, n: nat, pc: Pc)
    requires Standing(s.dsp, Hear(ForCommand)) && s.gd == Text(Request(c)) && n == |s.gd|
    requires AfterHearing(Hear(ForCommand), s.gd) == pc && Enabled(capacity, s, Read(Dsp, n))
    ensures Next(capacity, s, Read(Dsp, n)) == s.(gd := "", dsp := Enter(s.dsp, pc))
  {
    assert s.gd[..n] == s.gd && s.gd[n..] == "";
  }

  lemma NobodyReads(capacity: nat, t: State)
    requires !Listening(t.dsp.pc) && !Listening(t.rev.pc) && t.dg == "" && (Listening(t.gui.pc) ==> Peer(t.gui.pc) == Dsp)
    ensures forall b: Action :: b.Read? ==> !Calm(capacity, t, b)
  {
  }

  lemma FirstRead(capacity: nat, s: State, acts: seq<Action>)
    requires InternalRun(capacity, s, acts) && (forall a :: a in acts ==> a.Read?) && acts != []
    ensures acts[0].Read? && Calm(capacity, s, acts[0])
  {
    assert acts[0] in acts;
  }

  lemma {:induction false} LostReads(capacity: nat, s: State, c: Command, acts: seq<Action>)
    requires Lost(s, c) && s.dsp.pc == Hear(ForCommand) && InternalRun(capacity, s, acts)
    requires forall a :: a in acts ==> a.Read?
    ensures After(capacity, s, acts).dsp.pc == Hear(ForCommand)
    decreases |acts|
  {
    if acts != [] {
      assert acts[0] in acts;
      LostStep(capacity, s, c, acts[0]);
      LostReads(capacity, Next(capacity, s, acts[0]), c, acts[1..]);
    }
  }

  // ----- such states are reached -----

  /** As CalmRun, from `s` to `t`, but the user may be impatient. */
  predicate SettledRun(capacity: nat, s: State, acts: seq<Action>, t: State)
    decreases |acts|
  {
    if acts == [] then s == t
    else
      && Enabled(capacity, s, acts[0]) && Settled(s, acts[0])
      && SettledRun(capacity, Next(capacity, s, acts[0]), acts[1..], t)
  }

  lemma OneStep(capacity: nat, s: State, a: Action) returns (acts: seq<Action>)
    requires Enabled(capacity, s, a) && Settled(s, a)
    ensures SettledRun(capacity, s, acts, Next(capacity, s, a))
  {
    acts := [a];
    assert acts[1..] == [];
  }

  lemma {:induction false} RunsCompose(capacity: nat, s: State, a: seq<Action>, m: State, b: seq<Action>, t: State)
    requires SettledRun(capacity, s, a, m) && SettledRun(capacity, m, b, t)
    ensures SettledRun(capacity, s, a + b, t)
    decreases |a|
  {
    if a == [] {
      assert a + b == b;
    } else {
      assert (a + b)[1..] == a[1..] + b;
      RunsCompose(capacity, Next(capacity, s, a[0]), a[1..], m, b, t);
    }
  }

  lemma {:induction false} CalmIsSettled(capacity: nat, s: State, acts: seq<Action>)
    requires CalmRun(capacity, s, acts)
    ensures SettledRun(capacity, s, acts, After(capacity, s, acts))
    decreases |acts|
  {
    if acts != [] {
      CalmIsSettled(capacity, Next(capacity, s, acts[0]), acts[1..]);
    }
  }

  /** The GUI gives command `c` at the menu, and the text enters the queue. */
  lemma Written(capacity: nat, s: State, c: Command) returns (acts: seq<Action>)
    requires Standing(s.gui, Menu) && |s.gd| + |Text(Request(c))| <= capacity
    requires c == ReverseAudio ==> s.loaded && s.gui.audio.NonEmpty()
    ensures SettledRun(capacity, s, acts, s.(gui := s.gui.(pc := AfterSay(Request(c))), gd := s.gd + Text(Request(c))))
  {
    var text := Text(Request(c));
    var choice, write := Choose(c), Write(Gui, |text|);
    var t := s.(gui := s.gui.(pc := AfterSay(Request(c))), gd := s.gd + text);
    var s1 := Next(capacity, s, choice);
    assert text[..|text|] == text;
    assert Next(capacity, s1, write) == t;
    var first := OneStep(capacity, s, choice);
    var second := OneStep(capacity, s1, write);
    RunsCompose(capacity, s, first, s1, second, t);
    acts := first + second;
  }

  lemma {:induction false} WrittenAll(capacity: nat, s: State, pending: seq<Command>) returns (acts: seq<Action>)
    requires Standing(s.gui, Menu) && Unanswered(pending) && |s.gd| + |Unread(pending)| <= capacity
    ensures SettledRun(capacity, s, acts, s.(gd := s.gd + Unread(pending)))
    decreases |pending|
  {
    if pending == [] {
      acts := [];
      assert s.gd + "" == s.gd;
    } else {
      var text, rest := Text(Request(pending[0])), Unread(pending[1..]);
      var first := Written(capacity, s, pending[0]);
      var s1 := s.(gd := s.gd + text);
      assert s.gd + (text + rest) == (s.gd + text) + rest;
      var others := WrittenAll(capacity, s1, pending[1..]);
      RunsCompose(capacity, s, first, s1, others, s.(gd := s.gd + Unread(pending)));
      acts := first + others;
    }
  }

  /** All the commands of `pending` and then `c` are given before DSP reads anything. */
  lemma PilesUp(capacity: nat, file: Audio, pending: seq<Command>, c: Command) returns (acts: seq<Action>, s: State)
    requires Unanswered(pending) && (c == ReverseAudio || c == ExitProgram)
    requires c == ReverseAudio ==> file.NonEmpty()
    requires |Unread(pending)| + |Text(Request(c))| <= capacity
    ensures SettledRun(capacity, INITIAL, acts, s) && Piled(s, Unread(pending), c)
  {
    var s1 := Next(capacity, INITIAL, Open(file));
    var s2 := s1.(gd := s1.gd + Unread(pending));
    var loading := OneStep(capacity, INITIAL, Open(file));
    var written := WrittenAll(capacity, s1, pending);
    var given := Written(capacity, s2, c);
    s := s2.(gui := s2.gui.(pc := AfterSay(Request(c))), gd := s2.gd + Text(Request(c)));
    RunsCompose(capacity, INITIAL, loading, s1, written, s2);
    RunsCompose(capacity, INITIAL, loading + written, s2, given, s);
    acts := loading + written + given;
    UnreadMurmurs(pending);
    assert "" + Unread(pending) == Unread(pending);
  }

  lemma {:induction false} LostRunsDry(capacity: nat, s: State, c: Command) returns (acts: seq<Action>)
    requires Lost(s, c)
    ensures InternalRun(capacity, s, acts) && Stuck(capacity, After(capacity, s, acts))
    decreases Waits(s)
  {
    acts := [];
    if !Stuck(capacity, s) {
      var a :| Internal(a) && Calm(capacity, s, a);
      LostStep(capacity, s, c, a);
      var rest := LostRunsDry(capacity, Next(capacity, s, a), c);
      acts := [a] + rest;
      assert acts[1..] == rest;
    }
  }

  lemma {:induction false} PiledRunsDry(capacity: nat, s: State, rest: string, c: Command) returns (acts: seq<Action>)
    requires Piled(s, rest, c)
    ensures InternalRun(capacity, s, acts) && Stuck(capacity, After(capacity, s, acts))
    decreases Waits(s)
  {
    if rest == "" {
      AloneInPhase(s, c);
      acts := RunsDry(capacity, Talking(Request(c)), s);
    } else {
      PiledNotStuck(capacity, s, rest, c);
      var a :| Internal(a) && Calm(capacity, s, a);
      var left := PiledStep(capacity, s, rest, c, a);
      var t := Next(capacity, s, a);
      var more: seq<Action>;
      if Piled(t, left, c) {
        more := PiledRunsDry(capacity, t, left, c);
      } else {
        more := LostRunsDry(capacity, t, c);
      }
      acts := [a] + more;
      assert acts[1..] == more;
    }
  }

  /** `n` shift commands and two stretch commands. */
  function ShiftsThenTwo(n: nat): seq<Command> {
    if n == 0 then [StretchAudio, StretchAudio] else [ShiftAudio] + ShiftsThenTwo(n - 1)
  }

  /** 202 shifts and two stretches fill a block. */
  lemma {:induction false} ShiftsFill(n: nat)
    ensures Unanswered(ShiftsThenTwo(n)) && |Unread(ShiftsThenTwo(n))| == 5 * n + 14
    ensures n == 202 ==> |Unread(ShiftsThenTwo(n))| == MESSAGE_SIZE
  {
    if n == 0 {
      assert Unread([StretchAudio, StretchAudio][1..]) == "stretch" + "";
    } else {
      ShiftsFill(n - 1);
      assert ShiftsThenTwo(n)[1..] == ShiftsThenTwo(n - 1);
    }
  }

  /** An impatient exit, from the start to the end: for any commands given just before it
  there is a run in which all processes end if those fill whole blocks of 1024 bytes, and
  in which otherwise the exit is lost, DSP ends by an exception and Reverse waits on. */
  lemma ImpatientExit(capacity: nat, pending: seq<Command>) returns (acts: seq<Action>, t: State)
    requires capacity >= CHUNK_BYTES && Unanswered(pending) && |Unread(pending)| + 4 <= capacity
    ensures SettledRun(capacity, INITIAL, acts, t) && Stuck(capacity, t) && t.gui.pc == Exit(Gui)
    ensures if |Unread(pending)| % MESSAGE_SIZE == 0 then Ended(t) else t.dsp.pc == Failed && t.rev.pc == Accept
  {
    var before, s := PilesUp(capacity, SILENCE, pending, ExitProgram);
    var after := PiledRunsDry(capacity, s, Unread(pending), ExitProgram);
    t := After(capacity, s, after);
    ImpatientCommand(capacity, s, Unread(pending), ExitProgram, after);
    CalmIsSettled(capacity, s, after);
    RunsCompose(capacity, INITIAL, before, s, after, t);
    acts := before + after;
  }
}
