/** Calm runs between two commands are of bounded length, and where they end. */
module Liveness {
  import opened Wire
  import opened Framing
  import opened Audio
  import opened Service
  import opened Phases

  // ----- a measure that every step lowers -----

  /** How far a phase is from the end of its command. */
  function Distance(ph: Phase): nat {
    match ph
    case Talking(AskReverse) => 22
    case Talking(AnswerReady) => 21
    case Playing(leg, Left) => Ahead(leg) + 2
    case Confirming(leg) => Ahead(leg) + 1
    case Playing(leg, Right) => Ahead(leg)
    case Talking(TellRun) => 16
    case Dialing(errand) => if errand == TellExit then 4 else 17
    case Talking(ReplyReady) => 15
    case Turning => 11
    case Talking(ReplyDone) => 10
    case Talking(TellReady) => 9
    case Parting => 5
    case Talking(AskExit) => 5
    case Talking(TellExit) => 3
    case Talking(_) => 1
    case Idle => 0
    case Over => 0
  }

  function Ahead(leg: Leg): nat {
    match leg case Upload => 18 case Forward => 12 case Return => 6 case Download => 2
  }

  predicate Errand(ph: Phase) {
    ph.Dialing? ==> ph.errand == TellRun || ph.errand == TellExit
  }

  lemma SuccCloser(ph: Phase)
    requires ph != Idle && ph != Over && Errand(ph)
    ensures Distance(Succ(ph)) < Distance(ph) && Errand(Succ(ph))
  {
  }

  /** The bytes that a phase moves. */
  function Size(ph: Phase, a: Audio): nat {
    match ph
    case Talking(m) => |Text(m)|
    case Playing(leg, side) => |Stream(Cargo(leg, a).Channel(side))|
    case Confirming(_) => 9
    case _ => 0
  }

  /** A bound on the steps of the phases after `ph`. */
  function Budget(ph: Phase, a: Audio): nat
    requires Errand(ph)
    decreases Distance(ph)
  {
    if ph == Idle || ph == Over then 0
    else
      SuccCloser(ph);
      3 * Size(Succ(ph), a) + 3 + Budget(Succ(ph), a)
  }

  /** The bytes on their way, those not yet in a queue counting more. */
  function Traffic(s: State): nat {
    3 * (|s.gui.out| + |s.dsp.out| + |s.rev.out|) + |s.gd| + |s.dg| + |s.dr| + |s.rd|
  }

  function Chores(s: State): nat {
    (if s.rev.pc == Hangup || s.rev.pc == HangupExit then 1 else 0) + (if s.dsp.pc == Close then 1 else 0)
  }

  function Energy(ph: Phase, s: State): nat
    requires Errand(ph)
  {
    Budget(ph, s.gui.audio) + Traffic(s) + Chores(s)
  }

  lemma ControlErrand(ph: Phase, s: State)
    requires Control(ph, s)
    ensures Errand(ph)
  {
  }

  /** A phase has no more on the way than it moves. */
  lemma TrafficBounded(ph: Phase, s: State)
    requires InPhase(ph, s)
    ensures Traffic(s) <= 3 * Size(ph, s.gui.audio)
  {
    if IsBurst(ph) {
      BurstFits(ph);
      var b := BurstOf(ph);
      assert |Rest(ph, s)| <= Size(ph, s.gui.audio);
      assert s.At(Third(b)).out == "";
    }
  }

  lemma GuiAudioStep(capacity: nat, s: State, a: Action)
    requires Enabled(capacity, s, a) && Internal(a)
    ensures var t := Next(capacity, s, a);
      || (t.gui.audio == s.gui.audio && t.turns == s.turns)
      || (a.Read? && a.p == Gui && s.gui.pc.Record? && s.gui.pc.side == Right)
      || (a == Run(Gui) && s.gui.pc == Turn)
  {
  }

  /** Only the end of the last transfer gives the GUI new audio. */
  lemma AudioKept(capacity: nat, ph: Phase, s: State, a: Action)
    requires InPhase(ph, s) && Calm(capacity, s, a) && Internal(a)
    ensures var t := Next(capacity, s, a);
      (t.gui.audio == s.gui.audio && t.turns == s.turns) || (ph == Playing(Download, Right) && a.Read? && a.n < CHUNK_BYTES)
  {
    GuiAudioStep(capacity, s, a);
    if a.Read? && a.p == Gui && s.gui.pc.Record? && s.gui.pc.side == Right {
      ReaderInBurst(capacity, ph, s, a);
      assert ph == Playing(Download, Right);
      if a.n != CHUNK_BYTES {
        PlayingLastTaken(capacity, Download, Right, s, a);
      } else {
        PlayingFullTaken(capacity, Download, Right, s, a);
      }
    } else if a == Run(Gui) && s.gui.pc == Turn {
      GuiNeverTurns(ph, s);
    }
  }

  lemma GuiNeverTurns(ph: Phase, s: State)
    requires Control(ph, s)
    ensures s.gui.pc != Turn
  {
    if IsBurst(ph) {
      BurstFits(ph);
    }
  }

  lemma TrafficChange(s: State, p: Node, q: Node, bytes: string, r: Node, x: Process)
    requires p != q && (p == Dsp || q == Dsp)
    ensures Traffic(s.Store(p, q, bytes).Put(r, x))
         == Traffic(s) - |s.Queue(p, q)| + |bytes| - 3 * |s.At(r).out| + 3 * |x.out|
  {
  }

  lemma WriteLowersEnergy(capacity: nat, ph: Phase, s: State, a: Action)
    requires InPhase(ph, s) && Enabled(capacity, s, a) && a.Write?
    ensures Traffic(Next(capacity, s, a)) + Chores(Next(capacity, s, a)) < Traffic(s) + Chores(s)
  {
    WriterInBurst(capacity, ph, s, a);
    BurstFits(ph);
    var b := BurstOf(ph);
    WriteMoving(capacity, s, b, Rest(ph, s), a);
    var t := Next(capacity, s, a);
    TrafficChange(s, b.src, b.dst, t.Queue(b.src, b.dst), b.src, t.At(b.src));
    assert |t.Queue(b.src, b.dst)| == |s.Queue(b.src, b.dst)| + a.n;
    OneMoreChore(s, t, b.src);
  }

  lemma OneMoreChore(s: State, t: State, p: Node)
    requires p != Rev ==> t.rev.pc == s.rev.pc
    requires p != Dsp ==> t.dsp.pc == s.dsp.pc
    ensures Chores(t) <= Chores(s) + 1
  {
  }

  lemma FullReadLowersEnergy(capacity: nat, leg: Leg, side: Side, s: State, a: Action)
    requires InPhase(Playing(leg, side), s) && Calm(capacity, s, a) && a.Read? && a.n == CHUNK_BYTES
    ensures Traffic(Next(capacity, s, a)) + Chores(Next(capacity, s, a)) < Traffic(s) + Chores(s)
  {
    PlayingFullTaken(capacity, leg, side, s, a);
  }

  lemma ChoreLowersEnergy(capacity: nat, ph: Phase, s: State, a: Action)
    requires InPhase(ph, s) && Enabled(capacity, s, a) && Chore(s, a)
    ensures Traffic(Next(capacity, s, a)) + Chores(Next(capacity, s, a)) < Traffic(s) + Chores(s)
  {
    ChoreNext(capacity, ph, s, a);
    ChoreActor(ph, s, a.p);
    var pc := AfterComputing(s.At(a.p).pc);
    JumpTraffic(s, a.p, pc);
  }

  lemma JumpTraffic(s: State, p: Node, pc: Pc)
    ensures Traffic(s.Put(p, s.At(p).(pc := pc))) == Traffic(s)
  {
  }

  lemma AdvanceLowersEnergy(ph: Phase, s: State, t: State)
    requires InPhase(ph, s) && ph != Idle && ph != Over && InPhase(Succ(ph), t)
    requires t.gui.audio == s.gui.audio || Succ(ph) == Idle
    ensures Errand(ph) && Errand(Succ(ph)) && Energy(Succ(ph), t) < Energy(ph, s)
  {
    ControlErrand(ph, s);
    SuccCloser(ph);
    TrafficBounded(Succ(ph), t);
  }

  /** The steps that end a phase: a connect or a statement of the phase itself, and a read
  that takes the last of a burst. */
  predicate Advances(ph: Phase, s: State, a: Action) {
    (a.Run? && !Chore(s, a)) || (a.Read? && !(ph.Playing? && a.n == CHUNK_BYTES))
  }

  /** Every step but the user's keeps the phase or advances it, and lowers the measure. */
  lemma StepLowersEnergy(capacity: nat, ph: Phase, s: State, a: Action) returns (next: Phase)
    requires InPhase(ph, s) && Calm(capacity, s, a) && Internal(a)
    ensures next == if Advances(ph, s, a) then Succ(ph) else ph
    ensures Advances(ph, s, a) ==> ph != Idle && ph != Over
    ensures InPhase(next, Next(capacity, s, a)) && Errand(ph) && Errand(next)
    ensures Energy(next, Next(capacity, s, a)) < Energy(ph, s)
    ensures next == ph ==> Next(capacity, s, a).gui.audio == s.gui.audio && Next(capacity, s, a).turns == s.turns
    ensures ph.Playing? && next != ph ==> Framed(Cargo(ph.leg, s.gui.audio).Channel(ph.side))
  {
    var t := Next(capacity, s, a);
    ControlErrand(ph, s);
    AudioKept(capacity, ph, s, a);
    next := ph;
    if a.Fail? {
      NoFailure(capacity, ph, s, a.p);
    } else if a.Write? {
      WriteKeepsPhase(capacity, ph, s, a);
      WriteLowersEnergy(capacity, ph, s, a);
    } else if a.Run? && Chore(s, a) {
      ChoreKeepsPhase(capacity, ph, s, a);
      ChoreLowersEnergy(capacity, ph, s, a);
    } else if a.Run? {
      RunAdvances(capacity, ph, s, a);
      RunBetweenBursts(capacity, ph, s, a);
      AdvanceLowersEnergy(ph, s, t);
      next := Succ(ph);
    } else {
      next := ReadLowersEnergy(capacity, ph, s, a);
    }
  }

  lemma ReadLowersEnergy(capacity: nat, ph: Phase, s: State, a: Action) returns (next: Phase)
    requires InPhase(ph, s) && Calm(capacity, s, a) && a.Read?
    ensures next == if Advances(ph, s, a) then Succ(ph) else ph
    ensures Advances(ph, s, a) ==> ph != Idle && ph != Over
    ensures InPhase(next, Next(capacity, s, a)) && Errand(ph) && Errand(next)
    ensures Energy(next, Next(capacity, s, a)) < Energy(ph, s)
    ensures ph.Playing? && next != ph ==> Framed(Cargo(ph.leg, s.gui.audio).Channel(ph.side))
  {
    var t := Next(capacity, s, a);
    ControlErrand(ph, s);
    AudioKept(capacity, ph, s, a);
    ReaderInBurst(capacity, ph, s, a);
    next := Succ(ph);
    match ph {
      case Talking(m) =>
        TalkingRead(capacity, m, s, a);
        AdvanceLowersEnergy(ph, s, t);
      case Confirming(leg) =>
        ConfirmingRead(capacity, leg, s, a);
        AdvanceLowersEnergy(ph, s, t);
      case Playing(leg, side) =>
        if a.n == CHUNK_BYTES {
          next := ph;
          PlayingFullRead(capacity, leg, side, s, a);
          FullReadLowersEnergy(capacity, leg, side, s, a);
        } else {
          PlayingShortRead(capacity, leg, side, s, a);
          AdvanceLowersEnergy(ph, s, t);
        }
    }
  }

  // ----- no step is possible only at rest -----

  /** All three processes are back at their idle reads. */
  predicate Resting(s: State) {
    s.gui.pc == Menu && s.dsp.pc == Hear(ForCommand) && s.rev.pc == Accept && Silent(s)
  }

  /** All three processes have ended. */
  predicate Ended(s: State) {
    s.gui.pc == Exit(Gui) && s.dsp.pc == Exit(Dsp) && s.rev.pc == Exit(Rev)
  }

  /** A receive loop has taken everything sent and waits for a short chunk. */
  predicate Starved(ph: Phase, s: State) {
    && ph.Playing?
    && !Framed(Cargo(ph.leg, s.gui.audio).Channel(ph.side))
    && s.At(Receiver(ph.leg)).pc == Record(ph.leg, ph.side)
    && Silent(s)
  }

  /** No process can take a step, unless the user acts. */
  ghost predicate Stuck(capacity: nat, s: State) {
    forall a :: Internal(a) ==> !Calm(capacity, s, a)
  }

  lemma BurstProgress(capacity: nat, ph: Phase, s: State) returns (a: Action)
    requires InPhase(ph, s) && IsBurst(ph) && capacity >= CHUNK_BYTES
    requires !Starved(ph, s)
    ensures Internal(a) && Calm(capacity, s, a)
  {
    BurstFits(ph);
    var b := BurstOf(ph);
    var x := s.At(b.src);
    var q := s.Queue(b.src, b.dst);
    if |q| >= Room(b.at) {
      a := Read(b.dst, Room(b.at));
    } else if x.pc == b.from {
      a := Write(b.src, 1);
    } else if q != "" {
      assert Unsent(s, b.src, b.dst) == "";
      a := Read(b.dst, |q|);
    } else {
      NothingLeft(ph, s);
    }
  }

  lemma NothingLeft(ph: Phase, s: State)
    requires InPhase(ph, s) && IsBurst(ph) && Rest(ph, s) == ""
    ensures Starved(ph, s)
  {
    BurstFits(ph);
    if ph.Playing? {
      var ch := Cargo(ph.leg, s.gui.audio).Channel(ph.side);
      var got := s.At(Receiver(ph.leg)).box.Channel(ph.side);
      assert Encode(Sent(ch)[|got|..]) == "";
      assert |got| == |Sent(ch)|;
      SentWhole(ch);
    }
  }

  /** In every state of a calm run some process can go on, unless all are at rest or a
  channel of a multiple of the chunk size is being received. */
  lemma Progress(capacity: nat, ph: Phase, s: State) returns (a: Action)
    requires InPhase(ph, s) && capacity >= CHUNK_BYTES
    requires !Resting(s) && !Ended(s) && !Starved(ph, s)
    ensures Internal(a) && Calm(capacity, s, a)
  {
    if IsBurst(ph) {
      a := BurstProgress(capacity, ph, s);
    } else if s.rev.pc == Hangup || s.rev.pc == HangupExit || ph == Turning {
      a := Run(Rev);
    } else {
      a := Run(Dsp);
    }
  }
}
