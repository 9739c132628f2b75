/** The reachable states of a calm run, phase by phase.

A reverse command is a chain of bursts.  Each burst has one sender and one receiver,
and its receiver sends the next one, so at any time one queue at most is in use; the
sender, once its write is over, may already be at its own next statement. */
module Phases {
  import opened Wire
  import opened Framing
  import opened Audio
  import opened Service

  datatype Phase =
    | Talking(m: Message)               // a message of a main program is under way
    | Playing(leg: Leg, side: Side)     // one channel is under way
    | Confirming(leg: Leg)              // "CONFIRMED" is under way
    | Dialing(errand: Message)          // DSP is about to connect to Reverse
    | Turning                           // Reverse has the audio
    | Parting                           // DSP has the reversed audio
    | Idle
    | Over

  /** Bytes going from program point `from` of `src` to program point `at` of `dst`. */
  datatype Burst = Burst(src: Node, from: Pc, dst: Node, at: Pc)

  predicate IsBurst(ph: Phase) {
    ph.Talking? || ph.Playing? || ph.Confirming?
  }

  function HeardAt(m: Message): Prompt {
    match m
    case AnswerReady => ForReady
    case TellRun => ForRequest
    case TellReady => ForSendReady
    case TellExit => ForRequest
    case ReplyReady => ForRunReady
    case ReplyDone => ForDone
    case _ => ForCommand
  }

  function BurstOf(ph: Phase): Burst
    requires IsBurst(ph)
  {
    match ph
    case Talking(m) => Burst(Author(m), Say(m), Addressee(m), Hear(HeardAt(m)))
    case Playing(leg, side) => Burst(Sender(leg), Play(leg, side), Receiver(leg), Record(leg, side))
    case Confirming(leg) => Burst(Receiver(leg), Confirm(leg), Sender(leg), AwaitConfirm(leg))
  }

  /** The audio a leg carries, `a` being that of the GUI. */
  function Cargo(leg: Leg, a: Audio): Audio {
    if leg == Upload || leg == Forward then a else ReversedAudio(a)
  }

  /** The part of the burst that its receiver has not taken yet. */
  function Rest(ph: Phase, s: State): string
    requires IsBurst(ph)
  {
    match ph
    case Talking(m) => Text(m)
    case Playing(leg, side) =>
      var sent := Sent(Cargo(leg, s.gui.audio).Channel(side));
      var got := |s.At(Receiver(leg)).box.Channel(side)|;
      if got <= |sent| then Encode(sent[got..]) else ""
    case Confirming(_) => "CONFIRMED"
  }

  /** Where a sender can be when its write is over. */
  predicate Past(pc: Pc, from: Pc)
    requires Speaking(from)
  {
    || pc == AfterSpeaking(from)
    || (from == Play(Return, Right) && pc == Accept)
    || (from == Say(TellExit) && pc == Exit(Dsp))
  }

  predicate Silent(s: State) {
    s.gd == "" && s.dg == "" && s.dr == "" && s.rd == ""
  }

  /** At rest at `pc`, not having begun its work there. */
  predicate Standing(x: Process, pc: Pc) {
    x.pc == pc && x.out == "" && (pc.Record? && pc.side == Left ==> x.box == SILENCE)
  }

  predicate Available(x: Process) {
    Standing(x, Accept) || Standing(x, Hangup)
  }

  predicate Fits(b: Burst) {
    && Speaking(b.from) && Peer(b.from) == b.dst && !Speaking(AfterSpeaking(b.from))
    && Listening(b.at) && Peer(b.at) == b.src
    && b.src != b.dst && (b.src == Dsp || b.dst == Dsp)
  }

  predicate Moving(s: State, b: Burst, rest: string)
    requires Fits(b)
  {
    var x := s.At(b.src);
    var y := s.At(b.dst);
    && y.pc == b.at && y.out == ""
    && s.Queue(b.src, b.dst) + x.out == rest
    && (if x.pc == b.from then x.out != "" else Past(x.pc, b.from) && Standing(x, x.pc))
    && Silent(s.Store(b.src, b.dst, ""))
  }

  function Third(b: Burst): Node {
    if b.src == Gui || b.dst == Gui then Rev else Gui
  }

  /** The process that takes no part in the phase. */
  predicate Bystander(ph: Phase, s: State)
    requires IsBurst(ph)
  {
    if Third(BurstOf(ph)) == Rev then Available(s.rev)
    else if ph == Talking(TellExit) then Standing(s.gui, Exit(Gui))
    else Standing(s.gui, Record(Download, Left))
  }

  lemma BurstFits(ph: Phase)
    requires IsBurst(ph)
    ensures Fits(BurstOf(ph))
  {
  }

  predicate Control(ph: Phase, s: State) {
    match ph
    case Dialing(errand) =>
      && (errand == TellRun || errand == TellExit)
      && Standing(s.gui, if errand == TellRun then Record(Download, Left) else Exit(Gui))
      && Standing(s.dsp, Dial(errand)) && Available(s.rev) && Silent(s)
    case Turning =>
      Standing(s.gui, Record(Download, Left)) && Standing(s.dsp, Hear(ForDone)) && Standing(s.rev, Turn) && Silent(s)
    case Parting =>
      Standing(s.gui, Record(Download, Left)) && Standing(s.dsp, Part) && Available(s.rev) && Silent(s)
    case Idle =>
      Standing(s.gui, Menu) && Standing(s.dsp, Hear(ForCommand)) && Available(s.rev) && Silent(s)
    case Over =>
      && Standing(s.gui, Exit(Gui)) && Silent(s)
      && (Standing(s.dsp, Close) || Standing(s.dsp, Exit(Dsp)))
      && (Standing(s.rev, HangupExit) || Standing(s.rev, Exit(Rev)))
    case _ =>
      BurstFits(ph);
      Moving(s, BurstOf(ph), Rest(ph, s)) && Bystander(ph, s)
  }

  /** A reverse command is being served; the leg is the one whose sender has the audio. */
  predicate Serving(ph: Phase) {
    match ph
    case Talking(m) => m != AskShift && m != AskStretch && m != AskExit && m != TellExit
    case Dialing(errand) => errand == TellRun
    case Turning => false
    case Idle => false
    case Over => false
    case _ => true
  }

  function LegOf(ph: Phase): Leg
    requires Serving(ph)
  {
    match ph
    case Talking(m) =>
      if m == AskReverse || m == AnswerReady then Upload
      else if m == ReplyDone || m == TellReady then Return
      else Forward
    case Playing(leg, _) => leg
    case Confirming(leg) => leg
    case Dialing(_) => Forward
    case Parting => Download
  }

  /** A container in the course of one channel loop. */
  predicate Filling(got: seq<Sample>, ch: seq<Sample>) {
    got <= Sent(ch) && |got| % CHUNK_SIZE == 0
  }

  /** What the container of the receiver holds. */
  predicate Boxed(ph: Phase, s: State) {
    match ph
    case Playing(leg, Left) =>
      var box := s.At(Receiver(leg)).box;
      box.right == [] && Filling(box.left, Cargo(leg, s.gui.audio).left)
    case Confirming(leg) =>
      s.At(Receiver(leg)).box == Audio(Cargo(leg, s.gui.audio).left, [])
    case Playing(leg, Right) =>
      var box := s.At(Receiver(leg)).box;
      box.left == Cargo(leg, s.gui.audio).left && Filling(box.right, Cargo(leg, s.gui.audio).right)
    case _ => true
  }

  /** The phases that audio `a` can get to: a channel that is not framed is not got past. */
  predicate Allows(a: Audio, ph: Phase) {
    match ph
    case Talking(m) => m == AskReverse || m == AnswerReady || a.IsFramed()
    case Playing(Upload, Left) => true
    case Confirming(Upload) => Framed(a.left)
    case Playing(Upload, Right) => Framed(a.left)
    case _ => a.IsFramed()
  }

  predicate Data(ph: Phase, s: State) {
    var a := s.gui.audio;
    && a == ReversedTimes(s.original, s.turns)
    && (Serving(ph) || ph == Turning ==> Allows(a, ph))
    && (Serving(ph) ==> a.NonEmpty() && s.At(Sender(LegOf(ph))).audio == Cargo(LegOf(ph), a))
    && (ph == Turning ==> a.NonEmpty() && s.rev.audio == a)
    && Boxed(ph, s)
  }

  predicate InPhase(ph: Phase, s: State) {
    Control(ph, s) && Data(ph, s)
  }

  ghost predicate Inv(s: State) {
    exists ph :: InPhase(ph, s)
  }

  // ----- writes -----

  /** Only the sender of a burst can write, and its write leaves the burst as it was. */
  lemma WriteMoving(capacity: nat, s: State, b: Burst, rest: string, a: Action)
    requires Fits(b) && Moving(s, b, rest) && !Speaking(s.At(Third(b)).pc)
    requires Enabled(capacity, s, a) && a.Write?
    ensures a.p == b.src && s.At(b.src).pc == b.from
    ensures var t := Next(capacity, s, a);
      && Moving(t, b, rest)
      && t == s.Store(b.src, b.dst, t.Queue(b.src, b.dst)).Put(b.src, t.At(b.src))
      && t.At(b.src).audio == s.At(b.src).audio
      && (!AfterSpeaking(b.from).Record? || AfterSpeaking(b.from).side == Right ==> t.At(b.src).box == s.At(b.src).box)
  {
    var x := s.At(b.src);
    var q := s.Queue(b.src, b.dst);
    assert a.p == b.src && x.pc == b.from;
    HandedOver(q, x.out, a.n);
  }

  lemma HandedOver(q: string, out: string, n: nat)
    requires n <= |out|
    ensures (q + out[..n]) + out[n..] == q + out
    ensures n == |out| ==> (q + out[..n]) + "" == q + out && out[n..] == ""
  {
    assert out[..n] + out[n..] == out;
  }

  /** Nobody writes between bursts. */
  lemma WriterInBurst(capacity: nat, ph: Phase, s: State, a: Action)
    requires Control(ph, s) && Enabled(capacity, s, a) && a.Write?
    ensures IsBurst(ph) && !Speaking(s.At(Third(BurstOf(ph))).pc)
  {
  }

  /** A step of the sender alone does not touch what the burst delivers. */
  lemma SenderStepKeepsData(ph: Phase, s: State, t: State)
    requires IsBurst(ph) && Fits(BurstOf(ph)) && Data(ph, s)
    requires var b := BurstOf(ph);
      && t == s.Store(b.src, b.dst, t.Queue(b.src, b.dst)).Put(b.src, t.At(b.src))
      && t.At(b.src).audio == s.At(b.src).audio
      && (!AfterSpeaking(b.from).Record? || AfterSpeaking(b.from).side == Right ==> t.At(b.src).box == s.At(b.src).box)
    ensures Data(ph, t) && Rest(ph, t) == Rest(ph, s)
  {
  }

  lemma WriteKeepsPhase(capacity: nat, ph: Phase, s: State, a: Action)
    requires InPhase(ph, s) && Enabled(capacity, s, a) && a.Write?
    ensures IsBurst(ph) && InPhase(ph, Next(capacity, s, a))
  {
    WriterInBurst(capacity, ph, s, a);
    BurstFits(ph);
    var b := BurstOf(ph);
    WriteMoving(capacity, s, b, Rest(ph, s), a);
    var t := Next(capacity, s, a);
    SenderStepKeepsData(ph, s, t);
    assert t.At(Third(b)) == s.At(Third(b));
    assert Bystander(ph, t);
  }

  // ----- reads -----

  function Succ(ph: Phase): Phase {
    match ph
    case Talking(AskReverse) => Talking(AnswerReady)
    case Talking(AskShift) => Idle
    case Talking(AskStretch) => Idle
    case Talking(AskExit) => Dialing(TellExit)
    case Talking(AnswerReady) => Playing(Upload, Left)
    case Talking(TellRun) => Talking(ReplyReady)
    case Talking(TellReady) => Playing(Return, Left)
    case Talking(TellExit) => Over
    case Talking(ReplyReady) => Playing(Forward, Left)
    case Talking(ReplyDone) => Talking(TellReady)
    case Playing(leg, Left) => Confirming(leg)
    case Playing(Upload, Right) => Dialing(TellRun)
    case Playing(Forward, Right) => Turning
    case Playing(Return, Right) => Parting
    case Playing(Download, Right) => Idle
    case Confirming(leg) => Playing(leg, Right)
    case Dialing(errand) => Talking(errand)
    case Turning => Talking(ReplyDone)
    case Parting => Playing(Download, Left)
    case Idle => Idle
    case Over => Over
  }

  /** Only the receiver of a burst has something to read. */
  lemma ReaderInBurst(capacity: nat, ph: Phase, s: State, a: Action)
    requires Control(ph, s) && Enabled(capacity, s, a) && a.Read?
    ensures IsBurst(ph) && a.p == BurstOf(ph).dst
  {
    if IsBurst(ph) {
      BurstFits(ph);
    }
  }

  /** A process that enters a write starts a burst. */
  lemma Launch(t: State, b: Burst, x: Process, rest: string)
    requires Fits(b) && Silent(t.Store(b.src, b.dst, "")) && t.Queue(b.src, b.dst) == ""
    requires t.At(b.src) == Enter(x, b.from) && Load(x, b.from) == rest
    requires Standing(t.At(b.dst), b.at)
    ensures Moving(t, b, rest)
  {
  }

  /** A settled read of a message returns exactly the message, and its sender is done. */
  lemma TextRead(capacity: nat, s: State, b: Burst, rest: string, a: Action)
    requires Fits(b) && Moving(s, b, rest) && !b.at.Record? && |rest| < MESSAGE_SIZE
    requires Enabled(capacity, s, a) && Settled(s, a) && a.Read? && a.p == b.dst
    ensures s.At(b.src).pc != b.from && s.Queue(b.src, b.dst) == rest && a.n == |rest|
    ensures Next(capacity, s, a)
         == s.Store(b.src, b.dst, "").Put(b.dst, Enter(s.At(b.dst), AfterHearing(b.at, rest)))
  {
    assert rest[..a.n] == rest && rest[a.n..] == "";
  }

  /** Every message is recognised for what it is. */
  lemma MessageRecognised(m: Message)
    ensures AfterHearing(Hear(HeardAt(m)), Text(m)) ==
      match m
      case AskReverse => Say(AnswerReady)
      case AskShift => Hear(ForCommand)
      case AskStretch => Hear(ForCommand)
      case AskExit => Dial(TellExit)
      case AnswerReady => Play(Upload, Left)
      case TellRun => Say(ReplyReady)
      case TellReady => Play(Return, Left)
      case TellExit => HangupExit
      case ReplyReady => Play(Forward, Left)
      case ReplyDone => Say(TellReady)
  {
  }

  predicate SameAudio(s: State, t: State) {
    && t.gui.audio == s.gui.audio && t.dsp.audio == s.dsp.audio && t.rev.audio == s.rev.audio
    && t.original == s.original && t.turns == s.turns
  }

  lemma HeardData(m: Message, s: State, t: State)
    requires Data(Talking(m), s) && SameAudio(s, t)
    requires Succ(Talking(m)).Playing? ==> t.At(Author(m)).box == SILENCE
    ensures Data(Succ(Talking(m)), t)
  {
  }

  lemma HeardKeeps(m: Message, s: State, t: State)
    requires Control(Talking(m), s) && s.At(Author(m)).pc != Say(m)
    requires t == s.Store(Author(m), Addressee(m), "")
                   .Put(Addressee(m), Enter(s.At(Addressee(m)), AfterHearing(Hear(HeardAt(m)), Text(m))))
    ensures SameAudio(s, t)
    ensures Succ(Talking(m)).Playing? ==> t.At(Author(m)).box == SILENCE
  {
    BurstFits(Talking(m));
  }

  /** Messages that are answered by a message. */
  lemma HeardThenTalk(m: Message, s: State, t: State)
    requires Succ(Talking(m)).Talking?
    requires Control(Talking(m), s) && Data(Succ(Talking(m)), t) && s.At(Author(m)).pc != Say(m)
    requires t == s.Store(Author(m), Addressee(m), "")
                   .Put(Addressee(m), Enter(s.At(Addressee(m)), AfterHearing(Hear(HeardAt(m)), Text(m))))
    ensures Control(Succ(Talking(m)), t)
  {
    MessageRecognised(m);
    var next := Succ(Talking(m));
    BurstFits(next);
    Launch(t, BurstOf(next), s.At(Addressee(m)), Rest(next, t));
  }

  /** Messages that are answered by audio. */
  lemma HeardThenPlay(m: Message, s: State, t: State)
    requires Succ(Talking(m)).Playing?
    requires Control(Talking(m), s) && Data(Succ(Talking(m)), t) && s.At(Author(m)).pc != Say(m)
    requires t == s.Store(Author(m), Addressee(m), "")
                   .Put(Addressee(m), Enter(s.At(Addressee(m)), AfterHearing(Hear(HeardAt(m)), Text(m))))
    ensures Control(Succ(Talking(m)), t)
  {
    MessageRecognised(m);
    var next := Succ(Talking(m));
    BurstFits(next);
    Launch(t, BurstOf(next), s.At(Addressee(m)), Rest(next, t));
  }

  /** Messages that are not answered. */
  lemma HeardThenRest(m: Message, s: State, t: State)
    requires !IsBurst(Succ(Talking(m)))
    requires Control(Talking(m), s) && Data(Succ(Talking(m)), t) && s.At(Author(m)).pc != Say(m)
    requires t == s.Store(Author(m), Addressee(m), "")
                   .Put(Addressee(m), Enter(s.At(Addressee(m)), AfterHearing(Hear(HeardAt(m)), Text(m))))
    ensures Control(Succ(Talking(m)), t)
  {
    MessageRecognised(m);
  }

  lemma TalkingRead(capacity: nat, m: Message, s: State, a: Action)
    requires InPhase(Talking(m), s) && Calm(capacity, s, a) && a.Read?
    ensures InPhase(Succ(Talking(m)), Next(capacity, s, a))
  {
    var ph := Talking(m);
    ReaderInBurst(capacity, ph, s, a);
    BurstFits(ph);
    TextRead(capacity, s, BurstOf(ph), Text(m), a);
    var t := Next(capacity, s, a);
    HeardKeeps(m, s, t);
    HeardData(m, s, t);
    if Succ(ph).Talking? {
      HeardThenTalk(m, s, t);
    } else if Succ(ph).Playing? {
      HeardThenPlay(m, s, t);
    } else {
      HeardThenRest(m, s, t);
    }
  }

  lemma ConfirmedThenPlay(leg: Leg, s: State, t: State)
    requires InPhase(Confirming(leg), s) && s.At(Receiver(leg)).pc != Confirm(leg)
    requires t == s.Store(Receiver(leg), Sender(leg), "")
                   .Put(Sender(leg), Enter(s.At(Sender(leg)), Play(leg, Right)))
    ensures InPhase(Playing(leg, Right), t)
  {
    var next := Playing(leg, Right);
    BurstFits(Confirming(leg));
    BurstFits(next);
    ConfirmedData(leg, s, t);
    Launch(t, BurstOf(next), s.At(Sender(leg)), Rest(next, t));
  }

  lemma ConfirmedData(leg: Leg, s: State, t: State)
    requires Data(Confirming(leg), s)
    requires t.At(Sender(leg)).audio == s.At(Sender(leg)).audio && t.At(Receiver(leg)).box == s.At(Receiver(leg)).box
    requires t.gui.audio == s.gui.audio && t.original == s.original && t.turns == s.turns
    ensures Data(Playing(leg, Right), t)
    ensures Rest(Playing(leg, Right), t) == Stream(s.At(Sender(leg)).audio.right)
  {
    var sent := Sent(Cargo(leg, s.gui.audio).right);
    assert sent[0..] == sent;
  }

  lemma ConfirmingRead(capacity: nat, leg: Leg, s: State, a: Action)
    requires InPhase(Confirming(leg), s) && Calm(capacity, s, a) && a.Read?
    ensures InPhase(Playing(leg, Right), Next(capacity, s, a))
  {
    var ph := Confirming(leg);
    ReaderInBurst(capacity, ph, s, a);
    BurstFits(ph);
    TextRead(capacity, s, BurstOf(ph), "CONFIRMED", a);
    ConfirmedThenPlay(leg, s, Next(capacity, s, a));
  }

  /** What a full read of a channel loop collects, and what is left. */
  lemma FullChunkTaken(ch: seq<Sample>, got: seq<Sample>, q: string, out: string)
    requires Filling(got, ch) && |q| >= CHUNK_BYTES
    requires q + out == Encode(Sent(ch)[|got|..])
    ensures var floats := Decode(q[..CHUNK_BYTES]);
      && |floats| == CHUNK_SIZE
      && Filling(got + floats, ch)
      && q[CHUNK_BYTES..] + out == Encode(Sent(ch)[|got| + CHUNK_SIZE..])
  {
    var left := Sent(ch)[|got|..];
    var bytes, rest := q[..CHUNK_BYTES], q[CHUNK_BYTES..];
    SplitQueue(q, CHUNK_BYTES, out);
    StreamCut(left, bytes, rest + out);
    assert got + left == Sent(ch);
    assert left[CHUNK_SIZE..] == Sent(ch)[|got| + CHUNK_SIZE..];
  }

  lemma SplitQueue(q: string, n: nat, out: string)
    requires n <= |q|
    ensures q[..n] + (q[n..] + out) == q + out
  {
  }

  /** The last read takes what is left, and that was the whole channel. */
  lemma LastChunkTaken(ch: seq<Sample>, got: seq<Sample>, q: string)
    requires Filling(got, ch) && 0 < |q| < CHUNK_BYTES
    requires q == Encode(Sent(ch)[|got|..])
    ensures |Decode(q)| < CHUNK_SIZE && Framed(ch) && got + Decode(q) == ch
  {
    var left := Sent(ch)[|got|..];
    DecodeEncode(left);
    assert got + left == Sent(ch);
  }

  /** A full read keeps the loop going. */
  lemma PlayingFullTaken(capacity: nat, leg: Leg, side: Side, s: State, a: Action)
    requires InPhase(Playing(leg, side), s) && Calm(capacity, s, a) && a.Read? && a.n == CHUNK_BYTES
    ensures a.p == Receiver(leg) && |s.Queue(Sender(leg), Receiver(leg))| >= a.n
    ensures var q := s.Queue(Sender(leg), Receiver(leg));
      var ch := Cargo(leg, s.gui.audio).Channel(side);
      var x := s.At(Receiver(leg));
      var got := x.box.Channel(side) + Decode(q[..a.n]);
      && Filling(got, ch)
      && q[a.n..] + s.At(Sender(leg)).out == Encode(Sent(ch)[|got|..])
      && Next(capacity, s, a)
         == s.Store(Sender(leg), Receiver(leg), q[a.n..]).Put(Receiver(leg), x.(box := x.box.With(side, got)))
  {
    var ph := Playing(leg, side);
    ReaderInBurst(capacity, ph, s, a);
    BurstFits(ph);
    var ch := Cargo(leg, s.gui.audio).Channel(side);
    var x := s.At(Receiver(leg));
    FullChunkTaken(ch, x.box.Channel(side), s.Queue(Sender(leg), Receiver(leg)), s.At(Sender(leg)).out);
  }

  /** A shorter read finds the sender done and completes the channel. */
  lemma PlayingLastTaken(capacity: nat, leg: Leg, side: Side, s: State, a: Action)
    requires InPhase(Playing(leg, side), s) && Calm(capacity, s, a) && a.Read? && a.n != CHUNK_BYTES
    ensures a.p == Receiver(leg) && a.n == |s.Queue(Sender(leg), Receiver(leg))| < CHUNK_BYTES
    ensures s.At(Sender(leg)).out == "" && s.At(Sender(leg)).pc != Play(leg, side)
    ensures var q := s.Queue(Sender(leg), Receiver(leg));
      var ch := Cargo(leg, s.gui.audio).Channel(side);
      && Framed(ch) && |Decode(q)| < CHUNK_SIZE
      && s.At(Receiver(leg)).box.Channel(side) + Decode(q) == ch
  {
    var ph := Playing(leg, side);
    ReaderInBurst(capacity, ph, s, a);
    BurstFits(ph);
    var q := s.Queue(Sender(leg), Receiver(leg));
    assert s.At(Sender(leg)).out == "";
    assert q + "" == q;
    LastChunkTaken(Cargo(leg, s.gui.audio).Channel(side), s.At(Receiver(leg)).box.Channel(side), q);
  }

  lemma LeftLastNext(capacity: nat, leg: Leg, s: State, a: Action)
    requires InPhase(Playing(leg, Left), s) && Calm(capacity, s, a) && a.Read? && a.n != CHUNK_BYTES
    ensures var x := s.At(Receiver(leg));
      Next(capacity, s, a) == s.Store(Sender(leg), Receiver(leg), "").Put(Receiver(leg),
        Enter(x.(box := Audio(Cargo(leg, s.gui.audio).left, [])), Confirm(leg)))
  {
    PlayingLastTaken(capacity, leg, Left, s, a);
    var q := s.Queue(Sender(leg), Receiver(leg));
    WholeQueue(q, a.n);
    FirstTaken(s.At(Receiver(leg)), leg, q);
  }

  lemma FirstTaken(x: Process, leg: Leg, bytes: string)
    requires x.pc == Record(leg, Left) && |Decode(bytes)| < CHUNK_SIZE
    ensures Taken(x, bytes) == Enter(x.(box := Audio(x.box.left + Decode(bytes), x.box.right)), Confirm(leg))
  {
  }

  lemma LastTaken(x: Process, leg: Leg, bytes: string)
    requires x.pc == Record(leg, Right) && |Decode(bytes)| < CHUNK_SIZE
    ensures var full := Audio(x.box.left, x.box.right + Decode(bytes));
      Taken(x, bytes) == Enter(x.(box := full, audio := full), AfterReceive(leg))
  {
  }

  lemma WholeQueue(q: string, n: nat)
    requires n == |q|
    ensures q[..n] == q && q[n..] == ""
  {
  }

  lemma RightLastNext(capacity: nat, leg: Leg, s: State, a: Action)
    requires InPhase(Playing(leg, Right), s) && Calm(capacity, s, a) && a.Read? && a.n != CHUNK_BYTES
    ensures var cargo := Cargo(leg, s.gui.audio);
      var x := s.At(Receiver(leg)).(box := cargo, audio := cargo);
      var t := s.Store(Sender(leg), Receiver(leg), "").Put(Receiver(leg), Enter(x, AfterReceive(leg)));
      Next(capacity, s, a) == if leg == Download then t.(turns := t.turns + 1) else t
  {
    PlayingLastTaken(capacity, leg, Right, s, a);
    var q := s.Queue(Sender(leg), Receiver(leg));
    WholeQueue(q, a.n);
    LastTaken(s.At(Receiver(leg)), leg, q);
    ReturnsToMenu(leg, s.At(Receiver(leg)), q);
  }

  lemma ReturnsToMenu(leg: Leg, x: Process, bytes: string)
    requires x.pc == Record(leg, Right) && |Decode(bytes)| < CHUNK_SIZE
    ensures Taken(x, bytes).pc == Menu <==> leg == Download
  {
  }

  lemma FullerBoxed(leg: Leg, side: Side, s: State, t: State, got: seq<Sample>, q: string)
    requires InPhase(Playing(leg, side), s) && Filling(got, Cargo(leg, s.gui.audio).Channel(side))
    requires q + s.At(Sender(leg)).out == Encode(Sent(Cargo(leg, s.gui.audio).Channel(side))[|got|..])
    requires var x := s.At(Receiver(leg));
      t == s.Store(Sender(leg), Receiver(leg), q).Put(Receiver(leg), x.(box := x.box.With(side, got)))
    ensures InPhase(Playing(leg, side), t)
  {
    BurstFits(Playing(leg, side));
  }

  /** A full read stays in the phase. */
  lemma PlayingFullRead(capacity: nat, leg: Leg, side: Side, s: State, a: Action)
    requires InPhase(Playing(leg, side), s) && Calm(capacity, s, a) && a.Read? && a.n == CHUNK_BYTES
    ensures InPhase(Playing(leg, side), Next(capacity, s, a))
  {
    PlayingFullTaken(capacity, leg, side, s, a);
    var q := s.Queue(Sender(leg), Receiver(leg));
    FullerBoxed(leg, side, s, Next(capacity, s, a), s.At(Receiver(leg)).box.Channel(side) + Decode(q[..a.n]), q[a.n..]);
  }

  /** The short read of the left channel is followed by "CONFIRMED". */
  lemma LeftThenConfirm(leg: Leg, s: State, t: State, y: Process)
    requires InPhase(Playing(leg, Left), s) && s.At(Sender(leg)).out == "" && s.At(Sender(leg)).pc != Play(leg, Left)
    requires Framed(Cargo(leg, s.gui.audio).left)
    requires y == s.At(Receiver(leg)).(box := Audio(Cargo(leg, s.gui.audio).left, []))
    requires t == s.Store(Sender(leg), Receiver(leg), "").Put(Receiver(leg), Enter(y, Confirm(leg)))
    ensures InPhase(Confirming(leg), t)
  {
    BurstFits(Playing(leg, Left));
    BurstFits(Confirming(leg));
    Launch(t, BurstOf(Confirming(leg)), y, "CONFIRMED");
  }

  /** The short read of the right channel completes the transfer. */
  lemma RightThenDone(leg: Leg, s: State, t: State, y: Process)
    requires InPhase(Playing(leg, Right), s) && s.At(Sender(leg)).out == "" && s.At(Sender(leg)).pc != Play(leg, Right)
    requires Framed(Cargo(leg, s.gui.audio).right)
    requires var cargo := Cargo(leg, s.gui.audio);
      y == s.At(Receiver(leg)).(box := cargo, audio := cargo)
    requires var t0 := s.Store(Sender(leg), Receiver(leg), "").Put(Receiver(leg), Enter(y, AfterReceive(leg)));
      t == if leg == Download then t0.(turns := t0.turns + 1) else t0
    ensures InPhase(Succ(Playing(leg, Right)), t)
  {
    hide Data, Rest;
    DoneControl(leg, s, t, y);
    DoneData(leg, s, t);
  }

  /** A transfer that is done leaves the buffers as the next phase wants them. */
  lemma DoneData(leg: Leg, s: State, t: State)
    requires Data(Playing(leg, Right), s) && Framed(Cargo(leg, s.gui.audio).right)
    requires t.At(Receiver(leg)).audio == Cargo(leg, s.gui.audio)
    requires t.original == s.original && t.turns == if leg == Download then s.turns + 1 else s.turns
    requires leg != Download ==> t.gui.audio == s.gui.audio
    ensures Data(Succ(Playing(leg, Right)), t)
  {
  }

  lemma DoneControl(leg: Leg, s: State, t: State, y: Process)
    requires Control(Playing(leg, Right), s) && s.At(Sender(leg)).out == "" && s.At(Sender(leg)).pc != Play(leg, Right)
    requires y.out == "" && y.pc == s.At(Receiver(leg)).pc
    requires t == s.Store(Sender(leg), Receiver(leg), "").Put(Receiver(leg), Enter(y, AfterReceive(leg))).(turns := t.turns)
    ensures Control(Succ(Playing(leg, Right)), t)
  {
    BurstFits(Playing(leg, Right));
  }

  lemma PlayingShortRead(capacity: nat, leg: Leg, side: Side, s: State, a: Action)
    requires InPhase(Playing(leg, side), s) && Calm(capacity, s, a) && a.Read? && a.n != CHUNK_BYTES
    ensures InPhase(Succ(Playing(leg, side)), Next(capacity, s, a))
    ensures Framed(Cargo(leg, s.gui.audio).Channel(side))
  {
    PlayingLastTaken(capacity, leg, side, s, a);
    var x := s.At(Receiver(leg));
    var cargo := Cargo(leg, s.gui.audio);
    if side == Left {
      LeftLastNext(capacity, leg, s, a);
      LeftThenConfirm(leg, s, Next(capacity, s, a), x.(box := Audio(cargo.left, [])));
    } else {
      RightLastNext(capacity, leg, s, a);
      RightThenDone(leg, s, Next(capacity, s, a), x.(box := cargo, audio := cargo));
    }
  }

  // ----- statements without messages -----

  /** Clearing up after a connection, which any other process may overtake. */
  predicate Chore(s: State, a: Action) {
    a.Run? && (s.At(a.p).pc == Hangup || s.At(a.p).pc == HangupExit || s.At(a.p).pc == Close)
  }

  lemma ChoreKeepsData(ph: Phase, s: State, p: Node, pc: Pc)
    requires Data(ph, s)
    ensures Data(ph, s.Put(p, s.At(p).(pc := pc)))
    ensures IsBurst(ph) ==> Rest(ph, s.Put(p, s.At(p).(pc := pc))) == Rest(ph, s)
  {
  }

  lemma ChoreKeepsMoving(s: State, b: Burst, rest: string, p: Node, pc: Pc)
    requires Fits(b) && Moving(s, b, rest)
    requires Computing(s.At(p).pc) && !pc.Record? && pc != b.from
    requires p == b.src ==> Past(pc, b.from)
    ensures Moving(s.Put(p, s.At(p).(pc := pc)), b, rest)
  {
  }

  lemma ChoreInBurst(ph: Phase, s: State, p: Node, pc: Pc)
    requires IsBurst(ph) && Fits(BurstOf(ph)) && Control(ph, s)
    requires p == Rev || p == Dsp
    requires (s.At(p).pc == Hangup && pc == Accept) || (s.At(p).pc == HangupExit && pc == Exit(Rev))
          || (s.At(p).pc == Close && pc == Exit(Dsp))
    ensures pc != BurstOf(ph).from && (p == BurstOf(ph).src ==> Past(pc, BurstOf(ph).from))
    ensures Bystander(ph, s.Put(p, s.At(p).(pc := pc)))
  {
  }

  lemma ChoreKeepsPhase(capacity: nat, ph: Phase, s: State, a: Action)
    requires InPhase(ph, s) && Enabled(capacity, s, a) && Chore(s, a)
    ensures InPhase(ph, Next(capacity, s, a))
  {
    var pc := AfterComputing(s.At(a.p).pc);
    ChoreNext(capacity, ph, s, a);
    ChoreActor(ph, s, a.p);
    ChoreKeepsData(ph, s, a.p, pc);
    if IsBurst(ph) {
      BurstFits(ph);
      ChoreInBurst(ph, s, a.p, pc);
      ChoreKeepsMoving(s, BurstOf(ph), Rest(ph, s), a.p, pc);
    }
  }

  lemma ChoreActor(ph: Phase, s: State, p: Node)
    requires Control(ph, s)
    requires s.At(p).pc == Hangup || s.At(p).pc == HangupExit || s.At(p).pc == Close
    ensures p == (if s.At(p).pc == Close then Dsp else Rev) && s.At(p).out == ""
  {
    if IsBurst(ph) {
      BurstFits(ph);
    }
  }

  /** During a burst only chores are run. */
  lemma RunInBurst(capacity: nat, ph: Phase, s: State, a: Action)
    requires IsBurst(ph) && Fits(BurstOf(ph)) && Control(ph, s)
    requires Enabled(capacity, s, a) && a.Run?
    ensures Chore(s, a)
  {
    assert a.p == Third(BurstOf(ph)) || a.p == BurstOf(ph).src;
  }

  lemma ChoreNext(capacity: nat, ph: Phase, s: State, a: Action)
    requires Control(ph, s) && Enabled(capacity, s, a) && Chore(s, a)
    ensures Next(capacity, s, a) == s.Put(a.p, s.At(a.p).(pc := AfterComputing(s.At(a.p).pc)))
  {
    ChoreActor(ph, s, a.p);
    ChoreResult(s.At(a.p));
  }

  lemma ChoreResult(x: Process)
    requires (x.pc == Hangup || x.pc == HangupExit || x.pc == Close) && x.out == ""
    ensures Computed(x) == x.(pc := AfterComputing(x.pc))
  {
  }

  lemma RunBetweenBursts(capacity: nat, ph: Phase, s: State, a: Action)
    requires InPhase(ph, s) && Enabled(capacity, s, a) && a.Run? && !Chore(s, a)
    ensures ph.Dialing? || (ph == Turning && a.p == Rev) || (ph == Parting && a.p == Dsp)
    ensures ph.Dialing? ==> a.p == Dsp && s.rev.pc == Accept
  {
    if IsBurst(ph) {
      BurstFits(ph);
      RunInBurst(capacity, ph, s, a);
    }
  }

  lemma DialingRun(capacity: nat, errand: Message, s: State)
    requires InPhase(Dialing(errand), s) && Enabled(capacity, s, Run(Dsp))
    ensures InPhase(Talking(errand), Next(capacity, s, Run(Dsp)))
  {
    var next := Talking(errand);
    var t := Next(capacity, s, Run(Dsp));
    BurstFits(next);
    Launch(t, BurstOf(next), s.dsp, Rest(next, t));
  }

  lemma TurningRun(capacity: nat, s: State)
    requires InPhase(Turning, s) && Enabled(capacity, s, Run(Rev))
    ensures InPhase(Talking(ReplyDone), Next(capacity, s, Run(Rev)))
  {
    var next := Talking(ReplyDone);
    var t := Next(capacity, s, Run(Rev));
    BurstFits(next);
    Launch(t, BurstOf(next), s.rev.(audio := ReversedAudio(s.rev.audio)), Rest(next, t));
  }

  lemma PartingRun(capacity: nat, s: State)
    requires InPhase(Parting, s) && Enabled(capacity, s, Run(Dsp))
    ensures InPhase(Playing(Download, Left), Next(capacity, s, Run(Dsp)))
  {
    var next := Playing(Download, Left);
    var t := Next(capacity, s, Run(Dsp));
    BurstFits(next);
    Launch(t, BurstOf(next), s.dsp, Rest(next, t));
  }

  // ----- the user -----

  lemma ChooserIdle(capacity: nat, ph: Phase, s: State, a: Action)
    requires Control(ph, s) && Calm(capacity, s, a) && a.Choose?
    ensures ph == Idle
  {
  }

  lemma ChooseStarts(capacity: nat, ph: Phase, s: State, a: Action)
    requires InPhase(ph, s) && Calm(capacity, s, a) && a.Choose?
    ensures ph == Idle && InPhase(Talking(Request(a.c)), Next(capacity, s, a))
  {
    var next := Talking(Request(a.c));
    var t := Next(capacity, s, a);
    ChooserIdle(capacity, ph, s, a);
    BurstFits(next);
    Launch(t, BurstOf(next), s.gui, Text(Request(a.c)));
  }

  lemma OpenKeepsPhase(capacity: nat, ph: Phase, s: State, a: Action)
    requires InPhase(ph, s) && Enabled(capacity, s, a) && a.Open?
    ensures InPhase(ph, Next(capacity, s, a))
  {
    OpenAtRest(ph, s);
    OpenKeepsControl(ph, s, a.file);
  }

  /** At the menu no audio is under way. */
  lemma OpenAtRest(ph: Phase, s: State)
    requires Control(ph, s) && s.gui.pc == Menu
    ensures !Serving(ph) && ph != Turning
  {
    if IsBurst(ph) {
      BurstFits(ph);
    }
  }

  lemma OpenKeepsControl(ph: Phase, s: State, file: Audio)
    requires Control(ph, s) && !Serving(ph) && ph != Turning
    ensures Control(ph, s.(gui := s.gui.(audio := file), loaded := true, original := file, turns := 0))
  {
    if IsBurst(ph) {
      BurstFits(ph);
    }
  }

  // ----- failures -----

  /** No calm step finds a closed connection: whoever listens has a peer that is still
  there or whose last bytes are in the queue. */
  lemma NoFailure(capacity: nat, ph: Phase, s: State, p: Node)
    requires InPhase(ph, s)
    ensures !Enabled(capacity, s, Fail(p))
  {
    hide Data, Rest;
    if IsBurst(ph) {
      BurstFits(ph);
      if p == BurstOf(ph).dst {
        EndNotReached(ph, s);
      } else if p == BurstOf(ph).src {
        SenderNotAbandoned(ph, s);
      } else {
        BystanderNotAbandoned(ph, s);
      }
    }
  }

  /** A sender that already listens again has its receiver still there. */
  lemma SenderNotAbandoned(ph: Phase, s: State)
    requires Control(ph, s) && IsBurst(ph) && Fits(BurstOf(ph))
    ensures var b := BurstOf(ph); var pc := s.At(b.src).pc;
      !pc.Dial? && (Listening(pc) ==> Peer(pc) == b.dst && !Closed(s, b.dst, b.src))
  {
  }

  lemma BystanderNotAbandoned(ph: Phase, s: State)
    requires Control(ph, s) && IsBurst(ph) && Fits(BurstOf(ph))
    ensures var p := Third(BurstOf(ph)); var pc := s.At(p).pc;
      !pc.Dial? && (Listening(pc) ==> !Closed(s, Peer(pc), p))
  {
  }

  /** A receiver whose peer has closed the connection has not read everything. */
  lemma EndNotReached(ph: Phase, s: State)
    requires InPhase(ph, s) && IsBurst(ph) && Fits(BurstOf(ph))
    ensures var b := BurstOf(ph); Closed(s, b.src, b.dst) ==> s.Queue(b.src, b.dst) != ""
  {
    if ph.Playing? && ph.leg == Return {
      ReversedKeepsLengths(s.gui.audio);
      FramedRest(ph, s);
    }
  }

  /** A loop for a framed channel that has taken full chunks has not taken everything. */
  lemma FramedRest(ph: Phase, s: State)
    requires ph.Playing? && Boxed(ph, s) && Framed(Cargo(ph.leg, s.gui.audio).Channel(ph.side))
    ensures Rest(ph, s) != ""
  {
    var ch := Cargo(ph.leg, s.gui.audio).Channel(ph.side);
    if ch != [] {
      SentWhole(ch);
    }
  }

  // ----- every step -----

  /** One calm step of any process keeps the phase or moves to the next one. */
  lemma StepFollowsPhases(capacity: nat, ph: Phase, s: State, a: Action)
    requires InPhase(ph, s) && Calm(capacity, s, a) && !a.Choose?
    ensures InPhase(ph, Next(capacity, s, a)) || InPhase(Succ(ph), Next(capacity, s, a))
  {
    match a
    case Write(_, _) =>
      WriteKeepsPhase(capacity, ph, s, a);
    case Read(_, n) =>
      ReaderInBurst(capacity, ph, s, a);
      match ph {
        case Talking(m) => TalkingRead(capacity, m, s, a);
        case Confirming(leg) => ConfirmingRead(capacity, leg, s, a);
        case Playing(leg, side) =>
          if n == CHUNK_BYTES {
            PlayingFullRead(capacity, leg, side, s, a);
          } else {
            PlayingShortRead(capacity, leg, side, s, a);
          }
      }
    case Run(p) =>
      if Chore(s, a) {
        ChoreKeepsPhase(capacity, ph, s, a);
      } else {
        RunAdvances(capacity, ph, s, a);
      }
    case Fail(p) =>
      NoFailure(capacity, ph, s, p);
    case Open(_) =>
      OpenKeepsPhase(capacity, ph, s, a);
  }

  lemma RunAdvances(capacity: nat, ph: Phase, s: State, a: Action)
    requires InPhase(ph, s) && Enabled(capacity, s, a) && a.Run? && !Chore(s, a)
    ensures InPhase(Succ(ph), Next(capacity, s, a))
  {
    RunBetweenBursts(capacity, ph, s, a);
    match ph {
      case Dialing(errand) => DialingRun(capacity, errand, s);
      case Turning => TurningRun(capacity, s);
      case Parting => PartingRun(capacity, s);
    }
  }

  lemma StepKeepsInv(capacity: nat, s: State, a: Action)
    requires Inv(s) && Calm(capacity, s, a)
    ensures Inv(Next(capacity, s, a))
  {
    var ph :| InPhase(ph, s);
    if a.Choose? {
      ChooseStarts(capacity, ph, s, a);
    } else {
      StepFollowsPhases(capacity, ph, s, a);
    }
  }

  lemma InitialInv()
    ensures Inv(INITIAL)
  {
    assert InPhase(Idle, INITIAL);
  }
}
