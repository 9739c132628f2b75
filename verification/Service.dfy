/** The reverse service: the GUI, the DSP coordinator and the Reverse service as three
processes joined by two TCP connections.

Each process is a program counter with the bytes its current blocking write still
holds, its audio buffer and the container a receive loop is filling.  Each connection
is a pair of byte queues of limited capacity.  A step moves part of a write into a
queue, lets one `read_some` take part of a queue, runs a local statement, or ends a process
whose peer has closed the connection; any interleaving of such steps is a run. */
module Service {
  import opened Wire
  import opened Framing
  import opened Audio

  datatype Node = Gui | Dsp | Rev

  /** The four audio transfers of a reverse command. */
  datatype Leg = Upload | Forward | Return | Download

  function Sender(leg: Leg): Node {
    match leg case Upload => Gui case Forward => Dsp case Return => Rev case Download => Dsp
  }

  function Receiver(leg: Leg): Node {
    match leg case Upload => Dsp case Forward => Rev case Return => Dsp case Download => Gui
  }

  /** The calls of send_message in the three main programs. */
  datatype Message =
    | AskReverse | AskShift | AskStretch | AskExit     // gui.cpp
    | AnswerReady | TellRun | TellReady | TellExit     // dsp.cpp
    | ReplyReady | ReplyDone                           // reverse.cpp

  function Text(m: Message): string {
    match m
    case AskReverse => "reverse"
    case AskShift => "shift"
    case AskStretch => "stretch"
    case AskExit => "exit"
    case AnswerReady => "ready"
    case TellRun => "run"
    case TellReady => "ready"
    case TellExit => "exit"
    case ReplyReady => "ready"
    case ReplyDone => "done"
  }

  function Author(m: Message): Node {
    match m
    case AskReverse => Gui case AskShift => Gui case AskStretch => Gui case AskExit => Gui
    case AnswerReady => Dsp case TellRun => Dsp case TellReady => Dsp case TellExit => Dsp
    case ReplyReady => Rev case ReplyDone => Rev
  }

  function Addressee(m: Message): Node {
    match m
    case AskReverse => Dsp case AskShift => Dsp case AskStretch => Dsp case AskExit => Dsp
    case AnswerReady => Gui case TellRun => Rev case TellReady => Rev case TellExit => Rev
    case ReplyReady => Dsp case ReplyDone => Dsp
  }

  /** The calls of recv_message in the three main programs. */
  datatype Prompt =
    | ForReady                                         // gui.cpp
    | ForCommand | ForRunReady | ForDone               // dsp.cpp
    | ForRequest | ForSendReady                        // reverse.cpp

  function HeardFrom(h: Prompt): Node {
    match h
    case ForReady => Dsp
    case ForCommand => Gui case ForRunReady => Rev case ForDone => Rev
    case ForRequest => Dsp case ForSendReady => Dsp
  }

  /** Program points.  send_audio and recv_audio are shared by the programs, and the
  leg tells which call is running. */
  datatype Pc =
    | Say(m: Message)                 // send_message
    | Hear(h: Prompt)                 // recv_message
    | Play(leg: Leg, side: Side)      // send_audio, writing one channel
    | AwaitConfirm(leg: Leg)          // send_audio, between the channels
    | Record(leg: Leg, side: Side)    // recv_audio, one channel loop
    | Confirm(leg: Leg)               // recv_audio, between the loops
    | Menu                            // the GUI waits for the user
    | Dial(errand: Message)           // DSP connects to Reverse
    | Part                            // DSP disconnects from Reverse
    | Close                           // DSP disconnects from the GUI
    | Accept                          // Reverse waits for a connection
    | Turn                            // Reverse reverses the audio
    | Hangup                          // Reverse disconnects and starts over
    | HangupExit                      // Reverse disconnects and ends
    | Exit(who: Node)
    | Failed                          // an exception has left main

  /** The program has ended, and its sockets are closed. */
  predicate Gone(pc: Pc) {
    pc.Exit? || pc.Failed?
  }

  predicate Speaking(pc: Pc) {
    pc.Say? || pc.Play? || pc.Confirm?
  }

  predicate Listening(pc: Pc) {
    pc.Hear? || pc.Record? || pc.AwaitConfirm?
  }

  /** The process at the other end of a blocking call. */
  function Peer(pc: Pc): Node
    requires Speaking(pc) || Listening(pc)
  {
    match pc
    case Say(m) => Addressee(m)
    case Hear(h) => HeardFrom(h)
    case Play(leg, _) => Receiver(leg)
    case AwaitConfirm(leg) => Receiver(leg)
    case Record(leg, _) => Sender(leg)
    case Confirm(leg) => Sender(leg)
  }

  /** After send_audio, whatever it returned. */
  function AfterSend(leg: Leg): Pc {
    match leg
    case Upload => Record(Download, Left)
    case Forward => Hear(ForDone)
    case Return => Hangup
    case Download => Hear(ForCommand)
  }

  /** After recv_audio. */
  function AfterReceive(leg: Leg): Pc {
    match leg
    case Upload => Dial(TellRun)
    case Forward => Turn
    case Return => Part
    case Download => Menu
  }

  function AfterSay(m: Message): Pc {
    match m
    case AskReverse => Hear(ForReady)
    case AskShift => Menu
    case AskStretch => Menu
    case AskExit => Exit(Gui)
    case AnswerReady => Record(Upload, Left)
    case TellRun => Hear(ForRunReady)
    case TellReady => Record(Return, Left)
    case TellExit => Close
    case ReplyReady => Record(Forward, Left)
    case ReplyDone => Hear(ForSendReady)
  }

  /** Where a finished write leads. */
  function AfterSpeaking(pc: Pc): Pc
    requires Speaking(pc)
  {
    match pc
    case Say(m) => AfterSay(m)
    case Play(leg, Left) => AwaitConfirm(leg)
    case Play(leg, Right) => AfterSend(leg)
    case Confirm(leg) => Record(leg, Right)
  }

  /** Where a process continues after recv_message returned `text`. */
  function AfterHearing(pc: Pc, text: string): Pc
    requires pc.Hear? || pc.AwaitConfirm?
  {
    match pc
    case AwaitConfirm(leg) => if text == "CONFIRMED" then Play(leg, Right) else AfterSend(leg)
    case Hear(ForReady) => Play(Upload, Left)
    case Hear(ForCommand) =>
      if text == "shift" then Hear(ForCommand)
      else if text == "stretch" then Hear(ForCommand)
      else if text == "reverse" then Say(AnswerReady)
      else if |text| >= 4 && text[..4] == "exit" then Dial(TellExit)
      else Hear(ForCommand)
    case Hear(ForRunReady) => if text == "ready" then Play(Forward, Left) else Hear(ForDone)
    case Hear(ForDone) => Say(TellReady)
    case Hear(ForRequest) =>
      if text == "run" then Say(ReplyReady)
      else if text == "exit" then HangupExit
      else Accept
    case Hear(ForSendReady) => if text == "ready" then Play(Return, Left) else Hangup
  }

  /** Statements that involve no message. */
  predicate Computing(pc: Pc) {
    pc.Part? || pc.Close? || pc.Turn? || pc.Hangup? || pc.HangupExit?
  }

  function AfterComputing(pc: Pc): Pc
    requires Computing(pc)
  {
    match pc
    case Part => Play(Download, Left)
    case Close => Exit(Dsp)
    case Turn => Say(ReplyDone)
    case Hangup => Accept
    case HangupExit => Exit(Rev)
  }

  /** `out` is what the current blocking write has not yet handed over; `box` is the
  container a receive loop fills. */
  datatype Process = Process(pc: Pc, out: string, audio: Audio, box: Audio)

  /** `original` and `turns` record history: the file last loaded, and the reverse
  commands completed since. */
  datatype State = State(
    gui: Process, dsp: Process, rev: Process,
    gd: string, dg: string, dr: string, rd: string,
    loaded: bool, original: Audio, turns: nat)
  {
    function At(p: Node): Process {
      match p case Gui => gui case Dsp => dsp case Rev => rev
    }

    function Put(p: Node, x: Process): State {
      match p case Gui => this.(gui := x) case Dsp => this.(dsp := x) case Rev => this.(rev := x)
    }

    function Queue(p: Node, q: Node): string {
      match (p, q)
      case (Gui, Dsp) => gd
      case (Dsp, Gui) => dg
      case (Dsp, Rev) => dr
      case (Rev, Dsp) => rd
      case _ => ""
    }

    function Store(p: Node, q: Node, bytes: string): State {
      match (p, q)
      case (Gui, Dsp) => this.(gd := bytes)
      case (Dsp, Gui) => this.(dg := bytes)
      case (Dsp, Rev) => this.(dr := bytes)
      case (Rev, Dsp) => this.(rd := bytes)
      case _ => this
    }
  }

  /** The bytes a blocking write starts with. */
  function Load(x: Process, pc: Pc): string
    requires Speaking(pc)
  {
    match pc
    case Say(m) => Text(m)
    case Play(_, side) => Stream(x.audio.Channel(side))
    case Confirm(_) => "CONFIRMED"
  }

  /** Arriving at a program point: recv_audio starts with an empty container. */
  function Arrive(x: Process, pc: Pc): Process {
    if Speaking(pc) then x.(pc := pc, out := Load(x, pc))
    else if pc.Record? && pc.side == Left then x.(pc := pc, out := "", box := SILENCE)
    else x.(pc := pc, out := "")
  }

  /** As Arrive, except that a write of no bytes is over at once. */
  function Enter(x: Process, pc: Pc): Process {
    if Speaking(pc) && Load(x, pc) == "" then Arrive(x, AfterSpeaking(pc)) else Arrive(x, pc)
  }

  datatype Command = ReverseAudio | ShiftAudio | StretchAudio | ExitProgram

  function Request(c: Command): Message {
    match c
    case ReverseAudio => AskReverse
    case ShiftAudio => AskShift
    case StretchAudio => AskStretch
    case ExitProgram => AskExit
  }

  datatype Action =
    | Write(p: Node, n: nat)        // n bytes of the current write enter the queue
    | Read(p: Node, n: nat)         // one read_some returns n bytes
    | Run(p: Node)                  // connect, or a statement without I/O
    | Fail(p: Node)                 // a read finds the end of the stream, or a connect is refused
    | Choose(c: Command)            // the user picks a menu entry
    | Open(file: Audio)             // the user loads a two-channel file

  const MESSAGE_SIZE: nat := 1024

  /** The buffer a read offers. */
  function Room(pc: Pc): nat {
    if pc.Record? then CHUNK_BYTES else MESSAGE_SIZE
  }

  /** `q` has closed its end of the connection to `p`.  Reverse closes the connection it
  has before it listens for the next one. */
  predicate Closed(s: State, q: Node, p: Node) {
    Gone(s.At(q).pc) || (q == Rev && p == Dsp && s.rev.pc == Accept)
  }

  /** A step the code can take.  `capacity` bounds what a queue holds. */
  predicate Enabled(capacity: nat, s: State, a: Action) {
    match a
    case Write(p, n) =>
      var x := s.At(p);
      && Speaking(x.pc)
      && 1 <= n <= |x.out|
      && |s.Queue(p, Peer(x.pc))| + n <= capacity
    case Read(p, n) =>
      var x := s.At(p);
      && Listening(x.pc)
      && 1 <= n <= Room(x.pc)
      && n <= |s.Queue(Peer(x.pc), p)|
    case Run(p) =>
      var x := s.At(p);
      Computing(x.pc) || (p == Dsp && x.pc.Dial? && s.rev.pc == Accept)
    case Fail(p) =>
      var x := s.At(p);
      || (Listening(x.pc) && s.Queue(Peer(x.pc), p) == "" && Closed(s, Peer(x.pc), p))
      || (p == Dsp && x.pc.Dial? && Gone(s.rev.pc))
    case Choose(c) =>
      // send_audio reads element 0 of each channel, so these have to exist
      && s.gui.pc == Menu
      && (c == ReverseAudio ==> s.loaded && s.gui.audio.NonEmpty())
    case Open(file) =>
      s.gui.pc == Menu
  }

  function AfterWrite(s: State, p: Node, n: nat): State
    requires Speaking(s.At(p).pc) && n <= |s.At(p).out|
  {
    var x := s.At(p);
    var q := Peer(x.pc);
    s.Store(p, q, s.Queue(p, q) + x.out[..n])
     .Put(p, if n == |x.out| then Enter(x, AfterSpeaking(x.pc)) else x.(out := x.out[n..]))
  }

  /** What one read does to the reader: `bytes` is what read_some returned. */
  function Taken(x: Process, bytes: string): Process
    requires Listening(x.pc)
  {
    match x.pc
    case Record(leg, side) =>
      var y := x.(box := x.box.With(side, x.box.Channel(side) + Decode(bytes)));
      if |Decode(bytes)| >= CHUNK_SIZE then y
      else if side == Left then Enter(y, Confirm(leg))
      else Enter(y.(audio := y.box), AfterReceive(leg))
    case _ =>
      Enter(x, AfterHearing(x.pc, bytes))
  }

  function AfterRead(s: State, p: Node, n: nat): State
    requires Listening(s.At(p).pc) && n <= |s.Queue(Peer(s.At(p).pc), p)|
  {
    var x := s.At(p);
    var from := Peer(x.pc);
    var q := s.Queue(from, p);
    var y := Taken(x, q[..n]);
    var t := s.Store(from, p, q[n..]).Put(p, y);
    if p == Gui && x.pc == Record(Download, Right) && y.pc == Menu then t.(turns := t.turns + 1) else t
  }

  /** Reverse turns both channels around between the two transfers. */
  function Computed(x: Process): Process
    requires Computing(x.pc)
  {
    if x.pc == Turn then Enter(x.(audio := ReversedAudio(x.audio)), AfterComputing(x.pc))
    else Enter(x, AfterComputing(x.pc))
  }

  function AfterRun(s: State, p: Node): State
    requires Computing(s.At(p).pc) || (p == Dsp && s.dsp.pc.Dial?)
  {
    if Computing(s.At(p).pc) then s.Put(p, Computed(s.At(p)))
    else
      // a new connection, with new queues
      s.(dsp := Enter(s.dsp, Say(s.dsp.pc.errand)), rev := Enter(s.rev, Hear(ForRequest)), dr := "", rd := "")
  }

  function Next(capacity: nat, s: State, a: Action): State
    requires Enabled(capacity, s, a)
  {
    match a
    case Write(p, n) => AfterWrite(s, p, n)
    case Read(p, n) => AfterRead(s, p, n)
    case Run(p) => AfterRun(s, p)
    case Fail(p) => s.Put(p, s.At(p).(pc := Failed, out := ""))
    case Choose(c) => s.(gui := Enter(s.gui, Say(Request(c))))
    case Open(file) =>
      s.(gui := s.gui.(audio := file), loaded := true, original := file, turns := 0)
  }

  function Start(pc: Pc): Process {
    Process(pc, "", SILENCE, SILENCE)
  }

  /** The GUI is connected, no file is loaded, and Reverse is listening. */
  const INITIAL := State(Start(Menu), Start(Hear(ForCommand)), Start(Accept),
                         "", "", "", "", false, SILENCE, 0)

  // ----- the environment -----

  /** The bytes that `p` has yet to hand over to `q` in its current write. */
  function Unsent(s: State, p: Node, q: Node): string {
    var x := s.At(p);
    if Speaking(x.pc) && Peer(x.pc) == q then x.out else ""
  }

  /** The read schedule under which transfers are whole: a read fills its buffer, or
  takes the last bytes of what the peer is writing. */
  predicate Settled(s: State, a: Action) {
    a.Read? && Listening(s.At(a.p).pc) ==>
      var pc := s.At(a.p).pc;
      var q := s.Queue(Peer(pc), a.p);
      || a.n == Room(pc)
      || (a.n == |q| && Unsent(s, Peer(pc), a.p) == "")
  }

  /** The user picks the next command only when the previous one has been read. */
  predicate Patient(s: State, a: Action) {
    a.Choose? ==> s.gd == ""
  }

  predicate Calm(capacity: nat, s: State, a: Action) {
    Enabled(capacity, s, a) && Settled(s, a) && Patient(s, a)
  }

  /** The user is not involved. */
  predicate Internal(a: Action) {
    !a.Choose? && !a.Open?
  }

  /** `acts` is a run from `s` of calm steps. */
  predicate CalmRun(capacity: nat, s: State, acts: seq<Action>)
    decreases |acts|
  {
    acts == [] ||
    (Calm(capacity, s, acts[0]) && CalmRun(capacity, Next(capacity, s, acts[0]), acts[1..]))
  }

  function After(capacity: nat, s: State, acts: seq<Action>): State
    requires CalmRun(capacity, s, acts)
    decreases |acts|
  {
    if acts == [] then s else After(capacity, Next(capacity, s, acts[0]), acts[1..])
  }
}
