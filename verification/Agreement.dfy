/** In every run of a reverse command the processes of the state machine hand to the
sockets the very bytes that the sequential programs write. */
module Agreement {
  import opened Wire
  import opened Framing
  import opened Audio
  import opened Service
  import opened Phases
  import opened Safety
  import opened Liveness
  import opened Completion
  import Programs

  // ----- what a run hands over -----

  /** The bytes that a step puts into the queue from `p` to `q`. */
  function HandedBy(s: State, act: Action, p: Node, q: Node): string {
    if act.Write? && act.p == p && Speaking(s.At(p).pc) && Peer(s.At(p).pc) == q && act.n <= |s.At(p).out|
    then s.At(p).out[..act.n]
    else ""
  }

  /** The bytes that a run puts into the queue from `p` to `q`, in order. */
  function Handed(capacity: nat, s: State, acts: seq<Action>, p: Node, q: Node): string
    requires CalmRun(capacity, s, acts)
    decreases |acts|
  {
    if acts == [] then ""
    else HandedBy(s, acts[0], p, q) + Handed(capacity, Next(capacity, s, acts[0]), acts[1..], p, q)
  }

  // ----- what the phases still have to hand over -----

  /** The bytes of one burst, `a` being the audio of the GUI. */
  function BurstBytes(ph: Phase, a: Audio): string
    requires IsBurst(ph)
  {
    match ph
    case Talking(m) => Text(m)
    case Playing(leg, side) => Stream(Cargo(leg, a).Channel(side))
    case Confirming(_) => "CONFIRMED"
  }

  function Share(ph: Phase, a: Audio, p: Node, q: Node): string {
    if IsBurst(ph) && BurstOf(ph).src == p && BurstOf(ph).dst == q then BurstBytes(ph, a) else ""
  }

  /** The bytes that the phases after `ph` put into the queue from `p` to `q`. */
  function ToCome(ph: Phase, a: Audio, p: Node, q: Node): string
    requires Errand(ph)
    decreases Distance(ph), a
  {
    if ph == Idle || ph == Over then ""
    else
      SuccCloser(ph);
      Share(Succ(ph), a, p, q) + ToCome(Succ(ph), a, p, q)
  }

  // ----- one step -----

  lemma WriteHands(capacity: nat, ph: Phase, s: State, act: Action, p: Node, q: Node)
    requires InPhase(ph, s) && Enabled(capacity, s, act) && act.Write?
    ensures HandedBy(s, act, p, q) + Unsent(Next(capacity, s, act), p, q) == Unsent(s, p, q)
  {
    WriterInBurst(capacity, ph, s, act);
    BurstFits(ph);
    var b := BurstOf(ph);
    WriteMoving(capacity, s, b, Rest(ph, s), act);
    if p == b.src {
      WriterHands(capacity, s, act, b, q);
    }
  }

  lemma WriterHands(capacity: nat, s: State, act: Action, b: Burst, q: Node)
    requires Fits(b) && act.Write? && act.p == b.src && s.At(b.src).pc == b.from && Enabled(capacity, s, act)
    ensures HandedBy(s, act, b.src, q) + Unsent(Next(capacity, s, act), b.src, q) == Unsent(s, b.src, q)
  {
    var out := s.At(b.src).out;
    assert out[..act.n] + out[act.n..] == out;
    assert act.n == |out| ==> out[..act.n] + "" == out;
  }

  /** Nobody has anything left to write. */
  predicate Quiet(s: State) {
    s.gui.out == "" && s.dsp.out == "" && s.rev.out == ""
  }

  lemma ReadHands(capacity: nat, leg: Leg, side: Side, s: State, act: Action, p: Node, q: Node)
    requires InPhase(Playing(leg, side), s) && Calm(capacity, s, act) && act.Read? && act.n == CHUNK_BYTES
    ensures Unsent(Next(capacity, s, act), p, q) == Unsent(s, p, q)
  {
    PlayingFullTaken(capacity, leg, side, s, act);
  }

  lemma ChoreHands(capacity: nat, ph: Phase, s: State, act: Action, p: Node, q: Node)
    requires InPhase(ph, s) && Enabled(capacity, s, act) && Chore(s, act)
    ensures Unsent(Next(capacity, s, act), p, q) == Unsent(s, p, q)
  {
    hide Next, Control, Data;
    ChoreNext(capacity, ph, s, act);
    ChoreActor(ph, s, act.p);
  }

  /** A step within a phase moves bytes from the writer to a queue, and no others. */
  lemma StayHands(capacity: nat, ph: Phase, s: State, act: Action, p: Node, q: Node)
    requires InPhase(ph, s) && Calm(capacity, s, act) && Internal(act) && !Advances(ph, s, act)
    ensures HandedBy(s, act, p, q) + Unsent(Next(capacity, s, act), p, q) == Unsent(s, p, q)
  {
    hide InPhase, Next, Unsent, Enabled, Settled;
    if act.Write? {
      WriteHands(capacity, ph, s, act, p, q);
    } else if act.Read? {
      ReadHands(capacity, ph.leg, ph.side, s, act, p, q);
    } else if act.Run? {
      ChoreHands(capacity, ph, s, act, p, q);
    } else {
      NoFailure(capacity, ph, s, act.p);
    }
  }

  /** The state in which a phase begins: nothing of its burst is under way or taken. */
  predicate Fresh(ph: Phase, t: State) {
    Silent(t) && (ph.Playing? ==> t.At(Receiver(ph.leg)).box.Channel(ph.side) == [])
  }

  lemma FreshHolds(ph: Phase, t: State, p: Node, q: Node)
    requires InPhase(ph, t) && Fresh(ph, t)
    ensures Unsent(t, p, q) == Share(ph, t.gui.audio, p, q)
  {
    if IsBurst(ph) {
      BurstFits(ph);
      FreshRest(ph, t);
      var b := BurstOf(ph);
      assert "" + t.At(b.src).out == t.At(b.src).out;
      assert t.At(b.dst).out == "" && t.At(Third(b)).out == "";
    }
  }

  lemma FreshRest(ph: Phase, t: State)
    requires IsBurst(ph) && Fresh(ph, t)
    ensures Rest(ph, t) == BurstBytes(ph, t.gui.audio)
  {
    if ph.Playing? {
      var sent := Sent(Cargo(ph.leg, t.gui.audio).Channel(ph.side));
      assert sent[0..] == sent;
    }
  }

  lemma TalkingEnds(capacity: nat, m: Message, s: State, act: Action)
    requires InPhase(Talking(m), s) && Calm(capacity, s, act) && act.Read?
    ensures Quiet(s) && Fresh(Succ(Talking(m)), Next(capacity, s, act))
  {
    hide Next, Data;
    var ph := Talking(m);
    ReaderInBurst(capacity, ph, s, act);
    BurstFits(ph);
    TextRead(capacity, s, BurstOf(ph), Text(m), act);
    HeardKeeps(m, s, Next(capacity, s, act));
  }

  lemma ConfirmingEnds(capacity: nat, leg: Leg, s: State, act: Action)
    requires InPhase(Confirming(leg), s) && Calm(capacity, s, act) && act.Read?
    ensures Quiet(s) && Fresh(Playing(leg, Right), Next(capacity, s, act))
  {
    var ph := Confirming(leg);
    ReaderInBurst(capacity, ph, s, act);
    BurstFits(ph);
    TextRead(capacity, s, BurstOf(ph), "CONFIRMED", act);
  }

  lemma PlayingEnds(capacity: nat, leg: Leg, side: Side, s: State, act: Action)
    requires InPhase(Playing(leg, side), s) && Calm(capacity, s, act) && act.Read? && act.n != CHUNK_BYTES
    ensures Quiet(s) && Fresh(Succ(Playing(leg, side)), Next(capacity, s, act))
  {
    hide Next, Data;
    BurstFits(Playing(leg, side));
    PlayingLastTaken(capacity, leg, side, s, act);
    if side == Left {
      LeftLastNext(capacity, leg, s, act);
    } else {
      RightLastNext(capacity, leg, s, act);
    }
  }

  lemma RunEnds(capacity: nat, ph: Phase, s: State, act: Action)
    requires InPhase(ph, s) && Enabled(capacity, s, act) && act.Run? && !Chore(s, act)
    ensures Quiet(s) && Fresh(Succ(ph), Next(capacity, s, act))
  {
    RunBetweenBursts(capacity, ph, s, act);
  }

  /** A phase ends when all its bytes have been handed over, and the next one begins with
  none of its own handed over. */
  lemma AdvanceHands(capacity: nat, ph: Phase, s: State, act: Action, p: Node, q: Node)
    requires InPhase(ph, s) && Calm(capacity, s, act) && Advances(ph, s, act)
    requires InPhase(Succ(ph), Next(capacity, s, act))
    ensures HandedBy(s, act, p, q) == "" && Unsent(s, p, q) == ""
    ensures var t := Next(capacity, s, act); Unsent(t, p, q) == Share(Succ(ph), t.gui.audio, p, q)
  {
    if act.Run? {
      RunEnds(capacity, ph, s, act);
    } else {
      ReaderInBurst(capacity, ph, s, act);
      match ph {
        case Talking(m) => TalkingEnds(capacity, m, s, act);
        case Confirming(leg) => ConfirmingEnds(capacity, leg, s, act);
        case Playing(leg, side) => PlayingEnds(capacity, leg, side, s, act);
      }
    }
    FreshHolds(Succ(ph), Next(capacity, s, act), p, q);
  }

  lemma Assoc(x: string, y: string, z: string)
    ensures (x + y) + z == x + (y + z)
    ensures "" + x == x
  {
  }

  /** What is still to be handed over after `s`, in phase `ph`. */
  function Remaining(ph: Phase, a: Audio, s: State, p: Node, q: Node): string
    requires Errand(ph)
  {
    Unsent(s, p, q) + ToCome(ph, a, p, q)
  }

  /** As long as a command is being served the GUI has audio `a`. */
  predicate Carries(ph: Phase, s: State, a: Audio) {
    InPhase(ph, s) && (s.gui.audio == a || ph == Idle || ph == Over)
  }

  lemma StepHands(capacity: nat, ph: Phase, a: Audio, s: State, act: Action, p: Node, q: Node) returns (next: Phase)
    requires Carries(ph, s, a) && Calm(capacity, s, act) && Internal(act)
    ensures Carries(next, Next(capacity, s, act), a) && Errand(ph) && Errand(next)
    ensures HandedBy(s, act, p, q) + Remaining(next, a, Next(capacity, s, act), p, q) == Remaining(ph, a, s, p, q)
  {
    hide Next, Control, Data, Unsent, Enabled, Settled;
    var t := Next(capacity, s, act);
    next := StepLowersEnergy(capacity, ph, s, act);
    AudioKept(capacity, ph, s, act);
    Assoc(HandedBy(s, act, p, q), Unsent(t, p, q), ToCome(next, a, p, q));
    if Advances(ph, s, act) {
      AdvanceHands(capacity, ph, s, act, p, q);
      NotAtEnd(ph, a, p, q);
    } else {
      StayHands(capacity, ph, s, act, p, q);
    }
  }

  lemma NotAtEnd(ph: Phase, a: Audio, p: Node, q: Node)
    requires Errand(ph) && ph != Idle && ph != Over
    ensures Errand(Succ(ph)) && "" + ToCome(ph, a, p, q) == Share(Succ(ph), a, p, q) + ToCome(Succ(ph), a, p, q)
  {
    SuccCloser(ph);
  }

  lemma {:induction false} RunHands(capacity: nat, ph: Phase, a: Audio, s: State, acts: seq<Action>, p: Node, q: Node)
    returns (last: Phase)
    requires Carries(ph, s, a) && InternalRun(capacity, s, acts)
    ensures Carries(last, After(capacity, s, acts), a) && Errand(ph) && Errand(last)
    ensures Handed(capacity, s, acts, p, q) + Remaining(last, a, After(capacity, s, acts), p, q)
         == Remaining(ph, a, s, p, q)
    decreases |acts|
  {
    ControlErrand(ph, s);
    last := ph;
    if acts == [] {
      Assoc(Remaining(ph, a, s, p, q), "", "");
    } else {
      var next := StepHands(capacity, ph, a, s, acts[0], p, q);
      var s1 := Next(capacity, s, acts[0]);
      last := RunHands(capacity, next, a, s1, acts[1..], p, q);
      Assoc(HandedBy(s, acts[0], p, q), Handed(capacity, s1, acts[1..], p, q),
            Remaining(last, a, After(capacity, s, acts), p, q));
    }
  }

  // ----- the scripts of the programs -----

  /** What the sequential programs write to each other when `a` is to be reversed. */
  function Script(a: Audio, p: Node, q: Node): seq<string> {
    match (p, q)
    case (Gui, Dsp) => Programs.ReverseScript(a, [])
    case (Dsp, Gui) => Programs.AnswerScript(ReversedAudio(a), [])
    case (Dsp, Rev) => Programs.RunScript(a)
    case (Rev, Dsp) => Programs.ReplyScript(ReversedAudio(a))
    case _ => []
  }

  /** What they write to each other for a command, `a` being the audio of the GUI. */
  function CommandScript(c: Command, a: Audio, p: Node, q: Node): seq<string> {
    match c
    case ReverseAudio => Script(a, p, q)
    case ShiftAudio => if p == Gui && q == Dsp then ["shift"] else []
    case StretchAudio => if p == Gui && q == Dsp then ["stretch"] else []
    case ExitProgram => if (p == Gui && q == Dsp) || (p == Dsp && q == Rev) then ["exit"] else []
  }

  lemma FlattenOne(text: string)
    ensures Flatten([text]) == text
  {
    FlattenFirst(text, []);
    assert [text] + [] == [text] && text + "" == text;
  }

  /** The bytes of one audio transfer. */
  lemma AudioBytes(a: Audio)
    requires a.NonEmpty()
    ensures Flatten(Programs.AudioWrites(a)) == Stream(a.left) + Stream(a.right)
  {
    WritesFlatten(a.left);
    WritesFlatten(a.right);
    FlattenConcat(ChunkWrites(a.left), ChunkWrites(a.right));
  }

  lemma FlattenThree(x: seq<string>, y: seq<string>, z: seq<string>)
    ensures Flatten(x + (y + z)) == Flatten(x) + (Flatten(y) + Flatten(z))
  {
    FlattenConcat(y, z);
    FlattenConcat(x, y + z);
  }

  lemma ScriptBytes(a: Audio)
    requires a.NonEmpty()
    ensures var b := ReversedAudio(a); var up := Stream(a.left) + Stream(a.right); var down := Stream(b.left) + Stream(b.right);
      && Flatten(Script(a, Gui, Dsp)) == "reverse" + (up + "CONFIRMED")
      && Flatten(Script(a, Dsp, Gui)) == "ready" + ("CONFIRMED" + down)
      && Flatten(Script(a, Dsp, Rev)) == "run" + (up + ("ready" + "CONFIRMED"))
      && Flatten(Script(a, Rev, Dsp)) == "ready" + ("CONFIRMED" + ("done" + down))
  {
    var b := ReversedAudio(a);
    ReversedKeepsLengths(a);
    AudioBytes(a);
    AudioBytes(b);
    var up, down := Programs.AudioWrites(a), Programs.AudioWrites(b);
    TextsFlatten();
    assert ["CONFIRMED"] + [] == ["CONFIRMED"] && down + [] == down;
    FlattenThree(["reverse"], up, ["CONFIRMED"]);
    FlattenThree(["ready"], ["CONFIRMED"], down);
    FlattenThree(["run"], up, ["ready", "CONFIRMED"]);
    FlattenThree(["ready"], ["CONFIRMED"], ["done"] + down);
    FlattenConcat(["done"], down);
  }

  lemma TextsFlatten()
    ensures Flatten(["reverse"]) == "reverse" && Flatten(["ready"]) == "ready" && Flatten(["run"]) == "run"
    ensures Flatten(["done"]) == "done" && Flatten(["CONFIRMED"]) == "CONFIRMED"
    ensures Flatten(["shift"]) == "shift" && Flatten(["stretch"]) == "stretch" && Flatten(["exit"]) == "exit"
    ensures Flatten(["ready", "CONFIRMED"]) == "ready" + "CONFIRMED"
  {
    FlattenOne("reverse");
    FlattenOne("ready");
    FlattenOne("run");
    FlattenOne("done");
    FlattenOne("CONFIRMED");
    FlattenOne("shift");
    FlattenOne("stretch");
    FlattenOne("exit");
    FlattenConcat(["ready"], ["CONFIRMED"]);
    assert ["ready"] + ["CONFIRMED"] == ["ready", "CONFIRMED"];
  }

  /** All the bytes of a reverse command, from its first phase on. */
  function AllBytes(a: Audio, p: Node, q: Node): string {
    Share(Talking(AskReverse), a, p, q) + ToCome(Talking(AskReverse), a, p, q)
  }

  lemma NextShare(ph: Phase, a: Audio, p: Node, q: Node)
    requires Errand(ph) && ph != Idle && ph != Over
    ensures Errand(Succ(ph)) && ToCome(ph, a, p, q) == Share(Succ(ph), a, p, q) + ToCome(Succ(ph), a, p, q)
  {
    SuccCloser(ph);
  }

  /** The bytes of one transfer in one direction. */
  function LegShare(leg: Leg, a: Audio, p: Node, q: Node): string {
    if p == Sender(leg) && q == Receiver(leg) then Stream(Cargo(leg, a).left) + Stream(Cargo(leg, a).right)
    else if p == Receiver(leg) && q == Sender(leg) then "CONFIRMED"
    else ""
  }

  lemma LegShares(leg: Leg, a: Audio, p: Node, q: Node)
    ensures Share(Playing(leg, Left), a, p, q) + (Share(Confirming(leg), a, p, q) + Share(Playing(leg, Right), a, p, q))
         == LegShare(leg, a, p, q)
  {
    hide Stream, Cargo;
  }

  lemma LegBytes(leg: Leg, before: Phase, a: Audio, p: Node, q: Node)
    requires Errand(before) && before != Idle && before != Over && Succ(before) == Playing(leg, Left)
    ensures ToCome(before, a, p, q) == LegShare(leg, a, p, q) + ToCome(Playing(leg, Right), a, p, q)
  {
    NextShare(before, a, p, q);
    NextShare(Playing(leg, Left), a, p, q);
    NextShare(Confirming(leg), a, p, q);
    LegShares(leg, a, p, q);
    var l, c, r := Share(Playing(leg, Left), a, p, q), Share(Confirming(leg), a, p, q), Share(Playing(leg, Right), a, p, q);
    AssocFour(l, c, r, ToCome(Playing(leg, Right), a, p, q));
  }

  lemma AssocFour(l: string, c: string, r: string, rest: string)
    ensures l + (c + (r + rest)) == (l + (c + r)) + rest
  {
  }

  /** A phase without a burst adds nothing. */
  lemma SilentPhase(ph: Phase, a: Audio, p: Node, q: Node)
    requires Errand(ph) && ph != Idle && ph != Over && !IsBurst(Succ(ph))
    ensures Errand(Succ(ph)) && ToCome(ph, a, p, q) == ToCome(Succ(ph), a, p, q)
  {
    NextShare(ph, a, p, q);
    Assoc(ToCome(Succ(ph), a, p, q), "", "");
  }

  /** From the command to Reverse having the audio. */
  function Outward(a: Audio, p: Node, q: Node, rest: string): string {
    Share(Talking(AskReverse), a, p, q) + (Share(Talking(AnswerReady), a, p, q) + (LegShare(Upload, a, p, q)
    + (Share(Talking(TellRun), a, p, q) + (Share(Talking(ReplyReady), a, p, q) + (LegShare(Forward, a, p, q) + rest)))))
  }

  /** From there to the GUI having the reversed audio. */
  function Homeward(a: Audio, p: Node, q: Node): string {
    Share(Talking(ReplyDone), a, p, q) + (Share(Talking(TellReady), a, p, q)
    + (LegShare(Return, a, p, q) + (LegShare(Download, a, p, q) + "")))
  }

  /** The last message before a transfer, the transfer, and a phase without a burst. */
  lemma MessageThenLeg(ph: Phase, leg: Leg, a: Audio, p: Node, q: Node)
    requires Errand(ph) && Succ(ph).Talking? && Succ(Succ(ph)) == Playing(leg, Left)
    requires ph != Idle && !IsBurst(Succ(Playing(leg, Right)))
    ensures Errand(Succ(Playing(leg, Right)))
    ensures ToCome(ph, a, p, q)
         == Share(Succ(ph), a, p, q) + (LegShare(leg, a, p, q) + ToCome(Succ(Playing(leg, Right)), a, p, q))
  {
    hide Share, LegShare;
    NextShare(ph, a, p, q);
    LegBytes(leg, Succ(ph), a, p, q);
    SilentPhase(Playing(leg, Right), a, p, q);
  }

  lemma MessagesThenLeg(ph: Phase, leg: Leg, a: Audio, p: Node, q: Node)
    requires Errand(ph) && Succ(ph).Talking? && Succ(Succ(ph)).Talking? && Succ(Succ(Succ(ph))) == Playing(leg, Left)
    requires ph != Idle && !IsBurst(Succ(Playing(leg, Right)))
    ensures Errand(Succ(Playing(leg, Right)))
    ensures ToCome(ph, a, p, q)
         == Share(Succ(ph), a, p, q)
            + (Share(Succ(Succ(ph)), a, p, q)
               + (LegShare(leg, a, p, q) + ToCome(Succ(Playing(leg, Right)), a, p, q)))
  {
    hide Share, LegShare;
    NextShare(ph, a, p, q);
    MessageThenLeg(Succ(ph), leg, a, p, q);
  }

  lemma DownloadPhases(a: Audio, p: Node, q: Node)
    ensures ToCome(Parting, a, p, q) == LegShare(Download, a, p, q) + ""
  {
    hide Share, LegShare;
    LegBytes(Download, Parting, a, p, q);
    SilentPhase(Playing(Download, Right), a, p, q);
  }

  lemma AllPhases(a: Audio, p: Node, q: Node)
    ensures AllBytes(a, p, q) == Outward(a, p, q, Homeward(a, p, q))
  {
    hide Share, LegShare;
    MessageThenLeg(Talking(AskReverse), Upload, a, p, q);
    MessagesThenLeg(Dialing(TellRun), Forward, a, p, q);
    MessagesThenLeg(Turning, Return, a, p, q);
    DownloadPhases(a, p, q);
  }

  lemma NothingAdded(x: string, y: string, z: string)
    ensures "" + x == x && x + "" == x && x + (y + "") == x + y && (x + y) + z == x + (y + z)
  {
  }

  lemma OutwardBytes(a: Audio, p: Node, q: Node, rest: string)
    ensures var up := Stream(a.left) + Stream(a.right);
      Outward(a, p, q, rest) ==
        match (p, q)
        case (Gui, Dsp) => "reverse" + (up + rest)
        case (Dsp, Gui) => "ready" + ("CONFIRMED" + rest)
        case (Dsp, Rev) => "run" + (up + rest)
        case (Rev, Dsp) => "ready" + ("CONFIRMED" + rest)
        case _ => rest
  {
    var up := Stream(a.left) + Stream(a.right);
    NothingAdded(rest, "", "");
    NothingAdded(up + rest, "", "");
    NothingAdded("CONFIRMED" + rest, "", "");
    NothingAdded("run" + (up + rest), "", "");
    NothingAdded("ready" + ("CONFIRMED" + rest), "", "");
  }

  lemma HomewardBytes(a: Audio, p: Node, q: Node)
    ensures var b := ReversedAudio(a); var down := Stream(b.left) + Stream(b.right);
      Homeward(a, p, q) ==
        match (p, q)
        case (Gui, Dsp) => "CONFIRMED"
        case (Dsp, Gui) => down
        case (Dsp, Rev) => "ready" + "CONFIRMED"
        case (Rev, Dsp) => "done" + down
        case _ => ""
  {
    var b := ReversedAudio(a);
    var down := Stream(b.left) + Stream(b.right);
    NothingAdded("CONFIRMED", "", "");
    NothingAdded(down, "", "");
    NothingAdded("", "", "");
  }

  /** The phases hand over the bytes of the scripts. */
  lemma PhasesFollowScript(a: Audio, p: Node, q: Node)
    requires a.NonEmpty() && p != q && (p == Dsp || q == Dsp)
    ensures AllBytes(a, p, q) == Flatten(Script(a, p, q))
  {
    AllPhases(a, p, q);
    OutwardBytes(a, p, q, Homeward(a, p, q));
    HomewardBytes(a, p, q);
    ScriptBytes(a);
  }

  /** The bytes of a command without audio. */
  lemma BriefFollowsScript(c: Command, a: Audio, p: Node, q: Node)
    requires c != ReverseAudio && p != q && (p == Dsp || q == Dsp)
    ensures Share(Talking(Request(c)), a, p, q) + ToCome(Talking(Request(c)), a, p, q)
         == Flatten(CommandScript(c, a, p, q))
  {
    TextsFlatten();
    if c == ExitProgram {
      SilentPhase(Talking(AskExit), a, p, q);
      NextShare(Dialing(TellExit), a, p, q);
      SilentPhase(Talking(TellExit), a, p, q);
    } else {
      SilentPhase(Talking(Request(c)), a, p, q);
    }
  }

  lemma CommandFollowsScript(c: Command, a: Audio, p: Node, q: Node)
    requires p != q && (p == Dsp || q == Dsp) && (c == ReverseAudio ==> a.NonEmpty())
    ensures Share(Talking(Request(c)), a, p, q) + ToCome(Talking(Request(c)), a, p, q)
         == Flatten(CommandScript(c, a, p, q))
  {
    if c == ReverseAudio {
      PhasesFollowScript(a, p, q);
    } else {
      BriefFollowsScript(c, a, p, q);
    }
  }

  /** Any command in any calm run: at every moment each process has handed over a beginning
  of what its sequential program writes, and when all are at rest again or have ended it
  has handed over all of it. */
  lemma SameBytes(capacity: nat, before: seq<Action>, c: Command, acts: seq<Action>, p: Node, q: Node)
    requires CalmRun(capacity, INITIAL, before) && p != q && (p == Dsp || q == Dsp)
    requires Calm(capacity, After(capacity, INITIAL, before), Choose(c))
    requires InternalRun(capacity, Next(capacity, After(capacity, INITIAL, before), Choose(c)), acts)
    ensures var s := After(capacity, INITIAL, before);
      var s1 := Next(capacity, s, Choose(c));
      var t, script := After(capacity, s1, acts), Flatten(CommandScript(c, s.gui.audio, p, q));
      && Handed(capacity, s1, acts, p, q) <= script
      && (Resting(t) || Ended(t) ==> Handed(capacity, s1, acts, p, q) == script)
  {
    hide Next, Inv, InPhase, CommandScript, Share, Settled;
    InitialInv();
    RunKeepsInv(capacity, INITIAL, before);
    var s := After(capacity, INITIAL, before);
    var s1 := Next(capacity, s, Choose(c));
    var a := s.gui.audio;
    CommandBegins(capacity, s, c);
    FreshHolds(Talking(Request(c)), s1, p, q);
    var last := RunHands(capacity, Talking(Request(c)), a, s1, acts, p, q);
    CommandFollowsScript(c, a, p, q);
    var t := After(capacity, s1, acts);
    if Resting(t) || Ended(t) {
      NothingRemains(last, a, t, p, q);
    }
  }

  lemma CommandBegins(capacity: nat, s: State, c: Command)
    requires Inv(s) && Calm(capacity, s, Choose(c))
    ensures var s1 := Next(capacity, s, Choose(c));
      && Carries(Talking(Request(c)), s1, s.gui.audio) && s1.gui.audio == s.gui.audio
      && Fresh(Talking(Request(c)), s1)
  {
    var ph :| InPhase(ph, s);
    ChooseStarts(capacity, ph, s, Choose(c));
    IdleSilent(s);
  }

  lemma IdleSilent(s: State)
    requires InPhase(Idle, s)
    ensures Silent(s) && forall m: Message :: Fresh(Talking(m), s.(gui := Enter(s.gui, Say(m))))
  {
  }

  lemma NothingRemains(last: Phase, a: Audio, t: State, p: Node, q: Node)
    requires InPhase(last, t) && (Resting(t) || Ended(t))
    ensures Errand(last) && Remaining(last, a, t, p, q) == ""
  {
    ServingNotAtRest(last, t);
  }
}
