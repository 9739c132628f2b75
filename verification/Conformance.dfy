/** Every turn of a sequential program is a path of its process in the state machine,
whatever its reads find: the same bytes to each peer, the same reads left over, and the
same end. */
module Conformance {
  import opened Wire
  import opened Framing
  import opened Audio
  import opened Service
  import Programs

  /** What the successive reads from each peer find. */
  datatype Mail = Mail(gui: seq<string>, dsp: seq<string>, rev: seq<string>) {
    function From(p: Node): seq<string> {
      match p case Gui => gui case Dsp => dsp case Rev => rev
    }

    function With(p: Node, rest: seq<string>): Mail {
      match p case Gui => this.(gui := rest) case Dsp => this.(dsp := rest) case Rev => this.(rev := rest)
    }

    predicate Readable() {
      NoEmptyRead(gui) && NoEmptyRead(dsp) && NoEmptyRead(rev)
    }

    function Size(): nat {
      |Flatten(gui)| + |Flatten(dsp)| + |Flatten(rev)|
    }
  }

  /** The bytes written to each peer. */
  datatype Bytes = Bytes(gui: string, dsp: string, rev: string) {
    function Before(p: Node, text: string): Bytes {
      match p
      case Gui => this.(gui := text + gui)
      case Dsp => this.(dsp := text + dsp)
      case Rev => this.(rev := text + rev)
    }
  }

  const NOTHING := Bytes("", "", "")

  /** Where a process comes to a stop by itself, with what it has written on the way. */
  datatype Visit = Visit(pc: Pc, audio: Audio, mail: Mail, sent: Bytes)

  /** The program points between the turns of the main loops, and their ends. */
  predicate TurnOver(pc: Pc) {
    pc == Menu || pc == Hear(ForCommand) || pc == Accept || Gone(pc)
  }

  function Rank(pc: Pc): nat {
    if Speaking(pc) then 2
    else if pc.Hangup? || pc.HangupExit? || pc.Close? then 1
    else if pc.Dial? || pc.Part? || pc.Turn? then 3
    else 0
  }

  /** One read from `p`. */
  function ReadFrom(mail: Mail, p: Node, room: nat): (r: (string, Mail))
    requires mail.Readable() && mail.From(p) != [] && room > 0
    ensures r.1.Readable() && r.1.Size() < mail.Size()
  {
    ReadSomeKeepsBytes(mail.From(p), room);
    var (bytes, rest) := ReadSome(mail.From(p), room);
    (bytes, mail.With(p, rest))
  }

  /** What involves no read leads on to something that comes later. */
  lemma RankFalls(x: Process)
    ensures Speaking(x.pc) ==> Rank(Enter(x, AfterSpeaking(x.pc)).pc) < Rank(x.pc)
    ensures Computing(x.pc) ==> Rank(Computed(x).pc) < Rank(x.pc)
    ensures x.pc.Dial? ==> Rank(Enter(x, Say(x.pc.errand)).pc) < Rank(x.pc)
  {
  }

  /** The path of one process through its program points, to the end of its turn or to a
  read that finds nothing. */
  function Follow(x: Process, mail: Mail): Visit
    requires mail.Readable()
    decreases mail.Size(), Rank(x.pc)
  {
    RankFalls(x);
    if TurnOver(x.pc) then Visit(x.pc, x.audio, mail, NOTHING)
    else if Speaking(x.pc) then
      var v := Follow(Enter(x, AfterSpeaking(x.pc)), mail);
      v.(sent := v.sent.Before(Peer(x.pc), x.out))
    else if Listening(x.pc) then
      if mail.From(Peer(x.pc)) == [] then Visit(x.pc, x.audio, mail, NOTHING)
      else
        var (bytes, rest) := ReadFrom(mail, Peer(x.pc), Room(x.pc));
        Follow(Taken(x, bytes), rest)
    else if Computing(x.pc) then Follow(Computed(x), mail)
    else Follow(Enter(x, Say(x.pc.errand)), mail)
  }

  /** As `v`, with `writes` to `p` before it. */
  function Written(v: Visit, p: Node, writes: seq<string>): Visit {
    v.(sent := v.sent.Before(p, Flatten(writes)))
  }

  lemma WrittenTwice(v: Visit, p: Node, a: seq<string>, b: seq<string>)
    ensures Written(Written(v, p, b), p, a) == Written(v, p, a + b)
  {
    FlattenConcat(a, b);
    assert forall s: string {:trigger Flatten(a) + (Flatten(b) + s)} ::
      Flatten(a) + (Flatten(b) + s) == (Flatten(a) + Flatten(b)) + s;
  }

  lemma FlattenOne(text: string)
    ensures Flatten([text]) == text
  {
    FlattenFirst(text, []);
    assert [text] + [] == [text] && text + "" == text;
  }

  /** What a program point is entered with is the audio and the container. */
  lemma SameEntry(x: Process, y: Process, pc: Pc)
    requires x.audio == y.audio && x.box == y.box
    ensures Enter(x, pc) == Enter(y, pc)
  {
  }

  // ----- the calls -----

  lemma FollowSay(x: Process, mail: Mail, m: Message)
    requires mail.Readable()
    ensures Follow(Enter(x, Say(m)), mail) == Written(Follow(Enter(x, AfterSay(m)), mail), Addressee(m), [Text(m)])
  {
    FlattenOne(Text(m));
    SameEntry(Enter(x, Say(m)), x, AfterSay(m));
  }

  lemma FollowHear(x: Process, mail: Mail, pc: Pc)
    requires mail.Readable() && (pc.AwaitConfirm? || (pc.Hear? && pc != Hear(ForCommand)))
    ensures var y := Enter(x, pc); var q := mail.From(Peer(pc));
      && (q == [] ==> Follow(y, mail) == Visit(pc, x.audio, mail, NOTHING))
      && (q != [] ==>
            var (text, rest) := Programs.NextRead(q);
            Follow(y, mail) == Follow(Enter(x, AfterHearing(pc, text)), mail.With(Peer(pc), rest)))
  {
    var q := mail.From(Peer(pc));
    if q != [] {
      SameEntry(Enter(x, pc), x, AfterHearing(pc, Programs.NextRead(q).0));
    }
  }

  lemma FollowPlay(x: Process, mail: Mail, leg: Leg, side: Side)
    requires mail.Readable() && x.audio.Channel(side) != []
    ensures Follow(Enter(x, Play(leg, side)), mail)
         == Written(Follow(Enter(x, AfterSpeaking(Play(leg, side))), mail), Receiver(leg), ChunkWrites(x.audio.Channel(side)))
  {
    WritesFlatten(x.audio.Channel(side));
    var v := Follow(Enter(x, AfterSpeaking(Play(leg, side))), mail);
    if Stream(x.audio.Channel(side)) == "" {
      NothingBefore(v.sent, Receiver(leg));
    } else {
      SameEntry(Enter(x, Play(leg, side)), x, AfterSpeaking(Play(leg, side)));
    }
  }

  lemma NothingBefore(b: Bytes, p: Node)
    ensures b.Before(p, "") == b
  {
    assert "" + b.gui == b.gui && "" + b.dsp == b.dsp && "" + b.rev == b.rev;
  }

  /** send_audio of the state machine and of the `Pipe` class. */
  lemma FollowSend(x: Process, mail: Mail, leg: Leg)
    requires mail.Readable() && x.audio.NonEmpty()
    ensures var s := Programs.Answered(mail.From(Receiver(leg)), x.audio);
      Follow(Enter(x, Play(leg, Left)), mail) ==
        Written(if s.verdict.Blocked? then Visit(AwaitConfirm(leg), x.audio, mail, NOTHING)
                else Follow(Enter(x, AfterSend(leg)), mail.With(Receiver(leg), s.rest)),
                Receiver(leg), s.wrote)
  {
    var q := mail.From(Receiver(leg));
    FollowPlay(x, mail, leg, Left);
    FollowHear(x, mail, AwaitConfirm(leg));
    if q != [] {
      var (text, rest) := Programs.NextRead(q);
      if text == "CONFIRMED" {
        FollowPlay(x, mail.With(Receiver(leg), rest), leg, Right);
        WrittenTwice(Follow(Enter(x, AfterSend(leg)), mail.With(Receiver(leg), rest)), Receiver(leg),
                     ChunkWrites(x.audio.left), ChunkWrites(x.audio.right));
      }
    }
  }

  /** Where a channel loop of recv_audio leads. */
  function LoopOver(x: Process, leg: Leg, side: Side): Process {
    if side == Left then Enter(x, Confirm(leg)) else Enter(x.(audio := x.box), AfterReceive(leg))
  }

  function Fuller(x: Process, side: Side, got: seq<Sample>): Process {
    x.(box := x.box.With(side, x.box.Channel(side) + got))
  }

  lemma FullerTwice(x: Process, side: Side, a: seq<Sample>, b: seq<Sample>)
    ensures Fuller(Fuller(x, side, a), side, b) == Fuller(x, side, a + b)
    ensures Fuller(x, side, a).pc == x.pc && Fuller(x, side, a).audio == x.audio
  {
    assert (x.box.Channel(side) + a) + b == x.box.Channel(side) + (a + b);
  }

  /** One turn of a channel loop. */
  lemma LoopTurn(x: Process, mail: Mail, leg: Leg, side: Side)
    requires mail.Readable() && x.pc == Record(leg, side) && mail.From(Sender(leg)) != []
    ensures var (bytes, rest) := ReadSome(mail.From(Sender(leg)), CHUNK_BYTES);
      var y := Fuller(x, side, Decode(bytes));
      Follow(x, mail) == Follow(if |Decode(bytes)| < CHUNK_SIZE then LoopOver(y, leg, side) else y, mail.With(Sender(leg), rest))
  {
  }

  lemma ReceiveTurn(q: seq<string>)
    requires NoEmptyRead(q)
    ensures q == [] ==> Receive(q) == Reception([], [], false)
    ensures q != [] ==>
      var (bytes, rest) := ReadSome(q, CHUNK_BYTES);
      Receive(q) == if |Decode(bytes)| < CHUNK_SIZE then Reception(Decode(bytes), rest, true)
                    else Receive(rest).(got := Decode(bytes) + Receive(rest).got)
  {
  }

  /** What the process is after a channel loop, if it ends. */
  function AfterLoop(x: Process, mail: Mail, leg: Leg, side: Side): Visit
    requires mail.Readable()
  {
    var r := Receive(mail.From(Sender(leg)));
    var m := mail.With(Sender(leg), r.rest);
    if r.ended then Follow(LoopOver(Fuller(x, side, r.got), leg, side), m) else Visit(x.pc, x.audio, m, NOTHING)
  }

  lemma {:induction false} FollowLoop(x: Process, mail: Mail, leg: Leg, side: Side)
    requires mail.Readable() && x.pc == Record(leg, side)
    ensures Follow(x, mail) == AfterLoop(x, mail, leg, side)
    decreases |Flatten(mail.From(Sender(leg)))|
  {
    hide Enter, LoopOver, Fuller, Taken, Decode;
    var q := mail.From(Sender(leg));
    ReceiveTurn(q);
    if q == [] {
      assert mail.With(Sender(leg), []) == mail;
    } else {
      ReadSomeKeepsBytes(q, CHUNK_BYTES);
      var (bytes, rest) := ReadSome(q, CHUNK_BYTES);
      var m := mail.With(Sender(leg), rest);
      LoopTurn(x, mail, leg, side);
      FullerTwice(x, side, Decode(bytes), Receive(rest).got);
      if |Decode(bytes)| >= CHUNK_SIZE {
        FollowLoop(Fuller(x, side, Decode(bytes)), m, leg, side);
        assert m.With(Sender(leg), Receive(rest).rest) == mail.With(Sender(leg), Receive(rest).rest);
      }
    }
  }

  lemma FollowConfirm(x: Process, mail: Mail, leg: Leg)
    requires mail.Readable()
    ensures Follow(Enter(x, Confirm(leg)), mail)
         == Written(Follow(Enter(x, Record(leg, Right)), mail), Sender(leg), ["CONFIRMED"])
  {
    FlattenOne("CONFIRMED");
    SameEntry(Enter(x, Confirm(leg)), x, Record(leg, Right));
  }

  lemma NothingWritten(v: Visit, p: Node)
    ensures Written(v, p, []) == v
  {
    NothingBefore(v.sent, p);
  }

  /** recv_audio of the state machine and of the `Pipe` class. */
  lemma FollowReceive(x: Process, mail: Mail, leg: Leg)
    requires mail.Readable()
    ensures var d := Programs.Received(mail.From(Sender(leg)));
      var m := mail.With(Sender(leg), d.rest);
      Follow(Enter(x, Record(leg, Left)), mail) ==
        Written(if d.audio.Some? then Follow(Enter(x.(audio := d.audio.value, box := d.audio.value), AfterReceive(leg)), m)
                else Visit(Record(leg, if d.wrote == [] then Left else Right), x.audio, m, NOTHING),
                Sender(leg), d.wrote)
  {
    var q := mail.From(Sender(leg));
    var y := Enter(x, Record(leg, Left));
    var left := Receive(q);
    FollowLoop(y, mail, leg, Left);
    NothingWritten(AfterLoop(y, mail, leg, Left), Sender(leg));
    if left.ended {
      assert [] + left.got == left.got;
      var m := mail.With(Sender(leg), left.rest);
      var z := x.(box := Audio(left.got, []));
      SameEntry(Fuller(y, Left, left.got), z, Confirm(leg));
      FollowConfirm(z, m, leg);
      SecondLoop(z, m, leg);
      assert m.With(Sender(leg), Receive(left.rest).rest) == mail.With(Sender(leg), Receive(left.rest).rest);
    }
  }

  lemma EnterRecord(z: Process, leg: Leg)
    ensures Enter(z, Record(leg, Right)) == z.(pc := Record(leg, Right), out := "")
  {
  }

  lemma SecondLoop(z: Process, m: Mail, leg: Leg)
    requires m.Readable() && z.box.right == []
    ensures var r := Receive(m.From(Sender(leg)));
      var a := Audio(z.box.left, r.got);
      var rest := m.With(Sender(leg), r.rest);
      Follow(Enter(z, Record(leg, Right)), m) ==
        if r.ended then Follow(Enter(z.(audio := a, box := a), AfterReceive(leg)), rest)
        else Visit(Record(leg, Right), z.audio, rest, NOTHING)
  {
    hide Enter;
    var y := z.(pc := Record(leg, Right), out := "");
    EnterRecord(z, leg);
    var r := Receive(m.From(Sender(leg)));
    var a := Audio(z.box.left, r.got);
    FollowLoop(y, m, leg, Right);
    assert [] + r.got == r.got;
    SameEntry(Fuller(y, Right, r.got).(audio := a), z.(audio := a, box := a), AfterReceive(leg));
  }

  // ----- the programs with one pipe -----

  /** How a turn that ends like this leaves the program counter. */
  predicate SameEnd(turn: Programs.Turn, pc: Pc) {
    match turn
    case Again => pc == Accept || pc == Menu || pc == Hear(ForCommand)
    case Stop => pc.Exit?
    case Hang => Listening(pc) && pc != Hear(ForCommand)
    case Undefined => true
  }

  /** Visit `v` is what a program does on its pipe to `p` that serves it like `s`. */
  predicate Conforms(v: Visit, p: Node, mail: Mail, s: Programs.Served) {
    s.turn != Programs.Undefined ==>
      && v.sent == NOTHING.Before(p, Flatten(s.line.wrote))
      && v.mail == mail.With(p, s.line.rest)
      && SameEnd(s.turn, v.pc)
  }

  lemma ConformsLater(v: Visit, p: Node, mail: Mail, m: Mail, s: Programs.Served, writes: seq<string>)
    requires Conforms(v, p, m, s) && forall rest :: m.With(p, rest) == mail.With(p, rest)
    ensures Conforms(Written(v, p, writes), p, mail, Programs.Prefixed(writes, s))
  {
    FlattenConcat(writes, s.line.wrote);
    assert (Flatten(writes) + Flatten(s.line.wrote)) + "" == Flatten(writes) + (Flatten(s.line.wrote) + "");
  }

  lemma FollowHangup(x: Process, mail: Mail)
    requires mail.Readable()
    ensures Follow(Enter(x, Hangup), mail) == Visit(Accept, x.audio, mail, NOTHING)
  {
  }

  /** The end of Reverse's turn, once it has said "done". */
  function ReturnVisit(audio: Audio, mail: Mail): Visit
    requires mail.Readable()
  {
    if mail.dsp == [] then Visit(Hear(ForSendReady), audio, mail, NOTHING)
    else
      var (text, rest) := Programs.NextRead(mail.dsp);
      if text != "ready" then Visit(Accept, audio, mail.With(Dsp, rest), NOTHING)
      else
        var s := Programs.Answered(rest, audio);
        Written(Visit(if s.verdict.Blocked? then AwaitConfirm(Return) else Accept, audio, mail.With(Dsp, s.rest), NOTHING),
                Dsp, s.wrote)
  }

  predicate Sends(mail: Mail, p: Node, text: string)
    requires mail.Readable()
  {
    mail.From(p) != [] && Programs.NextRead(mail.From(p)).0 == text
  }

  lemma ReturnFollows(x: Process, mail: Mail)
    requires mail.Readable() && (Sends(mail, Dsp, "ready") ==> x.audio.NonEmpty())
    ensures Follow(Enter(x, Hear(ForSendReady)), mail) == ReturnVisit(x.audio, mail)
  {
    FollowHear(x, mail, Hear(ForSendReady));
    if mail.dsp != [] {
      var (text, rest) := Programs.NextRead(mail.dsp);
      var m := mail.With(Dsp, rest);
      if text == "ready" {
        FollowSend(x, m, Return);
        var s := Programs.Answered(rest, x.audio);
        FollowHangup(x, m.With(Dsp, s.rest));
      } else {
        FollowHangup(x, m);
      }
    }
  }

  lemma ReturnVisitConforms(audio: Audio, mail: Mail)
    requires mail.Readable() && (Sends(mail, Dsp, "ready") ==> audio.NonEmpty())
    ensures Conforms(Written(ReturnVisit(audio, mail), Dsp, ["done"]), Dsp, mail, Programs.ReturnServes(mail.dsp, audio))
  {
    if Sends(mail, Dsp, "ready") {
      var s := Programs.Answered(Programs.NextRead(mail.dsp).1, audio);
      FlattenConcat(["done"], s.wrote);
      NothingBefore(NOTHING, Dsp);
      assert (Flatten(["done"]) + Flatten(s.wrote)) + "" == Flatten(["done"]) + (Flatten(s.wrote) + "");
    }
  }

  lemma ReturnConforms(x: Process, mail: Mail)
    requires mail.Readable()
    ensures Conforms(Follow(Enter(x, Say(ReplyDone)), mail), Dsp, mail, Programs.ReturnServes(mail.dsp, x.audio))
  {
    hide Conforms, Enter, Written, ReturnVisit;
    if Sends(mail, Dsp, "ready") && !x.audio.NonEmpty() {
      UndefinedConforms(Follow(Enter(x, Say(ReplyDone)), mail), Dsp, mail, Programs.ReturnServes(mail.dsp, x.audio));
    } else {
      FollowSay(x, mail, ReplyDone);
      ReturnFollows(x, mail);
      ReturnVisitConforms(x.audio, mail);
    }
  }

  lemma UndefinedConforms(v: Visit, p: Node, mail: Mail, s: Programs.Served)
    requires s.turn == Programs.Undefined
    ensures Conforms(v, p, mail, s)
  {
  }

  lemma FollowTurn(x: Process, mail: Mail)
    requires mail.Readable()
    ensures Follow(Enter(x, Turn), mail) == Follow(Enter(x.(audio := ReversedAudio(x.audio)), Say(ReplyDone)), mail)
  {
    var y := x.(audio := ReversedAudio(x.audio));
    SameEntry(Enter(x, Turn).(audio := y.audio), y, Say(ReplyDone));
  }

  lemma ServedAtOnce(v: Visit, p: Node, mail: Mail, s: Programs.Served)
    requires v.sent == NOTHING && v.mail == mail.With(p, s.line.rest) && SameEnd(s.turn, v.pc)
    ensures Conforms(Written(v, p, s.line.wrote), p, mail, s)
  {
    assert Flatten(s.line.wrote) + "" == Flatten(s.line.wrote);
  }

  lemma RunConforms(x: Process, mail: Mail)
    requires mail.Readable()
    ensures Conforms(Follow(Enter(x, Say(ReplyReady)), mail), Dsp, mail, Programs.RunServes(mail.dsp))
  {
    hide Conforms, Enter, Written;
    var d := Programs.Received(mail.dsp);
    var s := Programs.RunServes(mail.dsp);
    var m := mail.With(Dsp, d.rest);
    FollowSay(x, mail, ReplyReady);
    FollowReceive(x, mail, Forward);
    if d.audio.Some? {
      var y := x.(audio := d.audio.value, box := d.audio.value);
      var z := y.(audio := ReversedAudio(y.audio));
      FollowTurn(y, m);
      WrittenTwice(Follow(Enter(z, Say(ReplyDone)), m), Dsp, ["ready"], d.wrote);
      ReturnConforms(z, m);
      ConformsLater(Follow(Enter(z, Say(ReplyDone)), m), Dsp, mail, m, Programs.ReturnServes(d.rest, z.audio), ["ready"] + d.wrote);
    } else {
      var v := Visit(Record(Forward, if d.wrote == [] then Left else Right), x.audio, m, NOTHING);
      WrittenTwice(v, Dsp, ["ready"], d.wrote);
      ServedAtOnce(v, Dsp, mail, s);
    }
  }

  lemma FollowEnds(x: Process, mail: Mail)
    requires mail.Readable()
    ensures Follow(Enter(x, HangupExit), mail) == Visit(Exit(Rev), x.audio, mail, NOTHING)
    ensures Follow(Enter(x, Close), mail) == Visit(Exit(Dsp), x.audio, mail, NOTHING)
    ensures Follow(Enter(x, Accept), mail) == Visit(Accept, x.audio, mail, NOTHING)
    ensures Follow(Enter(x, Menu), mail) == Visit(Menu, x.audio, mail, NOTHING)
    ensures Follow(Enter(x, Hear(ForCommand)), mail) == Visit(Hear(ForCommand), x.audio, mail, NOTHING)
  {
  }

  /** The turn of Reverse, from the connection on, for whatever its reads find. */
  lemma ReverseConforms(x: Process, mail: Mail)
    requires mail.Readable()
    ensures Conforms(Follow(Enter(x, Hear(ForRequest)), mail), Dsp, mail, Programs.ReverseServes(mail.dsp))
  {
    hide Enter;
    var s := Programs.ReverseServes(mail.dsp);
    FollowHear(x, mail, Hear(ForRequest));
    if mail.dsp == [] {
      var v := Visit(Hear(ForRequest), x.audio, mail, NOTHING);
      NothingWritten(v, Dsp);
      ServedAtOnce(v, Dsp, mail, s);
    } else {
      var (text, rest) := Programs.NextRead(mail.dsp);
      var m := mail.With(Dsp, rest);
      if text == "run" {
        RunConforms(x, m);
        ConformsLater(Follow(Enter(x, Say(ReplyReady)), m), Dsp, mail, m, s, []);
        NothingWritten(Follow(Enter(x, Say(ReplyReady)), m), Dsp);
        NothingPrefixed(s);
      } else {
        FollowEnds(x, m);
        var v := Visit(if text == "exit" then Exit(Rev) else Accept, x.audio, m, NOTHING);
        NothingWritten(v, Dsp);
        ServedAtOnce(v, Dsp, mail, s);
      }
    }
  }

  lemma NothingPrefixed(s: Programs.Served)
    ensures Programs.Prefixed([], s) == s
  {
    assert [] + s.line.wrote == s.line.wrote;
  }

  /** The reverse command of the GUI, for whatever its reads find. */
  lemma GuiConforms(x: Process, mail: Mail)
    requires mail.Readable()
    ensures var v := Follow(Enter(x, Say(AskReverse)), mail);
      var (s, samples) := Programs.GuiReverses(mail.dsp, x.audio);
      Conforms(v, Dsp, mail, s) && (s.turn != Programs.Undefined ==> v.audio == samples)
  {
    hide Conforms, Enter, Written;
    FollowSay(x, mail, AskReverse);
    FollowHear(x, mail, Hear(ForReady));
    var s := Programs.GuiReverses(mail.dsp, x.audio).0;
    if mail.dsp == [] {
      var v := Visit(Hear(ForReady), x.audio, mail, NOTHING);
      ServedAtOnce(v, Dsp, mail, s);
      WrittenAudio(v, Dsp, ["reverse"]);
    } else if !x.audio.NonEmpty() {
      UndefinedConforms(Follow(Enter(x, Say(AskReverse)), mail), Dsp, mail, s);
    } else {
      var m := mail.With(Dsp, Programs.NextRead(mail.dsp).1);
      UploadConforms(x, m);
      var u := Follow(Enter(x, Play(Upload, Left)), m);
      var (later, samples) := Uploads(m.dsp, x.audio);
      ConformsLater(u, Dsp, mail, m, later, ["reverse"]);
      WrittenAudio(u, Dsp, ["reverse"]);
      Programs.Join(["reverse"], Programs.Answered(m.dsp, x.audio).wrote,
                    Programs.Received(Programs.Answered(m.dsp, x.audio).rest).wrote);
    }
  }

  lemma WrittenAudio(v: Visit, p: Node, writes: seq<string>)
    ensures Written(v, p, writes).audio == v.audio
  {
  }

  /** The reverse command of the GUI after the answer to its message. */
  function Uploads(incoming: seq<string>, samples: Audio): (r: (Programs.Served, Audio))
    requires NoEmptyRead(incoming)
  {
    var sending := Programs.Answered(incoming, samples);
    if sending.verdict.Blocked? then (Programs.Served(Programs.Hang, Programs.Line(sending.wrote, sending.rest, true)), samples)
    else
      var d := Programs.Received(sending.rest);
      (Programs.Served(if d.audio.None? then Programs.Hang else Programs.Again,
                       Programs.Line(sending.wrote + d.wrote, d.rest, true)),
       if d.audio.None? then samples else d.audio.value)
  }

  lemma UploadConforms(x: Process, mail: Mail)
    requires mail.Readable() && x.audio.NonEmpty()
    ensures var v := Follow(Enter(x, Play(Upload, Left)), mail);
      var (s, samples) := Uploads(mail.dsp, x.audio);
      Conforms(v, Dsp, mail, s) && v.audio == samples
  {
    hide Conforms, Enter, Written;
    var sending := Programs.Answered(mail.dsp, x.audio);
    var s := Uploads(mail.dsp, x.audio).0;
    FollowSend(x, mail, Upload);
    if sending.verdict.Blocked? {
      var v := Visit(AwaitConfirm(Upload), x.audio, mail, NOTHING);
      ServedAtOnce(v, Dsp, mail, s);
      WrittenAudio(v, Dsp, sending.wrote);
    } else {
      var m := mail.With(Dsp, sending.rest);
      var d := Programs.Received(m.dsp);
      var m2 := m.With(Dsp, d.rest);
      FollowReceive(x, m, Download);
      var v: Visit;
      if d.audio.Some? {
        FollowEnds(x.(audio := d.audio.value, box := d.audio.value), m2);
        v := Visit(Menu, d.audio.value, m2, NOTHING);
      } else {
        v := Visit(Record(Download, if d.wrote == [] then Left else Right), x.audio, m2, NOTHING);
      }
      WrittenTwice(v, Dsp, sending.wrote, d.wrote);
      ServedAtOnce(v, Dsp, mail, s);
      WrittenAudio(v, Dsp, sending.wrote + d.wrote);
    }
  }

  // ----- DSP, with two pipes -----

  /** Visit `v` is what a turn of DSP does that ends like `d`. */
  predicate DspConforms(v: Visit, mail: Mail, d: Programs.DspServed) {
    d.turn != Programs.Undefined ==>
      && v.sent == Bytes(Flatten(d.gui.wrote), "", Flatten(d.reverse.wrote))
      && v.mail == Mail(d.gui.rest, mail.dsp, d.reverse.rest)
      && SameEnd(d.turn, v.pc)
  }

  /** DSP gives the audio to Reverse. */
  lemma GivesFollow(x: Process, mail: Mail)
    requires mail.Readable()
    ensures var s := Programs.Gives(mail.rev, x.audio);
      s.turn != Programs.Undefined ==>
        var m := mail.With(Rev, s.line.rest);
        Follow(Enter(x, Say(TellRun)), mail) ==
          Written(if s.turn == Programs.Hang
                  then Visit(if mail.rev == [] then Hear(ForRunReady) else AwaitConfirm(Forward), x.audio, m, NOTHING)
                  else Follow(Enter(x, Hear(ForDone)), m),
                  Rev, s.line.wrote)
  {
    hide Enter, Written;
    FollowSay(x, mail, TellRun);
    FollowHear(x, mail, Hear(ForRunReady));
    if mail.rev != [] {
      var (text, rest) := Programs.NextRead(mail.rev);
      var m := mail.With(Rev, rest);
      if text == "ready" && x.audio.NonEmpty() {
        var s := Programs.Answered(rest, x.audio);
        FollowSend(x, m, Forward);
        WrittenTwice(if s.verdict.Blocked? then Visit(AwaitConfirm(Forward), x.audio, m, NOTHING)
                     else Follow(Enter(x, Hear(ForDone)), m.With(Rev, s.rest)), Rev, ["run"], s.wrote);
      }
    }
  }

  /** DSP takes the audio back. */
  lemma TakesFollow(x: Process, mail: Mail)
    requires mail.Readable()
    ensures var d := Programs.TakesBack(mail.rev);
      var m := mail.With(Rev, d.rest);
      Follow(Enter(x, Hear(ForDone)), mail) ==
        Written(if d.audio.Some? then Follow(Enter(x.(audio := d.audio.value, box := d.audio.value), Part), m)
                else Visit(if mail.rev == [] then Hear(ForDone) else Record(Return, if |d.wrote| == 1 then Left else Right),
                           x.audio, m, NOTHING),
                Rev, d.wrote)
  {
    hide Enter, Written;
    FollowHear(x, mail, Hear(ForDone));
    if mail.rev == [] {
      NothingWritten(Visit(Hear(ForDone), x.audio, mail, NOTHING), Rev);
    } else {
      var m := mail.With(Rev, Programs.NextRead(mail.rev).1);
      ReadyFollows(x, m);
      assert m.With(Rev, Programs.Received(m.rev).rest) == mail.With(Rev, Programs.Received(m.rev).rest);
    }
  }

  lemma ReadyFollows(x: Process, m: Mail)
    requires m.Readable()
    ensures var d := Programs.Received(m.rev);
      var m2 := m.With(Rev, d.rest);
      Follow(Enter(x, Say(TellReady)), m) ==
        Written(if d.audio.Some? then Follow(Enter(x.(audio := d.audio.value, box := d.audio.value), Part), m2)
                else Visit(Record(Return, if d.wrote == [] then Left else Right), x.audio, m2, NOTHING),
                Rev, ["ready"] + d.wrote)
  {
    hide Enter, Written;
    var d := Programs.Received(m.rev);
    var m2 := m.With(Rev, d.rest);
    FollowSay(x, m, TellReady);
    FollowReceive(x, m, Return);
    WrittenTwice(if d.audio.Some? then Follow(Enter(x.(audio := d.audio.value, box := d.audio.value), Part), m2)
                 else Visit(Record(Return, if d.wrote == [] then Left else Right), x.audio, m2, NOTHING),
                 Rev, ["ready"], d.wrote);
  }

  lemma FollowPart(x: Process, mail: Mail)
    requires mail.Readable()
    ensures Follow(Enter(x, Part), mail) == Follow(Enter(x, Play(Download, Left)), mail)
  {
    SameEntry(Enter(x, Part), x, Play(Download, Left));
  }

  lemma FollowDial(x: Process, mail: Mail, errand: Message)
    requires mail.Readable()
    ensures Follow(Enter(x, Dial(errand)), mail) == Follow(Enter(x, Say(errand)), mail)
  {
    SameEntry(Enter(x, Dial(errand)), x, Say(errand));
  }

  /** The whole conversation with Reverse; `pc` is where it gets stuck if it does. */
  lemma ConverseFollows(x: Process, mail: Mail) returns (pc: Pc)
    requires mail.Readable()
    ensures SameEnd(Programs.Hang, pc)
    ensures var (s, audio) := Programs.Converses(mail.rev, x.audio);
      var m := mail.With(Rev, s.line.rest);
      s.turn != Programs.Undefined ==>
        Follow(Enter(x, Dial(TellRun)), mail) ==
          Written(if audio.Some? then Follow(Enter(x.(audio := audio.value, box := audio.value), Part), m)
                  else Visit(pc, x.audio, m, NOTHING),
                  Rev, s.line.wrote)
  {
    hide Enter, Written;
    var first := Programs.Gives(mail.rev, x.audio);
    var m := mail.With(Rev, first.line.rest);
    FollowDial(x, mail, TellRun);
    GivesFollow(x, mail);
    pc := if mail.rev == [] then Hear(ForRunReady) else AwaitConfirm(Forward);
    if first.turn == Programs.Again {
      var back := Programs.TakesBack(m.rev);
      var m2 := m.With(Rev, back.rest);
      TakesFollow(x, m);
      pc := if m.rev == [] then Hear(ForDone) else Record(Return, if |back.wrote| == 1 then Left else Right);
      WrittenTwice(if back.audio.Some? then Follow(Enter(x.(audio := back.audio.value, box := back.audio.value), Part), m2)
                   else Visit(pc, x.audio, m2, NOTHING), Rev, first.line.wrote, back.wrote);
    }
  }

  lemma DownloadFollows(x: Process, mail: Mail)
    requires mail.Readable() && x.audio.NonEmpty()
    ensures var s := Programs.Answered(mail.gui, x.audio);
      Follow(Enter(x, Part), mail) ==
        Written(Visit(if s.verdict.Blocked? then AwaitConfirm(Download) else Hear(ForCommand), x.audio,
                      mail.With(Gui, s.rest), NOTHING), Gui, s.wrote)
  {
    hide Enter, Written;
    FollowPart(x, mail);
    FollowSend(x, mail, Download);
    FollowEnds(x, mail.With(Gui, Programs.Answered(mail.gui, x.audio).rest));
  }

  /** Writes to both peers: first and last to the GUI, in between to Reverse. */
  lemma ThreeWrites(v: Visit, first: seq<string>, middle: seq<string>, last: seq<string>)
    requires v.sent == NOTHING
    ensures Written(Written(Written(v, Gui, last), Rev, middle), Gui, first)
         == v.(sent := Bytes(Flatten(first + last), "", Flatten(middle)))
  {
    FlattenConcat(first, last);
    assert Flatten(first) + (Flatten(last) + "") == Flatten(first) + Flatten(last);
    assert Flatten(middle) + "" == Flatten(middle);
  }

  lemma TwoWrites(v: Visit, first: seq<string>, middle: seq<string>)
    requires v.sent == NOTHING
    ensures Written(Written(v, Rev, middle), Gui, first) == v.(sent := Bytes(Flatten(first), "", Flatten(middle)))
  {
    assert Flatten(first) + "" == Flatten(first) && Flatten(middle) + "" == Flatten(middle);
  }

  /** The `reverse` branch, once the audio of the GUI is there. */
  lemma ServeConforms(x: Process, mail: Mail, first: seq<string>, d: Programs.DspServed)
    requires mail.Readable()
    requires d == Programs.AudioServed(first, mail.gui, mail.rev, x.audio)
    ensures DspConforms(Written(Follow(Enter(x, Dial(TellRun)), mail), Gui, first), mail, d)
  {
    hide Enter, Written;
    var (s, audio) := Programs.Converses(mail.rev, x.audio);
    var m := mail.With(Rev, s.line.rest);
    var pc := ConverseFollows(x, mail);
    if d.turn != Programs.Undefined {
      if audio.None? {
        TwoWrites(Visit(pc, x.audio, m, NOTHING), first, s.line.wrote);
      } else {
        var y := x.(audio := audio.value, box := audio.value);
        var sending := Programs.Answered(m.gui, y.audio);
        DownloadFollows(y, m);
        ThreeWrites(Visit(if sending.verdict.Blocked? then AwaitConfirm(Download) else Hear(ForCommand), y.audio,
                          m.With(Gui, sending.rest), NOTHING), first, s.line.wrote, sending.wrote);
      }
    }
  }

  lemma DspConformsLater(v: Visit, mail: Mail, m: Mail, d: Programs.DspServed)
    requires DspConforms(v, m, d) && m.dsp == mail.dsp
    ensures DspConforms(v, mail, d)
  {
  }

  lemma DspReversesConforms(x: Process, mail: Mail, rc: bool)
    requires mail.Readable()
    ensures DspConforms(Follow(Enter(x, Say(AnswerReady)), mail), mail, Programs.DspReverses(mail.gui, mail.rev, rc))
  {
    hide Enter, Written, DspConforms;
    var d := Programs.Received(mail.gui);
    var m := mail.With(Gui, d.rest);
    var first := ["ready"] + d.wrote;
    FollowSay(x, mail, AnswerReady);
    FollowReceive(x, mail, Upload);
    if d.audio.Some? {
      var y := x.(audio := d.audio.value, box := d.audio.value);
      WrittenTwice(Follow(Enter(y, Dial(TellRun)), m), Gui, ["ready"], d.wrote);
      var served := Programs.AudioServed(first, m.gui, m.rev, y.audio);
      ServeConforms(y, m, first, served);
      DspConformsLater(Written(Follow(Enter(y, Dial(TellRun)), m), Gui, first), mail, m, served);
    } else {
      var v := Visit(Record(Upload, if d.wrote == [] then Left else Right), x.audio, m, NOTHING);
      WrittenTwice(v, Gui, ["ready"], d.wrote);
      UploadHangs(v, mail, m, first, Programs.DspReverses(mail.gui, mail.rev, rc));
    }
  }

  lemma UploadHangs(v: Visit, mail: Mail, m: Mail, first: seq<string>, d: Programs.DspServed)
    requires v.sent == NOTHING && v.mail == m == mail.With(Gui, m.gui) && SameEnd(Programs.Hang, v.pc)
    requires d.turn == Programs.Hang && d.gui.wrote == first && d.gui.rest == m.gui
    requires d.reverse.wrote == [] && d.reverse.rest == mail.rev
    ensures DspConforms(Written(v, Gui, first), mail, d)
  {
    assert Flatten(first) + "" == Flatten(first);
  }

  /** The turn of DSP after its first message, for whatever its reads find. */
  lemma DspTurnConforms(x: Process, mail: Mail, rc: bool)
    requires mail.Readable() && mail.gui != []
    ensures var (text, rest) := Programs.NextRead(mail.gui);
      DspConforms(Follow(Enter(x, AfterHearing(Hear(ForCommand), text)), mail.With(Gui, rest)), mail,
                  Programs.DspServes(mail.gui, mail.rev, rc))
  {
    hide Enter, DspConforms;
    var (text, rest) := Programs.NextRead(mail.gui);
    var m := mail.With(Gui, rest);
    var d := Programs.DspServes(mail.gui, mail.rev, rc);
    if text == "reverse" {
      DspReversesConforms(x, m, rc);
      DspConformsLater(Follow(Enter(x, Say(AnswerReady)), m), mail, m, d);
    } else if AfterHearing(Hear(ForCommand), text) == Dial(TellExit) {
      ExitConforms(x, m);
      AtOnce(Visit(Exit(Dsp), x.audio, m, Bytes("", "", "exit")), mail, d);
    } else {
      FollowEnds(x, m);
      AtOnce(Visit(Hear(ForCommand), x.audio, m, NOTHING), mail, d);
    }
  }

  lemma AtOnce(v: Visit, mail: Mail, d: Programs.DspServed)
    requires SameEnd(d.turn, v.pc) && d.gui.wrote == []
    requires v.mail == mail.With(Gui, d.gui.rest) && d.reverse.rest == mail.rev
    requires (d.reverse.wrote == [] && v.sent == NOTHING)
          || (d.reverse.wrote == ["exit"] && v.sent == Bytes("", "", "exit"))
    ensures DspConforms(v, mail, d)
  {
    FlattenOne("exit");
  }

  lemma ExitConforms(x: Process, mail: Mail)
    requires mail.Readable()
    ensures Follow(Enter(x, Dial(TellExit)), mail) == Visit(Exit(Dsp), x.audio, mail, Bytes("", "", "exit"))
  {
    hide Enter;
    FollowDial(x, mail, TellExit);
    FollowSay(x, mail, TellExit);
    FollowEnds(x, mail);
    FlattenOne("exit");
  }
}
