/** The three main programs as sequential code over their pipes. */
module Programs {
  import opened Wire
  import opened Framing
  import opened Audio
  import opened Pipes

  // ----- reverse.cpp -----

  /** `std::reverse` on one channel: swaps from both ends inwards. */
  method ReverseChannel(channel: array<Sample>)
    modifies channel
    ensures forall k :: 0 <= k < channel.Length ==> channel[k] == old(channel[channel.Length - 1 - k])
    ensures channel[..] == Reversed(old(channel[..]))
  {
    var first, last := 0, channel.Length;
    while first < last
      invariant 0 <= first <= last + 1 && last <= channel.Length && first + last == channel.Length
      invariant forall k :: 0 <= k < first || last <= k < channel.Length ==> channel[k] == old(channel[channel.Length - 1 - k])
      invariant forall k :: first <= k < last ==> channel[k] == old(channel[k])
      decreases last - first
    {
      last := last - 1;
      if first == last {
        break;
      }
      channel[first], channel[last] := channel[last], channel[first];
      first := first + 1;
    }
  }

  predicate Separate(buffer: seq<array<Sample>>) {
    forall i, j :: 0 <= i < j < |buffer| ==> buffer[i] != buffer[j]
  }

  /** Reverses every channel of a buffer in place. */
  method Reverse(buffer: seq<array<Sample>>)
    requires Separate(buffer)
    modifies buffer
    ensures forall c, k :: 0 <= c < |buffer| && 0 <= k < buffer[c].Length ==>
      buffer[c][k] == old(buffer[c][buffer[c].Length - 1 - k])
    ensures forall c :: 0 <= c < |buffer| ==> buffer[c][..] == Reversed(old(buffer[c][..]))
  {
    for channel := 0 to |buffer|
      invariant forall c :: 0 <= c < channel ==> buffer[c][..] == Reversed(old(buffer[c][..]))
      invariant forall c :: channel <= c < |buffer| ==> buffer[c][..] == old(buffer[c][..])
    {
      ReverseChannel(buffer[channel]);
    }
  }

  /** Reverse working on the audio a pipe delivered. */
  method ReverseBuffer(audio: Audio) returns (turned: Audio)
    ensures turned == ReversedAudio(audio)
  {
    var left := new Sample[|audio.left|](i requires 0 <= i < |audio.left| => audio.left[i]);
    var right := new Sample[|audio.right|](i requires 0 <= i < |audio.right| => audio.right[i]);
    assert left[..] == audio.left && right[..] == audio.right;
    var buffer := [left, right];
    assert buffer[0] == left && buffer[1] == right;
    Reverse(buffer);
    turned := Audio(buffer[0][..], buffer[1][..]);
  }

  /** How one turn of a main loop ends: it goes round, it returns, it waits for ever, or
  it reads element 0 of an empty channel, for which the language promises nothing. */
  datatype Turn = Again | Stop | Hang | Undefined

  function AudioWrites(a: Audio): seq<string> {
    ChunkWrites(a.left) + ChunkWrites(a.right)
  }

  // ----- audio over a pipe, as a function of what the reads find -----

  /** What recv_audio returns, the reads left over, and what it has written. */
  datatype Delivery = Delivery(audio: Option<Audio>, rest: seq<string>, wrote: seq<string>)

  function Received(incoming: seq<string>): (d: Delivery)
    requires NoEmptyRead(incoming)
    ensures NoEmptyRead(d.rest)
  {
    var left := Receive(incoming);
    var right := Receive(left.rest);
    if !left.ended then Delivery(None, left.rest, [])
    else if !right.ended then Delivery(None, right.rest, ["CONFIRMED"])
    else Delivery(Some(Audio(left.got, right.got)), right.rest, ["CONFIRMED"])
  }

  /** How send_audio ends, the reads left over, and what it has written. */
  datatype Sending = Sending(verdict: Verdict, rest: seq<string>, wrote: seq<string>)

  function Answered(incoming: seq<string>, samples: Audio): (s: Sending)
    requires NoEmptyRead(incoming)
    ensures NoEmptyRead(s.rest)
  {
    if incoming == [] then Sending(Blocked, [], ChunkWrites(samples.left))
    else
      var (text, rest) := NextRead(incoming);
      if text == "CONFIRMED" then Sending(Delivered, rest, AudioWrites(samples))
      else Sending(Refused, rest, ChunkWrites(samples.left))
  }

  /** What a recv_message returns, and the reads after it. */
  function NextRead(incoming: seq<string>): (r: (string, seq<string>))
    requires incoming != [] && NoEmptyRead(incoming)
    ensures NoEmptyRead(r.1)
  {
    ReadSome(incoming, CHUNK_SIZE)
  }

  method RecvAudio(pipe: Pipe) returns (audio: Option<Audio>)
    requires NoEmptyRead(pipe.incoming)
    modifies pipe
    ensures pipe.connected == old(pipe.connected)
    ensures var d := Received(old(pipe.incoming));
      audio == d.audio && pipe.incoming == d.rest && pipe.outgoing == old(pipe.outgoing) + d.wrote
  {
    audio := pipe.RecvAudio();
  }

  method SendAudio(pipe: Pipe, samples: Audio) returns (verdict: Verdict)
    requires NoEmptyRead(pipe.incoming) && samples.NonEmpty()
    modifies pipe
    ensures pipe.connected == old(pipe.connected)
    ensures var s := Answered(old(pipe.incoming), samples);
      verdict == s.verdict && pipe.incoming == s.rest && pipe.outgoing == old(pipe.outgoing) + s.wrote
  {
    ghost var o := pipe.outgoing;
    verdict := pipe.SendAudio(samples);
    Join(o, ChunkWrites(samples.left), ChunkWrites(samples.right));
  }

  lemma Join(x: seq<string>, y: seq<string>, z: seq<string>)
    ensures (x + y) + z == x + (y + z) && x + [] == x
  {
  }

  /** Framed audio that comes chunk by chunk is received, with nothing that follows. */
  lemma ReceivedFramed(a: Audio, tail: seq<string>)
    requires a.IsFramed() && NoEmptyRead(tail)
    ensures NoEmptyRead(AudioWrites(a) + tail)
    ensures Received(AudioWrites(a) + tail) == Delivery(Some(a), tail, ["CONFIRMED"])
  {
    AudioRoundTrip(a, tail);
    Join(ChunkWrites(a.left), ChunkWrites(a.right), tail);
  }

  lemma NextText(text: string, tail: seq<string>)
    requires 0 < |text| <= CHUNK_SIZE && NoEmptyRead(tail)
    ensures NoEmptyRead([text] + tail) && NextRead([text] + tail) == (text, tail)
  {
    assert ([text] + tail)[1..] == tail;
  }

  // ----- the service -----

  /** What a program does with one pipe: what it writes, the reads left over, and whether
  the pipe is still connected. */
  datatype Line = Line(wrote: seq<string>, rest: seq<string>, connected: bool)

  /** One turn of a program with one pipe, and how it ends. */
  datatype Served = Served(turn: Turn, line: Line)

  function Prefixed(wrote: seq<string>, s: Served): Served {
    s.(line := s.line.(wrote := wrote + s.line.wrote))
  }

  ghost predicate Becomes(pipe: Pipe, before: seq<string>, l: Line)
    reads pipe
  {
    pipe.outgoing == before + l.wrote && pipe.incoming == l.rest && pipe.connected == l.connected
  }

  ghost predicate Does(pipe: Pipe, before: seq<string>, turn: Turn, s: Served)
    reads pipe
  {
    turn == s.turn && Becomes(pipe, before, s.line)
  }

  /** The turn of reverse.cpp, for whatever its reads find. */
  function ReverseServes(incoming: seq<string>): (s: Served)
    requires NoEmptyRead(incoming)
    ensures NoEmptyRead(s.line.rest)
  {
    if incoming == [] then Served(Hang, Line([], [], true))
    else
      var (text, rest) := NextRead(incoming);
      if text == "run" then RunServes(rest)
      else if text == "exit" then Served(Stop, Line([], rest, false))
      else Served(Again, Line([], rest, true))
  }

  function RunServes(incoming: seq<string>): (s: Served)
    requires NoEmptyRead(incoming)
    ensures NoEmptyRead(s.line.rest)
  {
    var d := Received(incoming);
    if d.audio.None? then Served(Hang, Line(["ready"] + d.wrote, d.rest, true))
    else Prefixed(["ready"] + d.wrote, ReturnServes(d.rest, ReversedAudio(d.audio.value)))
  }

  function ReturnServes(incoming: seq<string>, reversed: Audio): (s: Served)
    requires NoEmptyRead(incoming)
    ensures NoEmptyRead(s.line.rest)
  {
    if incoming == [] then Served(Hang, Line(["done"], [], true))
    else
      var (text, rest) := NextRead(incoming);
      if text != "ready" then Served(Again, Line(["done"], rest, false))
      else if !reversed.NonEmpty() then Served(Undefined, Line(["done"], rest, true))
      else
        var sending := Answered(rest, reversed);
        var blocked := sending.verdict.Blocked?;
        Served(if blocked then Hang else Again, Line(["done"] + sending.wrote, sending.rest, blocked))
  }

  /** The second half of the `run` branch: "done", then the reversed audio. */
  method ReturnReversed(pipe: Pipe, reversed: Audio) returns (turn: Turn)
    requires NoEmptyRead(pipe.incoming) && pipe.connected
    modifies pipe
    ensures Does(pipe, old(pipe.outgoing), turn, ReturnServes(old(pipe.incoming), reversed))
  {
    ghost var o := pipe.outgoing;
    var _ := pipe.SendMessage("done");
    var receiver := pipe.RecvMessage();
    if receiver.None? {
      return Hang;
    }
    if receiver.value == "ready" {
      if !reversed.NonEmpty() {
        return Undefined;
      }
      Join(o, ["done"], Answered(pipe.incoming, reversed).wrote);
      var verdict := SendAudio(pipe, reversed);
      if verdict == Blocked {
        return Hang;
      }
    }
    pipe.Disconnect();
    return Again;
  }

  /** The `run` branch of reverse.cpp. */
  method ServeRun(pipe: Pipe) returns (turn: Turn)
    requires NoEmptyRead(pipe.incoming) && pipe.connected
    modifies pipe
    ensures Does(pipe, old(pipe.outgoing), turn, RunServes(old(pipe.incoming)))
  {
    ghost var o := pipe.outgoing;
    ghost var d := Received(pipe.incoming);
    Join(o, ["ready"], d.wrote);
    var _ := pipe.SendMessage("ready");
    var audio := RecvAudio(pipe);
    if audio.None? {
      return Hang;
    }
    var reversed := ReverseBuffer(audio.value);
    Join(o, ["ready"] + d.wrote, ReturnServes(d.rest, reversed).line.wrote);
    turn := ReturnReversed(pipe, reversed);
  }

  /** The first message that the reads bring. */
  predicate Brings(incoming: seq<string>, text: string)
    requires NoEmptyRead(incoming)
  {
    incoming != [] && NextRead(incoming).0 == text
  }

  /** One turn of the accept loop of reverse.cpp, on the pipe it has just made.  After "exit"
  it disconnects and returns without a word. */
  method ReverseTurn(pipe: Pipe) returns (turn: Turn)
    requires NoEmptyRead(pipe.incoming)
    modifies pipe
    ensures Brings(old(pipe.incoming), "exit") ==>
      turn == Stop && !pipe.connected && pipe.outgoing == old(pipe.outgoing)
    ensures Does(pipe, old(pipe.outgoing), turn, ReverseServes(old(pipe.incoming)))
  {
    pipe.Connect();
    var receiver := pipe.RecvMessage();
    if receiver.None? {
      return Hang;
    }
    if receiver.value == "run" {
      turn := ServeRun(pipe);
    } else if receiver.value == "exit" {
      pipe.Disconnect();
      turn := Stop;
    } else {
      turn := Again;
    }
  }

  // ----- dsp.cpp -----

  /** What DSP does in one turn: how the turn ends, and what becomes of its two pipes. */
  datatype DspServed = DspServed(turn: Turn, gui: Line, reverse: Line)

  /** DSP hands the audio to Reverse: the first half of the conversation. */
  function Gives(incoming: seq<string>, audio: Audio): (s: Served)
    requires NoEmptyRead(incoming)
    ensures NoEmptyRead(s.line.rest)
  {
    if incoming == [] then Served(Hang, Line(["run"], [], true))
    else
      var (text, rest) := NextRead(incoming);
      if text != "ready" then Served(Again, Line(["run"], rest, true))
      else if !audio.NonEmpty() then Served(Undefined, Line(["run"], rest, true))
      else
        var sending := Answered(rest, audio);
        Served(if sending.verdict.Blocked? then Hang else Again, Line(["run"] + sending.wrote, sending.rest, true))
  }

  /** DSP takes the reversed audio back, whatever the message before it says. */
  function TakesBack(incoming: seq<string>): (d: Delivery)
    requires NoEmptyRead(incoming)
    ensures NoEmptyRead(d.rest)
  {
    if incoming == [] then Delivery(None, [], [])
    else
      var d := Received(NextRead(incoming).1);
      d.(wrote := ["ready"] + d.wrote)
  }

  /** The whole conversation of DSP with Reverse, and the audio it ends with. */
  function Converses(incoming: seq<string>, audio: Audio): (r: (Served, Option<Audio>))
    requires NoEmptyRead(incoming)
    ensures r.0.turn == Again <==> r.1.Some?
  {
    var first := Gives(incoming, audio);
    if first.turn != Again then (first, None)
    else
      var back := TakesBack(first.line.rest);
      var none := back.audio.None?;
      (Served(if none then Hang else Again, Line(first.line.wrote + back.wrote, back.rest, none)), back.audio)
  }

  /** The `reverse` branch once the audio is there: `wrote` has been written to the GUI. */
  function AudioServed(wrote: seq<string>, gi: seq<string>, ri: seq<string>, samples: Audio): DspServed
    requires NoEmptyRead(gi) && NoEmptyRead(ri)
  {
    var gui := Line(wrote, gi, true);
    var (s, audio) := Converses(ri, samples);
    if audio.None? then DspServed(s.turn, gui, s.line)
    else if !audio.value.NonEmpty() then DspServed(Undefined, gui, s.line)
    else
      var sending := Answered(gi, audio.value);
      DspServed(if sending.verdict.Blocked? then Hang else Again,
                Line(wrote + sending.wrote, sending.rest, true), s.line)
  }

  /** The `reverse` branch, for whatever the reads of both pipes find. */
  function DspReverses(gi: seq<string>, ri: seq<string>, rc: bool): DspServed
    requires NoEmptyRead(gi) && NoEmptyRead(ri)
  {
    var d := Received(gi);
    if d.audio.None? then DspServed(Hang, Line(["ready"] + d.wrote, d.rest, true), Line([], ri, rc))
    else AudioServed(["ready"] + d.wrote, d.rest, ri, d.audio.value)
  }

  /** The turn of dsp.cpp; `rc` tells whether its pipe to Reverse was connected. */
  function DspServes(gi: seq<string>, ri: seq<string>, rc: bool): DspServed
    requires NoEmptyRead(gi) && NoEmptyRead(ri)
  {
    if gi == [] then DspServed(Hang, Line([], [], true), Line([], ri, rc))
    else
      var (text, rest) := NextRead(gi);
      if text == "reverse" then DspReverses(rest, ri, rc)
      else if text != "shift" && text != "stretch" && |text| >= 4 && text[..4] == "exit"
      then DspServed(Stop, Line([], rest, false), Line(["exit"], ri, true))
      else DspServed(Again, Line([], rest, true), Line([], ri, rc))
  }

  method GiveToReverse(reverse: Pipe, audio: Audio) returns (turn: Turn)
    requires NoEmptyRead(reverse.incoming)
    modifies reverse
    ensures Does(reverse, old(reverse.outgoing), turn, Gives(old(reverse.incoming), audio))
  {
    ghost var o := reverse.outgoing;
    reverse.Connect();
    var _ := reverse.SendMessage("run");
    var receiver := reverse.RecvMessage();
    if receiver.None? {
      return Hang;
    }
    if receiver.value == "ready" {
      if !audio.NonEmpty() {
        return Undefined;
      }
      Join(o, ["run"], Answered(reverse.incoming, audio).wrote);
      var verdict := SendAudio(reverse, audio);
      if verdict == Blocked {
        return Hang;
      }
    }
    return Again;
  }

  method TakeFromReverse(reverse: Pipe) returns (audio: Option<Audio>)
    requires NoEmptyRead(reverse.incoming) && reverse.connected
    modifies reverse
    ensures var d := TakesBack(old(reverse.incoming));
      && audio == d.audio && reverse.incoming == d.rest && reverse.outgoing == old(reverse.outgoing) + d.wrote
      && reverse.connected == audio.None?
  {
    ghost var o := reverse.outgoing;
    var receiver := reverse.RecvMessage();
    if receiver.None? {
      Join(o, [], []);
      return None;
    }
    Join(o, ["ready"], Received(reverse.incoming).wrote);
    var _ := reverse.SendMessage("ready");
    audio := RecvAudio(reverse);
    if audio.Some? {
      reverse.Disconnect();
    }
  }

  method Converse(reverse: Pipe, audio: Audio) returns (turn: Turn, reversed: Option<Audio>)
    requires NoEmptyRead(reverse.incoming)
    modifies reverse
    ensures Does(reverse, old(reverse.outgoing), turn, Converses(old(reverse.incoming), audio).0)
    ensures reversed == Converses(old(reverse.incoming), audio).1
  {
    ghost var o := reverse.outgoing;
    ghost var first := Gives(reverse.incoming, audio);
    turn := GiveToReverse(reverse, audio);
    reversed := None;
    if turn == Again {
      Join(o, first.line.wrote, TakesBack(first.line.rest).wrote);
      reversed := TakeFromReverse(reverse);
      if reversed.None? {
        turn := Hang;
      }
    }
  }

  /** The `reverse` branch of dsp.cpp. */
  method ServeReverse(gui: Pipe, reverse: Pipe) returns (turn: Turn)
    requires gui != reverse && NoEmptyRead(gui.incoming) && NoEmptyRead(reverse.incoming) && gui.connected
    modifies gui, reverse
    ensures var d := DspReverses(old(gui.incoming), old(reverse.incoming), old(reverse.connected));
      turn == d.turn && Becomes(gui, old(gui.outgoing), d.gui) && Becomes(reverse, old(reverse.outgoing), d.reverse)
  {
    ghost var o, d := gui.outgoing, Received(gui.incoming);
    Join(o, ["ready"], d.wrote);
    Join(reverse.outgoing, [], []);
    var _ := gui.SendMessage("ready");
    var audio := RecvAudio(gui);
    if audio.None? {
      return Hang;
    }
    var reversed;
    turn, reversed := Converse(reverse, audio.value);
    if reversed.None? {
      return;
    }
    if !reversed.value.NonEmpty() {
      return Undefined;
    }
    Join(o, ["ready"] + d.wrote, Answered(d.rest, reversed.value).wrote);
    var verdict := SendAudio(gui, reversed.value);
    turn := if verdict == Blocked then Hang else Again;
  }

  /** One turn of the command loop of dsp.cpp.  "exit" is passed on to Reverse, the pipe to
  the GUI is disconnected, and DSP returns; "shift" and "stretch" are dropped. */
  method DspTurn(gui: Pipe, reverse: Pipe) returns (turn: Turn)
    requires gui != reverse && NoEmptyRead(gui.incoming) && NoEmptyRead(reverse.incoming) && gui.connected
    modifies gui, reverse
    ensures Brings(old(gui.incoming), "exit") ==>
      && turn == Stop && !gui.connected && gui.outgoing == old(gui.outgoing)
      && reverse.connected && reverse.outgoing == old(reverse.outgoing) + ["exit"]
    ensures Brings(old(gui.incoming), "shift") || Brings(old(gui.incoming), "stretch") ==>
      && turn == Again && gui.connected && gui.outgoing == old(gui.outgoing)
      && reverse.connected == old(reverse.connected) && reverse.outgoing == old(reverse.outgoing)
    ensures var d := DspServes(old(gui.incoming), old(reverse.incoming), old(reverse.connected));
      turn == d.turn && Becomes(gui, old(gui.outgoing), d.gui) && Becomes(reverse, old(reverse.outgoing), d.reverse)
  {
    Join(gui.outgoing, [], []);
    Join(reverse.outgoing, [], []);
    var receiver := gui.RecvMessage();
    if receiver.None? {
      return Hang;
    }
    turn := Again;
    var text := receiver.value;
    if text == "shift" {
    } else if text == "stretch" {
    } else if text == "reverse" {
      turn := ServeReverse(gui, reverse);
    } else if |text| >= 4 && text[..4] == "exit" {
      reverse.Connect();
      var _ := reverse.SendMessage("exit");
      gui.Disconnect();
      turn := Stop;
    }
  }

  // ----- gui.cpp -----

  /** "Reverse Audio" with `samples` loaded, for whatever the reads find: the turn, and the
  samples afterwards. */
  function GuiReverses(incoming: seq<string>, samples: Audio): (r: (Served, Audio))
    requires NoEmptyRead(incoming)
  {
    if incoming == [] then (Served(Hang, Line(["reverse"], [], true)), samples)
    else
      var rest := NextRead(incoming).1;
      if !samples.NonEmpty() then (Served(Undefined, Line(["reverse"], rest, true)), samples)
      else
        var sending := Answered(rest, samples);
        if sending.verdict.Blocked? then (Served(Hang, Line(["reverse"] + sending.wrote, sending.rest, true)), samples)
        else
          var d := Received(sending.rest);
          (Served(if d.audio.None? then Hang else Again, Line(["reverse"] + sending.wrote + d.wrote, d.rest, true)),
           if d.audio.None? then samples else d.audio.value)
  }

  class GuiProgram {
    const pipe: Pipe
    var fileLoaded: bool
    var samples: Audio
    var exitStatus: bool

    constructor (pipe: Pipe)
      ensures this.pipe == pipe && !fileLoaded && !exitStatus
    {
      this.pipe := pipe;
      fileLoaded := false;
      samples := SILENCE;
      exitStatus := false;
    }

    /** The menu entry "Exit Program". */
    method ExitProgram()
      modifies `exitStatus, pipe
      ensures exitStatus && pipe.outgoing == old(pipe.outgoing) + ["exit"] && pipe.incoming == old(pipe.incoming)
    {
      var _ := pipe.SendMessage("exit");
      exitStatus := true;
    }

    /** The menu entry "Reverse Audio". */
    method ReverseAudioEffect() returns (turn: Turn)
      requires NoEmptyRead(pipe.incoming) && pipe.connected
      modifies `samples, pipe
      ensures !fileLoaded ==>
        turn == Again && samples == old(samples) && pipe.outgoing == old(pipe.outgoing) && pipe.incoming == old(pipe.incoming)
      ensures fileLoaded ==>
        var (s, after) := GuiReverses(old(pipe.incoming), old(samples));
        Does(pipe, old(pipe.outgoing), turn, s) && samples == after
    {
      if !fileLoaded {
        return Again;
      }
      ghost var o := pipe.outgoing;
      var _ := pipe.SendMessage("reverse");
      var receiver := pipe.RecvMessage();
      if receiver.None? {
        return Hang;
      }
      if !samples.NonEmpty() {
        return Undefined;
      }
      ghost var sending := Answered(pipe.incoming, samples);
      Join(o, ["reverse"], sending.wrote);
      var verdict := SendAudio(pipe, samples);
      if verdict == Blocked {
        return Hang;
      }
      Join(o, ["reverse"] + sending.wrote, Received(pipe.incoming).wrote);
      var audio := RecvAudio(pipe);
      if audio.None? {
        return Hang;
      }
      samples := audio.value;
      return Again;
    }
  }

  // ----- the scripts that the programs write for one another -----

  /** What a client sends that wants `a` reversed. */
  function RunScript(a: Audio): seq<string> {
    ["run"] + (AudioWrites(a) + ["ready", "CONFIRMED"])
  }

  /** What Reverse sends to a client that is to get `b`. */
  function ReplyScript(b: Audio): seq<string> {
    ["ready"] + (["CONFIRMED"] + (["done"] + AudioWrites(b)))
  }

  /** What the GUI sends that wants `a` reversed; `more` is what it sends afterwards. */
  function ReverseScript(a: Audio, more: seq<string>): seq<string> {
    ["reverse"] + (AudioWrites(a) + (["CONFIRMED"] + more))
  }

  /** What DSP sends to the GUI that is to get `b`; `more` comes afterwards. */
  function AnswerScript(b: Audio, more: seq<string>): seq<string> {
    ["ready"] + (["CONFIRMED"] + (AudioWrites(b) + more))
  }

  // For every read schedule in which the messages come one by one and the channels whole,
  // the programs answer as the scripts say; the scripts themselves come that way.

  /** The reads `all` bring an order to reverse `a`, and `more` after it; `r` lists what is
  left after the order, after the audio and after "ready". */
  predicate OrdersVia(all: seq<string>, r: seq<seq<string>>, a: Audio, more: seq<string>) {
    && |r| == 3 && all != [] && r[1] != [] && r[2] != []
    && NoEmptyRead(all) && NoEmptyRead(r[0]) && NoEmptyRead(r[1]) && NoEmptyRead(r[2])
    && NextRead(all) == ("run", r[0]) && Received(r[0]) == Delivery(Some(a), r[1], ["CONFIRMED"])
    && NextRead(r[1]) == ("ready", r[2]) && NextRead(r[2]) == ("CONFIRMED", more)
  }

  ghost predicate Orders(all: seq<string>, a: Audio, more: seq<string>) {
    NoEmptyRead(all) && exists r :: OrdersVia(all, r, a, more)
  }

  lemma RunScriptReads(a: Audio)
    requires a.IsFramed()
    ensures Orders(RunScript(a), a, [])
  {
    ReadyThenConfirmed();
    ReceivedFramed(a, ["ready", "CONFIRMED"]);
    NextText("run", AudioWrites(a) + ["ready", "CONFIRMED"]);
    var r := [AudioWrites(a) + ["ready", "CONFIRMED"], ["ready", "CONFIRMED"], ["CONFIRMED"]];
    assert OrdersVia(RunScript(a), r, a, []);
  }

  lemma ReadyThenConfirmed()
    ensures NoEmptyRead(["ready", "CONFIRMED"])
    ensures NextRead(["ready", "CONFIRMED"]) == ("ready", ["CONFIRMED"])
    ensures NextRead(["CONFIRMED"]) == ("CONFIRMED", [])
  {
    assert ["ready", "CONFIRMED"] == ["ready"] + ["CONFIRMED"];
    NextText("ready", ["CONFIRMED"]);
    assert ["CONFIRMED"] == ["CONFIRMED"] + [];
    NextText("CONFIRMED", []);
  }

  /** Asked to reverse `a`, Reverse replies with the reversal of `a`. */
  lemma ReverseFollowsOrders(all: seq<string>, a: Audio, more: seq<string>)
    requires Orders(all, a, more) && a.NonEmpty()
    ensures ReverseServes(all) == Served(Again, Line(ReplyScript(ReversedAudio(a)), more, false))
  {
    var r :| OrdersVia(all, r, a, more);
    var b := ReversedAudio(a);
    ReversedKeepsLengths(a);
    assert Answered(r[2], b) == Sending(Delivered, more, AudioWrites(b));
    Join(["ready"], ["CONFIRMED"], ["done"] + AudioWrites(b));
  }

  /** The reads `all` bring a reverse command for `a`, and `more` after it; `r` lists what is
  left after the command and after the audio. */
  predicate CommandsVia(all: seq<string>, r: seq<seq<string>>, a: Audio, more: seq<string>) {
    && |r| == 2 && all != [] && r[1] != []
    && NoEmptyRead(all) && NoEmptyRead(r[0]) && NoEmptyRead(r[1])
    && NextRead(all) == ("reverse", r[0]) && Received(r[0]) == Delivery(Some(a), r[1], ["CONFIRMED"])
    && NextRead(r[1]) == ("CONFIRMED", more)
  }

  ghost predicate Commands(all: seq<string>, a: Audio, more: seq<string>) {
    NoEmptyRead(all) && exists r :: CommandsVia(all, r, a, more)
  }

  lemma ReverseScriptReads(a: Audio, more: seq<string>)
    requires a.IsFramed() && NoEmptyRead(more)
    ensures Commands(ReverseScript(a, more), a, more)
  {
    NextText("CONFIRMED", more);
    ReceivedFramed(a, ["CONFIRMED"] + more);
    NextText("reverse", AudioWrites(a) + (["CONFIRMED"] + more));
    var r := [AudioWrites(a) + (["CONFIRMED"] + more), ["CONFIRMED"] + more];
    assert CommandsVia(ReverseScript(a, more), r, a, more);
  }

  /** The reads `all` are the reply of Reverse that brings `b`, and `more` after it; `r` lists
  what is left after each of its three messages. */
  predicate RepliesVia(all: seq<string>, r: seq<seq<string>>, b: Audio, more: seq<string>) {
    && |r| == 3 && all != [] && r[0] != [] && r[1] != []
    && NoEmptyRead(all) && NoEmptyRead(r[0]) && NoEmptyRead(r[1]) && NoEmptyRead(r[2])
    && NextRead(all) == ("ready", r[0]) && NextRead(r[0]) == ("CONFIRMED", r[1]) && NextRead(r[1]) == ("done", r[2])
    && Received(r[2]) == Delivery(Some(b), more, ["CONFIRMED"])
  }

  ghost predicate Replies(all: seq<string>, b: Audio, more: seq<string>) {
    NoEmptyRead(all) && exists r :: RepliesVia(all, r, b, more)
  }

  lemma ReplyScriptReads(b: Audio)
    requires b.IsFramed()
    ensures Replies(ReplyScript(b), b, [])
  {
    ReceivedFramed(b, []);
    assert AudioWrites(b) + [] == AudioWrites(b);
    NextText("done", AudioWrites(b));
    NextText("CONFIRMED", ["done"] + AudioWrites(b));
    NextText("ready", ["CONFIRMED"] + (["done"] + AudioWrites(b)));
    var r := [["CONFIRMED"] + (["done"] + AudioWrites(b)), ["done"] + AudioWrites(b), AudioWrites(b)];
    assert RepliesVia(ReplyScript(b), r, b, []);
  }

  /** DSP writes the order that the reply is for, and takes `b` back. */
  lemma ConversationFollowsReply(all: seq<string>, a: Audio, b: Audio, more: seq<string>)
    requires Replies(all, b, more) && a.NonEmpty()
    ensures Converses(all, a) == (Served(Again, Line(RunScript(a), more, false)), Some(b))
  {
    var r :| RepliesVia(all, r, b, more);
    assert Answered(r[0], a) == Sending(Delivered, r[1], AudioWrites(a));
    Join(["run"], AudioWrites(a), ["ready"] + ["CONFIRMED"]);
    assert ["ready"] + ["CONFIRMED"] == ["ready", "CONFIRMED"];
  }

  /** Given a reverse command for `a`, and `b` by Reverse, DSP passes `a` to Reverse and `b`
  to the GUI, and reads nothing of what the GUI sends afterwards. */
  lemma DspFollowsCommands(all: seq<string>, ri: seq<string>, a: Audio, b: Audio,
                           more: seq<string>, rmore: seq<string>, rc: bool)
    requires Commands(all, a, more) && Replies(ri, b, rmore) && a.NonEmpty() && b.NonEmpty()
    ensures DspServes(all, ri, rc)
         == DspServed(Again, Line(AnswerScript(b, []), more, true), Line(RunScript(a), rmore, false))
  {
    ConversationFollowsReply(ri, a, b, rmore);
    BranchFollows(all, ri, a, b, Line(RunScript(a), rmore, false), more, rc);
  }

  lemma BranchFollows(all: seq<string>, ri: seq<string>, a: Audio, b: Audio, l: Line, more: seq<string>, rc: bool)
    requires Commands(all, a, more) && NoEmptyRead(ri) && b.NonEmpty()
    requires Converses(ri, a) == (Served(Again, l), Some(b))
    ensures DspServes(all, ri, rc) == DspServed(Again, Line(AnswerScript(b, []), more, true), l)
  {
    var r :| CommandsVia(all, r, a, more);
    assert DspServes(all, ri, rc) == DspReverses(r[0], ri, rc);
    Join(["ready"], ["CONFIRMED"], AudioWrites(b));
    Join(AudioWrites(b), [], []);
  }

  /** The reads `all` are the answer of DSP that brings `b`, and `more` after it; `r` lists
  what is left after each of its two messages. */
  predicate AnswersVia(all: seq<string>, r: seq<seq<string>>, b: Audio, more: seq<string>) {
    && |r| == 2 && all != [] && r[0] != []
    && NoEmptyRead(all) && NoEmptyRead(r[0]) && NoEmptyRead(r[1])
    && NextRead(all).1 == r[0] && NextRead(r[0]) == ("CONFIRMED", r[1])
    && Received(r[1]) == Delivery(Some(b), more, ["CONFIRMED"])
  }

  ghost predicate Answers(all: seq<string>, b: Audio, more: seq<string>) {
    NoEmptyRead(all) && exists r :: AnswersVia(all, r, b, more)
  }

  lemma AnswerScriptReads(b: Audio, more: seq<string>)
    requires b.IsFramed() && NoEmptyRead(more)
    ensures Answers(AnswerScript(b, more), b, more)
  {
    ReceivedFramed(b, more);
    NextText("CONFIRMED", AudioWrites(b) + more);
    NextText("ready", ["CONFIRMED"] + (AudioWrites(b) + more));
    var r := [["CONFIRMED"] + (AudioWrites(b) + more), AudioWrites(b) + more];
    assert AnswersVia(AnswerScript(b, more), r, b, more);
  }

  /** Given the answer with `b`, the GUI has written the command for `a` and ends with `b`. */
  lemma GuiFollowsAnswers(all: seq<string>, a: Audio, b: Audio, more: seq<string>)
    requires Answers(all, b, more) && a.NonEmpty()
    ensures GuiReverses(all, a) == (Served(Again, Line(ReverseScript(a, []), more, true)), b)
  {
    var r :| AnswersVia(all, r, b, more);
    assert Answered(r[0], a) == Sending(Delivered, r[1], AudioWrites(a));
    Join(["reverse"], AudioWrites(a), ["CONFIRMED"]);
    Join(["CONFIRMED"], [], []);
  }

  // ----- the three together -----

  method GuiSession(all: seq<string>, a: Audio, ghost b: Audio) returns (wrote: seq<string>, result: Audio)
    requires Answers(all, b, []) && a.NonEmpty()
    ensures wrote == ReverseScript(a, []) && result == b
  {
    GuiFollowsAnswers(all, a, b, []);
    var pipe := new Pipe(all);
    var gui := new GuiProgram(pipe);
    gui.fileLoaded, gui.samples := true, a;
    pipe.Connect();
    var _ := gui.ReverseAudioEffect();
    wrote, result := pipe.outgoing, gui.samples;
    Join([], wrote, []);
  }

  method DspSession(all: seq<string>, ri: seq<string>, ghost a: Audio, ghost b: Audio)
    returns (toGui: seq<string>, toReverse: seq<string>)
    requires Commands(all, a, []) && Replies(ri, b, []) && a.NonEmpty() && b.NonEmpty()
    ensures toGui == AnswerScript(b, []) && toReverse == RunScript(a)
  {
    DspFollowsCommands(all, ri, a, b, [], [], false);
    var gui := new Pipe(all);
    var reverse := new Pipe(ri);
    gui.Connect();
    var _ := DspTurn(gui, reverse);
    toGui, toReverse := gui.outgoing, reverse.outgoing;
  }

  method ReverseSession(all: seq<string>, ghost a: Audio) returns (wrote: seq<string>)
    requires Orders(all, a, []) && a.NonEmpty()
    ensures wrote == ReplyScript(ReversedAudio(a))
  {
    ReverseFollowsOrders(all, a, []);
    var pipe := new Pipe(all);
    var _ := ReverseTurn(pipe);
    wrote := pipe.outgoing;
  }

  method ScriptedGui(a: Audio, b: Audio) returns (wrote: seq<string>, result: Audio)
    requires a.NonEmpty() && b.IsFramed()
    ensures wrote == ReverseScript(a, []) && result == b
  {
    hide Received, NextRead, AudioWrites;
    AnswerScriptReads(b, []);
    wrote, result := GuiSession(AnswerScript(b, []), a, b);
  }

  method ScriptedDsp(a: Audio, b: Audio) returns (toGui: seq<string>, toReverse: seq<string>)
    requires a.IsFramed() && b.IsFramed()
    ensures toGui == AnswerScript(b, []) && toReverse == RunScript(a)
  {
    hide Received, NextRead, AudioWrites;
    ReverseScriptReads(a, []);
    ReplyScriptReads(b);
    toGui, toReverse := DspSession(ReverseScript(a, []), ReplyScript(b), a, b);
  }

  method ScriptedReverse(a: Audio) returns (wrote: seq<string>)
    requires a.IsFramed()
    ensures wrote == ReplyScript(ReversedAudio(a))
  {
    hide Received, NextRead, AudioWrites;
    RunScriptReads(a);
    wrote := ReverseSession(RunScript(a), a);
  }

  /** Each program, fed with the other side's script, writes the script that the other
  side was fed with; and the GUI ends up with its audio reversed. */
  method Session(a: Audio) returns (result: Audio, agree: bool)
    requires a.IsFramed()
    ensures result == ReversedAudio(a) && agree
  {
    var b := ReversedAudio(a);
    ReversedKeepsLengths(a);
    var guiToDsp, samples := ScriptedGui(a, b);
    var dspToGui, dspToReverse := ScriptedDsp(a, b);
    var reverseToDsp := ScriptedReverse(a);
    result := samples;
    agree := guiToDsp == ReverseScript(a, []) && dspToGui == AnswerScript(b, [])
          && dspToReverse == RunScript(a) && reverseToDsp == ReplyScript(b);
  }

  /** The exit: what the GUI writes is fed to DSP, and what DSP writes to Reverse is fed to
  Reverse.  All three return, neither service writes a word back, and both pipes that were
  accepted are disconnected. */
  method ExitSession() returns (guiEnds: bool, dsp: Turn, reverse: Turn, silent: bool, closed: bool)
    ensures guiEnds && dsp == Stop && reverse == Stop && silent && closed
  {
    var guiPipe := new Pipe([]);
    var gui := new GuiProgram(guiPipe);
    gui.ExitProgram();
    assert guiPipe.outgoing == ["exit"] + [];
    NextText("exit", []);
    var dspGuiPipe := new Pipe(guiPipe.outgoing);
    dspGuiPipe.Connect();
    var dspRevPipe := new Pipe([]);
    dsp := DspTurn(dspGuiPipe, dspRevPipe);
    assert dspRevPipe.outgoing == ["exit"] + [];
    var revPipe := new Pipe(dspRevPipe.outgoing);
    reverse := ReverseTurn(revPipe);
    guiEnds := gui.exitStatus;
    silent := dspGuiPipe.outgoing == [] && revPipe.outgoing == [];
    closed := !dspGuiPipe.connected && !revPipe.connected;
  }
}
