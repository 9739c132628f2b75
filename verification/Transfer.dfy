/** One `send_audio` against one `recv_audio` under every schedule of partial writes and
partial reads, including reads that split a float or a message. */
module Transfer {
  import opened Wire
  import opened Framing
  import opened Audio

  datatype SenderPc = WritingLeft | Awaiting | WritingRight | Returned(ok: bool)
  datatype ReceiverPc = ReadingLeft | Confirming | ReadingRight | Finished

  /** `leftBytes` and `rightBytes` record what the two receive loops have read. */
  datatype Link = Link(
    spc: SenderPc, out: string, forth: string,
    rpc: ReceiverPc, reply: string, back: string,
    box: Audio, leftBytes: string, rightBytes: string)

  datatype Move =
    | Send(n: nat)       // the sender hands over n bytes
    | Take(n: nat)       // a read_some of a receive loop returns n bytes
    | Reply(n: nat)      // the receiver hands over n bytes of "CONFIRMED"
    | Hear(n: nat)       // the recv_message of the sender returns n bytes

  const CONFIRMED := "CONFIRMED"

  predicate Possible(l: Link, m: Move) {
    match m
    case Send(n) => 1 <= n <= |l.out|
    case Take(n) => (l.rpc == ReadingLeft || l.rpc == ReadingRight) && 1 <= n <= CHUNK_BYTES && n <= |l.forth|
    case Reply(n) => 1 <= n <= |l.reply|
    case Hear(n) => l.spc == Awaiting && 1 <= n <= |l.back|
  }

  function Begin(a: Audio): Link {
    Link(if Stream(a.left) == "" then Awaiting else WritingLeft, Stream(a.left), "",
         ReadingLeft, "", "", SILENCE, "", "")
  }

  function Step(a: Audio, l: Link, m: Move): Link
    requires Possible(l, m)
  {
    match m
    case Send(n) =>
      var l1 := l.(forth := l.forth + l.out[..n], out := l.out[n..]);
      if n < |l.out| then l1
      else l1.(spc := if l.spc == WritingLeft then Awaiting else Returned(true))
    case Take(n) =>
      var bytes := l.forth[..n];
      var l1 := l.(forth := l.forth[n..]);
      var more := |Decode(bytes)| == CHUNK_SIZE;
      if l.rpc == ReadingLeft then
        var l2 := l1.(box := l.box.(left := l.box.left + Decode(bytes)), leftBytes := l.leftBytes + bytes);
        if more then l2 else l2.(rpc := Confirming, reply := CONFIRMED)
      else
        var l2 := l1.(box := l.box.(right := l.box.right + Decode(bytes)), rightBytes := l.rightBytes + bytes);
        if more then l2 else l2.(rpc := Finished)
    case Reply(n) =>
      var l1 := l.(back := l.back + l.reply[..n], reply := l.reply[n..]);
      if n < |l.reply| then l1 else l1.(rpc := ReadingRight)
    case Hear(n) =>
      var l1 := l.(back := l.back[n..]);
      if l.back[..n] != CONFIRMED then l1.(spc := Returned(false))
      else if Stream(a.right) == "" then l1.(spc := Returned(true))
      else l1.(spc := WritingRight, out := Stream(a.right))
  }

  predicate Schedule(a: Audio, l: Link, ms: seq<Move>)
    decreases |ms|
  {
    ms == [] || (Possible(l, ms[0]) && Schedule(a, Step(a, l, ms[0]), ms[1..]))
  }

  function Outcome(a: Audio, l: Link, ms: seq<Move>): Link
    requires Schedule(a, l, ms)
    decreases |ms|
  {
    if ms == [] then l else Outcome(a, Step(a, l, ms[0]), ms[1..])
  }

  predicate SentRight(l: Link) {
    l.spc == WritingRight || l.spc == Returned(true)
  }

  /** All the bytes of the left channel, and of the right one once it has been begun, are
  taken, on their way or still to be written, in that order. */
  predicate Conserved(a: Audio, l: Link) {
    l.leftBytes + l.rightBytes + l.forth + l.out
      == Stream(a.left) + (if SentRight(l) then Stream(a.right) else "")
  }

  predicate Inv(a: Audio, l: Link) {
    && Conserved(a, l)
    && l.leftBytes <= Stream(a.left)
    && (l.out != "" <==> l.spc == WritingLeft || l.spc == WritingRight)
    && (l.reply != "" <==> l.rpc == Confirming)
    && (l.rpc == ReadingLeft || l.rpc == Confirming ==> l.rightBytes == "")
    && (l.rpc == ReadingLeft ==>
          l.back == "" && (l.spc == WritingLeft || l.spc == Awaiting) && |l.leftBytes| % CHUNK_BYTES == 0)
    && (l.rpc == ReadingRight ==> |l.rightBytes| % CHUNK_BYTES == 0)
    && (l.rpc != ReadingLeft ==> |l.leftBytes| % CHUNK_BYTES != 0)
    && (l.rpc == Finished ==> |l.rightBytes| % CHUNK_BYTES != 0)
    && (l.rpc != ReadingLeft && (l.spc == WritingLeft || l.spc == Awaiting) ==> l.back + l.reply == CONFIRMED)
    && (SentRight(l) ==> l.rpc != Confirming)
    && l.box == Audio(Decode(l.leftBytes), Decode(l.rightBytes))
  }

  /** What a loop has after one more read. */
  lemma OneMoreRead(taken: string, bytes: string)
    requires |taken| % CHUNK_BYTES == 0 && 0 < |bytes| <= CHUNK_BYTES
    ensures Decode(taken + bytes) == Decode(taken) + Decode(bytes)
    ensures |Decode(bytes)| == CHUNK_SIZE <==> |bytes| == CHUNK_BYTES
    ensures |taken + bytes| % CHUNK_BYTES == 0 <==> |bytes| == CHUNK_BYTES
  {
    var q := |taken| / CHUNK_BYTES;
    assert |taken| == CHUNK_BYTES * q;
    DecodeAppend(taken, bytes);
  }

  /** Bytes that move from one place to the next keep the order of the stream. */
  lemma Regroup(a: string, b: string, c: string, d: string, n: nat)
    ensures n <= |d| ==> a + b + (c + d[..n]) + d[n..] == a + b + c + d
    ensures n <= |c| ==> a + (b + c[..n]) + c[n..] + d == a + b + c + d
    ensures n <= |c| && b == "" ==> (a + c[..n]) + b + c[n..] + d == a + b + c + d
  {
    if n <= |d| {
      assert d[..n] + d[n..] == d;
    }
    if n <= |c| {
      assert c[..n] + c[n..] == c;
    }
  }

  lemma SendKeepsInv(a: Audio, l: Link, m: Move)
    requires Inv(a, l) && Possible(l, m) && m.Send?
    ensures Inv(a, Step(a, l, m))
  {
    Regroup(l.leftBytes, l.rightBytes, l.forth, l.out, m.n);
  }

  lemma TakeLeftKeepsInv(a: Audio, l: Link, m: Move)
    requires Inv(a, l) && Possible(l, m) && m.Take? && l.rpc == ReadingLeft
    ensures Inv(a, Step(a, l, m))
  {
    hide Decode, Stream;
    Regroup(l.leftBytes, l.rightBytes, l.forth, l.out, m.n);
    OneMoreRead(l.leftBytes, l.forth[..m.n]);
    var t := Step(a, l, m);
    PrefixOfAll(t.leftBytes, t.rightBytes, t.forth, t.out);
    assert Stream(a.left) + "" == Stream(a.left);
  }

  lemma PrefixOfAll(a: string, b: string, c: string, d: string)
    ensures a <= a + b + c + d
  {
  }

  lemma TakeRightKeepsInv(a: Audio, l: Link, m: Move)
    requires Inv(a, l) && Possible(l, m) && m.Take? && l.rpc == ReadingRight
    ensures Inv(a, Step(a, l, m))
  {
    hide Decode, Stream;
    Regroup(l.leftBytes, l.rightBytes, l.forth, l.out, m.n);
    OneMoreRead(l.rightBytes, l.forth[..m.n]);
  }

  lemma ReplyKeepsInv(a: Audio, l: Link, m: Move)
    requires Inv(a, l) && Possible(l, m) && m.Reply?
    ensures Inv(a, Step(a, l, m))
  {
    assert (l.back + l.reply[..m.n]) + l.reply[m.n..] == l.back + l.reply;
  }

  lemma HearKeepsInv(a: Audio, l: Link, m: Move)
    requires Inv(a, l) && Possible(l, m) && m.Hear?
    ensures Inv(a, Step(a, l, m))
  {
    if l.back[..m.n] == CONFIRMED {
      assert m.n == |CONFIRMED| && l.reply == "" && l.back[m.n..] == "";
      var taken := l.leftBytes + l.rightBytes + l.forth;
      assert taken + "" == taken && Stream(a.left) + "" == Stream(a.left);
      assert taken == Stream(a.left);
    }
  }

  lemma StepKeepsInv(a: Audio, l: Link, m: Move)
    requires Inv(a, l) && Possible(l, m)
    ensures Inv(a, Step(a, l, m))
  {
    match m
    case Send(_) => SendKeepsInv(a, l, m);
    case Take(_) =>
      if l.rpc == ReadingLeft {
        TakeLeftKeepsInv(a, l, m);
      } else {
        TakeRightKeepsInv(a, l, m);
      }
    case Reply(_) => ReplyKeepsInv(a, l, m);
    case Hear(_) => HearKeepsInv(a, l, m);
  }

  lemma {:induction false} ScheduleKeepsInv(a: Audio, l: Link, ms: seq<Move>)
    requires Inv(a, l) && Schedule(a, l, ms)
    ensures Inv(a, Outcome(a, l, ms))
    decreases |ms|
  {
    if ms != [] {
      StepKeepsInv(a, l, ms[0]);
      ScheduleKeepsInv(a, Step(a, l, ms[0]), ms[1..]);
    }
  }

  /** The barrier.  Under every schedule: while the receiver is in its left loop nothing
  but left-channel bytes are taken or under way, and the right channel is begun only
  after the whole of "CONFIRMED" has been written and read. */
  lemma Barrier(a: Audio, ms: seq<Move>)
    requires Schedule(a, Begin(a), ms)
    ensures var l := Outcome(a, Begin(a), ms);
      && (l.rpc == ReadingLeft ==> l.leftBytes + l.forth + l.out == Stream(a.left))
      && (SentRight(l) ==> l.rpc == ReadingRight || l.rpc == Finished)
  {
    ScheduleKeepsInv(a, Begin(a), ms);
    var l := Outcome(a, Begin(a), ms);
    if l.rpc == ReadingLeft {
      assert l.leftBytes + l.rightBytes == l.leftBytes;
    }
  }

  /** Under every schedule the left channel received is a prefix of the one sent; once its
  loop is over it is the whole channel exactly when the loop took the last byte; and in
  that case the right channel received is a prefix of the right channel sent. */
  lemma NeverMixed(a: Audio, ms: seq<Move>)
    requires Schedule(a, Begin(a), ms) && a.NonEmpty()
    ensures var l := Outcome(a, Begin(a), ms);
      && l.box.left <= Sent(a.left)
      && (l.box.left == Sent(a.left) <==> l.leftBytes == Stream(a.left))
      && (l.leftBytes == Stream(a.left) ==> l.box.right <= Sent(a.right))
  {
    ScheduleKeepsInv(a, Begin(a), ms);
    var l := Outcome(a, Begin(a), ms);
    DecodedPart(l.leftBytes, Sent(a.left));
    if l.leftBytes == Stream(a.left) {
      RightIsPrefix(a, l);
    }
  }

  lemma DecodedPart(bytes: string, xs: seq<Sample>)
    requires bytes <= Encode(xs)
    ensures Decode(bytes) <= xs
    ensures Decode(bytes) == xs <==> bytes == Encode(xs)
  {
    assert bytes == Encode(xs)[..|bytes|];
    DecodePrefix(xs, |bytes|);
    assert Decode(bytes) == xs <==> |bytes| / 4 == |xs|;
  }

  lemma CutFront(front: string, rest: string, whole: string, tail: string)
    requires front <= whole && front + rest == whole + tail
    ensures rest == whole[|front|..] + tail
  {
    assert rest == (front + rest)[|front|..];
  }

  lemma Associate(a: string, b: string, c: string, d: string)
    ensures a + b + c + d == a + (b + c + d)
  {
  }

  /** What comes after the bytes of the left loop. */
  lemma AfterLeft(a: Audio, l: Link)
    requires Inv(a, l)
    ensures l.rightBytes + l.forth + l.out
         == Stream(a.left)[|l.leftBytes|..] + (if SentRight(l) then Stream(a.right) else "")
  {
    Associate(l.leftBytes, l.rightBytes, l.forth, l.out);
    CutFront(l.leftBytes, l.rightBytes + l.forth + l.out, Stream(a.left), if SentRight(l) then Stream(a.right) else "");
  }

  lemma RightBytesPrefix(a: Audio, l: Link)
    requires Inv(a, l) && l.leftBytes == Stream(a.left)
    ensures l.rightBytes <= Stream(a.right)
  {
    hide Stream, Decode;
    AfterLeft(a, l);
    FrontOf(l.rightBytes, l.forth, l.out, Stream(a.left), if SentRight(l) then Stream(a.right) else "");
  }

  lemma FrontOf(rb: string, forth: string, out: string, left: string, right: string)
    requires rb + forth + out == left[|left|..] + right
    ensures rb <= right
  {
    assert left[|left|..] + right == right;
    assert rb + forth + out == rb + (forth + out);
  }

  lemma RightIsPrefix(a: Audio, l: Link)
    requires Inv(a, l) && l.leftBytes == Stream(a.left)
    ensures l.box.right <= Sent(a.right)
  {
    RightBytesPrefix(a, l);
    DecodedPart(l.rightBytes, Sent(a.right));
  }

  /** A left loop that ends early leaves left-channel bytes to the right loop: the right
  loop reads the rest of the left stream before anything of the right one. */
  lemma EarlyEndMixes(a: Audio, ms: seq<Move>)
    requires Schedule(a, Begin(a), ms)
    ensures var l := Outcome(a, Begin(a), ms);
      && |l.leftBytes| <= |Stream(a.left)|
      && l.rightBytes <= Stream(a.left)[|l.leftBytes|..] + Stream(a.right)
  {
    ScheduleKeepsInv(a, Begin(a), ms);
    var l := Outcome(a, Begin(a), ms);
    AfterLeft(a, l);
    var rest := l.rightBytes + l.forth + l.out;
    assert l.rightBytes <= rest;
    assert rest <= Stream(a.left)[|l.leftBytes|..] + Stream(a.right);
  }

  /** The receiver ends up with what was sent exactly when its left loop has taken all the
  bytes of the left channel and its right loop all those of the right one. */
  lemma WholeExactly(a: Audio, ms: seq<Move>)
    requires Schedule(a, Begin(a), ms) && a.NonEmpty()
    ensures var l := Outcome(a, Begin(a), ms);
      l.box == Audio(Sent(a.left), Sent(a.right))
      <==> l.leftBytes == Stream(a.left) && l.rightBytes == Stream(a.right)
  {
    NeverMixed(a, ms);
    ScheduleKeepsInv(a, Begin(a), ms);
    var l := Outcome(a, Begin(a), ms);
    if l.leftBytes == Stream(a.left) {
      RightBytesPrefix(a, l);
      DecodedPart(l.rightBytes, Sent(a.right));
    }
  }

  // ----- what send_audio returns -----

  lemma StepVerdict(a: Audio, l: Link, m: Move)
    requires Inv(a, l) && Possible(l, m)
    ensures SentRight(Step(a, l, m)) <==> SentRight(l) || m == Hear(|CONFIRMED|)
    ensures Step(a, l, m).spc == Returned(false) <==> l.spc == Returned(false) || (m.Hear? && m.n != |CONFIRMED|)
  {
    if m.Hear? {
      assert l.back <= CONFIRMED;
      assert l.back[..m.n] == CONFIRMED <==> m.n == |CONFIRMED|;
    }
  }

  predicate Heard(ms: seq<Move>, whole: bool) {
    exists i :: 0 <= i < |ms| && ms[i].Hear? && (ms[i].n == |CONFIRMED| <==> whole)
  }

  lemma HeardFirst(m: Move, ms: seq<Move>, whole: bool)
    ensures Heard([m] + ms, whole) <==> (m.Hear? && (m.n == |CONFIRMED| <==> whole)) || Heard(ms, whole)
  {
    var all := [m] + ms;
    assert all[0] == m;
    assert forall i :: 0 <= i < |ms| ==> ms[i] == all[i + 1];
    if Heard(all, whole) {
      var i :| 0 <= i < |all| && all[i].Hear? && (all[i].n == |CONFIRMED| <==> whole);
      assert i == 0 || all[i] == ms[i - 1];
    }
  }

  lemma {:induction false} VerdictFrom(a: Audio, l: Link, ms: seq<Move>)
    requires Inv(a, l) && Schedule(a, l, ms)
    ensures SentRight(Outcome(a, l, ms)) <==> SentRight(l) || Heard(ms, true)
    ensures Outcome(a, l, ms).spc == Returned(false) <==> l.spc == Returned(false) || Heard(ms, false)
    decreases |ms|
  {
    if ms != [] {
      StepKeepsInv(a, l, ms[0]);
      StepVerdict(a, l, ms[0]);
      VerdictFrom(a, Step(a, l, ms[0]), ms[1..]);
      assert ms == [ms[0]] + ms[1..];
      HeardFirst(ms[0], ms[1..], true);
      HeardFirst(ms[0], ms[1..], false);
    }
  }

  /** Under every schedule: the sender goes on to the right channel exactly when the read
  of its recv_message returned the whole of "CONFIRMED" at once, and returns true when
  that channel is written; it returns false exactly when that read was shorter. */
  lemma Verdict(a: Audio, ms: seq<Move>)
    requires Schedule(a, Begin(a), ms)
    ensures var l := Outcome(a, Begin(a), ms);
      && (l.spc == Returned(true) <==> Heard(ms, true) && l.out == "")
      && (l.spc == Returned(false) <==> Heard(ms, false))
  {
    VerdictFrom(a, Begin(a), ms);
    ScheduleKeepsInv(a, Begin(a), ms);
  }

  // ----- when the loops end, and that the transfer completes -----

  /** Under every schedule: each of the two loops is in progress as long as it has read full
  chunks only, and a loop that is over was left by a read below 4096 bytes; the receiver
  has finished only after both. */
  lemma LoopsEndOnShortReads(a: Audio, ms: seq<Move>)
    requires Schedule(a, Begin(a), ms)
    ensures var l := Outcome(a, Begin(a), ms);
      && (l.rpc == ReadingLeft <==> |l.leftBytes| % 4096 == 0)
      && (l.rpc == ReadingRight ==> |l.rightBytes| % 4096 == 0)
      && (l.rpc == Finished ==> |l.rightBytes| % 4096 != 0)
  {
    ScheduleKeepsInv(a, Begin(a), ms);
  }

  /** A read that fills its buffer or takes the last bytes of a channel, and a recv_message
  that takes the whole answer. */
  predicate Whole(l: Link, m: Move) {
    && Possible(l, m)
    && (m.Take? ==> m.n == CHUNK_BYTES || (m.n == |l.forth| && l.out == ""))
    && (m.Hear? ==> m.n == |CONFIRMED|)
  }

  predicate WholeSchedule(a: Audio, l: Link, ms: seq<Move>)
    decreases |ms|
  {
    ms == [] || (Whole(l, ms[0]) && WholeSchedule(a, Step(a, l, ms[0]), ms[1..]))
  }

  lemma {:induction false} WholeIsSchedule(a: Audio, l: Link, ms: seq<Move>)
    requires WholeSchedule(a, l, ms)
    ensures Schedule(a, l, ms)
    decreases |ms|
  {
    if ms != [] {
      WholeIsSchedule(a, Step(a, l, ms[0]), ms[1..]);
    }
  }

  /** What has been received so far is complete as far as the loops are over. */
  predicate Complete(a: Audio, l: Link) {
    && (l.rpc != ReadingLeft ==> l.leftBytes == Stream(a.left))
    && (l.rpc == Finished ==> l.rightBytes == Stream(a.right))
    && l.spc != Returned(false)
  }

  lemma TakeKeepsComplete(a: Audio, l: Link, m: Move)
    requires a.IsFramed() && Inv(a, l) && Complete(a, l) && Whole(l, m) && m.Take?
    ensures Complete(a, Step(a, l, m))
  {
    hide Decode, Stream;
    if m.n != CHUNK_BYTES {
      assert l.forth[..m.n] == l.forth;
      if l.rpc == ReadingLeft {
        LastOfLeft(l.leftBytes, l.rightBytes, l.forth, l.out, Stream(a.left));
      } else {
        StreamsFramed(a);
        LastOfRight(l.leftBytes, l.rightBytes, l.forth, l.out, Stream(a.left), if SentRight(l) then Stream(a.right) else "");
      }
    }
  }

  lemma LastOfLeft(lb: string, rb: string, forth: string, out: string, left: string)
    requires rb == "" && out == "" && lb + rb + forth + out == left + ""
    ensures lb + forth == left
  {
    assert lb + rb + forth + out == lb + forth;
  }

  lemma LastOfRight(lb: string, rb: string, forth: string, out: string, left: string, right: string)
    requires lb == left && out == "" && lb + rb + forth + out == left + right
    ensures rb + forth == right
  {
    assert lb + rb + forth + out == left + (rb + forth);
    assert (left + right)[|left|..] == right;
    assert (left + (rb + forth))[|left|..] == rb + forth;
  }

  /** The streams of framed audio are no multiples of the buffer size. */
  lemma StreamsFramed(a: Audio)
    requires a.IsFramed()
    ensures |Stream(a.left)| % CHUNK_BYTES != 0 && |Stream(a.right)| % CHUNK_BYTES != 0
  {
    FourTimes(|a.left|);
    FourTimes(|a.right|);
  }

  lemma FourTimes(n: nat)
    ensures (4 * n) % CHUNK_BYTES == 0 ==> n % CHUNK_SIZE == 0
  {
    if (4 * n) % CHUNK_BYTES == 0 {
      var q := (4 * n) / CHUNK_BYTES;
      assert n == CHUNK_SIZE * q;
    }
  }

  lemma WholeStep(a: Audio, l: Link, m: Move)
    requires a.IsFramed() && Inv(a, l) && Complete(a, l) && Whole(l, m)
    ensures Inv(a, Step(a, l, m)) && Complete(a, Step(a, l, m))
    ensures Left(a, Step(a, l, m)) < Left(a, l)
  {
    StepKeepsInv(a, l, m);
    StepLowersLeft(a, l, m);
    if m.Take? {
      TakeKeepsComplete(a, l, m);
    } else {
      OthersKeepComplete(a, l, m);
    }
  }

  lemma OthersKeepComplete(a: Audio, l: Link, m: Move)
    requires Inv(a, l) && Complete(a, l) && Whole(l, m) && !m.Take?
    ensures Complete(a, Step(a, l, m))
  {
    hide Stream;
    StepVerdict(a, l, m);
  }

  lemma StepLowersLeft(a: Audio, l: Link, m: Move)
    requires Inv(a, l) && Whole(l, m)
    ensures Left(a, Step(a, l, m)) < Left(a, l)
  {
    hide Stream;
    if m.Hear? {
      StepVerdict(a, l, m);
    }
  }

  /** What is left to do: bytes not yet handed over count twice, bytes under way once. */
  function Left(a: Audio, l: Link): nat {
    2 * |l.out| + |l.forth| + 2 * |l.reply| + |l.back|
    + (if SentRight(l) || l.spc == Returned(false) then 0 else 2 * |Stream(a.right)|)
    + (if l.rpc == ReadingLeft then 2 * |CONFIRMED| else 0)
  }

  lemma {:induction false} WholeRun(a: Audio, l: Link, ms: seq<Move>)
    requires a.IsFramed() && Inv(a, l) && Complete(a, l) && WholeSchedule(a, l, ms)
    ensures Schedule(a, l, ms) && Inv(a, Outcome(a, l, ms)) && Complete(a, Outcome(a, l, ms))
    ensures |ms| + Left(a, Outcome(a, l, ms)) <= Left(a, l)
    decreases |ms|
  {
    if ms != [] {
      WholeStep(a, l, ms[0]);
      WholeRun(a, Step(a, l, ms[0]), ms[1..]);
    }
  }

  /** Unless the transfer is over some such move is possible. */
  lemma SomeMove(a: Audio, l: Link) returns (m: Move)
    requires a.IsFramed() && Inv(a, l) && Complete(a, l)
    requires l.rpc != Finished || l.spc != Returned(true)
    ensures Whole(l, m)
  {
    StreamsFramed(a);
    if l.out != "" {
      m := Send(|l.out|);
    } else if l.reply != "" {
      m := Reply(|l.reply|);
    } else if l.rpc == ReadingLeft {
      LastOfLeft(l.leftBytes, l.rightBytes, l.forth, l.out, Stream(a.left));
      assert l.forth != "";
      m := Take(if |l.forth| < CHUNK_BYTES then |l.forth| else CHUNK_BYTES);
    } else if l.spc == Awaiting {
      assert l.back + "" == l.back;
      m := Hear(|CONFIRMED|);
    } else {
      LastOfRight(l.leftBytes, l.rightBytes, l.forth, l.out, Stream(a.left), Stream(a.right));
      assert l.rpc == ReadingRight && l.forth != "";
      m := Take(if |l.forth| < CHUNK_BYTES then |l.forth| else CHUNK_BYTES);
    }
  }

  lemma BeginsComplete(a: Audio)
    requires a.NonEmpty()
    ensures Inv(a, Begin(a)) && Complete(a, Begin(a))
  {
  }

  /** Framed audio arrives whole, and send_audio returns true, in every schedule whose reads
  fill their buffers or take the last bytes, once no further such move is possible; and
  that comes after a number of moves linear in the audio. */
  lemma TransferCompletes(a: Audio, ms: seq<Move>)
    requires a.IsFramed() && WholeSchedule(a, Begin(a), ms)
    ensures Schedule(a, Begin(a), ms) && |ms| <= 8 * (|a.left| + |a.right|) + 18
    ensures var l := Outcome(a, Begin(a), ms);
      (forall m :: !Whole(l, m)) ==> l.rpc == Finished && l.spc == Returned(true) && l.box == a && l.forth == ""
  {
    BeginsComplete(a);
    WholeRun(a, Begin(a), ms);
    var l := Outcome(a, Begin(a), ms);
    if forall m :: !Whole(l, m) {
      if l.rpc != Finished || l.spc != Returned(true) {
        var m := SomeMove(a, l);
        assert false;
      }
      DecodeEncode(a.left);
      DecodeEncode(a.right);
      LastOfRight(l.leftBytes, l.rightBytes, l.forth, l.out, Stream(a.left), Stream(a.right));
      assert |l.rightBytes + l.forth| == |l.rightBytes|;
    }
  }
}
