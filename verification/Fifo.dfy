/** The stream buffer as a plain queue of bytes, over whole runs of calls. */
module Fifo {
  import opened Wire
  import opened StreamBuf

  datatype Call =
    | Append(bytes: string)     // prepare(n), write n bytes there, commit(n)
    | Reserve(n: nat)           // prepare(n) alone
    | Drop(n: nat)              // consume(n)
    | Put(c: Byte)              // sputc
    | Get                       // sbumpc
    | Peek                      // underflow

  /** The queue after a call, and what the call returned. */
  function Apply(max: nat, queue: string, call: Call): Result<(string, int)> {
    match call
    case Append(bytes) => if |queue| + |bytes| > max then LengthError else Ok((queue + bytes, |bytes|))
    case Reserve(n) => if |queue| + n > max then LengthError else Ok((queue, n))
    case Drop(n) => Ok((queue[Min(n, |queue|)..], 0))
    case Put(c) => if |queue| == max then LengthError else Ok((queue + [c], c as int))
    case Get => if queue == "" then Ok(("", EOF)) else Ok((queue[1..], queue[0] as int))
    case Peek => Ok((queue, if queue == "" then EOF else queue[0] as int))
  }

  datatype Trace = Trace(queue: string, replies: seq<int>, threw: bool)

  /** A run of calls up to the first that throws. */
  function Simulate(max: nat, queue: string, calls: seq<Call>): Trace
    decreases |calls|
  {
    if calls == [] then Trace(queue, [], false)
    else
      match Apply(max, queue, calls[0])
      case LengthError => Trace(queue, [], true)
      case Ok((next, reply)) =>
        var rest := Simulate(max, next, calls[1..]);
        rest.(replies := [reply] + rest.replies)
  }

  /** prepare, write into the space, commit. */
  method WriteThrough(sb: BasicStreambuf, bytes: string) returns (r: Result<int>)
    requires sb.Valid()
    modifies sb
    ensures r.LengthError? <==> |old(sb.Queue())| + |bytes| > sb.maxSize
    ensures r.Ok? && old(sb.Gap()) == 0 ==> sb.Gap() == 0
    ensures r.Ok? ==> sb.Valid() && sb.Queue() == old(sb.Queue()) + bytes && r.value == |bytes|
  {
    var space := sb.Prepare(|bytes|);
    if space.LengthError? {
      return LengthError;
    }
    ghost var before := sb.buffer;
    sb.Fill(space.value.0, bytes);
    Written(before, sb.pptr, bytes);
    sb.Commit(|bytes|);
    r := Ok(|bytes|);
  }

  lemma Written(buffer: string, at: nat, bytes: string)
    requires at + |bytes| <= |buffer|
    ensures (buffer[..at] + bytes + buffer[at + |bytes|..])[at..at + |bytes|] == bytes
  {
  }

  /** One call on the stream buffer. */
  method Perform(sb: BasicStreambuf, call: Call) returns (r: Result<int>)
    requires sb.Valid()
    modifies sb
    ensures var spec := Apply(sb.maxSize, old(sb.Queue()), call);
      && (r.LengthError? <==> spec.LengthError?)
      && (r.Ok? ==> sb.Valid() && sb.Queue() == spec.value.0 && r.value == spec.value.1)
  {
    match call
    case Append(bytes) =>
      r := WriteThrough(sb, bytes);
    case Reserve(n) =>
      var space := sb.Prepare(n);
      r := if space.LengthError? then LengthError else Ok(n);
    case Drop(n) =>
      sb.Consume(n);
      r := Ok(0);
    case Put(c) =>
      var put := sb.Sputc(c);
      r := put;
    case Get =>
      var c := sb.Sbumpc();
      r := Ok(c);
    case Peek =>
      var c := sb.Underflow();
      r := Ok(c);
  }

  /** A new stream buffer answers every run of calls as the queue does: the same replies,
  the same bytes left, and an exception at the same call. */
  method Replay(max: nat, calls: seq<Call>) returns (replies: seq<int>, threw: bool, rest: string)
    ensures var trace := Simulate(max, "", calls);
      replies == trace.replies && threw == trace.threw && (!threw ==> rest == trace.queue)
  {
    var sb := new BasicStreambuf(max);
    replies, threw, rest := [], false, "";
    for i := 0 to |calls|
      invariant sb.Valid() && fresh(sb) && sb.maxSize == max && !threw
      invariant var later := Simulate(max, sb.Queue(), calls[i..]);
        Simulate(max, "", calls) == later.(replies := replies + later.replies)
    {
      SimulateStep(max, sb.Queue(), calls, i, replies);
      var r := Perform(sb, calls[i]);
      if r.LengthError? {
        threw := true;
        return;
      }
      replies := replies + [r.value];
    }
    assert calls[|calls|..] == [];
    assert replies + [] == replies;
    rest := sb.Data();
  }

  lemma SimulateStep(max: nat, queue: string, calls: seq<Call>, i: nat, replies: seq<int>)
    requires i < |calls|
    ensures var now := Simulate(max, queue, calls[i..]);
      var all := now.(replies := replies + now.replies);
      match Apply(max, queue, calls[i])
      case LengthError => all == Trace(queue, replies, true)
      case Ok((next, reply)) =>
        var later := Simulate(max, next, calls[i + 1..]);
        all == later.(replies := (replies + [reply]) + later.replies)
  {
    assert calls[i..][0] == calls[i] && calls[i..][1..] == calls[i + 1..];
    assert replies + [] == replies;
    if Apply(max, queue, calls[i]).Ok? {
      var (next, reply) := Apply(max, queue, calls[i]).value;
      var later := Simulate(max, next, calls[i + 1..]);
      assert replies + ([reply] + later.replies) == (replies + [reply]) + later.replies;
    }
  }

  // ----- what the queue promises -----

  function Entered(calls: seq<Call>): string {
    if calls == [] then ""
    else Come(calls[0]) + Entered(calls[1..])
  }

  function Codes(bytes: string): (codes: seq<int>)
    ensures |codes| == |bytes|
  {
    seq(|bytes|, i requires 0 <= i < |bytes| => bytes[i] as int)
  }

  lemma CodesConcat(a: string, b: string)
    ensures Codes(a + b) == Codes(a) + Codes(b)
  {
  }

  /** The bytes that calls take out: what the replies of sbumpc say, and what consume drops. */
  function Left(max: nat, queue: string, calls: seq<Call>, replies: seq<int>): seq<int>
    requires |replies| == |calls|
    decreases |calls|
  {
    if calls == [] || Apply(max, queue, calls[0]).LengthError? then []
    else
      Gone(queue, calls[0], replies[0]) + Left(max, Apply(max, queue, calls[0]).value.0, calls[1..], replies[1..])
  }

  function Gone(queue: string, call: Call, reply: int): seq<int> {
    match call
    case Drop(n) => Codes(queue[..Min(n, |queue|)])
    case Get => if reply == EOF then [] else [reply]
    case _ => []
  }

  function Come(call: Call): string {
    match call case Append(bytes) => bytes case Put(c) => [c] case _ => ""
  }

  /** First in, first out, nothing lost and nothing added: the bytes taken out, as the
  replies tell them, followed by those still inside, are the bytes put in; and no more
  than `max` are ever inside. */
  lemma {:induction false} FirstInFirstOut(max: nat, queue: string, calls: seq<Call>)
    requires !Simulate(max, queue, calls).threw && |queue| <= max
    ensures var trace := Simulate(max, queue, calls);
      && |trace.replies| == |calls|
      && Left(max, queue, calls, trace.replies) + Codes(trace.queue) == Codes(queue + Entered(calls))
      && |trace.queue| <= max
    decreases |calls|
  {
    if calls != [] {
      var (next, reply) := Apply(max, queue, calls[0]).value;
      var later := Simulate(max, next, calls[1..]);
      FirstInFirstOut(max, next, calls[1..]);
      assert ([reply] + later.replies)[1..] == later.replies;
      OneCall(max, queue, calls[0], Left(max, next, calls[1..], later.replies), later.queue, Entered(calls[1..]));
    } else {
      assert [] + Codes(queue) == Codes(queue) && queue + "" == queue;
    }
  }

  lemma OneCall(max: nat, queue: string, call: Call, left: seq<int>, final: string, entered: string)
    requires Apply(max, queue, call).Ok?
    requires left + Codes(final) == Codes(Apply(max, queue, call).value.0 + entered)
    ensures (Gone(queue, call, Apply(max, queue, call).value.1) + left) + Codes(final)
         == Codes(queue + (Come(call) + entered))
  {
    var (next, reply) := Apply(max, queue, call).value;
    var gone := Gone(queue, call, reply);
    OneExchange(max, queue, call);
    CodesConcat(next, entered);
    CodesConcat(queue, Come(call));
    CodesConcat(queue + Come(call), entered);
    Regroup(gone, left, Codes(final));
    Regroup(gone, Codes(next), Codes(entered));
    Regroup(queue, Come(call), entered);
  }

  lemma OneExchange(max: nat, queue: string, call: Call)
    requires Apply(max, queue, call).Ok?
    ensures Gone(queue, call, Apply(max, queue, call).value.1) + Codes(Apply(max, queue, call).value.0)
         == Codes(queue + Come(call))
  {
    match call
    case Drop(n) =>
      CodesConcat(queue[..Min(n, |queue|)], queue[Min(n, |queue|)..]);
      assert queue[..Min(n, |queue|)] + queue[Min(n, |queue|)..] == queue + "";
    case Get =>
      if queue != "" {
        CodesConcat(queue[..1], queue[1..]);
        assert queue[..1] + queue[1..] == queue + "";
      }
    case _ =>
  }

  /** A look at the head changes nothing and shows what is taken out next. */
  lemma PeekShowsNext(max: nat, queue: string)
    ensures var peek, get := Apply(max, queue, Peek), Apply(max, queue, Get);
      peek.Ok? && get.Ok? && peek.value.0 == queue && peek.value.1 == get.value.1
  {
  }

  lemma Regroup<T>(a: seq<T>, b: seq<T>, c: seq<T>)
    ensures (a + b) + c == a + (b + c)
  {
  }

  // ----- what a failed prepare does -----

  /** The bytes that a prepare was made to fail on, before and after.  `bytes` are put in,
  the first `drop` of them taken out, and `n` more asked for. */
  method FailedPrepare(max: nat, bytes: string, drop: nat, n: nat) returns (threw: bool, before: string, after: string)
    requires |bytes| <= max && drop <= |bytes|
    ensures before == bytes[drop..]
    ensures threw <==> |before| + n > max
    ensures after == if threw then Slid(before, drop) else before
  {
    var sb := new BasicStreambuf(max);
    var put := WriteThrough(sb, bytes);
    sb.Consume(drop);
    before := sb.Data();
    var space := sb.Prepare(n);
    threw := space.LengthError?;
    after := sb.Data();
  }

  /** The queue survives a failed prepare, whatever the bytes are, exactly when nothing was
  taken out since the last compaction or at least as much as is left. */
  lemma FailedPrepareKeepsQueue(length: nat, gap: nat)
    ensures (forall queue: string :: |queue| == length ==> Slid(queue, gap) == queue)
       <==> gap == 0 || length <= gap
  {
    if gap > 0 && length > gap {
      var queue: string := seq(length, i => if i == gap then 'b' else 'a');
      assert Slid(queue, gap)[0] == queue[gap];
      assert Slid(queue, gap)[0] != queue[0];
      assert |queue| == length;
    }
  }

  /** With a maximum of 128 bytes: put in 100 different ones, take out 10 and ask for 100.
  The prepare throws, and the byte at the head of the queue is no longer the eleventh. */
  method FailedPrepareLosesBytes() returns (threw: bool, head: int, expected: int)
    ensures threw && expected == 10 && head == 20
  {
    var bytes: string := seq(100, i requires 0 <= i < 100 => i as char);
    var before, after;
    threw, before, after := FailedPrepare(128, bytes, 10, 100);
    head, expected := after[0] as int, before[0] as int;
  }
}
