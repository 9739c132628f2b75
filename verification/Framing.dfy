/** How `send_audio` cuts a channel into chunks and how `recv_audio` finds its end. */
module Framing {
  import opened Wire

  const CHUNK_SIZE: nat := 1024
  const CHUNK_BYTES: nat := 4096

  function Flatten<T>(parts: seq<seq<T>>): seq<T> {
    if parts == [] then [] else parts[0] + Flatten(parts[1..])
  }

  lemma {:induction false} FlattenConcat<T>(a: seq<seq<T>>, b: seq<seq<T>>)
    ensures Flatten(a + b) == Flatten(a) + Flatten(b)
  {
    if a == [] {
      assert a + b == b;
    } else {
      assert (a + b)[1..] == a[1..] + b;
      FlattenConcat(a[1..], b);
    }
  }

  /** The chunks written for one channel, in order.  The last chunk is cut to the
  channel length modulo the chunk size, hence to nothing when that is zero. */
  function Chunks(ch: seq<Sample>): (chunks: seq<seq<Sample>>)
    decreases |ch|
  {
    if |ch| <= CHUNK_SIZE then [ch[..|ch| % CHUNK_SIZE]]
    else [ch[..CHUNK_SIZE]] + Chunks(ch[CHUNK_SIZE..])
  }

  /** The part of a channel that reaches the wire. */
  function Sent(ch: seq<Sample>): (sent: seq<Sample>)
  {
    if |ch| > 0 && |ch| % CHUNK_SIZE == 0 then ch[..|ch| - CHUNK_SIZE] else ch
  }

  function Stream(ch: seq<Sample>): string {
    Encode(Sent(ch))
  }

  /** The byte contents of each chunk: one entry for each blocking write. */
  function ChunkWrites(ch: seq<Sample>): seq<string> {
    var cs := Chunks(ch);
    seq(|cs|, i requires 0 <= i < |cs| => Encode(cs[i]))
  }

  /** A channel is announced completely exactly when its length is not a multiple
  of the chunk size. */
  predicate Framed(ch: seq<Sample>) {
    |ch| % CHUNK_SIZE != 0
  }

  /** Number and sizes of the chunks: every chunk but the last is full, and the last
  holds what is left over. */
  lemma {:induction false} ChunkSizes(ch: seq<Sample>)
    requires |ch| > 0
    ensures var n := |Chunks(ch)|; 0 < n && CHUNK_SIZE * (n - 1) < |ch| <= CHUNK_SIZE * n
    ensures forall i :: 0 <= i < |Chunks(ch)| - 1 ==> |Chunks(ch)[i]| == CHUNK_SIZE
    ensures |Chunks(ch)[|Chunks(ch)| - 1]| == |ch| % CHUNK_SIZE
    decreases |ch|
  {
    if |ch| > CHUNK_SIZE {
      var rest := ch[CHUNK_SIZE..];
      var more := Chunks(rest);
      ChunkSizes(rest);
      assert Chunks(ch) == [ch[..CHUNK_SIZE]] + more;
    }
  }

  /** Every write but the last is 4096 bytes long. */
  lemma WriteSizes(ch: seq<Sample>)
    requires |ch| > 0
    ensures var ws := ChunkWrites(ch);
      && |ws| == (|ch| + 1023) / 1024
      && (forall i :: 0 <= i < |ws| - 1 ==> |ws[i]| == 4096)
      && |ws[|ws| - 1]| == 4 * (|ch| % 1024)
  {
    ChunkSizes(ch);
  }

  lemma FlattenFirst<T>(x: seq<T>, rest: seq<seq<T>>)
    ensures Flatten([x] + rest) == x + Flatten(rest)
  {
    assert ([x] + rest)[1..] == rest;
  }

  lemma SentStep(ch: seq<Sample>)
    requires |ch| > CHUNK_SIZE
    ensures Sent(ch) == ch[..CHUNK_SIZE] + Sent(ch[CHUNK_SIZE..])
  {
  }

  /** The chunks together hold the part of the channel that is sent. */
  lemma {:induction false} ChunksFlatten(ch: seq<Sample>)
    requires |ch| > 0
    ensures Flatten(Chunks(ch)) == Sent(ch)
    decreases |ch|
  {
    if |ch| <= CHUNK_SIZE {
      FlattenFirst(ch[..|ch| % CHUNK_SIZE], []);
      assert [Sent(ch)] + [] == [Sent(ch)];
    } else {
      var rest := ch[CHUNK_SIZE..];
      ChunksFlatten(rest);
      FlattenFirst(ch[..CHUNK_SIZE], Chunks(rest));
      SentStep(ch);
    }
  }

  /** The first write of a channel and the others. */
  lemma ChunkWritesStep(ch: seq<Sample>)
    ensures ChunkWrites(ch) ==
      if |ch| <= CHUNK_SIZE then [Encode(ch[..|ch| % CHUNK_SIZE])]
      else [Encode(ch[..CHUNK_SIZE])] + ChunkWrites(ch[CHUNK_SIZE..])
  {
  }

  /** The bytes of all the writes are the stream of the channel. */
  lemma {:induction false} WritesFlatten(ch: seq<Sample>)
    requires |ch| > 0
    ensures Flatten(ChunkWrites(ch)) == Stream(ch)
    decreases |ch|
  {
    ChunkWritesStep(ch);
    if |ch| <= CHUNK_SIZE {
      assert Sent(ch) == ch[..|ch| % CHUNK_SIZE];
      assert [Encode(Sent(ch))] + [] == [Encode(Sent(ch))];
      FlattenFirst(Encode(Sent(ch)), []);
    } else {
      var rest := ch[CHUNK_SIZE..];
      WritesFlatten(rest);
      SentStep(ch);
      FlattenFirst(Encode(ch[..CHUNK_SIZE]), ChunkWrites(rest));
      EncodeConcat(ch[..CHUNK_SIZE], Sent(rest));
    }
  }

  /** The sample stream of a channel is the whole channel exactly when it is framed. */
  lemma SentWhole(ch: seq<Sample>)
    requires |ch| > 0
    ensures Sent(ch) == ch <==> Framed(ch)
    ensures Framed(ch) <==> |ch| % 1024 != 0
    ensures Sent(ch) <= ch
    ensures |Sent(ch)| % CHUNK_SIZE == 0 <==> !Framed(ch)
  {
  }

  // ----- receiving -----

  /** The result of one receive loop: the samples collected, the socket reads still
  to come, and whether the loop ended (otherwise it waits forever for more). */
  datatype Reception = Reception(got: seq<Sample>, rest: seq<string>, ended: bool)

  /** `incoming` lists what the successive `read_some` calls find; a call that finds
  more than a chunk takes a chunk of it. */
  function ReadSome(incoming: seq<string>, room: nat): (r: (string, seq<string>))
    requires incoming != [] && room > 0
    ensures |r.0| == if |incoming[0]| <= room then |incoming[0]| else room
    ensures incoming[0] != "" ==> r.0 != ""
    ensures |incoming[0]| <= room ==> r == (incoming[0], incoming[1..])
  {
    if |incoming[0]| <= room then (incoming[0], incoming[1..])
    else
      (incoming[0][..room], [incoming[0][room..]] + incoming[1..])
  }

  /** A read takes the first bytes and leaves the others. */
  lemma ReadSomeKeepsBytes(incoming: seq<string>, room: nat)
    requires incoming != [] && room > 0
    ensures var r := ReadSome(incoming, room); r.0 + Flatten(r.1) == Flatten(incoming)
  {
    if |incoming[0]| > room {
      FlattenFirst(incoming[0][room..], incoming[1..]);
      assert incoming[0][..room] + incoming[0][room..] == incoming[0];
    }
  }

  predicate NoEmptyRead(incoming: seq<string>) {
    forall i :: 0 <= i < |incoming| ==> incoming[i] != ""
  }

  /** One channel loop of `recv_audio`. */
  function Receive(incoming: seq<string>): (r: Reception)
    requires NoEmptyRead(incoming)
    ensures NoEmptyRead(r.rest)
    decreases |Flatten(incoming)|
  {
    if incoming == [] then Reception([], [], false)
    else
      ReadSomeKeepsBytes(incoming, CHUNK_BYTES);
      var (bytes, rest) := ReadSome(incoming, CHUNK_BYTES);
      if |Decode(bytes)| < CHUNK_SIZE then Reception(Decode(bytes), rest, true)
      else
        var more := Receive(rest);
        more.(got := Decode(bytes) + more.got)
  }

  /** One turn of the loop, when a read finds `bytes`. */
  lemma ReceiveFirst(bytes: string, rest: seq<string>)
    requires 0 < |bytes| <= CHUNK_BYTES && NoEmptyRead(rest)
    ensures NoEmptyRead([bytes] + rest)
    ensures Receive([bytes] + rest) ==
      if |bytes| < CHUNK_BYTES then Reception(Decode(bytes), rest, true)
      else Receive(rest).(got := Decode(bytes) + Receive(rest).got)
  {
    assert ([bytes] + rest)[1..] == rest;
  }

  /** Cutting `bytes` off a stream. */
  lemma StreamCut(xs: seq<Sample>, bytes: string, rest: string)
    requires bytes + rest == Encode(xs)
    ensures Decode(bytes) == xs[..|bytes| / 4]
    ensures |bytes| == CHUNK_BYTES ==> rest == Encode(xs[CHUNK_SIZE..])
  {
    assert bytes == Encode(xs)[..|bytes|] && rest == Encode(xs)[|bytes|..];
    DecodePrefix(xs, |bytes|);
    if |bytes| == CHUNK_BYTES {
      EncodeSplit(xs, CHUNK_SIZE);
    }
  }

  /** What a receive loop can come to when the stream is `xs`: it collects a prefix; it
  ends unless the stream is a whole number of chunks that came in full reads; and it
  collects everything exactly when its short read is the one that takes the last byte. */
  predicate Faithful(r: Reception, xs: seq<Sample>) {
    && r.got <= xs
    && (|xs| % CHUNK_SIZE != 0 ==> r.ended)
    && (r.ended ==> (r.got == xs <==> Flatten(r.rest) == ""))
    && (!r.ended ==> r.got == xs && r.rest == [])
  }

  lemma ShortReadFaithful(bytes: string, rest: seq<string>, xs: seq<Sample>)
    requires bytes + Flatten(rest) == Encode(xs) && |bytes| < CHUNK_BYTES
    ensures Faithful(Reception(Decode(bytes), rest, true), xs)
  {
    StreamCut(xs, bytes, Flatten(rest));
    assert |bytes| + |Flatten(rest)| == 4 * |xs|;
    var got := Decode(bytes);
    assert got == xs <==> |bytes| / 4 == |xs|;
  }

  lemma FullReadFaithful(first: seq<Sample>, r: Reception, later: seq<Sample>)
    requires |first| == CHUNK_SIZE && Faithful(r, later)
    ensures Faithful(r.(got := first + r.got), first + later)
  {
    var got, xs := first + r.got, first + later;
    assert got <= xs;
    assert |got| == |xs| <==> |r.got| == |later|;
  }

  /** For every way in which the stream is cut into reads, including cuts inside a float. */
  lemma {:induction false} ReceiveAnySchedule(incoming: seq<string>, xs: seq<Sample>)
    requires NoEmptyRead(incoming)
    requires Flatten(incoming) == Encode(xs)
    ensures Faithful(Receive(incoming), xs)
    decreases |xs|
  {
    if incoming == [] {
      assert |Encode(xs)| == 0;
    } else {
      ReadSomeKeepsBytes(incoming, CHUNK_BYTES);
      var (bytes, rest) := ReadSome(incoming, CHUNK_BYTES);
      StreamCut(xs, bytes, Flatten(rest));
      if |bytes| == CHUNK_BYTES {
        var later := xs[CHUNK_SIZE..];
        ReceiveAnySchedule(rest, later);
        FullReadFaithful(xs[..CHUNK_SIZE], Receive(rest), later);
        assert xs == xs[..CHUNK_SIZE] + later;
      } else {
        ShortReadFaithful(bytes, rest, xs);
      }
    }
  }

  lemma ConsConcat(x: string, b: seq<string>, c: seq<string>)
    ensures ([x] + b) + c == [x] + (b + c)
  {
  }

  /** What the reads find is cut at chunk boundaries only, if at all: every entry but the
  last is a whole number of chunks. */
  predicate AtBoundaries(incoming: seq<string>) {
    forall i :: 0 <= i < |incoming| - 1 ==> |incoming[i]| % CHUNK_BYTES == 0
  }

  lemma ReadAtBoundary(incoming: seq<string>)
    requires incoming != [] && NoEmptyRead(incoming) && AtBoundaries(incoming)
    ensures var r := ReadSome(incoming, CHUNK_BYTES);
      && NoEmptyRead(r.1) && AtBoundaries(r.1)
      && (|r.0| < CHUNK_BYTES ==> r.1 == [])
  {
    assert |incoming| > 1 ==> |incoming[0]| >= CHUNK_BYTES;
  }

  lemma ReadBefore(incoming: seq<string>, tail: seq<string>, room: nat)
    requires incoming != [] && room > 0
    ensures ReadSome(incoming + tail, room) == (ReadSome(incoming, room).0, ReadSome(incoming, room).1 + tail)
  {
    assert (incoming + tail)[1..] == incoming[1..] + tail;
    if |incoming[0]| > room {
      ConsConcat(incoming[0][room..], incoming[1..], tail);
    }
  }

  /** A framed channel comes back whole however much of it a read finds, as long as nothing
  is cut inside a chunk; and what follows it is left for the next reader. */
  lemma {:induction false} ReceiveBlocks(incoming: seq<string>, ch: seq<Sample>, tail: seq<string>)
    requires NoEmptyRead(incoming) && AtBoundaries(incoming) && NoEmptyRead(tail)
    requires Framed(ch) && Flatten(incoming) == Encode(ch)
    ensures NoEmptyRead(incoming + tail)
    ensures Receive(incoming + tail) == Reception(ch, tail, true)
    decreases |ch|
  {
    assert incoming != [];
    var (bytes, rest) := ReadSome(incoming, CHUNK_BYTES);
    ReadSomeKeepsBytes(incoming, CHUNK_BYTES);
    ReadAtBoundary(incoming);
    ReadBefore(incoming, tail, CHUNK_BYTES);
    StreamCut(ch, bytes, Flatten(rest));
    if |bytes| == CHUNK_BYTES {
      var later := ch[CHUNK_SIZE..];
      ReceiveBlocks(rest, later, tail);
      assert ch == ch[..CHUNK_SIZE] + later;
    } else {
      assert rest == [] && bytes + "" == bytes;
      DecodeEncode(ch);
      assert rest + tail == tail;
    }
  }

  /** Delivered one chunk at a time, a framed channel comes back whole and what
  follows it is left for the next reader. */
  lemma ReceiveChunks(ch: seq<Sample>, tail: seq<string>)
    requires Framed(ch) && NoEmptyRead(tail)
    ensures NoEmptyRead(ChunkWrites(ch) + tail)
    ensures Receive(ChunkWrites(ch) + tail) == Reception(ch, tail, true)
  {
    WriteSizes(ch);
    WritesFlatten(ch);
    ReceiveBlocks(ChunkWrites(ch), ch, tail);
  }

  /** A whole framed channel waiting in one piece. */
  lemma ReceiveAtOnce(ch: seq<Sample>)
    requires Framed(ch)
    ensures NoEmptyRead([Encode(ch)]) && Receive([Encode(ch)]) == Reception(ch, [], true)
  {
    assert [Encode(ch)] + [] == [Encode(ch)];
    FlattenFirst(Encode(ch), []);
    assert Encode(ch) + "" == Encode(ch);
    ReceiveBlocks([Encode(ch)], ch, []);
  }

  /** The loop is left by the first read below a full chunk, whatever the bytes are: it has
  what came up to there, and the reads after that are untouched. */
  lemma {:induction false} ReceiveUntilShort(full: seq<string>, last: string, tail: seq<string>)
    requires (forall i :: 0 <= i < |full| ==> |full[i]| == CHUNK_BYTES) && 0 < |last| < CHUNK_BYTES && NoEmptyRead(tail)
    ensures NoEmptyRead(full + ([last] + tail))
    ensures Receive(full + ([last] + tail)) == Reception(Decode(Flatten(full) + last), tail, true)
    decreases |full|
  {
    if full == [] {
      assert full + ([last] + tail) == [last] + tail;
      assert "" + last == last;
      ReceiveFirst(last, tail);
    } else {
      var more := full[1..] + ([last] + tail);
      assert full == [full[0]] + full[1..];
      ConsConcat(full[0], full[1..], [last] + tail);
      ReceiveUntilShort(full[1..], last, tail);
      ReceiveFirst(full[0], more);
      DecodeAppend(full[0], Flatten(full[1..]) + last);
      assert (full[0] + Flatten(full[1..])) + last == full[0] + (Flatten(full[1..]) + last);
    }
  }

  /** A channel whose length is a multiple of the chunk size never ends for the
  receiver: it waits for a short read that the sender does not write. */
  lemma {:induction false} ReceiveUnframedBlocks(ch: seq<Sample>)
    requires |ch| > 0 && !Framed(ch)
    ensures var full := ChunkWrites(ch)[..|ChunkWrites(ch)| - 1];
      && ChunkWrites(ch) == full + [""]
      && NoEmptyRead(full)
      && Receive(full) == Reception(ch[..|ch| - CHUNK_SIZE], [], false)
    decreases |ch|
  {
    ChunkWritesStep(ch);
    var all := ChunkWrites(ch);
    if |ch| <= CHUNK_SIZE {
      assert Encode([]) == "";
      assert all[..|all| - 1] == [];
    } else {
      var first, rest := ch[..CHUNK_SIZE], ch[CHUNK_SIZE..];
      var more := ChunkWrites(rest);
      ReceiveUnframedBlocks(rest);
      var full := more[..|more| - 1];
      ConsConcat(Encode(first), full, [""]);
      assert all[..|all| - 1] == [Encode(first)] + full;
      DecodeEncode(first);
      ReceiveFirst(Encode(first), full);
      assert ch[..|ch| - CHUNK_SIZE] == first + rest[..|rest| - CHUNK_SIZE];
    }
  }

  /** Two framed channels written back to back are told apart again. */
  lemma ReceivePair(left: seq<Sample>, right: seq<Sample>)
    requires Framed(left) && Framed(right)
    ensures NoEmptyRead(ChunkWrites(left) + ChunkWrites(right))
    ensures var first := Receive(ChunkWrites(left) + ChunkWrites(right));
      && first == Reception(left, ChunkWrites(right), true)
      && Receive(first.rest) == Reception(right, [], true)
  {
    ReceiveChunks(right, []);
    assert ChunkWrites(right) + [] == ChunkWrites(right);
    ReceiveChunks(left, ChunkWrites(right));
  }
}
