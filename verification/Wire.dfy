/** Bytes and samples as they travel over a socket.

A byte is a `char`, so that a text message is a `string` and a socket queue is a
`string` too.  A 32-bit float is the four bytes it occupies: no service on the
reverse path does arithmetic on samples. */
module Wire {

  type Byte = char

  /** One float of an audio channel, as its four bytes in memory order. */
  datatype Sample = Sample(b0: Byte, b1: Byte, b2: Byte, b3: Byte) {
    function At(k: nat): Byte
      requires k < 4
    {
      if k == 0 then b0 else if k == 1 then b1 else if k == 2 then b2 else b3
    }
  }

  /** The memory image of a vector of floats. */
  function Encode(xs: seq<Sample>): (bytes: string)
    ensures |bytes| == 4 * |xs|
  {
    seq(4 * |xs|, i requires 0 <= i < 4 * |xs| => xs[i / 4].At(i % 4))
  }

  /** The floats a receive buffer holds; up to three trailing bytes belong to none. */
  function Decode(bytes: string): (xs: seq<Sample>)
    ensures |xs| == |bytes| / 4
  {
    seq(|bytes| / 4, i requires 0 <= i < |bytes| / 4 =>
      Sample(bytes[4 * i], bytes[4 * i + 1], bytes[4 * i + 2], bytes[4 * i + 3]))
  }

  lemma EncodeConcat(xs: seq<Sample>, ys: seq<Sample>)
    ensures Encode(xs + ys) == Encode(xs) + Encode(ys)
  {
    var both := Encode(xs) + Encode(ys);
    assert |Encode(xs + ys)| == |both|;
    forall i | 0 <= i < |both|
      ensures Encode(xs + ys)[i] == both[i]
    {
      if i >= 4 * |xs| {
        assert (i - 4 * |xs|) / 4 == i / 4 - |xs| && (i - 4 * |xs|) % 4 == i % 4;
      }
    }
  }

  lemma EncodeSplit(xs: seq<Sample>, k: nat)
    requires k <= |xs|
    ensures Encode(xs)[..4 * k] == Encode(xs[..k])
    ensures Encode(xs)[4 * k..] == Encode(xs[k..])
  {
    EncodeConcat(xs[..k], xs[k..]);
    assert xs[..k] + xs[k..] == xs;
  }

  /** Byte `j` of sample `i`. */
  lemma EncodedByte(xs: seq<Sample>, i: nat, j: nat)
    requires i < |xs| && j < 4
    ensures Encode(xs)[4 * i + j] == xs[i].At(j)
  {
    assert (4 * i + j) / 4 == i && (4 * i + j) % 4 == j;
  }

  /** Four bytes make the sample they belong to. */
  lemma DecodedAt(bytes: string, i: nat, x: Sample)
    requires 4 * i + 3 < |bytes|
    requires bytes[4 * i] == x.b0 && bytes[4 * i + 1] == x.b1 && bytes[4 * i + 2] == x.b2 && bytes[4 * i + 3] == x.b3
    ensures Decode(bytes)[i] == x
  {
  }

  lemma PrefixAt(all: string, n: nat, i: nat, x: Sample)
    requires n <= |all| && 4 * i + 3 < n
    requires all[4 * i] == x.b0 && all[4 * i + 1] == x.b1 && all[4 * i + 2] == x.b2 && all[4 * i + 3] == x.b3
    ensures Decode(all[..n])[i] == x
  {
    DecodedAt(all[..n], i, x);
  }

  lemma DecodedSample(xs: seq<Sample>, n: nat, i: nat)
    requires n <= 4 * |xs| && i < n / 4
    ensures Decode(Encode(xs)[..n])[i] == xs[i]
  {
    EncodedByte(xs, i, 0);
    EncodedByte(xs, i, 1);
    EncodedByte(xs, i, 2);
    EncodedByte(xs, i, 3);
    PrefixAt(Encode(xs), n, i, xs[i]);
  }

  /** Decoding any byte prefix of an encoded channel yields the samples that
  arrived whole, whatever the position at which the bytes were cut. */
  lemma DecodePrefix(xs: seq<Sample>, n: nat)
    requires n <= 4 * |xs|
    ensures Decode(Encode(xs)[..n]) == xs[..n / 4]
  {
    forall i | 0 <= i < n / 4
      ensures Decode(Encode(xs)[..n])[i] == xs[i]
    {
      DecodedSample(xs, n, i);
    }
  }

  /** Bytes that hold whole samples are decoded apart from what follows. */
  lemma DecodeAppend(a: string, b: string)
    requires |a| % 4 == 0
    ensures Decode(a + b) == Decode(a) + Decode(b)
  {
    forall i | 0 <= i < |Decode(a + b)|
      ensures Decode(a + b)[i] == (Decode(a) + Decode(b))[i]
    {
    }
  }

  lemma DecodeEncode(xs: seq<Sample>)
    ensures Decode(Encode(xs)) == xs
  {
    DecodePrefix(xs, 4 * |xs|);
    assert Encode(xs)[..4 * |xs|] == Encode(xs);
    assert xs[..(4 * |xs|) / 4] == xs;
  }
}
