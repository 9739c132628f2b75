/** The time stretcher: synchronous overlap-add with frames of 4000 samples.

Samples are `real`: rounding of floats is not modelled. */
module Sola {

  const FRAME_SIZE: nat := 4000
  const OVERLAP_SIZE: nat := 800
  const FLAT_DURATION: nat := 2400     // FRAME_SIZE - 2 * OVERLAP_SIZE
  const FRAME_OUTPUT: nat := 3200      // FLAT_DURATION + OVERLAP_SIZE

  // ----- specification -----

  /** A vector after `resize(n)`, when that does not make it shorter. */
  function Grown(xs: seq<real>, n: nat): (ys: seq<real>)
    ensures |ys| == if |xs| < n then n else |xs|
  {
    if |xs| < n then xs + seq(n - |xs|, _ => 0.0) else xs
  }

  /** `xs` with `ys` written over it from index `at` on. */
  function Overwritten(xs: seq<real>, at: nat, ys: seq<real>): seq<real>
    requires at + |ys| <= |xs|
  {
    xs[..at] + ys + xs[at + |ys|..]
  }

  /** The linear crossfade of position `s` of `n`. */
  function Fade(tail: real, head: real, s: nat, n: nat): real
    requires s < n
  {
    tail * ((n - s) as real / n as real) + head * (s as real / n as real)
  }

  function Crossfade(tail: seq<real>, head: seq<real>): (mix: seq<real>)
    requires |tail| == |head|
    ensures |mix| == |tail|
  {
    seq(|tail|, s requires 0 <= s < |tail| => Fade(tail[s], head[s], s, |tail|))
  }

  /** The loop guard, for an input of `n` samples, as exact arithmetic. */
  predicate Fits(n: nat, skip: nat, cursor: nat) {
    cursor + 2 * (skip + OVERLAP_SIZE) <= n
  }

  /** The tail that starts at `tail`, faded into the head of the next frame. */
  function Overlapped(x: seq<real>, skip: nat, tail: nat): (mix: seq<real>)
    requires tail + OVERLAP_SIZE <= |x| && tail + skip <= |x| && skip >= OVERLAP_SIZE
    ensures |mix| == OVERLAP_SIZE
  {
    Crossfade(x[tail..tail + OVERLAP_SIZE], x[tail + skip - OVERLAP_SIZE..tail + skip])
  }

  /** The output of the frame that starts at `base`: its flat section, then its tail
  faded into the head of the next frame. */
  function Frame(x: seq<real>, skip: nat, base: nat): (out: seq<real>)
    requires base + FRAME_OUTPUT <= |x| && base + FLAT_DURATION + skip <= |x| && skip >= OVERLAP_SIZE
    ensures |out| == FRAME_OUTPUT
  {
    x[base..base + FLAT_DURATION] + Overlapped(x, skip, base + FLAT_DURATION)
  }

  /** The output from the frame at `cursor` on. */
  function Output(x: seq<real>, skip: nat, cursor: nat): seq<real>
    requires skip >= OVERLAP_SIZE
    decreases |x| - cursor
  {
    if Fits(|x|, skip, cursor)
    then Frame(x, skip, cursor) + Output(x, skip, cursor + FLAT_DURATION + skip)
    else []
  }

  /** What `sola` makes of one channel. */
  function Stretched(x: seq<real>, skip: nat): seq<real>
    requires skip >= OVERLAP_SIZE
  {
    Output(x, skip, 0)
  }

  /** `(int)(3200 * time_scale)` for a scale that is not negative. */
  function FrameSkip(timeScale: real): nat
    requires timeScale >= 0.0
  {
    ((FRAME_SIZE - OVERLAP_SIZE) as real * timeScale).Floor
  }

  /** `skip` is 3200 times the scale without the fraction. */
  predicate IsSkip(skip: nat, timeScale: real) {
    skip as real <= 3200.0 * timeScale < (skip + 1) as real
  }

  /** The frame skip is that number, and no other is. */
  lemma FrameSkipExact(timeScale: real, skip: nat)
    requires timeScale >= 0.0
    ensures IsSkip(FrameSkip(timeScale), timeScale)
    ensures IsSkip(skip, timeScale) ==> skip == FrameSkip(timeScale)
  {
  }

  /** The limits `main` puts on the ratio it receives. */
  function Clamped(ratio: real): real {
    var r := if ratio <= 0.5 then 0.5 else ratio;
    if r >= 2.0 then 2.0 else r
  }

  /** Below 0.5 the ratio counts as 0.5 and above 2 as 2; in between the frame skip is 3200
  times the ratio without the fraction. */
  lemma ClampedSkip(ratio: real)
    ensures 1600 <= FrameSkip(Clamped(ratio)) <= 6400
    ensures ratio <= 0.5 ==> FrameSkip(Clamped(ratio)) == 1600
    ensures 0.5 <= ratio <= 2.0 ==> IsSkip(FrameSkip(Clamped(ratio)), ratio)
    ensures ratio >= 2.0 ==> FrameSkip(Clamped(ratio)) == 6400
  {
    FrameSkipExact(Clamped(ratio), 1600);
    FrameSkipExact(Clamped(ratio), 6400);
  }

  /** The most floats a vector can hold: 2^63 - 1 bytes. */
  const MAX_VECTOR: nat := 0x2000_0000_0000_0000 - 1

  /** Subtraction of `size_t` values. */
  function Minus64(a: nat, b: nat): nat {
    (a - b) % 0x1_0000_0000_0000_0000
  }

  // ----- buffers -----

  class Buffer {
    var channels: seq<seq<real>>

    constructor (numChannels: nat)
      ensures |channels| == numChannels && forall c :: 0 <= c < numChannels ==> channels[c] == []
    {
      channels := seq(numChannels, _ => []);
    }

    /** Two channels of one length. */
    predicate Stereo()
      reads this
    {
      |channels| == 2 && |channels[0]| == |channels[1]|
    }

    /** `resize` on both channels, which throws above the greatest length of a vector. */
    method Resize(n: nat, limit: nat) returns (threw: bool)
      requires Stereo() && n >= |channels[0]|
      modifies this
      ensures threw <==> n > limit
      ensures Stereo()
      ensures forall c :: 0 <= c < 2 ==> channels[c] == if threw then old(channels[c]) else Grown(old(channels[c]), n)
    {
      threw := n > limit;
      if !threw {
        channels := [Grown(channels[0], n), Grown(channels[1], n)];
      }
    }

    /** Resizes both channels if they are shorter than `n`. */
    method MakeLongEnough(n: nat, limit: nat) returns (threw: bool)
      requires Stereo() && |channels[0]| <= limit
      modifies this
      ensures threw <==> n > limit
      ensures Stereo() && (!threw ==> |channels[0]| <= limit)
      ensures !threw ==> forall c :: 0 <= c < 2 ==> channels[c] == Grown(old(channels[c]), n)
    {
      threw := false;
      if |channels[0]| < n {
        threw := Resize(n, limit);
      }
    }

    /** The inner loop of buffer_copy_part. */
    method CopyChannel(channel: nat, at: nat, source: seq<real>, from: nat, numSamples: nat)
      requires channel < |channels| && at + numSamples <= |channels[channel]| && from + numSamples <= |source|
      modifies this
      ensures channels == old(channels)[channel := Overwritten(old(channels[channel]), at, source[from..from + numSamples])]
    {
      ghost var before := channels[channel];
      for sample := 0 to numSamples
        invariant |channels| == |old(channels)|
        invariant channels == old(channels)[channel := channels[channel]]
        invariant channels[channel] == Overwritten(before, at, source[from..from + sample])
      {
        channels := channels[channel := channels[channel][at + sample := source[from + sample]]];
        assert source[from..from + sample + 1] == source[from..from + sample] + [source[from + sample]];
      }
    }
  }

  /** Copies a stretch of both channels of `buf1` over `buf2`; each is first made long
  enough, which throws when that exceeds the greatest length of a vector. */
  method BufferCopyPart(buf1: Buffer, idx1: nat, buf2: Buffer, idx2: nat, numSamples: nat, limit: nat)
    returns (threw: bool)
    requires buf1 != buf2 && buf1.Stereo() && buf2.Stereo()
    requires |buf1.channels[0]| <= limit && |buf2.channels[0]| <= limit
    modifies buf1, buf2
    ensures buf1.Stereo() && buf2.Stereo()
    ensures threw <==> idx1 + numSamples > limit || idx2 + numSamples > limit
    ensures !threw ==> forall c :: 0 <= c < 2 ==>
      && buf1.channels[c] == Grown(old(buf1.channels[c]), idx1 + numSamples)
      && buf2.channels[c] == Overwritten(Grown(old(buf2.channels[c]), idx2 + numSamples), idx2,
                                         Grown(old(buf1.channels[c]), idx1 + numSamples)[idx1..idx1 + numSamples])
  {
    threw := buf1.MakeLongEnough(idx1 + numSamples, limit);
    if threw {
      return;
    }
    threw := buf2.MakeLongEnough(idx2 + numSamples, limit);
    if threw {
      return;
    }
    CopyChannels(buf1, idx1, buf2, idx2, numSamples);
  }

  /** A sample of a vector that is filled up with zeros. */
  function SampleOr0(xs: seq<real>, k: nat): real {
    if k < |xs| then xs[k] else 0.0
  }

  /** What buffer_copy_part leaves in a channel of its destination, sample by sample. */
  lemma CopiedSample(x: seq<real>, idx1: nat, y: seq<real>, idx2: nat, numSamples: nat, k: nat)
    ensures var z := Overwritten(Grown(y, idx2 + numSamples), idx2, Grown(x, idx1 + numSamples)[idx1..idx1 + numSamples]);
      && |z| == (if |y| < idx2 + numSamples then idx2 + numSamples else |y|)
      && (k < |z| ==>
            z[k] == if idx2 <= k < idx2 + numSamples then SampleOr0(x, idx1 + (k - idx2)) else SampleOr0(y, k))
  {
  }

  /** The loops of buffer_copy_part. */
  method CopyChannels(buf1: Buffer, idx1: nat, buf2: Buffer, idx2: nat, numSamples: nat)
    requires buf1 != buf2 && buf1.Stereo() && buf2.Stereo()
    requires idx1 + numSamples <= |buf1.channels[0]| && idx2 + numSamples <= |buf2.channels[0]|
    modifies buf2
    ensures buf2.Stereo()
    ensures forall c :: 0 <= c < 2 ==>
      buf2.channels[c] == Overwritten(old(buf2.channels[c]), idx2, buf1.channels[c][idx1..idx1 + numSamples])
  {
    ghost var source, large := buf1.channels, buf2.channels;
    for channel := 0 to 2
      invariant |buf2.channels| == 2
      invariant forall c :: 0 <= c < 2 ==> (c < channel ==>
        buf2.channels[c] == Overwritten(large[c], idx2, source[c][idx1..idx1 + numSamples]))
      invariant forall c :: channel <= c < 2 ==> buf2.channels[c] == large[c]
    {
      buf2.CopyChannel(channel, idx2, buf1.channels[channel], idx1, numSamples);
    }
  }

  /** Copies all of `original` into `copy`. */
  method BufferCopyFull(original: Buffer, copy: Buffer)
    requires original != copy && |original.channels| <= |copy.channels|
    modifies copy
    ensures copy.channels == original.channels + old(copy.channels)[|original.channels|..]
  {
    for channel := 0 to |original.channels|
      invariant copy.channels == original.channels[..channel] + old(copy.channels)[channel..]
    {
      ReplaceNext(original.channels, old(copy.channels), channel);
      CopyWhole(original.channels[channel], copy, channel);
    }
  }

  lemma ReplaceNext(xs: seq<seq<real>>, ys: seq<seq<real>>, k: nat)
    requires k < |xs| <= |ys|
    ensures (xs[..k] + ys[k..])[k := xs[k]] == xs[..k + 1] + ys[k + 1..]
  {
  }

  /** The body of the outer loop of buffer_copy_full. */
  method CopyWhole(original: seq<real>, copy: Buffer, channel: nat)
    requires channel < |copy.channels|
    modifies copy
    ensures copy.channels == old(copy.channels)[channel := original]
  {
    var numSamples := |original|;
    copy.channels := copy.channels[channel := seq(numSamples, _ => 0.0)];
    for sample := 0 to numSamples
      invariant |copy.channels| == |old(copy.channels)|
      invariant copy.channels == old(copy.channels)[channel := copy.channels[channel]]
      invariant |copy.channels[channel]| == numSamples
      invariant copy.channels[channel][..sample] == original[..sample]
    {
      copy.channels := copy.channels[channel := copy.channels[channel][sample := original[sample]]];
    }
    assert copy.channels[channel] == original;
  }

  /** Fades both channels of `buf1` into `buf2`, in place; the shorter buffer is first made
  as long as the other. */
  method WindowBuffers(buf1: Buffer, buf2: Buffer)
    requires buf1 != buf2 && buf1.Stereo() && buf2.Stereo()
    modifies buf1, buf2
    ensures buf1.Stereo() && buf2.Stereo()
    ensures forall c :: 0 <= c < 2 ==>
      buf1.channels[c] == Crossfade(Grown(old(buf1.channels[c]), |old(buf2.channels[c])|),
                                    Grown(old(buf2.channels[c]), |old(buf1.channels[c])|))
  {
    var bufSize := |buf1.channels[0]|;
    if bufSize < |buf2.channels[0]| {
      bufSize := |buf2.channels[0]|;
      // no longer than a vector that there is already
      var _ := buf1.Resize(bufSize, bufSize);
    } else if |buf2.channels[0]| < bufSize {
      var _ := buf2.Resize(bufSize, bufSize);
    }
    ghost var tails, heads := buf1.channels, buf2.channels;
    for channel := 0 to 2
      invariant |buf1.channels| == 2 && |buf2.channels| == 2
      invariant forall c :: 0 <= c < 2 ==> |buf1.channels[c]| == bufSize && |buf2.channels[c]| == bufSize
      invariant forall c :: 0 <= c < 2 ==> (c < channel ==> buf1.channels[c] == Crossfade(tails[c], heads[c]))
      invariant forall c :: channel <= c < 2 ==> buf1.channels[c] == tails[c] && buf2.channels[c] == heads[c]
    {
      WindowChannel(buf1, buf2, channel);
    }
  }

  /** What window_buffers leaves in a channel, sample by sample. */
  lemma FadedSample(x: seq<real>, y: seq<real>, k: nat)
    ensures var z := Crossfade(Grown(x, |y|), Grown(y, |x|)); var n := if |x| < |y| then |y| else |x|;
      && |z| == n
      && (k < n ==> z[k] == SampleOr0(x, k) * ((n - k) as real / n as real) + SampleOr0(y, k) * (k as real / n as real))
  {
  }

  /** The inner loop of window_buffers. */
  method WindowChannel(buf1: Buffer, buf2: Buffer, channel: nat)
    requires buf1 != buf2 && channel < |buf1.channels| && channel < |buf2.channels|
    requires |buf1.channels[channel]| == |buf2.channels[channel]|
    modifies buf1, buf2
    ensures buf1.channels == old(buf1.channels)[channel := Crossfade(old(buf1.channels[channel]), old(buf2.channels[channel]))]
    ensures |buf2.channels| == |old(buf2.channels)| && |buf2.channels[channel]| == |old(buf2.channels[channel])|
    ensures buf2.channels == old(buf2.channels)[channel := buf2.channels[channel]]
  {
    ghost var tail, head := buf1.channels[channel], buf2.channels[channel];
    var n := |buf1.channels[channel]|;
    for s := 0 to n
      invariant |buf1.channels| == |old(buf1.channels)| && |buf2.channels| == |old(buf2.channels)|
      invariant buf1.channels == old(buf1.channels)[channel := buf1.channels[channel]]
      invariant buf2.channels == old(buf2.channels)[channel := buf2.channels[channel]]
      invariant |buf1.channels[channel]| == n && |buf2.channels[channel]| == n
      invariant forall k :: 0 <= k < s ==> buf1.channels[channel][k] == Fade(tail[k], head[k], k, n)
      invariant forall k :: s <= k < n ==> buf1.channels[channel][k] == tail[k] && buf2.channels[channel][k] == head[k]
    {
      var one := buf1.channels[channel][s] * ((n - s) as real / n as real);
      var two := buf2.channels[channel][s] * (s as real / n as real);
      buf2.channels := buf2.channels[channel := buf2.channels[channel][s := two]];
      buf1.channels := buf1.channels[channel := buf1.channels[channel][s := one + two]];
    }
    assert buf1.channels[channel] == Crossfade(tail, head);
  }

  // ----- the stretcher -----

  /** buffer_copy_part behind the end of its destination. */
  method AppendPart(source: Buffer, from: nat, output: Buffer, outputCursor: nat, numSamples: nat, limit: nat)
    returns (threw: bool)
    requires source != output && source.Stereo() && output.Stereo()
    requires |source.channels[0]| <= limit && outputCursor == |output.channels[0]| <= limit
    modifies source, output
    ensures source.Stereo() && output.Stereo()
    ensures threw <==> from + numSamples > limit || outputCursor + numSamples > limit
    ensures !threw ==>
      && |output.channels[0]| == outputCursor + numSamples
      && forall c :: 0 <= c < 2 ==>
           && source.channels[c] == Grown(old(source.channels[c]), from + numSamples)
           && output.channels[c] == old(output.channels[c]) + source.channels[c][from..from + numSamples]
  {
    ghost var x, y := source.channels, output.channels;
    threw := BufferCopyPart(source, from, output, outputCursor, numSamples, limit);
    if !threw {
      forall c | 0 <= c < 2
        ensures output.channels[c] == y[c] + source.channels[c][from..from + numSamples]
      {
        AppendOver(y[c], source.channels[c][from..from + numSamples]);
      }
    }
  }

  lemma AppendOver(y: seq<real>, part: seq<real>)
    ensures Overwritten(Grown(y, |y| + |part|), |y|, part) == y + part
  {
  }

  /** buffer_copy_part into a new buffer. */
  method CutPart(source: Buffer, from: nat, numSamples: nat, limit: nat) returns (threw: bool, part: Buffer)
    requires source.Stereo() && |source.channels[0]| <= limit
    modifies source
    ensures source.Stereo() && fresh(part) && part.Stereo()
    ensures threw <==> from + numSamples > limit
    ensures !threw ==>
      && |part.channels[0]| == numSamples
      && forall c :: 0 <= c < 2 ==>
           && source.channels[c] == Grown(old(source.channels[c]), from + numSamples)
           && part.channels[c] == source.channels[c][from..from + numSamples]
  {
    part := new Buffer(2);
    threw := AppendPart(source, from, part, 0, numSamples, limit);
  }

  /** The input after the reads of the overlap whose tail starts at `inputCursor`. */
  function Read(x: seq<real>, inputCursor: nat, skip: nat): (y: seq<real>)
    requires skip >= OVERLAP_SIZE
    ensures |y| >= inputCursor + skip && |y| >= inputCursor + OVERLAP_SIZE
    ensures |y| >= |x|
    ensures |x| >= inputCursor + skip ==> y == x
  {
    Grown(Grown(x, inputCursor + OVERLAP_SIZE), inputCursor + skip)
  }

  /** The input after all the reads of the frame at `cursor`. */
  function GrownFor(x: seq<real>, skip: nat, cursor: nat): (y: seq<real>)
    requires skip >= OVERLAP_SIZE
    ensures |y| >= cursor + FRAME_OUTPUT && |y| >= cursor + FLAT_DURATION + skip
    ensures Fits(|x|, skip, cursor) ==> y == x
  {
    Read(Grown(x, cursor + FLAT_DURATION), cursor + FLAT_DURATION, skip)
  }

  /** The overlap of the frame whose flat section ends at `inputCursor`: its tail faded into
  the head of the next frame. */
  method Overlap(input: Buffer, inputCursor: nat, skip: nat, limit: nat) returns (threw: bool, mix: Buffer)
    requires input.Stereo() && skip >= OVERLAP_SIZE && |input.channels[0]| <= limit
    modifies input
    ensures input.Stereo() && fresh(mix) && mix.Stereo()
    ensures threw <==> inputCursor + skip > limit
    ensures !threw ==> |mix.channels[0]| == OVERLAP_SIZE && |input.channels[0]| <= limit
    ensures !threw ==> forall c :: 0 <= c < 2 ==>
      && input.channels[c] == Read(old(input.channels[c]), inputCursor, skip)
      && mix.channels[c] == Overlapped(input.channels[c], skip, inputCursor)
  {
    threw, mix := CutPart(input, inputCursor, OVERLAP_SIZE, limit);
    if threw {
      return;
    }
    var nextFrameHead;
    threw, nextFrameHead := CutPart(input, inputCursor + skip - OVERLAP_SIZE, OVERLAP_SIZE, limit);
    if threw {
      return;
    }
    WindowBuffers(mix, nextFrameHead);
  }

  /** The overlap, behind the end of the output. */
  method AddOverlap(input: Buffer, inputCursor: nat, skip: nat, output: Buffer, outputCursor: nat, limit: nat)
    returns (threw: bool)
    requires input != output && input.Stereo() && output.Stereo() && skip >= OVERLAP_SIZE
    requires |input.channels[0]| <= limit && outputCursor == |output.channels[0]| <= limit
    modifies input, output
    ensures input.Stereo() && output.Stereo()
    ensures threw <==> inputCursor + skip > limit || outputCursor + OVERLAP_SIZE > limit
    ensures !threw ==> |input.channels[0]| <= limit && |output.channels[0]| == outputCursor + OVERLAP_SIZE
    ensures !threw ==> forall c :: 0 <= c < 2 ==>
      && input.channels[c] == Read(old(input.channels[c]), inputCursor, skip)
      && output.channels[c] == old(output.channels[c]) + Overlapped(input.channels[c], skip, inputCursor)
  {
    var mix;
    threw, mix := Overlap(input, inputCursor, skip, limit);
    if threw {
      return;
    }
    ghost var whole := mix.channels;
    threw := AppendPart(mix, 0, output, outputCursor, OVERLAP_SIZE, limit);
    assert whole[0][0..OVERLAP_SIZE] == whole[0] && whole[1][0..OVERLAP_SIZE] == whole[1];
  }

  /** The three pieces of a frame, put behind `y`. */
  lemma FrameMade(x: seq<real>, x1: seq<real>, y: seq<real>, y1: seq<real>, y2: seq<real>, skip: nat, cursor: nat)
    requires skip >= OVERLAP_SIZE
    requires x1 == Grown(x, cursor + FLAT_DURATION) && y1 == y + x1[cursor..cursor + FLAT_DURATION]
    requires y2 == y1 + Overlapped(Read(x1, cursor + FLAT_DURATION, skip), skip, cursor + FLAT_DURATION)
    ensures y2 == y + Frame(GrownFor(x, skip, cursor), skip, cursor)
  {
    var tail, x2 := cursor + FLAT_DURATION, GrownFor(x, skip, cursor);
    assert x1[cursor..tail] == x2[cursor..tail];
    AppendTwo(y, x1[cursor..tail], Overlapped(x2, skip, tail));
  }

  lemma FramesMade(x: seq<seq<real>>, x1: seq<seq<real>>, y: seq<seq<real>>, y1: seq<seq<real>>, y2: seq<seq<real>>,
                   skip: nat, cursor: nat)
    requires |x| == |x1| == |y| == |y1| == |y2| == 2 && skip >= OVERLAP_SIZE
    requires forall c :: 0 <= c < 2 ==>
      x1[c] == Grown(x[c], cursor + FLAT_DURATION) && y1[c] == y[c] + x1[c][cursor..cursor + FLAT_DURATION]
    requires forall c :: 0 <= c < 2 ==>
      y2[c] == y1[c] + Overlapped(Read(x1[c], cursor + FLAT_DURATION, skip), skip, cursor + FLAT_DURATION)
    ensures forall c :: 0 <= c < 2 ==> y2[c] == y[c] + Frame(GrownFor(x[c], skip, cursor), skip, cursor)
  {
    forall c | 0 <= c < 2
      ensures y2[c] == y[c] + Frame(GrownFor(x[c], skip, cursor), skip, cursor)
    {
      FrameMade(x[c], x1[c], y[c], y1[c], y2[c], skip, cursor);
    }
  }

  lemma AppendTwo(y: seq<real>, a: seq<real>, b: seq<real>)
    ensures (y + a) + b == y + (a + b)
  {
  }

  /** The second half of a turn: the flat section is behind `y` already. */
  method FinishFrame(input: Buffer, skip: nat, cursor: nat, output: Buffer, outputCursor: nat, limit: nat,
                     ghost x: seq<seq<real>>, ghost y: seq<seq<real>>)
    returns (threw: bool)
    requires input != output && input.Stereo() && output.Stereo() && skip >= OVERLAP_SIZE
    requires |input.channels[0]| <= limit && outputCursor == |output.channels[0]| <= limit
    requires |x| == |y| == 2 && forall c :: 0 <= c < 2 ==>
      && input.channels[c] == Grown(x[c], cursor + FLAT_DURATION)
      && output.channels[c] == y[c] + input.channels[c][cursor..cursor + FLAT_DURATION]
    modifies input, output
    ensures input.Stereo() && output.Stereo()
    ensures threw <==> cursor + FLAT_DURATION + skip > limit || outputCursor + OVERLAP_SIZE > limit
    ensures !threw ==> |input.channels[0]| <= limit && |output.channels[0]| == outputCursor + OVERLAP_SIZE
    ensures !threw ==> forall c :: 0 <= c < 2 ==>
      && input.channels[c] == GrownFor(x[c], skip, cursor)
      && output.channels[c] == y[c] + Frame(GrownFor(x[c], skip, cursor), skip, cursor)
  {
    ghost var x1, y1 := input.channels, output.channels;
    threw := AddOverlap(input, cursor + FLAT_DURATION, skip, output, outputCursor, limit);
    if !threw {
      FramesMade(x, x1, y, y1, output.channels, skip, cursor);
    }
  }

  /** One turn of the loop of `sola`. */
  method AddFrame(input: Buffer, skip: nat, cursor: nat, output: Buffer, cursorOut: nat, limit: nat)
    returns (threw: bool, inputCursor: nat, outputCursor: nat)
    requires input != output && input.Stereo() && output.Stereo() && skip >= OVERLAP_SIZE
    requires |input.channels[0]| <= limit && cursorOut == |output.channels[0]| <= limit
    modifies input, output
    ensures input.Stereo() && output.Stereo()
    ensures threw <==> cursor + FLAT_DURATION + skip > limit || cursorOut + FRAME_OUTPUT > limit
    ensures !threw ==>
      && inputCursor == cursor + FLAT_DURATION + skip <= |input.channels[0]| <= limit
      && outputCursor == cursorOut + FRAME_OUTPUT == |output.channels[0]|
    ensures !threw ==> forall c :: 0 <= c < 2 ==>
      && input.channels[c] == GrownFor(old(input.channels[c]), skip, cursor)
      && output.channels[c] == old(output.channels[c]) + Frame(GrownFor(old(input.channels[c]), skip, cursor), skip, cursor)
  {
    ghost var x, y := input.channels, output.channels;
    inputCursor, outputCursor := cursor + FLAT_DURATION + skip, cursorOut + FLAT_DURATION;
    threw := AppendPart(input, cursor, output, cursorOut, FLAT_DURATION, limit);
    if threw {
      return;
    }
    threw := FinishFrame(input, skip, cursor, output, outputCursor, limit, x, y);
    outputCursor := outputCursor + OVERLAP_SIZE;
  }

  /** The output so far, followed by what the frames from `cursor` on give, is the whole. */
  predicate SoFar(output: seq<seq<real>>, x: seq<seq<real>>, skip: nat, cursor: nat)
    requires |output| == 2 && |x| == 2 && skip >= OVERLAP_SIZE
  {
    && output[0] + Output(x[0], skip, cursor) == Stretched(x[0], skip)
    && output[1] + Output(x[1], skip, cursor) == Stretched(x[1], skip)
  }

  lemma OutputStep(y: seq<real>, x: seq<real>, skip: nat, cursor: nat)
    requires skip >= OVERLAP_SIZE && Fits(|x|, skip, cursor)
    ensures (y + Frame(x, skip, cursor)) + Output(x, skip, cursor + FLAT_DURATION + skip) == y + Output(x, skip, cursor)
  {
  }

  lemma FrameAdded(y: seq<seq<real>>, z: seq<seq<real>>, x: seq<seq<real>>, skip: nat, cursor: nat)
    requires |y| == |z| == |x| == 2 && skip >= OVERLAP_SIZE && SoFar(y, x, skip, cursor)
    requires forall c :: 0 <= c < 2 ==> Fits(|x[c]|, skip, cursor) && z[c] == y[c] + Frame(x[c], skip, cursor)
    ensures SoFar(z, x, skip, cursor + FLAT_DURATION + skip)
  {
    OutputStep(y[0], x[0], skip, cursor);
    OutputStep(y[1], x[1], skip, cursor);
  }

  /** As long as a frame is entered, it belongs to the whole. */
  lemma RoomForFrame(y: seq<seq<real>>, x: seq<seq<real>>, skip: nat, cursor: nat)
    requires |y| == |x| == 2 && skip >= OVERLAP_SIZE && SoFar(y, x, skip, cursor) && Fits(|x[0]|, skip, cursor)
    ensures |Stretched(x[0], skip)| >= |y[0]| + FRAME_OUTPUT
  {
    OutputStep(y[0], x[0], skip, cursor);
  }

  lemma AllFrames(y: seq<seq<real>>, x: seq<seq<real>>, skip: nat, cursor: nat)
    requires |y| == |x| == 2 && |x[0]| == |x[1]| && skip >= OVERLAP_SIZE && SoFar(y, x, skip, cursor)
    requires !Fits(|x[0]|, skip, cursor)
    ensures forall c :: 0 <= c < 2 ==> y[c] == Stretched(x[c], skip)
  {
    assert y[0] + [] == y[0] && y[1] + [] == y[1];
  }

  /** One turn for an input `x` that is long enough: what is still to come gets shorter by
  the frame that is added, and a frame that does not fit makes the result too long. */
  method AddCountedFrame(input: Buffer, skip: nat, cursor: nat, output: Buffer, cursorOut: nat, limit: nat,
                         ghost x: seq<seq<real>>)
    returns (threw: bool, inputCursor: nat, outputCursor: nat)
    requires input != output && input.Stereo() && output.Stereo() && skip >= OVERLAP_SIZE
    requires |input.channels[0]| <= limit && cursorOut == |output.channels[0]| <= limit
    requires |x| == 2
    requires Fits(|x[0]|, skip, 0) ==>
      input.channels == x && Fits(|x[0]|, skip, cursor) && SoFar(output.channels, x, skip, cursor)
    modifies input, output
    ensures input.Stereo() && output.Stereo()
    ensures !threw ==>
      && inputCursor == cursor + FLAT_DURATION + skip <= |input.channels[0]| <= limit
      && cursorOut < outputCursor == |output.channels[0]| <= limit
    ensures Fits(|x[0]|, skip, 0) ==>
      if threw then |Stretched(x[0], skip)| > limit
      else input.channels == x && SoFar(output.channels, x, skip, inputCursor)
  {
    ghost var y := output.channels;
    threw, inputCursor, outputCursor := AddFrame(input, skip, cursor, output, cursorOut, limit);
    if Fits(|x[0]|, skip, 0) {
      RoomForFrame(y, x, skip, cursor);
      if !threw {
        FrameAdded(y, output.channels, x, skip, cursor);
      }
    }
  }

  /** The loop of `sola`.  Its guard is a subtraction of unsigned numbers.  When the input is
  too short for it the guard holds in every turn, and the buffers grow until one exceeds
  the greatest length of a vector. */
  method OverlapAdd(input: Buffer, frameSkip: nat, limit: nat) returns (threw: bool, output: Buffer)
    requires input.Stereo() && OVERLAP_SIZE <= frameSkip < 0x4000_0000
    requires |input.channels[0]| <= limit <= MAX_VECTOR
    modifies input
    ensures input.Stereo() && fresh(output) && output.Stereo()
    ensures threw <==> !Fits(|old(input.channels[0])|, frameSkip, 0) || |Stretched(old(input.channels[0]), frameSkip)| > limit
    ensures !threw ==> forall c :: 0 <= c < 2 ==>
      input.channels[c] == old(input.channels[c]) && output.channels[c] == Stretched(input.channels[c], frameSkip)
  {
    var numInputSamples := |input.channels[0]|;
    var inputCursor: nat := 0;
    output := new Buffer(2);
    var outputCursor := 0;
    threw := false;
    ghost var x := input.channels;
    ghost var enough := Fits(numInputSamples, frameSkip, 0);
    while inputCursor <= Minus64(numInputSamples, 2 * (frameSkip + OVERLAP_SIZE))
      invariant input.Stereo() && output.Stereo() && output != input && fresh(output)
      invariant outputCursor == |output.channels[0]| <= limit && |input.channels[0]| <= limit
      invariant !enough ==> inputCursor <= limit
      invariant enough ==> input.channels == x && SoFar(output.channels, x, frameSkip, inputCursor)
      decreases limit - outputCursor
    {
      threw, inputCursor, outputCursor :=
        AddCountedFrame(input, frameSkip, inputCursor, output, outputCursor, limit, x);
      if threw {
        return;
      }
    }
    AllFrames(output.channels, x, frameSkip, inputCursor);
  }

  /** Stretches both channels by `timeScale`, in the caller's buffer.  It returns exactly
  when the input is long enough for the first frame and the result is not too long for a
  vector; otherwise it throws. */
  method Sola(input: Buffer, timeScale: real, limit: nat) returns (threw: bool)
    requires input.Stereo() && 0.25 <= timeScale <= 100000.0
    requires |input.channels[0]| <= limit <= MAX_VECTOR
    modifies input
    ensures forall skip: nat | skip >= OVERLAP_SIZE && IsSkip(skip, timeScale) ::
      && (threw <==> |old(input.channels[0])| < 2 * (skip + 800) || |Stretched(old(input.channels[0]), skip)| > limit)
      && (!threw ==>
            && |input.channels| == 2
            && input.channels[0] == Stretched(old(input.channels[0]), skip)
            && input.channels[1] == Stretched(old(input.channels[1]), skip))
  {
    var frameSkip := FrameSkip(timeScale);
    forall skip: nat | IsSkip(skip, timeScale)
      ensures skip == frameSkip
    {
      FrameSkipExact(timeScale, skip);
    }
    var output;
    threw, output := OverlapAdd(input, frameSkip, limit);
    if !threw {
      BufferCopyFull(output, input);
    }
  }
}
