/** What the time stretcher does to a channel, as a whole. */
module StretchTheory {
  import opened Sola

  /** How far the input cursor moves in one frame. */
  function Step(skip: nat): nat {
    FLAT_DURATION + skip
  }

  function Frames(n: nat, skip: nat, cursor: nat): nat
    decreases n - cursor
  {
    if Fits(n, skip, cursor) then 1 + Frames(n, skip, cursor + Step(skip)) else 0
  }

  lemma Multiples(a: nat, b: nat, d: nat)
    ensures a < b ==> (a + 1) * d <= b * d
  {
  }

  lemma QuotientUnique(a: nat, d: nat, q: nat)
    requires d > 0 && q * d <= a < (q + 1) * d
    ensures a / d == q
  {
    Multiples(a / d, q, d);
    Multiples(q, a / d, d);
  }

  lemma QuotientStep(a: nat, d: nat)
    requires d > 0 && a >= d
    ensures a / d == (a - d) / d + 1
  {
    var q := (a - d) / d;
    assert q * d <= a - d < (q + 1) * d;
    assert (q + 1) * d == q * d + d;
    assert (q + 2) * d == q * d + d + d;
    QuotientUnique(a, d, q + 1);
  }

  /** Where the frame comes to stand that is `j` frames after the one at `cursor`. */
  function Base(skip: nat, cursor: nat, j: nat): nat
    decreases j
  {
    if j == 0 then cursor else Base(skip, cursor + Step(skip), j - 1)
  }

  lemma {:induction false} BaseFormula(skip: nat, cursor: nat, j: nat)
    ensures Base(skip, cursor, j) == cursor + j * Step(skip)
    decreases j
  {
    if j > 0 {
      BaseFormula(skip, cursor + Step(skip), j - 1);
      assert (j - 1) * Step(skip) + Step(skip) == j * Step(skip);
    }
  }

  lemma BaseNext(skip: nat, j: nat)
    ensures Base(skip, 0, j + 1) == Base(skip, 0, j) + Step(skip)
  {
    BaseFormula(skip, 0, j);
    BaseFormula(skip, 0, j + 1);
    assert (j + 1) * Step(skip) == j * Step(skip) + Step(skip);
  }

  /** The number of frames in closed form. */
  lemma {:induction false} FrameCount(n: nat, skip: nat, cursor: nat)
    requires Fits(n, skip, cursor)
    ensures Frames(n, skip, cursor) == (n - 2 * (skip + OVERLAP_SIZE) - cursor) / Step(skip) + 1
    decreases n - cursor
  {
    var room := n - 2 * (skip + OVERLAP_SIZE) - cursor;
    if Fits(n, skip, cursor + Step(skip)) {
      FrameCount(n, skip, cursor + Step(skip));
      QuotientStep(room, Step(skip));
    } else {
      QuotientUnique(room, Step(skip), 0);
    }
  }

  /** Exactly the frames counted satisfy the loop guard. */
  lemma {:induction false} FramesFit(n: nat, skip: nat, cursor: nat, j: nat)
    requires j <= Frames(n, skip, cursor)
    ensures j < Frames(n, skip, cursor) <==> Fits(n, skip, Base(skip, cursor, j))
    decreases j
  {
    if j > 0 {
      FramesFit(n, skip, cursor + Step(skip), j - 1);
    }
  }

  /** What the loop leaves unread. */
  lemma UnreadInput(n: nat, skip: nat)
    requires Fits(n, skip, 0)
    ensures var read := Frames(n, skip, 0) * Step(skip);
      skip - OVERLAP_SIZE <= n - read < 2 * skip + 2 * OVERLAP_SIZE
  {
    var k := Frames(n, skip, 0);
    FramesFit(n, skip, 0, k);
    FramesFit(n, skip, 0, k - 1);
    BaseNext(skip, k - 1);
    BaseFormula(skip, 0, k);
  }

  // ----- closed form -----

  /** Sample `p` of the frame that starts at `base`. */
  function SampleOf(x: seq<real>, skip: nat, base: nat, p: nat): real
    requires p < FRAME_OUTPUT && skip >= OVERLAP_SIZE && Fits(|x|, skip, base)
  {
    if p < FLAT_DURATION then x[base + p]
    else
      var s := p - FLAT_DURATION;
      x[base + FLAT_DURATION + s] * ((OVERLAP_SIZE - s) as real / 800.0)
      + x[base + 1600 + skip + s] * (s as real / 800.0)
  }

  lemma FrameSample(x: seq<real>, skip: nat, base: nat, p: nat)
    requires p < FRAME_OUTPUT && skip >= OVERLAP_SIZE && Fits(|x|, skip, base)
    ensures Frame(x, skip, base)[p] == SampleOf(x, skip, base, p)
  {
  }

  lemma {:induction false} OutputSample(x: seq<real>, skip: nat, cursor: nat, j: nat, p: nat)
    requires skip >= OVERLAP_SIZE && j < Frames(|x|, skip, cursor) && p < FRAME_OUTPUT
    ensures Fits(|x|, skip, Base(skip, cursor, j))
    ensures FRAME_OUTPUT * j + p < |Output(x, skip, cursor)|
    ensures Output(x, skip, cursor)[FRAME_OUTPUT * j + p] == Frame(x, skip, Base(skip, cursor, j))[p]
    decreases j
  {
    if j > 0 {
      var next := cursor + Step(skip);
      OutputSample(x, skip, next, j - 1, p);
      assert Output(x, skip, cursor) == Frame(x, skip, cursor) + Output(x, skip, next);
    }
  }

  lemma {:induction false} OutputLength(x: seq<real>, skip: nat, cursor: nat)
    requires skip >= OVERLAP_SIZE
    ensures |Output(x, skip, cursor)| == FRAME_OUTPUT * Frames(|x|, skip, cursor)
    decreases |x| - cursor
  {
    if Fits(|x|, skip, cursor) {
      OutputLength(x, skip, cursor + Step(skip));
    }
  }

  /** Every sample of the result belongs to one frame. */
  lemma SampleInFrame(x: seq<real>, skip: nat, q: nat)
    requires skip >= OVERLAP_SIZE && q < |Stretched(x, skip)|
    ensures var base := Base(skip, 0, q / FRAME_OUTPUT);
      Fits(|x|, skip, base) && Stretched(x, skip)[q] == SampleOf(x, skip, base, q % FRAME_OUTPUT)
  {
    OutputLength(x, skip, 0);
    OutputSample(x, skip, 0, q / FRAME_OUTPUT, q % FRAME_OUTPUT);
    FrameSample(x, skip, Base(skip, 0, q / FRAME_OUTPUT), q % FRAME_OUTPUT);
    assert q == FRAME_OUTPUT * (q / FRAME_OUTPUT) + q % FRAME_OUTPUT;
  }

  /** The length of the result, from the length of the input alone. */
  lemma StretchedLength(x: seq<real>, skip: nat)
    requires skip >= OVERLAP_SIZE && Fits(|x|, skip, 0)
    ensures |Stretched(x, skip)| == FRAME_OUTPUT * ((|x| - 2 * (skip + OVERLAP_SIZE)) / Step(skip) + 1)
  {
    OutputLength(x, skip, 0);
    FrameCount(|x|, skip, 0);
  }

  /** Every sample of the result, from the input alone. */
  lemma ClosedForm(x: seq<real>, skip: nat, j: nat, p: nat)
    requires skip >= OVERLAP_SIZE && p < FRAME_OUTPUT && FRAME_OUTPUT * j + p < |Stretched(x, skip)|
    ensures var base := j * (FLAT_DURATION + skip); var y := Stretched(x, skip)[FRAME_OUTPUT * j + p];
      && base + 2 * (skip + OVERLAP_SIZE) <= |x|
      && (p < FLAT_DURATION ==> y == x[base + p])
      && (p >= FLAT_DURATION ==>
            var s := p - FLAT_DURATION;
            y == x[base + 2400 + s] * ((800 - s) as real / 800.0) + x[base + 1600 + skip + s] * (s as real / 800.0))
  {
    hide Stretched;
    FrameOfSample(j, p);
    ClosedAt(x, skip, FRAME_OUTPUT * j + p, j, p, j * (FLAT_DURATION + skip));
  }

  lemma ClosedAt(x: seq<real>, skip: nat, q: nat, j: nat, p: nat, base: nat)
    requires skip >= OVERLAP_SIZE && q < |Stretched(x, skip)|
    requires j == q / FRAME_OUTPUT && p == q % FRAME_OUTPUT && base == j * (FLAT_DURATION + skip)
    ensures base + 2 * (skip + OVERLAP_SIZE) <= |x|
    ensures Stretched(x, skip)[q] ==
      if p < FLAT_DURATION then x[base + p]
      else
        var s := p - FLAT_DURATION;
        x[base + 2400 + s] * ((800 - s) as real / 800.0) + x[base + 1600 + skip + s] * (s as real / 800.0)
  {
    hide Stretched, SampleOf, Base;
    SampleInFrame(x, skip, q);
    BaseFormula(skip, 0, j);
    SampleClosed(x, skip, base, p);
  }

  lemma SampleClosed(x: seq<real>, skip: nat, base: nat, p: nat)
    requires p < FRAME_OUTPUT && skip >= OVERLAP_SIZE && Fits(|x|, skip, base)
    ensures SampleOf(x, skip, base, p) ==
      if p < FLAT_DURATION then x[base + p]
      else
        var s := p - FLAT_DURATION;
        x[base + 2400 + s] * ((800 - s) as real / 800.0) + x[base + 1600 + skip + s] * (s as real / 800.0)
  {
  }

  lemma FrameOfSample(j: nat, p: nat)
    requires p < FRAME_OUTPUT
    ensures (FRAME_OUTPUT * j + p) / FRAME_OUTPUT == j && (FRAME_OUTPUT * j + p) % FRAME_OUTPUT == p
  {
  }

  // ----- no clicks -----

  predicate Loud(x: seq<real>, m: real) {
    forall i :: 0 <= i < |x| ==> -m <= x[i] <= m
  }

  predicate Near(u: real, v: real, d: real) {
    -d <= v - u <= d
  }

  predicate Smooth(x: seq<real>, d: real) {
    forall i :: 0 <= i < |x| - 1 ==> Near(x[i], x[i + 1], d)
  }

  const WEIGHT: real := 1.0 / 800.0

  lemma Distribute(a: real, b: real, c: real)
    ensures a * (b + c) == a * b + a * c
    ensures (b - c) * a == b * a - c * a
  {
  }

  lemma FadeDifference(t0: real, t1: real, h0: real, h1: real, w: real, v: real)
    ensures t1 * w + h1 * v - (t0 * (w + WEIGHT) + h0 * (v - WEIGHT))
         == (t1 - t0) * w + (h1 - h0) * v + (h0 - t0) / 800.0
  {
    Distribute(t0, w, WEIGHT);
    Distribute(h0, v - WEIGHT, WEIGHT);
    Distribute(w, t1, t0);
    Distribute(v, h1, h0);
    assert t0 * WEIGHT == t0 / 800.0 && h0 * WEIGHT == h0 / 800.0;
  }

  /** Two adjacent samples of one crossfade, the weights having moved by 1/800. */
  lemma FadeStep(t0: real, t1: real, h0: real, h1: real, w: real, v: real, m: real, d: real)
    requires w >= 0.0 && v >= WEIGHT && w + v == 1.0
    requires Near(t0, t1, d) && Near(h0, h1, d) && -m <= t0 <= m && -m <= h0 <= m
    ensures Near(t0 * (w + WEIGHT) + h0 * (v - WEIGHT), t1 * w + h1 * v, d + m / 400.0)
  {
    FadeDifference(t0, t1, h0, h1, w, v);
    Weighted(t1 - t0, h1 - h0, d, w, v);
    var before, after := t0 * (w + WEIGHT) + h0 * (v - WEIGHT), t1 * w + h1 * v;
    var common := (t1 - t0) * w + (h1 - h0) * v;
    assert after - before == common + (h0 - t0) / 800.0;
    assert -d <= common <= d;
  }

  lemma Share(d: real, w: real, v: real)
    requires w + v == 1.0
    ensures d * w + d * v == d
  {
    assert d * v == d * (1.0 - w);
  }

  /** A weighted mean of two numbers is between their common bounds. */
  lemma Weighted(a: real, b: real, d: real, w: real, v: real)
    requires -d <= a <= d && -d <= b <= d && w >= 0.0 && v >= 0.0 && w + v == 1.0
    ensures -d <= a * w + b * v <= d
  {
    Scaled(a, d, w);
    Scaled(b, d, v);
    Share(d, w, v);
    SumWithin(a * w, d * w, b * v, d * v, d);
  }

  lemma SumWithin(x: real, p: real, y: real, q: real, d: real)
    requires 0.0 <= p + x && x <= p && 0.0 <= q + y && y <= q && p + q == d
    ensures -d <= x + y <= d
  {
  }

  lemma Scaled(e: real, d: real, w: real)
    requires -d <= e <= d && w >= 0.0
    ensures 0.0 <= d * w + e * w && e * w <= d * w
  {
    assert (d - e) * w >= 0.0;
    assert (d + e) * w >= 0.0;
  }

  lemma WeightsMove(s: nat)
    requires s + 1 < OVERLAP_SIZE
    ensures (OVERLAP_SIZE - s) as real / 800.0 == (OVERLAP_SIZE - (s + 1)) as real / 800.0 + WEIGHT
    ensures s as real / 800.0 == (s + 1) as real / 800.0 - WEIGHT
    ensures (OVERLAP_SIZE - (s + 1)) as real / 800.0 + (s + 1) as real / 800.0 == 1.0
  {
  }

  /** A weighted sum of a sample of a tail and one of a head. */
  function Mix(t: real, h: real, w: real, v: real): real {
    t * w + h * v
  }

  lemma MixStep(t0: real, t1: real, h0: real, h1: real, w: real, v: real, m: real, d: real)
    requires w >= 0.0 && v >= WEIGHT && w + v == 1.0
    requires Near(t0, t1, d) && Near(h0, h1, d) && -m <= t0 <= m && -m <= h0 <= m
    ensures Near(Mix(t0, h0, w + WEIGHT, v - WEIGHT), Mix(t1, h1, w, v), d + m / 400.0)
  {
    FadeStep(t0, t1, h0, h1, w, v, m, d);
  }

  lemma MixedSample(x: seq<real>, skip: nat, base: nat, s: nat)
    requires skip >= OVERLAP_SIZE && Fits(|x|, skip, base) && s < OVERLAP_SIZE
    ensures SampleOf(x, skip, base, FLAT_DURATION + s)
         == Mix(x[base + FLAT_DURATION + s], x[base + 1600 + skip + s], (OVERLAP_SIZE - s) as real / 800.0, s as real / 800.0)
  {
  }

  /** Neighbours in one crossfade. */
  lemma FadeNear(x: seq<real>, skip: nat, base: nat, s: nat, m: real, d: real)
    requires skip >= OVERLAP_SIZE && Fits(|x|, skip, base) && s + 1 < OVERLAP_SIZE
    requires Loud(x, m) && Smooth(x, d)
    ensures Near(SampleOf(x, skip, base, FLAT_DURATION + s), SampleOf(x, skip, base, FLAT_DURATION + s + 1), d + m / 400.0)
  {
    hide SampleOf, Mix;
    var t, h := base + FLAT_DURATION + s, base + 1600 + skip + s;
    assert Near(x[t], x[t + 1], d) && Near(x[h], x[h + 1], d);
    var w, v := (OVERLAP_SIZE - (s + 1)) as real / 800.0, (s + 1) as real / 800.0;
    WeightsMove(s);
    MixStep(x[t], x[t + 1], x[h], x[h + 1], w, v, m, d);
    MixedSample(x, skip, base, s);
    MixedSample(x, skip, base, s + 1);
  }

  /** Neighbours in one frame: in its flat section, across its inner seam, or in its
  crossfade. */
  lemma AdjacentNear(x: seq<real>, skip: nat, base: nat, p: nat, m: real, d: real)
    requires skip >= OVERLAP_SIZE && Fits(|x|, skip, base) && p + 1 < FRAME_OUTPUT
    requires Loud(x, m) && Smooth(x, d) && m >= 0.0
    ensures Near(SampleOf(x, skip, base, p), SampleOf(x, skip, base, p + 1), d + m / 400.0)
  {
    if p >= FLAT_DURATION {
      FadeNear(x, skip, base, p - FLAT_DURATION, m, d);
    } else {
      assert Near(x[base + p], x[base + p + 1], d);
      assert SampleOf(x, skip, base, p + 1) == x[base + p + 1];
    }
  }

  lemma SeamNear(x: seq<real>, skip: nat, base: nat, m: real, d: real)
    requires skip >= OVERLAP_SIZE && Fits(|x|, skip, base) && Fits(|x|, skip, base + Step(skip))
    requires Loud(x, m) && Smooth(x, d)
    ensures Near(SampleOf(x, skip, base, FRAME_OUTPUT - 1), SampleOf(x, skip, base + Step(skip), 0), d + m / 400.0)
  {
    var t, h := base + 3199, base + 2399 + skip;
    assert -m <= x[t] <= m && -m <= x[h] <= m;
    assert Near(x[h], x[h + 1], d);
    assert SampleOf(x, skip, base, FRAME_OUTPUT - 1) == x[t] * (1.0 / 800.0) + x[h] * (799.0 / 800.0);
    assert x[h] * (799.0 / 800.0) == x[h] - x[h] * (1.0 / 800.0);
  }

  /** Output samples `q` and `q + 1`. */
  lemma NeighboursNear(x: seq<real>, skip: nat, q: nat, m: real, d: real)
    requires skip >= OVERLAP_SIZE && q + 1 < |Stretched(x, skip)|
    requires Loud(x, m) && Smooth(x, d)
    ensures Near(Stretched(x, skip)[q], Stretched(x, skip)[q + 1], d + m / 400.0)
  {
    var j, p := q / FRAME_OUTPUT, q % FRAME_OUTPUT;
    SampleInFrame(x, skip, q);
    SampleInFrame(x, skip, q + 1);
    assert m >= 0.0 by {
      assert -m <= x[0] <= m;
    }
    if p + 1 < FRAME_OUTPUT {
      assert (q + 1) / FRAME_OUTPUT == j && (q + 1) % FRAME_OUTPUT == p + 1;
      AdjacentNear(x, skip, Base(skip, 0, j), p, m, d);
    } else {
      assert (q + 1) / FRAME_OUTPUT == j + 1 && (q + 1) % FRAME_OUTPUT == 0;
      BaseNext(skip, j);
      SeamNear(x, skip, Base(skip, 0, j), m, d);
    }
  }

  /** No click anywhere in the result. */
  lemma NoClick(x: seq<real>, skip: nat, m: real, d: real)
    requires skip >= OVERLAP_SIZE && Loud(x, m) && Smooth(x, d)
    ensures Smooth(Stretched(x, skip), d + m / 400.0)
  {
    forall q | 0 <= q < |Stretched(x, skip)| - 1
      ensures Near(Stretched(x, skip)[q], Stretched(x, skip)[q + 1], d + m / 400.0)
    {
      NeighboursNear(x, skip, q, m, d);
    }
  }

  // ----- linearity -----

  function Mixed(a: real, x: seq<real>, b: real, y: seq<real>): (z: seq<real>)
    requires |x| == |y|
    ensures |z| == |x|
  {
    seq(|x|, i requires 0 <= i < |x| => a * x[i] + b * y[i])
  }

  lemma FadeLinear(a: real, x1: real, x2: real, b: real, y1: real, y2: real, w: real, v: real)
    ensures (a * x1 + b * y1) * w + (a * x2 + b * y2) * v == a * (x1 * w + x2 * v) + b * (y1 * w + y2 * v)
  {
  }

  lemma SampleLinear(a: real, x: seq<real>, b: real, y: seq<real>, skip: nat, base: nat, p: nat)
    requires |x| == |y| && p < FRAME_OUTPUT && skip >= OVERLAP_SIZE && Fits(|x|, skip, base)
    ensures SampleOf(Mixed(a, x, b, y), skip, base, p) == a * SampleOf(x, skip, base, p) + b * SampleOf(y, skip, base, p)
  {
    if p >= FLAT_DURATION {
      var s := p - FLAT_DURATION;
      var t, h := base + FLAT_DURATION + s, base + 1600 + skip + s;
      FadeLinear(a, x[t], x[h], b, y[t], y[h], (OVERLAP_SIZE - s) as real / 800.0, s as real / 800.0);
    }
  }

  lemma FrameLinear(a: real, x: seq<real>, b: real, y: seq<real>, skip: nat, base: nat)
    requires |x| == |y| && skip >= OVERLAP_SIZE && Fits(|x|, skip, base)
    ensures Frame(Mixed(a, x, b, y), skip, base) == Mixed(a, Frame(x, skip, base), b, Frame(y, skip, base))
  {
    hide Frame, SampleOf;
    var fx, fy, fz := Frame(x, skip, base), Frame(y, skip, base), Frame(Mixed(a, x, b, y), skip, base);
    forall p | 0 <= p < FRAME_OUTPUT
      ensures fz[p] == Mixed(a, fx, b, fy)[p]
    {
      FrameSample(x, skip, base, p);
      FrameSample(y, skip, base, p);
      FrameSample(Mixed(a, x, b, y), skip, base, p);
      SampleLinear(a, x, b, y, skip, base, p);
    }
  }

  lemma MixedConcat(a: real, x1: seq<real>, x2: seq<real>, b: real, y1: seq<real>, y2: seq<real>)
    requires |x1| == |y1| && |x2| == |y2|
    ensures Mixed(a, x1 + x2, b, y1 + y2) == Mixed(a, x1, b, y1) + Mixed(a, x2, b, y2)
  {
    var x, y, split := x1 + x2, y1 + y2, Mixed(a, x1, b, y1) + Mixed(a, x2, b, y2);
    forall i | 0 <= i < |x|
      ensures Mixed(a, x, b, y)[i] == split[i]
    {
      if i < |x1| {
        assert x[i] == x1[i] && y[i] == y1[i];
      } else {
        assert x[i] == x2[i - |x1|] && y[i] == y2[i - |x1|];
      }
    }
  }

  lemma {:induction false} OutputLinear(a: real, x: seq<real>, b: real, y: seq<real>, skip: nat, cursor: nat)
    requires |x| == |y| && skip >= OVERLAP_SIZE
    ensures |Output(x, skip, cursor)| == |Output(y, skip, cursor)|
    ensures Output(Mixed(a, x, b, y), skip, cursor) == Mixed(a, Output(x, skip, cursor), b, Output(y, skip, cursor))
    decreases |x| - cursor
  {
    if Fits(|x|, skip, cursor) {
      var next := cursor + Step(skip);
      OutputLinear(a, x, b, y, skip, next);
      FrameLinear(a, x, b, y, skip, cursor);
      MixedConcat(a, Frame(x, skip, cursor), Output(x, skip, next), b, Frame(y, skip, cursor), Output(y, skip, next));
    }
  }

  /** Stretching a weighted sum of two recordings is the weighted sum of the stretched
  recordings. */
  lemma StretchLinear(a: real, x: seq<real>, b: real, y: seq<real>, skip: nat)
    requires |x| == |y| && skip >= OVERLAP_SIZE
    ensures |Stretched(x, skip)| == |Stretched(y, skip)|
    ensures Stretched(Mixed(a, x, b, y), skip) == Mixed(a, Stretched(x, skip), b, Stretched(y, skip))
  {
    OutputLinear(a, x, b, y, skip, 0);
  }

  // ----- range -----

  predicate Within(x: seq<real>, lo: real, hi: real) {
    forall i :: 0 <= i < |x| ==> lo <= x[i] <= hi
  }

  lemma FadeWithin(t: real, h: real, w: real, v: real, lo: real, hi: real)
    requires lo <= t <= hi && lo <= h <= hi && w >= 0.0 && v >= 0.0 && w + v == 1.0
    ensures lo <= t * w + h * v <= hi
  {
    var mid, radius := (lo + hi) / 2.0, (hi - lo) / 2.0;
    Weighted(t - mid, h - mid, radius, w, v);
    Share(mid, w, v);
    Distribute(w, t, mid);
    Distribute(v, h, mid);
  }

  lemma SampleWithin(x: seq<real>, skip: nat, base: nat, p: nat, lo: real, hi: real)
    requires p < FRAME_OUTPUT && skip >= OVERLAP_SIZE && Fits(|x|, skip, base) && Within(x, lo, hi)
    ensures lo <= SampleOf(x, skip, base, p) <= hi
  {
    if p >= FLAT_DURATION {
      var s := p - FLAT_DURATION;
      var t, h := base + FLAT_DURATION + s, base + 1600 + skip + s;
      FadeWithin(x[t], x[h], (OVERLAP_SIZE - s) as real / 800.0, s as real / 800.0, lo, hi);
    }
  }

  /** The result never leaves the range of the input. */
  lemma StretchWithin(x: seq<real>, skip: nat, lo: real, hi: real)
    requires skip >= OVERLAP_SIZE && Within(x, lo, hi)
    ensures Within(Stretched(x, skip), lo, hi)
  {
    forall q | 0 <= q < |Stretched(x, skip)|
      ensures lo <= Stretched(x, skip)[q] <= hi
    {
      SampleInFrame(x, skip, q);
      SampleWithin(x, skip, Base(skip, 0, q / FRAME_OUTPUT), q % FRAME_OUTPUT, lo, hi);
    }
  }

  // ----- the neutral ratio -----

  lemma SampleNeutral(x: seq<real>, base: nat, p: nat)
    requires p < FRAME_OUTPUT && Fits(|x|, OVERLAP_SIZE, base)
    ensures SampleOf(x, OVERLAP_SIZE, base, p) == x[base + p]
  {
    if p >= FLAT_DURATION {
      var s := p - FLAT_DURATION;
      Share(x[base + p], (OVERLAP_SIZE - s) as real / 800.0, s as real / 800.0);
    }
  }

  lemma NeutralAt(x: seq<real>, q: nat)
    requires q < |Stretched(x, OVERLAP_SIZE)|
    ensures q < |x| && Stretched(x, OVERLAP_SIZE)[q] == x[q]
  {
    var j, p := q / FRAME_OUTPUT, q % FRAME_OUTPUT;
    SampleInFrame(x, OVERLAP_SIZE, q);
    BaseFormula(OVERLAP_SIZE, 0, j);
    assert Base(OVERLAP_SIZE, 0, j) + p == q;
    SampleNeutral(x, Base(OVERLAP_SIZE, 0, j), p);
  }

  /** When the frames are as far apart as the overlap is long, the result is the beginning
  of the input. */
  lemma StretchNeutral(x: seq<real>)
    ensures Stretched(x, OVERLAP_SIZE) <= x
  {
    var y := Stretched(x, OVERLAP_SIZE);
    if y != [] {
      NeutralAt(x, |y| - 1);
    }
    forall q | 0 <= q < |y|
      ensures y[q] == x[q]
    {
      NeutralAt(x, q);
    }
  }

  // ----- more input -----

  /** More input only adds to the end of the result. */
  lemma {:induction false} OutputStable(x: seq<real>, z: seq<real>, skip: nat, cursor: nat)
    requires skip >= OVERLAP_SIZE
    ensures Output(x, skip, cursor) <= Output(x + z, skip, cursor)
    decreases |x| - cursor
  {
    if Fits(|x|, skip, cursor) {
      var next := cursor + Step(skip);
      OutputStable(x, z, skip, next);
      FrameStable(x, z, skip, cursor);
      PrefixConcat(Frame(x, skip, cursor), Output(x, skip, next), Output(x + z, skip, next));
    }
  }

  lemma FrameStable(x: seq<real>, z: seq<real>, skip: nat, cursor: nat)
    requires skip >= OVERLAP_SIZE && Fits(|x|, skip, cursor)
    ensures Frame(x + z, skip, cursor) == Frame(x, skip, cursor)
  {
    forall p | 0 <= p < FRAME_OUTPUT
      ensures Frame(x + z, skip, cursor)[p] == Frame(x, skip, cursor)[p]
    {
      FrameSample(x, skip, cursor, p);
      FrameSample(x + z, skip, cursor, p);
    }
  }

  lemma PrefixConcat(a: seq<real>, b: seq<real>, c: seq<real>)
    requires b <= c
    ensures a + b <= a + c
  {
  }

  lemma StretchStable(x: seq<real>, z: seq<real>, skip: nat)
    requires skip >= OVERLAP_SIZE
    ensures Stretched(x, skip) <= Stretched(x + z, skip)
  {
    OutputStable(x, z, skip, 0);
  }

  // ----- when the loop stays inside the input -----

  /** The loop guard as the machine evaluates it. */
  predicate Guard(n: nat, skip: nat, cursor: nat) {
    cursor <= Minus64(n, 2 * (skip + OVERLAP_SIZE))
  }

  /** Every frame the loop enters reads inside the input, exactly when the input is long
  enough for the subtraction in the guard not to wrap around. */
  lemma ReadsInsideExactly(n: nat, skip: nat)
    requires OVERLAP_SIZE <= skip < 0x4000_0000 && n < 0x8000_0000_0000_0000
    ensures (forall j: nat :: Guard(n, skip, Base(skip, 0, j)) ==> Base(skip, 0, j) + FLAT_DURATION + skip <= n)
       <==> 2 * (skip + OVERLAP_SIZE) <= n
  {
    if 2 * (skip + OVERLAP_SIZE) > n {
      var j := n / Step(skip);
      BaseFormula(skip, 0, j);
      assert j * Step(skip) <= n < j * Step(skip) + Step(skip);
      assert Guard(n, skip, Base(skip, 0, j));
    }
  }

  // ----- a whole request -----

  /** `y` is what `x` becomes with a frame skip of `skip`: its length, and each of its samples
  from one or two of `x`. */
  predicate Stretches(x: seq<real>, y: seq<real>, skip: nat)
    requires skip >= 800 && 2 * (skip + 800) <= |x|
  {
    && |y| == 3200 * ((|x| - 2 * (skip + 800)) / (2400 + skip) + 1)
    && forall q :: 0 <= q < |y| ==> SampleAt(x, y[q], skip, (q / 3200) * (2400 + skip), q % 3200)
  }

  /** `v` is what position `p` of the frame at `base` is to be. */
  predicate SampleAt(x: seq<real>, v: real, skip: nat, base: nat, p: nat)
    requires skip >= 800 && p < 3200
  {
    && base + 2 * (skip + 800) <= |x|
    && v == if p < 2400 then x[base + p]
            else
              var s := p - 2400;
              Mix(x[base + 2400 + s], x[base + 1600 + skip + s], (800 - s) as real / 800.0, s as real / 800.0)
  }

  lemma StretchedStretches(x: seq<real>, skip: nat)
    requires skip >= OVERLAP_SIZE && 2 * (skip + OVERLAP_SIZE) <= |x|
    ensures Stretches(x, Stretched(x, skip), skip)
  {
    hide Stretched, SampleAt;
    StretchedLength(x, skip);
    var y := Stretched(x, skip);
    forall q | 0 <= q < |y|
      ensures SampleAt(x, y[q], skip, (q / 3200) * (2400 + skip), q % 3200)
    {
      StretchedSample(x, skip, q, q / 3200, q % 3200, (q / 3200) * (2400 + skip));
    }
  }

  lemma StretchedSample(x: seq<real>, skip: nat, q: nat, j: nat, p: nat, base: nat)
    requires skip >= OVERLAP_SIZE && q < |Stretched(x, skip)|
    requires j == q / FRAME_OUTPUT && p == q % FRAME_OUTPUT && base == j * (FLAT_DURATION + skip)
    ensures SampleAt(x, Stretched(x, skip)[q], skip, base, p)
  {
    hide Stretched, SampleAt, SampleOf, Base;
    SampleInFrame(x, skip, q);
    BaseFormula(skip, 0, j);
    SampleThere(x, skip, base, p);
  }

  lemma SampleThere(x: seq<real>, skip: nat, base: nat, p: nat)
    requires p < FRAME_OUTPUT && skip >= OVERLAP_SIZE && Fits(|x|, skip, base)
    ensures SampleAt(x, SampleOf(x, skip, base, p), skip, base, p)
  {
    if p < FLAT_DURATION {
    } else {
      hide SampleOf, Mix;
      MixedSample(x, skip, base, p - FLAT_DURATION);
    }
  }

  /** What `main` does with a ratio and a buffer it has received, from these alone: the ratio
  is limited to 0.5 to 2, both channels become what they are stretched by that, and the
  call throws exactly when they are too short for one frame or the result too long. */
  method StretchRequest(buffer: Buffer, ratio: real, limit: nat) returns (threw: bool, ghost skip: nat)
    requires buffer.Stereo() && |buffer.channels[0]| <= limit <= MAX_VECTOR
    modifies buffer
    ensures if ratio <= 0.5 then skip == 1600 else if ratio >= 2.0 then skip == 6400
            else skip as real <= 3200.0 * ratio < (skip + 1) as real
    ensures skip >= 800
    ensures var n := |old(buffer.channels[0])|;
      threw <==> n < 2 * (skip + 800) || 3200 * ((n - 2 * (skip + 800)) / (2400 + skip) + 1) > limit
    ensures !threw ==>
      && |buffer.channels| == 2
      && Stretches(old(buffer.channels[0]), buffer.channels[0], skip)
      && Stretches(old(buffer.channels[1]), buffer.channels[1], skip)
  {
    ghost var x := buffer.channels;
    ClampedSkip(ratio);
    skip := FrameSkip(Clamped(ratio));
    FrameSkipExact(Clamped(ratio), skip);
    threw := Sola.Sola(buffer, Clamped(ratio), limit);
    if 2 * (skip + OVERLAP_SIZE) <= |x[0]| {
      StretchedStretches(x[0], skip);
      StretchedStretches(x[1], skip);
    }
  }
}
