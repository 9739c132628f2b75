/** A two-channel buffer of samples and its reversal. */
module Audio {
  import opened Wire
  import opened Framing

  datatype Side = Left | Right

  datatype Audio = Audio(left: seq<Sample>, right: seq<Sample>) {
    function Channel(side: Side): seq<Sample> {
      if side == Left then left else right
    }

    function With(side: Side, ch: seq<Sample>): Audio {
      if side == Left then this.(left := ch) else this.(right := ch)
    }

    predicate NonEmpty() {
      left != [] && right != []
    }

    /** Both channels are announced completely by the chunk framing. */
    predicate IsFramed() {
      Framed(left) && Framed(right)
    }
  }

  const SILENCE := Audio([], [])

  function Reversed<T>(xs: seq<T>): (r: seq<T>)
    ensures |r| == |xs|
  {
    seq(|xs|, i requires 0 <= i < |xs| => xs[|xs| - 1 - i])
  }

  function ReversedAudio(a: Audio): Audio {
    Audio(Reversed(a.left), Reversed(a.right))
  }

  /** The audio after `k` reversals. */
  function ReversedTimes(a: Audio, k: nat): Audio {
    if k == 0 then a else ReversedAudio(ReversedTimes(a, k - 1))
  }

  lemma ReversedTwice<T>(xs: seq<T>)
    ensures Reversed(Reversed(xs)) == xs
  {
    var r := Reversed(xs);
    forall i | 0 <= i < |xs|
      ensures Reversed(r)[i] == xs[i]
    {
      assert r[|xs| - 1 - i] == xs[i];
    }
  }

  /** An even number of reversals restores the audio; an odd number is one reversal. */
  lemma {:induction false} ReversedTimesParity(a: Audio, k: nat)
    ensures ReversedTimes(a, k) == if k % 2 == 0 then a else ReversedAudio(a)
  {
    if k > 0 {
      ReversedTimesParity(a, k - 1);
      ReversedTwice(a.left);
      ReversedTwice(a.right);
    }
  }

  lemma ReversedKeepsLengths(a: Audio)
    ensures |ReversedAudio(a).left| == |a.left| && |ReversedAudio(a).right| == |a.right|
    ensures ReversedAudio(a).NonEmpty() <==> a.NonEmpty()
    ensures ReversedAudio(a).IsFramed() <==> a.IsFramed()
  {
  }
}
