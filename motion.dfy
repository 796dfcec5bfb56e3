/**
  Frame-difference motion estimator of the live preview.

  A sampled frame is the RGBA byte buffer the canvas API hands back for a
  `w` by `h` image: `4 * w * h` bytes, each in 0..255, pixel `p` occupying
  bytes `4p` (red), `4p + 1` (green), `4p + 2` (blue) and `4p + 3` (alpha).
  The estimator sums the absolute red, green and blue differences between the
  current and the previous frame, skips alpha, and divides by the largest
  value that sum can take.
 */
module Motion {
  import opened Options

  /** Resolution of the hidden sampling canvas. */
  const SampleWidth: nat := 64
  const SampleHeight: nat := 48

  /** Largest value of one colour channel. */
  const ChannelMax: nat := 255

  function Abs(x: int): nat {
    if x < 0 then -x else x
  }

  /** Every byte of `f` is a channel value. */
  ghost predicate Bytes(f: seq<int>) {
    forall i | 0 <= i < |f| :: 0 <= f[i] <= 255
  }

  /** `f` is what the canvas returns for a `w` by `h` image. */
  ghost predicate IsFrame(f: seq<int>, w: nat, h: nat) {
    |f| == w * h * 4 && Bytes(f)
  }

  /** `f` is a frame of the sampling canvas. */
  ghost predicate IsSample(f: seq<int>) {
    IsFrame(f, SampleWidth, SampleHeight)
  }

  /** Pixel `p` has the same red, green and blue in `a` and `b` (alpha may differ). */
  ghost predicate SameColour(a: seq<int>, b: seq<int>, p: nat)
    requires |b| == |a| && 4 * p + 4 <= |a|
  {
    a[4 * p] == b[4 * p] && a[4 * p + 1] == b[4 * p + 1] && a[4 * p + 2] == b[4 * p + 2]
  }

  /** Sum of the absolute red, green and blue differences of pixel `p`. */
  function PixelDiff(cur: seq<int>, prev: seq<int>, p: nat): nat
    requires |prev| == |cur| && 4 * p + 4 <= |cur|
  {
    Abs(cur[4 * p] - prev[4 * p]) + Abs(cur[4 * p + 1] - prev[4 * p + 1]) + Abs(cur[4 * p + 2] - prev[4 * p + 2])
  }

  /** Channel-difference sum over the first `n` pixels. */
  function DiffSum(cur: seq<int>, prev: seq<int>, n: nat): nat
    requires |prev| == |cur| && 4 * n <= |cur|
  {
    if n == 0 then 0 else DiffSum(cur, prev, n - 1) + PixelDiff(cur, prev, n - 1)
  }

  /** Normalised difference of two frames of the same `w` by `h` image. */
  function MotionOf(cur: seq<int>, prev: seq<int>, w: nat, h: nat): real
    requires w > 0 && h > 0 && |cur| == w * h * 4 && |prev| == |cur|
  {
    DiffSum(cur, prev, w * h) as real / (w * h * 3 * ChannelMax) as real
  }

  /**
    The value computeMotion returns for a sampled frame: 0 when no previous
    frame is held, the normalised difference otherwise.
   */
  function Estimate(frame: seq<int>, last: Option<seq<int>>): (motion: real)
    requires IsSample(frame)
    requires last.Some? ==> IsSample(last.value)
    ensures 0.0 <= motion <= 1.0
    ensures last.None? ==> motion == 0.0
    ensures last == Some(frame) ==> motion == 0.0
  {
    if last.None? then 0.0
    else
      MotionInUnitInterval(frame, last.value, SampleWidth, SampleHeight);
      IdenticalFramesNoMotion(frame, SampleWidth, SampleHeight);
      MotionOf(frame, last.value, SampleWidth, SampleHeight)
  }

  /** The accumulation loop of computeMotion: stride 4, red, green and blue only. */
  method FrameDiff(data: seq<int>, lastData: seq<int>) returns (diff: nat)
    requires |lastData| == |data| && |data| % 4 == 0
    ensures diff == DiffSum(data, lastData, |data| / 4)
  {
    diff := 0;
    var i := 0;
    while i < |data|
      invariant 0 <= i <= |data| && i % 4 == 0
      invariant diff == DiffSum(data, lastData, i / 4)
    {
      diff := diff + Abs(data[i] - lastData[i]);
      diff := diff + Abs(data[i + 1] - lastData[i + 1]);
      diff := diff + Abs(data[i + 2] - lastData[i + 2]);
      i := i + 4;
    }
  }

  /** One pixel adds at most 3 * 255 to the sum. */
  lemma PixelDiffRange(cur: seq<int>, prev: seq<int>, p: nat)
    requires Bytes(cur) && Bytes(prev)
    requires |prev| == |cur| && 4 * p + 4 <= |cur|
    ensures PixelDiff(cur, prev, p) <= 3 * ChannelMax
  {
    assert 0 <= cur[4 * p] <= 255 && 0 <= prev[4 * p] <= 255;
    assert 0 <= cur[4 * p + 1] <= 255 && 0 <= prev[4 * p + 1] <= 255;
    assert 0 <= cur[4 * p + 2] <= 255 && 0 <= prev[4 * p + 2] <= 255;
  }

  /** Over `n` pixels the sum is at most 3 * 255 * n. */
  lemma {:induction false} DiffSumRange(cur: seq<int>, prev: seq<int>, n: nat)
    requires Bytes(cur) && Bytes(prev)
    requires |prev| == |cur| && 4 * n <= |cur|
    ensures DiffSum(cur, prev, n) <= 3 * ChannelMax * n
  {
    if n > 0 {
      DiffSumRange(cur, prev, n - 1);
      PixelDiffRange(cur, prev, n - 1);
    }
  }

  /** The sum is zero exactly when no pixel changed colour. */
  lemma {:induction false} DiffSumZeroIff(cur: seq<int>, prev: seq<int>, n: nat)
    requires |prev| == |cur| && 4 * n <= |cur|
    ensures DiffSum(cur, prev, n) == 0 <==> forall p | 0 <= p < n :: SameColour(cur, prev, p)
  {
    if n > 0 {
      DiffSumZeroIff(cur, prev, n - 1);
      assert PixelDiff(cur, prev, n - 1) == 0 <==> SameColour(cur, prev, n - 1);
      if forall p | 0 <= p < n - 1 :: SameColour(cur, prev, p) {
        assert (forall p | 0 <= p < n :: SameColour(cur, prev, p)) <==> SameColour(cur, prev, n - 1);
      }
    }
  }

  /** Swapping current and previous frame gives the same sum. */
  lemma {:induction false} DiffSumSymmetric(cur: seq<int>, prev: seq<int>, n: nat)
    requires |prev| == |cur| && 4 * n <= |cur|
    ensures DiffSum(cur, prev, n) == DiffSum(prev, cur, n)
  {
    if n > 0 {
      DiffSumSymmetric(cur, prev, n - 1);
    }
  }

  /** Alpha bytes do not enter the sum. */
  lemma {:induction false} DiffSumIgnoresAlpha(cur: seq<int>, cur': seq<int>, prev: seq<int>, n: nat)
    requires |prev| == |cur| == |cur'| && 4 * n <= |cur|
    requires forall p | 0 <= p < n :: SameColour(cur, cur', p)
    ensures DiffSum(cur, prev, n) == DiffSum(cur', prev, n)
  {
    if n > 0 {
      DiffSumIgnoresAlpha(cur, cur', prev, n - 1);
      assert SameColour(cur, cur', n - 1);
    }
  }

  /** A sum no larger than its bound, divided by that bound, is at most 1. */
  lemma FractionAtMostOne(d: nat, k: nat)
    requires 0 < k && d <= k
    ensures 0.0 <= d as real / k as real <= 1.0
  {
    assert d as real / k as real * k as real == d as real;
  }

  /** For channel values in 0..255 the motion is a fraction in [0, 1]. */
  lemma MotionInUnitInterval(cur: seq<int>, prev: seq<int>, w: nat, h: nat)
    requires w > 0 && h > 0 && IsFrame(cur, w, h) && IsFrame(prev, w, h)
    ensures 0.0 <= MotionOf(cur, prev, w, h) <= 1.0
  {
    var n := w * h;
    DiffSumRange(cur, prev, n);
    assert w * h * 3 * ChannelMax == 3 * ChannelMax * n;
    FractionAtMostOne(DiffSum(cur, prev, n), w * h * 3 * ChannelMax);
  }

  /** Motion is zero exactly when every pixel kept its red, green and blue. */
  lemma MotionZeroIff(cur: seq<int>, prev: seq<int>, w: nat, h: nat)
    requires w > 0 && h > 0 && |cur| == w * h * 4 && |prev| == |cur|
    ensures MotionOf(cur, prev, w, h) == 0.0 <==> forall p | 0 <= p < w * h :: SameColour(cur, prev, p)
  {
    DiffSumZeroIff(cur, prev, w * h);
    var d := DiffSum(cur, prev, w * h) as real;
    var m := (w * h * 3 * ChannelMax) as real;
    assert 0.0 < m;
    assert d / m == 0.0 <==> d == 0.0 by {
      assert d / m * m == d;
    }
  }

  /** Two identical consecutive frames yield motion 0. */
  lemma IdenticalFramesNoMotion(f: seq<int>, w: nat, h: nat)
    requires w > 0 && h > 0 && |f| == w * h * 4
    ensures MotionOf(f, f, w, h) == 0.0
  {
    MotionZeroIff(f, f, w, h);
  }

  /** Motion does not depend on which of the two frames came first. */
  lemma MotionSymmetric(cur: seq<int>, prev: seq<int>, w: nat, h: nat)
    requires w > 0 && h > 0 && |cur| == w * h * 4 && |prev| == |cur|
    ensures MotionOf(cur, prev, w, h) == MotionOf(prev, cur, w, h)
  {
    DiffSumSymmetric(cur, prev, w * h);
  }

  /** Frames that differ only in their alpha bytes yield the same motion. */
  lemma MotionIgnoresAlpha(cur: seq<int>, cur': seq<int>, prev: seq<int>, w: nat, h: nat)
    requires w > 0 && h > 0 && |cur| == w * h * 4 && |cur'| == |cur| && |prev| == |cur|
    requires forall p | 0 <= p < w * h :: SameColour(cur, cur', p)
    ensures MotionOf(cur, prev, w, h) == MotionOf(cur', prev, w, h)
  {
    DiffSumIgnoresAlpha(cur, cur', prev, w * h);
  }
}
