/**
  The per-tick signal of the live preview: exponential smoothing of the raw
  motion, the two-state mood derived from it, and the warp amplitude of the
  mesh overlay. Numbers are exact reals, not IEEE doubles.
 */
module Signal {

  /** Weight of the previous smoothed value and of the new raw sample. */
  const Keep: real := 0.85
  const Take: real := 0.15

  /** The mood is happy strictly above this smoothed motion. */
  const HappyThreshold: real := 0.02

  /** Phase advance of the mesh per tick (frame-cadence, not wall-clock). */
  const PhaseStep: real := 0.02

  /** Warp amplitude is `WarpBase + smoothed * WarpScale`. */
  const WarpBase: real := 10.0
  const WarpScale: real := 60.0

  datatype Mood = Happy | Sad

  /** One smoothing step: the result always lies between the old value and the sample. */
  function Smooth(s: real, m: real): (r: real)
    ensures s <= m ==> s <= r <= m
    ensures m <= s ==> m <= r <= s
  {
    s * Keep + m * Take
  }

  /** The smoothed value after `n` ticks that all observe raw motion `m`. */
  function SmoothFrom(s: real, m: real, n: nat): real {
    if n == 0 then s else Smooth(SmoothFrom(s, m, n - 1), m)
  }

  function Pow(x: real, n: nat): real {
    if n == 0 then 1.0 else x * Pow(x, n - 1)
  }

  function AbsReal(x: real): real {
    if x < 0.0 then -x else x
  }

  /** Mood shown for a smoothed value. */
  function MoodOf(s: real): (m: Mood)
    ensures m == Happy <==> s > HappyThreshold
    ensures s <= 0.0 ==> m == Sad
  {
    if s > HappyThreshold then Happy else Sad
  }

  /** Value written to the face's data-mood attribute. */
  function MoodName(m: Mood): string {
    match m
    case Happy => "happy"
    case Sad => "sad"
  }

  /** Text of the mood label: the name "happy" reads Feliz, any other Triste. */
  function MoodLabel(m: Mood): (text: string)
    ensures text == "Feliz" <==> m == Happy
    ensures text == "Triste" <==> m == Sad
  {
    if MoodName(m) == "happy" then "Feliz" else "Triste"
  }

  /** Warp amplitude of the mesh for a smoothed value. */
  function Warp(s: real): (r: real)
    ensures 0.0 <= s <= 1.0 ==> WarpBase <= r <= WarpBase + WarpScale
  {
    WarpBase + s * WarpScale
  }

  /** The label tells the two moods apart, and reads Feliz exactly above the threshold. */
  lemma LabelShowsMood(s: real)
    ensures MoodLabel(MoodOf(s)) == "Feliz" <==> s > HappyThreshold
    ensures MoodLabel(MoodOf(s)) == "Triste" <==> s <= HappyThreshold
    ensures MoodOf(HappyThreshold) == Sad
  {
  }

  /** After `n` ticks the distance to the sample has shrunk by the factor 0.85^n. */
  lemma {:induction false} SmoothFromGap(s: real, m: real, n: nat)
    ensures SmoothFrom(s, m, n) - m == Pow(Keep, n) * (s - m)
  {
    if n > 0 {
      SmoothFromGap(s, m, n - 1);
      var r := SmoothFrom(s, m, n - 1);
      assert Smooth(r, m) - m == Keep * (r - m);
      assert Keep * (Pow(Keep, n - 1) * (s - m)) == (Keep * Pow(Keep, n - 1)) * (s - m);
    }
  }

  /** 0.85^n is positive, at most 1, and at most 1 / (1 + 0.15 n). */
  lemma {:induction false} KeepPowerBound(n: nat)
    ensures 0.0 < Pow(Keep, n) <= 1.0
    ensures Pow(Keep, n) * (1.0 + Take * n as real) <= 1.0
  {
    if n > 0 {
      KeepPowerBound(n - 1);
      var p := Pow(Keep, n - 1);
      var q := p * (1.0 + Take * (n - 1) as real);
      assert Pow(Keep, n) == Keep * p;
      assert Keep * p * (1.0 + Take * n as real) == Keep * q + Keep * Take * p;
    }
  }

  /** Repeated smoothing never leaves the interval between the start value and the sample. */
  lemma {:induction false} SmoothFromBetween(s: real, m: real, n: nat)
    ensures s <= m ==> s <= SmoothFrom(s, m, n) <= m
    ensures m <= s ==> m <= SmoothFrom(s, m, n) <= s
  {
    if n > 0 {
      SmoothFromBetween(s, m, n - 1);
    }
  }

  /**
    Repeated smoothing moves monotonically toward the sample: with raw motion 1
    it never decreases and never exceeds 1, with raw motion 0 it never
    increases and never goes below 0.
   */
  lemma SmoothFromMonotone(s: real, m: real, n: nat)
    ensures s <= m ==> SmoothFrom(s, m, n) <= SmoothFrom(s, m, n + 1) <= m
    ensures m <= s ==> m <= SmoothFrom(s, m, n + 1) <= SmoothFrom(s, m, n)
  {
    SmoothFromBetween(s, m, n);
  }

  /** Scaling by a positive factor scales the distance. */
  lemma AbsScaled(p: real, d: real)
    requires p > 0.0
    ensures AbsReal(p * d) == p * AbsReal(d)
  {
    if d < 0.0 {
      assert p * (-d) > 0.0;
      assert p * d == -(p * (-d));
    } else {
      assert p * d >= 0.0;
    }
  }

  /** A number of ticks `n` with `g <= eps * 0.15 * n`. */
  lemma TicksFor(g: real, eps: real) returns (n: nat)
    requires g >= 0.0 && eps > 0.0
    ensures g <= eps * (Take * n as real)
  {
    var c := eps * Take;
    var x := g / c;
    assert x * c == g;
    n := x.Floor + 1;
    var k := n as real;
    assert k > x;
    assert c * (k - x) > 0.0;
    assert c * (k - x) == c * k - x * c;
    assert eps * (Take * k) == c * k;
  }

  /** Repeated smoothing with a constant sample gets arbitrarily close to it. */
  lemma SmoothConverges(s: real, m: real, eps: real)
    requires eps > 0.0
    ensures exists n: nat :: AbsReal(SmoothFrom(s, m, n) - m) <= eps
  {
    var g := AbsReal(s - m);
    var n := TicksFor(g, eps);
    var k := n as real;
    var p := Pow(Keep, n);
    KeepPowerBound(n);
    SmoothFromGap(s, m, n);
    AbsScaled(p, s - m);
    assert SmoothFrom(s, m, n) - m == p * (s - m);
    assert AbsReal(p * (s - m)) == p * g;
    assert p * g <= p * (eps * (Take * k)) by {
      assert p * (eps * (Take * k) - g) >= 0.0;
    }
    assert p * (eps * (Take * k)) <= eps by {
      assert p * (eps * (Take * k)) == eps * (p * (Take * k));
      assert p * (Take * k) <= 1.0;
      assert eps * (1.0 - p * (Take * k)) >= 0.0;
    }
  }
}
