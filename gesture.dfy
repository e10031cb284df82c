/** The pure part of the per-frame gesture estimate: from the detector's landmarks to a
    strength in [0, 1]. Reals stand for the source's doubles; the host's square root is a
    parameter `sqrt`, and lemmas that need it to be the true root say so with `IsRoot`. */
module Gesture {
  import opened Types

  /** Keypoint index of the thumb tip in a detected hand. */
  const ThumbTip: nat := 4
  /** Keypoint index of the index-finger tip in a detected hand. */
  const IndexTip: nat := 8
  /** Tip distance at and below which the strength is 0 (a closed hand). */
  const MinD: real := 0.05
  /** Tip distance at and above which the strength is 1 (an open hand). */
  const MaxD: real := 0.15

  function Max(a: real, b: real): real { if a >= b then a else b }

  function Min(a: real, b: real): real { if a <= b then a else b }

  function Square(v: real): real { v * v }

  /** A square is non-negative, and zero only for zero. */
  lemma SquareSign(v: real)
    ensures Square(v) >= 0.0
    ensures Square(v) == 0.0 <==> v == 0.0
  {
    if v > 0.0 {
      SquareStrict(0.0, v);
    } else if v < 0.0 {
      SquareStrict(0.0, -v);
      SquareNegate(v);
    }
  }

  /** A number and its negation have the same square. */
  lemma SquareNegate(v: real)
    ensures Square(-v) == Square(v)
  {
  }

  /** The product of two positive reals is positive. */
  lemma PositiveProduct(a: real, b: real)
    requires a > 0.0 && b > 0.0
    ensures a * b > 0.0
  {
  }

  /** Squaring is strictly increasing on the non-negative reals. */
  lemma SquareStrict(t: real, r: real)
    requires 0.0 <= t < r
    ensures Square(t) < Square(r)
  {
    PositiveProduct(r - t, r + t);
    assert (r - t) * (r + t) == r * r - t * t;
  }

  /** `r` is the non-negative square root of `q`. */
  ghost predicate IsRoot(r: real, q: real) { r >= 0.0 && Square(r) == q }

  /** The squared Euclidean distance of two landmarks (the radicand of the source's distance). */
  function SquaredDistance(a: Landmark, b: Landmark): (q: real)
    ensures q >= 0.0
    ensures q == 0.0 <==> a == b
  {
    SquareSign(a.x - b.x);
    SquareSign(a.y - b.y);
    SquareSign(a.z - b.z);
    Square(a.x - b.x) + Square(a.y - b.y) + Square(a.z - b.z)
  }

  /** Maps a tip distance linearly from the band [MinD, MaxD] onto [0, 1], clamping outside it. */
  function Normalize(distance: real): (strength: real)
    ensures 0.0 <= strength <= 1.0
    ensures strength == 0.0 <==> distance <= MinD
    ensures strength == 1.0 <==> distance >= MaxD
    ensures MinD < distance < MaxD ==> Denormalize(strength) == distance
  {
    var s := (distance - MinD) / (MaxD - MinD);
    Max(0.0, Min(1.0, s))
  }

  /** The tip distance inside the band that a strength stands for. */
  function Denormalize(strength: real): real
  {
    MinD + strength * (MaxD - MinD)
  }

  /** Every strength in [0, 1] is reached, by the distance Denormalize gives for it. */
  lemma NormalizeDenormalize(strength: real)
    requires 0.0 <= strength <= 1.0
    ensures MinD <= Denormalize(strength) <= MaxD
    ensures Normalize(Denormalize(strength)) == strength
  {
  }

  /** A larger tip distance never gives a smaller strength. */
  lemma NormalizeMonotone(d1: real, d2: real)
    requires d1 <= d2
    ensures Normalize(d1) <= Normalize(d2)
  {
  }

  /** Inside the band the strength is the band fraction (d - MinD) / (MaxD - MinD). */
  lemma NormalizeInBand(d: real)
    requires MinD < d < MaxD
    ensures 0.0 < Normalize(d) < 1.0
    ensures Normalize(d) * (MaxD - MinD) == d - MinD
  {
  }

  /** For non-negative reals, squaring preserves and reflects order. */
  lemma SquareOrder(r: real, t: real)
    requires r >= 0.0 && t >= 0.0
    ensures r <= t <==> Square(r) <= Square(t)
  {
    if r < t {
      SquareStrict(r, t);
    } else if t < r {
      SquareStrict(t, r);
    }
  }

  /** Two non-negative roots of one square are equal. */
  lemma RootUnique(r: real, t: real)
    requires r >= 0.0 && t >= 0.0 && Square(r) == Square(t)
    ensures r == t
  {
    SquareOrder(r, t);
    SquareOrder(t, r);
  }

  /** The clamp thresholds restated on the squared distance, so no square root is needed:
      strength 0 exactly when q <= MinD^2, strength 1 exactly when q >= MaxD^2. */
  lemma NormalizeBySquare(d: real, q: real)
    requires IsRoot(d, q)
    ensures Normalize(d) == 0.0 <==> q <= Square(MinD)
    ensures Normalize(d) == 1.0 <==> q >= Square(MaxD)
    ensures Square(MinD) < q < Square(MaxD) ==> Square(Denormalize(Normalize(d))) == q
  {
    SquareOrder(d, MinD);
    SquareOrder(MaxD, d);
  }

  /** The detector found at least one hand (`results.landmarks` exists and is non-empty). */
  predicate HasHand(result: HandLandmarkResult)
  {
    result.landmarks.Some? && |result.landmarks.value| > 0
  }

  /** The hand the estimator reads: the first one reported. */
  function FirstHand(result: HandLandmarkResult): Hand
    requires HasHand(result)
  {
    result.landmarks.value[0]
  }

  /** The first hand, if any, has both tips the estimator reads; the source indexes them
      without a bounds check. */
  predicate TipsPresent(result: HandLandmarkResult)
  {
    HasHand(result) ==> |FirstHand(result)| > IndexTip
  }

  /** The strength one detector result calls for (the branch taken once the detector and the
      video are ready): the normalised thumb-to-index distance of the first hand, or 0 when no
      hand was reported. */
  function DetectedStrength(result: HandLandmarkResult, sqrt: real -> real): (strength: real)
    requires TipsPresent(result)
    ensures 0.0 <= strength <= 1.0
    ensures !HasHand(result) ==> strength == 0.0
  {
    if HasHand(result) then
      var hand := FirstHand(result);
      Normalize(sqrt(SquaredDistance(hand[ThumbTip], hand[IndexTip])))
    else
      0.0
  }

  /** One estimator step on the stored strength: when not ready nothing is written and the
      old strength stays; otherwise the detected strength replaces it. */
  function Step(ready: bool, result: HandLandmarkResult, oldStrength: real, sqrt: real -> real): (strength: real)
    requires ready ==> TipsPresent(result)
    ensures !ready ==> strength == oldStrength
    ensures ready ==> 0.0 <= strength <= 1.0
    ensures ready && !HasHand(result) ==> strength == 0.0
  {
    if ready then DetectedStrength(result, sqrt) else oldStrength
  }

  /** The detected strength depends only on the two tips of the first hand: other hands and
      other landmarks are irrelevant. */
  lemma DetectedStrengthReadsOnlyTips(r1: HandLandmarkResult, r2: HandLandmarkResult, sqrt: real -> real)
    requires TipsPresent(r1) && TipsPresent(r2)
    requires HasHand(r1) == HasHand(r2)
    requires HasHand(r1) ==> FirstHand(r1)[ThumbTip] == FirstHand(r2)[ThumbTip]
    requires HasHand(r1) ==> FirstHand(r1)[IndexTip] == FirstHand(r2)[IndexTip]
    ensures DetectedStrength(r1, sqrt) == DetectedStrength(r2, sqrt)
  {
  }

  /** Repeating a step on an unchanged detector result changes nothing further: the step
      keeps no hidden accumulating state. */
  lemma StepIdempotent(ready: bool, result: HandLandmarkResult, oldStrength: real, sqrt: real -> real)
    requires ready ==> TipsPresent(result)
    ensures Step(ready, result, Step(ready, result, oldStrength, sqrt), sqrt) == Step(ready, result, oldStrength, sqrt)
  {
  }

  /** With a true square root, the step's clamp thresholds in terms of the squared tip
      distance q: strength 0 iff q <= 0.0025, strength 1 iff q >= 0.0225. */
  lemma DetectedStrengthBySquare(result: HandLandmarkResult, sqrt: real -> real)
    requires TipsPresent(result) && HasHand(result)
    requires IsRoot(sqrt(SquaredDistance(FirstHand(result)[ThumbTip], FirstHand(result)[IndexTip])),
                    SquaredDistance(FirstHand(result)[ThumbTip], FirstHand(result)[IndexTip]))
    ensures DetectedStrength(result, sqrt) == 0.0
            <==> SquaredDistance(FirstHand(result)[ThumbTip], FirstHand(result)[IndexTip]) <= 0.0025
    ensures DetectedStrength(result, sqrt) == 1.0
            <==> SquaredDistance(FirstHand(result)[ThumbTip], FirstHand(result)[IndexTip]) >= 0.0225
  {
    var hand := FirstHand(result);
    var q := SquaredDistance(hand[ThumbTip], hand[IndexTip]);
    NormalizeBySquare(sqrt(q), q);
  }

  /** A ready step on a frame whose first hand is `hand` writes the normalised root of that
      hand's squared tip distance. */
  lemma StepOnFirstHand(hand: Hand, others: seq<Hand>, oldStrength: real, sqrt: real -> real)
    requires |hand| > IndexTip
    ensures Step(true, HandLandmarkResult(Some([hand] + others)), oldStrength, sqrt)
            == Normalize(sqrt(SquaredDistance(hand[ThumbTip], hand[IndexTip])))
  {
  }

  /** A closed fist: coincident tips give strength 0, whatever else the frame holds. */
  lemma FistGivesZero(hand: Hand, others: seq<Hand>, oldStrength: real, sqrt: real -> real)
    requires |hand| > IndexTip && hand[ThumbTip] == hand[IndexTip]
    requires IsRoot(sqrt(0.0), 0.0)
    ensures Step(true, HandLandmarkResult(Some([hand] + others)), oldStrength, sqrt) == 0.0
  {
    StepOnFirstHand(hand, others, oldStrength, sqrt);
    RootUnique(sqrt(0.0), 0.0);
  }

  /** An open hand: tips (0, 0, 0) and (0.2, 0, 0) are 0.2 apart and give strength 1. */
  lemma OpenHandGivesOne(hand: Hand, others: seq<Hand>, oldStrength: real, sqrt: real -> real)
    requires |hand| > IndexTip
    requires hand[ThumbTip] == Landmark(0.0, 0.0, 0.0) && hand[IndexTip] == Landmark(0.2, 0.0, 0.0)
    requires IsRoot(sqrt(0.04), 0.04)
    ensures Step(true, HandLandmarkResult(Some([hand] + others)), oldStrength, sqrt) == 1.0
  {
    StepOnFirstHand(hand, others, oldStrength, sqrt);
    assert Square(0.0 - 0.2) == 0.04 && Square(0.0 - 0.0) == 0.0;
    var q := SquaredDistance(Landmark(0.0, 0.0, 0.0), Landmark(0.2, 0.0, 0.0));
    assert q == 0.04;
    var d := sqrt(q);
    RootUnique(d, 0.2);
    assert Normalize(d) == 1.0;
  }

  /** A partial pinch: tips (0.30, 0.40, 0) and (0.30, 0.47, 0) are 0.07 apart and give 0.2. */
  lemma PinchGivesPointTwo(hand: Hand, others: seq<Hand>, oldStrength: real, sqrt: real -> real)
    requires |hand| > IndexTip
    requires hand[ThumbTip] == Landmark(0.30, 0.40, 0.0) && hand[IndexTip] == Landmark(0.30, 0.47, 0.0)
    requires IsRoot(sqrt(0.0049), 0.0049)
    ensures Step(true, HandLandmarkResult(Some([hand] + others)), oldStrength, sqrt) == 0.2
  {
    StepOnFirstHand(hand, others, oldStrength, sqrt);
    assert Square(0.30 - 0.30) == 0.0 && Square(0.40 - 0.47) == 0.0049 && Square(0.0 - 0.0) == 0.0;
    var q := SquaredDistance(Landmark(0.30, 0.40, 0.0), Landmark(0.30, 0.47, 0.0));
    assert q == 0.0049;
    var d := sqrt(q);
    RootUnique(d, 0.07);
    assert Normalize(d) == 0.2;
  }
}
