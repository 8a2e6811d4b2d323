/**
 * The decision half of `PanTilt.track`: which detection to follow, and how many
 * signed steps each axis gets for it.
 *
 * Bounding boxes and frame shapes are integer pixels. The source does the offset
 * arithmetic in floating point; this model uses exact reals and ignores IEEE-754
 * rounding, which could only matter exactly at the deadzone or truncation boundaries.
 */
module Aiming {
  import opened Wrappers
  import opened Numbers

  /** Proportional gain `k` of the source. */
  const Gain: int := 8
  /** Per-axis deadzone on the normalised offset. */
  const Deadzone: real := 0.10
  /** The score the selection starts from, below any real detector score. */
  const NoScore: real := -1.0

  datatype BoundingBox = BoundingBox(originX: int, originY: int, width: int, height: int)
  /** A classification; the detector may leave the score undefined. */
  datatype Category = Category(name: string, score: Option<real>)
  datatype Detection = Detection(box: BoundingBox, categories: seq<Category>)
  /** `frame.shape[0]` and `frame.shape[1]`. */
  datatype FrameShape = FrameShape(height: int, width: int)
  /** Signed step counts for the two axes, before the tilt inversion. */
  datatype Command = Command(pan: int, tilt: int)

  // ---------------------------------------------------------------------------
  // Best-detection selection

  /** Only detections with at least one category take part in the selection. */
  predicate Eligible(d: Detection) {
    |d.categories| > 0
  }

  /** The first category's score, a missing score counting as 0.0. */
  function Score(d: Detection): real
    requires Eligible(d)
  {
    d.categories[0].score.GetOr(0.0)
  }

  /**
   * The selection loop's state `(best, best_score)` after scanning `ds`: a detection
   * replaces the current best only with a strictly greater score.
   */
  function Scan(ds: seq<Detection>): (r: (Option<nat>, real))
    ensures r.0.Some? ==> r.0.value < |ds| && Eligible(ds[r.0.value])
  {
    if ds == [] then (None, NoScore)
    else
      var prev := Scan(ds[..|ds| - 1]);
      var last := ds[|ds| - 1];
      if Eligible(last) && Score(last) > prev.1 then (Some(|ds| - 1), Score(last)) else prev
  }

  /** The index of the detection `track` follows, if any. */
  function Best(ds: seq<Detection>): (r: Option<nat>)
    ensures r.Some? ==> r.value < |ds| && Eligible(ds[r.value])
  {
    Scan(ds).0
  }

  /** The loop of `track` that picks `best`, returning its index. */
  method SelectBest(ds: seq<Detection>) returns (best: Option<nat>)
    ensures best == Best(ds)
  {
    best := None;
    var bestScore := NoScore;
    var i := 0;
    while i < |ds|
      invariant 0 <= i <= |ds|
      invariant (best, bestScore) == Scan(ds[..i])
    {
      assert ds[..i + 1][..i] == ds[..i];
      var d := ds[i];
      if Eligible(d) {
        var score := Score(d);
        if score > bestScore {
          bestScore := score;
          best := Some(i);
        }
      }
      i := i + 1;
    }
    assert ds[..|ds|] == ds;
  }

  lemma {:induction false} ScanSpec(ds: seq<Detection>)
    ensures var (b, s) := Scan(ds);
      (b.None? ==> s == NoScore && forall j :: 0 <= j < |ds| && Eligible(ds[j]) ==> Score(ds[j]) <= NoScore) &&
      (b.Some? ==>
         s == Score(ds[b.value]) && s > NoScore &&
         (forall j :: 0 <= j < |ds| && Eligible(ds[j]) ==> Score(ds[j]) <= s) &&
         (forall j :: 0 <= j < b.value && Eligible(ds[j]) ==> Score(ds[j]) < s))
  {
    if ds != [] {
      var prefix := ds[..|ds| - 1];
      ScanSpec(prefix);
      assert forall j :: 0 <= j < |prefix| ==> prefix[j] == ds[j];
    }
  }

  /**
   * The followed detection has a category, its first-category score is the greatest
   * among eligible detections, and every eligible detection before it scores strictly
   * less: on a tie the earliest wins.
   */
  lemma BestIsFirstMaximum(ds: seq<Detection>)
    requires Best(ds).Some?
    ensures var b := Best(ds).value;
      b < |ds| && Eligible(ds[b]) &&
      (forall j :: 0 <= j < |ds| && Eligible(ds[j]) ==> Score(ds[j]) <= Score(ds[b])) &&
      (forall j :: 0 <= j < b && Eligible(ds[j]) ==> Score(ds[j]) < Score(ds[b]))
  {
    ScanSpec(ds);
  }

  /**
   * Nothing is followed exactly when no eligible detection scores above the initial
   * -1.0; in particular when no detection has a category.
   */
  lemma BestNone(ds: seq<Detection>)
    ensures Best(ds).None? <==> forall j :: 0 <= j < |ds| && Eligible(ds[j]) ==> Score(ds[j]) <= NoScore
    ensures (forall j :: 0 <= j < |ds| ==> !Eligible(ds[j])) ==> Best(ds).None?
  {
    ScanSpec(ds);
  }

  /** For detector scores, which are never negative, nothing is followed iff no detection has a category. */
  lemma BestNoneIffNoneEligible(ds: seq<Detection>)
    requires forall j :: 0 <= j < |ds| && Eligible(ds[j]) ==> Score(ds[j]) >= 0.0
    ensures Best(ds).None? <==> forall j :: 0 <= j < |ds| ==> !Eligible(ds[j])
  {
    BestNone(ds);
  }

  // ---------------------------------------------------------------------------
  // Offset, gain and deadzone

  function AbsReal(x: real): real {
    if x < 0.0 then -x else x
  }

  /** Python's `int(x)` on a float: truncation toward zero. */
  function Trunc(x: real): (r: int)
    ensures x >= 0.0 ==> r as real <= x < r as real + 1.0
    ensures x < 0.0 ==> r as real - 1.0 < x <= r as real
  {
    if x >= 0.0 then x.Floor else -((-x).Floor)
  }

  /** Integer division truncating toward zero (Dafny's `/` is Euclidean). */
  function TruncDiv(a: int, b: int): int
    requires b > 0
  {
    if a >= 0 then a / b else -((-a) / b)
  }

  /** Centre of a box along one axis: `origin + size / 2.0`. */
  function Center(origin: int, size: int): real {
    origin as real + size as real / 2.0
  }

  /** Offset of `center` from the middle of an axis of length `extent`, in half-extents. */
  function Offset(center: real, extent: int): real
    requires extent > 0
  {
    (center - extent as real / 2.0) / (extent as real / 2.0)
  }

  /** One axis of `track`: `int(d * k)`, forced to 0 when `|d| < deadzone`. */
  function AxisSteps(origin: int, size: int, extent: int): int
    requires extent > 0
  {
    var d := Offset(Center(origin, size), extent);
    var raw := Trunc(d * Gain as real);
    if AbsReal(d) < Deadzone then 0 else raw
  }

  /** The step counts `track` computes for a box in a frame. */
  function Aim(box: BoundingBox, frame: FrameShape): Command
    requires frame.width > 0 && frame.height > 0
  {
    Command(AxisSteps(box.originX, box.width, frame.width),
            AxisSteps(box.originY, box.height, frame.height))
  }

  /** Twice the centre's pixel offset from the middle: `2*origin + size - extent`. */
  function Excess(origin: int, size: int, extent: int): int {
    2 * origin + size - extent
  }

  /** The floor of a non-negative ratio is its Euclidean quotient. */
  lemma FloorOfRatio(a: nat, b: int)
    requires b > 0
    ensures (a as real / b as real).Floor == a / b
  {
    var q, r := a / b, a % b;
    assert a == q * b + r && 0 <= r < b;
    assert a as real / b as real == q as real + r as real / b as real;
    assert 0.0 <= r as real / b as real < 1.0;
  }

  lemma TruncOfRatio(a: int, b: int)
    requires b > 0
    ensures Trunc(a as real / b as real) == TruncDiv(a, b)
  {
    if a >= 0 {
      FloorOfRatio(a, b);
    } else {
      assert -(a as real / b as real) == (-a) as real / b as real;
      FloorOfRatio(-a, b);
    }
  }

  lemma OffsetExact(origin: int, size: int, extent: int)
    requires extent > 0
    ensures Offset(Center(origin, size), extent) == Excess(origin, size, extent) as real / extent as real
  {
  }

  lemma ScaledRatio(n: int, e: int)
    requires e > 0
    ensures (n as real / e as real) * Gain as real == (Gain * n) as real / e as real
  {
  }

  lemma RatioBelow(m: real, e: real, c: real)
    requires e > 0.0
    ensures m / e < c <==> m < c * e
  {
    assert (m / e) * e == m;
    if m / e < c {
      assert (m / e) * e < c * e;
    } else {
      assert (m / e) * e >= c * e;
    }
  }

  lemma DeadzoneTest(n: int, e: int)
    requires e > 0
    ensures AbsReal(n as real / e as real) < Deadzone <==> 10 * Abs(n) < e
  {
    assert AbsReal(n as real / e as real) == Abs(n) as real / e as real;
    RatioBelow(Abs(n) as real, e as real, Deadzone);
  }

  /**
   * The exact integer form of one axis: with n = 2*origin + size - extent, the
   * deadzone test `|d| < 0.10` is `10*|n| < extent`, and `int(d * 8)` is n*8/extent
   * truncated toward zero.
   */
  lemma AxisStepsExact(origin: int, size: int, extent: int)
    requires extent > 0
    ensures var n := Excess(origin, size, extent);
      AxisSteps(origin, size, extent) == if 10 * Abs(n) < extent then 0 else TruncDiv(Gain * n, extent)
  {
    var n := Excess(origin, size, extent);
    OffsetExact(origin, size, extent);
    ScaledRatio(n, extent);
    TruncOfRatio(Gain * n, extent);
    DeadzoneTest(n, extent);
  }

  lemma NatDiv(a: nat, b: int)
    requires b > 0
    ensures a / b == 0 <==> a < b
    ensures a / b > 0 <==> a >= b
    ensures (a / b) * b <= a
  {
    var q, r := a / b, a % b;
    assert a == q * b + r && 0 <= r < b;
    if q > 0 {
      assert q * b >= b;
    }
  }

  lemma TruncDivFacts(a: int, b: int)
    requires b > 0
    ensures TruncDiv(a, b) == 0 <==> Abs(a) < b
    ensures TruncDiv(a, b) > 0 <==> a >= b
    ensures TruncDiv(a, b) < 0 <==> a <= -b
    ensures Abs(TruncDiv(a, b)) * b <= Abs(a)
    ensures TruncDiv(-a, b) == -TruncDiv(a, b)
  {
    NatDiv(Abs(a), b);
    assert Abs(TruncDiv(a, b)) == Abs(a) / b;
  }

  lemma TruncDivAtMost(a: int, b: int, k: nat)
    requires b > 0 && Abs(a) <= k * b
    ensures Abs(TruncDiv(a, b)) <= k
  {
    NatDiv(Abs(a), b);
    assert Abs(TruncDiv(a, b)) == Abs(a) / b;
    DivMonotone(Abs(a), k * b, b);
    assert (k * b) / b == k;
  }

  lemma TruncDivMonotone(a: int, a': int, b: int)
    requires b > 0 && a <= a'
    ensures TruncDiv(a, b) <= TruncDiv(a', b)
  {
    if a < 0 && a' < 0 {
      DivMonotone(-a', -a, b);
      assert TruncDiv(a, b) == -((-a) / b) && TruncDiv(a', b) == -((-a') / b);
    } else if a < 0 {
      NatDiv(-a, b);
      NatDiv(a', b);
      assert TruncDiv(a, b) <= 0 <= TruncDiv(a', b);
    } else {
      DivMonotone(a, a', b);
      assert TruncDiv(a, b) == a / b && TruncDiv(a', b) == a' / b;
    }
  }

  lemma DivMonotone(x: nat, y: nat, b: int)
    requires b > 0 && x <= y
    ensures x / b <= y / b
  {
    var qx, qy := x / b, y / b;
    assert x == qx * b + x % b && y == qy * b + y % b;
    if qx > qy {
      MulMonotone(qy + 1, qx, b);
    }
  }

  lemma MulMonotone(u: int, v: int, b: nat)
    requires u <= v
    ensures u * b <= v * b
  {
  }

  /**
   * An axis gets no steps exactly when its centre is within 1/8 of a half-frame of
   * the middle (`8*|n| < extent`): truncation already zeroes every offset below
   * 1/8, so the 0.10 deadzone never changes the result, and `|d| == 0.10` is not
   * deadzoned but still truncates to 0.
   */
  lemma AxisStepsZero(origin: int, size: int, extent: int)
    requires extent > 0
    ensures var n := Excess(origin, size, extent);
      AxisSteps(origin, size, extent) == 0 <==> Gain * Abs(n) < extent
    ensures var d := Offset(Center(origin, size), extent);
      AxisSteps(origin, size, extent) == Trunc(d * Gain as real) &&
      (AxisSteps(origin, size, extent) == 0 <==> AbsReal(d) < Deadzone || Trunc(d * Gain as real) == 0)
    ensures var n := Excess(origin, size, extent); var d := Offset(Center(origin, size), extent);
      10 * Abs(n) == extent ==>
        !(AbsReal(d) < Deadzone) && AxisSteps(origin, size, extent) == TruncDiv(Gain * n, extent) == 0
  {
    var n := Excess(origin, size, extent);
    DeadzoneTest(n, extent);
    AxisStepsExact(origin, size, extent);
    TruncDivFacts(Gain * n, extent);
    OffsetExact(origin, size, extent);
    ScaledRatio(n, extent);
    TruncOfRatio(Gain * n, extent);
  }

  /**
   * The sign of an axis command follows the side of the frame the centre is on:
   * positive iff the centre is at least 1/8 half-frame past the middle, negative iff
   * at least that far before it.
   */
  lemma AxisStepsSign(origin: int, size: int, extent: int)
    requires extent > 0
    ensures var n := Excess(origin, size, extent);
      (AxisSteps(origin, size, extent) > 0 <==> Gain * n >= extent) &&
      (AxisSteps(origin, size, extent) < 0 <==> Gain * n <= -extent)
  {
    var n := Excess(origin, size, extent);
    AxisStepsExact(origin, size, extent);
    TruncDivFacts(Gain * n, extent);
  }

  /** A box centred inside the frame (`0 <= centre <= extent`) gets at most `k` = 8 steps. */
  lemma AxisStepsBound(origin: int, size: int, extent: int)
    requires extent > 0
    requires 0.0 <= Center(origin, size) <= extent as real
    ensures Abs(AxisSteps(origin, size, extent)) <= Gain
  {
    var n := Excess(origin, size, extent);
    assert Abs(n) <= extent;
    assert Abs(Gain * n) <= Gain * extent;
    AxisStepsExact(origin, size, extent);
    TruncDivAtMost(Gain * n, extent, Gain);
  }

  /**
   * An axis gets more than `k` = 8 steps exactly when `8*|n| >= 9*extent`, that is
   * when the box centre lies at least 1/16 of the extent outside the frame.
   */
  lemma AxisStepsBeyond(origin: int, size: int, extent: int)
    requires extent > 0
    ensures var n := Excess(origin, size, extent);
      Abs(AxisSteps(origin, size, extent)) > Gain <==> Gain * Abs(n) >= (Gain + 1) * extent
    ensures Abs(AxisSteps(origin, size, extent)) > Gain <==>
      16.0 * Center(origin, size) >= 17.0 * extent as real || 16.0 * Center(origin, size) <= -(extent as real)
  {
    var n := Excess(origin, size, extent);
    AxisStepsExact(origin, size, extent);
    if 10 * Abs(n) >= extent {
      assert Abs(TruncDiv(Gain * n, extent)) == Abs(Gain * n) / extent;
      DivAtMost(Abs(Gain * n), extent, Gain);
    }
    assert 2.0 * Center(origin, size) - extent as real == n as real;
  }

  /** A Euclidean quotient is at most `k` exactly when the dividend is below `(k+1)*b`. */
  lemma DivAtMost(a: nat, b: int, k: nat)
    requires b > 0
    ensures a / b <= k <==> a < (k + 1) * b
  {
    var q, r := a / b, a % b;
    assert a == q * b + r && 0 <= r < b;
    if q <= k {
      MulMonotone(q + 1, k + 1, b);
    } else {
      MulMonotone(k + 1, q, b);
    }
  }

  /**
   * Mirroring the box about the middle of the axis negates the command:
   * truncation toward zero treats both sides alike, flooring would not.
   */
  lemma AxisStepsMirror(origin: int, size: int, extent: int)
    requires extent > 0
    ensures AxisSteps(extent - origin - size, size, extent) == -AxisSteps(origin, size, extent)
  {
    var n := Excess(origin, size, extent);
    assert Excess(extent - origin - size, size, extent) == -n;
    AxisStepsExact(origin, size, extent);
    AxisStepsExact(extent - origin - size, size, extent);
    TruncDivFacts(Gain * n, extent);
  }

  /** Moving the box further along an axis never decreases that axis' command. */
  lemma AxisStepsMonotone(origin: int, origin': int, size: int, extent: int)
    requires extent > 0 && origin <= origin'
    ensures AxisSteps(origin, size, extent) <= AxisSteps(origin', size, extent)
  {
    var n, n' := Excess(origin, size, extent), Excess(origin', size, extent);
    AxisStepsZero(origin, size, extent);
    AxisStepsZero(origin', size, extent);
    AxisStepsExact(origin, size, extent);
    AxisStepsExact(origin', size, extent);
    TruncDivFacts(Gain * n, extent);
    TruncDivFacts(Gain * n', extent);
    TruncDivMonotone(Gain * n, Gain * n', extent);
  }

  /** On a 640x480 frame a 40x40 box at (500, 200) gives pan +5 and tilt 0. */
  lemma AimOffCentre()
    ensures Aim(BoundingBox(500, 200, 40, 40), FrameShape(480, 640)) == Command(5, 0)
  {
    AxisStepsExact(500, 40, 640);
    AxisStepsExact(200, 40, 480);
  }

  /** On a 640x480 frame a 40x40 box at (300, 200) gives no steps on either axis. */
  lemma AimCentred()
    ensures Aim(BoundingBox(300, 200, 40, 40), FrameShape(480, 640)) == Command(0, 0)
  {
    AxisStepsExact(300, 40, 640);
    AxisStepsExact(200, 40, 480);
  }

}
