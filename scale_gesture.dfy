/** The scale arithmetic of PlacementManager's two-finger gesture, on real
    numbers and one scale axis. HandleObjectInteraction records the object's
    scale and the finger distance when the gesture begins; every
    HandleScaling tick sets the scale from the ratio of the current distance
    to the stored one, then overwrites the stored distance. A stored distance
    of zero (both fingers on one point) makes the float division produce an
    infinity or NaN; the model keeps that case as a non-finite scale. */
module ScaleGesture {

  /** An object scale: a real number, or the infinity/NaN a float division
      by zero leaves behind. */
  datatype Scale = Finite(v: real) | NonFinite

  datatype Pinch = Pinch(scale: Scale, initialScale: real, initialDistance: real)

  /** Gesture start: both baselines read from the object and the fingers. */
  function Begin(scale: real, distance: real): (p: Pinch)
    ensures p.scale == Finite(p.initialScale) && p.initialScale == scale
    ensures p.initialDistance == distance
  {
    Pinch(Finite(scale), scale, distance)
  }

  /** `factor * (d / stored)` in float arithmetic: non-finite when the stored
      distance is zero. */
  function Scaled(factor: real, d: real, stored: real): (r: Scale)
    ensures r.NonFinite? <==> stored == 0.0
    ensures r.Finite? ==> r.v * stored == factor * d
  {
    if stored == 0.0 then NonFinite else Finite(factor * (d / stored))
  }

  predicate Positive(ds: seq<real>) {
    forall i :: 0 <= i < |ds| ==> ds[i] > 0.0
  }

  /** One tick as written: initialScale * (current / initialDistance), then
      the distance baseline moves to the current distance while initialScale
      stays. */
  function TickAsWritten(p: Pinch, d: real): (r: Pinch)
    ensures r.initialDistance == d && r.initialScale == p.initialScale
    ensures r.scale.NonFinite? <==> p.initialDistance == 0.0
    ensures r.scale.Finite? ==> r.scale.v * p.initialDistance == p.initialScale * d
  {
    Pinch(Scaled(p.initialScale, d, p.initialDistance), p.initialScale, d)
  }

  /** One tick corrected: the same ratio applied to the object's current
      scale, so successive ratios compose; a non-finite scale stays so. */
  function TickCorrected(p: Pinch, d: real): (r: Pinch)
    ensures r.initialDistance == d && r.initialScale == p.initialScale
    ensures r.scale.NonFinite? <==> p.scale.NonFinite? || p.initialDistance == 0.0
    ensures r.scale.Finite? ==> r.scale.v * p.initialDistance == p.scale.v * d
  {
    match p.scale
    case NonFinite => p.(initialDistance := d)
    case Finite(s) => Pinch(Scaled(s, d, p.initialDistance), p.initialScale, d)
  }

  function RunAsWritten(p: Pinch, ds: seq<real>): (r: Pinch)
    ensures r.initialScale == p.initialScale
    ensures |ds| > 0 ==> r.initialDistance == ds[|ds| - 1]
    decreases |ds|
  {
    if |ds| == 0 then p else RunAsWritten(TickAsWritten(p, ds[0]), ds[1..])
  }

  function RunCorrected(p: Pinch, ds: seq<real>): (r: Pinch)
    ensures r.initialScale == p.initialScale
    ensures |ds| > 0 ==> r.initialDistance == ds[|ds| - 1]
    decreases |ds|
  {
    if |ds| == 0 then p else RunCorrected(TickCorrected(p, ds[0]), ds[1..])
  }

  /** As written, only the last tick's ratio reaches the object: after two or
      more ticks the scale is initialScale * d[k] / d[k-1], whatever the
      earlier distances were. */
  lemma {:induction false} AsWrittenKeepsOnlyLastRatio(p: Pinch, ds: seq<real>)
    requires |ds| >= 2 && ds[|ds| - 2] != 0.0
    ensures RunAsWritten(p, ds).scale.Finite?
    ensures RunAsWritten(p, ds).scale.v * ds[|ds| - 2] == p.initialScale * ds[|ds| - 1]
    decreases |ds|
  {
    var q := TickAsWritten(p, ds[0]);
    if |ds| == 2 {
      assert ds[1..][1..] == [];
      assert RunAsWritten(p, ds) == RunAsWritten(q, ds[1..]);
      assert RunAsWritten(q, ds[1..]) == RunAsWritten(TickAsWritten(q, ds[1]), []);
    } else {
      assert ds[1..][|ds[1..]| - 2] == ds[|ds| - 2];
      assert ds[1..][|ds[1..]| - 1] == ds[|ds| - 1];
      AsWrittenKeepsOnlyLastRatio(q, ds[1..]);
    }
  }

  /** One telescoping step: if the new scale a relates to the old scale s
      as the new distance d to the old one b, and s * d0 == s0 * b, then
      a * d0 == s0 * d. */
  lemma ProportionalStep(a: real, b: real, s: real, d: real, s0: real, d0: real)
    requires b > 0.0 && a * b == s * d && s * d0 == s0 * b
    ensures a * d0 == s0 * d
  {
    calc {
      (a * d0) * b;
      (a * b) * d0;
      (s * d) * d0;
      (s * d0) * d;
      (s0 * b) * d;
      (s0 * d) * b;
    }
  }

  /** Corrected, the ratios telescope: while every distance is positive the
      scale stays finite and proportional to the finger distance,
      scale * d0 == s0 * d for the current distance d. */
  lemma {:induction false} CorrectedIsProportional(p: Pinch, ds: seq<real>, s0: real, d0: real)
    requires p.scale.Finite? && p.initialDistance > 0.0 && Positive(ds) && d0 > 0.0
    requires p.scale.v * d0 == s0 * p.initialDistance
    ensures RunCorrected(p, ds).scale.Finite?
    ensures RunCorrected(p, ds).scale.v * d0 == s0 * RunCorrected(p, ds).initialDistance
    decreases |ds|
  {
    if |ds| > 0 {
      var q := TickCorrected(p, ds[0]);
      ProportionalStep(q.scale.v, p.initialDistance, p.scale.v, ds[0], s0, d0);
      CorrectedIsProportional(q, ds[1..], s0, d0);
    }
  }

  /** The pinch of distances 100, 150, 120 from scale 1: as written the object
      ends at 0.8 (120/150); the cumulative scale 120/100 is 1.2. */
  lemma AsWrittenLosesEarlierTicks()
    ensures RunAsWritten(Begin(1.0, 100.0), [150.0, 120.0]).scale == Finite(0.8)
    ensures RunCorrected(Begin(1.0, 100.0), [150.0, 120.0]).scale == Finite(1.2)
  {
    var ds := [150.0, 120.0];
    assert ds[1..] == [120.0];
    assert [120.0][1..] == [];
  }
}
