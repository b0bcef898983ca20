/**
 * The pinned "clarity drives conversion" section: four diagnostic points
 * crossfaded by scroll progress, a fill line, and the store fields
 * diagnosticProgress, isDiagnosticActive and diagnosticActivePoint.
 */
module ValueSection {
  import opened Scalar
  import Store

  const PointCount: nat := 4

  /** The cubic ease t * t * (3 - 2t) on [0, 1]. */
  function Ease(t: real): real {
    t * t * (3.0 - 2.0 * t)
  }

  lemma EaseBounds(t: real)
    requires 0.0 <= t <= 1.0
    ensures 0.0 <= Ease(t) <= 1.0
  {
    MulNonneg(t, t);
    MulNonneg(t * t, 3.0 - 2.0 * t);
    MulNonneg(1.0 - t, 1.0 - t);
    MulNonneg((1.0 - t) * (1.0 - t), 1.0 + 2.0 * t);
    assert 1.0 - Ease(t) == (1.0 - t) * (1.0 - t) * (1.0 + 2.0 * t);
  }

  lemma EaseMonotone(a: real, b: real)
    requires 0.0 <= a <= b <= 1.0
    ensures Ease(a) <= Ease(b)
  {
    var k := 3.0 * (a + b) - 2.0 * (a * a + a * b + b * b);
    assert Ease(b) - Ease(a) == (b - a) * k;
    MulNonneg(a, 1.0 - a);
    MulNonneg(b, 1.0 - b);
    MulNonneg(a, 1.0 - b);
    MulNonneg(1.0 - a, b);
    assert k == 2.0 * (a * (1.0 - a)) + 2.0 * (b * (1.0 - b)) + a * (1.0 - b) + (1.0 - a) * b;
    MulNonneg(b - a, k);
  }

  /** smoothstep(edge0, edge1, x): the eased position of x between the edges. */
  function Smoothstep(edge0: real, edge1: real, x: real): (r: real)
    requires edge0 < edge1
    ensures 0.0 <= r <= 1.0
    ensures x <= edge0 ==> r == 0.0
    ensures x >= edge1 ==> r == 1.0
  {
    QuotientSigns(x - edge0, edge1 - edge0);
    EaseBounds(Clamp(0.0, 1.0, (x - edge0) / (edge1 - edge0)));
    Ease(Clamp(0.0, 1.0, (x - edge0) / (edge1 - edge0)))
  }

  lemma SmoothstepMonotone(edge0: real, edge1: real, x: real, y: real)
    requires edge0 < edge1 && x <= y
    ensures Smoothstep(edge0, edge1, x) <= Smoothstep(edge0, edge1, y)
  {
    var d := edge1 - edge0;
    QuotientMonotone(x - edge0, y - edge0, d);
    ClampMonotone(0.0, 1.0, (x - edge0) / d, (y - edge0) / d);
    EaseMonotone(Clamp(0.0, 1.0, (x - edge0) / d), Clamp(0.0, 1.0, (y - edge0) / d));
  }

  /** The eased position within the band of width 0.2 that starts at lo. */
  function BandEase(progress: real, lo: real): real {
    Smoothstep(0.0, 1.0, (progress - lo) / 0.2)
  }

  /** The four-point crossfade: within each band of width 0.2 the outgoing
      point fades out while the next one fades in. */
  function PointOpacities(progress: real): (r: seq<real>)
    ensures |r| == PointCount
    ensures forall i :: 0 <= i < |r| ==> 0.0 <= r[i] <= 1.0
  {
    if progress < 0.2 then
      [BandEase(progress, 0.0), 0.0, 0.0, 0.0]
    else if progress < 0.4 then
      var t := BandEase(progress, 0.2);
      [1.0 - t, t, 0.0, 0.0]
    else if progress < 0.6 then
      var t := BandEase(progress, 0.4);
      [0.0, 1.0 - t, t, 0.0]
    else if progress < 0.8 then
      var t := BandEase(progress, 0.6);
      [0.0, 0.0, 1.0 - t, t]
    else
      [0.0, 0.0, 0.0, 1.0]
  }

  /** Four opacities in [0, 1], at most two of them, adjacent, non-zero;
      from 0.2 on they share out exactly 1. */
  lemma PointOpacitiesShape(progress: real)
    ensures |PointOpacities(progress)| == PointCount
    ensures forall i :: 0 <= i < PointCount ==> 0.0 <= PointOpacities(progress)[i] <= 1.0
    ensures forall i, j ::
              (0 <= i < j < PointCount && PointOpacities(progress)[i] != 0.0 && PointOpacities(progress)[j] != 0.0)
              ==> j == i + 1
    ensures progress >= 0.2 ==> Sum4(PointOpacities(progress)) == 1.0
    ensures progress < 0.2 ==> Sum4(PointOpacities(progress)) <= 1.0
  {
  }

  function Sum4(r: seq<real>): real
    requires |r| == 4
  {
    r[0] + r[1] + r[2] + r[3]
  }

  /** Inside each band the outgoing and incoming points share the eased split. */
  lemma Crossfade(progress: real)
    ensures 0.2 <= progress < 0.4 ==>
      PointOpacities(progress) == [1.0 - BandEase(progress, 0.2), BandEase(progress, 0.2), 0.0, 0.0]
    ensures 0.4 <= progress < 0.6 ==>
      PointOpacities(progress) == [0.0, 1.0 - BandEase(progress, 0.4), BandEase(progress, 0.4), 0.0]
    ensures 0.6 <= progress < 0.8 ==>
      PointOpacities(progress) == [0.0, 0.0, 1.0 - BandEase(progress, 0.6), BandEase(progress, 0.6)]
  {
  }

  /** r is the opacity vector that shows point k alone. */
  predicate IsUnit(r: seq<real>, k: nat) {
    |r| == PointCount && forall i :: 0 <= i < PointCount ==> r[i] == if i == k then 1.0 else 0.0
  }

  /** At each band edge the crossfade rests on a single point. */
  lemma KeyframesAreUnitVectors(progress: real)
    ensures IsUnit(PointOpacities(0.2), 0)
    ensures IsUnit(PointOpacities(0.4), 1)
    ensures IsUnit(PointOpacities(0.6), 2)
    ensures progress >= 0.8 ==> IsUnit(PointOpacities(progress), 3)
  {
    Crossfade(0.2);
    Crossfade(0.4);
    Crossfade(0.6);
  }

  /** The point the store names as active: 0, 1, 2 below 0.2, 0.4, 0.6; 3 from there on. */
  function ActiveIndex(progress: real): (k: nat)
    ensures k < PointCount
    ensures k == 0 <==> progress < 0.2
    ensures k == 3 <==> progress >= 0.6
    ensures k > 0 ==> progress >= 0.2 * (k as real)
    ensures k < 3 ==> progress < 0.2 * ((k + 1) as real)
  {
    if progress < 0.2 then 0
    else if progress < 0.4 then 1
    else if progress < 0.6 then 2
    else 3
  }

  lemma ActiveIndexMonotone(a: real, b: real)
    requires a <= b
    ensures ActiveIndex(a) <= ActiveIndex(b)
  {
  }

  /** The fill line's height as a fraction of its track. */
  function FillFraction(progress: real): (r: real)
    ensures 0.0 <= r <= 1.0
    ensures progress >= 0.8 ==> r == 1.0
    ensures progress <= 0.0 ==> r == 0.0
    ensures 0.0 <= progress <= 0.8 ==> r * 0.8 == progress
  {
    Clamp(0.0, 1.0, progress / 0.8)
  }

  lemma FillMonotone(a: real, b: real)
    requires a <= b
    ensures FillFraction(a) <= FillFraction(b)
  {
    assert a / 0.8 <= b / 0.8;
    ClampMonotone(0.0, 1.0, a / 0.8, b / 0.8);
  }

  /** The blur radius in pixels given to a point of the given opacity. */
  function Blur(opacity: real): (r: real)
    ensures 0.0 <= opacity <= 1.0 ==> 0.0 <= r <= 20.0
    ensures r == 0.0 <==> opacity == 1.0
    ensures r + 20.0 * opacity == 20.0
  {
    (1.0 - opacity) * 20.0
  }

  /** The section component: its remembered active index, its fill line,
      the four points' opacity and blur, and the store it writes. */
  class Section {
    const store: Store.ScrollStore
    var activeIndex: nat
    var fill: real
    var opacity: seq<real>
    var blur: seq<real>

    ghost predicate Valid()
      reads this
    {
      |opacity| == PointCount && |blur| == PointCount && activeIndex < PointCount
    }

    /** Points hidden and blurred, as on mount and on leaving backward. */
    ghost predicate PointsReset()
      reads this
    {
      opacity == [0.0, 0.0, 0.0, 0.0] && blur == [20.0, 20.0, 20.0, 20.0]
    }

    constructor (store: Store.ScrollStore)
      modifies store
      ensures Valid() && this.store == store
      ensures fill == 0.0 && activeIndex == 0 && PointsReset()
      ensures store.Snapshot() == old(store.Snapshot()).(diagnosticActivePoint := 0.0)
    {
      this.store := store;
      fill := 0.0;
      opacity := [0.0, 0.0, 0.0, 0.0];
      blur := [20.0, 20.0, 20.0, 20.0];
      activeIndex := 0;
      new;
      store.SetDiagnosticActivePoint(0.0);
    }

    /** Entering in either direction. */
    method OnEnter()
      modifies store
      ensures store.Snapshot() == old(store.Snapshot()).(isDiagnosticActive := true)
    {
      store.SetIsDiagnosticActive(true);
    }

    method OnLeave()
      requires Valid()
      modifies this, store
      ensures Valid()
      ensures store.Snapshot() == old(store.Snapshot()).(isDiagnosticActive := false, diagnosticProgress := 1.0)
      ensures fill == 1.0
      ensures activeIndex == old(activeIndex) && opacity == old(opacity) && blur == old(blur)
    {
      store.SetIsDiagnosticActive(false);
      store.SetDiagnosticProgress(1.0);
      fill := 1.0;
    }

    method OnLeaveBack()
      requires Valid()
      modifies this, store
      ensures Valid()
      ensures store.Snapshot() == old(store.Snapshot()).(isDiagnosticActive := false,
                                                         diagnosticProgress := 0.0,
                                                         diagnosticActivePoint := 0.0)
      ensures activeIndex == 0 && fill == 0.0 && PointsReset()
    {
      store.SetIsDiagnosticActive(false);
      store.SetDiagnosticProgress(0.0);
      activeIndex := 0;
      store.SetDiagnosticActivePoint(0.0);
      fill := 0.0;
      opacity := [0.0, 0.0, 0.0, 0.0];
      blur := [20.0, 20.0, 20.0, 20.0];
    }

    /** One scroll update at the trigger's progress. */
    method OnUpdate(progress: real) returns (wrotePoint: bool)
      requires Valid()
      modifies this, store
      ensures Valid()
      ensures wrotePoint <==> ActiveIndex(progress) != old(activeIndex)
      ensures store.Snapshot() == old(store.Snapshot()).(
                diagnosticProgress := progress,
                diagnosticActivePoint := if wrotePoint then ActiveIndex(progress) as real
                                         else old(store.diagnosticActivePoint))
      ensures activeIndex == ActiveIndex(progress)
      ensures fill == FillFraction(progress)
      ensures opacity == PointOpacities(progress)
      ensures forall i :: 0 <= i < PointCount ==> blur[i] == Blur(opacity[i])
    {
      store.SetDiagnosticProgress(progress);
      fill := FillFraction(progress);
      var nextIndex := ActiveIndex(progress);
      wrotePoint := nextIndex != activeIndex;
      if wrotePoint {
        activeIndex := nextIndex;
        store.SetDiagnosticActivePoint(nextIndex as real);
      }
      var opacities := PointOpacities(progress);
      var i := 0;
      while i < PointCount
        invariant 0 <= i <= PointCount
        invariant |opacity| == PointCount && |blur| == PointCount
        invariant forall j :: 0 <= j < i ==> opacity[j] == opacities[j] && blur[j] == Blur(opacities[j])
        invariant activeIndex == nextIndex && fill == FillFraction(progress)
        invariant store.Snapshot() == old(store.Snapshot()).(
                    diagnosticProgress := progress,
                    diagnosticActivePoint := if wrotePoint then nextIndex as real
                                             else old(store.diagnosticActivePoint))
      {
        opacity := opacity[i := opacities[i]];
        blur := blur[i := Blur(opacities[i])];
        i := i + 1;
      }
    }

    /** The effect's cleanup on unmount. */
    method Cleanup()
      modifies store
      ensures store.Snapshot() == old(store.Snapshot()).(isDiagnosticActive := false, diagnosticProgress := 0.0)
    {
      store.SetIsDiagnosticActive(false);
      store.SetDiagnosticProgress(0.0);
    }
  }
}
