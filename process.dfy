/**
 * The pinned process section: four phase points at timeline keyframes
 * 0, 0.25, 0.5 and 0.75.  A point is in focus while the scroll progress is
 * within 0.12 of its keyframe; the section also publishes processProgress
 * and isProcessActive to the store.
 */
module ProcessSection {
  import opened Scalar
  import Store

  const PointCount: nat := 4
  const Spacing: real := 0.25
  const Window: real := 0.12

  /** How a point is drawn: its opacity and its blur radius in pixels. */
  datatype PointStyle = PointStyle(opacity: real, blur: real)

  const FocusedStyle := PointStyle(1.0, 0.0)
  const DimmedStyle := PointStyle(0.2, 10.0)

  function Keyframe(i: nat): real {
    (i as real) * Spacing
  }

  predicate Focused(progress: real, i: nat) {
    Abs(progress - Keyframe(i)) < Window
  }

  function StyleAt(progress: real, i: nat): (s: PointStyle)
    ensures s == FocusedStyle <==> Focused(progress, i)
    ensures s == DimmedStyle <==> !Focused(progress, i)
  {
    if Focused(progress, i) then FocusedStyle else DimmedStyle
  }

  /** The points in focus at a progress. */
  function FocusSet(progress: real): set<nat> {
    set i: nat | i < PointCount && Focused(progress, i)
  }

  /** Keyframes are 0.25 apart and the window is narrower than half of
      that, so no two points are ever in focus together. */
  lemma AtMostOneFocused(progress: real, i: nat, j: nat)
    requires i != j
    ensures !(Focused(progress, i) && Focused(progress, j))
  {
  }

  lemma FocusSetSize(progress: real)
    ensures |FocusSet(progress)| <= 1
  {
    var s := FocusSet(progress);
    if i :| i in s {
      forall j | j in s ensures j == i {
        if j != i {
          AtMostOneFocused(progress, i, j);
        }
      }
      assert s == {i};
    }
  }

  /** At its own keyframe a point is the one point in focus. */
  lemma KeyframeFocusesItsPoint(i: nat)
    requires i < PointCount
    ensures FocusSet(Keyframe(i)) == {i}
  {
    var s := FocusSet(Keyframe(i));
    assert i in s;
    FocusSetSize(Keyframe(i));
    forall j | j in s ensures j == i {
      if j != i {
        AtMostOneFocused(Keyframe(i), i, j);
      }
    }
  }

  /** Between keyframes, and past the last one, nothing is in focus. */
  lemma GapsFocusNothing()
    ensures FocusSet(0.125) == {}
    ensures FocusSet(1.0) == {}
  {
    assert forall i: nat :: i < PointCount ==> !Focused(0.125, i) by {
      forall i: nat | i < PointCount ensures !Focused(0.125, i) {
        assert i == 0 || i == 1 || i == 2 || i == 3;
      }
    }
    assert forall i: nat :: i < PointCount ==> !Focused(1.0, i) by {
      forall i: nat | i < PointCount ensures !Focused(1.0, i) {
        assert i == 0 || i == 1 || i == 2 || i == 3;
      }
    }
  }

  /** The styles before any update, as the section sets them on mount. */
  function InitialStyles(): seq<PointStyle> {
    [FocusedStyle, DimmedStyle, DimmedStyle, DimmedStyle]
  }

  lemma InitialMatchesProgressZero()
    ensures |InitialStyles()| == PointCount
    ensures forall i :: 0 <= i < PointCount ==> InitialStyles()[i] == StyleAt(0.0, i)
  {
  }

  /** The section component: the four points' styles and the store it writes. */
  class Section {
    const store: Store.ScrollStore
    var points: seq<PointStyle>

    constructor (store: Store.ScrollStore)
      ensures this.store == store && points == InitialStyles()
    {
      this.store := store;
      points := InitialStyles();
    }

    /** Entering in either direction. */
    method OnEnter()
      modifies store
      ensures store.Snapshot() == old(store.Snapshot()).(isProcessActive := true)
    {
      store.SetIsProcessActive(true);
    }

    method OnLeave()
      modifies store
      ensures store.Snapshot() == old(store.Snapshot()).(isProcessActive := false, processProgress := 1.0)
    {
      store.SetIsProcessActive(false);
      store.SetProcessProgress(1.0);
    }

    method OnLeaveBack()
      modifies store
      ensures store.Snapshot() == old(store.Snapshot()).(isProcessActive := false, processProgress := 0.0)
    {
      store.SetIsProcessActive(false);
      store.SetProcessProgress(0.0);
    }

    /** One scroll update: publish the progress as given, then restyle every point. */
    method OnUpdate(progress: real)
      requires |points| == PointCount
      modifies this, store
      ensures store.Snapshot() == old(store.Snapshot()).(processProgress := progress)
      ensures |points| == PointCount
      ensures forall i :: 0 <= i < PointCount ==> points[i] == StyleAt(progress, i)
    {
      store.SetProcessProgress(progress);
      var i := 0;
      while i < PointCount
        invariant 0 <= i <= PointCount && |points| == PointCount
        invariant forall j :: 0 <= j < i ==> points[j] == StyleAt(progress, j)
        invariant store.Snapshot() == old(store.Snapshot()).(processProgress := progress)
      {
        points := points[i := StyleAt(progress, i)];
        i := i + 1;
      }
    }
  }
}
