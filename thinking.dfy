/**
 * The pinned thinking-framework section: five steps shown one at a time.
 * A move to step k makes step k opaque and sharp, dims every other step,
 * and slides the step list up by k item heights.  The timeline places
 * step k at time 2k, each background change half a unit before its step,
 * and the outro at time 10.  Entering and leaving write isThinkingActive.
 */
module ThinkingFramework {
  import Store

  const StepCount: nat := 5
  const OutroStart: real := 10.0

  /** How a step is drawn: its opacity and its blur radius in pixels. */
  datatype StepStyle = StepStyle(opacity: real, blurPx: real)

  const ActiveStyle := StepStyle(1.0, 0.0)
  const InactiveStyle := StepStyle(0.15, 2.0)

  /** The style a move to step `active` gives step i. */
  function StyleFor(active: nat, i: nat): (s: StepStyle)
    ensures s == ActiveStyle <==> i == active
    ensures s == InactiveStyle <==> i != active
  {
    if i == active then ActiveStyle else InactiveStyle
  }

  /** After a move to any of the five steps, it and only it is fully opaque. */
  lemma ExactlyOneOpaque(active: nat)
    requires active < StepCount
    ensures (set i: nat | i < StepCount && StyleFor(active, i).opacity == 1.0) == {active}
  {
    var s := set i: nat | i < StepCount && StyleFor(active, i).opacity == 1.0;
    assert active in s;
    forall i | i in s ensures i == active {
    }
  }

  /** The height of one step in the list: 350 on desktop, 250 on mobile. */
  function ItemHeight(isDesktop: bool): (h: real)
    ensures h > 0.0
  {
    if isDesktop then 350.0 else 250.0
  }

  /** The list's vertical offset when step k is at the focus line. */
  function ListOffset(k: nat, itemHeight: real): real {
    -(k as real) * itemHeight
  }

  /** Step 0 sits at offset 0, each next step one item height higher, so the
      offsets strictly decrease with the step number. */
  lemma ListOffsetSteps(k: nat, isDesktop: bool)
    ensures ListOffset(0, ItemHeight(isDesktop)) == 0.0
    ensures ListOffset(k + 1, ItemHeight(isDesktop)) == ListOffset(k, ItemHeight(isDesktop)) - ItemHeight(isDesktop)
    ensures ListOffset(k + 1, ItemHeight(isDesktop)) < ListOffset(k, ItemHeight(isDesktop))
    ensures isDesktop ==> ListOffset(4, ItemHeight(isDesktop)) == -1400.0
    ensures !isDesktop ==> ListOffset(4, ItemHeight(isDesktop)) == -1000.0
  {
  }

  /** One entry placed on the section's timeline. */
  datatype Tween =
    | StepsTo(active: nat, at: real)                  // restyle every step for `active`
    | ListTo(step: nat, y: real, at: real)            // slide the list to `y`
    | OverlayTo(color: string, opacity: real, at: real)  // recolour the background overlay
    | Outro(at: real)                                 // fade everything out

  /** When step k starts. */
  function StepStart(k: nat): real {
    2.0 * (k as real)
  }

  /** The two tweens of a move to a step, both starting at `start`. */
  function AnimateToStep(index: nat, start: real, itemHeight: real): (ts: seq<Tween>)
    ensures |ts| == 2 && ts[0].StepsTo? && ts[1].ListTo?
    ensures ts[0].active == index && ts[1].step == index
    ensures ts[1].y == ListOffset(index, itemHeight)
    ensures ts[0].at == start && ts[1].at == start
  {
    [StepsTo(index, start), ListTo(index, ListOffset(index, itemHeight), start)]
  }

  /** A tween that moves the section to a step, with the step it moves to. */
  predicate IsStepTween(t: Tween) {
    t.StepsTo? || t.ListTo?
  }

  function StepOf(t: Tween): nat
    requires IsStepTween(t)
  {
    if t.StepsTo? then t.active else t.step
  }

  /** The background colour and opacity the overlay takes before step k. */
  function OverlayColor(k: nat): string {
    if k == 1 then "#0044AA" else if k == 2 then "#0A0A12" else if k == 3 then "#150505" else "#000B11"
  }

  function OverlayOpacity(k: nat): real {
    if k == 1 then 0.6 else if k == 2 then 0.9 else if k == 3 then 0.7 else 0.9
  }

  /** The timeline up to step k: step 0 at time 0, then for each later
      step the move to it at its start time and the overlay change half a
      unit earlier, appended in that order. */
  function Prefix(k: nat, itemHeight: real): seq<Tween>
    decreases k
  {
    if k == 0 then [StepsTo(0, StepStart(0))]
    else Prefix(k - 1, itemHeight)
         + AnimateToStep(k, StepStart(k), itemHeight)
         + [OverlayTo(OverlayColor(k), OverlayOpacity(k), StepStart(k) - 0.5)]
  }

  /** The whole schedule: every step, then the outro. */
  function Schedule(itemHeight: real): seq<Tween> {
    Prefix(StepCount - 1, itemHeight) + [Outro(OutroStart)]
  }

  // ----- what a schedule promises -----

  /** Every step tween targets a step up to `hi` and starts at that step's time. */
  predicate StepsOnTime(tl: seq<Tween>, hi: nat) {
    forall i :: 0 <= i < |tl| && IsStepTween(tl[i]) ==>
      StepOf(tl[i]) <= hi && tl[i].at == StepStart(StepOf(tl[i]))
  }

  predicate OffsetsFor(tl: seq<Tween>, itemHeight: real) {
    forall i :: 0 <= i < |tl| && tl[i].ListTo? ==> tl[i].y == ListOffset(tl[i].step, itemHeight)
  }

  predicate StepsIncreasing(tl: seq<Tween>) {
    forall i, j :: 0 <= i < j < |tl| && tl[i].StepsTo? && tl[j].StepsTo? ==>
      tl[i].active < tl[j].active && tl[i].at < tl[j].at
  }

  predicate OverlaysLead(tl: seq<Tween>) {
    forall i :: 0 <= i < |tl| && tl[i].OverlayTo? ==>
      0 < i && tl[i - 1].ListTo? && tl[i].at == tl[i - 1].at - 0.5
  }

  predicate BeforeOutro(tl: seq<Tween>) {
    forall i :: 0 <= i < |tl| ==> !tl[i].Outro? && tl[i].at < OutroStart
  }

  /** One step of the prefix: the previous prefix, then the move to step k
      and its overlay change. */
  lemma PrefixExtends(k: nat, itemHeight: real)
    requires k > 0
    ensures Prefix(k, itemHeight) == Prefix(k - 1, itemHeight)
      + [StepsTo(k, StepStart(k)), ListTo(k, ListOffset(k, itemHeight), StepStart(k)),
         OverlayTo(OverlayColor(k), OverlayOpacity(k), StepStart(k) - 0.5)]
  {
  }

  lemma {:induction false} PrefixLength(k: nat, itemHeight: real)
    ensures |Prefix(k, itemHeight)| == 3 * k + 1
    ensures Prefix(k, itemHeight)[0] == StepsTo(0, 0.0)
    decreases k
  {
    if k > 0 {
      PrefixLength(k - 1, itemHeight);
    }
  }

  lemma {:induction false} PrefixOnTime(k: nat, itemHeight: real)
    ensures StepsOnTime(Prefix(k, itemHeight), k)
    decreases k
  {
    if k > 0 {
      PrefixOnTime(k - 1, itemHeight);
      PrefixExtends(k, itemHeight);
    }
  }

  lemma {:induction false} PrefixOffsets(k: nat, itemHeight: real)
    ensures OffsetsFor(Prefix(k, itemHeight), itemHeight)
    decreases k
  {
    if k > 0 {
      PrefixOffsets(k - 1, itemHeight);
      PrefixExtends(k, itemHeight);
    }
  }

  lemma {:induction false} PrefixBeforeOutro(k: nat, itemHeight: real)
    requires k < StepCount
    ensures BeforeOutro(Prefix(k, itemHeight))
    decreases k
  {
    if k > 0 {
      PrefixBeforeOutro(k - 1, itemHeight);
      PrefixExtends(k, itemHeight);
    }
  }

  lemma {:induction false} PrefixIncreasing(k: nat, itemHeight: real)
    ensures StepsIncreasing(Prefix(k, itemHeight))
    decreases k
  {
    if k > 0 {
      var p := Prefix(k - 1, itemHeight);
      var s := Prefix(k, itemHeight);
      PrefixIncreasing(k - 1, itemHeight);
      PrefixOnTime(k - 1, itemHeight);
      PrefixExtends(k, itemHeight);
      forall i, j | 0 <= i < j < |s| && s[i].StepsTo? && s[j].StepsTo?
        ensures s[i].active < s[j].active && s[i].at < s[j].at
      {
        if j < |p| {
          assert s[i] == p[i] && s[j] == p[j];
        } else {
          assert j == |p| && s[i] == p[i];
        }
      }
    }
  }

  lemma {:induction false} PrefixOverlaysLead(k: nat, itemHeight: real)
    ensures OverlaysLead(Prefix(k, itemHeight))
    decreases k
  {
    if k > 0 {
      var p := Prefix(k - 1, itemHeight);
      var s := Prefix(k, itemHeight);
      PrefixOverlaysLead(k - 1, itemHeight);
      PrefixExtends(k, itemHeight);
      forall i | 0 <= i < |s| && s[i].OverlayTo?
        ensures 0 < i && s[i - 1].ListTo? && s[i].at == s[i - 1].at - 0.5
      {
        if i < |p| {
          assert s[i] == p[i] && s[i - 1] == p[i - 1];
        }
      }
    }
  }

  lemma {:induction false} PrefixHasEveryStep(k: nat, itemHeight: real)
    ensures forall m :: 0 <= m <= k ==> StepsTo(m, StepStart(m)) in Prefix(k, itemHeight)
    decreases k
  {
    if k == 0 {
      assert Prefix(0, itemHeight)[0] == StepsTo(0, StepStart(0));
    } else {
      var p := Prefix(k - 1, itemHeight);
      var s := Prefix(k, itemHeight);
      PrefixHasEveryStep(k - 1, itemHeight);
      PrefixExtends(k, itemHeight);
      forall m | 0 <= m <= k ensures StepsTo(m, StepStart(m)) in s {
        if m < k {
          assert StepsTo(m, StepStart(m)) in p;
        } else {
          assert s[|p|] == StepsTo(m, StepStart(m));
        }
      }
    }
  }

  /** The outro is none of the tweens the schedule's properties speak of,
      so appending it keeps them. */
  lemma OutroKeeps(p: seq<Tween>, itemHeight: real, hi: nat)
    requires StepsOnTime(p, hi) && OffsetsFor(p, itemHeight)
    requires StepsIncreasing(p) && OverlaysLead(p)
    ensures StepsOnTime(p + [Outro(OutroStart)], hi)
    ensures OffsetsFor(p + [Outro(OutroStart)], itemHeight)
    ensures StepsIncreasing(p + [Outro(OutroStart)])
    ensures OverlaysLead(p + [Outro(OutroStart)])
  {
    var s := p + [Outro(OutroStart)];
    assert forall i :: 0 <= i < |p| ==> s[i] == p[i];
  }

  /** The schedule restyles every step at time 2k, step 0 first at time 0,
      in increasing order; every list move goes to the step's offset; every
      overlay change leads its step by half a unit; the outro is last and
      starts after everything else. */
  lemma ScheduleWellFormed(itemHeight: real)
    ensures |Schedule(itemHeight)| == 14
    ensures Schedule(itemHeight)[0] == StepsTo(0, 0.0)
    ensures forall k :: 0 <= k < StepCount ==> StepsTo(k, StepStart(k)) in Schedule(itemHeight)
    ensures StepsOnTime(Schedule(itemHeight), StepCount - 1)
    ensures OffsetsFor(Schedule(itemHeight), itemHeight)
    ensures StepsIncreasing(Schedule(itemHeight))
    ensures OverlaysLead(Schedule(itemHeight))
    ensures Schedule(itemHeight)[13] == Outro(OutroStart)
    ensures BeforeOutro(Schedule(itemHeight)[..13])
  {
    var last := StepCount - 1;
    var p := Prefix(last, itemHeight);
    PrefixLength(last, itemHeight);
    PrefixOnTime(last, itemHeight);
    PrefixOffsets(last, itemHeight);
    PrefixBeforeOutro(last, itemHeight);
    PrefixIncreasing(last, itemHeight);
    PrefixOverlaysLead(last, itemHeight);
    PrefixHasEveryStep(last, itemHeight);
    OutroKeeps(p, itemHeight, last);
    assert Schedule(itemHeight)[..13] == p;
  }

  /** The timeline as the section builds it, one call after another. */
  method BuildTimeline(isDesktop: bool) returns (tl: seq<Tween>)
    ensures tl == Schedule(ItemHeight(isDesktop))
  {
    var itemHeight := ItemHeight(isDesktop);
    tl := [StepsTo(0, 0.0)];
    tl := tl + AnimateToStep(1, 2.0, itemHeight);
    tl := tl + [OverlayTo("#0044AA", 0.6, 1.5)];
    assert tl == Prefix(1, itemHeight);
    tl := tl + AnimateToStep(2, 4.0, itemHeight);
    tl := tl + [OverlayTo("#0A0A12", 0.9, 3.5)];
    assert tl == Prefix(2, itemHeight);
    tl := tl + AnimateToStep(3, 6.0, itemHeight);
    tl := tl + [OverlayTo("#150505", 0.7, 5.5)];
    assert tl == Prefix(3, itemHeight);
    tl := tl + AnimateToStep(4, 8.0, itemHeight);
    tl := tl + [OverlayTo("#000B11", 0.9, 7.5)];
    assert tl == Prefix(4, itemHeight);
    tl := tl + [Outro(10.0)];
  }

  /** The section component: the store it writes and the opacity the
      section is faded towards when it is left forwards or re-entered. */
  class Section {
    const store: Store.ScrollStore
    var fadeTarget: real

    constructor (store: Store.ScrollStore)
      ensures this.store == store && fadeTarget == 1.0
    {
      this.store := store;
      fadeTarget := 1.0;
    }

    method OnEnter()
      modifies store
      ensures store.Snapshot() == old(store.Snapshot()).(isThinkingActive := true)
    {
      store.SetIsThinkingActive(true);
    }

    method OnEnterBack()
      modifies this, store
      ensures store.Snapshot() == old(store.Snapshot()).(isThinkingActive := true)
      ensures fadeTarget == 1.0
    {
      store.SetIsThinkingActive(true);
      fadeTarget := 1.0;
    }

    method OnLeave()
      modifies this, store
      ensures store.Snapshot() == old(store.Snapshot()).(isThinkingActive := false)
      ensures fadeTarget == 0.0
    {
      store.SetIsThinkingActive(false);
      fadeTarget := 0.0;
    }

    method OnLeaveBack()
      modifies store
      ensures store.Snapshot() == old(store.Snapshot()).(isThinkingActive := false)
    {
      store.SetIsThinkingActive(false);
    }
  }
}
