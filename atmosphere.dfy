/**
 * The fixed page background: three gradient layers (morning, noon, sunset)
 * crossfaded by how far the page is scrolled.  Scroll events are coalesced
 * into at most one pending animation frame by a `ticking` flag; the frame
 * recomputes the three opacities.
 */
module Atmosphere {
  import opened Scalar

  /** The scroll fraction: scrollY / maxScroll clamped to [0, 1]. */
  function Progress(scrollY: real, maxScroll: real): (p: real)
    requires maxScroll > 0.0
    ensures 0.0 <= p <= 1.0
    ensures 0.0 <= scrollY <= maxScroll ==> p * maxScroll == scrollY
    ensures scrollY <= 0.0 ==> p == 0.0
    ensures scrollY >= maxScroll ==> p == 1.0
  {
    QuotientSigns(scrollY, maxScroll);
    if 0.0 <= scrollY <= maxScroll then QuotientInUnit(scrollY, maxScroll); Clamp(0.0, 1.0, scrollY / maxScroll)
    else Clamp(0.0, 1.0, scrollY / maxScroll)
  }

  /** The opacities of the morning, noon and sunset layers. */
  datatype Layers = Layers(morning: real, noon: real, sunset: real)

  /** Morning fades into noon over the first half, noon into sunset over the second. */
  function LayerOpacities(p: real): (o: Layers)
    ensures o.morning + o.noon + o.sunset == 1.0
    ensures 0.0 <= p <= 1.0 ==>
      0.0 <= o.morning <= 1.0 && 0.0 <= o.noon <= 1.0 && 0.0 <= o.sunset <= 1.0
    ensures p < 0.5 ==> o.sunset == 0.0
    ensures p >= 0.5 ==> o.morning == 0.0
  {
    if p < 0.5 then
      var local := p * 2.0;
      Layers(1.0 - local, local, 0.0)
    else
      var local := (p - 0.5) * 2.0;
      Layers(0.0, 1.0 - local, local)
  }

  function Max(a: real, b: real): real {
    if a < b then b else a
  }

  /** The same curves as three tents: morning falls from 1 at 0, noon peaks
      at 1 at one half, sunset rises to 1 at 1; no case split needed. */
  lemma LayersAreTents(p: real)
    requires 0.0 <= p <= 1.0
    ensures LayerOpacities(p).morning == Max(0.0, 1.0 - 2.0 * p)
    ensures LayerOpacities(p).noon == 1.0 - 2.0 * Abs(p - 0.5)
    ensures LayerOpacities(p).sunset == Max(0.0, 2.0 * p - 1.0)
  {
  }

  lemma Keyframes()
    ensures LayerOpacities(0.0) == Layers(1.0, 0.0, 0.0)
    ensures LayerOpacities(0.5) == Layers(0.0, 1.0, 0.0)
    ensures LayerOpacities(1.0) == Layers(0.0, 0.0, 1.0)
  {
  }

  /** Scrolling down never brings the morning back or fades the sunset. */
  lemma LayersMonotone(a: real, b: real)
    requires a <= b
    ensures LayerOpacities(b).morning <= LayerOpacities(a).morning
    ensures LayerOpacities(a).sunset <= LayerOpacities(b).sunset
  {
  }

  /** No layer jumps: each moves by at most twice the change in progress,
      in particular across the switch at one half. */
  lemma LayersContinuous(a: real, b: real)
    requires a <= b
    ensures Abs(LayerOpacities(b).morning - LayerOpacities(a).morning) <= 2.0 * (b - a)
    ensures Abs(LayerOpacities(b).noon - LayerOpacities(a).noon) <= 2.0 * (b - a)
    ensures Abs(LayerOpacities(b).sunset - LayerOpacities(a).sunset) <= 2.0 * (b - a)
  {
  }

  /** What the background effect holds: the ticking flag, the animation
      frames requested and not yet run, and the three layers' opacities. */
  datatype Loop = Loop(ticking: bool, pendingFrames: nat, layers: Layers)

  /** The frame callback: nothing at all when the page cannot scroll,
      otherwise new opacities and the flag cleared. */
  function Update(l: Loop, scrollHeight: real, innerHeight: real, scrollY: real): (r: Loop)
    ensures scrollHeight - innerHeight <= 0.0 ==> r == l
    ensures scrollHeight - innerHeight > 0.0 ==>
      !r.ticking && r.pendingFrames == l.pendingFrames
      && r.layers.morning + r.layers.noon + r.layers.sunset == 1.0
    ensures scrollHeight - innerHeight > 0.0 ==>
      r.layers == LayerOpacities(Progress(scrollY, scrollHeight - innerHeight))
  {
    var maxScroll := scrollHeight - innerHeight;
    if maxScroll <= 0.0 then l
    else l.(layers := LayerOpacities(Progress(scrollY, maxScroll)), ticking := false)
  }

  /** A scroll event: requests a frame only when none is in flight. */
  function OnScroll(l: Loop): (r: Loop)
    ensures l.ticking ==> r == l
    ensures !l.ticking ==> r.ticking && r.pendingFrames == l.pendingFrames + 1 && r.layers == l.layers
  {
    if l.ticking then l else l.(pendingFrames := l.pendingFrames + 1, ticking := true)
  }

  /** The requested frame runs. */
  function Frame(l: Loop, scrollHeight: real, innerHeight: real, scrollY: real): (r: Loop)
    requires l.pendingFrames > 0
    ensures r.pendingFrames == l.pendingFrames - 1
    ensures scrollHeight <= innerHeight ==> r.ticking == l.ticking && r.layers == l.layers
    ensures scrollHeight > innerHeight ==> !r.ticking
  {
    Update(l.(pendingFrames := l.pendingFrames - 1), scrollHeight, innerHeight, scrollY)
  }

  /** At most one frame is in flight, and only while the flag is set. */
  predicate Coalesced(l: Loop) {
    l.pendingFrames <= 1 && (l.pendingFrames == 1 ==> l.ticking)
  }

  lemma ScrollKeepsCoalesced(l: Loop)
    requires Coalesced(l)
    ensures Coalesced(OnScroll(l))
    ensures OnScroll(OnScroll(l)) == OnScroll(l)
  {
  }

  lemma FrameKeepsCoalesced(l: Loop, scrollHeight: real, innerHeight: real, scrollY: real)
    requires Coalesced(l) && l.pendingFrames > 0
    ensures Coalesced(Frame(l, scrollHeight, innerHeight, scrollY))
    ensures Frame(l, scrollHeight, innerHeight, scrollY).pendingFrames == 0
  {
  }

  /** When the frame finds nothing to scroll it leaves the flag set, so from
      then on scroll events request no frame and the layers stay as they are. */
  lemma GuardLeavesTicking(l: Loop, scrollHeight: real, innerHeight: real, scrollY: real)
    requires l.pendingFrames == 1 && l.ticking && scrollHeight <= innerHeight
    ensures Frame(l, scrollHeight, innerHeight, scrollY) == l.(pendingFrames := 0)
    ensures OnScroll(l.(pendingFrames := 0)) == l.(pendingFrames := 0)
  {
  }

  /** The mounted effect. */
  class Background {
    var ticking: bool
    var pendingFrames: nat
    var morning: real
    var noon: real
    var sunset: real

    function Snapshot(): Loop
      reads this
    {
      Loop(ticking, pendingFrames, Layers(morning, noon, sunset))
    }

    /** Mount: morning shown and the other two layers transparent, the flag
        clear, then one update right away. */
    constructor (scrollHeight: real, innerHeight: real, scrollY: real)
      ensures Snapshot() == Update(Loop(false, 0, Layers(1.0, 0.0, 0.0)), scrollHeight, innerHeight, scrollY)
      ensures Coalesced(Snapshot())
    {
      ticking := false;
      pendingFrames := 0;
      morning, noon, sunset := 1.0, 0.0, 0.0;
      new;
      RunUpdate(scrollHeight, innerHeight, scrollY);
    }

    method RunUpdate(scrollHeight: real, innerHeight: real, scrollY: real)
      modifies this
      ensures Snapshot() == Update(old(Snapshot()), scrollHeight, innerHeight, scrollY)
    {
      var maxScroll := scrollHeight - innerHeight;
      if maxScroll <= 0.0 {
        return;
      }
      var p := Progress(scrollY, maxScroll);
      if p < 0.5 {
        var local := p * 2.0;
        morning, noon, sunset := 1.0 - local, local, 0.0;
      } else {
        var local := (p - 0.5) * 2.0;
        morning, noon, sunset := 0.0, 1.0 - local, local;
      }
      ticking := false;
    }

    method HandleScroll()
      modifies this
      ensures Snapshot() == OnScroll(old(Snapshot()))
    {
      if !ticking {
        pendingFrames := pendingFrames + 1;
        ticking := true;
      }
    }

    method RunFrame(scrollHeight: real, innerHeight: real, scrollY: real)
      requires pendingFrames > 0
      modifies this
      ensures Snapshot() == Frame(old(Snapshot()), scrollHeight, innerHeight, scrollY)
    {
      pendingFrames := pendingFrames - 1;
      RunUpdate(scrollHeight, innerHeight, scrollY);
    }
  }
}
