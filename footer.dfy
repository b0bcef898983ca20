/**
 * The contact footer's launch sequence on the home page: a single state
 * variable overwritten by the trigger's pointer handlers, the white
 * overlay's transition-end, the form's back and submit buttons, and two
 * timers.  Timers are explicit pending events: arming one increments a
 * counter, firing one consumes it.
 */
module FooterLaunch {

  datatype State = Idle | Charging | Critical | Flash | Form | Blackout

  datatype Event =
    | HoverStart     // pointer enters the trigger
    | HoverEnd       // pointer leaves the trigger
    | Click          // the trigger is clicked
    | LaunchTimer    // the 2000 ms timer armed by a click fires
    | TransitionEnd  // the white overlay reports the end of a transition
    | Back           // the form's back button
    | Submit         // the form is submitted
    | BlackoutTimer  // the 2500 ms timer armed by a submit fires

  const LaunchDelayMs: nat := 2000
  const BlackoutDelayMs: nat := 2500

  /** Everything the handlers read or write: the state, the timers not yet
      fired, and the window's vertical scroll position. */
  datatype Footer = Footer(state: State, pendingLaunch: nat, pendingBlackout: nat, scrollY: real)

  function Initial(scrollY: real): Footer {
    Footer(Idle, 0, 0, scrollY)
  }

  /** The transition function: what one event does to the footer. */
  function Step(f: Footer, e: Event): (g: Footer)
    ensures g.pendingLaunch > f.pendingLaunch ==> e == Click && g.state == Critical
    ensures g.pendingBlackout > f.pendingBlackout ==> e == Submit && g.state == Blackout
    ensures g.pendingLaunch + 1 >= f.pendingLaunch && g.pendingBlackout + 1 >= f.pendingBlackout
    ensures g.scrollY != f.scrollY ==> e == BlackoutTimer && g.state == Idle && g.scrollY == 0.0
    ensures g.state == Flash ==> f.state == Flash || e == LaunchTimer
    ensures g.state == Form ==> f.state == Form || (f.state == Flash && e == TransitionEnd)
  {
    match e
    case HoverStart => if f.state == Idle then f.(state := Charging) else f
    case HoverEnd => if f.state == Charging then f.(state := Idle) else f
    case Click =>
      if f.state != Critical then f.(state := Critical, pendingLaunch := f.pendingLaunch + 1) else f
    case LaunchTimer =>
      if f.pendingLaunch > 0 then f.(state := Flash, pendingLaunch := f.pendingLaunch - 1) else f
    case TransitionEnd => if f.state == Flash then f.(state := Form) else f
    case Back => f.(state := Idle)
    case Submit => f.(state := Blackout, pendingBlackout := f.pendingBlackout + 1)
    case BlackoutTimer =>
      if f.pendingBlackout > 0
      then f.(state := Idle, scrollY := 0.0, pendingBlackout := f.pendingBlackout - 1)
      else f
  }

  /** The events applied one after another. */
  function Run(f: Footer, events: seq<Event>): Footer
    decreases |events|
  {
    if events == [] then f else Run(Step(f, events[0]), events[1..])
  }

  /** What the page shows for a state. */
  datatype Layers = Layers(
    trigger: bool,       // the "make an impact" button is opaque and takes pointer events
    shaking: bool,       // the button's critical styling
    whiteOverlay: bool,  // the solid white overlay is opaque and takes pointer events
    formShown: bool,     // the form container is slid in and opaque
    blackout: bool)      // the solid black overlay is opaque

  function Render(s: State): (v: Layers)
    ensures (v.trigger && !v.whiteOverlay && !v.blackout)
         || (!v.trigger && v.whiteOverlay && !v.blackout)
         || (!v.trigger && !v.whiteOverlay && v.blackout)
    ensures v.trigger <==> s == Idle || s == Charging || s == Critical
    ensures v.whiteOverlay <==> s == Flash || s == Form
    ensures v.blackout <==> s == Blackout
    ensures v.shaking ==> v.trigger
    ensures v.formShown ==> v.whiteOverlay
  {
    Layers(
      trigger := s in {Idle, Charging, Critical},
      shaking := s == Critical,
      whiteOverlay := s in {Flash, Form},
      formShown := s == Form,
      blackout := s == Blackout)
  }

  /** Whether a pointer can deliver the event: a layer that is not shown
      has pointer events switched off, and a timer fires only once armed.
      The overlay's transition-end can arrive in any state.  Keyboard
      activation of a hidden button or input is not gated this way. */
  predicate Enabled(f: Footer, e: Event) {
    match e
    case HoverStart => Render(f.state).trigger
    case HoverEnd => Render(f.state).trigger
    case Click => Render(f.state).trigger
    case LaunchTimer => f.pendingLaunch > 0
    case TransitionEnd => true
    case Back => Render(f.state).whiteOverlay
    case Submit => Render(f.state).whiteOverlay
    case BlackoutTimer => f.pendingBlackout > 0
  }

  predicate Gated(f: Footer, events: seq<Event>)
    decreases |events|
  {
    events == [] || (Enabled(f, events[0]) && Gated(Step(f, events[0]), events[1..]))
  }

  /** Holds in every reachable footer, whatever events arrive: the critical
      state always has a launch timer armed, and the blackout a return timer. */
  ghost predicate Armed(f: Footer) {
    && (f.state == Critical ==> f.pendingLaunch > 0)
    && (f.state == Blackout ==> f.pendingBlackout > 0)
  }

  /** Holds in every footer reachable through events the page can deliver:
      exactly one timer is pending in CRITICAL and in BLACKOUT, and none in
      any other state. */
  ghost predicate Settled(f: Footer) {
    && f.pendingLaunch == (if f.state == Critical then 1 else 0)
    && f.pendingBlackout == (if f.state == Blackout then 1 else 0)
  }

  // ----- single transitions -----

  lemma InitialIsIdle(y: real)
    ensures Initial(y).state == Idle && Render(Initial(y).state).trigger
    ensures Settled(Initial(y))
  {
  }

  lemma HoverStartOnlyFromIdle(f: Footer)
    ensures Step(f, HoverStart).state == (if f.state == Idle then Charging else f.state)
    ensures Step(f, HoverStart).(state := f.state) == f
  {
  }

  lemma HoverEndOnlyFromCharging(f: Footer)
    ensures Step(f, HoverEnd).state == (if f.state == Charging then Idle else f.state)
    ensures Step(f, HoverEnd).(state := f.state) == f
    ensures f.state == Idle ==> Run(f, [HoverStart, HoverEnd]) == f
  {
  }

  lemma ClickArmsOneTimer(f: Footer)
    ensures f.state != Critical ==>
      Step(f, Click) == f.(state := Critical, pendingLaunch := f.pendingLaunch + 1)
    ensures f.state == Critical ==> Step(f, Click) == f
  {
  }

  /** The launch timer does not look at the state it lands in. */
  lemma LaunchTimerSetsFlash(f: Footer)
    requires f.pendingLaunch > 0
    ensures Step(f, LaunchTimer).state == Flash
    ensures Step(f, LaunchTimer).pendingLaunch == f.pendingLaunch - 1
    ensures Run(Initial(f.scrollY), [Click, Back, LaunchTimer]).state == Flash
  {
  }

  lemma TransitionEndOnlyFromFlash(f: Footer)
    ensures Step(f, TransitionEnd).state == (if f.state == Flash then Form else f.state)
    ensures Step(f, TransitionEnd).(state := f.state) == f
  {
  }

  lemma BackAndSubmit(f: Footer)
    ensures Step(f, Back) == f.(state := Idle)
    ensures Step(f, Submit) == f.(state := Blackout, pendingBlackout := f.pendingBlackout + 1)
    ensures f.pendingBlackout > 0 ==>
      Step(f, BlackoutTimer) == f.(state := Idle, scrollY := 0.0, pendingBlackout := f.pendingBlackout - 1)
  {
  }

  // ----- traces -----

  lemma {:induction false} RunAppend(f: Footer, a: seq<Event>, b: seq<Event>)
    ensures Run(f, a + b) == Run(Run(f, a), b)
    decreases |a|
  {
    if a == [] {
      assert a + b == b;
    } else {
      assert (a + b)[1..] == a[1..] + b;
      RunAppend(Step(f, a[0]), a[1..], b);
    }
  }

  /** Pointer-enter then click; the launch timer fires and the flash's
      transition ends: the form is open and no timer is left. */
  lemma LaunchScenario(y: real)
    ensures Run(Initial(y), [HoverStart, Click]).state == Critical
    ensures Run(Initial(y), [HoverStart, Click, LaunchTimer]).state == Flash
    ensures Run(Initial(y), [HoverStart, Click, LaunchTimer, TransitionEnd]) == Footer(Form, 0, 0, y)
    ensures Gated(Initial(y), [HoverStart, Click, LaunchTimer, TransitionEnd])
  {
  }

  /** From the open form, a submit shows the blackout; when its timer fires
      the footer is idle again and the page is scrolled to the top. */
  lemma SubmitScenario(y: real)
    ensures Run(Footer(Form, 0, 0, y), [Submit]).state == Blackout
    ensures Run(Footer(Form, 0, 0, y), [Submit, BlackoutTimer]) == Footer(Idle, 0, 0, 0.0)
  {
  }

  lemma {:induction false} AlwaysArmed(f: Footer, events: seq<Event>)
    requires Armed(f)
    ensures Armed(Run(f, events))
    decreases |events|
  {
    if events != [] {
      var g := Step(f, events[0]);
      assert Armed(g) by {
        match events[0]
        case Click => {}
        case LaunchTimer => {}
        case Submit => {}
        case BlackoutTimer => {}
        case _ => {}
      }
      AlwaysArmed(g, events[1..]);
    }
  }

  lemma StepKeepsSettled(f: Footer, e: Event)
    requires Settled(f) && Enabled(f, e)
    ensures Settled(Step(f, e))
  {
  }

  /** Under the page's own gating of events, at most one timer is ever
      pending, and it belongs to the state the footer is in. */
  lemma {:induction false} GatedRunSettled(f: Footer, events: seq<Event>)
    requires Settled(f) && Gated(f, events)
    ensures Settled(Run(f, events))
    ensures Run(f, events).pendingLaunch + Run(f, events).pendingBlackout <= 1
    decreases |events|
  {
    if events != [] {
      StepKeepsSettled(f, events[0]);
      GatedRunSettled(Step(f, events[0]), events[1..]);
    }
  }

  /** Keyboard activation reaches the hidden controls in any state.  Enter
      in the hidden form from IDLE starts the blackout and, after its timer,
      scrolls to the top.  Back by keyboard in CRITICAL returns to IDLE with
      the launch timer still armed, and that timer then opens the flash
      from IDLE.  Neither trace is pointer-deliverable, and the second one
      leaves the footer unsettled. */
  lemma KeyboardTraces(y: real)
    ensures !Gated(Initial(y), [Submit])
    ensures Run(Initial(y), [Submit, BlackoutTimer]) == Footer(Idle, 0, 0, 0.0)
    ensures !Gated(Initial(y), [Click, Back])
    ensures Run(Initial(y), [Click, Back]) == Footer(Idle, 1, 0, y)
    ensures !Settled(Run(Initial(y), [Click, Back]))
    ensures Run(Initial(y), [Click, Back, LaunchTimer]) == Footer(Flash, 0, 0, y)
  {
  }

  // ----- the component -----

  /** The page component: its state variable, its armed timers and the
      window scroll it resets. */
  class Launcher {
    var state: State
    var pendingLaunch: nat
    var pendingBlackout: nat
    var scrollY: real

    function Snapshot(): Footer
      reads this
    {
      Footer(state, pendingLaunch, pendingBlackout, scrollY)
    }

    constructor (scrollY0: real)
      ensures Snapshot() == Initial(scrollY0)
    {
      state := Idle;
      pendingLaunch := 0;
      pendingBlackout := 0;
      scrollY := scrollY0;
    }

    method HandleHoverStart()
      modifies this
      ensures Snapshot() == Step(old(Snapshot()), HoverStart)
    {
      if state == Idle {
        state := Charging;
      }
    }

    method HandleHoverEnd()
      modifies this
      ensures Snapshot() == Step(old(Snapshot()), HoverEnd)
    {
      if state == Charging {
        state := Idle;
      }
    }

    method InitiateLaunch()
      modifies this
      ensures Snapshot() == Step(old(Snapshot()), Click)
    {
      if state != Critical {
        state := Critical;
        pendingLaunch := pendingLaunch + 1;
      }
    }

    method FireLaunchTimer()
      requires pendingLaunch > 0
      modifies this
      ensures Snapshot() == Step(old(Snapshot()), LaunchTimer)
    {
      pendingLaunch := pendingLaunch - 1;
      state := Flash;
    }

    method HandleTransitionEnd()
      modifies this
      ensures Snapshot() == Step(old(Snapshot()), TransitionEnd)
    {
      if state == Flash {
        state := Form;
      }
    }

    method HandleBack()
      modifies this
      ensures Snapshot() == Step(old(Snapshot()), Back)
    {
      state := Idle;
    }

    method HandleSubmit()
      modifies this
      ensures Snapshot() == Step(old(Snapshot()), Submit)
    {
      state := Blackout;
      pendingBlackout := pendingBlackout + 1;
    }

    method FireBlackoutTimer()
      requires pendingBlackout > 0
      modifies this
      ensures Snapshot() == Step(old(Snapshot()), BlackoutTimer)
    {
      pendingBlackout := pendingBlackout - 1;
      scrollY := 0.0;
      state := Idle;
    }
  }
}
