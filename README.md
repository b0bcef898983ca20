# Scroll-driven portfolio page: a verified model of its rules

The page is a one-page animated portfolio. Under its tweens and its WebGL
scene sit a handful of deterministic rules, and this project models those
rules in Dafny and proves their properties:

- **Footer launch sequence** (`footer.dfy`, module `FooterLaunch`). The
  contact footer's state is IDLE, CHARGING, CRITICAL, FLASH, FORM or
  BLACKOUT. Pointer enter and leave, click, the overlay's transition end,
  back and submit move it, and so do two timers: 2000 ms after a click and
  2500 ms after a submit. The timers are explicit events. Arming one
  increments a pending count and firing one consumes it. The pure
  transition function `Step` is proved about. The class `Launcher` has one
  method per handler, and each method is proved to perform `Step`.
- **Shared scroll store** (`scroll_store.dfy`, module `Store`). The store
  has eight plain fields: two progress values, three active flags, the
  active diagnostic point, the pulse tick and the thinking step. Each field
  has its own setter. The store is a class whose setters change their own
  field and nothing else. A value-level `Apply` supports the algebra of
  writes.
- **Scroll mappings**, one module per section. Each is pure functions of a
  progress value plus a small class for the section's callbacks and its
  store writes:
  - `value.dfy`: smoothstep, the four-point crossfade, the active point,
    the fill line and the blur.
  - `process.dfy`: the ±0.12 focus window around keyframes 0, 0.25, 0.5
    and 0.75.
  - `thinking.dfy`: the single opaque step, the list offset, and the
    timeline with step k at time 2k.
  - `atmosphere.dfy`: the three-layer background crossfade, plus the
    `ticking` flag that coalesces scroll events into one animation frame.
  - `sun.dfy`: the five-band target for the 3D sun, per-frame smoothing,
    and rotation from absolute time.
- **Highlight markup tokeniser** (`positioning.dfy`). The paragraph text is
  split on `|`, and odd-numbered pieces are highlighted. Each piece is cut
  into maximal whitespace runs, single em dashes and words. Each token
  becomes one element, keyed 0, 1, 2, …, and the elements spell the text
  without its bars.

`scalar.dfy` holds the clamp, the linear interpolation and the real
arithmetic facts the other modules share.

Progress values and coordinates are Dafny `real`s, so there is no
floating-point rounding anywhere. Timers, animation frames, the clock,
the window size and the scroll position are all parameters or events.

## Model

| member | source | states |
|---|---|---|
| FooterLaunch.Step | src/app/page.tsx:12-85 | Only a click arms a launch timer, and it sets CRITICAL. Only a submit arms a return timer, and it sets BLACKOUT. A step drops each count by at most one. Only the return timer changes the scroll, to 0, and it sets IDLE. FLASH is entered only through the launch timer, and FORM only from FLASH through transition end. |
| FooterLaunch.Enabled | src/app/page.tsx:54-96 | Pointer gating. Enter, leave and click reach the trigger only while it is shown. Back and submit reach the form only while the white overlay is shown. Timers fire only when armed. |
| FooterLaunch.InitialIsIdle | src/app/page.tsx:9 | The footer starts IDLE, with the trigger shown and no timer pending. |
| FooterLaunch.HoverStartOnlyFromIdle | src/app/page.tsx:12-14 | Pointer enter turns IDLE into CHARGING and changes nothing in any other state. |
| FooterLaunch.HoverEndOnlyFromCharging | src/app/page.tsx:15-18 | Pointer leave turns CHARGING into IDLE and changes nothing else. Enter then leave from IDLE is the identity. |
| FooterLaunch.ClickArmsOneTimer | src/app/page.tsx:21-29 | A click outside CRITICAL sets CRITICAL and arms exactly one launch timer. A click in CRITICAL changes nothing. |
| FooterLaunch.LaunchTimerSetsFlash | src/app/page.tsx:25-27 | The launch timer sets FLASH whatever the state is when it fires, even after a back. It consumes one pending timer. |
| FooterLaunch.TransitionEndOnlyFromFlash | src/app/page.tsx:70 | Transition end turns FLASH into FORM and is ignored in every other state. |
| FooterLaunch.BackAndSubmit | src/app/page.tsx:76-85 | Back sets IDLE. Submit sets BLACKOUT and arms one timer. That timer sets IDLE and scrolls to the top. |
| FooterLaunch.Render | src/app/page.tsx:53-96 | Exactly one layer is shown: the trigger in {IDLE, CHARGING, CRITICAL}, the white overlay in {FLASH, FORM}, the black overlay in BLACKOUT. Shaking implies the trigger, and the form implies the white overlay. |
| FooterLaunch.LaunchScenario | src/app/page.tsx:21-70 | Enter, click, timer, transition end reaches FORM with no timer left. A pointer can deliver every event in that trace. |
| FooterLaunch.SubmitScenario | src/app/page.tsx:85 | From FORM, a submit and its timer end in IDLE with scroll 0 and no timer left. |
| FooterLaunch.RunAppend | src/app/page.tsx:9-85 | Running two event sequences one after the other is running their concatenation. |
| FooterLaunch.AlwaysArmed | src/app/page.tsx:21-29 | From any footer where CRITICAL has a launch timer pending and BLACKOUT a return timer, this still holds after any events at all. That includes keyboard activation of hidden controls, which a pointer could not deliver. |
| FooterLaunch.StepKeepsSettled | src/app/page.tsx:54-96 | Suppose a pointer can deliver an event, given which layers take pointer events. Then it keeps exactly one pending timer in CRITICAL and BLACKOUT and none elsewhere. |
| FooterLaunch.GatedRunSettled | src/app/page.tsx:54-96 | Along every pointer-deliverable trace, at most one timer is ever pending, and it belongs to the current state. |
| FooterLaunch.KeyboardTraces | src/app/page.tsx:21-90 | Two traces are not pointer-deliverable. Keyboard submit in IDLE leads to BLACKOUT and then IDLE at scroll 0. Keyboard back in CRITICAL leaves IDLE with the launch timer armed, so the footer is unsettled, and the timer then sets FLASH from IDLE. |
| FooterLaunch.Launcher.constructor | src/app/page.tsx:9 | The component starts as `Initial`. |
| FooterLaunch.Launcher.HandleHoverStart | src/app/page.tsx:12-14 | The handler performs `Step(_, HoverStart)`. |
| FooterLaunch.Launcher.HandleHoverEnd | src/app/page.tsx:15-18 | The handler performs `Step(_, HoverEnd)`. |
| FooterLaunch.Launcher.InitiateLaunch | src/app/page.tsx:21-29 | The handler performs `Step(_, Click)`. |
| FooterLaunch.Launcher.FireLaunchTimer | src/app/page.tsx:25-27 | The timer callback performs `Step(_, LaunchTimer)`. |
| FooterLaunch.Launcher.HandleTransitionEnd | src/app/page.tsx:70 | The handler performs `Step(_, TransitionEnd)`. |
| FooterLaunch.Launcher.HandleBack | src/app/page.tsx:77 | The handler performs `Step(_, Back)`. |
| FooterLaunch.Launcher.HandleSubmit | src/app/page.tsx:85 | The handler performs `Step(_, Submit)`. |
| FooterLaunch.Launcher.FireBlackoutTimer | src/app/page.tsx:85 | The timer callback performs `Step(_, BlackoutTimer)`. |
| Store.InitialValues | src/store/useScrollStore.ts:22-38 | Initially both progress values are 0, the three flags are false, and the point, tick and step are 0. |
| Store.Apply | src/store/useScrollStore.ts:29-38 | A write stores its argument unchanged, with no clamp or check, and leaves every other field as it was. |
| Store.LastWriteWins | src/store/useScrollStore.ts:29-38 | Of two writes to one field the second wins, and a repeated write is a single write. |
| Store.DistinctWritesCommute | src/store/useScrollStore.ts:29-38 | Writes to different fields commute. |
| Store.UntouchedFieldKept | src/store/useScrollStore.ts:29-38 | A field that no write in a batch touches keeps its value through the whole batch. |
| Store.ScrollStore.constructor | src/store/useScrollStore.ts:22-38 | The store starts in `InitialState`. |
| Store.ScrollStore.SetProcessProgress | src/store/useScrollStore.ts:29 | The setter writes `processProgress` and nothing else. |
| Store.ScrollStore.SetIsProcessActive | src/store/useScrollStore.ts:30 | The setter writes `isProcessActive` and nothing else. |
| Store.ScrollStore.SetDiagnosticProgress | src/store/useScrollStore.ts:31 | The setter writes `diagnosticProgress` and nothing else. |
| Store.ScrollStore.SetIsDiagnosticActive | src/store/useScrollStore.ts:32 | The setter writes `isDiagnosticActive` and nothing else. |
| Store.ScrollStore.SetDiagnosticActivePoint | src/store/useScrollStore.ts:33 | The setter writes `diagnosticActivePoint` and nothing else. |
| Store.ScrollStore.SetDiagnosticPulseTick | src/store/useScrollStore.ts:34 | The setter writes `diagnosticPulseTick` and nothing else. |
| Store.ScrollStore.SetIsThinkingActive | src/store/useScrollStore.ts:37 | The setter writes `isThinkingActive` and nothing else. |
| Store.ScrollStore.SetThinkingActiveStep | src/store/useScrollStore.ts:38 | The setter writes `thinkingActiveStep` and nothing else. |
| Store.ScrollStore.Perform | src/store/useScrollStore.ts:29-38 | Any setter, as a method, does what `Apply` says. |
| Scalar.Clamp | src/components/sections/Value.tsx:50 | The clamp lies in [lo, hi], is the identity inside the range, and is an end outside it. |
| Scalar.ClampMonotone | src/components/sections/Value.tsx:140 | The clamp is non-decreasing. |
| Scalar.Lerp | src/components/canvas/Sun.tsx:241-243 | `lerp(a, b, t)` leaves `(1 - t)` of the gap from a to b. |
| ValueSection.EaseBounds | src/components/sections/Value.tsx:51 | The cubic ease maps [0,1] into [0,1]. |
| ValueSection.EaseMonotone | src/components/sections/Value.tsx:51 | The cubic ease is non-decreasing on [0,1]. |
| ValueSection.Smoothstep | src/components/sections/Value.tsx:49-52 | Smoothstep lies in [0,1]. It is 0 at or below edge0 and 1 at or above edge1. |
| ValueSection.SmoothstepMonotone | src/components/sections/Value.tsx:49-52 | Smoothstep is non-decreasing in x. |
| ValueSection.PointOpacities | src/components/sections/Value.tsx:54-86 | There are four opacities, each in [0,1]. |
| ValueSection.PointOpacitiesShape | src/components/sections/Value.tsx:54-86 | There are four opacities, each in [0,1]. Non-zero entries are at most two and adjacent. They sum to 1 from progress 0.2 on and to at most 1 below it. |
| ValueSection.Crossfade | src/components/sections/Value.tsx:63-82 | In each band of width 0.2, the outgoing and incoming points split 1 by the eased band position. |
| ValueSection.KeyframesAreUnitVectors | src/components/sections/Value.tsx:63-85 | Progress 0.2, 0.4, 0.6 and anything ≥ 0.8 show exactly point 0, 1, 2 and 3. |
| ValueSection.ActiveIndex | src/components/sections/Value.tsx:143-146 | The active point k is in 0..3. Each k < 3 is exactly the band [0.2·k, 0.2·(k+1)), and 3 is exactly progress ≥ 0.6. |
| ValueSection.ActiveIndexMonotone | src/components/sections/Value.tsx:143-146 | The active point never decreases as progress grows. |
| ValueSection.FillFraction | src/components/sections/Value.tsx:140 | The fill is in [0,1]. It is 1 from 0.8 on, 0 at or below 0, and progress / 0.8 in between. |
| ValueSection.FillMonotone | src/components/sections/Value.tsx:140 | The fill never decreases as progress grows. |
| ValueSection.Blur | src/components/sections/Value.tsx:153-158 | The blur is (1 − opacity)·20. It lies in [0,20] for opacities in [0,1] and is 0 exactly at opacity 1. |
| ValueSection.Section.constructor | src/components/sections/Value.tsx:88-93 | Mount resets the fill, hides the points, sets the active index to 0 and writes active point 0 to the store. |
| ValueSection.Section.OnEnter | src/components/sections/Value.tsx:122-123 | Entering in either direction sets `isDiagnosticActive` and nothing else in the store. |
| ValueSection.Section.OnLeave | src/components/sections/Value.tsx:124-128 | Leaving forward sets the flag false and progress 1, and fills the line. The points and the index are untouched. |
| ValueSection.Section.OnLeaveBack | src/components/sections/Value.tsx:129-136 | Leaving backward sets flag false, progress 0, active point 0, index 0 and fill 0, and hides the points. |
| ValueSection.Section.OnUpdate | src/components/sections/Value.tsx:137-160 | An update stores the progress, sets fill, index, opacities and blurs from their functions, and writes the active point exactly when the index changes. |
| ValueSection.Section.Cleanup | src/components/sections/Value.tsx:164-168 | Unmount sets the flag false and progress 0. |
| ProcessSection.Focused | src/components/sections/Process.tsx:52-55 | The focus rule itself: point i is in focus while progress is strictly within 0.12 of 0.25·i. AtMostOneFocused and FocusSetSize state its consequences. |
| ProcessSection.StyleAt | src/components/sections/Process.tsx:50-60 | Point i gets (1, 0) exactly when it is within 0.12 of 0.25·i, and (0.2, 10) otherwise. |
| ProcessSection.AtMostOneFocused | src/components/sections/Process.tsx:52-55 | No two distinct points are ever in focus together. |
| ProcessSection.FocusSet | src/components/sections/Process.tsx:50-60 | The indices 0..3 of the points in focus. FocusSetSize, KeyframeFocusesItsPoint and GapsFocusNothing state its contents. |
| ProcessSection.FocusSetSize | src/components/sections/Process.tsx:50-60 | At any progress, at most one point is in focus. |
| ProcessSection.KeyframeFocusesItsPoint | src/components/sections/Process.tsx:52-56 | At keyframe 0.25·i, point i is the only point in focus. |
| ProcessSection.GapsFocusNothing | src/components/sections/Process.tsx:52-58 | Progress 0.125 and 1.0 focus no point. |
| ProcessSection.InitialMatchesProgressZero | src/components/sections/Process.tsx:65-72 | The mount styles (point 0 focused, the rest dimmed) are the rule's styles at progress 0. |
| ProcessSection.Section.constructor | src/components/sections/Process.tsx:65-72 | Mount gives the points those initial styles. |
| ProcessSection.Section.OnEnter | src/components/sections/Process.tsx:36-37 | Entering in either direction sets `isProcessActive` only. |
| ProcessSection.Section.OnLeave | src/components/sections/Process.tsx:38-41 | Leaving forward sets the flag false and progress 1. |
| ProcessSection.Section.OnLeaveBack | src/components/sections/Process.tsx:42-45 | Leaving backward sets the flag false and progress 0. |
| ProcessSection.Section.OnUpdate | src/components/sections/Process.tsx:46-60 | An update stores the progress as given and restyles every point by `StyleAt`. |
| ThinkingFramework.StyleFor | src/components/sections/ThinkingFramework.tsx:111-117 | A move to step k gives step k (1, 0) and every other step (0.15, 2). |
| ThinkingFramework.ExactlyOneOpaque | src/components/sections/ThinkingFramework.tsx:111-117 | After a move to any of the five steps, exactly that step is fully opaque. |
| ThinkingFramework.ItemHeight | src/components/sections/ThinkingFramework.tsx:41 | The item height is positive: 350 on desktop, 250 on mobile. |
| ThinkingFramework.ListOffset | src/components/sections/ThinkingFramework.tsx:119-122 | The list slides up by one item height per step. ListOffsetSteps states its values. |
| ThinkingFramework.ListOffsetSteps | src/components/sections/ThinkingFramework.tsx:119-122 | The offset is 0 for step 0 and falls by one item height per step, reaching −1400 or −1000 at step 4. |
| ThinkingFramework.AnimateToStep | src/components/sections/ThinkingFramework.tsx:111-124 | A move places a restyle and a list slide to `ListOffset`, both at the start time. |
| ThinkingFramework.Prefix | src/components/sections/ThinkingFramework.tsx:126-148 | The timeline through step k. The Prefix lemmas below state its shape. |
| ThinkingFramework.PrefixLength | src/components/sections/ThinkingFramework.tsx:126-148 | The timeline through step k has 3k + 1 tweens and begins with step 0 at time 0. |
| ThinkingFramework.PrefixOnTime | src/components/sections/ThinkingFramework.tsx:126-148 | Every step tween targets a step up to k and starts at time 2·step. |
| ThinkingFramework.PrefixOffsets | src/components/sections/ThinkingFramework.tsx:119-148 | Every list slide goes to its step's offset. |
| ThinkingFramework.PrefixBeforeOutro | src/components/sections/ThinkingFramework.tsx:126-155 | No tween before the outro starts at 10 or later. |
| ThinkingFramework.PrefixIncreasing | src/components/sections/ThinkingFramework.tsx:126-148 | Restyles appear in increasing step order with strictly increasing start times. |
| ThinkingFramework.PrefixOverlaysLead | src/components/sections/ThinkingFramework.tsx:134-148 | Every overlay change directly follows its step's slide and starts 0.5 earlier. |
| ThinkingFramework.PrefixHasEveryStep | src/components/sections/ThinkingFramework.tsx:126-148 | Every step up to k is restyled at time 2k. |
| ThinkingFramework.OutroKeeps | src/components/sections/ThinkingFramework.tsx:150-155 | Appending the outro keeps every schedule property. |
| ThinkingFramework.Schedule | src/components/sections/ThinkingFramework.tsx:126-155 | The timeline through step 4 followed by the outro at 10. ScheduleWellFormed states its shape. |
| ThinkingFramework.ScheduleWellFormed | src/components/sections/ThinkingFramework.tsx:126-155 | The 14-tween schedule has step 0 at 0 and every step k at 2k, in increasing order. List slides go to their offsets. Overlays lead by 0.5. The outro at 10 is last and after everything. |
| ThinkingFramework.BuildTimeline | src/components/sections/ThinkingFramework.tsx:126-155 | The timeline built call by call is `Schedule` for this viewport's item height. |
| ThinkingFramework.Section.constructor | src/components/sections/ThinkingFramework.tsx:160-165 | The section element is rendered with no opacity of its own, so it is fully opaque until a leave fades it. Fade target 1 stands for that default. |
| ThinkingFramework.Section.OnEnter | src/components/sections/ThinkingFramework.tsx:49 | Entering sets `isThinkingActive` only. |
| ThinkingFramework.Section.OnEnterBack | src/components/sections/ThinkingFramework.tsx:50-53 | Re-entering sets the flag and fades the section towards opacity 1. |
| ThinkingFramework.Section.OnLeave | src/components/sections/ThinkingFramework.tsx:54-57 | Leaving forward clears the flag and fades the section towards 0. |
| ThinkingFramework.Section.OnLeaveBack | src/components/sections/ThinkingFramework.tsx:58 | Leaving backward clears the flag only. |
| Atmosphere.Progress | src/components/dom/Atmosphere.tsx:16-20 | p lies in [0,1]. It is scrollY / maxScroll inside the range, 0 at or above the top, and 1 at or past the bottom. |
| Atmosphere.LayerOpacities | src/components/dom/Atmosphere.tsx:26-43 | The three opacities sum to 1 and lie in [0,1] for p in [0,1]. Sunset is 0 below one half and morning is 0 from one half on. |
| Atmosphere.LayersAreTents | src/components/dom/Atmosphere.tsx:30-43 | The branches equal three tent functions: max(0, 1−2p), 1−2·abs(p−½) and max(0, 2p−1). |
| Atmosphere.Keyframes | src/components/dom/Atmosphere.tsx:30-43 | p = 0, ½ and 1 give (1,0,0), (0,1,0) and (0,0,1). |
| Atmosphere.LayersMonotone | src/components/dom/Atmosphere.tsx:30-43 | Morning never increases and sunset never decreases with p. |
| Atmosphere.LayersContinuous | src/components/dom/Atmosphere.tsx:30-43 | Each opacity moves by at most 2·Δp, across p = ½ too. |
| Atmosphere.Update | src/components/dom/Atmosphere.tsx:15-50 | Without room to scroll, the update changes nothing, the flag included. Otherwise it writes `LayerOpacities` of the clamped scroll fraction, so the layers sum to 1. It also clears the flag and keeps the frame count. |
| Atmosphere.OnScroll | src/components/dom/Atmosphere.tsx:52-57 | While ticking a scroll does nothing. Otherwise it requests one frame and sets the flag. |
| Atmosphere.Frame | src/components/dom/Atmosphere.tsx:54 | Running a requested frame consumes it. Without room to scroll, the flag and the layers stay as they were. Otherwise the flag is cleared. |
| Atmosphere.ScrollKeepsCoalesced | src/components/dom/Atmosphere.tsx:52-57 | Scroll events keep at most one frame pending, and only while ticking. A second scroll adds nothing. |
| Atmosphere.FrameKeepsCoalesced | src/components/dom/Atmosphere.tsx:15-57 | Running the pending frame leaves none pending and keeps the invariant. |
| Atmosphere.GuardLeavesTicking | src/components/dom/Atmosphere.tsx:17 | A frame that meets the guard leaves the flag set. From then on scrolls request nothing. |
| Atmosphere.Background.constructor | src/components/dom/Atmosphere.tsx:12-60 | Mount starts from morning shown, the others transparent and the flag clear, then runs one update. |
| Atmosphere.Background.RunUpdate | src/components/dom/Atmosphere.tsx:15-50 | The method performs `Update`. |
| Atmosphere.Background.HandleScroll | src/components/dom/Atmosphere.tsx:52-57 | The method performs `OnScroll`. |
| Atmosphere.Background.RunFrame | src/components/dom/Atmosphere.tsx:54 | The method performs `Frame`. |
| SunMotion.RawProgress | src/components/canvas/Sun.tsx:184-186 | The offset is 0 without room to scroll, and scrollTop / maxScroll otherwise. It is in [0,1] inside the page and above 1 past it, so it is not clamped. |
| SunMotion.Target | src/components/canvas/Sun.tsx:204-236 | The target across the five bands. TargetEnds, TargetXBounded, TargetXContinuous and TargetZJumps state its properties. |
| SunMotion.TargetEnds | src/components/canvas/Sun.tsx:208-235 | Below 0.15 the target is the origin. At 1 it is (0, −1.5, 1). |
| SunMotion.TargetXBounded | src/components/canvas/Sun.tsx:204-236 | For offsets up to 1 the horizontal target lies in [−2.5, 2.5]. |
| SunMotion.TargetXContinuous | src/components/canvas/Sun.tsx:208-236 | The horizontal target moves by at most 50·Δoffset, so it agrees across every band boundary. |
| SunMotion.TargetZJumps | src/components/canvas/Sun.tsx:208-236 | Depth jumps at the boundaries: 0→−1 at 0.15, −1→−0.5 at 0.35, −0.5→−1 at 0.55, −1→0 at 0.75. |
| SunMotion.ResponsiveX | src/components/canvas/Sun.tsx:238 | Below a width of 768 the horizontal target is 0. Otherwise it is the band's. |
| SunMotion.Approach | src/components/canvas/Sun.tsx:241-243 | Each frame leaves 0.8 of the gap to the target in every coordinate. |
| SunMotion.GapShrinks | src/components/canvas/Sun.tsx:241-243 | After n frames towards a fixed target, the gap is 0.8ⁿ times the first one. |
| SunMotion.PowBounds | src/components/canvas/Sun.tsx:241-243 | 0.8ⁿ lies in (0, 1] and is below 1 after any frame. |
| SunMotion.SunMesh.constructor | src/components/canvas/Sun.tsx:261 | The mesh starts at the origin, unrotated, with both uniforms 0. |
| SunMotion.SunMesh.Frame | src/components/canvas/Sun.tsx:180-248 | A frame sets uTime 0.1·t, uScroll the offset, and rotations 0.02·t and 0.01·t, all from absolute time t. It moves the position one `Approach` step towards the responsive target. |
| Positioning.SplitBars | src/components/sections/Positioning.tsx:88 | The pieces are at least one and contain no bar. |
| Positioning.SplitBarsRoundTrip | src/components/sections/Positioning.tsx:88 | Joining the pieces with bars gives the text back. There is one piece more than there are bars, and the pieces alone spell the text without bars. |
| Positioning.SpaceRun | src/components/sections/Positioning.tsx:91 | It returns the longest whitespace prefix. |
| Positioning.WordRun | src/components/sections/Positioning.tsx:91 | It returns the longest prefix with no whitespace and no em dash. |
| Positioning.Tokens | src/components/sections/Positioning.tsx:91 | A piece is cut into maximal whitespace runs, single em dashes and maximal words, with no empty token. TokensRoundTrip and TokensWellFormed state this. |
| Positioning.TokenLength | src/components/sections/Positioning.tsx:91 | The first token is a non-empty prefix, and the remaining tokens are the rest's. |
| Positioning.TokensRoundTrip | src/components/sections/Positioning.tsx:91 | The tokens of a piece concatenate back to the piece. |
| Positioning.TokensHead | src/components/sections/Positioning.tsx:91 | The first token starts with the piece's first character. |
| Positioning.TokensWellFormed | src/components/sections/Positioning.tsx:91 | Every token is a non-empty whitespace run, an em dash, or a non-empty word without whitespace or dash. No two whitespace runs or two words are neighbours. |
| Positioning.KindsDisjoint | src/components/sections/Positioning.tsx:94-100 | No token is of two kinds. |
| Positioning.Classify | src/components/sections/Positioning.tsx:94-110 | An element keeps its key and shows its token's text. |
| Positioning.ClassifyKinds | src/components/sections/Positioning.tsx:94-110 | Whitespace becomes a plain span and the em dash an un-highlighted dash. Anything else becomes a word highlighted as its piece is. |
| Positioning.Tag | src/components/sections/Positioning.tsx:89-91 | One token per word, in order, each carrying the piece's highlight flag. |
| Positioning.Tagged | src/components/sections/Positioning.tsx:88-91 | The tokens of all pieces in order, piece i highlighted exactly when i is odd. TaggedStep and TaggedTexts state this. |
| Positioning.TaggedStep | src/components/sections/Positioning.tsx:89-90 | Piece i's tokens are tagged highlighted exactly when i is odd. |
| Positioning.TaggedTexts | src/components/sections/Positioning.tsx:88-91 | The tagged tokens spell the pieces one after another. |
| Positioning.ElementsSpellText | src/components/sections/Positioning.tsx:88-111 | Elements made from the tagged tokens spell the raw text without its bars. |
| Positioning.PushTokens | src/components/sections/Positioning.tsx:93-111 | The inner pass appends one element per token, with keys continuing from the running count. |
| Positioning.ExtendClassified | src/components/sections/Positioning.tsx:93-111 | Suppose the elements so far are the classified tokens so far. After one inner pass, they are the classified tokens with that piece's tokens appended. |
| Positioning.BuildElements | src/components/sections/Positioning.tsx:81-114 | Element k is the classified k-th tagged token. Its key is k, and the elements spell the raw text without its bars. |

## Left out

- The GLSL shaders of the sun are not modelled, because they are GPU float code. The same holds for the particle reactor.
- The tween library and its scroll-trigger plugin are not modelled: durations, easing curves, scrub, snap, pinning and staggered reveals. Where a callback starts a tween, the model records only the value the tween heads for.
- The header, spine and indicator tweens of the thinking framework are not modelled, and neither is its initial hiding of the steps. They are tween declarations with no logic.
- Each tween of the process points runs 0.3 s, and the model keeps only the final style.
- Real time is not modelled. Each `setTimeout` and `requestAnimationFrame` becomes an explicit event, and the clock's elapsed time is a parameter.
- React render semantics are not modelled. Handlers here read the current state, while the page's handlers read the state of the last render.
- Null-ref early returns are not modelled: `if (!point) return`, the refs checked at the top of a frame, and Value's mount guard for fewer than four points.
- `toFixed(3)` and the CSS strings built from values are not modelled, nor the removal of the scroll listener on unmount.
- IEEE float rounding is not modelled, because every value is a real.
- JavaScript strings are UTF-16 code units, while the tokeniser works on Unicode characters. The two agree for the paragraph, which has no character outside the basic plane.
- ValueSection.Smoothstep: requires edge0 < edge1. With equal edges the source divides by zero, and the section only ever calls it with edges 0 and 1.
- Atmosphere.Progress: requires maxScroll > 0. The source computes the clamp only after its guard has returned for maxScroll ≤ 0.
- ThinkingFramework.Section.OnEnterBack: the fade to opacity 1 over 0.3 s is modelled as its target value, and so is the fade to 0 in ThinkingFramework.Section.OnLeave.
- Nothing in the sections modelled here writes `diagnosticPulseTick` or `thinkingActiveStep`. The store's setters for them are modelled all the same.
- The store declares eight data fields (src/store/useScrollStore.ts:3-20), and the model has exactly those. Each frame sets the sun's rotation from absolute elapsed time (src/components/canvas/Sun.tsx:247-248), and the model does the same.
- Keyboard activation of hidden controls is not gated by `Enabled`. The hidden trigger, the back button, the inputs and the submit button stay in the tab order in every state (src/app/page.tsx:55-90). Only `AlwaysArmed` holds for such traces, and `KeyboardTraces` shows two of them.
- The section's concrete paragraph (src/components/sections/Positioning.tsx:85) is not written into the model. `BuildElements` is proved for every text.
