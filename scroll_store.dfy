/**
 * The shared scroll-signal store: eight plain fields read by the 3D scene
 * and written by the pinned sections, each with a setter that overwrites
 * that one field and nothing else.  Setters neither validate nor clamp.
 */
module Store {

  /** The store's data, as a value. */
  datatype ScrollState = ScrollState(
    processProgress: real,
    isProcessActive: bool,
    diagnosticProgress: real,
    isDiagnosticActive: bool,
    diagnosticActivePoint: real,
    diagnosticPulseTick: real,
    isThinkingActive: bool,
    thinkingActiveStep: real)

  const InitialState := ScrollState(0.0, false, 0.0, false, 0.0, 0.0, false, 0.0)

  /** One setter call with its argument. */
  datatype Write =
    | SetProcessProgress(progress: real)
    | SetIsProcessActive(isActive: bool)
    | SetDiagnosticProgress(progress: real)
    | SetIsDiagnosticActive(isActive: bool)
    | SetDiagnosticActivePoint(point: real)
    | SetDiagnosticPulseTick(tick: real)
    | SetIsThinkingActive(isActive: bool)
    | SetThinkingActiveStep(step: real)

  datatype Field =
    | ProcessProgress | IsProcessActive | DiagnosticProgress | IsDiagnosticActive
    | DiagnosticActivePoint | DiagnosticPulseTick | IsThinkingActive | ThinkingActiveStep

  function FieldOf(w: Write): Field {
    match w
    case SetProcessProgress(_) => ProcessProgress
    case SetIsProcessActive(_) => IsProcessActive
    case SetDiagnosticProgress(_) => DiagnosticProgress
    case SetIsDiagnosticActive(_) => IsDiagnosticActive
    case SetDiagnosticActivePoint(_) => DiagnosticActivePoint
    case SetDiagnosticPulseTick(_) => DiagnosticPulseTick
    case SetIsThinkingActive(_) => IsThinkingActive
    case SetThinkingActiveStep(_) => ThinkingActiveStep
  }

  /** Two states agree on a field. */
  predicate SameAt(s: ScrollState, t: ScrollState, f: Field) {
    match f
    case ProcessProgress => s.processProgress == t.processProgress
    case IsProcessActive => s.isProcessActive == t.isProcessActive
    case DiagnosticProgress => s.diagnosticProgress == t.diagnosticProgress
    case IsDiagnosticActive => s.isDiagnosticActive == t.isDiagnosticActive
    case DiagnosticActivePoint => s.diagnosticActivePoint == t.diagnosticActivePoint
    case DiagnosticPulseTick => s.diagnosticPulseTick == t.diagnosticPulseTick
    case IsThinkingActive => s.isThinkingActive == t.isThinkingActive
    case ThinkingActiveStep => s.thinkingActiveStep == t.thinkingActiveStep
  }

  /** The value a write stores, as it is stored. */
  predicate Holds(s: ScrollState, w: Write) {
    match w
    case SetProcessProgress(v) => s.processProgress == v
    case SetIsProcessActive(v) => s.isProcessActive == v
    case SetDiagnosticProgress(v) => s.diagnosticProgress == v
    case SetIsDiagnosticActive(v) => s.isDiagnosticActive == v
    case SetDiagnosticActivePoint(v) => s.diagnosticActivePoint == v
    case SetDiagnosticPulseTick(v) => s.diagnosticPulseTick == v
    case SetIsThinkingActive(v) => s.isThinkingActive == v
    case SetThinkingActiveStep(v) => s.thinkingActiveStep == v
  }

  /** A write stores its argument unchanged, with no clamp or check, and
      leaves every other field as it was. */
  function Apply(s: ScrollState, w: Write): (t: ScrollState)
    ensures Holds(t, w)
    ensures forall f :: f != FieldOf(w) ==> SameAt(t, s, f)
  {
    match w
    case SetProcessProgress(v) => s.(processProgress := v)
    case SetIsProcessActive(v) => s.(isProcessActive := v)
    case SetDiagnosticProgress(v) => s.(diagnosticProgress := v)
    case SetIsDiagnosticActive(v) => s.(isDiagnosticActive := v)
    case SetDiagnosticActivePoint(v) => s.(diagnosticActivePoint := v)
    case SetDiagnosticPulseTick(v) => s.(diagnosticPulseTick := v)
    case SetIsThinkingActive(v) => s.(isThinkingActive := v)
    case SetThinkingActiveStep(v) => s.(thinkingActiveStep := v)
  }

  function ApplyAll(s: ScrollState, ws: seq<Write>): ScrollState
    decreases |ws|
  {
    if ws == [] then s else ApplyAll(Apply(s, ws[0]), ws[1..])
  }

  lemma InitialValues()
    ensures InitialState.processProgress == 0.0 && InitialState.diagnosticProgress == 0.0
    ensures !InitialState.isProcessActive && !InitialState.isDiagnosticActive && !InitialState.isThinkingActive
    ensures InitialState.diagnosticActivePoint == 0.0 && InitialState.diagnosticPulseTick == 0.0
    ensures InitialState.thinkingActiveStep == 0.0
  {
  }

  /** Of two writes to one field, the second wins; writing twice is writing once. */
  lemma LastWriteWins(s: ScrollState, w1: Write, w2: Write)
    requires FieldOf(w1) == FieldOf(w2)
    ensures Apply(Apply(s, w1), w2) == Apply(s, w2)
    ensures Apply(Apply(s, w2), w2) == Apply(s, w2)
  {
  }

  lemma DistinctWritesCommute(s: ScrollState, w1: Write, w2: Write)
    requires FieldOf(w1) != FieldOf(w2)
    ensures Apply(Apply(s, w1), w2) == Apply(Apply(s, w2), w1)
  {
  }

  /** A field no write in a batch touches keeps its value through the batch. */
  lemma {:induction false} UntouchedFieldKept(s: ScrollState, ws: seq<Write>, f: Field)
    requires forall i :: 0 <= i < |ws| ==> FieldOf(ws[i]) != f
    ensures SameAt(ApplyAll(s, ws), s, f)
    decreases |ws|
  {
    if ws != [] {
      UntouchedFieldKept(Apply(s, ws[0]), ws[1..], f);
      assert SameAt(Apply(s, ws[0]), s, f);
      assert SameAt(ApplyAll(Apply(s, ws[0]), ws[1..]), Apply(s, ws[0]), f);
      SameAtTransitive(ApplyAll(s, ws), Apply(s, ws[0]), s, f);
    }
  }

  lemma SameAtTransitive(a: ScrollState, b: ScrollState, c: ScrollState, f: Field)
    requires SameAt(a, b, f) && SameAt(b, c, f)
    ensures SameAt(a, c, f)
  {
  }

  /** The store object.  Every setter is a method that changes its own field. */
  class ScrollStore {
    var processProgress: real
    var isProcessActive: bool
    var diagnosticProgress: real
    var isDiagnosticActive: bool
    var diagnosticActivePoint: real
    var diagnosticPulseTick: real
    var isThinkingActive: bool
    var thinkingActiveStep: real

    function Snapshot(): ScrollState
      reads this
    {
      ScrollState(processProgress, isProcessActive, diagnosticProgress, isDiagnosticActive,
                  diagnosticActivePoint, diagnosticPulseTick, isThinkingActive, thinkingActiveStep)
    }

    constructor ()
      ensures Snapshot() == InitialState
    {
      processProgress := 0.0;
      isProcessActive := false;
      diagnosticProgress := 0.0;
      isDiagnosticActive := false;
      diagnosticActivePoint := 0.0;
      diagnosticPulseTick := 0.0;
      isThinkingActive := false;
      thinkingActiveStep := 0.0;
    }

    method SetProcessProgress(progress: real)
      modifies this
      ensures Snapshot() == old(Snapshot()).(processProgress := progress)
    {
      processProgress := progress;
    }

    method SetIsProcessActive(isActive: bool)
      modifies this
      ensures Snapshot() == old(Snapshot()).(isProcessActive := isActive)
    {
      isProcessActive := isActive;
    }

    method SetDiagnosticProgress(progress: real)
      modifies this
      ensures Snapshot() == old(Snapshot()).(diagnosticProgress := progress)
    {
      diagnosticProgress := progress;
    }

    method SetIsDiagnosticActive(isActive: bool)
      modifies this
      ensures Snapshot() == old(Snapshot()).(isDiagnosticActive := isActive)
    {
      isDiagnosticActive := isActive;
    }

    method SetDiagnosticActivePoint(point: real)
      modifies this
      ensures Snapshot() == old(Snapshot()).(diagnosticActivePoint := point)
    {
      diagnosticActivePoint := point;
    }

    method SetDiagnosticPulseTick(tick: real)
      modifies this
      ensures Snapshot() == old(Snapshot()).(diagnosticPulseTick := tick)
    {
      diagnosticPulseTick := tick;
    }

    method SetIsThinkingActive(isActive: bool)
      modifies this
      ensures Snapshot() == old(Snapshot()).(isThinkingActive := isActive)
    {
      isThinkingActive := isActive;
    }

    method SetThinkingActiveStep(step: real)
      modifies this
      ensures Snapshot() == old(Snapshot()).(thinkingActiveStep := step)
    {
      thinkingActiveStep := step;
    }

    /** Any setter, chosen by the write it performs. */
    method Perform(w: Write)
      modifies this
      ensures Snapshot() == Apply(old(Snapshot()), w)
    {
      match w
      case SetProcessProgress(v) => SetProcessProgress(v);
      case SetIsProcessActive(v) => SetIsProcessActive(v);
      case SetDiagnosticProgress(v) => SetDiagnosticProgress(v);
      case SetIsDiagnosticActive(v) => SetIsDiagnosticActive(v);
      case SetDiagnosticActivePoint(v) => SetDiagnosticActivePoint(v);
      case SetDiagnosticPulseTick(v) => SetDiagnosticPulseTick(v);
      case SetIsThinkingActive(v) => SetIsThinkingActive(v);
      case SetThinkingActiveStep(v) => SetThinkingActiveStep(v);
    }
  }
}
