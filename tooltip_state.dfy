/** The tooltip component's React state and the two updates that change it:
    toggling the modal and storing a measurement of the anchor element. */
module TooltipState {

  datatype Option<T> = None | Some(value: T)

  /** The component's state object: visibility and the anchor's measured geometry. */
  datatype State = State(
    isVisible: bool,
    yOffset: real,
    xOffset: real,
    elementWidth: real,
    elementHeight: real)

  /** The six numbers the host's `measure` callback delivers, in the order it delivers them. */
  datatype Measurement = Measurement(
    frameOffsetX: real,
    frameOffsetY: real,
    width: real,
    height: real,
    pageOffsetX: real,
    pageOffsetY: real)

  /** The state before anything has been measured. */
  const Initial: State := State(false, 0.0, 0.0, 0.0, 0.0)

  /** Hidden, not yet measured. */
  predicate IsUnmeasuredHidden(s: State) {
    !s.isVisible && s.xOffset == 0.0 && s.yOffset == 0.0 && s.elementWidth == 0.0 && s.elementHeight == 0.0
  }

  /** The partial `setState` the measure callback performs. */
  function ApplyMeasurement(s: State, m: Measurement): (r: State)
    ensures r.isVisible == s.isVisible
    ensures r.xOffset == m.pageOffsetX && r.yOffset == m.pageOffsetY
    ensures r.elementWidth == m.width && r.elementHeight == m.height
  {
    s.(xOffset := m.pageOffsetX, yOffset := m.pageOffsetY,
       elementWidth := m.width, elementHeight := m.height)
  }

  /** `getElementPosition`: `None` stands for an unset element ref, in which case
      nothing is measured; otherwise the measurement is stored. */
  function GetElementPosition(s: State, m: Option<Measurement>): (r: State)
    ensures r.isVisible == s.isVisible
    ensures m.None? ==> r == s
    ensures m.Some? ==> r == ApplyMeasurement(s, m.value)
  {
    match m
    case None => s
    case Some(mm) => ApplyMeasurement(s, mm)
  }

  /** Whether `toggleTooltip` invokes `onClose` from state `s`. */
  predicate ClosesOnToggle(s: State, isIOS: bool) {
    s.isVisible && !isIOS
  }

  /** `toggleTooltip`: re-measure, then flip visibility. */
  function ToggleTooltip(s: State, m: Option<Measurement>): (r: State)
    ensures r.isVisible == !s.isVisible
    ensures r.(isVisible := s.isVisible) == GetElementPosition(s, m)
  {
    GetElementPosition(s, m).(isVisible := !s.isVisible)
  }

  lemma InitialIsUnmeasuredHidden()
    ensures IsUnmeasuredHidden(Initial)
  {
  }

  /** The frame offsets relative to the parent play no part in a measurement;
      only the page geometry is stored. */
  lemma MeasurementIgnoresFrameOffsets(s: State, m: Measurement)
    ensures forall fx, fy :: ApplyMeasurement(s, m.(frameOffsetX := fx, frameOffsetY := fy)) == ApplyMeasurement(s, m)
  {
  }

  /** The measure callback arrives asynchronously, after the visibility update;
      since the two touch disjoint fields, either order gives the same state. */
  lemma ToggleOrderIrrelevant(s: State, m: Option<Measurement>)
    ensures ToggleTooltip(s, m) == GetElementPosition(s.(isVisible := !s.isVisible), m)
  {
  }

  /** Two toggles restore the original visibility. */
  lemma ToggleTwiceRestoresVisibility(s: State, m1: Option<Measurement>, m2: Option<Measurement>)
    ensures ToggleTooltip(ToggleTooltip(s, m1), m2).isVisible == s.isVisible
  {
  }

  // ---------------------------------------------------------------------------
  // Traces: the state machine has no terminal state, so its behaviour over any
  // sequence of user toggles and deferred measurements is described here.

  datatype Event =
    | Toggle(toggleMeasure: Option<Measurement>)  // a press on the scrim or the anchor
    | Measure(measure: Option<Measurement>)       // the deferred measurement after mount

  function Step(s: State, e: Event): (r: State) {
    match e
    case Toggle(m) => ToggleTooltip(s, m)
    case Measure(m) => GetElementPosition(s, m)
  }

  /** The state after handling `es` in order, starting from `s`. */
  function Run(s: State, es: seq<Event>): (r: State)
    decreases |es|
  {
    if es == [] then s else Run(Step(s, es[0]), es[1..])
  }

  /** How many times `toggleTooltip` itself invokes `onClose` while handling `es`
      (the modal's own dismiss events are not counted). */
  function CloseCalls(s: State, es: seq<Event>, isIOS: bool): (n: nat)
    decreases |es|
  {
    if es == [] then 0
    else (if es[0].Toggle? && ClosesOnToggle(s, isIOS) then 1 else 0)
         + CloseCalls(Step(s, es[0]), es[1..], isIOS)
  }

  function ToggleCount(es: seq<Event>): (n: nat)
    decreases |es|
  {
    if es == [] then 0 else (if es[0].Toggle? then 1 else 0) + ToggleCount(es[1..])
  }

  /** After any trace, the tooltip is visible exactly when it started visible and
      was toggled an even number of times, or started hidden and was toggled an
      odd number of times; measurements never change visibility. */
  lemma {:induction false} RunVisibility(s: State, es: seq<Event>)
    ensures Run(s, es).isVisible == (s.isVisible != (ToggleCount(es) % 2 == 1))
    decreases |es|
  {
    if es != [] {
      RunVisibility(Step(s, es[0]), es[1..]);
    }
  }

  /** `toggleTooltip` invokes `onClose` once per closing toggle when not on iOS,
      and never on iOS:
      with T toggles from a state that is visible (v = 1) or hidden (v = 0), that
      is (T + v) / 2 calls. */
  lemma {:induction false} RunCloseCalls(s: State, es: seq<Event>, isIOS: bool)
    ensures CloseCalls(s, es, isIOS)
            == if isIOS then 0 else (ToggleCount(es) + (if s.isVisible then 1 else 0)) / 2
    decreases |es|
  {
    if es != [] {
      RunCloseCalls(Step(s, es[0]), es[1..], isIOS);
    }
  }

  /** From the initial state, any trace with T toggles has `toggleTooltip` invoke `onClose` T / 2 times
      off iOS and ends visible exactly when T is odd. */
  lemma {:induction false} FromInitial(es: seq<Event>, isIOS: bool)
    ensures Run(Initial, es).isVisible == (ToggleCount(es) % 2 == 1)
    ensures CloseCalls(Initial, es, isIOS) == if isIOS then 0 else ToggleCount(es) / 2
  {
    RunVisibility(Initial, es);
    RunCloseCalls(Initial, es, isIOS);
  }
}
