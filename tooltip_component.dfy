/** The tooltip component as a stateful object: its state fields, its element
    ref and the two handlers that update them. */
module TooltipComponent {

  import opened TooltipState

  class Tooltip {
    var isVisible: bool
    var yOffset: real
    var xOffset: real
    var elementWidth: real
    var elementHeight: real

    /** Whether the ref callback has stored a rendered element to measure. */
    var hasRenderedElement: bool

    /** The platform; on iOS the modal's own dismiss event reports closing. */
    const isIOS: bool

    /** How many times `toggleTooltip` has invoked `onClose` directly; the modal's
        `onDismiss` and `onRequestClose` invocations are not counted. */
    ghost var onCloseCalls: nat

    /** The state fields as one value. */
    function Snapshot(): (s: State)
      reads this
    {
      State(isVisible, yOffset, xOffset, elementWidth, elementHeight)
    }

    /** The element ref the next measurement would use, paired with what the host reports. */
    function Measured(m: Measurement): (r: Option<Measurement>)
      reads this
    {
      if hasRenderedElement then Some(m) else None
    }

    /** A freshly constructed component: hidden, nothing measured, no ref yet. */
    constructor (isIOS: bool)
      ensures this.isIOS == isIOS
      ensures Snapshot() == Initial
      ensures !isVisible && xOffset == 0.0 && yOffset == 0.0 && elementWidth == 0.0 && elementHeight == 0.0
      ensures !hasRenderedElement && onCloseCalls == 0
    {
      this.isIOS := isIOS;
      isVisible, yOffset, xOffset, elementWidth, elementHeight := false, 0.0, 0.0, 0.0, 0.0;
      hasRenderedElement := false;
      onCloseCalls := 0;
    }

    /** The `ref` callback of the outer view: stores or clears the element. */
    method SetRenderedElement(present: bool)
      modifies this
      ensures hasRenderedElement == present
      ensures Snapshot() == old(Snapshot()) && onCloseCalls == old(onCloseCalls)
    {
      hasRenderedElement := present;
    }

    /** `getElementPosition` with the callback's answer `m`: stores the page
        geometry when there is an element, changes nothing otherwise. The
        deferred call after mount is this method too. */
    method GetElementPosition(m: Measurement)
      modifies this
      ensures Snapshot() == TooltipState.GetElementPosition(old(Snapshot()), old(Measured(m)))
      ensures old(hasRenderedElement) ==>
                xOffset == m.pageOffsetX && yOffset == m.pageOffsetY &&
                elementWidth == m.width && elementHeight == m.height
      ensures !old(hasRenderedElement) ==> Snapshot() == old(Snapshot())
      ensures isVisible == old(isVisible)
      ensures hasRenderedElement == old(hasRenderedElement) && onCloseCalls == old(onCloseCalls)
    {
      if hasRenderedElement {
        xOffset, yOffset := m.pageOffsetX, m.pageOffsetY;
        elementWidth, elementHeight := m.width, m.height;
      }
    }

    /** `toggleTooltip`: re-measures, flips visibility, and invokes `onClose`
        when closing off iOS. */
    method ToggleTooltip(m: Measurement)
      modifies this
      ensures Snapshot() == TooltipState.ToggleTooltip(old(Snapshot()), old(Measured(m)))
      ensures isVisible == !old(isVisible)
      ensures onCloseCalls == old(onCloseCalls) + (if old(isVisible) && !isIOS then 1 else 0)
      ensures hasRenderedElement == old(hasRenderedElement)
    {
      GetElementPosition(m);
      if isVisible && !isIOS {
        onCloseCalls := onCloseCalls + 1;
      }
      isVisible := !isVisible;
    }
  }
}
