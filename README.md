# Tooltip placement and visibility, modelled in Dafny

This project models the logic inside the React Native `Tooltip` component
(`src/tooltip/Tooltip.js`). The component shows a popover bubble next to an
anchor element, inside a modal, and can draw a small pointer triangle between
the two. It has two parts, and this project models both:

* **Placement** (`tooltip_placement.dfy`, module `TooltipPlacement`).
  `getTooltipStyle` decides the popover's `top` and `left`. `renderPointer`
  decides where the pointer goes and which way it faces. Both are written as
  functions over exact `real` numbers. The component imports two helpers,
  `getTooltipCoordinate` and `getElementVisibleWidth`, whose source is not part
  of this model. They are passed in as function parameters, and a lemma assumes
  something about them only when it says so in its `requires`.
* **State** (`tooltip_state.dfy`, module `TooltipState`, and
  `tooltip_component.dfy`, module `TooltipComponent`). The component's state is
  `isVisible` plus the anchor's measured geometry. `toggleTooltip` re-measures
  the anchor, flips visibility, and invokes `onClose` when it closes the
  tooltip on a platform other than iOS. `getElementPosition` stores a
  measurement, or does nothing when there is no element ref.
  * `TooltipState` gives these updates as functions on a `State` value. It also
    proves what happens over any sequence of toggles and measurements.
  * `TooltipComponent.Tooltip` is a class with the same fields. Each method's
    postcondition ties the new field values to those functions. A ghost field,
    `onCloseCalls`, counts how many times `toggleTooltip` invokes `onClose`.

What comes from outside the component is a parameter:

* The platform flag `isIOS`, a constructor argument.
* The screen size (`Screen`).
* The props that take part in placement (`Props`: `width`, `height`,
  `withPointer`, `addYOffset`).
* What the host's `measure` call reports (`Measurement`).

The optional `addYOffset` is an `Option<real>`. JavaScript treats both a missing
value and `0` as falsy, so both mean "no offset" (`Decay`).

Some consequences of the code that are easy to misread:

* The popover's side is decided by `yOffset > y` (lines 74-75), where `y` is
  the helper's answer. Any midline heuristic lives inside
  `getTooltipCoordinate`, which is not part of this model.
* A 310-wide popover on a 320-wide screen sits at `x = 5` only when centring it
  on the anchor does not fit (line 80). When (anchor centre − 155) is in
  `[0, 10]`, it stays centred on the anchor. `WidePopoverScenario` states this.
* The default 150×40 popover for an anchor at x = 10, 50 wide, on a 320-wide
  screen is not centred on the anchor. The centred left edge would be −40, so
  the popover falls back to the helper's `x`. `DefaultPopoverNearLeftEdge`
  states this.
* For a narrow popover that cannot be centred on its anchor, left lies in
  `[0, ScreenWidth − width]` only when the helper's own `x` does. `StaysOnScreen` states the bound with that condition.

## Model

| member | source | states |
|---|---|---|
| `TooltipState.ApplyMeasurement` | src/tooltip/Tooltip.js:182-187 | the callback's update sets xOffset/yOffset/elementWidth/elementHeight to pageOffsetX/pageOffsetY/width/height and keeps isVisible |
| `TooltipState.GetElementPosition` | src/tooltip/Tooltip.js:171-190 | with no element ref the state is unchanged; with one, the measurement is stored; visibility is kept either way |
| `TooltipState.ToggleTooltip` | src/tooltip/Tooltip.js:25-35 | isVisible is negated, and every other field is as the re-measurement leaves it |
| `TooltipState.InitialIsUnmeasuredHidden` | src/tooltip/Tooltip.js:15-21 | the initial state is hidden and every geometry field is 0 |
| `TooltipState.MeasurementIgnoresFrameOffsets` | src/tooltip/Tooltip.js:174-187 | the stored state does not depend on frameOffsetX or frameOffsetY |
| `TooltipState.ToggleOrderIrrelevant` | src/tooltip/Tooltip.js:25-34 | measuring before the visibility flip or after it (the callback is asynchronous) gives the same state |
| `TooltipState.ToggleTwiceRestoresVisibility` | src/tooltip/Tooltip.js:28-33 | two toggles, with any measurements, restore the original visibility |
| `TooltipState.RunVisibility` | src/tooltip/Tooltip.js:25-35 | after any sequence of toggles and measurements, the tooltip is visible iff it started visible and was toggled an even number of times, or started hidden and was toggled an odd number of times |
| `TooltipState.RunCloseCalls` | src/tooltip/Tooltip.js:28-31 | over any such sequence, toggleTooltip invokes onClose (T + v) / 2 times off iOS (T toggles, v = 1 if it started visible, else 0), and toggleTooltip never invokes it on iOS |
| `TooltipState.FromInitial` | src/tooltip/Tooltip.js:15-35 | from the initial state, T toggles end visible iff T is odd, and toggleTooltip invokes onClose T / 2 times off iOS |
| `TooltipComponent.Tooltip.constructor` | src/tooltip/Tooltip.js:15-23 | a new component is hidden, holds zero geometry, has no element ref and has invoked onClose 0 times |
| `TooltipComponent.Tooltip.SetRenderedElement` | src/tooltip/Tooltip.js:201-203 | the ref callback changes only whether an element is present |
| `TooltipComponent.Tooltip.GetElementPosition` | src/tooltip/Tooltip.js:171-190 | with an element, the four geometry fields take the measured page values; without one, nothing changes; visibility and the onClose count never change |
| `TooltipComponent.Tooltip.ToggleTooltip` | src/tooltip/Tooltip.js:25-35 | the state becomes the re-measured state with isVisible negated, and the onClose count grows by one exactly when the old isVisible was true and the platform is not iOS |
| `TooltipPlacement.GetTooltipStyle` | src/tooltip/Tooltip.js:52-87 | top is y + addYOffset when yOffset > y and y − addYOffset otherwise (y is the helper's), and equals y iff the offset is absent or 0; left is the anchor-centred value when that fits in [0, ScreenWidth]; otherwise it is (ScreenWidth − width)/2 when width ≥ 0.94·ScreenWidth, and the helper's x when narrower |
| `TooltipPlacement.RenderPointer` | src/tooltip/Tooltip.js:108-129 | isDown iff yOffset > tooltipY; top is yOffset − 13 + offset when pointing down, else yOffset + elementHeight − 2 − offset; left + 7.5 is the unclamped popover centre |
| `TooltipPlacement.PointerFor` | src/tooltip/Tooltip.js:158 | a pointer is drawn iff withPointer, and it faces down iff yOffset exceeds the popover's offset top |
| `TooltipPlacement.StaysOnScreen` | src/tooltip/Tooltip.js:77-87 | a popover no wider than the screen lies within [0, ScreenWidth], provided the helper's x keeps a narrow popover on screen |
| `TooltipPlacement.WideIgnoresAnchor` | src/tooltip/Tooltip.js:80-83 | a wide popover that cannot be centred on its anchor gets the same left for every anchor and every helper |
| `TooltipPlacement.PointerCentredOnPopover` | src/tooltip/Tooltip.js:77-123 | when the anchor-centred left fits, the pointer's centre is the popover's centre |
| `TooltipPlacement.PointerFacesPopover` | src/tooltip/Tooltip.js:74-119 | the pointer's direction matches the popover's side iff the offset does not move top across yOffset; without an offset it always matches |
| `TooltipPlacement.DefaultPopoverNearLeftEdge` | src/tooltip/Tooltip.js:77-86 | a default 150-wide popover for an anchor at x = 10, 50 wide, on a 320 screen has centred left −40 and uses the helper's x |
| `TooltipPlacement.WidePopoverScenario` | src/tooltip/Tooltip.js:80-83 | a 310-wide popover on a 320 screen always fits, and sits at 5 whenever anchor-centring does not fit |

## Left out

- JSX rendering is not modelled: the touchables, the modal, the highlight box, the triangle's colours and the overlay styles. They only pass computed numbers through.
- The external store registration `setToggleActiveTooltip` and the `globalStore` injection are not modelled. Both belong to an external application store.
- The 500 ms `setTimeout` after mount and the host's `measure` call are not modelled. They are a timer and host I/O. The model keeps only the update the callback performs, and the deferred measurement is a call of `GetElementPosition`. Measurement and visibility flip are applied in one step; `ToggleOrderIrrelevant` shows that their order does not matter.
- The bodies of `getTooltipCoordinate` and `getElementVisibleWidth` are not modelled, because their source is not part of this model. They are function parameters.
- `propTypes`, `defaultProps` and `withTheme` are not modelled; they are declarations and theming. The default width 150 and height 40 appear only as `DefaultWidth` and `DefaultHeight` in the worked scenarios.
- `TooltipComponent.Tooltip.ToggleTooltip`: assumes `onClose` is present. `onClose && onClose()` skips a missing callback. `defaultProps` supplies a no-op one whenever the prop is omitted; an explicit null `onClose` is not modelled.
- Floating-point arithmetic is not modelled; pixel values are exact reals.
- A string-valued `width`, which `propTypes` allows, is not modelled. The arithmetic assumes a number.
- Style fields that are constants are not modelled, such as `borderRadius` and `padding`.
- The spread of `containerStyle` is not modelled. It comes after `left` and `top` (line 104), so a `containerStyle` holding `top` or `left` overrides the computed placement. Through line 158 it then also overrides the `tooltipY` that decides the pointer's direction, which `PointerFor` takes from the computed `top`.
- The modal's own `onDismiss={onClose}` and `onRequestClose={onClose}` (lines 210, 212) are not modelled. The host fires them, so the `onClose` counts (`onCloseCalls`, `CloseCalls`) cover only the direct call at line 30.
