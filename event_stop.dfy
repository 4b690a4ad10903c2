/**
 * What the overlay does to a pointer event it handles: `stop` always stops
 * propagation (both kinds) and cancels the default action only for a
 * `mousedown` whose target is not a form control, so that the seek slider and
 * the speed selector keep working while the host page never sees the press.
 */
module EventStop {

  datatype Effect = Effect(stopPropagation: bool, stopImmediatePropagation: bool, preventDefault: bool)

  /** Nothing done: the event reaches the host page as usual. */
  const PassThrough: Effect := Effect(false, false, false)

  /** The blocker is a plain `div`. */
  const BlockerTag: string := "DIV"

  /** The `stop` handler. */
  function Stop(eventType: string, targetTag: string): (e: Effect)
    ensures e.stopPropagation && e.stopImmediatePropagation
    ensures e.preventDefault <==> eventType == "mousedown" && targetTag != "SELECT" && targetTag != "INPUT"
  {
    Effect(true, true, eventType == "mousedown" && targetTag != "SELECT" && targetTag != "INPUT")
  }

  /** The four events the blocker has a handler for. */
  predicate BlockerCatches(eventType: string)
  {
    eventType == "click" || eventType == "mousedown" || eventType == "mouseup" || eventType == "dblclick"
  }

  /** An event dispatched at the blocker. */
  function AtBlocker(eventType: string): Effect
  {
    if BlockerCatches(eventType) then Stop(eventType, BlockerTag) else PassThrough
  }

  /**
   * The blocker swallows presses and clicks, cancels the press's default action,
   * and lets every other event (wheel, touch, pointer moves) through, so the
   * page still scrolls underneath it.
   */
  lemma BlockerContract(eventType: string)
    ensures BlockerCatches(eventType) ==> AtBlocker(eventType).stopPropagation
    ensures AtBlocker(eventType).preventDefault <==> eventType == "mousedown"
    ensures !BlockerCatches(eventType) ==> AtBlocker(eventType) == PassThrough
  {
  }

  /** A press on the seek slider is stopped but not cancelled, so the slider can still be dragged. */
  lemma SliderPressKeepsDefault()
    ensures Stop("mousedown", "INPUT").stopPropagation
    ensures !Stop("mousedown", "INPUT").preventDefault
  {
  }
}
