/** The dial of a VFO as the encoder turns it: each detent moves the
    `unsigned long` frequency by the tuning step, and a move that would wrap
    past either end of the 32-bit range stops at that end instead.
 */
module VfoTuner {
  import opened Platform

  /** The two fields of the VFO the tuner touches, both `unsigned long`. */
  datatype Vfo = Vfo(frequency: nat, step: nat)

  predicate Valid(v: Vfo) {
    IsU32(v.frequency) && IsU32(v.step)
  }

  /** The encoder event codes: one detent clockwise, one counter-clockwise. */
  const TURN_UP: int := 1
  const TURN_DOWN: int := -1

  /** One detent up: the 32-bit sum, replaced by the top of the range when
      it wrapped below the old frequency. */
  function StepUp(v: Vfo): (r: Vfo)
    requires Valid(v)
    ensures Valid(r) && r.step == v.step
    ensures r.frequency == if v.frequency + v.step <= U32_MAX then v.frequency + v.step else U32_MAX
  {
    var f := U32(v.frequency + v.step);
    v.(frequency := if v.frequency > f then U32_MAX else f)
  }

  /** One detent down: the 32-bit difference, replaced by zero when it
      wrapped above the old frequency. */
  function StepDown(v: Vfo): (r: Vfo)
    requires Valid(v)
    ensures Valid(r) && r.step == v.step
    ensures r.frequency == if v.frequency >= v.step then v.frequency - v.step else 0
  {
    var f := U32(v.frequency - v.step);
    v.(frequency := if v.frequency < f then 0 else f)
  }

  /** `event_sink(event, event_data)`: up or down one step for the two turn
      codes, nothing for any other event; the event is always consumed. */
  function EventSink(v: Vfo, event: int, eventData: int): (r: (Vfo, bool))
    requires Valid(v)
    ensures r.1 && Valid(r.0) && r.0.step == v.step
    ensures event == TURN_UP ==> r.0 == StepUp(v)
    ensures event == TURN_DOWN ==> r.0 == StepDown(v)
    ensures event != TURN_UP && event != TURN_DOWN ==> r.0 == v
  {
    if event == TURN_UP then (StepUp(v), true)
    else if event == TURN_DOWN then (StepDown(v), true)
    else (v, true)
  }

  /** `event_sink(pressed, long_pressed)`: a press is never consumed and
      leaves the dial alone. */
  function PressSink(v: Vfo, pressed: bool, longPressed: bool): (r: (Vfo, bool))
    ensures r == (v, false)
  {
    (v, false)
  }

  /** Turning never moves the dial the wrong way, and never jumps across the
      range: the frequency after a turn up is at least the one before and
      at most one step above it, and the other way round for a turn down. */
  lemma TurnsAreMonotone(v: Vfo)
    requires Valid(v)
    ensures v.frequency <= StepUp(v).frequency <= v.frequency + v.step
    ensures v.frequency - v.step <= StepDown(v).frequency <= v.frequency
  {
  }

  /** A turn up followed by a turn down comes back to the same frequency
      unless the turn up stopped at the top; likewise down then up, unless
      the turn down stopped at zero. */
  lemma TurnsUndoEachOther(v: Vfo)
    requires Valid(v)
    ensures v.frequency + v.step <= U32_MAX ==> StepDown(StepUp(v)) == v
    ensures v.frequency >= v.step ==> StepUp(StepDown(v)) == v
  {
  }

  /** At either end the dial stays put: turning up at the top or down at
      zero changes nothing. */
  lemma EndsAreFixedPoints(v: Vfo)
    requires Valid(v)
    ensures v.frequency == U32_MAX ==> StepUp(v) == v
    ensures v.frequency == 0 ==> StepDown(v) == v
  {
  }
}
