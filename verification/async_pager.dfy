/** The non-blocking two-tone sequential pager.

    A page is tone A for one second, tone B for three seconds with no gap,
    then, when repeating, a silence of three to six seconds before the next
    tone A. Without repeat the pager falls idle after tone B.
 */
module Pager {
  import opened Platform
  import opened Modulator

  const PAGER_TONE_A_DURATION: nat := 1000
  const PAGER_TONE_B_DURATION: nat := 3000
  const PAGER_SILENCE_MIN: nat := 3000
  const PAGER_SILENCE_MAX: nat := 6000

  datatype PagerState = ToneA | ToneB | Silence

  /** `nextEvent` 0 means the first step has not happened yet. */
  datatype Pager = Pager(
    active: bool,
    repeat: bool,
    transmitting: bool,
    state: PagerState,
    nextEvent: nat,
    initialized: bool)

  /** The pager's flags agree: it transmits exactly in the tone states, only
      while active, and an armed-but-unstarted pager is at tone A. */
  predicate Inv(p: Pager) {
    (p.transmitting <==> p.state != Silence)
    && (!p.active ==> !p.transmitting)
    && (p.active ==> p.initialized)
    && (p.active && p.nextEvent == 0 ==> p.state == ToneA)
  }

  /** The constructor: idle, silent, never started. */
  function NewPager(): (p: Pager)
    ensures !p.active && !p.initialized && !p.transmitting && p.state == Silence && Inv(p)
  {
    Pager(false, false, false, Silence, 0, false)
  }

  /** `start_pager_transmission(repeat)`: arm tone A; its timing is set by the first step. */
  function StartPagerTransmission(p: Pager, repeat: bool): (r: Pager)
    ensures r.active && r.initialized && r.repeat == repeat
    ensures r.state == ToneA && r.transmitting && r.nextEvent == 0
    ensures Inv(r)
  {
    Pager(true, repeat, true, ToneA, 0, true)
  }

  /** `get_random_silence_duration()`. */
  function RandomSilenceDuration(draw: nat): (d: nat)
    ensures PAGER_SILENCE_MIN <= d < PAGER_SILENCE_MAX
  {
    PAGER_SILENCE_MIN + Random(draw, PAGER_SILENCE_MAX - PAGER_SILENCE_MIN)
  }

  /** `start_next_phase(time)`: A is followed by B at once; B by silence when
      repeating, otherwise the pager goes idle; silence by A. */
  function StartNextPhase(p: Pager, time: nat, draw: nat): (r: Pager)
    ensures r.repeat == p.repeat && r.initialized == p.initialized
    ensures p.state == ToneA ==> r == p.(state := ToneB, transmitting := true, nextEvent := time + PAGER_TONE_B_DURATION)
    ensures p.state == ToneB && p.repeat ==>
              r.state == Silence && !r.transmitting && r.active == p.active
              && time + PAGER_SILENCE_MIN <= r.nextEvent < time + PAGER_SILENCE_MAX
    ensures p.state == ToneB && !p.repeat ==>
              r == p.(state := Silence, transmitting := false, active := false, nextEvent := 0)
    ensures p.state == Silence ==> r == p.(state := ToneA, transmitting := true, nextEvent := time + PAGER_TONE_A_DURATION)
  {
    match p.state
    case ToneA => p.(state := ToneB, transmitting := true, nextEvent := time + PAGER_TONE_B_DURATION)
    case ToneB =>
      if p.repeat then p.(state := Silence, transmitting := false, nextEvent := time + RandomSilenceDuration(draw))
      else p.(state := Silence, transmitting := false, active := false, nextEvent := 0)
    case Silence => p.(state := ToneA, transmitting := true, nextEvent := time + PAGER_TONE_A_DURATION)
  }

  datatype PagerStep = PagerStep(p: Pager, code: Code)

  /** `step_pager(time)`. `draw` is the random value a silence would use. */
  function StepPager(p: Pager, time: nat, draw: nat): (r: PagerStep)
    ensures !p.active || !p.initialized ==> r == PagerStep(p, LeaveOff)
    ensures p.active && p.initialized && p.nextEvent == 0 ==>
              r == PagerStep(p.(nextEvent := time + PAGER_TONE_A_DURATION), TurnOn)
    ensures p.active && p.initialized && 0 < p.nextEvent && time < p.nextEvent ==>
              r == PagerStep(p, if p.transmitting then LeaveOn else LeaveOff)
  {
    if !p.active || !p.initialized then PagerStep(p, LeaveOff)
    else if p.nextEvent == 0 then PagerStep(p.(nextEvent := time + PAGER_TONE_A_DURATION), TurnOn)
    else if time < p.nextEvent then PagerStep(p, if p.transmitting then LeaveOn else LeaveOff)
    else
      var q := StartNextPhase(p, time, draw);
      var code :=
        if !q.active then LeaveOff
        else if q.transmitting && !p.transmitting then TurnOn
        else if !q.transmitting && p.transmitting then TurnOff
        else if q.transmitting && p.transmitting && q.state != p.state then ChangeFreq
        else if q.transmitting then LeaveOn
        else LeaveOff;
      PagerStep(q, code)
  }

  /** A phase change at its scheduled time (after the first step). */
  predicate AtEvent(p: Pager, time: nat) {
    p.active && p.initialized && 0 < p.nextEvent <= time
  }

  /** The three phase changes and the code each reports. */
  lemma PhaseChanges(p: Pager, time: nat, draw: nat)
    requires Inv(p) && AtEvent(p, time)
    ensures var r := StepPager(p, time, draw);
            (p.state == ToneA ==>
               r.code == ChangeFreq && r.p.state == ToneB && r.p.nextEvent == time + PAGER_TONE_B_DURATION)
            && (p.state == ToneB && p.repeat ==>
                  r.code == TurnOff && r.p.state == Silence
                  && time + PAGER_SILENCE_MIN <= r.p.nextEvent < time + PAGER_SILENCE_MAX)
            && (p.state == ToneB && !p.repeat ==> r.code == LeaveOff && !r.p.active)
            && (p.state == Silence ==>
                  r.code == TurnOn && r.p.state == ToneA && r.p.nextEvent == time + PAGER_TONE_A_DURATION)
  {
  }

  /** Every step keeps the flags in agreement. */
  lemma StepKeepsInv(p: Pager, time: nat, draw: nat)
    requires Inv(p)
    ensures Inv(StepPager(p, time, draw).p)
  {
  }

  /** The reported code always says whether the pager is transmitting
      afterwards: on-codes exactly when it transmits. */
  lemma CodeMatchesCarrier(p: Pager, time: nat, draw: nat)
    requires Inv(p)
    ensures var r := StepPager(p, time, draw);
            r.code in {TurnOn, LeaveOn, ChangeFreq} <==> r.p.transmitting
  {
  }

  /** A repeating page cycles: from tone A, three scheduled phase changes
      report a frequency change, carrier off, carrier on, and return to tone A. */
  lemma RepeatingCycle(p: Pager, t1: nat, draw1: nat, draw2: nat, draw3: nat)
    requires Inv(p) && p.repeat && p.state == ToneA && AtEvent(p, t1)
    ensures var r1 := StepPager(p, t1, draw1);
            var t2 := r1.p.nextEvent;
            var r2 := StepPager(r1.p, t2, draw2);
            var t3 := r2.p.nextEvent;
            var r3 := StepPager(r2.p, t3, draw3);
            r1.code == ChangeFreq && r2.code == TurnOff && r3.code == TurnOn
            && r3.p.state == ToneA && r3.p.active && r3.p.repeat
            && t2 == t1 + PAGER_TONE_B_DURATION
            && t2 + PAGER_SILENCE_MIN <= t3 < t2 + PAGER_SILENCE_MAX
            && r3.p.nextEvent == t3 + PAGER_TONE_A_DURATION
  {
    var r1 := StepPager(p, t1, draw1);
    PhaseChanges(p, t1, draw1);
    StepKeepsInv(p, t1, draw1);
    var r2 := StepPager(r1.p, r1.p.nextEvent, draw2);
    PhaseChanges(r1.p, r1.p.nextEvent, draw2);
    StepKeepsInv(r1.p, r1.p.nextEvent, draw2);
    PhaseChanges(r2.p, r2.p.nextEvent, draw3);
  }

  /** Once a non-repeating page has ended, every later step reports carrier off
      and changes nothing. */
  lemma {:induction false} EndedPagerStaysQuiet(p: Pager, times: seq<nat>, draws: seq<nat>)
    requires !p.active && |draws| == |times|
    ensures Quiet(p, times, draws)
    decreases |times|
  {
    if times != [] {
      assert StepPager(p, times[0], draws[0]) == PagerStep(p, LeaveOff);
      EndedPagerStaysQuiet(p, times[1..], draws[1..]);
    }
  }

  /** Stepping at each of `times` reports carrier off every time and leaves the pager as it is. */
  predicate Quiet(p: Pager, times: seq<nat>, draws: seq<nat>)
    requires |draws| == |times|
    decreases |times|
  {
    times == [] || (StepPager(p, times[0], draws[0]) == PagerStep(p, LeaveOff) && Quiet(p, times[1..], draws[1..]))
  }

  /** A single page without repeat: the first step turns tone A on, the next
      scheduled step changes to tone B, and the one after ends the page. */
  lemma SinglePage(p: Pager, t0: nat, draw0: nat, draw1: nat, draw2: nat)
    ensures var s := StartPagerTransmission(p, false);
            var r0 := StepPager(s, t0, draw0);
            var r1 := StepPager(r0.p, r0.p.nextEvent, draw1);
            var r2 := StepPager(r1.p, r1.p.nextEvent, draw2);
            r0.code == TurnOn && r1.code == ChangeFreq && r2.code == LeaveOff
            && r1.p.nextEvent == t0 + PAGER_TONE_A_DURATION + PAGER_TONE_B_DURATION
            && !r2.p.active && !r2.p.transmitting
  {
  }
}
