/** The non-blocking jammer: a carrier that wanders in frequency by a damped
    random walk within two kilohertz of its base, and drops out now and then
    for a fraction of a second.

    The source keeps the last frequency offset it reported in a function-static
    variable shared by every jammer; here it is passed in and handed back.
 */
module Jammer {
  import opened Platform
  import opened Modulator

  const JAMMER_STEP_INTERVAL: nat := 50
  const JAMMER_MAX_DRIFT: real := 2000.0
  const JAMMER_STEP_SIZE: real := 25.0
  const JAMMER_MUTE_PROBABILITY: int := 15

  /** The largest speed the walk can reach: the damping 0.95 applied to it plus
      the largest random kick gives it back. */
  const JAMMER_MAX_VELOCITY: real := 237.5

  datatype JammerState = Transmitting | Muted

  datatype Jammer = Jammer(
    active: bool,
    repeat: bool,
    transmitting: bool,
    state: JammerState,
    nextEvent: nat,
    initialized: bool,
    offset: real,
    velocity: real,
    lastDrift: nat)

  function RAbs(x: real): (r: real)
    ensures r >= 0.0 && (r == x || r == -x)
  {
    if x >= 0.0 then x else -x
  }

  /** The random values one step may consume, in the order the source draws
      them: the drift kick, the mute decision, the mute length. */
  datatype Draws = Draws(kick: nat, mute: nat, muteLength: nat)

  /** The walk stays in bounds at a bounded speed, and the carrier flag and the
      state agree; a jammer that was never started is silent, and one whose
      timing is not yet set has just been started. */
  predicate Inv(j: Jammer) {
    (j.transmitting <==> j.state == Transmitting)
    && -JAMMER_MAX_DRIFT <= j.offset <= JAMMER_MAX_DRIFT
    && RAbs(j.velocity) <= JAMMER_MAX_VELOCITY
    && (!j.active ==> !j.transmitting)
    && (j.active ==> j.initialized)
    && (j.active && j.nextEvent == 0 ==> j.transmitting)
  }

  /** The constructor: idle, muted, no drift yet. */
  function NewJammer(): (j: Jammer)
    ensures !j.active && !j.initialized && !j.transmitting && j.state == Muted
    ensures j.offset == 0.0 && j.velocity == 0.0 && Inv(j)
  {
    Jammer(false, false, false, Muted, 0, false, 0.0, 0.0, 0)
  }

  /** `start_jammer_transmission(repeat)`: transmit at once; the walk keeps its
      position and speed, its clock and the event timer restart. */
  function StartJammerTransmission(j: Jammer, repeat: bool): (r: Jammer)
    ensures r.active && r.initialized && r.repeat == repeat
    ensures r.transmitting && r.state == Transmitting && r.nextEvent == 0 && r.lastDrift == 0
    ensures r.offset == j.offset && r.velocity == j.velocity
    ensures Inv(j) ==> Inv(r)
  {
    j.(repeat := repeat, active := true, initialized := true,
       state := Transmitting, transmitting := true, nextEvent := 0, lastDrift := 0)
  }

  /** `apply_boundary_enforcement()`: clamp the offset to the drift range and
      bounce the velocity back inwards at half speed. */
  function BoundaryEnforcement(offset: real, velocity: real): (r: (real, real))
    ensures -JAMMER_MAX_DRIFT <= r.0 <= JAMMER_MAX_DRIFT
    ensures offset > JAMMER_MAX_DRIFT ==> r.0 == JAMMER_MAX_DRIFT && r.1 == -RAbs(velocity) / 2.0
    ensures offset < -JAMMER_MAX_DRIFT ==> r.0 == -JAMMER_MAX_DRIFT && r.1 == RAbs(velocity) / 2.0
    ensures -JAMMER_MAX_DRIFT <= offset <= JAMMER_MAX_DRIFT ==> r == (offset, velocity)
  {
    if offset > JAMMER_MAX_DRIFT then (JAMMER_MAX_DRIFT, -RAbs(velocity) * 0.5)
    else if offset < -JAMMER_MAX_DRIFT then (-JAMMER_MAX_DRIFT, RAbs(velocity) * 0.5)
    else (offset, velocity)
  }

  /** The random velocity change: `(random(1000) / 1000.0 - 0.5) * 25`. */
  function Kick(draw: nat): (dv: real)
    ensures -JAMMER_STEP_SIZE / 2.0 <= dv < JAMMER_STEP_SIZE / 2.0
  {
    ((Random(draw, 1000) as real) / 1000.0 - 0.5) * JAMMER_STEP_SIZE
  }

  /** `apply_brownian_drift()`: kick the velocity, damp it, move the offset by
      it, then enforce the boundary. Nothing but the walk changes. */
  function BrownianDrift(j: Jammer, draw: nat): (r: Jammer)
    ensures -JAMMER_MAX_DRIFT <= r.offset <= JAMMER_MAX_DRIFT
    ensures r == j.(offset := r.offset, velocity := r.velocity)
  {
    var v := (j.velocity + Kick(draw)) * 0.95;
    var b := BoundaryEnforcement(j.offset + v, v);
    j.(offset := b.0, velocity := b.1)
  }

  /** `should_mute()`: true for 15 of the 100 equally likely draws. */
  function ShouldMute(draw: nat): (b: bool)
    ensures b <==> Random(draw, 100) < JAMMER_MUTE_PROBABILITY
  {
    Random(draw, 100) < JAMMER_MUTE_PROBABILITY
  }

  /** `get_random_mute_duration()`. */
  function MuteDuration(draw: nat): (d: nat)
    ensures 20 <= d <= 200
  {
    20 + Random(draw, 181)
  }

  datatype JammerStep = JammerStep(j: Jammer, lastReported: real, code: Code)

  /** The drift part of a step: applied only once a drift interval has passed
      since the last one, by unsigned subtraction. */
  function DriftIfDue(j: Jammer, time: nat, draw: nat): (r: Jammer)
    ensures Elapsed(time, j.lastDrift) >= JAMMER_STEP_INTERVAL ==>
              r == BrownianDrift(j, draw).(lastDrift := time)
    ensures Elapsed(time, j.lastDrift) < JAMMER_STEP_INTERVAL ==> r == j
  {
    if Elapsed(time, j.lastDrift) >= JAMMER_STEP_INTERVAL then BrownianDrift(j, draw).(lastDrift := time) else j
  }

  /** `step_jammer(time)`, with the shared last reported offset passed through. */
  function StepJammer(j: Jammer, time: nat, lastReported: real, d: Draws): (r: JammerStep)
    ensures !j.active || !j.initialized ==> r == JammerStep(j, lastReported, LeaveOff)
    ensures j.active && j.initialized && j.nextEvent == 0 ==>
              r == JammerStep(DriftIfDue(j, time, d.kick).(nextEvent := time + JAMMER_STEP_INTERVAL), lastReported, TurnOn)
  {
    if !j.active || !j.initialized then JammerStep(j, lastReported, LeaveOff)
    else
      var w := DriftIfDue(j, time, d.kick);
      if w.nextEvent == 0 then JammerStep(w.(nextEvent := time + JAMMER_STEP_INTERVAL), lastReported, TurnOn)
      else if time < w.nextEvent then
        if w.transmitting && w.state == Transmitting then
          if RAbs(w.offset - lastReported) > JAMMER_STEP_SIZE then JammerStep(w, w.offset, ChangeFreq)
          else JammerStep(w, lastReported, LeaveOn)
        else JammerStep(w, lastReported, LeaveOff)
      else
        var q :=
          if w.transmitting && ShouldMute(d.mute) then
            w.(state := Muted, transmitting := false, nextEvent := time + MuteDuration(d.muteLength))
          else if !w.transmitting then
            w.(state := Transmitting, transmitting := true, nextEvent := time + JAMMER_STEP_INTERVAL)
          else w.(nextEvent := time + JAMMER_STEP_INTERVAL);
        var code :=
          if q.transmitting && !w.transmitting then TurnOn
          else if !q.transmitting && w.transmitting then TurnOff
          else if q.transmitting then LeaveOn
          else LeaveOff;
        JammerStep(q, lastReported, code)
  }

  /** The damped walk never exceeds its speed limit: damping takes back at
      least what the largest kick adds, and a bounce only halves the speed. */
  lemma DriftKeepsSpeedBound(j: Jammer, draw: nat)
    requires RAbs(j.velocity) <= JAMMER_MAX_VELOCITY
    ensures RAbs(BrownianDrift(j, draw).velocity) <= JAMMER_MAX_VELOCITY
  {
    var k := Kick(draw);
    var v := (j.velocity + k) * 0.95;
    assert -JAMMER_MAX_VELOCITY <= v <= JAMMER_MAX_VELOCITY;
  }

  /** Every step keeps the walk in bounds and the flags in agreement. */
  lemma StepKeepsInv(j: Jammer, time: nat, lastReported: real, d: Draws)
    requires Inv(j)
    ensures Inv(StepJammer(j, time, lastReported, d).j)
  {
    DriftKeepsSpeedBound(j, d.kick);
  }

  /** What a step at an event time does: a transmitting jammer mutes for
      20 to 200 ms exactly when the mute draw says so and reports carrier off;
      a muted one resumes and reports carrier on; otherwise it carries on. */
  lemma EventTransitions(j: Jammer, time: nat, lastReported: real, d: Draws)
    requires Inv(j) && j.active && 0 < j.nextEvent <= time
    ensures var r := StepJammer(j, time, lastReported, d);
            r.lastReported == lastReported
            && (j.transmitting && ShouldMute(d.mute) ==>
                  r.code == TurnOff && r.j.state == Muted
                  && time + 20 <= r.j.nextEvent <= time + 200)
            && (j.transmitting && !ShouldMute(d.mute) ==>
                  r.code == LeaveOn && r.j.state == Transmitting && r.j.nextEvent == time + JAMMER_STEP_INTERVAL)
            && (!j.transmitting ==>
                  r.code == TurnOn && r.j.state == Transmitting && r.j.nextEvent == time + JAMMER_STEP_INTERVAL)
  {
  }

  /** Between events a transmitting jammer reports a frequency change exactly
      when the offset has moved more than one step from the last report, and
      afterwards the report is never more than one step behind. */
  lemma ReportTracksOffset(j: Jammer, time: nat, lastReported: real, d: Draws)
    requires Inv(j) && j.active && j.transmitting && time < j.nextEvent
    ensures var r := StepJammer(j, time, lastReported, d);
            (r.code == ChangeFreq <==> RAbs(r.j.offset - lastReported) > JAMMER_STEP_SIZE)
            && (r.code == ChangeFreq ==> r.lastReported == r.j.offset)
            && (r.code != ChangeFreq ==> r.code == LeaveOn && r.lastReported == lastReported)
            && RAbs(r.j.offset - r.lastReported) <= JAMMER_STEP_SIZE
  {
  }

  /** The reported code says whether the jammer transmits afterwards. */
  lemma CodeMatchesCarrier(j: Jammer, time: nat, lastReported: real, d: Draws)
    requires Inv(j)
    ensures var r := StepJammer(j, time, lastReported, d);
            r.code in {TurnOn, LeaveOn, ChangeFreq} <==> r.j.transmitting
  {
  }

  /** A mute always ends: the step at the end of a mute brings the carrier back. */
  lemma MuteEnds(j: Jammer, t1: nat, lastReported: real, d1: Draws, d2: Draws)
    requires Inv(j) && j.active && j.transmitting && 0 < j.nextEvent <= t1 && ShouldMute(d1.mute)
    ensures var r1 := StepJammer(j, t1, lastReported, d1);
            var r2 := StepJammer(r1.j, r1.j.nextEvent, r1.lastReported, d2);
            r1.code == TurnOff && r2.code == TurnOn && r2.j.transmitting
            && r2.j.nextEvent == r1.j.nextEvent + JAMMER_STEP_INTERVAL
  {
    EventTransitions(j, t1, lastReported, d1);
    var r1 := StepJammer(j, t1, lastReported, d1);
    StepKeepsInv(j, t1, lastReported, d1);
    EventTransitions(r1.j, r1.j.nextEvent, r1.lastReported, d2);
  }
}
