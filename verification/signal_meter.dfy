/** The signal meter's charge model: station carriers pump charge into an
    accumulator that leaks away on a timer, like a capacitor behind a
    resistor; a separate panel accumulator takes the "lock" pulses. The LED
    rendering is not modelled.

    The meter's fields and arguments are `int`, which is 16 bits wide on the
    AVR target; the arithmetic below is written out at that width.
 */
module SignalMeter {
  import opened Platform

  const MAX_ACCUMULATOR: int := 510
  const PANEL_LED_MAX_ACCUMULATOR: int := 255
  const PANEL_LED_DECAY_RATE: int := 64
  const DECAY_RATE: int := 16
  const DECAY_INTERVAL: nat := 50
  const DEFAULT_CHARGE: int := 4
  const MAX_BRIGHTNESS: int := 255

  const I16_MIN: int := -0x8000
  const I16_MAX: int := 0x7FFF

  predicate IsI16(x: int) { I16_MIN <= x <= I16_MAX }

  /** The low 16 bits of an integer reinterpreted as a 16-bit `int`. */
  function I16(x: int): (r: int)
    ensures IsI16(r)
    ensures IsI16(x) ==> r == x
  {
    var u := x % 0x1_0000;
    if u <= I16_MAX then u else u - 0x1_0000
  }

  datatype Meter = Meter(
    accumulator: int,
    strength: int,
    lastDecay: nat,
    panel: int,
    flashlight: bool,
    brightness: int)

  /** Every field holds a value of its C type. */
  predicate Fits(m: Meter) {
    IsI16(m.accumulator) && IsI16(m.strength) && IsI16(m.panel) && IsI16(m.brightness) && IsU32(m.lastDecay)
  }

  // ---------------------------------------------------------------------
  // Display strength

  /** `(_accumulator * 255) / MAX_ACCUMULATOR` as written: the product is
      formed in 16-bit `int` and wraps once the accumulator passes 128. */
  function StrengthAsWritten(acc: int): int {
    TruncDiv(I16(acc * 255), MAX_ACCUMULATOR)
  }

  /** The display strength with the product formed wide enough: the
      accumulator scaled from 0..510 to 0..255. */
  function Strength(acc: int): (s: int)
    requires 0 <= acc <= MAX_ACCUMULATOR
    ensures 0 <= s <= 255
    ensures s * MAX_ACCUMULATOR <= acc * 255 < s * MAX_ACCUMULATOR + MAX_ACCUMULATOR
  {
    (acc * 255) / MAX_ACCUMULATOR
  }

  /** As written, a half-charged meter shows a negative strength and a
      full one shows less than an empty one, where the scaled strength is
      64 and 255. */
  lemma StrengthWrapsAsWritten()
    ensures StrengthAsWritten(129) == -64 && Strength(129) == 64
    ensures StrengthAsWritten(MAX_ACCUMULATOR) == -2 && Strength(MAX_ACCUMULATOR) == 255
  {
  }

  /** The scaled strength is half the accumulator, rounded down, so it
      grows with the charge and spans the whole display range. */
  lemma StrengthIsHalfCharge(acc: int)
    requires 0 <= acc <= MAX_ACCUMULATOR
    ensures Strength(acc) == acc / 2
    ensures forall b :: acc <= b <= MAX_ACCUMULATOR ==> Strength(acc) <= Strength(b)
  {
    assert acc * 255 == (acc / 2) * MAX_ACCUMULATOR + (acc % 2) * 255;
    forall b | acc <= b <= MAX_ACCUMULATOR
      ensures Strength(acc) <= Strength(b)
    {
      assert b * 255 == (b / 2) * MAX_ACCUMULATOR + (b % 2) * 255;
    }
  }

  /** Both formulas agree while the product still fits in 16 bits. */
  lemma StrengthsAgreeBelowWrap(acc: int)
    requires 0 <= acc && acc * 255 <= I16_MAX
    ensures StrengthAsWritten(acc) == Strength(acc)
  {
  }

  /** Over the whole accumulator range the formula as written shows the
      scaled strength exactly when the accumulator is at most 128; above
      that it always shows less. */
  lemma StrengthReadsLowPastWrap(acc: int)
    requires 0 <= acc <= MAX_ACCUMULATOR
    ensures StrengthAsWritten(acc) == Strength(acc) <==> acc <= 128
    ensures acc > 128 ==> StrengthAsWritten(acc) < Strength(acc)
  {
    var x := acc * 255;
    if acc > 128 {
      assert 0x8000 <= x < 2 * 0x1_0000;
      if x < 0x1_0000 {
        assert I16(x) == x - 0x1_0000;
      } else if x <= 0x1_0000 + I16_MAX {
        assert I16(x) == x - 0x1_0000;
        assert StrengthAsWritten(acc) == (x - 0x1_0000) / MAX_ACCUMULATOR;
      } else {
        assert I16(x) == x - 2 * 0x1_0000;
      }
    }
  }

  // ---------------------------------------------------------------------
  // The meter

  /** The meter's invariant: both accumulators within their ranges, the
      strength the one the formula as written gives for the accumulator,
      and a flashlight brightness that is in range and zero whenever the
      flashlight is off. */
  predicate Inv(m: Meter) {
    && IsU32(m.lastDecay)
    && 0 <= m.accumulator <= MAX_ACCUMULATOR
    && 0 <= m.panel <= PANEL_LED_MAX_ACCUMULATOR
    && m.strength == StrengthAsWritten(m.accumulator)
    && 0 <= m.brightness <= MAX_BRIGHTNESS
    && (!m.flashlight ==> m.brightness == 0)
  }

  /** The constructor: everything zero, the flashlight off. */
  function NewMeter(): (m: Meter)
    ensures Inv(m) && m.accumulator == 0 && m.panel == 0 && !m.flashlight
  {
    Meter(0, 0, 0, 0, false, 0)
  }

  /** `clear()`: both accumulators and the strength back to zero. */
  function Clear(m: Meter): (r: Meter)
    ensures r.accumulator == 0 && r.strength == 0 && r.panel == 0
    ensures r.lastDecay == m.lastDecay && r.flashlight == m.flashlight && r.brightness == m.brightness
    ensures Inv(m) ==> Inv(r)
  {
    m.(accumulator := 0, strength := 0, panel := 0)
  }

  /** `init()` at time `now`: cleared, with the decay timer started now. */
  function Init(m: Meter, now: nat): (r: Meter)
    requires IsU32(now)
    ensures r.accumulator == 0 && r.panel == 0 && r.lastDecay == now
    ensures Inv(m) ==> Inv(r)
  {
    Clear(m).(panel := 0, lastDecay := now)
  }

  /** `clear_panel_led()`: the lock indicator goes dark, nothing else changes. */
  function ClearPanelLed(m: Meter): (r: Meter)
    ensures r.panel == 0 && r == m.(panel := r.panel)
    ensures Inv(m) ==> Inv(r)
  {
    m.(panel := 0)
  }

  /** `add_charge(c)`: a negative charge is a lock pulse, which raises the
      panel accumulator by its size (up to 255) and then counts as an
      ordinary pulse of that size; the main accumulator rises by the pulse,
      up to 510, and the strength is recomputed from it. All arithmetic is
      16-bit. */
  function AddCharge(m: Meter, c: int): (r: Meter)
    requires Fits(m) && IsI16(c)
    ensures Fits(r)
    ensures r.strength == StrengthAsWritten(r.accumulator)
    ensures r.accumulator <= MAX_ACCUMULATOR && (c < 0 ==> r.panel <= PANEL_LED_MAX_ACCUMULATOR)
    ensures r.lastDecay == m.lastDecay && r.flashlight == m.flashlight && r.brightness == m.brightness
    ensures c >= 0 ==> r.panel == m.panel
  {
    var abs := if c < 0 then I16(-c) else c;
    var panel := if c < 0 then (var p := I16(m.panel + abs); if p > PANEL_LED_MAX_ACCUMULATOR then PANEL_LED_MAX_ACCUMULATOR else p)
                 else m.panel;
    var sum := I16(m.accumulator + abs);
    var acc := if sum > MAX_ACCUMULATOR then MAX_ACCUMULATOR else sum;
    m.(accumulator := acc, strength := StrengthAsWritten(acc), panel := panel)
  }

  /** The largest pulse whose sum with a full accumulator still fits in 16 bits. */
  const MAX_SAFE_CHARGE: int := I16_MAX - MAX_ACCUMULATOR

  /** For every pulse up to the 16-bit headroom, charging keeps the meter's
      invariant: the main accumulator rises by the size of the pulse and
      saturates at 510, and the panel accumulator rises by the size of a
      lock pulse and saturates at 255. */
  lemma ChargeSaturates(m: Meter, c: int)
    requires Inv(m) && -MAX_SAFE_CHARGE <= c <= MAX_SAFE_CHARGE
    ensures var r := AddCharge(m, c);
            && Inv(r)
            && r.accumulator == (if m.accumulator + Abs(c) > MAX_ACCUMULATOR then MAX_ACCUMULATOR else m.accumulator + Abs(c))
            && r.panel == (if c >= 0 then m.panel
                           else if m.panel + Abs(c) > PANEL_LED_MAX_ACCUMULATOR then PANEL_LED_MAX_ACCUMULATOR
                           else m.panel + Abs(c))
  {
  }

  /** A lock pulse moves the main meter exactly as the ordinary pulse of the
      same size does; only the panel indicator tells them apart. */
  lemma LockPulseChargesLikeOrdinary(m: Meter, c: int)
    requires Inv(m) && 0 < c <= MAX_SAFE_CHARGE
    ensures AddCharge(m, -c).accumulator == AddCharge(m, c).accumulator
    ensures AddCharge(m, -c).strength == AddCharge(m, c).strength
    ensures AddCharge(m, -c).panel >= AddCharge(m, c).panel
  {
  }

  /** `update(now)`: once at least 50 ms have passed since the last decay
      (in `unsigned long` arithmetic), a charged accumulator drops by 16,
      not below zero, and its strength is recomputed; the panel drops by
      64, not below zero; and the timer restarts. */
  function Update(m: Meter, now: nat): (r: Meter)
    requires Inv(m) && IsU32(now)
    ensures Inv(r)
    ensures r.accumulator <= m.accumulator && r.panel <= m.panel
    ensures r.flashlight == m.flashlight && r.brightness == m.brightness
  {
    if Elapsed(now, m.lastDecay) >= DECAY_INTERVAL then
      var m1 := if m.accumulator > 0 then
                  var acc := if m.accumulator - DECAY_RATE < 0 then 0 else m.accumulator - DECAY_RATE;
                  m.(accumulator := acc, strength := StrengthAsWritten(acc))
                else m;
      var panel := if m1.panel > 0 then (if m1.panel - PANEL_LED_DECAY_RATE < 0 then 0 else m1.panel - PANEL_LED_DECAY_RATE)
                   else m1.panel;
      m1.(panel := panel, lastDecay := now)
    else m
  }

  /** The charge leaks only on schedule: before the interval has passed
      nothing changes; once it has, each accumulator loses its decay step
      or whatever is left of it, and the timer restarts at `now`. */
  lemma DecayOnSchedule(m: Meter, now: nat)
    requires Inv(m) && IsU32(now)
    ensures var r := Update(m, now);
            && (Elapsed(now, m.lastDecay) < DECAY_INTERVAL ==> r == m)
            && (Elapsed(now, m.lastDecay) >= DECAY_INTERVAL ==>
                  && r.lastDecay == now
                  && m.accumulator - r.accumulator == (if m.accumulator < DECAY_RATE then m.accumulator else DECAY_RATE)
                  && m.panel - r.panel == (if m.panel < PANEL_LED_DECAY_RATE then m.panel else PANEL_LED_DECAY_RATE))
  {
  }

  /** A run of updates at the given times. */
  function UpdateRun(m: Meter, times: seq<nat>): (r: Meter)
    requires Inv(m) && forall i :: 0 <= i < |times| ==> IsU32(times[i])
    ensures Inv(r)
    decreases |times|
  {
    if |times| == 0 then m else UpdateRun(Update(m, times[0]), times[1..])
  }

  /** Every time is at least the decay interval after the one before it,
      the first one that long after the meter's last decay. */
  predicate Spaced(last: nat, times: seq<nat>) {
    forall i :: 0 <= i < |times| ==> IsU32(times[i]) && Elapsed(times[i], Before(last, times, i)) >= DECAY_INTERVAL
  }

  /** The time before the `i`-th of `times`: the one before it, or `last` for the first. */
  function Before(last: nat, times: seq<nat>, i: nat): nat
    requires i < |times|
  {
    if i == 0 then last else times[i - 1]
  }

  /** Left alone, the meter drains: after `k` decays on schedule the main
      accumulator has lost 16 per decay and the panel 64 per decay, neither
      below zero, so a full meter is dark after 32 of them and a full panel
      after 4. */
  lemma {:induction false} MeterDrains(m: Meter, times: seq<nat>)
    requires Inv(m) && Spaced(m.lastDecay, times)
    ensures var r := UpdateRun(m, times);
            && r.accumulator == (if m.accumulator <= DECAY_RATE * |times| then 0 else m.accumulator - DECAY_RATE * |times|)
            && r.panel == (if m.panel <= PANEL_LED_DECAY_RATE * |times| then 0 else m.panel - PANEL_LED_DECAY_RATE * |times|)
    decreases |times|
  {
    if |times| > 0 {
      var n := Update(m, times[0]);
      DecayOnSchedule(m, times[0]);
      assert Elapsed(times[0], Before(m.lastDecay, times, 0)) >= DECAY_INTERVAL;
      assert n.lastDecay == times[0];
      assert Spaced(n.lastDecay, times[1..]) by {
        forall i | 0 <= i < |times[1..]|
          ensures IsU32(times[1..][i]) && Elapsed(times[1..][i], Before(n.lastDecay, times[1..], i)) >= DECAY_INTERVAL
        {
          assert times[1..][i] == times[i + 1] && Before(n.lastDecay, times[1..], i) == Before(m.lastDecay, times, i + 1);
        }
      }
      MeterDrains(n, times[1..]);
      assert UpdateRun(m, times) == UpdateRun(n, times[1..]);
    }
  }

  /** `update_signal_strength(s)`, the legacy entry point: a positive
      strength becomes `(s * 2) / 40` default pulses in one charge, all in
      16-bit arithmetic; zero or negative strengths are ignored. */
  function UpdateSignalStrength(m: Meter, s: int): (r: Meter)
    requires Fits(m) && IsI16(s)
    ensures s <= 0 ==> r == m
    ensures 0 < s && s * 2 <= I16_MAX ==> r == AddCharge(m, DEFAULT_CHARGE * ((s * 2) / 40))
  {
    if s > 0 then
      var pulses := TruncDiv(I16(s * 2), 40);
      AddCharge(m, I16(DEFAULT_CHARGE * pulses))
    else m
  }

  /** A legacy strength in the documented 0..255 range never sends a lock
      pulse and charges at most 48, so the panel indicator stays put. */
  lemma LegacyStrengthIsOrdinary(m: Meter, s: int)
    requires Inv(m) && 0 < s <= 255
    ensures var r := UpdateSignalStrength(m, s);
            && Inv(r) && r.panel == m.panel
            && m.accumulator <= r.accumulator <= m.accumulator + 48
  {
    var pulses := (s * 2) / 40;
    assert 0 <= pulses <= 12;
    assert UpdateSignalStrength(m, s) == AddCharge(m, DEFAULT_CHARGE * pulses);
    ChargeSaturates(m, DEFAULT_CHARGE * pulses);
  }

  /** `set_flashlight_mode(b)`: the flashlight on, at `b` held to 0..255. */
  function SetFlashlightMode(m: Meter, b: int): (r: Meter)
    ensures r.flashlight && 0 <= r.brightness <= MAX_BRIGHTNESS
    ensures 0 <= b <= MAX_BRIGHTNESS ==> r.brightness == b
    ensures b < 0 ==> r.brightness == 0
    ensures b > MAX_BRIGHTNESS ==> r.brightness == MAX_BRIGHTNESS
    ensures r == m.(flashlight := true, brightness := r.brightness)
    ensures Inv(m) ==> Inv(r)
  {
    m.(flashlight := true, brightness := if b < 0 then 0 else if b > MAX_BRIGHTNESS then MAX_BRIGHTNESS else b)
  }

  /** `clear_flashlight_mode()`: back to metering, brightness zero. */
  function ClearFlashlightMode(m: Meter): (r: Meter)
    ensures !r.flashlight && r.brightness == 0 && r == m.(flashlight := false, brightness := 0)
    ensures Inv(m) ==> Inv(r)
  {
    m.(flashlight := false, brightness := 0)
  }

  /** The flashlight is a pure overlay: switching it on and off again
      leaves the charge state exactly as it was, whatever brightness was
      asked for. */
  lemma FlashlightIsOverlay(m: Meter, b: int)
    requires Inv(m)
    ensures ClearFlashlightMode(SetFlashlightMode(m, b)) == m.(flashlight := false, brightness := 0)
    ensures !m.flashlight ==> ClearFlashlightMode(SetFlashlightMode(m, b)) == m
  {
  }
}
