/** A simulated numbers station. One cycle keys the interval signal "FT" six
    times, then thirteen random five-digit groups, then the ending "00000",
    two seconds apart; then it gives its generator back for eight seconds,
    drifts a little in frequency, and starts over.
 */
module NumbersStation {
  import opened Platform
  import opened Modulator
  import M = Morse
  import opened WaveGens
  import opened GenPool
  import opened Realizations
  import opened Transmitter

  const INTER_GROUP_DELAY: nat := 2000
  const INTER_CYCLE_DELAY: nat := 8000
  const NUMBERS_SPACE_FREQUENCY: real := 0.1
  const DEFAULT_INTERVAL_REPEATS: int := 6
  const GROUPS_PER_CYCLE: int := 13
  /** Size of the group buffer, terminating NUL included. */
  const GROUP_BUFFER: nat := 6

  const INTERVAL_SIGNAL: seq<char> := "FT"
  const ENDING_SEQUENCE: seq<char> := "00000"

  datatype NumPhase = IntervalSignal | Numbers | Ending | CycleDelay

  datatype Station = Station(
    tx: Tx,
    morse: M.Morse,
    buffer: seq<char>,
    groupsSent: int,
    totalGroups: int,
    inDelay: bool,
    nextGroup: nat,
    transmissionActive: bool,
    wpm: int,
    phase: NumPhase,
    intervalSent: int,
    totalInterval: int)

  datatype StationPool = StationPool(st: Station, pool: WaveGenPool)

  /** The random values one step may consume: the keyer's, the five digits of
      a group, and the cycle's frequency drift. */
  datatype Draws = Draws(morse: nat, digits: seq<nat>, drift: nat)

  /** The lease is sound, the keyer's invariant holds, the speed can be keyed,
      and a station between cycles holds no generator. */
  predicate Inv(s: StationPool) {
    && Valid(s.st.tx, s.pool)
    && M.Inv(s.st.morse)
    && s.st.wpm >= 1
    && (s.st.phase == CycleDelay ==> !s.st.tx.lease.Holds())
  }

  /** The constructor. */
  function NewStation(fixedFreq: real, wpm: int): (st: Station)
    ensures st.tx == NewTransmitter(fixedFreq) && st.wpm == wpm
    ensures st.phase == IntervalSignal && st.intervalSent == 0 && st.groupsSent == 0
    ensures st.totalGroups == GROUPS_PER_CYCLE && st.totalInterval == DEFAULT_INTERVAL_REPEATS
    ensures !st.inDelay && st.nextGroup == 0 && !st.transmissionActive
  {
    Station(NewTransmitter(fixedFreq), M.NewMorse(0), [], 0, GROUPS_PER_CYCLE, false, 0, false, wpm,
            IntervalSignal, 0, DEFAULT_INTERVAL_REPEATS)
  }

  // ---------------------------------------------------------------------------
  // Messages

  predicate IsDigitGroup(g: seq<char>) {
    |g| == 5 && forall i :: 0 <= i < 5 ==> '0' <= g[i] <= '9'
  }

  function DigitOf(draw: nat): (c: char)
    ensures '0' <= c <= '9'
  {
    ('0' as int + Random(draw, 10)) as char
  }

  function DrawAt(ds: seq<nat>, i: nat): nat {
    if i < |ds| then ds[i] else 0
  }

  /** `generate_next_number_group()`: five random decimal digits. */
  function NumberGroup(ds: seq<nat>): (g: seq<char>)
    ensures IsDigitGroup(g)
  {
    [DigitOf(DrawAt(ds, 0)), DigitOf(DrawAt(ds, 1)), DigitOf(DrawAt(ds, 2)),
     DigitOf(DrawAt(ds, 3)), DigitOf(DrawAt(ds, 4))]
  }

  /** Every five-digit group is the one some draws produce. */
  lemma NumberGroupReachesAll(g: seq<char>)
    requires IsDigitGroup(g)
    ensures NumberGroup([g[0] as int - '0' as int, g[1] as int - '0' as int, g[2] as int - '0' as int,
                         g[3] as int - '0' as int, g[4] as int - '0' as int]) == g
  {
    forall i | 0 <= i < 5 ensures Random((g[i] as int - '0' as int) as nat, 10) == g[i] as int - '0' as int {
      RandomReachesAll(g[i] as int - '0' as int, 10);
    }
  }

  /** The message a phase sends, given the digits a group would use. */
  function PhaseMessage(p: NumPhase, ds: seq<nat>): seq<char> {
    match p
    case IntervalSignal => INTERVAL_SIGNAL
    case Numbers => NumberGroup(ds)
    case Ending => ENDING_SEQUENCE
    case CycleDelay => []
  }

  /** Every message fits the six-byte buffer with its NUL. */
  lemma MessagesFitBuffer(p: NumPhase, ds: seq<nat>)
    ensures |PhaseMessage(p, ds)| < GROUP_BUFFER
  {
  }

  // ---------------------------------------------------------------------------
  // Phase bookkeeping

  /** The phase counters. */
  datatype Counters = Counters(phase: NumPhase, intervalSent: int, groupsSent: int)

  function CountersOf(st: Station): Counters {
    Counters(st.phase, st.intervalSent, st.groupsSent)
  }

  /** The phase logic of a completed message: the sixth "FT" moves on to the
      groups, the thirteenth group to the ending, the ending to the pause. */
  function CompletePhase(c: Counters): (r: Counters)
  {
    match c.phase
    case IntervalSignal =>
      if c.intervalSent + 1 >= DEFAULT_INTERVAL_REPEATS then Counters(Numbers, c.intervalSent + 1, 0)
      else c.(intervalSent := c.intervalSent + 1)
    case Numbers =>
      if c.groupsSent + 1 >= GROUPS_PER_CYCLE then Counters(Ending, c.intervalSent, c.groupsSent + 1)
      else c.(groupsSent := c.groupsSent + 1)
    case Ending => c.(phase := CycleDelay)
    case CycleDelay => c
  }

  /** The counters after n completed messages. */
  function CompleteN(c: Counters, n: nat): Counters
    decreases n
  {
    if n == 0 then c else CompleteN(CompletePhase(c), n - 1)
  }

  /** From the k-th "FT", the remaining interval signals lead to the groups. */
  lemma {:induction false} IntervalRun(k: int, g: int)
    requires 0 <= k < DEFAULT_INTERVAL_REPEATS
    ensures CompleteN(Counters(IntervalSignal, k, g), (DEFAULT_INTERVAL_REPEATS - k) as nat)
            == Counters(Numbers, DEFAULT_INTERVAL_REPEATS, 0)
    ensures forall n: nat :: n < DEFAULT_INTERVAL_REPEATS - k ==>
              CompleteN(Counters(IntervalSignal, k, g), n).phase == IntervalSignal
    decreases DEFAULT_INTERVAL_REPEATS - k
  {
    if k + 1 < DEFAULT_INTERVAL_REPEATS {
      IntervalRun(k + 1, g);
      forall n: nat | n < DEFAULT_INTERVAL_REPEATS - k
        ensures CompleteN(Counters(IntervalSignal, k, g), n).phase == IntervalSignal
      {
        if n > 0 {
          assert CompleteN(Counters(IntervalSignal, k, g), n) == CompleteN(Counters(IntervalSignal, k + 1, g), n - 1);
        }
      }
    }
  }

  /** From the k-th group, the remaining groups lead to the ending. */
  lemma {:induction false} GroupRun(i: int, k: int)
    requires 0 <= k < GROUPS_PER_CYCLE
    ensures CompleteN(Counters(Numbers, i, k), (GROUPS_PER_CYCLE - k) as nat)
            == Counters(Ending, i, GROUPS_PER_CYCLE)
    ensures forall n: nat :: n < GROUPS_PER_CYCLE - k ==>
              CompleteN(Counters(Numbers, i, k), n).phase == Numbers
    decreases GROUPS_PER_CYCLE - k
  {
    if k + 1 < GROUPS_PER_CYCLE {
      GroupRun(i, k + 1);
      forall n: nat | n < GROUPS_PER_CYCLE - k
        ensures CompleteN(Counters(Numbers, i, k), n).phase == Numbers
      {
        if n > 0 {
          assert CompleteN(Counters(Numbers, i, k), n) == CompleteN(Counters(Numbers, i, k + 1), n - 1);
        }
      }
    }
  }

  lemma {:induction false} CompleteNAdd(c: Counters, a: nat, b: nat)
    ensures CompleteN(c, a + b) == CompleteN(CompleteN(c, a), b)
    decreases a
  {
    if a > 0 {
      CompleteNAdd(CompletePhase(c), a - 1, b);
    }
  }

  /** One cycle from its start: completions 0-5 end interval signals, 6-18 end
      groups, 19 ends the ending, after which the station pauses. */
  lemma CycleSchedule()
    ensures var c := Counters(IntervalSignal, 0, 0);
            (forall n: nat :: n < 6 ==> CompleteN(c, n).phase == IntervalSignal)
            && (forall n: nat :: 6 <= n < 19 ==> CompleteN(c, n).phase == Numbers)
            && CompleteN(c, 19).phase == Ending
            && CompleteN(c, 20).phase == CycleDelay
  {
    var c := Counters(IntervalSignal, 0, 0);
    IntervalRun(0, 0);
    GroupRun(DEFAULT_INTERVAL_REPEATS, 0);
    var c6 := Counters(Numbers, DEFAULT_INTERVAL_REPEATS, 0);
    assert CompleteN(c, 6) == c6;
    forall n: nat | 6 <= n < 19 ensures CompleteN(c, n).phase == Numbers {
      CompleteNAdd(c, 6, n - 6);
    }
    var c19 := Counters(Ending, DEFAULT_INTERVAL_REPEATS, GROUPS_PER_CYCLE);
    CompleteNAdd(c, 6, 13);
    assert CompleteN(c, 19) == c19;
    CompleteNAdd(c, 19, 1);
    assert CompleteN(c, 20) == CompleteN(c19, 1);
    assert CompleteN(c19, 1) == CompleteN(CompletePhase(c19), 0);
  }

  // ---------------------------------------------------------------------------
  // The station

  /** Install a message in the buffer and start keying it. */
  function StartMessage(st: Station, msg: seq<char>): (r: Station)
    requires M.Inv(st.morse) && st.wpm >= 1
    ensures M.Inv(r.morse) && r == st.(buffer := msg, morse := r.morse)
    ensures r.morse == M.StartTransmission(st.morse, Str(msg), st.wpm)
  {
    M.StartEstablishesInv(st.morse, Str(msg), st.wpm);
    st.(buffer := msg, morse := M.StartTransmission(st.morse, Str(msg), st.wpm))
  }

  /** `begin(time)`: take a generator; with one, restart the cycle at the
      interval signal. Without one the phase is left alone. */
  function Begin(s: StationPool, bfo: real): (r: (StationPool, bool))
    requires Valid(s.st.tx, s.pool) && M.Inv(s.st.morse) && s.st.wpm >= 1
    ensures Valid(r.0.st.tx, r.0.pool) && M.Inv(r.0.st.morse)
    ensures r.1 <==> s.st.tx.lease.Holds() || exists j :: 0 <= j < |s.pool.inUse| && !s.pool.inUse[j]
    ensures r.1 <==> r.0.st.tx.lease.Holds()
    ensures !r.1 ==> r.0.pool == s.pool && r.0.st == s.st.(tx := r.0.st.tx)
    ensures r.1 ==> r.0.st.phase == IntervalSignal && r.0.st.intervalSent == 0 && r.0.st.groupsSent == 0
                    && r.0.st.buffer == INTERVAL_SIGNAL
    ensures r.0.st.wpm == s.st.wpm && r.0.st.inDelay == s.st.inDelay && r.0.st.nextGroup == s.st.nextGroup
    ensures r.0.st.tx.fixedFreq == s.st.tx.fixedFreq
  {
    var b := BeginKeyed(s.st.tx, s.pool, NUMBERS_SPACE_FREQUENCY, bfo);
    if !b.1 then (StationPool(s.st.(tx := b.0.tx), b.0.pool), false)
    else
      var st := s.st.(tx := b.0.tx, phase := IntervalSignal, intervalSent := 0, groupsSent := 0);
      (StationPool(StartMessage(st, INTERVAL_SIGNAL), b.0.pool), true)
  }

  /** `update(mode)`: follow the dial. Always reports success. */
  function Update(s: StationPool, vfo: nat, sub: nat, bfo: real): (r: (StationPool, bool))
    requires Inv(s)
    ensures r.1 && Inv(r.0) && r.0.pool.inUse == s.pool.inUse
    ensures r.0.st == s.st.(tx := r.0.st.tx)
    ensures r.0.st.tx.frequency == CommonFrequencyUpdate(s.st.tx, vfo, sub, bfo).frequency
  {
    var z := UpdateKeyed(s.st.tx, s.pool, vfo, sub, bfo);
    (StationPool(s.st.(tx := z.tx), z.pool), true)
  }

  /** The cycle's frequency drift: -200 Hz up to (not including) +200 Hz. */
  function CycleDrift(draw: nat): (d: real)
    ensures -200.0 <= d < 200.0
  {
    (RandomRange(draw, 0, 40000) as real) / 100.0 - 200.0
  }

  /** The reaction to a completed message: carrier off, the phase counters
      advanced, the next message due two seconds later (eight after the
      ending, which also gives the generator back), and a delay pending. */
  function Complete(s: StationPool, time: nat): (r: StationPool)
    requires Inv(s)
    ensures Inv(r) && r.st.inDelay && !r.st.tx.active && !r.st.transmissionActive
    ensures CountersOf(r.st) == CompletePhase(CountersOf(s.st))
    ensures s.st.phase in {IntervalSignal, Numbers} ==>
              r.st.nextGroup == time + INTER_GROUP_DELAY && r.st.tx.lease == s.st.tx.lease
              && r.pool.inUse == s.pool.inUse
    ensures s.st.phase == Ending ==>
              r.st.nextGroup == time + INTER_CYCLE_DELAY && !r.st.tx.lease.Holds()
              && r.pool.inUse == End(s.st.tx.lease, s.pool).pool.inUse
    ensures s.st.phase == CycleDelay ==> r.st.nextGroup == s.st.nextGroup && r.pool.inUse == s.pool.inUse
    ensures r.st.morse == s.st.morse && r.st.wpm == s.st.wpm && r.st.tx.fixedFreq == s.st.tx.fixedFreq
  {
    var z := RealizeKeyed(s.st.tx.(active := false), s.pool);
    var st := s.st.(tx := z.tx, transmissionActive := false);
    var c := CompletePhase(CountersOf(st));
    var st1 := st.(phase := c.phase, intervalSent := c.intervalSent, groupsSent := c.groupsSent);
    var r :=
      match s.st.phase
      case IntervalSignal => StationPool(st1.(nextGroup := time + INTER_GROUP_DELAY), z.pool)
      case Numbers => StationPool(st1.(nextGroup := time + INTER_GROUP_DELAY), z.pool)
      case Ending =>
        var e := EndTx(st1.tx, z.pool);
        StationPool(st1.(tx := e.tx, nextGroup := time + INTER_CYCLE_DELAY), e.pool)
      case CycleDelay => StationPool(st1, z.pool);
    r.(st := r.st.(inDelay := true))
  }

  /** The station's reaction to one keyer code, and whether it sends a
      signal-meter charge pulse. Unlike the CW station it also realizes on a
      steady carrier-off. */
  function OnCode(s: StationPool, code: Code, time: nat): (r: (StationPool, bool))
    requires Inv(s)
    ensures Inv(r.0)
  {
    match code
    case TurnOn =>
      var z := RealizeKeyed(s.st.tx.(active := true), s.pool);
      (StationPool(s.st.(tx := z.tx, transmissionActive := true), z.pool), true)
    case LeaveOn => (s, true)
    case TurnOff =>
      var z := RealizeKeyed(s.st.tx.(active := false), s.pool);
      (StationPool(s.st.(tx := z.tx), z.pool), false)
    case LeaveOff =>
      var z := RealizeKeyed(s.st.tx.(active := false), s.pool);
      (StationPool(s.st.(tx := z.tx), z.pool), false)
    case MessageComplete => (Complete(s, time), false)
    case ChangeFreq => (s, false)
  }

  /** The end of a delay: key the next message of the phase, or, after a cycle,
      take a generator, drift and start a new cycle. When no generator is free
      the next try is set one second later; `keepWaiting` says whether the
      delay is still pending then (the source clears it). */
  function NextTransmission(s: StationPool, time: nat, bfo: real, d: Draws, keepWaiting: bool): (r: StationPool)
    requires Inv(s) && s.st.inDelay && time >= s.st.nextGroup
    ensures Inv(r)
  {
    var s0 := s.(st := s.st.(inDelay := false));
    match s.st.phase
    case IntervalSignal => s0.(st := StartMessage(s0.st, INTERVAL_SIGNAL))
    case Numbers => s0.(st := StartMessage(s0.st, NumberGroup(d.digits)))
    case Ending => s0.(st := StartMessage(s0.st, ENDING_SEQUENCE))
    case CycleDelay =>
      var b := Begin(s0, bfo);
      if b.1 then
        var st := b.0.st.(phase := IntervalSignal, intervalSent := 0, groupsSent := 0,
                          tx := b.0.st.tx.(fixedFreq := b.0.st.tx.fixedFreq + CycleDrift(d.drift)));
        var f := ForceFrequencyUpdate(st.tx, b.0.pool, bfo);
        var z := RealizeKeyed(f.tx, f.pool);
        StationPool(StartMessage(st.(tx := z.tx), INTERVAL_SIGNAL), z.pool)
      else
        b.0.(st := b.0.st.(nextGroup := time + 1000, inDelay := keepWaiting))
  }

  datatype StationStep = StationStep(s: StationPool, keepGoing: bool, pulse: bool)

  /** `step(time)` with the given handling of a failed generator retry. */
  function StepWith(s: StationPool, time: nat, bfo: real, d: Draws, keepWaiting: bool): (r: StationStep)
    requires Inv(s)
    ensures r.keepGoing && Inv(r.s)
  {
    var k := M.StepModulator(s.st.morse, time, d.morse);
    M.StepPreservesInv(s.st.morse, time, d.morse);
    var o := OnCode(StationPool(s.st.(morse := k.s), s.pool), k.code, time);
    var s2 := if o.0.st.inDelay && time >= o.0.st.nextGroup then NextTransmission(o.0, time, bfo, d, keepWaiting) else o.0;
    StationStep(s2, true, o.1)
  }

  /** `step(time)` as written: a failed retry clears the pending delay. */
  function StepAsWritten(s: StationPool, time: nat, bfo: real, d: Draws): (r: StationStep)
    requires Inv(s)
    ensures r.keepGoing && Inv(r.s)
  {
    StepWith(s, time, bfo, d, false)
  }

  /** `step(time)` with the retry kept pending, as the comment "try again in
      1 second" intends. */
  function Step(s: StationPool, time: nat, bfo: real, d: Draws): (r: StationStep)
    requires Inv(s)
    ensures r.keepGoing && Inv(r.s)
  {
    StepWith(s, time, bfo, d, true)
  }

  // ---------------------------------------------------------------------------
  // Properties

  /** A station stranded between cycles: no generator, no pending delay, and a
      keyer that has finished. */
  predicate Stranded(s: StationPool) {
    Inv(s) && s.st.phase == CycleDelay && !s.st.inDelay && M.IsTransmissionComplete(s.st.morse)
  }

  /** As written, a retry that finds no free generator strands the station. */
  lemma FailedRetryStrands(s: StationPool, time: nat, bfo: real, d: Draws)
    requires Inv(s) && s.st.phase == CycleDelay && s.st.inDelay && time >= s.st.nextGroup
    requires M.IsTransmissionComplete(s.st.morse)
    requires forall j :: 0 <= j < |s.pool.inUse| ==> s.pool.inUse[j]
    ensures Stranded(NextTransmission(s, time, bfo, d, false))
  {
  }

  /** As written, a stranded station stays stranded at every later step,
      whatever generators become free: it never asks for one again. */
  lemma StrandedForever(s: StationPool, time: nat, bfo: real, d: Draws)
    requires Stranded(s)
    ensures var r := StepAsWritten(s, time, bfo, d).s;
            Stranded(r) && r.pool.inUse == s.pool.inUse && !r.st.tx.lease.Holds()
  {
    M.FinishedStaysQuiet(s.st.morse, time, d.morse);
  }

  /** Corrected: a failed retry keeps the delay pending one second, and the
      next retry takes a generator as soon as one is free and restarts the
      cycle at the interval signal. */
  lemma RetryResumes(s: StationPool, t1: nat, t2: nat, bfo: real, d: Draws)
    requires Inv(s) && s.st.phase == CycleDelay && s.st.inDelay && t1 >= s.st.nextGroup
    requires forall j :: 0 <= j < |s.pool.inUse| ==> s.pool.inUse[j]
    ensures var r := NextTransmission(s, t1, bfo, d, true);
            r.st.inDelay && r.st.phase == CycleDelay && r.st.nextGroup == t1 + 1000
            && (t2 >= t1 + 1000 && (exists j :: 0 <= j < |r.pool.inUse| && !r.pool.inUse[j]) ==>
                  var r2 := NextTransmission(r, t2, bfo, d, true);
                  r2.st.tx.lease.Holds() && r2.st.phase == IntervalSignal && r2.st.buffer == INTERVAL_SIGNAL
                  && !r2.st.inDelay)
  {
  }

  /** What each delay end keys: "FT" in the interval phase, a fresh five-digit
      group in the numbers phase, "00000" at the end. */
  lemma DelayEndKeysPhaseMessage(s: StationPool, time: nat, bfo: real, d: Draws, keepWaiting: bool)
    requires Inv(s) && s.st.inDelay && time >= s.st.nextGroup && s.st.phase != CycleDelay
    ensures var r := NextTransmission(s, time, bfo, d, keepWaiting);
            r.st.buffer == PhaseMessage(s.st.phase, d.digits) && !r.st.inDelay
            && r.st.morse == M.StartTransmission(s.st.morse, Str(r.st.buffer), s.st.wpm)
            && r.st.phase == s.st.phase && r.pool == s.pool
  {
  }

  /** A new cycle moves the station by the drift and starts it at the
      interval signal. */
  lemma NewCycleDrifts(s: StationPool, time: nat, bfo: real, d: Draws, keepWaiting: bool)
    requires Inv(s) && s.st.inDelay && time >= s.st.nextGroup && s.st.phase == CycleDelay
    requires exists j :: 0 <= j < |s.pool.inUse| && !s.pool.inUse[j]
    ensures var r := NextTransmission(s, time, bfo, d, keepWaiting);
            r.st.tx.lease.Holds() && r.st.phase == IntervalSignal && r.st.intervalSent == 0
            && r.st.groupsSent == 0 && r.st.buffer == INTERVAL_SIGNAL
            && r.st.tx.fixedFreq == s.st.tx.fixedFreq + CycleDrift(d.drift)
  {
  }
}
