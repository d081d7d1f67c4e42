/** A simulated CW station calling CQ: it keys a generated CQ message in
    Morse, gives its generator back for a four-second pause after each call,
    takes one again to call once more, and after a random number of calls
    moves a little in frequency and becomes a "new operator" with a new
    callsign and speed.
 */
module CwStation {
  import opened Platform
  import opened Modulator
  import M = Morse
  import opened WaveGens
  import opened GenPool
  import opened Realizations
  import opened Transmitter

  const WAIT_SECONDS: nat := 4
  /** The frequency parked on the alternate channel. */
  const SPACE_FREQUENCY: real := 0.1
  /** Size of the message buffer, terminating NUL included. */
  const MESSAGE_BUFFER: nat := 40

  // ---------------------------------------------------------------------------
  // Callsigns and the CQ message

  /** The random values one callsign consumes: prefix, digit, suffix length and
      up to three suffix letters. */
  datatype CallDraws = CallDraws(prefix: nat, digit: nat, len: nat, letters: seq<nat>)

  predicate IsPrefix(c: char) { c == 'W' || c == 'K' || c == 'N' }
  predicate IsDigitChar(c: char) { '0' <= c <= '9' }
  predicate IsLetter(c: char) { 'A' <= c <= 'Z' }

  /** A fictional amateur callsign: W, K or N, a doubled digit, then two or
      three capital letters. */
  predicate IsFictionalCallsign(cs: seq<char>) {
    && (|cs| == 5 || |cs| == 6)
    && IsPrefix(cs[0]) && IsDigitChar(cs[1]) && cs[2] == cs[1]
    && forall i :: 3 <= i < |cs| ==> IsLetter(cs[i])
  }

  function PrefixOf(draw: nat): (c: char)
    ensures IsPrefix(c)
  {
    var i := Random(draw, 3);
    if i == 0 then 'W' else if i == 1 then 'K' else 'N'
  }

  function DigitOf(draw: nat): (c: char)
    ensures IsDigitChar(c)
  {
    ('0' as int + Random(draw, 10)) as char
  }

  function LetterOf(draw: nat): (c: char)
    ensures IsLetter(c)
  {
    ('A' as int + Random(draw, 26)) as char
  }

  /** The first n suffix letters; a missing draw counts as 0. */
  function Letters(draws: seq<nat>, n: nat): (s: seq<char>)
    ensures |s| == n && forall i :: 0 <= i < n ==> IsLetter(s[i])
  {
    if n == 0 then [] else Letters(draws, n - 1) + [LetterOf(if n - 1 < |draws| then draws[n - 1] else 0)]
  }

  /** `generate_random_callsign`. */
  function Callsign(d: CallDraws): (cs: seq<char>)
    ensures IsFictionalCallsign(cs)
  {
    var digit := DigitOf(d.digit);
    [PrefixOf(d.prefix), digit, digit] + Letters(d.letters, 2 + Random(d.len, 2))
  }

  /** `generate_cq_message()` with the configured format "CQ CQ DE %s %s K    ". */
  function CqMessage(cs: seq<char>): seq<char> {
    "CQ CQ DE " + cs + " " + cs + " K    "
  }

  /** Every generated message fits the 40-byte buffer with its NUL, and contains no NUL. */
  lemma CqMessageFits(d: CallDraws)
    ensures var msg := CqMessage(Callsign(d));
            |msg| < MESSAGE_BUFFER && forall i :: 0 <= i < |msg| ==> msg[i] != '\0'
  {
    var cs := Callsign(d);
    var msg := CqMessage(cs);
    forall i | 0 <= i < |msg| ensures msg[i] != '\0' {
      if 9 <= i < 9 + |cs| {
        assert msg[i] == cs[i - 9];
      } else if 10 + |cs| <= i < 10 + 2 * |cs| {
        assert msg[i] == cs[i - 10 - |cs|];
      }
    }
  }

  lemma {:induction false} LettersReachAll(s: seq<char>, n: nat)
    requires n <= |s| && forall i :: 0 <= i < |s| ==> IsLetter(s[i])
    ensures Letters(LetterDraws(s), n) == s[..n]
  {
    if n > 0 {
      LettersReachAll(s, n - 1);
      RandomReachesAll(s[n - 1] as int - 'A' as int, 26);
      assert s[..n] == s[..n - 1] + [s[n - 1]];
    }
  }

  /** The draws that spell out the letters of `s`. */
  function LetterDraws(s: seq<char>): (ds: seq<nat>)
    requires forall i :: 0 <= i < |s| ==> IsLetter(s[i])
    ensures |ds| == |s| && forall i :: 0 <= i < |s| ==> ds[i] == s[i] as int - 'A' as int
  {
    if s == [] then []
    else
      assert IsLetter(s[|s| - 1]);
      var v: nat := s[|s| - 1] as int - 'A' as int;
      LetterDraws(s[..|s| - 1]) + [v]
  }

  /** The draws that produce a given fictional callsign. */
  function DrawsFor(cs: seq<char>): (d: CallDraws)
    requires IsFictionalCallsign(cs)
    ensures d.prefix < 3 && d.digit < 10 && d.len < 2 && |d.letters| == |cs| - 3
  {
    var p: nat := if cs[0] == 'W' then 0 else if cs[0] == 'K' then 1 else 2;
    var dg: nat := cs[1] as int - '0' as int;
    CallDraws(p, dg, |cs| - 5, LetterDraws(cs[3..]))
  }

  /** Conversely, every fictional callsign is the one some draws produce. */
  lemma CallsignReachesAll(cs: seq<char>)
    requires IsFictionalCallsign(cs)
    ensures Callsign(DrawsFor(cs)) == cs
  {
    var d := DrawsFor(cs);
    assert PrefixOf(d.prefix) == cs[0] by {
      RandomReachesAll(d.prefix, 3);
    }
    assert DigitOf(d.digit) == cs[1] by {
      RandomReachesAll(d.digit, 10);
    }
    assert Letters(d.letters, 2 + Random(d.len, 2)) == cs[3..] by {
      RandomReachesAll(d.len, 2);
      LettersReachAll(cs[3..], |cs| - 3);
      assert cs[3..][..|cs| - 3] == cs[3..];
    }
    assert Callsign(d) == [cs[0], cs[1], cs[1]] + cs[3..];
    SplitAfterThree(cs);
  }

  /** A sequence of at least three is its first three and the rest. */
  lemma SplitAfterThree(cs: seq<char>)
    requires |cs| >= 3
    ensures cs == [cs[0], cs[1], cs[2]] + cs[3..]
  {
  }

  // ---------------------------------------------------------------------------
  // The station

  datatype Station = Station(
    tx: Tx,
    morse: M.Morse,
    message: seq<char>,
    storedWpm: int,
    baseWpm: int,
    cyclesCompleted: int,
    cyclesUntilQsy: int,
    inWait: bool,
    nextCq: nat)

  datatype StationPool = StationPool(st: Station, pool: WaveGenPool)

  /** The random values one step may consume. */
  datatype Draws = Draws(morse: nat, drift: nat, call: CallDraws, wpm: nat, qsy: nat, retry: nat)

  /** The lease is sound, the keyer's invariant holds, the speed can be keyed,
      and a station pausing between calls holds no generator. */
  predicate Inv(s: StationPool) {
    && Valid(s.st.tx, s.pool)
    && M.Inv(s.st.morse)
    && s.st.storedWpm >= 1
    && (s.st.inWait ==> !s.st.tx.lease.Holds())
  }

  /** The constructor: a perfect or configured fist, a fresh CQ message, and a
      threshold of 3 to 8 calls before the operator moves. */
  function NewStation(fixedFreq: real, wpm: int, fist: nat, call: CallDraws, qsy: nat): (st: Station)
    requires fist < 256
    ensures st.tx == NewTransmitter(fixedFreq) && st.storedWpm == wpm && st.baseWpm == wpm
    ensures st.cyclesCompleted == 0 && 3 <= st.cyclesUntilQsy <= 8
    ensures !st.inWait && st.nextCq == 0 && st.morse == M.NewMorse(fist)
    ensures st.message == CqMessage(Callsign(call))
  {
    Station(NewTransmitter(fixedFreq), M.NewMorse(fist), CqMessage(Callsign(call)),
            wpm, wpm, 0, 3 + Random(qsy, 6), false, 0)
  }

  /** `begin(time)`: take a generator (keeping one already held), set it up,
      and start keying the CQ message. Without a generator nothing is started. */
  function Begin(s: StationPool, bfo: real): (r: (StationPool, bool))
    requires Inv(s)
    ensures Inv(r.0) && r.0.st.storedWpm == s.st.storedWpm
    ensures r.1 <==> s.st.tx.lease.Holds() || exists j :: 0 <= j < |s.pool.inUse| && !s.pool.inUse[j]
    ensures r.1 <==> r.0.st.tx.lease.Holds()
    ensures !r.1 ==> r.0.st.morse == s.st.morse && r.0.st.inWait == s.st.inWait && r.0.pool == s.pool
    ensures r.1 ==> !r.0.st.inWait
                    && r.0.st.morse == M.StartTransmission(s.st.morse, Str(s.st.message), s.st.storedWpm)
  {
    var st := s.st;
    var b := BeginKeyed(st.tx, s.pool, SPACE_FREQUENCY, bfo);
    if !b.1 then (StationPool(st.(tx := b.0.tx), b.0.pool), false)
    else
      var morse := M.StartTransmission(st.morse, Str(st.message), st.storedWpm);
      M.StartEstablishesInv(st.morse, Str(st.message), st.storedWpm);
      (StationPool(st.(tx := b.0.tx, morse := morse, inWait := false), b.0.pool), true)
  }

  /** `update(mode)`: follow the dial. Always reports success. */
  function Update(s: StationPool, vfo: nat, sub: nat, bfo: real): (r: (StationPool, bool))
    requires Inv(s)
    ensures r.1 && Inv(r.0) && r.0.pool.inUse == s.pool.inUse
    ensures r.0.st == s.st.(tx := r.0.st.tx)
    ensures r.0.st.tx.frequency == CommonFrequencyUpdate(s.st.tx, vfo, sub, bfo).frequency
    ensures r.0.st.tx.lease == s.st.tx.lease
  {
    var z := UpdateKeyed(s.st.tx, s.pool, vfo, sub, bfo);
    (StationPool(s.st.(tx := z.tx), z.pool), true)
  }

  /** `apply_wpm_drift()`: a new speed within four of the base, kept to 8..25. */
  function WpmDrift(baseWpm: int, draw: nat): (w: int)
    ensures 8 <= w <= 25
    ensures baseWpm - 4 <= w <= baseWpm + 4 || w == 8 || w == 25
    ensures 12 <= baseWpm <= 21 ==> baseWpm - 4 <= w <= baseWpm + 4
  {
    var w := baseWpm + RandomRange(draw, -4, 5);
    if w < 8 then 8 else if w > 25 then 25 else w
  }

  /** The frequency move of a frustrated operator: -250 Hz up to (not including) +250 Hz. */
  function QsyDrift(draw: nat): (d: real)
    ensures -250.0 <= d < 250.0
  {
    (RandomRange(draw, 0, 50000) as real) / 100.0 - 250.0
  }

  /** `apply_operator_frustration_drift()`: a new operator a little off frequency,
      with a new callsign and speed, heard at once on a held generator. */
  function FrustrationDrift(s: StationPool, bfo: real, d: Draws): (r: StationPool)
    requires Inv(s)
    ensures Inv(r) && r.pool.inUse == s.pool.inUse && r.st.tx.lease == s.st.tx.lease
    ensures r.st.tx.fixedFreq == s.st.tx.fixedFreq + QsyDrift(d.drift)
    ensures r.st.message == CqMessage(Callsign(d.call)) && r.st.storedWpm == WpmDrift(s.st.baseWpm, d.wpm)
    ensures r.st.tx.active == s.st.tx.active && r.st.morse == s.st.morse && r.st.inWait == s.st.inWait
    ensures r.st.cyclesCompleted == s.st.cyclesCompleted && r.st.baseWpm == s.st.baseWpm
  {
    var st := s.st.(tx := s.st.tx.(fixedFreq := s.st.tx.fixedFreq + QsyDrift(d.drift)),
                    message := CqMessage(Callsign(d.call)),
                    storedWpm := WpmDrift(s.st.baseWpm, d.wpm));
    var f := ForceFrequencyUpdate(st.tx, s.pool, bfo);
    StationPool(st.(tx := f.tx), f.pool)
  }

  /** What the station does when its keyer reports the end of the message:
      carrier off, one more call counted (moving frequency when the threshold
      is reached), the generator given back, and a pause until the next call. */
  function Complete(s: StationPool, time: nat, bfo: real, d: Draws): (r: StationPool)
    requires Inv(s)
  {
    var z := RealizeKeyed(s.st.tx.(active := false), s.pool);
    var s1 := StationPool(s.st.(tx := z.tx, cyclesCompleted := s.st.cyclesCompleted + 1), z.pool);
    var s2 :=
      if s1.st.cyclesCompleted >= s1.st.cyclesUntilQsy then
        var f := FrustrationDrift(s1, bfo, d);
        f.(st := f.st.(cyclesCompleted := 0, cyclesUntilQsy := 3 + Random(d.qsy, 6)))
      else s1;
    var e := EndTx(s2.st.tx, s2.pool);
    StationPool(s2.st.(tx := e.tx, inWait := true, nextCq := time + WAIT_SECONDS * 1000), e.pool)
  }

  /** The station's reaction to one keyer code, and whether it sends a
      signal-meter charge pulse (on every key-down and held key). */
  function OnCode(s: StationPool, code: Code, time: nat, bfo: real, d: Draws): (r: (StationPool, bool))
    requires Inv(s)
    ensures Inv(r.0)
    ensures r.1 <==> code in {TurnOn, LeaveOn}
  {
    match code
    case TurnOn =>
      var z := RealizeKeyed(s.st.tx.(active := true), s.pool);
      (StationPool(s.st.(tx := z.tx), z.pool), true)
    case LeaveOn => (s, true)
    case TurnOff =>
      var z := RealizeKeyed(s.st.tx.(active := false), s.pool);
      (StationPool(s.st.(tx := z.tx), z.pool), false)
    case MessageComplete =>
      CompletionEffects(s, time, bfo, d);
      (Complete(s, time, bfo, d), false)
    case _ => (s, false)
  }

  /** The end of the pause: try to take a generator and call again; when none
      is free, try again 0.5 to 1.5 seconds later. */
  function RetryIfDue(s: StationPool, time: nat, bfo: real, d: Draws): (r: StationPool)
    requires Inv(s)
    ensures Inv(r)
  {
    if s.st.inWait && time >= s.st.nextCq then
      var b := Begin(s, bfo);
      if b.1 then b.0.(st := b.0.st.(inWait := false))
      else b.0.(st := b.0.st.(nextCq := time + 500 + Random(d.retry, 1000)))
    else s
  }

  datatype StationStep = StationStep(s: StationPool, keepGoing: bool, pulse: bool)

  /** `step(time)`: step the keyer, react to its code, then retry a due call.
      Every step keeps the invariant: in particular a pausing station never
      holds a generator another station could use. */
  function Step(s: StationPool, time: nat, bfo: real, d: Draws): (r: StationStep)
    requires Inv(s)
    ensures r.keepGoing && Inv(r.s)
    ensures r.pulse <==> M.StepModulator(s.st.morse, time, d.morse).code in {TurnOn, LeaveOn}
  {
    var k := M.StepModulator(s.st.morse, time, d.morse);
    M.StepPreservesInv(s.st.morse, time, d.morse);
    var o := OnCode(StationPool(s.st.(morse := k.s), s.pool), k.code, time, bfo, d);
    StationStep(RetryIfDue(o.0, time, bfo, d), true, o.1)
  }

  /** `randomize()`: a new operator on the same frequency: new callsign, a speed
      of 8 to 25, a threshold of 3 to 10 calls, and no pause pending. */
  function Randomize(st: Station, d: Draws): (r: Station)
    ensures r.tx == st.tx && r.morse == st.morse
    ensures r.message == CqMessage(Callsign(d.call))
    ensures 8 <= r.baseWpm <= 25 && r.storedWpm == r.baseWpm
    ensures r.cyclesCompleted == 0 && 3 <= r.cyclesUntilQsy <= 10
    ensures !r.inWait && r.nextCq == 0
  {
    var w := RandomRange(d.wpm, 8, 26);
    st.(message := CqMessage(Callsign(d.call)), baseWpm := w, storedWpm := w,
        cyclesCompleted := 0, cyclesUntilQsy := RandomRange(d.qsy, 3, 11), inWait := false, nextCq := 0)
  }

  // ---------------------------------------------------------------------------
  // Properties

  /** Key-down and key-up switch the carrier flag and touch no lease. */
  lemma KeyingLeavesPool(s: StationPool, time: nat, bfo: real, d: Draws)
    requires Inv(s)
    ensures var r := OnCode(s, TurnOn, time, bfo, d).0;
            r.st.tx.active && r.pool.inUse == s.pool.inUse && r.st.tx.lease == s.st.tx.lease
    ensures var r := OnCode(s, TurnOff, time, bfo, d).0;
            !r.st.tx.active && r.pool.inUse == s.pool.inUse && r.st.tx.lease == s.st.tx.lease
  {
  }

  /** The end of a message: carrier off, the call counted (the counter starting
      over with a new threshold of 3 to 8 once the threshold is reached), the
      generator released, and the next call due four seconds later. */
  lemma CompletionEffects(s: StationPool, time: nat, bfo: real, d: Draws)
    requires Inv(s)
    ensures var r := Complete(s, time, bfo, d);
            Inv(r) && !r.st.tx.active && !r.st.tx.lease.Holds()
            && r.st.inWait && r.st.nextCq == time + WAIT_SECONDS * 1000
            && r.pool.inUse == End(s.st.tx.lease, s.pool).pool.inUse
            && (s.st.cyclesCompleted + 1 >= s.st.cyclesUntilQsy ==>
                  r.st.cyclesCompleted == 0 && 3 <= r.st.cyclesUntilQsy <= 8
                  && r.st.tx.fixedFreq == s.st.tx.fixedFreq + QsyDrift(d.drift))
            && (s.st.cyclesCompleted + 1 < s.st.cyclesUntilQsy ==>
                  r.st.cyclesCompleted == s.st.cyclesCompleted + 1 && r.st.cyclesUntilQsy == s.st.cyclesUntilQsy
                  && r.st.tx.fixedFreq == s.st.tx.fixedFreq)
  {
  }

  /** A due retry either starts the next call with a generator or schedules
      another try 0.5 to 1.5 seconds later without one. */
  lemma RetryEffects(s: StationPool, time: nat, bfo: real, d: Draws)
    requires Inv(s) && s.st.inWait && time >= s.st.nextCq
    ensures var r := RetryIfDue(s, time, bfo, d);
            Inv(r)
            && (r.st.tx.lease.Holds() ==> !r.st.inWait)
            && (!r.st.tx.lease.Holds() ==>
                  r.st.inWait && r.pool == s.pool && time + 500 <= r.st.nextCq < time + 1500)
            && (r.st.tx.lease.Holds() <==> exists j :: 0 <= j < |s.pool.inUse| && !s.pool.inUse[j])
  {
  }
}
