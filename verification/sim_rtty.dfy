/** A simulated teleprinter station. A round opens with three seconds of
    steady mark tone, sends its CQ message three times with three seconds of
    mark between the sendings and after the last, then gives its generator
    back for a six-second silence and starts the next round, retrying every
    second while no generator is free.

    The generator's main channel carries the station's audio offset and its
    alternate channel the offset plus the 170 Hz shift; the keyed flag
    selects the main channel.
 */
module RttyStation {
  import opened Platform
  import opened Modulator
  import R = Rtty
  import opened WaveGens
  import opened GenPool
  import opened Realizations
  import opened Transmitter

  const MARK_FREQ_SHIFT: real := 170.0
  const RTTY_WAIT_SECONDS: nat := 6
  const RTTY_MARK_TONE_SECONDS: nat := 3
  /** Written once by the constructor and never changed. */
  const MESSAGE_REPEAT_COUNT: int := 3

  const RTTY_MESSAGE: seq<char> := "CQ CQ DE N6CCM K       "

  const MARK_TONE_MS: nat := RTTY_MARK_TONE_SECONDS * 1000
  const ROUND_BREAK_MS: nat := RTTY_WAIT_SECONDS * 1000
  const RETRY_MS: nat := 1000

  /** `currentRepeat` counts the sendings of the round; one past the repeat
      count marks the final mark tone. */
  datatype Station = Station(
    tx: Tx,
    rtty: R.Rtty,
    inWaitDelay: bool,
    inRoundBreak: bool,
    inInitialMark: bool,
    nextMessageTime: nat,
    currentRepeat: int)

  datatype StationPool = StationPool(st: Station, pool: WaveGenPool)

  /** The constructor: waiting in the opening mark tone of the first round,
      with a teleprinter reading the flash table as the source compiles it
      (`beyond` is whatever the program image holds after that table). */
  function NewStation(fixedFreq: real, beyond: seq<nat>): (st: Station)
    ensures st.tx == NewTransmitter(fixedFreq) && st.rtty == R.NewRtty(R.Flash(beyond))
    ensures st.inWaitDelay && st.inInitialMark && !st.inRoundBreak
    ensures st.nextMessageTime == 0 && st.currentRepeat == 0
  {
    Station(NewTransmitter(fixedFreq), R.NewRtty(R.Flash(beyond)), true, false, true, 0, 0)
  }

  /** The flags describe one place in the round: the opening mark and the
      round break are waits at the start of a round; a sending is one of the
      three; a wait after a sending is the mark before the next one or, one
      past the count, the final mark. */
  predicate Inv(s: StationPool) {
    && Valid(s.st.tx, s.pool)
    && R.Inv(s.st.rtty)
    && (s.st.inInitialMark ==> s.st.inWaitDelay && !s.st.inRoundBreak && s.st.currentRepeat == 0)
    && (s.st.inRoundBreak ==> s.st.inWaitDelay && s.st.currentRepeat == 0)
    && (!s.st.inWaitDelay ==> 0 <= s.st.currentRepeat < MESSAGE_REPEAT_COUNT)
    && (s.st.inWaitDelay && !s.st.inRoundBreak && !s.st.inInitialMark ==>
          s.st.currentRepeat in {1, 2, MESSAGE_REPEAT_COUNT + 1})
  }

  lemma NewStationInv(fixedFreq: real, beyond: seq<nat>, pool: WaveGenPool)
    requires pool.Valid()
    ensures Inv(StationPool(NewStation(fixedFreq, beyond), pool))
  {
  }

  // ---------------------------------------------------------------------------
  // The generator

  /** Put the offset on the main channel and the shifted offset on the
      alternate one, when enabled and holding a generator. */
  function WriteTones(tx: Tx, pool: WaveGenPool): (q: WaveGenPool)
    requires Valid(tx, pool)
    ensures Valid(tx, q) && q.inUse == pool.inUse && |q.gens| == |pool.gens|
    ensures !(tx.enabled && tx.lease.Holds()) ==> q == pool
    ensures tx.enabled && tx.lease.Holds() ==>
              Cached(q.gens[tx.lease.realizer], true) == tx.frequency
              && Cached(q.gens[tx.lease.realizer], false) == tx.frequency + MARK_FREQ_SHIFT
              && q.gens[tx.lease.realizer].main == pool.gens[tx.lease.realizer].main
    ensures forall j :: 0 <= j < |pool.gens| && j != tx.lease.realizer ==> q.gens[j] == pool.gens[j]
  {
    if tx.enabled && tx.lease.Holds() then
      var slot := tx.lease.realizer;
      WriteFreq(WriteFreq(pool, slot, tx.frequency, true), slot, tx.frequency + MARK_FREQ_SHIFT, false)
    else pool
  }

  /** `realize()`: the window check comes first and applies even without a
      generator. In the window, a held generator plays the keyed channel, or
      during a round break is silenced on both channels. */
  function Realize(tx: Tx, pool: WaveGenPool, roundBreak: bool): (r: TxPool)
    requires Valid(tx, pool)
    ensures Valid(r.tx, r.pool) && r.pool.inUse == pool.inUse && |r.pool.gens| == |pool.gens|
    ensures r.tx == tx.(enabled := InAudibleWindow(tx.frequency))
    ensures !tx.lease.Holds() ==> r.pool == pool
    ensures tx.lease.Holds() && InAudibleWindow(tx.frequency) && !roundBreak ==>
              r.pool.gens[tx.lease.realizer].main == tx.active
    ensures tx.lease.Holds() && InAudibleWindow(tx.frequency) && roundBreak ==>
              var g := r.pool.gens[tx.lease.realizer];
              !g.main && Cached(g, true) == SILENT_FREQ && Cached(g, false) == SILENT_FREQ
    ensures forall j :: 0 <= j < |pool.gens| && j != tx.lease.realizer ==> r.pool.gens[j] == pool.gens[j]
  {
    var c := CheckFrequencyBounds(tx, pool);
    if !c.1 || !tx.lease.Holds() then c.0
    else
      var slot := tx.lease.realizer;
      if roundBreak then TxPool(c.0.tx, WriteSelect(WriteBoth(c.0.pool, slot, SILENT_FREQ, true), slot, false))
      else TxPool(c.0.tx, WriteSelect(c.0.pool, slot, tx.active))
  }

  /** `begin(time)`: take a generator and park both channels at the silent
      frequency; the very first begin also schedules the opening mark's end.
      It does not enable the station or write its tones. */
  function Begin(s: StationPool, time: nat): (r: (StationPool, bool))
    requires Valid(s.st.tx, s.pool)
    ensures Valid(r.0.st.tx, r.0.pool)
    ensures r.1 <==> s.st.tx.lease.Holds() || exists j :: 0 <= j < |s.pool.inUse| && !s.pool.inUse[j]
    ensures r.1 <==> r.0.st.tx.lease.Holds()
    ensures !r.1 ==> r.0.pool == s.pool
    ensures r.1 ==> r.0.pool.inUse == Realizations.Begin(s.st.tx.lease, s.pool).pool.inUse
    ensures r.1 ==> var g := r.0.pool.gens[r.0.st.tx.lease.realizer];
                    Cached(g, true) == SILENT_FREQ && Cached(g, false) == SILENT_FREQ
    ensures r.0.st.nextMessageTime ==
              if r.1 && s.st.nextMessageTime == 0 then time + MARK_TONE_MS else s.st.nextMessageTime
    ensures r.0.st == s.st.(tx := r.0.st.tx, nextMessageTime := r.0.st.nextMessageTime)
    ensures r.0.st.tx == s.st.tx.(frequency := 0.0, lease := r.0.st.tx.lease)
  {
    var b := CommonBegin(s.st.tx, s.pool, s.st.tx.fixedFreq);
    if !b.1 then (StationPool(s.st.(tx := b.0.tx), b.0.pool), false)
    else
      var q := WriteBoth(b.0.pool, b.0.tx.lease.realizer, SILENT_FREQ, false);
      var next := if s.st.nextMessageTime == 0 then time + MARK_TONE_MS else s.st.nextMessageTime;
      (StationPool(s.st.(tx := b.0.tx, nextMessageTime := next), q), true)
  }

  /** `update(mode)`: follow the dial, write both tones, realize. */
  function Update(s: StationPool, vfo: nat, sub: nat, bfo: real): (r: (StationPool, bool))
    requires Inv(s)
    ensures r.1 && Inv(r.0) && r.0.pool.inUse == s.pool.inUse
    ensures r.0.st == s.st.(tx := r.0.st.tx)
    ensures r.0.st.tx == CommonFrequencyUpdate(s.st.tx, vfo, sub, bfo).(enabled := r.0.st.tx.enabled)
  {
    var t := CommonFrequencyUpdate(s.st.tx, vfo, sub, bfo);
    var z := Realize(t, WriteTones(t, s.pool), s.st.inRoundBreak);
    (StationPool(s.st.(tx := z.tx), z.pool), true)
  }

  /** Whether the carrier is keyed and which tone sounds: a held, enabled
      generator outside a round break plays the offset when keyed (mark) and
      the shifted offset when not (space). */
  lemma UpdateSetsTones(s: StationPool, vfo: nat, sub: nat, bfo: real)
    requires Inv(s) && s.st.tx.lease.Holds() && s.st.tx.enabled && !s.st.inRoundBreak
    requires InAudibleWindow(CommonFrequencyUpdate(s.st.tx, vfo, sub, bfo).frequency)
    ensures var r := Update(s, vfo, sub, bfo).0;
            var g := r.pool.gens[s.st.tx.lease.realizer];
            g.main == s.st.tx.active
            && Cached(g, true) == r.st.tx.frequency
            && Cached(g, false) == r.st.tx.frequency + MARK_FREQ_SHIFT
  {
  }

  /** Every character of the message lies inside the flash table as
      written and before the first NUL, so the whole message is sent. */
  lemma MessageWithinTable()
    ensures StrLen(RTTY_MESSAGE) == |RTTY_MESSAGE|
    ensures forall i :: 0 <= i < |RTTY_MESSAGE| ==> RTTY_MESSAGE[i] as int < R.FLASH_TABLE_SIZE
  {
    assert forall i :: 0 <= i < |RTTY_MESSAGE| ==> ' ' <= RTTY_MESSAGE[i] <= 'Q';
  }

  /** So each frame of the message carries a five-bit code whatever follows
      the table in the image. */
  lemma MessageCodes(beyond: seq<nat>)
    ensures forall i :: 0 <= i < |RTTY_MESSAGE| ==> R.SentCode(R.Flash(beyond), Str(RTTY_MESSAGE), i) < 32
  {
    MessageWithinTable();
    forall i | 0 <= i < |RTTY_MESSAGE|
      ensures R.SentCode(R.Flash(beyond), Str(RTTY_MESSAGE), i) < 32
    {
      var c := Str(RTTY_MESSAGE).chars[i];
      assert c as int < R.FLASH_TABLE_SIZE;
    }
  }

  /** The call sign's letter N and digit 6 sit at positions 9 and 10. */
  lemma CallSignChars()
    ensures |RTTY_MESSAGE| == 23 && RTTY_MESSAGE[9] == 'N' && RTTY_MESSAGE[10] == '6'
  {
  }

  /** The call sign's 'N' goes out as the source's 0x18, where ITA2 has
      0x0C, and the digit '6', which has no letters-case code, as a space. */
  lemma CallSignCodes(beyond: seq<nat>)
    ensures R.SentCode(R.Flash(beyond), Str(RTTY_MESSAGE), 9) == 0x18
    ensures R.SentCode(R.Ita2, Str(RTTY_MESSAGE), 9) == 0x0C
    ensures R.SentCode(R.Flash(beyond), Str(RTTY_MESSAGE), 10) == R.BAUDOT_SPACE
  {
    MessageWithinTable();
    CallSignChars();
    var m := Str(RTTY_MESSAGE);
    assert R.InMessage(m, 9) && R.InMessage(m, 10);
    R.SentCodeOfChar(R.Flash(beyond), m, 9);
    R.SentCodeOfChar(R.Ita2, m, 9);
    R.SentCodeOfChar(R.Flash(beyond), m, 10);
    R.FlashSendsSourceCodes(beyond);
  }

  // ---------------------------------------------------------------------------
  // Stepping

  /** `rtty.start_rtty_message(message, false)`: the teleprinter starts the
      CQ message once, from its first character, carrier off and the first
      frame armed at once, reading the same table; nothing else changes. */
  function StartMessage(st: Station): (r: Station)
    ensures r == st.(rtty := r.rtty) && R.Inv(r.rtty)
    ensures r.rtty.m.str == Str(RTTY_MESSAGE) && r.rtty.pos == 0 && !r.rtty.repeat && r.rtty.table == st.rtty.table
    ensures !r.rtty.m.active && !r.rtty.m.elementDone && r.rtty.m.element == 0 && r.rtty.m.nextEvent == 0
  {
    st.(rtty := R.StartRttyMessage(st.rtty, Str(RTTY_MESSAGE), false))
  }

  /** The end of a wait took the round from `s` to its next phase in `r`,
      and, when that phase is a wait, scheduled its end after its length. */
  predicate WaitEnded(s: StationPool, r: StationPool, time: nat) {
    && PhaseOf(r.st) == NextPhase(PhaseOf(s.st), Acquirable(s))
    && (r.st.inWaitDelay ==> r.st.nextMessageTime == time + WaitLength(PhaseOf(s.st), Acquirable(s)))
  }

  /** The end of the final mark: carrier off, both channels silenced, the
      generator given back, and the round break scheduled. */
  function EnterRoundBreak(s: StationPool, time: nat): (r: StationPool)
    requires Inv(s) && PhaseOf(s.st) == FinalMark
    ensures Inv(r) && PhaseOf(r.st) == RoundBreak && r.st.nextMessageTime == time + ROUND_BREAK_MS
    ensures !r.st.tx.lease.Holds() && !r.st.tx.active
    ensures r.pool.inUse == End(s.st.tx.lease, s.pool).pool.inUse
    ensures WaitEnded(s, r, time)
  {
    var z := Realize(s.st.tx.(active := false), s.pool, false);
    var q := if z.tx.lease.Holds() then
               WriteSelect(WriteBoth(z.pool, z.tx.lease.realizer, SILENT_FREQ, true), z.tx.lease.realizer, false)
             else z.pool;
    var e := EndTx(z.tx, q);
    StationPool(s.st.(tx := e.tx, inWaitDelay := true, inRoundBreak := true,
                      nextMessageTime := time + ROUND_BREAK_MS, currentRepeat := 0), e.pool)
  }

  /** The end of a round break: leave the break; keep a held generator or try
      to take one; with one, open the round with the mark tone, otherwise stay
      in the break and try again in a second. */
  function StartRound(s: StationPool, time: nat, bfo: real): (r: StationPool)
    requires Inv(s) && PhaseOf(s.st) == RoundBreak
    ensures Inv(r) && r.st.inWaitDelay
    ensures Acquirable(s) ==> PhaseOf(r.st) == InitialMark && r.st.nextMessageTime == time + MARK_TONE_MS
                              && r.st.tx.lease.Holds()
    ensures !Acquirable(s) ==> PhaseOf(r.st) == RoundBreak && r.st.nextMessageTime == time + RETRY_MS
                               && r.pool == s.pool
    ensures WaitEnded(s, r, time)
  {
    var st1 := s.st.(inRoundBreak := false);
    var p1 := WriteTones(st1.tx, s.pool);
    if st1.tx.lease.Holds() then
      StationPool(st1.(inWaitDelay := true, inInitialMark := true, nextMessageTime := time + MARK_TONE_MS), p1)
    else
      var b := Begin(StationPool(st1, p1), time);
      if !b.1 then
        b.0.(st := b.0.st.(inWaitDelay := true, inRoundBreak := true, nextMessageTime := time + RETRY_MS))
      else
        var f := ForceFrequencyUpdate(b.0.st.tx, b.0.pool, bfo);
        StationPool(b.0.st.(tx := f.tx, inWaitDelay := true, inInitialMark := true,
                            nextMessageTime := time + MARK_TONE_MS),
                    WriteTones(f.tx, f.pool))
  }

  /** The end of a mark between sendings: write the tones and send the
      message again. */
  function SendAgain(s: StationPool): (r: StationPool)
    requires Inv(s) && PhaseOf(s.st).MarkBetween?
    ensures Inv(r) && PhaseOf(r.st) == Sending(s.st.currentRepeat) && !r.st.inWaitDelay
    ensures r.pool.inUse == s.pool.inUse
  {
    StationPool(StartMessage(s.st.(inWaitDelay := false)), WriteTones(s.st.tx, s.pool))
  }

  /** The end of the opening mark: the first sending of the round starts. */
  function EndInitialMark(s: StationPool): (r: StationPool)
    requires Inv(s) && s.st.inWaitDelay && s.st.inInitialMark
    ensures Inv(r) && PhaseOf(r.st) == Sending(0) && !r.st.inWaitDelay && r.pool == s.pool
  {
    StationPool(StartMessage(s.st.(inWaitDelay := false, inInitialMark := false)), s.pool)
  }

  /** The end of a wait: send the first message after the opening mark;
      release the generator after the final mark; start a round after the
      round break; otherwise write the tones and send the next repetition. */
  function WaitEnd(s: StationPool, time: nat, bfo: real): (r: StationPool)
    requires Inv(s) && s.st.inWaitDelay
    ensures Inv(r) && WaitEnded(s, r, time)
  {
    if s.st.inInitialMark then InitialMarkEnds(s, time); EndInitialMark(s)
    else if s.st.inRoundBreak then StartRound(s, time, bfo)
    else if s.st.currentRepeat > MESSAGE_REPEAT_COUNT then EnterRoundBreak(s, time)
    else SendAgainEnds(s, time); SendAgain(s)
  }

  /** The end of the opening mark is the end of a wait. */
  lemma InitialMarkEnds(s: StationPool, time: nat)
    requires Inv(s) && s.st.inWaitDelay && s.st.inInitialMark
    ensures WaitEnded(s, EndInitialMark(s), time)
  {
  }

  /** The end of a mark between sendings is the end of a wait. */
  lemma SendAgainEnds(s: StationPool, time: nat)
    requires Inv(s) && PhaseOf(s.st).MarkBetween?
    ensures WaitEnded(s, SendAgain(s), time)
  {
  }

  /** A step while waiting: mark tone, or silence in a round break; at the
      scheduled time, the end of the wait. */
  function WaitStep(s: StationPool, time: nat, bfo: real): (r: StationPool)
    requires Inv(s) && s.st.inWaitDelay
  {
    var z := Realize(s.st.tx.(active := !s.st.inRoundBreak), s.pool, s.st.inRoundBreak);
    var s1 := StationPool(s.st.(tx := z.tx), z.pool);
    if time >= s1.st.nextMessageTime then WaitEnd(s1, time, bfo) else s1
  }

  datatype Keying = Keying(s: StationPool, pulse: bool)

  /** The keyer part of a sending step: only a station with a generator steps
      its teleprinter; carrier on sends a meter pulse, and so does a steady
      carrier. */
  function Key(s: StationPool, time: nat): (r: Keying)
    requires Inv(s) && !s.st.inWaitDelay
    ensures Inv(r.s) && r.s.pool.inUse == s.pool.inUse
    ensures r.s.st == s.st.(tx := r.s.st.tx, rtty := r.s.st.rtty)
    ensures r.s.st.tx.lease == s.st.tx.lease
    ensures !s.st.tx.lease.Holds() ==> r == Keying(s, false)
    ensures s.st.tx.lease.Holds() ==> r.s.st.rtty == R.StepModulator(s.st.rtty, time).0
  {
    if !s.st.tx.lease.Holds() then Keying(s, false)
    else
      var k := R.StepModulator(s.st.rtty, time);
      var st := s.st.(rtty := k.0);
      match k.1
      case TurnOn =>
        var z := Realize(st.tx.(active := true), s.pool, st.inRoundBreak);
        Keying(StationPool(st.(tx := z.tx), z.pool), true)
      case LeaveOn => Keying(StationPool(st, s.pool), true)
      case TurnOff =>
        var z := Realize(st.tx.(active := false), s.pool, st.inRoundBreak);
        Keying(StationPool(st.(tx := z.tx), z.pool), false)
      case _ => Keying(StationPool(st, s.pool), false)
  }

  /** After a completed sending: a mark tone before the next one, or the final
      mark after the last, flagged by counting one past the repeat count. */
  function AfterMessage(st: Station, time: nat): (r: Station)
  {
    var n := st.currentRepeat + 1;
    var st1 := st.(currentRepeat := n, inWaitDelay := true, inRoundBreak := false,
                   nextMessageTime := time + MARK_TONE_MS);
    if n < MESSAGE_REPEAT_COUNT then st1 else st1.(currentRepeat := n + 1)
  }

  datatype StationStep = StationStep(s: StationPool, keepGoing: bool, pulse: bool)

  /** `step(time)`. Always asks to keep going. */
  function Step(s: StationPool, time: nat, bfo: real): (r: StationStep)
    requires Inv(s)
    ensures r.keepGoing && Inv(r.s)
  {
    if s.st.inWaitDelay then
      WaitStepKeepsInv(s, time, bfo);
      StationStep(WaitStep(s, time, bfo), true, false)
    else
      var k := Key(s, time);
      var st := if R.IsTransmissionComplete(k.s.st.rtty) then AfterMessage(k.s.st, time) else k.s.st;
      StationStep(StationPool(st, k.s.pool), true, k.pulse)
  }

  lemma WaitStepKeepsInv(s: StationPool, time: nat, bfo: real)
    requires Inv(s) && s.st.inWaitDelay
    ensures Inv(WaitStep(s, time, bfo))
  {
  }

  // ---------------------------------------------------------------------------
  // The round

  /** Where in its round a station is. */
  datatype RoundPhase = InitialMark | Sending(n: int) | MarkBetween(n: int) | FinalMark | RoundBreak

  function PhaseOf(st: Station): RoundPhase {
    if !st.inWaitDelay then Sending(st.currentRepeat)
    else if st.inInitialMark then InitialMark
    else if st.inRoundBreak then RoundBreak
    else if st.currentRepeat > MESSAGE_REPEAT_COUNT then FinalMark
    else MarkBetween(st.currentRepeat)
  }

  /** The round as a phase machine: a sending is followed by a mark, which
      after the third sending is the final one; the round break moves on only
      when a generator is at hand. */
  function NextPhase(p: RoundPhase, acquired: bool): RoundPhase {
    match p
    case InitialMark => Sending(0)
    case Sending(n) => if n + 1 < MESSAGE_REPEAT_COUNT then MarkBetween(n + 1) else FinalMark
    case MarkBetween(n) => Sending(n)
    case FinalMark => RoundBreak
    case RoundBreak => if acquired then InitialMark else RoundBreak
  }

  /** How long the phase a wait end enters lasts, when it is a wait. */
  function WaitLength(p: RoundPhase, acquired: bool): nat {
    match p
    case FinalMark => ROUND_BREAK_MS
    case RoundBreak => if acquired then MARK_TONE_MS else RETRY_MS
    case _ => MARK_TONE_MS
  }

  /** A generator is at hand: held already, or free in the pool. */
  predicate Acquirable(s: StationPool) {
    s.st.tx.lease.Holds() || exists j :: 0 <= j < |s.pool.inUse| && !s.pool.inUse[j]
  }

  /** A wait ends exactly at its scheduled time, moving to the next phase of
      the round and scheduling the next wait end after that phase's length. */
  lemma WaitFollowsRound(s: StationPool, time: nat, bfo: real)
    requires Inv(s) && s.st.inWaitDelay
    ensures var r := Step(s, time, bfo).s;
            var p := PhaseOf(s.st);
            (time < s.st.nextMessageTime ==> PhaseOf(r.st) == p && r.st.nextMessageTime == s.st.nextMessageTime)
            && (time >= s.st.nextMessageTime ==>
                  PhaseOf(r.st) == NextPhase(p, Acquirable(s))
                  && (r.st.inWaitDelay ==> r.st.nextMessageTime == time + WaitLength(p, Acquirable(s))))
  {
  }

  /** A sending continues until the teleprinter has sent the whole message;
      then the next phase starts with a three-second mark. */
  lemma SendingFollowsRound(s: StationPool, time: nat, bfo: real)
    requires Inv(s) && !s.st.inWaitDelay
    ensures var r := Step(s, time, bfo).s;
            var done := R.IsTransmissionComplete(r.st.rtty);
            (!done ==> PhaseOf(r.st) == PhaseOf(s.st))
            && (done ==> PhaseOf(r.st) == NextPhase(PhaseOf(s.st), true)
                         && r.st.nextMessageTime == time + MARK_TONE_MS)
  {
  }

  /** The phases of one round from its opening mark, with a generator at hand. */
  function RoundFrom(p: RoundPhase, k: nat): seq<RoundPhase>
    decreases k
  {
    if k == 0 then [] else [p] + RoundFrom(NextPhase(p, true), k - 1)
  }

  /** A round sends the message exactly three times between its marks and
      comes back to its opening mark after eight phases. */
  lemma RoundSendsThreeTimes()
    ensures RoundFrom(InitialMark, 8)
            == [InitialMark, Sending(0), MarkBetween(1), Sending(1), MarkBetween(2), Sending(2), FinalMark, RoundBreak]
    ensures NextPhase(RoundBreak, true) == InitialMark
  {
  }

  /** The end of the final mark silences the generator and gives it back to
      the pool for the round break. */
  lemma RoundBreakFreesGenerator(s: StationPool, time: nat, bfo: real)
    requires Inv(s) && PhaseOf(s.st) == FinalMark && time >= s.st.nextMessageTime
    ensures var r := Step(s, time, bfo).s;
            PhaseOf(r.st) == RoundBreak && !r.st.tx.lease.Holds() && !r.st.tx.active
            && r.pool.inUse == End(s.st.tx.lease, s.pool).pool.inUse
  {
  }

  /** The station sends only while it has a generator: without one its
      teleprinter stands still. */
  lemma NoGeneratorNoKeying(s: StationPool, time: nat, bfo: real)
    requires Inv(s) && !s.st.inWaitDelay && !s.st.tx.lease.Holds()
    ensures var r := Step(s, time, bfo);
            r.s.st.rtty == s.st.rtty && !r.pulse && r.s.pool == s.pool
  {
  }
}
