/** A simulated two-tone pager station. Each page plays a freshly drawn pair
    of audio tones, A then B, on one generator; the generator is given back
    during the silence between pages and taken again when the next page
    starts.
 */
module PagerStation {
  import opened Platform
  import opened Modulator
  import P = Pager
  import opened WaveGens
  import opened GenPool
  import opened Realizations
  import opened Transmitter

  const PAGER_TONE_MIN_OFFSET: int := 650
  const PAGER_TONE_MAX_OFFSET: int := 1650
  const PAGER_TONE_MIN_SEPARATION: int := 100

  /** The audio offsets of one page's two tones. */
  datatype TonePair = TonePair(a: int, b: int)

  /** A pair the generator can draw: tone A in its range, and tone B either
      below A or at least the separation above it, below the maximum. */
  predicate ValidPair(t: TonePair) {
    PAGER_TONE_MIN_OFFSET <= t.a < PAGER_TONE_MAX_OFFSET - PAGER_TONE_MIN_SEPARATION
    && PAGER_TONE_MIN_OFFSET <= t.b < PAGER_TONE_MAX_OFFSET
    && (t.b < t.a || t.b >= t.a + PAGER_TONE_MIN_SEPARATION)
  }

  /** `generate_new_tone_pair()`. The clamp of tone B to the maximum is kept,
      though no draw reaches it. */
  function GenerateTonePair(drawA: nat, drawB: nat): (t: TonePair)
    ensures ValidPair(t)
    ensures t.a != t.b && PAGER_TONE_MIN_OFFSET <= t.b <= PAGER_TONE_MAX_OFFSET
  {
    var range := PAGER_TONE_MAX_OFFSET - PAGER_TONE_MIN_OFFSET;
    var a := PAGER_TONE_MIN_OFFSET + Random(drawA, range - PAGER_TONE_MIN_SEPARATION);
    var base := Random(drawB, range - PAGER_TONE_MIN_SEPARATION);
    var b := if base < a - PAGER_TONE_MIN_OFFSET then PAGER_TONE_MIN_OFFSET + base
             else a + PAGER_TONE_MIN_SEPARATION + (base - (a - PAGER_TONE_MIN_OFFSET));
    TonePair(a, if b > PAGER_TONE_MAX_OFFSET then PAGER_TONE_MAX_OFFSET else b)
  }

  /** Every valid pair is drawn by some draws, so the ensures of
      `GenerateTonePair` describe exactly the pairs a page can use. */
  lemma TonePairReachesAll(t: TonePair)
    requires ValidPair(t)
    ensures var drawA := t.a - PAGER_TONE_MIN_OFFSET;
            var drawB := if t.b < t.a then t.b - PAGER_TONE_MIN_OFFSET
                         else t.b - PAGER_TONE_MIN_OFFSET - PAGER_TONE_MIN_SEPARATION;
            drawA >= 0 && drawB >= 0 && GenerateTonePair(drawA, drawB) == t
  {
    var n := PAGER_TONE_MAX_OFFSET - PAGER_TONE_MIN_OFFSET - PAGER_TONE_MIN_SEPARATION;
    RandomReachesAll(t.a - PAGER_TONE_MIN_OFFSET, n);
    if t.b < t.a {
      RandomReachesAll(t.b - PAGER_TONE_MIN_OFFSET, n);
    } else {
      RandomReachesAll(t.b - PAGER_TONE_MIN_OFFSET - PAGER_TONE_MIN_SEPARATION, n);
    }
  }

  datatype Station = Station(tx: Tx, pager: P.Pager, tones: TonePair)

  datatype StationPool = StationPool(st: Station, pool: WaveGenPool)

  /** The random values a step may consume: the pager's silence length and the
      next tone pair. */
  datatype Draws = Draws(pager: nat, toneA: nat, toneB: nat)

  /** The constructor: an idle pager with its first tone pair drawn. */
  function NewStation(fixedFreq: real, drawA: nat, drawB: nat): (st: Station)
    ensures st.tx == NewTransmitter(fixedFreq) && st.pager == P.NewPager()
    ensures ValidPair(st.tones)
  {
    Station(NewTransmitter(fixedFreq), P.NewPager(), GenerateTonePair(drawA, drawB))
  }

  /** The lease is sound, the pager's flags agree, a running page repeats,
      the tones are a valid pair, and the station holds no generator while
      its pager is silent. */
  predicate Inv(s: StationPool) {
    && Valid(s.st.tx, s.pool)
    && P.Inv(s.st.pager)
    && (s.st.pager.active ==> s.st.pager.repeat)
    && ValidPair(s.st.tones)
    && (s.st.pager.state == P.Silence ==> !s.st.tx.lease.Holds())
  }

  lemma NewStationInv(fixedFreq: real, drawA: nat, drawB: nat, pool: WaveGenPool)
    requires pool.Valid()
    ensures Inv(StationPool(NewStation(fixedFreq, drawA, drawB), pool))
  {
  }

  /** The frequency both channels carry: the offset plus the current tone
      while the carrier is on in a tone state, the silent frequency otherwise. */
  function ToneFreq(tx: Tx, state: P.PagerState, tones: TonePair): real {
    if !tx.active then SILENT_FREQ
    else match state
      case ToneA => tx.frequency + tones.a as real
      case ToneB => tx.frequency + tones.b as real
      case Silence => SILENT_FREQ
  }

  /** `realize()`: nothing beyond the window check when out of the window or
      without a generator; otherwise both channels get the tone frequency and
      the main channel is selected exactly when the carrier is on. */
  function Realize(tx: Tx, pool: WaveGenPool, state: P.PagerState, tones: TonePair): (r: TxPool)
    requires Valid(tx, pool)
    ensures Valid(r.tx, r.pool) && r.pool.inUse == pool.inUse && |r.pool.gens| == |pool.gens|
    ensures r.tx == tx.(enabled := InAudibleWindow(tx.frequency))
    ensures !tx.lease.Holds() ==> r.pool == pool
    ensures tx.lease.Holds() && InAudibleWindow(tx.frequency) ==>
              var g := r.pool.gens[tx.lease.realizer];
              g.main == tx.active
              && Cached(g, true) == ToneFreq(tx, state, tones) && Cached(g, false) == ToneFreq(tx, state, tones)
    ensures forall j :: 0 <= j < |pool.gens| && j != tx.lease.realizer ==> r.pool.gens[j] == pool.gens[j]
  {
    var c := CheckFrequencyBounds(tx, pool);
    if !c.1 || !tx.lease.Holds() then c.0
    else
      var slot := tx.lease.realizer;
      TxPool(c.0.tx, WriteSelect(WriteBoth(c.0.pool, slot, ToneFreq(tx, state, tones), true), slot, tx.active))
  }

  /** `begin(time)`: take a generator; with one, start a repeating page and
      silence both channels. Without one nothing else changes. */
  function Begin(s: StationPool): (r: (StationPool, bool))
    requires Inv(s)
    ensures Inv(r.0)
    ensures r.1 <==> s.st.tx.lease.Holds() || exists j :: 0 <= j < |s.pool.inUse| && !s.pool.inUse[j]
    ensures r.1 <==> r.0.st.tx.lease.Holds()
    ensures !r.1 ==> r.0.pool == s.pool && r.0.st == s.st.(tx := r.0.st.tx)
    ensures r.1 ==> r.0.st.pager == P.StartPagerTransmission(s.st.pager, true)
                    && r.0.pool.inUse == Realizations.Begin(s.st.tx.lease, s.pool).pool.inUse
    ensures r.1 ==> var g := r.0.pool.gens[r.0.st.tx.lease.realizer];
                    Cached(g, true) == SILENT_FREQ && Cached(g, false) == SILENT_FREQ
  {
    var b := CommonBegin(s.st.tx, s.pool, s.st.tx.fixedFreq);
    if !b.1 then (StationPool(s.st.(tx := b.0.tx), b.0.pool), false)
    else
      var q := WriteBoth(b.0.pool, b.0.tx.lease.realizer, SILENT_FREQ, false);
      (StationPool(s.st.(tx := b.0.tx, pager := P.StartPagerTransmission(s.st.pager, true)), q), true)
  }

  /** `update(mode)`: follow the dial and realize. */
  function Update(s: StationPool, vfo: nat, sub: nat, bfo: real): (r: (StationPool, bool))
    requires Inv(s)
    ensures r.1 && Inv(r.0) && r.0.pool.inUse == s.pool.inUse
    ensures r.0.st == s.st.(tx := r.0.st.tx)
    ensures r.0.st.tx == CommonFrequencyUpdate(s.st.tx, vfo, sub, bfo).(enabled := r.0.st.tx.enabled)
  {
    var t := CommonFrequencyUpdate(s.st.tx, vfo, sub, bfo);
    var z := Realize(t, s.pool, s.st.pager.state, s.st.tones);
    (StationPool(s.st.(tx := z.tx), z.pool), true)
  }

  datatype StationStep = StationStep(s: StationPool, keepGoing: bool, pulse: bool)

  /** Carrier on: at the start of tone A draw a new tone pair and, without a
      generator, try to take one (a failure leaves the carrier off and sends
      no pulse); then key, realize and pulse. */
  function OnTurnOn(s: StationPool, bfo: real, d: Draws): (r: StationStep)
    requires Inv(s) && s.st.pager.state != P.Silence
  {
    var st := if s.st.pager.state == P.ToneA then s.st.(tones := GenerateTonePair(d.toneA, d.toneB)) else s.st;
    if s.st.pager.state == P.ToneA && !st.tx.lease.Holds() then
      var b := CommonBegin(st.tx, s.pool, st.tx.fixedFreq);
      if !b.1 then StationStep(StationPool(st.(tx := b.0.tx.(active := false)), b.0.pool), true, false)
      else
        var f := ForceFrequencyUpdate(b.0.tx, b.0.pool, bfo);
        var z := Realize(f.tx.(active := true), f.pool, st.pager.state, st.tones);
        StationStep(StationPool(st.(tx := z.tx), z.pool), true, true)
    else
      var z := Realize(st.tx.(active := true), s.pool, st.pager.state, st.tones);
      StationStep(StationPool(st.(tx := z.tx), z.pool), true, true)
  }

  /** Carrier off: realize, silence both channels and give the generator back. */
  function OnTurnOff(s: StationPool): (r: StationPool)
    requires Valid(s.st.tx, s.pool)
    ensures Valid(r.st.tx, r.pool) && !r.st.tx.lease.Holds() && !r.st.tx.active
    ensures r.pool.inUse == End(s.st.tx.lease, s.pool).pool.inUse
    ensures r.st == s.st.(tx := r.st.tx) && r.st.tx.fixedFreq == s.st.tx.fixedFreq
  {
    var z := Realize(s.st.tx.(active := false), s.pool, s.st.pager.state, s.st.tones);
    var q := if z.tx.lease.Holds() then
               WriteSelect(WriteBoth(z.pool, z.tx.lease.realizer, SILENT_FREQ, true), z.tx.lease.realizer, false)
             else z.pool;
    var e := EndTx(z.tx, q);
    StationPool(s.st.(tx := e.tx), e.pool)
  }

  /** `step(time)`: step the pager and act on its code. */
  function Step(s: StationPool, time: nat, bfo: real, d: Draws): (r: StationStep)
    requires Inv(s)
    ensures r.keepGoing && Inv(r.s)
  {
    var k := P.StepPager(s.st.pager, time, d.pager);
    P.StepKeepsInv(s.st.pager, time, d.pager);
    P.CodeMatchesCarrier(s.st.pager, time, d.pager);
    var s1 := StationPool(s.st.(pager := k.p), s.pool);
    match k.code
    case TurnOn => OnTurnOn(s1, bfo, d)
    case LeaveOn => StationStep(s1, true, true)
    case TurnOff => StationStep(OnTurnOff(s1), true, false)
    case ChangeFreq =>
      var z := Realize(s1.st.tx, s1.pool, k.p.state, s1.st.tones);
      StationStep(StationPool(s1.st.(tx := z.tx), z.pool), true, true)
    case _ =>
      StationStep(StationPool(s1.st.(pager := k.p), s1.pool), true, false)
  }

  // ---------------------------------------------------------------------------
  // Properties

  /** The silence between pages frees the generator: carrier off reports hand
      the generator back to the pool. */
  lemma SilenceFreesGenerator(s: StationPool, time: nat, bfo: real, d: Draws)
    requires Inv(s) && P.StepPager(s.st.pager, time, d.pager).code == TurnOff
    ensures var r := Step(s, time, bfo, d);
            !r.s.st.tx.lease.Holds() && !r.s.st.tx.active && !r.pulse
            && r.s.pool.inUse == End(s.st.tx.lease, s.pool).pool.inUse
            && r.s.st.pager.state == P.Silence
  {
  }

  /** A page starts with a new tone pair. Without a generator the station takes
      one if any is free; if none is, the carrier stays off and no pulse is
      sent, though the pager runs on. */
  lemma PageStartReacquires(s: StationPool, time: nat, bfo: real, d: Draws)
    requires Inv(s)
    requires var k := P.StepPager(s.st.pager, time, d.pager); k.code == TurnOn
    ensures var r := Step(s, time, bfo, d);
            var free := exists j :: 0 <= j < |s.pool.inUse| && !s.pool.inUse[j];
            r.s.st.tones == GenerateTonePair(d.toneA, d.toneB)
            && r.s.st.pager.state == P.ToneA
            && (r.s.st.tx.lease.Holds() <==> s.st.tx.lease.Holds() || free)
            && (r.pulse <==> r.s.st.tx.lease.Holds())
            && r.s.st.tx.active == r.s.st.tx.lease.Holds()
  {
    var k := P.StepPager(s.st.pager, time, d.pager);
    P.StepKeepsInv(s.st.pager, time, d.pager);
    P.CodeMatchesCarrier(s.st.pager, time, d.pager);
    if s.st.pager.nextEvent != 0 && s.st.pager.active {
      P.PhaseChanges(s.st.pager, time, d.pager);
    }
  }

  /** What the generator plays after any step, while the station holds one and
      is audible: both channels at the current tone when the carrier is on, at
      the silent frequency when it is off, and the main channel selected
      exactly with the carrier. */
  lemma GeneratorPlaysTone(s: StationPool, vfo: nat, sub: nat, bfo: real)
    requires Inv(s) && s.st.tx.lease.Holds()
    requires InAudibleWindow(CommonFrequencyUpdate(s.st.tx, vfo, sub, bfo).frequency)
    ensures var r := Update(s, vfo, sub, bfo).0;
            var g := r.pool.gens[s.st.tx.lease.realizer];
            g.main == s.st.tx.active
            && (s.st.tx.active && s.st.pager.state == P.ToneA ==> Cached(g, true) == r.st.tx.frequency + s.st.tones.a as real)
            && (s.st.tx.active && s.st.pager.state == P.ToneB ==> Cached(g, true) == r.st.tx.frequency + s.st.tones.b as real)
            && (!s.st.tx.active ==> Cached(g, true) == SILENT_FREQ && Cached(g, false) == SILENT_FREQ)
  {
  }
}
