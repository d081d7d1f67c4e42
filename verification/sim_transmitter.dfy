/** The part every simulated station shares: its place on the dial, the audio
    offset it produces against the tuned frequency, whether that offset is in
    the audible window, its lifecycle state under the station manager, and
    its lease on a generator.

    Every station borrows generators from one shared pool, so each operation
    takes the pool and hands back the new one with the station.
 */
module Transmitter {
  import opened Platform
  import opened WaveGens
  import opened GenPool
  import opened Realizations

  const MAX_AUDIBLE_FREQ: real := 5000.0
  const MIN_AUDIBLE_FREQ: real := 150.0

  /** The lifecycle states the station manager moves a station through. */
  datatype StationState = Dormant | Active | Audible | Silent

  /** `active` is the carrier flag the station kinds set on TURN_ON and clear on
      TURN_OFF; the manager's `isActive()` reads this same flag. */
  datatype Tx = Tx(
    lease: Realization,
    fixedFreq: real,
    enabled: bool,
    frequency: real,
    vfoFreq: real,
    active: bool,
    stationState: StationState)

  /** A station together with the shared pool. */
  datatype TxPool = TxPool(tx: Tx, pool: WaveGenPool)

  /** The station's lease agrees with the pool. */
  predicate Valid(tx: Tx, pool: WaveGenPool) {
    pool.Valid() && LeaseValid(tx.lease, pool)
  }

  /** The station id is the frequency in kilohertz, truncated. */
  function StationIdOf(fixedFreq: real): (id: int)
    ensures fixedFreq >= 0.0 ==> id as real * 1000.0 <= fixedFreq < id as real * 1000.0 + 1000.0
  {
    TruncReal(fixedFreq / 1000.0)
  }

  /** The constructor: dormant, silent, not in the audible window, no generator. */
  function NewTransmitter(fixedFreq: real): (tx: Tx)
    ensures tx.fixedFreq == fixedFreq && tx.lease == NewRealization(StationIdOf(fixedFreq))
    ensures !tx.enabled && !tx.active && tx.frequency == 0.0 && tx.vfoFreq == 0.0
    ensures tx.stationState == Dormant && !tx.lease.Holds()
  {
    Tx(NewRealization(StationIdOf(fixedFreq)), fixedFreq, false, 0.0, 0.0, false, Dormant)
  }

  /** Set one channel of the generator in `slot`, through its cache. */
  function WriteFreq(pool: WaveGenPool, slot: int, freq: real, main: bool): (q: WaveGenPool)
    requires pool.IsSlot(slot)
    ensures q.inUse == pool.inUse && |q.gens| == |pool.gens|
    ensures Cached(q.gens[slot], main) == freq && Cached(q.gens[slot], !main) == Cached(pool.gens[slot], !main)
    ensures q.gens[slot].main == pool.gens[slot].main
    ensures forall j :: 0 <= j < |pool.gens| && j != slot ==> q.gens[j] == pool.gens[j]
  {
    Store(pool, slot, SetFreq(Access(pool, slot), freq, main).gen)
  }

  /** Select a channel of the generator in `slot`. */
  function WriteSelect(pool: WaveGenPool, slot: int, main: bool): (q: WaveGenPool)
    requires pool.IsSlot(slot)
    ensures q.inUse == pool.inUse && |q.gens| == |pool.gens|
    ensures q.gens[slot].main == main
    ensures Cached(q.gens[slot], true) == Cached(pool.gens[slot], true)
    ensures Cached(q.gens[slot], false) == Cached(pool.gens[slot], false)
    ensures forall j :: 0 <= j < |pool.gens| && j != slot ==> q.gens[j] == pool.gens[j]
  {
    Store(pool, slot, SetActive(Access(pool, slot), main).gen)
  }

  /** Write the same frequency to both channels, `first` channel first. */
  function WriteBoth(pool: WaveGenPool, slot: int, freq: real, first: bool): (q: WaveGenPool)
    requires pool.IsSlot(slot)
    ensures q.inUse == pool.inUse && |q.gens| == |pool.gens|
    ensures Cached(q.gens[slot], true) == freq && Cached(q.gens[slot], false) == freq
    ensures q.gens[slot].main == pool.gens[slot].main
    ensures forall j :: 0 <= j < |pool.gens| && j != slot ==> q.gens[j] == pool.gens[j]
  {
    WriteFreq(WriteFreq(pool, slot, freq, first), slot, freq, !first)
  }

  /** `common_begin(time, fixed_freq)`: adopt the frequency and its station id,
      then try to take a generator through the idempotent lease `begin`. */
  function CommonBegin(tx: Tx, pool: WaveGenPool, fixedFreq: real): (r: (TxPool, bool))
    ensures var t := r.0.tx;
            t.fixedFreq == fixedFreq && t.frequency == 0.0 && t.lease.stationId == StationIdOf(fixedFreq)
            && t == tx.(fixedFreq := fixedFreq, frequency := 0.0, lease := t.lease)
    ensures var l := Begin(tx.lease.(stationId := StationIdOf(fixedFreq)), pool);
            r.1 == l.ok && r.0.tx.lease == l.r && r.0.pool == l.pool
  {
    var l := Begin(tx.lease.(stationId := StationIdOf(fixedFreq)), pool);
    (TxPool(tx.(fixedFreq := fixedFreq, frequency := 0.0, lease := l.r), l.pool), l.ok)
  }

  /** The tuned frequency with its tenth-of-a-hertz fraction. */
  function DialFreq(vfo: nat, sub: nat): real {
    vfo as real + sub as real / 10.0
  }

  /** `common_frequency_update(mode)`: the station's audio offset is the tuned
      frequency minus its own, shifted by the beat-oscillator offset. */
  function CommonFrequencyUpdate(tx: Tx, vfo: nat, sub: nat, bfo: real): (t: Tx)
    ensures t.vfoFreq == DialFreq(vfo, sub)
    ensures t.frequency - bfo == t.vfoFreq - t.fixedFreq
    ensures t == tx.(vfoFreq := t.vfoFreq, frequency := t.frequency)
  {
    var v := DialFreq(vfo, sub);
    tx.(vfoFreq := v, frequency := (v - tx.fixedFreq) + bfo)
  }

  predicate InAudibleWindow(frequency: real) {
    MIN_AUDIBLE_FREQ <= frequency <= MAX_AUDIBLE_FREQ
  }

  /** `check_frequency_bounds()`: in the window the station is enabled. Leaving
      the window disables it and silences both channels of a held generator,
      which it keeps. */
  function CheckFrequencyBounds(tx: Tx, pool: WaveGenPool): (r: (TxPool, bool))
    requires Valid(tx, pool)
    ensures r.1 <==> InAudibleWindow(tx.frequency)
    ensures r.0.tx == tx.(enabled := r.1)
    ensures r.0.pool.inUse == pool.inUse && |r.0.pool.gens| == |pool.gens|
    ensures r.1 || !tx.enabled || !tx.lease.Holds() ==> r.0.pool == pool
    ensures !r.1 && tx.enabled && tx.lease.Holds() ==>
              var g := r.0.pool.gens[tx.lease.realizer];
              Cached(g, true) == SILENT_FREQ && Cached(g, false) == SILENT_FREQ
    ensures forall j :: 0 <= j < |pool.gens| && j != tx.lease.realizer ==> r.0.pool.gens[j] == pool.gens[j]
  {
    if !InAudibleWindow(tx.frequency) then
      if tx.enabled then
        var q := if tx.lease.Holds() then WriteBoth(pool, tx.lease.realizer, SILENT_FREQ, true) else pool;
        (TxPool(tx.(enabled := false), q), false)
      else (TxPool(tx, pool), false)
    else (TxPool(tx.(enabled := true), pool), true)
  }

  /** `end()`: give back the generator, if any. */
  function EndTx(tx: Tx, pool: WaveGenPool): (r: TxPool)
    requires Valid(tx, pool)
    ensures Valid(r.tx, r.pool) && !r.tx.lease.Holds()
    ensures r.tx == tx.(lease := r.tx.lease) && r.tx.lease.stationId == tx.lease.stationId
    ensures r.pool == End(tx.lease, pool).pool
  {
    var l := End(tx.lease, pool);
    TxPool(tx.(lease := l.r), l.pool)
  }

  /** `force_wave_generator_refresh()`: replay a held generator's cached state
      to the chip; nothing without a generator. */
  function ForceGenRefresh(tx: Tx, pool: WaveGenPool): (q: WaveGenPool)
    requires Valid(tx, pool)
    ensures q.inUse == pool.inUse && |q.gens| == |pool.gens|
    ensures !tx.lease.Holds() ==> q == pool
    ensures tx.lease.Holds() ==> InSync(q.gens[tx.lease.realizer])
    ensures forall j :: 0 <= j < |pool.gens| && j != tx.lease.realizer ==> q.gens[j] == pool.gens[j]
  {
    if tx.lease.Holds() then
      var g := Access(pool, tx.lease.realizer);
      ForceRefreshRestoresSync(g);
      Store(pool, tx.lease.realizer, ForceRefresh(g).gen)
    else pool
  }

  /** `reinitialize(time, fixed_freq)`: release any generator and restart as an
      active station at the new frequency, disabled and with the carrier off. */
  function Reinitialize(tx: Tx, pool: WaveGenPool, fixedFreq: real): (r: (TxPool, bool))
    requires Valid(tx, pool)
    ensures r.1
    ensures Valid(r.0.tx, r.0.pool) && !r.0.tx.lease.Holds()
    ensures r.0.pool == End(tx.lease, pool).pool
    ensures var t := r.0.tx;
            t.fixedFreq == fixedFreq && t.frequency == 0.0 && !t.enabled && !t.active
            && t.stationState == Active && t.vfoFreq == tx.vfoFreq && t.lease.stationId == tx.lease.stationId
  {
    var e := EndTx(tx, pool);
    (TxPool(e.tx.(fixedFreq := fixedFreq, frequency := 0.0, enabled := false, active := false,
                  stationState := Active), e.pool), true)
  }

  /** `set_station_state(new_state)`: only leaving AUDIBLE releases the generator. */
  function SetStationState(tx: Tx, pool: WaveGenPool, s: StationState): (r: TxPool)
    requires Valid(tx, pool)
    ensures Valid(r.tx, r.pool) && r.tx.stationState == s
    ensures tx.stationState == Audible && s != Audible ==> r == EndTx(tx.(stationState := s), pool)
    ensures !(tx.stationState == Audible && s != Audible) ==> r == TxPool(tx.(stationState := s), pool)
  {
    var t := tx.(stationState := s);
    if tx.stationState == Audible && s != Audible && tx.lease.Holds() then EndTx(t, pool)
    else TxPool(t, pool)
  }

  /** `force_frequency_update()`: with a generator and in the audible window,
      recompute the audio offset from the remembered dial and write it to the
      main channel. */
  function ForceFrequencyUpdate(tx: Tx, pool: WaveGenPool, bfo: real): (r: TxPool)
    requires Valid(tx, pool)
    ensures Valid(r.tx, r.pool) && r.pool.inUse == pool.inUse && |r.pool.gens| == |pool.gens|
    ensures !(tx.enabled && tx.lease.Holds()) ==> r == TxPool(tx, pool)
    ensures tx.enabled && tx.lease.Holds() ==>
              r.tx == tx.(frequency := (tx.vfoFreq - tx.fixedFreq) + bfo)
              && Cached(r.pool.gens[tx.lease.realizer], true) == r.tx.frequency
  {
    if tx.enabled && tx.lease.Holds() then
      var t := tx.(frequency := (tx.vfoFreq - tx.fixedFreq) + bfo);
      TxPool(t, WriteFreq(pool, tx.lease.realizer, t.frequency, true))
    else TxPool(tx, pool)
  }

  /** `setActive(active)`: writes the carrier flag. */
  function SetActiveFlag(tx: Tx, a: bool): (t: Tx)
    ensures t.active == a && t == tx.(active := a)
  {
    tx.(active := a)
  }

  /** `realize()` of the keyed stations (CW and numbers): with a generator and
      in the audible window, select the main channel exactly when the carrier
      is keyed. */
  function RealizeKeyed(tx: Tx, pool: WaveGenPool): (r: TxPool)
    requires Valid(tx, pool)
    ensures Valid(r.tx, r.pool) && r.pool.inUse == pool.inUse && |r.pool.gens| == |pool.gens|
    ensures r.tx == tx.(enabled := r.tx.enabled)
    ensures !tx.lease.Holds() ==> r == TxPool(tx, pool)
    ensures tx.lease.Holds() && InAudibleWindow(tx.frequency) ==>
              r.tx.enabled && r.pool.gens[tx.lease.realizer].main == tx.active
    ensures tx.lease.Holds() && !InAudibleWindow(tx.frequency) ==> !r.tx.enabled
  {
    if !tx.lease.Holds() then TxPool(tx, pool)
    else
      var c := CheckFrequencyBounds(tx, pool);
      if !c.1 then c.0 else TxPool(c.0.tx, WriteSelect(c.0.pool, tx.lease.realizer, tx.active))
  }

  /** The generator part of a keyed station's `begin(time)`: take a generator
      (keeping one already held); with one, park the alternate channel at
      `spaceFreq`, enable, put the audio offset on the main channel and
      realize. */
  function BeginKeyed(tx: Tx, pool: WaveGenPool, spaceFreq: real, bfo: real): (r: (TxPool, bool))
    requires Valid(tx, pool)
    ensures Valid(r.0.tx, r.0.pool)
    ensures r.1 <==> tx.lease.Holds() || exists j :: 0 <= j < |pool.inUse| && !pool.inUse[j]
    ensures r.1 <==> r.0.tx.lease.Holds()
    ensures !r.1 ==> r.0.pool == pool
                     && r.0.tx == tx.(frequency := 0.0, lease := tx.lease.(stationId := StationIdOf(tx.fixedFreq)))
    ensures r.1 ==> r.0.pool.inUse == Begin(tx.lease, pool).pool.inUse
    ensures r.0.tx.fixedFreq == tx.fixedFreq && r.0.tx.active == tx.active
    ensures r.0.tx.stationState == tx.stationState
  {
    var b := CommonBegin(tx, pool, tx.fixedFreq);
    if !b.1 then b
    else
      var slot := b.0.tx.lease.realizer;
      var p1 := WriteFreq(b.0.pool, slot, spaceFreq, false);
      var f := ForceFrequencyUpdate(b.0.tx.(enabled := true), p1, bfo);
      (RealizeKeyed(f.tx, f.pool), true)
  }

  /** `update(mode)` of the keyed stations: follow the dial; with a generator
      and enabled, put the new audio offset on the main channel; then realize. */
  function UpdateKeyed(tx: Tx, pool: WaveGenPool, vfo: nat, sub: nat, bfo: real): (r: TxPool)
    requires Valid(tx, pool)
    ensures Valid(r.tx, r.pool) && r.pool.inUse == pool.inUse
    ensures r.tx.lease == tx.lease && r.tx.active == tx.active && r.tx.fixedFreq == tx.fixedFreq
    ensures r.tx.frequency == CommonFrequencyUpdate(tx, vfo, sub, bfo).frequency
    ensures r.tx.stationState == tx.stationState
  {
    var t := CommonFrequencyUpdate(tx, vfo, sub, bfo);
    var p := if t.enabled && t.lease.Holds() then WriteFreq(pool, t.lease.realizer, t.frequency, true) else pool;
    RealizeKeyed(t, p)
  }

  /** Leaving the window and coming back: the station is disabled, keeps its
      generator, and is enabled again as soon as the offset is audible. */
  lemma OutOfWindowKeepsGenerator(tx: Tx, pool: WaveGenPool, back: real)
    requires Valid(tx, pool) && !InAudibleWindow(tx.frequency) && InAudibleWindow(back)
    ensures var r := CheckFrequencyBounds(tx, pool);
            !r.0.tx.enabled && r.0.tx.lease == tx.lease && r.0.pool.inUse == pool.inUse
            && Valid(r.0.tx, r.0.pool)
            && CheckFrequencyBounds(r.0.tx.(frequency := back), r.0.pool).1
            && CheckFrequencyBounds(r.0.tx.(frequency := back), r.0.pool).0.tx.enabled
  {
  }

  /** Reinitializing twice in a row is the same as once: the second finds no
      generator to release. */
  lemma ReinitializeIdempotent(tx: Tx, pool: WaveGenPool, f: real)
    requires Valid(tx, pool)
    ensures var r := Reinitialize(tx, pool, f).0;
            Reinitialize(r.tx, r.pool, f).0 == r
  {
  }

  /** A demotion out of AUDIBLE hands the generator back; the pool gains
      exactly that slot. */
  lemma DemotionFreesGenerator(tx: Tx, pool: WaveGenPool, s: StationState)
    requires Valid(tx, pool) && tx.stationState == Audible && s != Audible && tx.lease.Holds()
    ensures var r := SetStationState(tx, pool, s);
            !r.tx.lease.Holds() && r.pool.inUse == pool.inUse[tx.lease.realizer := false]
  {
  }
}
