/** A simulated jammer station: the wandering, intermittently muted carrier of
    the jammer state machine played on one generator. It keeps its generator
    for as long as it runs and sends no signal-meter charge.
 */
module JammerStation {
  import opened Platform
  import opened Modulator
  import J = Jammer
  import opened WaveGens
  import opened GenPool
  import opened Realizations
  import opened Transmitter

  datatype Station = Station(tx: Tx, jammer: J.Jammer)

  datatype StationPool = StationPool(st: Station, pool: WaveGenPool)

  /** The constructor: no frequency yet (it comes with `begin`), an idle jammer. */
  function NewStation(): (st: Station)
    ensures st.tx == NewTransmitter(0.0) && st.jammer == J.NewJammer()
  {
    Station(NewTransmitter(0.0), J.NewJammer())
  }

  /** The lease is sound, the jammer's own invariant holds, and the station's
      carrier flag follows the jammer: it is never on while the jammer is
      muted or idle, and is off while the jammer transmits only between a
      start and its first step. */
  predicate Inv(s: StationPool) {
    && Valid(s.st.tx, s.pool)
    && J.Inv(s.st.jammer)
    && (s.st.tx.active ==> s.st.jammer.transmitting)
    && (s.st.jammer.transmitting && !s.st.tx.active ==> s.st.jammer.active && s.st.jammer.nextEvent == 0)
  }

  lemma NewStationInv(pool: WaveGenPool)
    requires pool.Valid()
    ensures Inv(StationPool(NewStation(), pool))
  {
  }

  /** The carrier sounds only when the station keys it and the jammer is not muted. */
  predicate Sounding(tx: Tx, j: J.Jammer) {
    tx.active && j.state == J.Transmitting
  }

  /** The frequency both channels carry: the audio offset moved by the
      jammer's drift while sounding, the silent frequency otherwise. */
  function JamFreq(tx: Tx, j: J.Jammer): real {
    if Sounding(tx, j) then tx.frequency + j.offset else SILENT_FREQ
  }

  /** `realize()`: nothing beyond the window check when out of the window or
      without a generator; otherwise both channels carry the jamming frequency
      and the main channel is selected exactly while sounding. */
  function Realize(tx: Tx, pool: WaveGenPool, j: J.Jammer): (r: TxPool)
    requires Valid(tx, pool)
    ensures Valid(r.tx, r.pool) && r.pool.inUse == pool.inUse && |r.pool.gens| == |pool.gens|
    ensures r.tx == tx.(enabled := InAudibleWindow(tx.frequency))
    ensures !tx.lease.Holds() ==> r.pool == pool
    ensures tx.lease.Holds() && InAudibleWindow(tx.frequency) ==>
              var g := r.pool.gens[tx.lease.realizer];
              g.main == Sounding(tx, j) && Cached(g, true) == JamFreq(tx, j) && Cached(g, false) == JamFreq(tx, j)
    ensures forall k :: 0 <= k < |pool.gens| && k != tx.lease.realizer ==> r.pool.gens[k] == pool.gens[k]
  {
    var c := CheckFrequencyBounds(tx, pool);
    if !c.1 || !tx.lease.Holds() then c.0
    else
      var slot := tx.lease.realizer;
      TxPool(c.0.tx, WriteSelect(WriteBoth(c.0.pool, slot, JamFreq(tx, j), true), slot, Sounding(tx, j)))
  }

  /** `begin(time, fixed_freq)`: adopt the frequency and take a generator; with
      one, start the jammer repeating and silence both channels. */
  function Begin(s: StationPool, fixedFreq: real): (r: (StationPool, bool))
    requires Inv(s)
    ensures Inv(r.0)
    ensures r.0.st.tx.fixedFreq == fixedFreq
    ensures r.1 <==> s.st.tx.lease.Holds() || exists k :: 0 <= k < |s.pool.inUse| && !s.pool.inUse[k]
    ensures r.1 <==> r.0.st.tx.lease.Holds()
    ensures !r.1 ==> r.0.pool == s.pool && r.0.st.jammer == s.st.jammer
    ensures r.1 ==> r.0.st.jammer == J.StartJammerTransmission(s.st.jammer, true)
    ensures r.1 ==> var g := r.0.pool.gens[r.0.st.tx.lease.realizer];
                    Cached(g, true) == SILENT_FREQ && Cached(g, false) == SILENT_FREQ
  {
    var b := CommonBegin(s.st.tx, s.pool, fixedFreq);
    if !b.1 then (StationPool(s.st.(tx := b.0.tx), b.0.pool), false)
    else
      var q := WriteBoth(b.0.pool, b.0.tx.lease.realizer, SILENT_FREQ, false);
      (StationPool(Station(b.0.tx, J.StartJammerTransmission(s.st.jammer, true)), q), true)
  }

  /** `update(mode)`: follow the dial and realize. */
  function Update(s: StationPool, vfo: nat, sub: nat, bfo: real): (r: (StationPool, bool))
    requires Inv(s)
    ensures r.1 && Inv(r.0) && r.0.pool.inUse == s.pool.inUse
    ensures r.0.st.jammer == s.st.jammer
    ensures r.0.st.tx == CommonFrequencyUpdate(s.st.tx, vfo, sub, bfo).(enabled := r.0.st.tx.enabled)
  {
    var t := CommonFrequencyUpdate(s.st.tx, vfo, sub, bfo);
    var z := Realize(t, s.pool, s.st.jammer);
    (StationPool(Station(z.tx, s.st.jammer), z.pool), true)
  }

  /** What a step hands back: the station, the shared last reported offset,
      and whether to keep going. */
  datatype StationStep = StationStep(s: StationPool, lastReported: real, keepGoing: bool)

  /** `step(time)`: carrier on and off follow the jammer's codes, a drift
      report re-realizes, and the steady codes do nothing. */
  function Step(s: StationPool, time: nat, lastReported: real, d: J.Draws): (r: StationStep)
    requires Inv(s)
    ensures r.keepGoing && Inv(r.s)
    ensures r.s.pool.inUse == s.pool.inUse && r.s.st.tx.lease == s.st.tx.lease
  {
    var k := J.StepJammer(s.st.jammer, time, lastReported, d);
    J.StepKeepsInv(s.st.jammer, time, lastReported, d);
    J.CodeMatchesCarrier(s.st.jammer, time, lastReported, d);
    var tx :=
      match k.code
      case TurnOn => s.st.tx.(active := true)
      case TurnOff => s.st.tx.(active := false)
      case _ => s.st.tx;
    if k.code in {TurnOn, TurnOff, ChangeFreq} then
      var z := Realize(tx, s.pool, k.j);
      StationStep(StationPool(Station(z.tx, k.j), z.pool), k.lastReported, true)
    else StationStep(StationPool(Station(tx, k.j), s.pool), k.lastReported, true)
  }

  /** After every step the station's carrier flag equals the jammer's
      transmitting flag, and on every edge or drift report a held, audible
      generator plays the drifted frequency exactly while the jammer transmits. */
  lemma StepTracksJammer(s: StationPool, time: nat, lastReported: real, d: J.Draws)
    requires Inv(s)
    ensures var r := Step(s, time, lastReported, d);
            var k := J.StepJammer(s.st.jammer, time, lastReported, d);
            r.s.st.jammer == k.j && r.lastReported == k.lastReported
            && r.s.st.tx.active == k.j.transmitting
            && (k.code in {TurnOn, TurnOff, ChangeFreq} && s.st.tx.lease.Holds() && InAudibleWindow(s.st.tx.frequency) ==>
                  var g := r.s.pool.gens[s.st.tx.lease.realizer];
                  g.main == k.j.transmitting
                  && Cached(g, true) == (if k.j.transmitting then s.st.tx.frequency + k.j.offset else SILENT_FREQ))
  {
    J.StepKeepsInv(s.st.jammer, time, lastReported, d);
    J.CodeMatchesCarrier(s.st.jammer, time, lastReported, d);
  }

  /** A run of steps at the given times with the given draws. */
  function Run(s: StationPool, lastReported: real, times: seq<nat>, ds: seq<J.Draws>): (r: StationStep)
    requires Inv(s) && |times| == |ds|
    ensures Inv(r.s)
    decreases |times|
  {
    if |times| == 0 then StationStep(s, lastReported, true)
    else
      var k := Step(s, times[0], lastReported, ds[0]);
      Run(k.s, k.lastReported, times[1..], ds[1..])
  }

  /** The station never gives its generator back on its own, however long it
      runs: only the station manager's demotion or relocation releases it. */
  lemma {:induction false} RunKeepsGenerator(s: StationPool, lastReported: real, times: seq<nat>, ds: seq<J.Draws>)
    requires Inv(s) && |times| == |ds|
    ensures var r := Run(s, lastReported, times, ds);
            r.s.st.tx.lease == s.st.tx.lease && r.s.pool.inUse == s.pool.inUse
    decreases |times|
  {
    if |times| > 0 {
      var k := Step(s, times[0], lastReported, ds[0]);
      RunKeepsGenerator(k.s, k.lastReported, times[1..], ds[1..]);
    }
  }
}
