/** The dual-generator configuration of the two-tone pager: each page plays
    two independent tone pairs on two generators at once, and the station
    takes or gives back both generators together.

    In the configuration the firmware builds (first generator only) the
    dual-generator pager behaves exactly as `PagerStation`; this module models
    the configuration that drives both generators.
 */
module Pager2Station {
  import opened Platform
  import opened Modulator
  import P = Pager
  import PS = PagerStation
  import opened WaveGens
  import opened GenPool
  import opened Realizations
  import opened Transmitter

  /** The pager station's state plus the second generator's slot (or -1) and
      its tone pair. The second generator is taken under the same station id. */
  datatype Station = Station(first: PS.Station, realizerB: int, tonesB: PS.TonePair)

  datatype StationPool = StationPool(st: Station, pool: WaveGenPool)

  /** The random values a step may consume: the pager's, and a tone pair for
      each generator. */
  datatype Draws = Draws(pager: nat, toneA: nat, toneB: nat, toneA2: nat, toneB2: nat)

  function Tx(s: StationPool): Tx {
    s.st.first.tx
  }

  predicate HoldsB(st: Station) {
    st.realizerB != NO_REALIZER
  }

  /** Both leases agree with the pool and never name the same generator. */
  predicate Leases(s: StationPool) {
    && Valid(Tx(s), s.pool)
    && (HoldsB(s.st) ==> s.pool.IsSlot(s.st.realizerB) && s.pool.inUse[s.st.realizerB])
    && (HoldsB(s.st) && Tx(s).lease.Holds() ==> Tx(s).lease.realizer != s.st.realizerB)
  }

  /** The leases are sound, the pager's flags agree, a running page repeats,
      both tone pairs are valid, and a silent pager holds neither generator. */
  predicate Inv(s: StationPool) {
    && Leases(s)
    && P.Inv(s.st.first.pager)
    && (s.st.first.pager.active ==> s.st.first.pager.repeat)
    && PS.ValidPair(s.st.first.tones) && PS.ValidPair(s.st.tonesB)
    && (s.st.first.pager.state == P.Silence ==> !Tx(s).lease.Holds() && !HoldsB(s.st))
  }

  /** The constructor: no second generator, both tone pairs drawn. */
  function NewStation(fixedFreq: real, d: Draws): (st: Station)
    ensures st.first == PS.NewStation(fixedFreq, d.toneA, d.toneB) && !HoldsB(st)
    ensures PS.ValidPair(st.tonesB)
  {
    Station(PS.NewStation(fixedFreq, d.toneA, d.toneB), NO_REALIZER, PS.GenerateTonePair(d.toneA2, d.toneB2))
  }

  lemma NewStationInv(fixedFreq: real, d: Draws, pool: WaveGenPool)
    requires pool.Valid()
    ensures Inv(StationPool(NewStation(fixedFreq, d), pool))
  {
  }

  // ---------------------------------------------------------------------------
  // The second generator

  /** `acquire_second_generator()`: keep a held second generator, otherwise
      take the lowest free one. */
  function AcquireSecond(s: StationPool): (r: (StationPool, bool))
    ensures r.1 <==> HoldsB(r.0.st)
    ensures r.0.st == s.st.(realizerB := r.0.st.realizerB) && r.0.pool.gens == s.pool.gens
    ensures !HoldsB(s.st) ==>
              (r.1 <==> exists j :: 0 <= j < |s.pool.inUse| && !s.pool.inUse[j])
              && (r.1 ==> 0 <= r.0.st.realizerB < |s.pool.inUse| && !s.pool.inUse[r.0.st.realizerB]
                          && r.0.pool.inUse == s.pool.inUse[r.0.st.realizerB := true])
              && (!r.1 ==> r.0.pool == s.pool)
  {
    if HoldsB(s.st) then (s, true)
    else
      var a := Acquire(s.pool, Tx(s).lease.stationId);
      (StationPool(s.st.(realizerB := a.slot), a.pool), a.slot != NO_REALIZER)
  }

  /** Taking the second generator twice is taking it once. */
  lemma AcquireSecondIdempotent(s: StationPool)
    ensures var a := AcquireSecond(s);
            a.1 ==> AcquireSecond(a.0) == a
  {
  }

  /** `release_second_generator()`: free a held second generator and forget it;
      without one, nothing. */
  function ReleaseSecond(s: StationPool): (r: StationPool)
    requires HoldsB(s.st) ==> 0 <= s.st.realizerB < |s.pool.inUse|
    ensures !HoldsB(r.st) && r.st == s.st.(realizerB := NO_REALIZER) && r.pool.gens == s.pool.gens
    ensures !HoldsB(s.st) ==> r == s
    ensures HoldsB(s.st) ==> r.pool.inUse == s.pool.inUse[s.st.realizerB := false]
  {
    if HoldsB(s.st) then
      StationPool(s.st.(realizerB := NO_REALIZER), Release(s.pool, s.st.realizerB, Tx(s).lease.stationId))
    else s
  }

  /** Acquiring and releasing the second generator leaves the pool as it was. */
  lemma AcquireThenReleaseSecond(s: StationPool)
    requires !HoldsB(s.st)
    ensures var a := AcquireSecond(s).0;
            ReleaseSecond(a).pool == s.pool
  {
    AcquireThenReleaseRestores(s.pool, Tx(s).lease.stationId);
  }

  /** `silence_second_generator()`: both channels of a held second generator
      to the silent frequency, main channel deselected. */
  function SilenceSecond(s: StationPool): (r: StationPool)
    requires Leases(s)
    ensures Leases(r) && r.st == s.st && r.pool.inUse == s.pool.inUse
    ensures HoldsB(s.st) ==> var g := r.pool.gens[s.st.realizerB];
              !g.main && Cached(g, true) == SILENT_FREQ && Cached(g, false) == SILENT_FREQ
  {
    if HoldsB(s.st) then
      var slot := s.st.realizerB;
      s.(pool := WriteSelect(WriteBoth(s.pool, slot, SILENT_FREQ, true), slot, false))
    else s
  }

  // ---------------------------------------------------------------------------
  // The station

  /** `begin(time)`: both generators or neither. Take the first (keeping one
      held); then the second; if the second fails, give the first back. With
      both, start a repeating page and silence both generators. */
  function Begin(s: StationPool): (r: (StationPool, bool))
    requires Inv(s)
    ensures Inv(r.0)
    ensures r.1 ==> Tx(r.0).lease.Holds() && HoldsB(r.0.st)
                    && r.0.st.first.pager == P.StartPagerTransmission(s.st.first.pager, true)
    ensures !r.1 && HoldsB(s.st) ==> r.0.pool == s.pool
    ensures !r.1 ==> !Tx(r.0).lease.Holds() && r.0.st.first.pager == s.st.first.pager
  {
    var b := CommonBegin(Tx(s), s.pool, Tx(s).fixedFreq);
    var s1 := StationPool(s.st.(first := s.st.first.(tx := b.0.tx)), b.0.pool);
    if !b.1 then (s1, false)
    else
      var a := AcquireSecond(s1);
      if !a.1 then
        var e := EndTx(Tx(a.0), a.0.pool);
        (StationPool(a.0.st.(first := a.0.st.first.(tx := e.tx)), e.pool), false)
      else
        var p1 := WriteBoth(a.0.pool, Tx(a.0).lease.realizer, SILENT_FREQ, false);
        var p2 := WriteBoth(p1, a.0.st.realizerB, SILENT_FREQ, false);
        var first := a.0.st.first.(pager := P.StartPagerTransmission(a.0.st.first.pager, true));
        (StationPool(a.0.st.(first := first), p2), true)
  }

  /** All or nothing: from a station holding neither generator, a successful
      begin holds two different ones and a failed one leaves the pool as it
      was. */
  lemma BeginAllOrNothing(s: StationPool)
    requires Inv(s) && !Tx(s).lease.Holds() && !HoldsB(s.st)
    ensures var r := Begin(s);
            (r.1 ==> Tx(r.0).lease.realizer != r.0.st.realizerB
                     && CountInUse(r.0.pool.inUse) == CountInUse(s.pool.inUse) + 2)
            && (!r.1 ==> r.0.pool.inUse == s.pool.inUse && !HoldsB(r.0.st))
  {
    var b := CommonBegin(Tx(s), s.pool, Tx(s).fixedFreq);
    if b.1 {
      var s1 := StationPool(s.st.(first := s.st.first.(tx := b.0.tx)), b.0.pool);
      var a := AcquireSecond(s1);
      var slotA := Tx(s1).lease.realizer;
      CountInUseSet(s.pool.inUse, slotA);
      if a.1 {
        CountInUseSet(s1.pool.inUse, a.0.st.realizerB);
      } else {
        AcquireThenReleaseRestores(s.pool, Tx(s).lease.stationId);
      }
    }
  }

  /** `realize()`: after the window check, with both generators held, each
      plays its own tone of the current state (or the silent frequency) on
      both channels, and both select their main channel with the carrier. */
  function Realize(s: StationPool): (r: StationPool)
    requires Leases(s)
    ensures Leases(r) && r.pool.inUse == s.pool.inUse
    ensures r.st == s.st.(first := s.st.first.(tx := Tx(s).(enabled := InAudibleWindow(Tx(s).frequency))))
    ensures Tx(s).lease.Holds() && HoldsB(s.st) && InAudibleWindow(Tx(s).frequency) ==>
              var ga := r.pool.gens[Tx(s).lease.realizer];
              var gb := r.pool.gens[s.st.realizerB];
              var state := s.st.first.pager.state;
              ga.main == Tx(s).active && gb.main == Tx(s).active
              && Cached(ga, true) == PS.ToneFreq(Tx(s), state, s.st.first.tones)
              && Cached(gb, true) == PS.ToneFreq(Tx(s), state, s.st.tonesB)
  {
    var c := CheckFrequencyBounds(Tx(s), s.pool);
    var s1 := StationPool(s.st.(first := s.st.first.(tx := c.0.tx)), c.0.pool);
    if !c.1 || !Tx(s).lease.Holds() || !HoldsB(s.st) then s1
    else
      var a := Tx(s).lease.realizer;
      var b := s.st.realizerB;
      var state := s.st.first.pager.state;
      var p1 := WriteBoth(s1.pool, a, PS.ToneFreq(Tx(s), state, s.st.first.tones), true);
      var p2 := WriteBoth(p1, b, PS.ToneFreq(Tx(s), state, s.st.tonesB), true);
      var p3 := WriteSelect(WriteSelect(p2, a, Tx(s).active), b, Tx(s).active);
      s1.(pool := p3)
  }

  function SetActive(s: StationPool, a: bool): (r: StationPool)
    ensures Tx(r) == Tx(s).(active := a) && r.pool == s.pool
  {
    s.(st := s.st.(first := s.st.first.(tx := Tx(s).(active := a))))
  }

  /** Taking whichever generators are missing at the start of a page: the
      first, then the second; a failure on the second gives back the first
      only when this same call took it. */
  function Reacquire(s: StationPool, bfo: real): (r: (StationPool, bool))
    requires Inv(s) && s.st.first.pager.state == P.ToneA
    ensures Inv(r.0) && r.0.st.first.pager == s.st.first.pager
    ensures r.1 <==> Tx(r.0).lease.Holds() && HoldsB(r.0.st)
    ensures !r.1 ==> r.0.pool.inUse == s.pool.inUse && (Tx(r.0).lease.Holds() <==> Tx(s).lease.Holds())
    ensures Tx(s).lease.Holds() && HoldsB(s.st) ==> r == (s, true)
  {
    var needFirst := !Tx(s).lease.Holds();
    var needSecond := !HoldsB(s.st);
    if !needFirst && !needSecond then (s, true)
    else
      var b := if needFirst then CommonBegin(Tx(s), s.pool, Tx(s).fixedFreq) else (TxPool(Tx(s), s.pool), true);
      var s1 := StationPool(s.st.(first := s.st.first.(tx := b.0.tx)), b.0.pool);
      if !b.1 then (s1, false)
      else
        var a := if needSecond then AcquireSecond(s1) else (s1, true);
        if !a.1 then
          if needFirst then
            AcquireThenReleaseRestores(s.pool, Tx(s).lease.stationId);
            var e := EndTx(Tx(a.0), a.0.pool);
            (StationPool(a.0.st.(first := a.0.st.first.(tx := e.tx)), e.pool), false)
          else (a.0, false)
        else
          var f := ForceFrequencyUpdate(Tx(a.0), a.0.pool, bfo);
          (StationPool(a.0.st.(first := a.0.st.first.(tx := f.tx)), f.pool), true)
  }

  datatype StationStep = StationStep(s: StationPool, keepGoing: bool, pulse: bool)

  /** Carrier on: at the start of tone A draw both tone pairs and take any
      missing generator; a failure leaves the carrier off without a pulse. */
  function OnTurnOn(s: StationPool, bfo: real, d: Draws): (r: StationStep)
    requires Inv(s) && s.st.first.pager.state != P.Silence
    ensures Inv(r.s)
  {
    if s.st.first.pager.state == P.ToneA then
      var first := s.st.first.(tones := PS.GenerateTonePair(d.toneA, d.toneB));
      var s1 := s.(st := s.st.(first := first, tonesB := PS.GenerateTonePair(d.toneA2, d.toneB2)));
      var q := Reacquire(s1, bfo);
      if !q.1 then StationStep(SetActive(q.0, false), true, false)
      else StationStep(Realize(SetActive(q.0, true)), true, true)
    else StationStep(Realize(SetActive(s, true)), true, true)
  }

  /** Carrier off: realize, silence both generators, give both back. */
  function OnTurnOff(s: StationPool): (r: StationPool)
    requires Leases(s)
    ensures Leases(r) && !Tx(r).lease.Holds() && !HoldsB(r.st) && !Tx(r).active
    ensures r.st.first.pager == s.st.first.pager && r.st.first.tones == s.st.first.tones
    ensures r.st.tonesB == s.st.tonesB
    ensures var p1 := End(Tx(s).lease, s.pool).pool;
            r.pool.inUse == if HoldsB(s.st) then p1.inUse[s.st.realizerB := false] else p1.inUse
  {
    var z := Realize(SetActive(s, false));
    var q := if Tx(z).lease.Holds() then
               z.(pool := WriteSelect(WriteBoth(z.pool, Tx(z).lease.realizer, SILENT_FREQ, true), Tx(z).lease.realizer, false))
             else z;
    var w := SilenceSecond(q);
    var e := EndTx(Tx(w), w.pool);
    ReleaseSecond(StationPool(w.st.(first := w.st.first.(tx := e.tx)), e.pool))
  }

  /** `step(time)`. */
  function Step(s: StationPool, time: nat, bfo: real, d: Draws): (r: StationStep)
    requires Inv(s)
    ensures r.keepGoing && Inv(r.s)
  {
    var k := P.StepPager(s.st.first.pager, time, d.pager);
    P.StepKeepsInv(s.st.first.pager, time, d.pager);
    P.CodeMatchesCarrier(s.st.first.pager, time, d.pager);
    var s1 := s.(st := s.st.(first := s.st.first.(pager := k.p)));
    match k.code
    case TurnOn => OnTurnOn(s1, bfo, d)
    case LeaveOn => StationStep(s1, true, true)
    case TurnOff => StationStep(OnTurnOff(s1), true, false)
    case ChangeFreq => StationStep(Realize(s1), true, true)
    case _ => StationStep(s1, true, false)
  }

  /** A failed start of a page leaves the pool exactly as it was, and the
      station keeps the first generator exactly when it already held it. */
  lemma FailedReacquireKeepsPool(s: StationPool, bfo: real)
    requires Inv(s) && s.st.first.pager.state == P.ToneA
    ensures var r := Reacquire(s, bfo);
            !r.1 ==> r.0.pool.inUse == s.pool.inUse && (Tx(r.0).lease.Holds() <==> Tx(s).lease.Holds())
                     && (r.0.st.realizerB == s.st.realizerB)
  {
  }

  /** The silence between pages gives both generators back. */
  lemma SilenceFreesBoth(s: StationPool, time: nat, bfo: real, d: Draws)
    requires Inv(s) && Tx(s).lease.Holds() && HoldsB(s.st)
    requires P.StepPager(s.st.first.pager, time, d.pager).code == TurnOff
    ensures var r := Step(s, time, bfo, d);
            !Tx(r.s).lease.Holds() && !HoldsB(r.s.st) && !r.pulse
            && r.s.pool.inUse == s.pool.inUse[Tx(s).lease.realizer := false][s.st.realizerB := false]
  {
  }
}
