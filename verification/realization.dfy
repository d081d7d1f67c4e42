/** A realization: a station's lease on at most one generator of the pool.

    `realizer` is the held slot, or -1 when the station holds none.
 */
module Realizations {
  import opened GenPool

  const NO_REALIZER: int := -1

  datatype Realization = Realization(realizer: int, stationId: int) {
    predicate Holds() {
      realizer != NO_REALIZER
    }
  }

  /** The lease names nothing or a slot the pool marks as in use. */
  predicate LeaseValid(r: Realization, p: WaveGenPool) {
    r.realizer == NO_REALIZER || (p.IsSlot(r.realizer) && p.inUse[r.realizer])
  }

  /** What `begin` and `end` return: the new lease, the new pool, and success. */
  datatype Leased = Leased(r: Realization, pool: WaveGenPool, ok: bool)

  /** The constructor: no generator held. */
  function NewRealization(stationId: int): (r: Realization)
    ensures !r.Holds() && r.stationId == stationId
  {
    Realization(NO_REALIZER, stationId)
  }

  /** `begin(time)`: keep a held generator, otherwise try to acquire the lowest free one. */
  function Begin(r: Realization, p: WaveGenPool): (l: Leased)
    ensures l.r.stationId == r.stationId && l.pool.gens == p.gens
    ensures r.Holds() ==> l == Leased(r, p, true)
    ensures !r.Holds() ==> (l.ok <==> exists j :: 0 <= j < |p.inUse| && !p.inUse[j])
    ensures l.ok <==> l.r.Holds()
    ensures !l.ok ==> l.pool == p
    ensures !r.Holds() && l.ok ==> 0 <= l.r.realizer < |p.inUse| && !p.inUse[l.r.realizer] && l.pool.inUse == p.inUse[l.r.realizer := true]
    ensures !r.Holds() && l.ok ==> forall j :: 0 <= j < l.r.realizer ==> p.inUse[j]
  {
    if r.Holds() then Leased(r, p, true)
    else
      var a := Acquire(p, r.stationId);
      Leased(r.(realizer := a.slot), a.pool, a.slot != NO_REALIZER)
  }

  /** `end()`: give back the held generator, if any. */
  function End(r: Realization, p: WaveGenPool): (l: Leased)
    requires LeaseValid(r, p)
    ensures !l.r.Holds() && l.r.stationId == r.stationId && l.pool.gens == p.gens
    ensures !r.Holds() ==> l.pool == p
    ensures r.Holds() ==> l.pool.inUse == p.inUse[r.realizer := false]
  {
    if r.Holds() then Leased(r.(realizer := NO_REALIZER), Release(p, r.realizer, r.stationId), true)
    else Leased(r, p, true)
  }

  /** `update(mode)` of the base class: reports that nothing was updated. */
  function BaseUpdate(r: Realization): (updated: bool)
    ensures !updated
  {
    false
  }

  /** `step(time)` of the base class: always asks to keep going. */
  function BaseStep(r: Realization, time: nat): (keepGoing: bool)
    ensures keepGoing
  {
    true
  }

  /** A valid lease stays valid through `begin`. */
  lemma BeginKeepsLeaseValid(r: Realization, p: WaveGenPool)
    requires p.Valid() && LeaseValid(r, p)
    ensures LeaseValid(Begin(r, p).r, Begin(r, p).pool)
  {
  }

  /** `begin` is idempotent: a second call succeeds and changes nothing. */
  lemma BeginIdempotent(r: Realization, p: WaveGenPool)
    ensures var l := Begin(r, p);
            l.ok ==> Begin(l.r, l.pool) == Leased(l.r, l.pool, true)
  {
  }

  /** `end` is idempotent: a second call changes nothing, so a slot is never freed twice. */
  lemma EndIdempotent(r: Realization, p: WaveGenPool)
    requires LeaseValid(r, p)
    ensures var l := End(r, p);
            LeaseValid(l.r, l.pool) && End(l.r, l.pool) == l
  {
  }

  /** Acquiring and then ending a lease leaves the pool as it was. */
  lemma BeginThenEndRestoresPool(r: Realization, p: WaveGenPool)
    requires p.Valid() && !r.Holds()
    ensures var l := Begin(r, p);
            LeaseValid(l.r, l.pool) && End(l.r, l.pool).pool == p
  {
    var l := Begin(r, p);
    if l.ok {
      AcquireThenReleaseRestores(p, r.stationId);
    }
  }
}
