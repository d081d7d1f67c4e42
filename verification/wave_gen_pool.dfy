/** The pool of physical signal generators that stations borrow.

    A slot index names one generator; `inUse[i]` is the pool's status flag for
    slot i. Acquisition is first-fit: the lowest free slot is handed out.
 */
module GenPool {
  import opened WaveGens

  datatype WaveGenPool = WaveGenPool(gens: seq<WaveGen>, inUse: seq<bool>) {
    /** One status flag per generator. */
    predicate Valid() {
      |gens| == |inUse|
    }

    /** `get_total_count()`. */
    function Total(): nat {
      |inUse|
    }

    predicate IsSlot(i: int) {
      0 <= i < |inUse| && i < |gens|
    }
  }

  /** Outcome of `get_realizer`: the slot handed out (or -1) and the new pool. */
  datatype Acquired = Acquired(slot: int, pool: WaveGenPool)

  /** The lowest index at or after `from` whose flag is false, or -1 if there is none. */
  function FirstFree(inUse: seq<bool>, from: nat): (i: int)
    requires from <= |inUse|
    ensures i == -1 || from <= i < |inUse|
    ensures i == -1 <==> forall j :: from <= j < |inUse| ==> inUse[j]
    ensures i != -1 ==> !inUse[i] && forall j :: from <= j < i ==> inUse[j]
    decreases |inUse| - from
  {
    if from == |inUse| then -1
    else if !inUse[from] then from
    else FirstFree(inUse, from + 1)
  }

  /** Number of false flags in `s`. */
  function CountFree(s: seq<bool>): nat
  {
    if s == [] then 0 else (if s[0] then 0 else 1) + CountFree(s[1..])
  }

  /** Number of true flags in `s`. */
  function CountInUse(s: seq<bool>): nat
  {
    if s == [] then 0 else (if s[0] then 1 else 0) + CountInUse(s[1..])
  }

  /** Every slot is either free or in use. */
  lemma {:induction false} CountsPartition(s: seq<bool>)
    ensures CountFree(s) + CountInUse(s) == |s|
  {
    if s != [] {
      CountsPartition(s[1..]);
    }
  }

  lemma {:induction false} CountFreeSnoc(s: seq<bool>, b: bool)
    ensures CountFree(s + [b]) == CountFree(s) + (if b then 0 else 1)
  {
    if s == [] {
      assert s + [b] == [b];
    } else {
      assert (s + [b])[1..] == s[1..] + [b];
      CountFreeSnoc(s[1..], b);
    }
  }

  /** No free slot means a zero free count and conversely. */
  lemma {:induction false} CountFreeZero(s: seq<bool>)
    ensures CountFree(s) == 0 <==> forall j :: 0 <= j < |s| ==> s[j]
  {
    if s != [] {
      CountFreeZero(s[1..]);
      assert forall j :: 1 <= j < |s| ==> s[j] == s[1..][j - 1];
    }
  }

  /** `get_realizer(station_id)`: first-fit acquisition. The station id is
      accepted and ignored, as in the source. */
  function Acquire(p: WaveGenPool, stationId: int): (a: Acquired)
    ensures a.pool.gens == p.gens && |a.pool.inUse| == |p.inUse|
    ensures a.slot == -1 <==> forall j :: 0 <= j < |p.inUse| ==> p.inUse[j]
    ensures a.slot == -1 ==> a.pool == p
    ensures a.slot != -1 ==> 0 <= a.slot < |p.inUse| && !p.inUse[a.slot] && a.pool.inUse[a.slot]
    ensures a.slot != -1 ==> forall j :: 0 <= j < a.slot ==> p.inUse[j]
    ensures forall j :: 0 <= j < |p.inUse| && j != a.slot ==> a.pool.inUse[j] == p.inUse[j]
  {
    var i := FirstFree(p.inUse, 0);
    if i == -1 then Acquired(-1, p) else Acquired(i, p.(inUse := p.inUse[i := true]))
  }

  /** `free_realizer(n, station_id)`: clear slot n's flag, whoever holds it.
      The station id is accepted and ignored. */
  function Release(p: WaveGenPool, n: int, stationId: int): (q: WaveGenPool)
    requires 0 <= n < |p.inUse|
    ensures q.gens == p.gens && |q.inUse| == |p.inUse| && !q.inUse[n]
    ensures forall j :: 0 <= j < |p.inUse| && j != n ==> q.inUse[j] == p.inUse[j]
  {
    p.(inUse := p.inUse[n := false])
  }

  /** `access_realizer(n)`. */
  function Access(p: WaveGenPool, n: int): WaveGen
    requires p.IsSlot(n)
  {
    p.gens[n]
  }

  /** Replace the generator in slot n (the effect of driving it through `Access`). */
  function Store(p: WaveGenPool, n: int, g: WaveGen): (q: WaveGenPool)
    requires p.IsSlot(n)
    ensures q.inUse == p.inUse && |q.gens| == |p.gens| && q.gens[n] == g
    ensures forall j :: 0 <= j < |p.gens| && j != n ==> q.gens[j] == p.gens[j]
  {
    p.(gens := p.gens[n := g])
  }

  /** The pool constructor: every slot is released, whatever the status array held. */
  method NewPool(gens: seq<WaveGen>, statuses: seq<bool>) returns (p: WaveGenPool)
    requires |statuses| == |gens|
    ensures p.Valid() && p.gens == gens && p.Total() == |gens|
    ensures forall j :: 0 <= j < p.Total() ==> !p.inUse[j]
    ensures CountFree(p.inUse) == p.Total()
  {
    p := WaveGenPool(gens, statuses);
    var i := 0;
    while i < |gens|
      invariant 0 <= i <= |gens|
      invariant p.gens == gens && |p.inUse| == |gens|
      invariant forall j :: 0 <= j < i ==> !p.inUse[j]
    {
      p := Release(p, i, 0);
      i := i + 1;
    }
    CountsPartition(p.inUse);
    ZeroInUseWhenAllFree(p.inUse);
  }

  /** Marking one free slot in use raises the in-use count by one. */
  lemma {:induction false} CountInUseSet(s: seq<bool>, i: int)
    requires 0 <= i < |s| && !s[i]
    ensures CountInUse(s[i := true]) == CountInUse(s) + 1
  {
    if i == 0 {
      assert s[i := true][1..] == s[1..];
    } else {
      assert s[i := true][1..] == s[1..][i - 1 := true];
      CountInUseSet(s[1..], i - 1);
    }
  }

  lemma {:induction false} ZeroInUseWhenAllFree(s: seq<bool>)
    requires forall j :: 0 <= j < |s| ==> !s[j]
    ensures CountInUse(s) == 0
  {
    if s != [] {
      ZeroInUseWhenAllFree(s[1..]);
    }
  }

  /** `get_realizer` as the source writes it, a first-fit scan. */
  method GetRealizer(p: WaveGenPool, stationId: int) returns (slot: int, q: WaveGenPool)
    ensures Acquired(slot, q) == Acquire(p, stationId)
    ensures slot != -1 ==> !p.inUse[slot] && q.inUse == p.inUse[slot := true]
  {
    var i := 0;
    while i < |p.inUse|
      invariant 0 <= i <= |p.inUse|
      invariant forall j :: 0 <= j < i ==> p.inUse[j]
    {
      if !p.inUse[i] {
        return i, p.(inUse := p.inUse[i := true]);
      }
      i := i + 1;
    }
    return -1, p;
  }

  /** `get_available_count()` as the source writes it. */
  method GetAvailableCount(p: WaveGenPool) returns (available: int)
    ensures available == CountFree(p.inUse)
    ensures available + CountInUse(p.inUse) == p.Total()
    ensures available == 0 <==> Acquire(p, 0).slot == -1
  {
    available := 0;
    var i := 0;
    while i < |p.inUse|
      invariant 0 <= i <= |p.inUse|
      invariant available == CountFree(p.inUse[..i])
    {
      assert p.inUse[..i + 1] == p.inUse[..i] + [p.inUse[i]];
      CountFreeSnoc(p.inUse[..i], p.inUse[i]);
      if !p.inUse[i] {
        available := available + 1;
      }
      i := i + 1;
    }
    assert p.inUse[..i] == p.inUse;
    CountsPartition(p.inUse);
    CountFreeZero(p.inUse);
  }

  /** Two acquisitions without a release in between never hand out the same slot. */
  lemma AcquisitionsDistinct(p: WaveGenPool, id1: int, id2: int)
    ensures var a := Acquire(p, id1);
            var b := Acquire(a.pool, id2);
            a.slot != -1 && b.slot != -1 ==> a.slot != b.slot
  {
  }

  /** Releasing the slot just acquired restores the pool exactly. */
  lemma AcquireThenReleaseRestores(p: WaveGenPool, id: int)
    ensures var a := Acquire(p, id);
            a.slot != -1 ==> Release(a.pool, a.slot, id) == p
  {
    var a := Acquire(p, id);
    if a.slot != -1 {
      assert Release(a.pool, a.slot, id).inUse == p.inUse;
    }
  }

  /** Acquiring takes exactly one free slot out of the count, releasing a held one
      puts exactly one back. */
  lemma {:induction false} CountFreeUpdate(s: seq<bool>, i: int, b: bool)
    requires 0 <= i < |s|
    ensures CountFree(s[i := b]) == CountFree(s) - (if s[i] then 0 else 1) + (if b then 0 else 1)
  {
    if i == 0 {
      assert s[i := b][1..] == s[1..];
    } else {
      assert s[i := b][1..] == s[1..][i - 1 := b];
      CountFreeUpdate(s[1..], i - 1, b);
    }
  }

  lemma AcquireTakesOne(p: WaveGenPool, id: int)
    ensures var a := Acquire(p, id);
            a.slot != -1 ==> CountFree(a.pool.inUse) + 1 == CountFree(p.inUse)
  {
    var a := Acquire(p, id);
    if a.slot != -1 {
      CountFreeUpdate(p.inUse, a.slot, true);
    }
  }
}
