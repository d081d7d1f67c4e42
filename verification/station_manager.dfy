/** The station manager: it moves up to six simulated stations through the
    DORMANT / ACTIVE / AUDIBLE / SILENT lifecycle as the dial moves, books at
    most four generator channels for the stations in range, and, while the
    operator tunes, relocates far-away stations ahead of the dial.

    The channel booking is bookkeeping only: stations take generators from
    the pool themselves. The manager touches the pool only by releasing, when
    a station leaves AUDIBLE or is reinitialized.
 */
module StationManager {
  import opened Platform
  import opened GenPool
  import opened Realizations
  import opened Transmitter

  const MAX_STATIONS: nat := 6
  const MAX_AD9833: nat := 4
  const NO_STATION: int := -1
  /** Without a significant dial change for longer than this, tuning has stopped. */
  const SETTLE_MS: nat := 5000
  /** Relocations are at least this far apart. */
  const REALLOC_GAP_MS: nat := 200
  /** The lookahead below the dial while tuning down. */
  const DOWN_LOOKAHEAD: nat := 8000
  const UP_FIRST_OFFSET: nat := 2000
  const UP_SPACING: nat := 1000
  const DOWN_FIRST_OFFSET: nat := 5700
  const DOWN_SPACING: nat := 500
  /** Relocated stations are never put below this dial position. */
  const MIN_RELOCATION_FREQ: nat := 100000

  /** The four pipeline ranges: the dial change that counts as tuning, the
      drift of the dial from the pipeline center that triggers a relocation,
      the lookahead range and the audible range. Their values are not part of
      this model, so every property holds for all of them. */
  datatype Config = Config(tuneDetect: nat, reallocThreshold: nat, lookahead: nat, audible: nat)

  /** `ad9833_assignment` holds MAX_AD9833 station indices or NO_STATION. */
  datatype Manager = Manager(
    stations: seq<Tx>,
    assignment: seq<int>,
    pipelineEnabled: bool,
    lastVfo: nat,
    centerFreq: nat,
    direction: int,
    lastTuningTime: nat)

  /** The manager, the shared generator pool, and the time of the last
      relocation (a function-local static in the source, so it is shared by
      every manager and outlives none of them). */
  datatype World = World(m: Manager, pool: WaveGenPool, lastRealloc: nat)

  // ---------------------------------------------------------------------
  // 32-bit arithmetic of the dial

  /** `(uint32_t)get_fixed_frequency()`: the station's dial position in whole hertz. */
  function DialOf(tx: Tx): nat {
    U32(TruncReal(tx.fixedFreq))
  }

  /** The AVR `abs` of an `int32_t`: negating the most negative value leaves it negative. */
  function AbsI32(x: int): (r: int)
    requires I32_MIN <= x <= I32_MAX
    ensures x > I32_MIN ==> r == (if x >= 0 then x else -x)
    ensures x == I32_MIN ==> r == I32_MIN
  {
    if x > 0 then x else I32(-x)
  }

  /** `abs((int32_t)(a - b))` stored into a `uint32_t`: the distance between
      two dial positions. */
  function Distance(a: nat, b: nat): (d: nat)
    ensures d <= 0x8000_0000
    ensures a < 0x8000_0000 && b < 0x8000_0000 ==> d == if a >= b then a - b else b - a
  {
    U32(AbsI32(I32(a - b)))
  }

  // ---------------------------------------------------------------------
  // The stations and their leases

  /** Every station's lease agrees with the pool and no generator is leased twice. */
  predicate Sound(ss: seq<Tx>, pool: WaveGenPool) {
    && pool.Valid()
    && (forall i :: 0 <= i < |ss| ==> LeaseValid(ss[i].lease, pool))
    && (forall i, j :: 0 <= i < |ss| && 0 <= j < |ss| && i != j && ss[i].lease.Holds() ==>
          ss[i].lease.realizer != ss[j].lease.realizer)
  }

  predicate Inv(w: World) {
    && |w.m.stations| <= MAX_STATIONS
    && |w.m.assignment| == MAX_AD9833
    && Sound(w.m.stations, w.pool)
    && w.m.direction in {-1, 0, 1}
    && IsU32(w.m.lastVfo) && IsU32(w.m.centerFreq)
  }

  /** Replacing one station keeps the list sound when its lease is kept, or
      when it gives its generator back. */
  lemma ReplaceKeepsSound(ss: seq<Tx>, pool: WaveGenPool, i: int, t: Tx, q: WaveGenPool)
    requires Sound(ss, pool) && 0 <= i < |ss|
    requires (t.lease == ss[i].lease && q == pool)
          || (!t.lease.Holds() && q == End(ss[i].lease, pool).pool)
    ensures Sound(ss[i := t], q)
  {
    var r := ss[i := t];
    forall j | 0 <= j < |r|
      ensures LeaseValid(r[j].lease, q)
    {
      if j != i && r[j].lease.Holds() && ss[i].lease.Holds() {
        assert r[j].lease.realizer != ss[i].lease.realizer;
      }
    }
  }

  /** A station leaves AUDIBLE for another state while holding a generator. */
  predicate Demoted(tx: Tx, s: StationState) {
    tx.stationState == Audible && s != Audible && tx.lease.Holds()
  }

  /** `set_station_state` on every station from `i` on, to the states `ts`. */
  function ApplyStates(ss: seq<Tx>, pool: WaveGenPool, ts: seq<StationState>, i: nat): (r: (seq<Tx>, WaveGenPool))
    requires Sound(ss, pool) && |ts| == |ss| && i <= |ss|
    ensures Sound(r.0, r.1) && |r.0| == |ss| && r.1.gens == pool.gens && |r.1.inUse| == |pool.inUse|
    ensures forall j :: 0 <= j < i ==> r.0[j] == ss[j]
    ensures forall j :: i <= j < |ss| ==> r.0[j].stationState == ts[j]
    ensures forall j :: i <= j < |ss| ==>
              r.0[j] == ss[j].(stationState := ts[j],
                               lease := if Demoted(ss[j], ts[j]) then NewRealization(ss[j].lease.stationId) else ss[j].lease)
    ensures forall k :: 0 <= k < |pool.inUse| && r.1.inUse[k] ==> pool.inUse[k]
    ensures (forall j :: i <= j < |ss| ==> !Demoted(ss[j], ts[j])) ==> r.1 == pool
    decreases |ss| - i
  {
    if i == |ss| then (ss, pool)
    else
      var t := SetStationState(ss[i], pool, ts[i]);
      ReplaceKeepsSound(ss, pool, i, t.tx, t.pool);
      ApplyStates(ss[i := t.tx], t.pool, ts, i + 1)
  }

  function States(ss: seq<Tx>): (st: seq<StationState>)
    ensures |st| == |ss| && forall i :: 0 <= i < |ss| ==> st[i] == ss[i].stationState
  {
    seq(|ss|, i requires 0 <= i < |ss| => ss[i].stationState)
  }

  // ---------------------------------------------------------------------
  // Construction

  /** The constructor's loop: every station loses its carrier flag and goes
      DORMANT (releasing a generator it held as AUDIBLE). */
  function ResetAll(ss: seq<Tx>, pool: WaveGenPool): (r: (seq<Tx>, WaveGenPool))
    requires Sound(ss, pool)
    ensures Sound(r.0, r.1) && |r.0| == |ss|
    ensures forall i :: 0 <= i < |ss| ==> !r.0[i].active && r.0[i].stationState == Dormant
    ensures forall i :: 0 <= i < |ss| ==> r.0[i].fixedFreq == ss[i].fixedFreq
  {
    var cleared := seq(|ss|, i requires 0 <= i < |ss| => SetActiveFlag(ss[i], false));
    assert Sound(cleared, pool);
    ApplyStates(cleared, pool, seq(|ss|, i => Dormant), 0)
  }

  /** `StationManager(stations, count)`: all stations dormant, no channel
      booked, pipelining off and its state zeroed. */
  function NewManager(ss: seq<Tx>, pool: WaveGenPool): (w: World)
    requires |ss| <= MAX_STATIONS && Sound(ss, pool)
    ensures Inv(w) && w.lastRealloc == 0
    ensures |w.m.stations| == |ss| && w.m.assignment == [NO_STATION, NO_STATION, NO_STATION, NO_STATION]
    ensures forall i :: 0 <= i < |ss| ==> !w.m.stations[i].active && w.m.stations[i].stationState == Dormant
    ensures !w.m.pipelineEnabled && w.m.lastVfo == 0 && w.m.centerFreq == 0
    ensures w.m.direction == 0 && w.m.lastTuningTime == 0
  {
    var r := ResetAll(ss, pool);
    World(Manager(r.0, [NO_STATION, NO_STATION, NO_STATION, NO_STATION], false, 0, 0, 0, 0), r.1, 0)
  }

  // ---------------------------------------------------------------------
  // allocateAD9833

  /** One pass of `allocateAD9833`: from index `i` on, the stations whose
      state is in `want`, in index order, until `room` channels are used. */
  function Pick(st: seq<StationState>, want: set<StationState>, i: nat, room: nat): (r: seq<nat>)
    requires i <= |st|
    ensures |r| <= room
    ensures forall a :: 0 <= a < |r| ==> i <= r[a] < |st| && st[r[a]] in want
    ensures forall a, b :: 0 <= a < b < |r| ==> r[a] < r[b]
    ensures forall k :: i <= k < |st| && st[k] in want && k !in r ==>
              |r| == room && forall a :: 0 <= a < |r| ==> r[a] < k
    decreases |st| - i
  {
    if i == |st| || room == 0 then []
    else if st[i] in want then [i] + Pick(st, want, i + 1, room - 1)
    else Pick(st, want, i + 1, room)
  }

  /** The states the second pass hands channels to: ACTIVE only as written,
      ACTIVE or SILENT once SILENT stations can be promoted. */
  function Waiting(promoteSilent: bool): set<StationState> {
    if promoteSilent then {Active, Silent} else {Active}
  }

  /** The channel booking: AUDIBLE stations first, then waiting ones. */
  function Booking(st: seq<StationState>, promoteSilent: bool): (b: seq<nat>)
    ensures |b| <= MAX_AD9833
    ensures forall a :: 0 <= a < |b| ==> b[a] < |st| && st[b[a]] in {Audible} + Waiting(promoteSilent)
    ensures forall a, c :: 0 <= a < c < |b| ==> b[a] != b[c]
  {
    var first := Pick(st, {Audible}, 0, MAX_AD9833);
    var second := Pick(st, Waiting(promoteSilent), 0, MAX_AD9833 - |first|);
    first + second
  }

  /** The state after allocation: booked stations are AUDIBLE, the other
      ACTIVE and AUDIBLE stations SILENT, the rest unchanged. */
  function Allocated(st: seq<StationState>, b: seq<nat>): (r: seq<StationState>)
    ensures |r| == |st|
  {
    seq(|st|, i requires 0 <= i < |st| =>
      if i in b then Audible else if st[i] in {Active, Audible} then Silent else st[i])
  }

  /** The booking padded to the four channels with NO_STATION. */
  function Pad(b: seq<nat>): (a: seq<int>)
    requires |b| <= MAX_AD9833
    ensures |a| == MAX_AD9833
    ensures forall k :: 0 <= k < MAX_AD9833 ==> a[k] == if k < |b| then b[k] else NO_STATION
  {
    seq(MAX_AD9833, k requires 0 <= k < MAX_AD9833 => if k < |b| then b[k] as int else NO_STATION)
  }

  /** `allocateAD9833()`. The source writes a station promoted in the second
      pass to AUDIBLE and then again in the third; the two writes are one
      `set_station_state` from the old state here, which releases exactly
      when an AUDIBLE station ends SILENT, as the two do. */
  function AllocateWith(w: World, promoteSilent: bool): (r: World)
    requires Inv(w)
    ensures Inv(r)
    ensures r.m == w.m.(stations := r.m.stations, assignment := r.m.assignment) && r.lastRealloc == w.lastRealloc
  {
    var st := States(w.m.stations);
    var b := Booking(st, promoteSilent);
    var a := ApplyStates(w.m.stations, w.pool, Allocated(st, b), 0);
    World(w.m.(stations := a.0, assignment := Pad(b)), a.1, w.lastRealloc)
  }

  /** `allocateAD9833()` as written: SILENT stations are never booked. */
  function AllocateAsWritten(w: World): (r: World)
    requires Inv(w)
    ensures Inv(r)
  {
    AllocateWith(w, false)
  }

  /** `allocateAD9833()` as the design describes it: a SILENT station is
      booked again when a channel is free. */
  function Allocate(w: World): (r: World)
    requires Inv(w)
    ensures Inv(r)
  {
    AllocateWith(w, true)
  }

  /** How many stations from index `i` on are in a state of `want`. */
  function CountFrom(st: seq<StationState>, want: set<StationState>, i: nat): nat
    requires i <= |st|
    decreases |st| - i
  {
    if i == |st| then 0 else (if st[i] in want then 1 else 0) + CountFrom(st, want, i + 1)
  }

  /** How many of i .. n-1 occur in `a`. */
  function Members(n: nat, i: nat, a: seq<int>): nat
    decreases n - i
  {
    if i >= n then 0 else (if i in a then 1 else 0) + Members(n, i + 1, a)
  }

  lemma {:induction false} MembersTail(n: nat, i: nat, a: seq<int>)
    requires a != []
    ensures Members(n, i, a) == Members(n, i, a[1..]) + (if i <= a[0] < n && a[0] !in a[1..] then 1 else 0)
    decreases n - i
  {
    if i < n {
      MembersTail(n, i + 1, a);
      assert (i in a) == (i == a[0] || i in a[1..]);
    }
  }

  lemma {:induction false} MembersEmpty(n: nat, i: nat)
    ensures Members(n, i, []) == 0
    decreases n - i
  {
    if i < n {
      MembersEmpty(n, i + 1);
    }
  }

  /** A list holds at most as many numbers of a range as it has entries, and
      exactly that many when its entries are distinct numbers of the range. */
  lemma {:induction false} MembersBound(n: nat, i: nat, a: seq<int>)
    ensures Members(n, i, a) <= |a|
    ensures (forall k :: 0 <= k < |a| ==> i <= a[k] < n) && (forall k, l :: 0 <= k < l < |a| ==> a[k] != a[l])
            ==> Members(n, i, a) == |a|
  {
    if a == [] {
      MembersEmpty(n, i);
    } else {
      MembersTail(n, i, a);
      MembersBound(n, i, a[1..]);
      if (forall k :: 0 <= k < |a| ==> i <= a[k] < n) && (forall k, l :: 0 <= k < l < |a| ==> a[k] != a[l]) {
        assert forall k :: 0 <= k < |a[1..]| ==> a[1..][k] == a[k + 1];
        assert a[0] !in a[1..];
      }
    }
  }

  /** Counting AUDIBLE stations is counting the list that names exactly them. */
  lemma {:induction false} AudibleAreMembers(st: seq<StationState>, a: seq<int>, i: nat)
    requires i <= |st|
    requires forall k :: 0 <= k < |st| ==> (st[k] == Audible <==> k in a)
    ensures CountFrom(st, {Audible}, i) == Members(|st|, i, a)
    decreases |st| - i
  {
    if i < |st| {
      AudibleAreMembers(st, a, i + 1);
    }
  }

  /** A pass without room, or without a station it wants, books none. */
  lemma {:induction false} PickNone(st: seq<StationState>, want: set<StationState>, i: nat, room: nat)
    requires i <= |st|
    requires room == 0 || forall k :: i <= k < |st| ==> st[k] !in want
    ensures Pick(st, want, i, room) == []
    decreases |st| - i
  {
    if i < |st| && room > 0 {
      PickNone(st, want, i + 1, room);
    }
  }

  /** A pass with room for every station it wants books all of them. */
  lemma {:induction false} PickAll(st: seq<StationState>, want: set<StationState>, i: nat, room: nat)
    requires i <= |st| && CountFrom(st, want, i) <= room
    ensures |Pick(st, want, i, room)| == CountFrom(st, want, i)
    ensures forall k :: i <= k < |st| && st[k] in want ==> k in Pick(st, want, i, room)
    decreases |st| - i
  {
    if i < |st| {
      if st[i] in want {
        PickAll(st, want, i + 1, room - 1);
      } else {
        PickAll(st, want, i + 1, room);
      }
    }
  }

  /** The booked channels, as the manager's assignment shows them: a station
      is AUDIBLE after allocation exactly when one of the four channels names
      it, and the channels name distinct stations. */
  lemma AllocationBooks(w: World, promoteSilent: bool)
    requires Inv(w)
    ensures var r := AllocateWith(w, promoteSilent);
            var after := r.m.stations;
            && |after| == |w.m.stations|
            && (forall i :: 0 <= i < |after| ==> (after[i].stationState == Audible <==> i in r.m.assignment))
            && (forall k :: 0 <= k < MAX_AD9833 && r.m.assignment[k] != NO_STATION ==> 0 <= r.m.assignment[k] < |after|)
            && (forall k, l :: 0 <= k < l < MAX_AD9833 && r.m.assignment[k] != NO_STATION ==>
                  r.m.assignment[k] != r.m.assignment[l])
  {
    var st := States(w.m.stations);
    var b := Booking(st, promoteSilent);
    var r := AllocateWith(w, promoteSilent);
    assert r.m.assignment == Pad(b);
    AllocatedStates(w, promoteSilent);
    PadNamesBooked(b, |st|);
    forall i | 0 <= i < |r.m.stations|
      ensures r.m.stations[i].stationState == Audible <==> i in b
    {
      assert States(r.m.stations)[i] == Allocated(st, b)[i];
    }
  }

  /** The padded booking names exactly the booked stations, each once. */
  lemma PadNamesBooked(b: seq<nat>, n: nat)
    requires |b| <= MAX_AD9833
    requires forall a :: 0 <= a < |b| ==> b[a] < n
    requires forall a, c :: 0 <= a < c < |b| ==> b[a] != b[c]
    ensures var p := Pad(b);
            && (forall i :: 0 <= i < n ==> (i in p <==> i in b))
            && (forall k :: 0 <= k < MAX_AD9833 && p[k] != NO_STATION ==> 0 <= p[k] < n)
            && (forall k, l :: 0 <= k < l < MAX_AD9833 && p[k] != NO_STATION ==> p[k] != p[l])
  {
    var p := Pad(b);
    forall i | 0 <= i < n
      ensures i in p <==> i in b
    {
      if i in b {
        var a :| 0 <= a < |b| && b[a] == i;
        assert p[a] == i;
      }
    }
  }

  /** Allocation leaves DORMANT stations alone, ends every ACTIVE or AUDIBLE
      station AUDIBLE or SILENT, and, as written, never touches a SILENT one. */
  lemma AllocationMovesOnlyInRange(w: World, promoteSilent: bool)
    requires Inv(w)
    ensures var before := w.m.stations;
            var after := AllocateWith(w, promoteSilent).m.stations;
            && (forall i :: 0 <= i < |before| && before[i].stationState == Dormant ==> after[i] == before[i])
            && (forall i :: 0 <= i < |before| && before[i].stationState in {Active, Audible} ==>
                  after[i].stationState in {Audible, Silent})
            && (!promoteSilent ==>
                  forall i :: 0 <= i < |before| && before[i].stationState == Silent ==> after[i] == before[i])
  {
    var ss := w.m.stations;
    var st := States(ss);
    var b := Booking(st, promoteSilent);
    var ts := Allocated(st, b);
    var a := ApplyStates(ss, w.pool, ts, 0);
    assert AllocateWith(w, promoteSilent).m.stations == a.0;
    forall i | 0 <= i < |ss| && (st[i] == Dormant || (!promoteSilent && st[i] == Silent))
      ensures a.0[i] == ss[i]
    {
      assert i !in b;
      assert ts[i] == st[i];
    }
    forall i | 0 <= i < |ss| && st[i] in {Active, Audible}
      ensures a.0[i].stationState in {Audible, Silent}
    {
      assert ts[i] in {Audible, Silent};
    }
  }

  /** The states after allocation are the targets computed from the booking. */
  lemma AllocatedStates(w: World, promoteSilent: bool)
    requires Inv(w)
    ensures var st := States(w.m.stations);
            var b := Booking(st, promoteSilent);
            States(AllocateWith(w, promoteSilent).m.stations) == Allocated(st, b)
  {
  }

  /** At most four stations are AUDIBLE after allocation: exactly as many as
      channels were booked. */
  lemma AtMostFourAudible(w: World, promoteSilent: bool)
    requires Inv(w)
    ensures var after := States(AllocateWith(w, promoteSilent).m.stations);
            CountFrom(after, {Audible}, 0) == |Booking(States(w.m.stations), promoteSilent)| <= MAX_AD9833
  {
    var st := States(w.m.stations);
    var b := Booking(st, promoteSilent);
    AllocatedStates(w, promoteSilent);
    AudibleAreMembers(Allocated(st, b), b, 0);
    MembersBound(|st|, 0, b);
  }

  /** Channels go to stations that were already AUDIBLE before any waiting
      station: an AUDIBLE station is dropped only when four AUDIBLE stations
      ahead of it kept all the channels, and a waiting station is left out
      only when every channel is booked. */
  lemma AudibleKeptFirst(w: World, promoteSilent: bool)
    requires Inv(w)
    ensures var r := AllocateWith(w, promoteSilent);
            var before := w.m.stations;
            && (forall i :: 0 <= i < |before| && before[i].stationState == Audible && r.m.stations[i].stationState != Audible ==>
                  forall k :: 0 <= k < MAX_AD9833 ==>
                    0 <= r.m.assignment[k] < i && before[r.m.assignment[k]].stationState == Audible)
            && (forall i :: (0 <= i < |before| && before[i].stationState in Waiting(promoteSilent)
                               && r.m.stations[i].stationState != Audible) ==>
                  forall k :: 0 <= k < MAX_AD9833 ==> r.m.assignment[k] != NO_STATION)
  {
    AllocationBooks(w, promoteSilent);
  }

  /** As written, a SILENT station stays SILENT through allocation even when
      every channel is free: one SILENT station books no channel. Once SILENT
      stations are booked again, it is AUDIBLE. */
  lemma IdleChannelAsWritten()
    ensures Booking([Silent], false) == [] && Allocated([Silent], []) == [Silent]
    ensures Booking([Silent], true) == [0] && Allocated([Silent], [0]) == [Audible]
  {
    assert Pick([Silent], {Audible}, 1, MAX_AD9833) == [];
    assert Pick([Silent], {Audible}, 0, MAX_AD9833) == [];
    assert Waiting(false) == {Active} && Waiting(true) == {Active, Silent};
    assert Pick([Silent], {Active}, 1, MAX_AD9833) == [];
    assert Pick([Silent], {Active}, 0, MAX_AD9833) == [];
    assert Pick([Silent], {Active, Silent}, 1, MAX_AD9833 - 1) == [];
    assert Pick([Silent], {Active, Silent}, 0, MAX_AD9833) == [0];
    assert Allocated([Silent], [])[0] == Silent;
    assert Allocated([Silent], [0])[0] == Audible;
  }

  /** With SILENT stations booked again, no channel stays idle while a
      station in range waits: a SILENT station after allocation means all
      four channels are booked. */
  lemma NoIdleChannelWhileWaiting(w: World)
    requires Inv(w)
    ensures var r := Allocate(w);
            forall i :: 0 <= i < |r.m.stations| && r.m.stations[i].stationState == Silent ==>
              forall k :: 0 <= k < MAX_AD9833 ==> r.m.assignment[k] != NO_STATION
  {
    AllocatedStates(w, true);
    AudibleKeptFirst(w, true);
  }

  /** Allocation leaves no ACTIVE station and as many AUDIBLE stations as
      channels booked. */
  lemma AllocatedCounts(st: seq<StationState>, promoteSilent: bool)
    ensures var b := Booking(st, promoteSilent);
            var st2 := Allocated(st, b);
            && (forall i :: 0 <= i < |st2| ==> st2[i] != Active)
            && CountFrom(st2, {Audible}, 0) == |b|
  {
    var b := Booking(st, promoteSilent);
    var st2 := Allocated(st, b);
    AudibleAreMembers(st2, b, 0);
    MembersBound(|st|, 0, b);
  }

  /** Once SILENT stations are booked again, allocation leaves a SILENT
      station only when every channel is booked. */
  lemma SilentOnlyWhenFull(st: seq<StationState>)
    ensures var b := Booking(st, true);
            forall i :: 0 <= i < |st| && Allocated(st, b)[i] == Silent ==> |b| == MAX_AD9833
  {
    var first := Pick(st, {Audible}, 0, MAX_AD9833);
    var second := Pick(st, Waiting(true), 0, MAX_AD9833 - |first|);
    var b := first + second;
    assert Booking(st, true) == b;
    var st2 := Allocated(st, b);
    forall i | 0 <= i < |st| && st2[i] == Silent
      ensures |b| == MAX_AD9833
    {
      assert i !in b;
      if st[i] == Audible {
        assert i !in first;
      } else {
        assert st[i] in Waiting(true) && i !in second;
      }
    }
  }

  /** What allocation leaves: no ACTIVE station, as many AUDIBLE stations
      as channels booked, and, once SILENT stations are booked again, a
      SILENT station only when every channel is booked. */
  lemma AllocatedFacts(st: seq<StationState>, promoteSilent: bool)
    ensures var b := Booking(st, promoteSilent);
            var st2 := Allocated(st, b);
            && (forall i :: 0 <= i < |st2| ==> st2[i] != Active)
            && CountFrom(st2, {Audible}, 0) == |b|
            && (promoteSilent ==> forall i :: 0 <= i < |st2| && st2[i] == Silent ==> |b| == MAX_AD9833)
  {
    AllocatedCounts(st, promoteSilent);
    if promoteSilent {
      SilentOnlyWhenFull(st);
    }
  }

  /** The booking over the states allocation leaves books exactly the
      AUDIBLE stations, so it leaves those states as they are. */
  lemma SettledStates(st: seq<StationState>, promoteSilent: bool)
    ensures var st2 := Allocated(st, Booking(st, promoteSilent));
            Allocated(st2, Booking(st2, promoteSilent)) == st2
  {
    var st2 := Allocated(st, Booking(st, promoteSilent));
    SettledBooking(st, promoteSilent);
    var first2 := Pick(st2, {Audible}, 0, MAX_AD9833);
    var st3 := Allocated(st2, first2);
    forall i | 0 <= i < |st2|
      ensures st3[i] == st2[i]
    {
      assert (i in first2) == (st2[i] == Audible);
    }
  }

  /** After one allocation the booking is exactly the AUDIBLE stations. */
  lemma SettledBooking(st: seq<StationState>, promoteSilent: bool)
    ensures var st2 := Allocated(st, Booking(st, promoteSilent));
            var first2 := Pick(st2, {Audible}, 0, MAX_AD9833);
            && Booking(st2, promoteSilent) == first2
            && forall i :: 0 <= i < |st2| ==> (i in first2 <==> st2[i] == Audible)
  {
    var b := Booking(st, promoteSilent);
    AllocatedFacts(st, promoteSilent);
    BookingOfSettled(Allocated(st, b), |b|, promoteSilent);
  }

  /** States with no ACTIVE station, `n` AUDIBLE ones, and SILENT ones only
      when all four channels are taken (if SILENT stations are booked) book
      exactly their AUDIBLE stations. */
  lemma BookingOfSettled(st2: seq<StationState>, n: nat, promoteSilent: bool)
    requires n <= MAX_AD9833 && CountFrom(st2, {Audible}, 0) == n
    requires forall i :: 0 <= i < |st2| ==> st2[i] != Active
    requires promoteSilent ==> forall i :: 0 <= i < |st2| && st2[i] == Silent ==> n == MAX_AD9833
    ensures var first2 := Pick(st2, {Audible}, 0, MAX_AD9833);
            && Booking(st2, promoteSilent) == first2
            && forall i :: 0 <= i < |st2| ==> (i in first2 <==> st2[i] == Audible)
  {
    var first2 := Pick(st2, {Audible}, 0, MAX_AD9833);
    PickExactly(st2, {Audible}, MAX_AD9833);
    var room := MAX_AD9833 - |first2|;
    var second := Pick(st2, Waiting(promoteSilent), 0, room);
    if room != 0 {
      NoneWaiting(st2, promoteSilent);
    }
    PickNone(st2, Waiting(promoteSilent), 0, room);
    assert Booking(st2, promoteSilent) == first2 + second;
    assert first2 + second == first2;
  }

  /** Without ACTIVE stations, and without SILENT ones when those are booked
      too, no station is waiting for a channel. */
  lemma NoneWaiting(st: seq<StationState>, promoteSilent: bool)
    requires forall i :: 0 <= i < |st| ==> st[i] != Active
    requires promoteSilent ==> forall i :: 0 <= i < |st| ==> st[i] != Silent
    ensures forall k :: 0 <= k < |st| ==> st[k] !in Waiting(promoteSilent)
  {
  }

  /** A pass with room for all the stations it wants books exactly them. */
  lemma PickExactly(st: seq<StationState>, want: set<StationState>, room: nat)
    requires CountFrom(st, want, 0) <= room
    ensures var p := Pick(st, want, 0, room);
            && |p| == CountFrom(st, want, 0)
            && forall i :: 0 <= i < |st| ==> (i in p <==> st[i] in want)
  {
    var p := Pick(st, want, 0, room);
    PickAll(st, want, 0, room);
    forall i | 0 <= i < |st| && i in p
      ensures st[i] in want
    {
      var a :| 0 <= a < |p| && p[a] == i;
    }
  }

  /** Allocation settles: allocating again with nothing changed in between
      changes no station and releases nothing. */
  lemma AllocationSettles(w: World, promoteSilent: bool)
    requires Inv(w)
    ensures var r := AllocateWith(w, promoteSilent);
            var r2 := AllocateWith(r, promoteSilent);
            r2.m.stations == r.m.stations && r2.pool == r.pool
  {
    var st := States(w.m.stations);
    var r := AllocateWith(w, promoteSilent);
    AllocatedStates(w, promoteSilent);
    SettledStates(st, promoteSilent);
    AllocatedStates(r, promoteSilent);
  }

  // ---------------------------------------------------------------------
  // updateStationStates

  /** The lookahead for a station `diff` hertz from the dial: the full range
      ahead of the direction of tuning, half of it behind, 8 kHz below the
      dial while tuning down, and the full range both ways when stopped. */
  function EffectiveLookahead(direction: int, diff: int, cfg: Config): nat {
    if direction > 0 then (if diff > 0 then cfg.lookahead else cfg.lookahead / 2)
    else if direction < 0 then (if diff < 0 then DOWN_LOOKAHEAD else cfg.lookahead / 2)
    else cfg.lookahead
  }

  /** The state `updateStationStates` gives one station. */
  function ProximityState(tx: Tx, vfo: nat, direction: int, cfg: Config): StationState {
    if !tx.active then tx.stationState
    else
      var diff := I32(DialOf(tx) - vfo);
      var d := Distance(DialOf(tx), vfo);
      if d <= cfg.audible then (if tx.stationState == Dormant then Active else tx.stationState)
      else if d > EffectiveLookahead(direction, diff, cfg) then Dormant
      else if tx.stationState == Dormant then Active
      else tx.stationState
  }

  /** `updateStationStates(vfo)`. */
  function UpdateStationStates(w: World, vfo: nat, cfg: Config): (r: World)
    requires Inv(w)
    ensures Inv(r) && r.m == w.m.(stations := r.m.stations) && r.lastRealloc == w.lastRealloc
    ensures |r.m.stations| == |w.m.stations|
    ensures forall i :: 0 <= i < |w.m.stations| ==>
              r.m.stations[i].stationState == ProximityState(w.m.stations[i], vfo, w.m.direction, cfg)
  {
    var ss := w.m.stations;
    var ts := seq(|ss|, i requires 0 <= i < |ss| => ProximityState(ss[i], vfo, w.m.direction, cfg));
    var a := ApplyStates(ss, w.pool, ts, 0);
    World(w.m.(stations := a.0), a.1, w.lastRealloc)
  }

  /** A station is in range when it is within the audible range or the
      effective lookahead. */
  predicate InRange(tx: Tx, vfo: nat, direction: int, cfg: Config) {
    var d := Distance(DialOf(tx), vfo);
    d <= cfg.audible || d <= EffectiveLookahead(direction, I32(DialOf(tx) - vfo), cfg)
  }

  /** What the proximity pass means: stations whose carrier is off are
      skipped; of the others, exactly those out of range are DORMANT
      afterwards; it never makes a station AUDIBLE or SILENT; and it releases
      a generator only from an AUDIBLE station that went out of range. */
  lemma ProximityRules(w: World, vfo: nat, cfg: Config)
    requires Inv(w)
    ensures var r := UpdateStationStates(w, vfo, cfg);
            forall i :: 0 <= i < |w.m.stations| ==>
              var before := w.m.stations[i];
              var after := r.m.stations[i];
              && (!before.active ==> after == before)
              && (before.active ==> (after.stationState == Dormant <==> !InRange(before, vfo, w.m.direction, cfg)))
              && (after.stationState in {Audible, Silent} ==> after.stationState == before.stationState)
              && (after.lease != before.lease ==>
                    before.stationState == Audible && !InRange(before, vfo, w.m.direction, cfg))
  {
  }

  /** The lookahead leans into the direction of tuning: with the lookahead
      range at least twice the audible range, a station a distance between
      half the range and the whole range from the dial is kept above the dial
      but put to sleep below it while tuning up, and the other way round
      while tuning down. */
  lemma LookaheadLeansAhead(cfg: Config, vfo: nat, d: nat)
    requires cfg.lookahead / 2 < d <= cfg.lookahead && cfg.audible < d && d < DOWN_LOOKAHEAD
    requires d <= vfo && vfo + d < 0x8000_0000
    ensures var above := I32((vfo + d) - vfo);
            var below := I32((vfo - d) - vfo);
            && d <= EffectiveLookahead(1, above, cfg) && d > EffectiveLookahead(1, below, cfg)
            && d > EffectiveLookahead(-1, above, cfg) && d <= EffectiveLookahead(-1, below, cfg)
  {
  }

  // ---------------------------------------------------------------------
  // canInterruptStation, findDormantStation, getActiveStationCount

  /** Whether a station in state `s`, `d` hertz from the dial, may be
      relocated: DORMANT and SILENT ones always, ACTIVE ones beyond twice the
      audible range, AUDIBLE ones beyond the audible range. */
  function CanInterrupt(s: StationState, d: nat, cfg: Config): bool {
    match s
    case Dormant => true
    case Silent => true
    case Active => d > cfg.audible * 2
    case Audible => d > cfg.audible
  }

  /** `canInterruptStation(idx, vfo)`: false for an index out of range. */
  function CanInterruptStation(m: Manager, idx: int, vfo: nat, cfg: Config): (b: bool)
    ensures b ==> 0 <= idx < |m.stations|
    ensures b ==> Distance(DialOf(m.stations[idx]), vfo) > cfg.audible || m.stations[idx].stationState in {Dormant, Silent}
  {
    0 <= idx < |m.stations| && CanInterrupt(m.stations[idx].stationState, Distance(DialOf(m.stations[idx]), vfo), cfg)
  }

  /** The farther a station is, the more freely it may be relocated: a
      station interruptible at one distance is interruptible at any greater
      one, and an AUDIBLE station's bar is never above an ACTIVE one's. */
  lemma InterruptMonotone(s: StationState, d: nat, e: nat, cfg: Config)
    requires d <= e && CanInterrupt(s, d, cfg)
    ensures CanInterrupt(s, e, cfg)
    ensures CanInterrupt(Active, d, cfg) ==> CanInterrupt(Audible, d, cfg)
  {
  }

  /** `findDormantStation()` from index `i` on: the first DORMANT station, or NO_STATION. */
  function FindDormantFrom(ss: seq<Tx>, i: nat): (r: int)
    requires i <= |ss|
    ensures r == NO_STATION <==> forall k :: i <= k < |ss| ==> ss[k].stationState != Dormant
    ensures r != NO_STATION ==>
              (i <= r < |ss| && ss[r].stationState == Dormant && forall k :: i <= k < r ==> ss[k].stationState != Dormant)
    decreases |ss| - i
  {
    if i == |ss| then NO_STATION
    else if ss[i].stationState == Dormant then i
    else FindDormantFrom(ss, i + 1)
  }

  function FindDormantStation(m: Manager): (r: int)
    ensures r == NO_STATION <==> forall k :: 0 <= k < |m.stations| ==> m.stations[k].stationState != Dormant
    ensures r != NO_STATION ==>
              (0 <= r < |m.stations| && m.stations[r].stationState == Dormant
               && forall k :: 0 <= k < r ==> m.stations[k].stationState != Dormant)
  {
    FindDormantFrom(m.stations, 0)
  }

  /** `getActiveStationCount()` over the stations from index `i` on. */
  function ActiveCountFrom(ss: seq<Tx>, i: nat): (n: nat)
    requires i <= |ss|
    ensures n <= |ss| - i
    ensures n == 0 <==> forall k :: i <= k < |ss| ==> !ss[k].active
    ensures n == |ss| - i <==> forall k :: i <= k < |ss| ==> ss[k].active
    decreases |ss| - i
  {
    if i == |ss| then 0 else (if ss[i].active then 1 else 0) + ActiveCountFrom(ss, i + 1)
  }

  function ActiveStationCount(m: Manager): (n: nat)
    ensures n <= |m.stations|
    ensures n == 0 <==> forall k :: 0 <= k < |m.stations| ==> !m.stations[k].active
    ensures n == |m.stations| <==> forall k :: 0 <= k < |m.stations| ==> m.stations[k].active
  {
    ActiveCountFrom(m.stations, 0)
  }

  // ---------------------------------------------------------------------
  // activateStation, deactivateStation

  /** `activateStation(idx, freq)`: reinitialize at the frequency, carrier
      flag on, ACTIVE; nothing for an index out of range. */
  function ActivateStation(w: World, idx: int, freq: nat): (r: World)
    requires Inv(w)
    ensures Inv(r) && r.m == w.m.(stations := r.m.stations) && |r.m.stations| == |w.m.stations|
    ensures !(0 <= idx < |w.m.stations|) ==> r == w
    ensures 0 <= idx < |w.m.stations| ==>
              var t := r.m.stations[idx];
              t.active && t.stationState == Active && t.fixedFreq == freq as real && !t.lease.Holds()
              && r.pool == End(w.m.stations[idx].lease, w.pool).pool
              && forall k :: 0 <= k < |w.m.stations| && k != idx ==> r.m.stations[k] == w.m.stations[k]
  {
    if 0 <= idx < |w.m.stations| then
      var t := Reinitialize(w.m.stations[idx], w.pool, freq as real).0;
      ReplaceKeepsSound(w.m.stations, w.pool, idx, t.tx.(active := true), t.pool);
      World(w.m.(stations := w.m.stations[idx := t.tx.(active := true)]), t.pool, w.lastRealloc)
    else w
  }

  /** The first channel booked for `idx` cleared. */
  function Unbook(a: seq<int>, idx: int): (r: seq<int>)
    ensures |r| == |a|
    ensures idx !in a ==> r == a
    ensures idx in a ==> exists k :: 0 <= k < |a| && a[k] == idx && r == a[k := NO_STATION]
                                     && forall l :: 0 <= l < k ==> a[l] != idx
  {
    if a == [] then []
    else if a[0] == idx then [NO_STATION] + a[1..]
    else
      var t := Unbook(a[1..], idx);
      assert idx in a[1..] ==> exists k :: 0 <= k < |a[1..]| && a[1..][k] == idx && t == a[1..][k := NO_STATION]
                                             && forall l :: 0 <= l < k ==> a[1..][l] != idx;
      if idx in a[1..] then
        var k :| 0 <= k < |a[1..]| && a[1..][k] == idx && t == a[1..][k := NO_STATION] && forall l :: 0 <= l < k ==> a[1..][l] != idx;
        assert [a[0]] + t == a[k + 1 := NO_STATION];
        [a[0]] + t
      else [a[0]] + t
  }

  /** `deactivateStation(idx)`: carrier flag off, DORMANT (an AUDIBLE
      station gives its generator back), and its channel unbooked. */
  function DeactivateStation(w: World, idx: int): (r: World)
    requires Inv(w)
    ensures Inv(r) && |r.m.stations| == |w.m.stations|
    ensures !(0 <= idx < |w.m.stations|) ==> r == w
    ensures 0 <= idx < |w.m.stations| ==>
              var t := r.m.stations[idx];
              !t.active && t.stationState == Dormant && (w.m.stations[idx].stationState == Audible ==> !t.lease.Holds())
              && (idx !in w.m.assignment ==> r.m.assignment == w.m.assignment)
              && forall k :: 0 <= k < |w.m.stations| && k != idx ==> r.m.stations[k] == w.m.stations[k]
  {
    if 0 <= idx < |w.m.stations| then
      var t := SetStationState(SetActiveFlag(w.m.stations[idx], false), w.pool, Dormant);
      ReplaceKeepsSound(w.m.stations, w.pool, idx, t.tx, t.pool);
      World(w.m.(stations := w.m.stations[idx := t.tx], assignment := Unbook(w.m.assignment, idx)), t.pool, w.lastRealloc)
    else w
  }

  // ---------------------------------------------------------------------
  // reallocateStations

  /** A station far enough away to be relocated, with its distance from the dial. */
  datatype Candidate = Candidate(index: nat, distance: nat)

  /** A station `d` hertz from the dial, beyond the lookahead range, that may be interrupted. */
  predicate Movable(s: StationState, d: nat, cfg: Config) {
    d > cfg.lookahead && CanInterrupt(s, d, cfg)
  }

  /** Every station's distance from the dial. */
  function Distances(ss: seq<Tx>, vfo: nat): (ds: seq<nat>)
    ensures |ds| == |ss| && forall i :: 0 <= i < |ss| ==> ds[i] == Distance(DialOf(ss[i]), vfo)
  {
    seq(|ss|, i requires 0 <= i < |ss| => Distance(DialOf(ss[i]), vfo))
  }

  function Indices(c: seq<Candidate>): (x: seq<nat>)
    ensures |x| == |c| && forall a :: 0 <= a < |c| ==> x[a] == c[a].index
  {
    seq(|c|, a requires 0 <= a < |c| => c[a].index)
  }

  /** The movable stations from index `i` on, in index order, with their distances. */
  function Candidates(st: seq<StationState>, ds: seq<nat>, cfg: Config, i: nat): (c: seq<Candidate>)
    requires |st| == |ds| && i <= |st|
    ensures forall a :: 0 <= a < |c| ==>
              i <= c[a].index < |st| && c[a].distance == ds[c[a].index] && Movable(st[c[a].index], c[a].distance, cfg)
    ensures forall a, b :: 0 <= a < b < |c| ==> c[a].index < c[b].index
    ensures forall k :: i <= k < |st| && Movable(st[k], ds[k], cfg) ==> k in Indices(c)
    decreases |st| - i
  {
    if i == |st| then []
    else
      var rest := Candidates(st, ds, cfg, i + 1);
      if Movable(st[i], ds[i], cfg) then
        var c := [Candidate(i, ds[i])] + rest;
        assert Indices(c) == [i] + Indices(rest);
        c
      else rest
  }

  /** The sorted candidates name distinct movable stations. */
  lemma SortedCandidates(st: seq<StationState>, ds: seq<nat>, cfg: Config)
    requires |st| == |ds|
    ensures var sorted := SortFurthestFirst(Candidates(st, ds, cfg, 0));
            && DistinctIndices(sorted)
            && forall a :: 0 <= a < |sorted| ==>
                 sorted[a].index < |st| && sorted[a].distance == ds[sorted[a].index]
                 && Movable(st[sorted[a].index], sorted[a].distance, cfg)
  {
    var c := Candidates(st, ds, cfg, 0);
    var sorted := SortFurthestFirst(c);
    forall a, b | 0 <= a < |c| && 0 <= b < |c| && a != b
      ensures c[a].index != c[b].index
    {
      if a < b {
        assert c[a].index < c[b].index;
      } else {
        assert c[b].index < c[a].index;
      }
    }
    forall a | 0 <= a < |sorted|
      ensures sorted[a].index < |st| && sorted[a].distance == ds[sorted[a].index]
              && Movable(st[sorted[a].index], sorted[a].distance, cfg)
    {
      assert sorted[a] in multiset(c);
      var j :| 0 <= j < |c| && c[j] == sorted[a];
    }
  }

  predicate DistinctIndices(c: seq<Candidate>) {
    forall a, b :: 0 <= a < |c| && 0 <= b < |c| && a != b ==> c[a].index != c[b].index
  }

  /** Every candidate before position `i` is at least as far as every one from `i` on. */
  predicate Dominates(c: seq<Candidate>, i: nat) {
    forall a, b :: 0 <= a < i <= b < |c| ==> c[a].distance >= c[b].distance
  }

  predicate SortedPrefix(c: seq<Candidate>, i: nat) {
    forall a, b :: 0 <= a < b < i && b < |c| ==> c[a].distance >= c[b].distance
  }

  /** One comparison of the exchange sort: the farther of positions `i` and `j` moves to `i`. */
  function SwapIfNearer(c: seq<Candidate>, i: nat, j: nat): (r: seq<Candidate>)
    requires i < j < |c|
    ensures |r| == |c| && multiset(r) == multiset(c)
    ensures r[i].distance >= c[i].distance && r[i].distance >= r[j].distance
    ensures (r[i] == c[i] && r[j] == c[j]) || (r[i] == c[j] && r[j] == c[i])
    ensures forall k :: 0 <= k < |c| && k != i && k != j ==> r[k] == c[k]
  {
    if c[i].distance < c[j].distance then c[i := c[j]][j := c[i]] else c
  }

  /** The inner loop of the exchange sort for position `i`, from `j` on. */
  function InnerPass(c: seq<Candidate>, i: nat, j: nat): (r: seq<Candidate>)
    requires i < j <= |c|
    requires forall k :: i < k < j ==> c[i].distance >= c[k].distance
    ensures |r| == |c| && multiset(r) == multiset(c)
    ensures forall k :: 0 <= k < i ==> r[k] == c[k]
    ensures forall k :: i < k < |r| ==> r[i].distance >= r[k].distance
    ensures Dominates(c, i) ==> Dominates(r, i)
    ensures DistinctIndices(c) ==> DistinctIndices(r)
    decreases |c| - j
  {
    if j == |c| then c
    else
      var s := SwapIfNearer(c, i, j);
      SwapKeepsDistinct(c, i, j);
      SwapKeepsDominance(c, i, j);
      InnerPass(s, i, j + 1)
  }

  /** An exchange at or after position `i` keeps the candidates before `i`
      at least as far as those after. */
  lemma SwapKeepsDominance(c: seq<Candidate>, i: nat, j: nat)
    requires i < j < |c|
    ensures Dominates(c, i) ==> Dominates(SwapIfNearer(c, i, j), i)
  {
    var s := SwapIfNearer(c, i, j);
    if Dominates(c, i) {
      forall a, b | 0 <= a < i <= b < |s|
        ensures s[a].distance >= s[b].distance
      {
        var b' := if b == i && s[i] == c[j] then j else if b == j && s[i] == c[j] then i else b;
        assert s[a] == c[a] && s[b] == c[b'];
      }
    }
  }

  /** An exchange keeps the candidates' station indices distinct. */
  lemma SwapKeepsDistinct(c: seq<Candidate>, i: nat, j: nat)
    requires i < j < |c|
    ensures DistinctIndices(c) ==> DistinctIndices(SwapIfNearer(c, i, j))
  {
    var s := SwapIfNearer(c, i, j);
    if DistinctIndices(c) {
      forall a, b | 0 <= a < |s| && 0 <= b < |s| && a != b
        ensures s[a].index != s[b].index
      {
        var a' := if a == i && s[i] == c[j] then j else if a == j && s[i] == c[j] then i else a;
        var b' := if b == i && s[i] == c[j] then j else if b == j && s[i] == c[j] then i else b;
        assert s[a] == c[a'] && s[b] == c[b'];
      }
    }
  }

  /** The outer loop of the exchange sort, from position `i` on. */
  function OuterPass(c: seq<Candidate>, i: nat): (r: seq<Candidate>)
    requires i <= |c| && SortedPrefix(c, i) && Dominates(c, i)
    ensures |r| == |c| && multiset(r) == multiset(c)
    ensures forall a, b :: 0 <= a < b < |r| ==> r[a].distance >= r[b].distance
    ensures DistinctIndices(c) ==> DistinctIndices(r)
    decreases |c| - i
  {
    if i + 1 >= |c| then c
    else
      var s := InnerPass(c, i, i + 1);
      OuterPass(s, i + 1)
  }

  /** The candidates sorted furthest first, as the source's exchange sort does. */
  function SortFurthestFirst(c: seq<Candidate>): (r: seq<Candidate>)
    ensures |r| == |c| && multiset(r) == multiset(c)
    ensures forall a, b :: 0 <= a < b < |r| ==> r[a].distance >= r[b].distance
    ensures DistinctIndices(c) ==> DistinctIndices(r)
  {
    OuterPass(c, 0)
  }

  /** Where the k-th relocated station goes, as written: ahead of the dial
      when tuning up, behind it when tuning down, in 32-bit unsigned
      arithmetic, then raised to the floor. */
  function TargetAsWritten(direction: int, vfo: nat, k: nat): (f: nat)
    ensures MIN_RELOCATION_FREQ <= f < U32_MOD
  {
    var raw := if direction > 0 then U32(vfo + UP_FIRST_OFFSET + k * UP_SPACING)
               else U32(vfo - DOWN_FIRST_OFFSET - k * DOWN_SPACING);
    if raw < MIN_RELOCATION_FREQ then MIN_RELOCATION_FREQ else raw
  }

  /** Where the k-th relocated station goes: the same offsets, computed
      without wrapping and held between the floor and the top of the dial. */
  function Target(direction: int, vfo: nat, k: nat): (f: nat)
    requires IsU32(vfo)
    ensures MIN_RELOCATION_FREQ <= f <= U32_MAX
    ensures direction > 0 ==> f == U32_MAX || f == vfo + UP_FIRST_OFFSET + k * UP_SPACING
                              || (f == MIN_RELOCATION_FREQ && vfo + UP_FIRST_OFFSET + k * UP_SPACING < MIN_RELOCATION_FREQ)
    ensures direction <= 0 ==> f == MIN_RELOCATION_FREQ || f + DOWN_FIRST_OFFSET + k * DOWN_SPACING == vfo
  {
    var raw := if direction > 0 then vfo + UP_FIRST_OFFSET + k * UP_SPACING
               else vfo - DOWN_FIRST_OFFSET - k * DOWN_SPACING;
    if raw < MIN_RELOCATION_FREQ then MIN_RELOCATION_FREQ else if raw > U32_MAX then U32_MAX else raw
  }

  /** Tuning down near the bottom of the dial, the target wraps past zero to
      the top of the 32-bit range, and the floor check does not catch it. */
  lemma TargetWrapsAsWritten()
    ensures TargetAsWritten(-1, 1000, 0) == 4294962596
    ensures Target(-1, 1000, 0) == MIN_RELOCATION_FREQ
  {
  }

  /** Both targets agree wherever the arithmetic does not wrap. */
  lemma TargetsAgreeWithoutWrap(direction: int, vfo: nat, k: nat)
    requires IsU32(vfo)
    requires direction > 0 ==> vfo + UP_FIRST_OFFSET + k * UP_SPACING <= U32_MAX
    requires direction <= 0 ==> vfo >= DOWN_FIRST_OFFSET + k * DOWN_SPACING
    ensures TargetAsWritten(direction, vfo, k) == Target(direction, vfo, k)
  {
  }

  /** The relocated stations: a station is moved when it is among the first
      `limit` of the sorted candidates. */
  function MoveFrom(ss: seq<Tx>, pool: WaveGenPool, c: seq<Candidate>, k: nat, limit: int,
                    direction: int, vfo: nat, wrapping: bool): (r: (seq<Tx>, WaveGenPool))
    requires Sound(ss, pool) && k <= |c| && DistinctIndices(c) && IsU32(vfo)
    requires forall a :: 0 <= a < |c| ==> c[a].index < |ss|
    ensures Sound(r.0, r.1) && |r.0| == |ss|
    ensures forall a :: k <= a < |c| && a < limit ==>
              var t := r.0[c[a].index];
              var f := if wrapping then TargetAsWritten(direction, vfo, a) else Target(direction, vfo, a);
              && t.fixedFreq == f as real && t.stationState == Active && !t.active && !t.enabled
              && t.frequency == 0.0 && !t.lease.Holds()
    ensures forall j :: 0 <= j < |ss| && (forall a :: k <= a < |c| && a < limit ==> c[a].index != j) ==> r.0[j] == ss[j]
    decreases |c| - k
  {
    if k == |c| || k >= limit then (ss, pool)
    else
      var i := c[k].index;
      var f := if wrapping then TargetAsWritten(direction, vfo, k) else Target(direction, vfo, k);
      var t := Reinitialize(ss[i], pool, f as real).0;
      ReplaceKeepsSound(ss, pool, i, t.tx, t.pool);
      MoveFrom(ss[i := t.tx], t.pool, c, k + 1, limit, direction, vfo, wrapping)
  }

  /** The candidates of a relocation, furthest first. */
  function Sorted(ss: seq<Tx>, vfo: nat, cfg: Config): seq<Candidate> {
    SortFurthestFirst(Candidates(States(ss), Distances(ss, vfo), cfg, 0))
  }

  /** How many stations a relocation moves: every candidate, but no more
      than all stations but one. */
  function MoveCount(candidates: nat, stations: nat): (n: nat)
    ensures n <= candidates && (stations >= 1 ==> n <= stations - 1)
    ensures stations >= 1 ==> n == candidates || n + 1 == stations
  {
    if stations == 0 then 0 else if candidates < stations - 1 then candidates else stations - 1
  }

  /** Relocating the sorted candidates of a station list. */
  function MoveSorted(ss: seq<Tx>, pool: WaveGenPool, vfo: nat, cfg: Config, direction: int, wrapping: bool)
    : (r: (seq<Tx>, WaveGenPool))
    requires Sound(ss, pool) && IsU32(vfo)
    ensures Sound(r.0, r.1) && |r.0| == |ss|
  {
    SortedCandidates(States(ss), Distances(ss, vfo), cfg);
    MoveFrom(ss, pool, Sorted(ss, vfo, cfg), 0, |ss| - 1, direction, vfo, wrapping)
  }

  /** `reallocateStations(vfo)`: nothing while not tuning; otherwise the
      interruptible stations beyond the lookahead range are moved furthest
      first, all but one station at most. Also returns the moved stations'
      indices, in the order moved, which the source then re-randomizes. */
  function ReallocateWith(w: World, vfo: nat, cfg: Config, wrapping: bool): (r: (World, seq<nat>))
    requires Inv(w) && IsU32(vfo)
    ensures Inv(r.0) && r.0.m == w.m.(stations := r.0.m.stations) && r.0.lastRealloc == w.lastRealloc
    ensures |r.0.m.stations| == |w.m.stations|
    ensures w.m.direction == 0 ==> r.0 == w && r.1 == []
  {
    if w.m.direction == 0 then (w, [])
    else
      var mv := MoveSorted(w.m.stations, w.pool, vfo, cfg, w.m.direction, wrapping);
      var sorted := Sorted(w.m.stations, vfo, cfg);
      (World(w.m.(stations := mv.0), mv.1, w.lastRealloc),
       Indices(sorted)[..MoveCount(|sorted|, |w.m.stations|)])
  }

  function ReallocateAsWritten(w: World, vfo: nat, cfg: Config): (r: (World, seq<nat>))
    requires Inv(w) && IsU32(vfo)
    ensures Inv(r.0)
  {
    ReallocateWith(w, vfo, cfg, true)
  }

  function Reallocate(w: World, vfo: nat, cfg: Config): (r: (World, seq<nat>))
    requires Inv(w) && IsU32(vfo)
    ensures Inv(r.0)
  {
    ReallocateWith(w, vfo, cfg, false)
  }

  /** The target of the `a`-th relocated station, as written or corrected. */
  function TargetWith(wrapping: bool, direction: int, vfo: nat, a: nat): nat
    requires IsU32(vfo)
  {
    if wrapping then TargetAsWritten(direction, vfo, a) else Target(direction, vfo, a)
  }

  /** While tuning, the `a`-th moved station is reinitialized to the `a`-th
      target: re-armed (ACTIVE), carrier off, generator released; every
      station not moved is left exactly as it was. */
  lemma RelocationTargets(w: World, vfo: nat, cfg: Config, wrapping: bool)
    requires Inv(w) && IsU32(vfo) && w.m.direction != 0
    ensures var r := ReallocateWith(w, vfo, cfg, wrapping);
            var moved := r.1;
            && (forall a :: 0 <= a < |moved| ==>
                  moved[a] < |w.m.stations|
                  && var t := r.0.m.stations[moved[a]];
                     && t.fixedFreq == TargetWith(wrapping, w.m.direction, vfo, a) as real
                     && t.stationState == Active && !t.active && !t.lease.Holds())
            && (forall j :: 0 <= j < |w.m.stations| && j !in moved ==> r.0.m.stations[j] == w.m.stations[j])
  {
    var ss := w.m.stations;
    SortedCandidates(States(ss), Distances(ss, vfo), cfg);
    var sorted := Sorted(ss, vfo, cfg);
    var mv := MoveFrom(ss, w.pool, sorted, 0, |ss| - 1, w.m.direction, vfo, wrapping);
    var moved := Indices(sorted)[..MoveCount(|sorted|, |ss|)];
    assert mv == MoveSorted(ss, w.pool, vfo, cfg, w.m.direction, wrapping);
    assert ReallocateWith(w, vfo, cfg, wrapping).0.m.stations == mv.0;
    assert ReallocateWith(w, vfo, cfg, wrapping).1 == moved;
    MoveFromPlaces(ss, w.pool, sorted, w.m.direction, vfo, wrapping);
  }

  /** Moving a list of candidates, as many as `MoveCount` allows, places the
      `a`-th moved station at the `a`-th target and leaves the rest alone. */
  lemma MoveFromPlaces(ss: seq<Tx>, pool: WaveGenPool, sorted: seq<Candidate>, direction: int, vfo: nat, wrapping: bool)
    requires Sound(ss, pool) && DistinctIndices(sorted) && IsU32(vfo)
    requires forall a :: 0 <= a < |sorted| ==> sorted[a].index < |ss|
    ensures var mv := MoveFrom(ss, pool, sorted, 0, |ss| - 1, direction, vfo, wrapping);
            var moved := Indices(sorted)[..MoveCount(|sorted|, |ss|)];
            && (forall a :: 0 <= a < |moved| ==>
                  moved[a] < |ss|
                  && var t := mv.0[moved[a]];
                     && t.fixedFreq == TargetWith(wrapping, direction, vfo, a) as real
                     && t.stationState == Active && !t.active && !t.lease.Holds())
            && (forall j :: 0 <= j < |ss| && j !in moved ==> mv.0[j] == ss[j])
  {
    var mv := MoveFrom(ss, pool, sorted, 0, |ss| - 1, direction, vfo, wrapping);
    var n := MoveCount(|sorted|, |ss|);
    var moved := Indices(sorted)[..n];
    forall a | 0 <= a < |moved|
      ensures moved[a] == sorted[a].index && a < |sorted| && a < |ss| - 1
    {
    }
    forall j | 0 <= j < |ss| && j !in moved
      ensures mv.0[j] == ss[j]
    {
      forall a | 0 <= a < |sorted| && a < |ss| - 1
        ensures sorted[a].index != j
      {
        assert a < n;
        assert moved[a] == sorted[a].index;
      }
    }
  }

  /** The choice of stations to move, over their states and distances:
      the first of the sorted candidates, within the budget. */
  function Chosen(st: seq<StationState>, ds: seq<nat>, cfg: Config): (moved: seq<nat>)
    requires |st| == |ds|
    ensures forall a :: 0 <= a < |moved| ==> moved[a] < |st|
    ensures |st| >= 1 ==> |moved| < |st|
  {
    SortedCandidates(st, ds, cfg);
    var sorted := SortFurthestFirst(Candidates(st, ds, cfg, 0));
    Indices(sorted)[..MoveCount(|sorted|, |st|)]
  }

  /** A candidate left out of the first `n` of the sorted list is no
      farther away than any of them, and so the list is longer than `n`. */
  lemma SortedLeavesNearer(c: seq<Candidate>, n: nat, x: nat)
    requires n <= |c| && x < |c| && c[x].index !in Indices(SortFurthestFirst(c))[..n]
    ensures var sorted := SortFurthestFirst(c);
            n < |c| && forall a :: 0 <= a < n ==> sorted[a].distance >= c[x].distance
  {
    var sorted := SortFurthestFirst(c);
    assert c[x] in multiset(sorted);
    var y :| 0 <= y < |sorted| && sorted[y] == c[x];
    assert forall a :: 0 <= a < n ==> Indices(sorted)[..n][a] == sorted[a].index;
  }

  /** The choice takes movable stations only, each once, furthest first,
      and never all of them. */
  lemma ChoiceMovable(st: seq<StationState>, ds: seq<nat>, cfg: Config)
    requires |st| == |ds|
    ensures var moved := Chosen(st, ds, cfg);
            && (forall a :: 0 <= a < |moved| ==> moved[a] < |st| && Movable(st[moved[a]], ds[moved[a]], cfg))
            && (forall a, b :: 0 <= a < b < |moved| ==> moved[a] != moved[b] && ds[moved[a]] >= ds[moved[b]])
            && (|st| >= 1 ==> |moved| < |st|)
  {
    SortedCandidates(st, ds, cfg);
    var sorted := SortFurthestFirst(Candidates(st, ds, cfg, 0));
    var moved := Chosen(st, ds, cfg);
    forall a | 0 <= a < |moved|
      ensures moved[a] == sorted[a].index
    {
    }
  }

  /** The choice skips a movable station only once the budget of all
      stations but one is spent, and only for stations at least as far away. */
  lemma ChoiceSkipsOnlyNearer(st: seq<StationState>, ds: seq<nat>, cfg: Config)
    requires |st| == |ds|
    ensures var moved := Chosen(st, ds, cfg);
            forall j :: 0 <= j < |st| && j !in moved && Movable(st[j], ds[j], cfg) ==>
              |moved| + 1 == |st| && forall a :: 0 <= a < |moved| ==> ds[j] <= ds[moved[a]]
  {
    SortedCandidates(st, ds, cfg);
    var c := Candidates(st, ds, cfg, 0);
    var sorted := SortFurthestFirst(c);
    var n := MoveCount(|sorted|, |st|);
    var moved := Chosen(st, ds, cfg);
    forall j | 0 <= j < |st| && j !in moved && Movable(st[j], ds[j], cfg)
      ensures |moved| + 1 == |st| && forall a :: 0 <= a < |moved| ==> ds[j] <= ds[moved[a]]
    {
      assert j in Indices(c);
      var x :| 0 <= x < |c| && c[x].index == j;
      SortedLeavesNearer(c, n, x);
      forall a | 0 <= a < |moved|
        ensures ds[j] <= ds[moved[a]]
      {
        assert moved[a] == sorted[a].index;
      }
    }
  }

  /** While tuning, the relocation moves only stations beyond the lookahead
      range that may be interrupted, each at most once, furthest first, and
      never all of them; a movable station is left in place only when the
      budget of all stations but one is spent, and then it is no farther
      away than any station moved. */
  lemma RelocationChoosesFurthest(w: World, vfo: nat, cfg: Config, wrapping: bool)
    requires Inv(w) && IsU32(vfo) && w.m.direction != 0
    ensures var moved := ReallocateWith(w, vfo, cfg, wrapping).1;
            var ss := w.m.stations;
            var ds := Distances(ss, vfo);
            && (forall a :: 0 <= a < |moved| ==> moved[a] < |ss| && Movable(ss[moved[a]].stationState, ds[moved[a]], cfg))
            && (forall a, b :: 0 <= a < b < |moved| ==> moved[a] != moved[b] && ds[moved[a]] >= ds[moved[b]])
            && (|ss| >= 1 ==> |moved| < |ss|)
            && (forall j :: 0 <= j < |ss| && j !in moved && Movable(ss[j].stationState, ds[j], cfg) ==>
                  |moved| + 1 == |ss| && forall a :: 0 <= a < |moved| ==> ds[j] <= ds[moved[a]])
  {
    var ss := w.m.stations;
    var st := States(ss);
    assert ReallocateWith(w, vfo, cfg, wrapping).1 == Chosen(st, Distances(ss, vfo), cfg);
    ChoiceMovable(st, Distances(ss, vfo), cfg);
    ChoiceSkipsOnlyNearer(st, Distances(ss, vfo), cfg);
  }

  // ---------------------------------------------------------------------
  // Pipelining: calculateTuningDirection, updatePipeline, enableDynamicPipelining,
  // setupPipeline, recycleDormantStations, updateStations

  /** A dial change of more than this counts as tuning for `calculateTuningDirection`. */
  const DIRECTION_THRESHOLD: nat := 1000

  /** `calculateTuningDirection(current, last)`: up, down or still, from the
      32-bit signed difference of the two dial positions. */
  function TuningDirection(current: nat, last: nat): (d: int)
    ensures d in {-1, 0, 1}
  {
    var diff := I32(current - last);
    if diff > DIRECTION_THRESHOLD as int then 1 else if diff < -(DIRECTION_THRESHOLD as int) then -1 else 0
  }

  /** Below the signed 32-bit wrap, the direction is the side of the old
      position the dial moved to, by more than 1 kHz. */
  lemma TuningDirectionFollowsDial(current: nat, last: nat)
    requires current < 0x8000_0000 && last < 0x8000_0000
    ensures TuningDirection(current, last) == 1 <==> current > last + DIRECTION_THRESHOLD
    ensures TuningDirection(current, last) == -1 <==> current + DIRECTION_THRESHOLD < last
  {
  }

  /** The sign of a nonzero dial change. */
  function Sign(x: int): int {
    if x > 0 then 1 else -1
  }

  /** Whether a dial move from `last` to `vfo` is large enough to count as tuning. */
  predicate Significant(vfo: nat, last: nat, cfg: Config) {
    AbsI32(I32(vfo - last)) >= cfg.tuneDetect
  }

  /** Whether a tuning step at `now` to `vfo` triggers a relocation: the dial
      has drifted far enough from the pipeline center, and the last
      relocation is far enough back. */
  predicate Relocates(w: World, vfo: nat, now: nat, cfg: Config) {
    AbsI32(I32(vfo - w.m.centerFreq)) >= cfg.reallocThreshold && Elapsed(now, w.lastRealloc) > REALLOC_GAP_MS
  }

  /** The tuning state after a significant move to `vfo` at `now`. */
  function Retuned(w: World, vfo: nat, now: nat): (v: World)
    requires Inv(w) && IsU32(vfo)
    ensures Inv(v) && v.m.stations == w.m.stations && v.pool == w.pool && v.lastRealloc == w.lastRealloc
    ensures v.m.lastVfo == vfo && v.m.lastTuningTime == now && v.m.pipelineEnabled == w.m.pipelineEnabled
  {
    World(w.m.(direction := Sign(I32(vfo - w.m.lastVfo)), lastTuningTime := now, lastVfo := vfo), w.pool, w.lastRealloc)
  }

  /** A relocation at `vfo` and `now` that re-centers the pipeline there.
      Here and below, `asWritten` selects the source's 32-bit target
      arithmetic and booking (SILENT stations never rebooked); otherwise the
      corrected `Target` and `Allocate` are used. */
  function Recenter(v: World, vfo: nat, now: nat, cfg: Config, asWritten: bool): (r: (World, seq<nat>))
    requires Inv(v) && IsU32(vfo)
    ensures Inv(r.0) && |r.0.m.stations| == |v.m.stations|
    ensures r.0.m == v.m.(stations := r.0.m.stations, centerFreq := vfo) && r.0.lastRealloc == now
  {
    var re := ReallocateWith(v, vfo, cfg, asWritten);
    (World(re.0.m.(centerFreq := vfo), re.0.pool, now), re.1)
  }

  /** `updatePipeline(vfo)` at time `now`, returning the world and the
      indices of the stations relocated. */
  function UpdatePipeline(w: World, vfo: nat, now: nat, cfg: Config, asWritten: bool): (r: (World, seq<nat>))
    requires Inv(w) && IsU32(vfo)
    ensures Inv(r.0) && |r.0.m.stations| == |w.m.stations|
    ensures r.0.m.pipelineEnabled == w.m.pipelineEnabled && r.0.m.assignment == w.m.assignment
  {
    if !w.m.pipelineEnabled then (w, [])
    else if Significant(vfo, w.m.lastVfo, cfg) then
      var v := Retuned(w, vfo, now);
      if Relocates(w, vfo, now, cfg) then Recenter(v, vfo, now, cfg, asWritten)
      else (v, [])
    else if Elapsed(now, w.m.lastTuningTime) > SETTLE_MS then (World(w.m.(direction := 0), w.pool, w.lastRealloc), [])
    else (w, [])
  }

  /** The direction follows the dial: a significant move sets it to the side
      the dial moved to and records the position and time; without one, it
      drops to zero exactly when the last tuning is more than five seconds
      back, and the recorded position and time stay. With pipelining off
      nothing changes at all. */
  lemma PipelineTracksTuning(w: World, vfo: nat, now: nat, cfg: Config, asWritten: bool)
    requires Inv(w) && IsU32(vfo)
    ensures var r := UpdatePipeline(w, vfo, now, cfg, asWritten).0;
            && (!w.m.pipelineEnabled ==> r == w)
            && (w.m.pipelineEnabled && Significant(vfo, w.m.lastVfo, cfg) ==>
                  && r.m.direction == Sign(I32(vfo - w.m.lastVfo))
                  && r.m.lastVfo == vfo && r.m.lastTuningTime == now)
            && (w.m.pipelineEnabled && !Significant(vfo, w.m.lastVfo, cfg) ==>
                  && r.m.lastVfo == w.m.lastVfo && r.m.lastTuningTime == w.m.lastTuningTime
                  && (r.m.direction == 0 <==> w.m.direction == 0 || Elapsed(now, w.m.lastTuningTime) > SETTLE_MS)
                  && (r.m.direction != 0 ==> r.m.direction == w.m.direction))
  {
    if w.m.pipelineEnabled && Significant(vfo, w.m.lastVfo, cfg) {
      TracksSignificantMove(w, vfo, now, cfg, asWritten);
    } else if w.m.pipelineEnabled {
      TracksStillDial(w, vfo, now, cfg, asWritten);
    }
  }

  /** A significant move records the side, the position and the time,
      whether or not it also relocates. */
  lemma TracksSignificantMove(w: World, vfo: nat, now: nat, cfg: Config, asWritten: bool)
    requires Inv(w) && IsU32(vfo) && w.m.pipelineEnabled && Significant(vfo, w.m.lastVfo, cfg)
    ensures var r := UpdatePipeline(w, vfo, now, cfg, asWritten).0;
            && r.m.direction == Sign(I32(vfo - w.m.lastVfo))
            && r.m.lastVfo == vfo && r.m.lastTuningTime == now
  {
    var v := Retuned(w, vfo, now);
    if Relocates(w, vfo, now, cfg) {
      PipelineRelocatesVia(w, vfo, now, cfg, asWritten);
      RelocationKeepsTuning(v, vfo, now, cfg, asWritten);
    }
  }

  /** Without a significant move the position and time stay, and the
      direction drops to zero only after the settling time. */
  lemma TracksStillDial(w: World, vfo: nat, now: nat, cfg: Config, asWritten: bool)
    requires Inv(w) && IsU32(vfo) && w.m.pipelineEnabled && !Significant(vfo, w.m.lastVfo, cfg)
    ensures var r := UpdatePipeline(w, vfo, now, cfg, asWritten).0;
            && r.m.lastVfo == w.m.lastVfo && r.m.lastTuningTime == w.m.lastTuningTime
            && (r.m.direction == 0 <==> w.m.direction == 0 || Elapsed(now, w.m.lastTuningTime) > SETTLE_MS)
            && (r.m.direction != 0 ==> r.m.direction == w.m.direction)
  {
  }

  /** Relocation is rate-limited and moves the pipeline center: it happens
      only on a significant move that drifted far enough from the center,
      more than 200 ms after the previous one, and then the center and the
      relocation time are the dial and the present. Otherwise the stations,
      the pool, the center and the relocation time are untouched and nothing
      is reported moved. */
  lemma PipelineRelocationRule(w: World, vfo: nat, now: nat, cfg: Config, asWritten: bool)
    requires Inv(w) && IsU32(vfo)
    ensures var r := UpdatePipeline(w, vfo, now, cfg, asWritten);
            var relocating := w.m.pipelineEnabled && Significant(vfo, w.m.lastVfo, cfg) && Relocates(w, vfo, now, cfg);
            && (relocating ==> r.0.m.centerFreq == vfo && r.0.lastRealloc == now && r.0.m.direction != 0)
            && (!relocating ==>
                  && r.0.m.stations == w.m.stations && r.0.pool == w.pool && r.1 == []
                  && r.0.m.centerFreq == w.m.centerFreq && r.0.lastRealloc == w.lastRealloc)
  {
  }

  /** A relocation during tuning places the moved stations on the side the
      dial is moving to: the `a`-th at the `a`-th target for the new
      direction (the side of the move, by `PipelineTracksTuning`), re-armed
      and with the carrier off; every other station is left alone. */
  lemma PipelinePlacesAhead(w: World, vfo: nat, now: nat, cfg: Config, asWritten: bool)
    requires Inv(w) && IsU32(vfo) && w.m.pipelineEnabled
    requires Significant(vfo, w.m.lastVfo, cfg) && Relocates(w, vfo, now, cfg)
    ensures var r := UpdatePipeline(w, vfo, now, cfg, asWritten);
            && (forall a :: 0 <= a < |r.1| ==>
                  r.1[a] < |w.m.stations|
                  && var t := r.0.m.stations[r.1[a]];
                     t.fixedFreq == TargetWith(asWritten, r.0.m.direction, vfo, a) as real && t.stationState == Active && !t.active)
            && (forall j :: 0 <= j < |w.m.stations| && j !in r.1 ==> r.0.m.stations[j] == w.m.stations[j])
  {
    var v := Retuned(w, vfo, now);
    PipelineRelocatesVia(w, vfo, now, cfg, asWritten);
    RecenterPlaces(v, vfo, now, cfg, asWritten);
    RelocationKeepsTuning(v, vfo, now, cfg, asWritten);
  }

  /** A relocation changes the stations, the pool, the center and the
      relocation time only. */
  lemma RelocationKeepsTuning(v: World, vfo: nat, now: nat, cfg: Config, asWritten: bool)
    requires Inv(v) && IsU32(vfo)
    ensures var r := Recenter(v, vfo, now, cfg, asWritten).0.m;
            r.direction == v.m.direction && r.lastVfo == v.m.lastVfo && r.lastTuningTime == v.m.lastTuningTime
  {
  }

  /** A relocation that re-centers the pipeline places the moved stations
      at the targets for the current direction and leaves the rest alone. */
  lemma RecenterPlaces(v: World, vfo: nat, now: nat, cfg: Config, asWritten: bool)
    requires Inv(v) && IsU32(vfo) && v.m.direction != 0
    ensures var r := Recenter(v, vfo, now, cfg, asWritten);
            && (forall a :: 0 <= a < |r.1| ==>
                  r.1[a] < |v.m.stations|
                  && var t := r.0.m.stations[r.1[a]];
                     t.fixedFreq == TargetWith(asWritten, v.m.direction, vfo, a) as real && t.stationState == Active && !t.active)
            && (forall j :: 0 <= j < |v.m.stations| && j !in r.1 ==> r.0.m.stations[j] == v.m.stations[j])
  {
    RelocationTargets(v, vfo, cfg, asWritten);
  }

  /** A significant move that triggers a relocation is the retuning followed
      by the relocation around the new dial position. */
  lemma PipelineRelocatesVia(w: World, vfo: nat, now: nat, cfg: Config, asWritten: bool)
    requires Inv(w) && IsU32(vfo) && w.m.pipelineEnabled
    requires Significant(vfo, w.m.lastVfo, cfg) && Relocates(w, vfo, now, cfg)
    ensures UpdatePipeline(w, vfo, now, cfg, asWritten) == Recenter(Retuned(w, vfo, now), vfo, now, cfg, asWritten)
  {
  }

  /** Once the dial rests, the pipeline goes still and stays still: with a
      dial that has not moved since the last significant change and more
      than five seconds gone, the direction is zero and nothing is moved,
      and a second update at the same position and a later time changes
      nothing further. */
  lemma RestingDialSettles(w: World, vfo: nat, now: nat, later: nat, cfg: Config, asWritten: bool)
    requires Inv(w) && IsU32(vfo) && w.m.pipelineEnabled && cfg.tuneDetect >= 1
    requires w.m.lastVfo == vfo && Elapsed(now, w.m.lastTuningTime) > SETTLE_MS
    ensures var r := UpdatePipeline(w, vfo, now, cfg, asWritten);
            && r.0.m.direction == 0 && r.1 == [] && r.0.m.stations == w.m.stations && r.0.pool == w.pool
            && UpdatePipeline(r.0, vfo, later, cfg, asWritten).0.m.stations == w.m.stations
            && UpdatePipeline(r.0, vfo, later, cfg, asWritten).0.m.direction == 0
  {
  }

  /** `enableDynamicPipelining(enable)`: switching on resets the tuning
      state; switching off keeps it. */
  function EnableDynamicPipelining(w: World, enable: bool): (r: World)
    requires Inv(w)
    ensures Inv(r) && r.m.pipelineEnabled == enable && r.pool == w.pool && r.m.stations == w.m.stations
    ensures enable ==> r.m.direction == 0 && r.m.lastVfo == 0 && r.m.centerFreq == 0 && r.m.lastTuningTime == 0
    ensures !enable ==> r.m == w.m.(pipelineEnabled := false)
  {
    if enable then World(w.m.(pipelineEnabled := true, direction := 0, lastVfo := 0, centerFreq := 0, lastTuningTime := 0), w.pool, w.lastRealloc)
    else World(w.m.(pipelineEnabled := false), w.pool, w.lastRealloc)
  }

  /** `setupPipeline(vfo)` at time `now`: nothing with pipelining off;
      otherwise the pipeline is centered on the dial, still, and every
      station is switched on and ACTIVE at its own frequency. */
  function SetupPipeline(w: World, vfo: nat, now: nat): (r: World)
    requires Inv(w) && IsU32(vfo)
    ensures Inv(r) && |r.m.stations| == |w.m.stations| && r.m.assignment == w.m.assignment
    ensures !w.m.pipelineEnabled ==> r == w
    ensures w.m.pipelineEnabled ==>
              && r.m.centerFreq == vfo && r.m.lastVfo == vfo && r.m.lastTuningTime == now && r.m.direction == 0
              && forall i :: 0 <= i < |w.m.stations| ==>
                   var t := r.m.stations[i];
                   t.active && t.stationState == Active && t.fixedFreq == w.m.stations[i].fixedFreq
  {
    if !w.m.pipelineEnabled then w
    else
      var ss := w.m.stations;
      var on := seq(|ss|, i requires 0 <= i < |ss| => SetActiveFlag(ss[i], true));
      assert Sound(on, w.pool);
      var a := ApplyStates(on, w.pool, seq(|ss|, i => Active), 0);
      World(w.m.(stations := a.0, centerFreq := vfo, lastVfo := vfo, lastTuningTime := now, direction := 0), a.1, w.lastRealloc)
  }

  /** Right after setup, a dial that has not moved never triggers a
      relocation: the pipeline starts still. */
  lemma SetupStartsStill(w: World, vfo: nat, now: nat, later: nat, cfg: Config, asWritten: bool)
    requires Inv(w) && IsU32(vfo) && w.m.pipelineEnabled && cfg.tuneDetect >= 1
    ensures var s := SetupPipeline(w, vfo, now);
            var r := UpdatePipeline(s, vfo, later, cfg, asWritten);
            r.1 == [] && r.0.m.stations == s.m.stations && r.0.m.direction == 0
  {
  }

  /** `recycleDormantStations(vfo)`: kept for compatibility, it runs the
      pipeline update when pipelining is on. */
  function RecycleDormantStations(w: World, vfo: nat, now: nat, cfg: Config, asWritten: bool): (r: (World, seq<nat>))
    requires Inv(w) && IsU32(vfo)
    ensures Inv(r.0) && |r.0.m.stations| == |w.m.stations|
    ensures r.0.m.pipelineEnabled == w.m.pipelineEnabled && r.0.m.assignment == w.m.assignment
    ensures !w.m.pipelineEnabled ==> r == (w, [])
  {
    if w.m.pipelineEnabled then UpdatePipeline(w, vfo, now, cfg, asWritten) else (w, [])
  }

  /** `updateStations(vfo)` at time `now`: the pipeline update when enabled,
      the proximity pass, then the channel allocation, as written or
      corrected. */
  function UpdateStations(w: World, vfo: nat, now: nat, cfg: Config, asWritten: bool): (r: World)
    requires Inv(w) && IsU32(vfo)
    ensures Inv(r) && |r.m.stations| == |w.m.stations|
    ensures r.m.pipelineEnabled == w.m.pipelineEnabled
  {
    var p := if w.m.pipelineEnabled then UpdatePipeline(w, vfo, now, cfg, asWritten).0 else w;
    AllocateWith(UpdateStationStates(p, vfo, cfg), !asWritten)
  }

  /** After every update, at most four stations are AUDIBLE, each on a
      channel of its own, and no ACTIVE station is left waiting; with
      SILENT stations rebooked, a SILENT station means every channel is
      taken. */
  lemma UpdateKeepsChannelsBooked(w: World, vfo: nat, now: nat, cfg: Config, asWritten: bool)
    requires Inv(w) && IsU32(vfo)
    ensures var r := UpdateStations(w, vfo, now, cfg, asWritten);
            && CountFrom(States(r.m.stations), {Audible}, 0) <= MAX_AD9833
            && (forall i :: 0 <= i < |r.m.stations| ==> (r.m.stations[i].stationState == Audible <==> i in r.m.assignment))
            && (forall i :: 0 <= i < |r.m.stations| ==> r.m.stations[i].stationState != Active)
            && (!asWritten ==> forall i :: 0 <= i < |r.m.stations| && r.m.stations[i].stationState == Silent ==>
                  forall k :: 0 <= k < MAX_AD9833 ==> r.m.assignment[k] != NO_STATION)
  {
    var p := if w.m.pipelineEnabled then UpdatePipeline(w, vfo, now, cfg, asWritten).0 else w;
    var q := UpdateStationStates(p, vfo, cfg);
    AtMostFourAudible(q, !asWritten);
    AllocationBooks(q, !asWritten);
    AllocatedStates(q, !asWritten);
    AllocatedFacts(States(q.m.stations), !asWritten);
    if !asWritten {
      NoIdleChannelWhileWaiting(q);
    }
  }
}
