/** The realization pool: the scheduler that steps and updates every station
    once per main-loop tick and replays generator state after another
    application may have disturbed the hardware.

    The scheduler is generic in the world `W` its realizations act on (in the
    radio, the stations and the generator pool). A realization is identified by
    its index; the caller supplies what `step`, `update` and
    `force_wave_generator_refresh` do to the world for a given index.
 */
module Scheduler {

  /** The scheduler's own state. `statuses` is stored by the constructor and
      never consulted again. */
  datatype Scheduler = Scheduler(count: nat, statuses: seq<bool>, dirty: bool)

  /** The realizations' `step` for index i at a time: the new world and whether to keep going. */
  type StepFn<!W> = (nat, nat, W) -> (W, bool)
  /** The realizations' `update` or refresh for index i. */
  type WorldFn<!W> = (nat, W) -> W

  /** The constructor: the hardware is not considered dirty. */
  function NewScheduler(count: nat, statuses: seq<bool>): (s: Scheduler)
    ensures !s.dirty && s.count == count && s.statuses == statuses
  {
    Scheduler(count, statuses, false)
  }

  /** `begin(time)`: nothing to start; always succeeds. */
  function SchedulerBegin(s: Scheduler, time: nat): (ok: bool)
    ensures ok
  {
    true
  }

  /** `mark_dirty()`: the next `update` must replay generator state. */
  function MarkDirty(s: Scheduler): (t: Scheduler)
    ensures t.dirty && t.count == s.count && t.statuses == s.statuses
  {
    s.(dirty := true)
  }

  /** The world after realizations 0..k-1 have each been stepped once, in order. */
  function SteppedWorld<W>(step: StepFn<W>, time: nat, w: W, k: nat): W
  {
    if k == 0 then w else step(k - 1, time, SteppedWorld(step, time, w, k - 1)).0
  }

  /** Realization k, stepped after the ones before it, asks to keep going. */
  predicate KeepsGoing<W>(step: StepFn<W>, time: nat, w: W, k: nat) {
    step(k, time, SteppedWorld(step, time, w, k)).1
  }

  /** Each of realizations 0..k-1 asks to keep going when its turn comes. */
  predicate AllKeepGoing<W>(step: StepFn<W>, time: nat, w: W, k: nat) {
    forall i :: 0 <= i < k ==> KeepsGoing(step, time, w, i)
  }

  /** The world after `f` has been applied to realizations 0..k-1 in order. */
  function ForEach<W>(f: WorldFn<W>, w: W, k: nat): W
  {
    if k == 0 then w else f(k - 1, ForEach(f, w, k - 1))
  }

  /** `step(time)`: step the realizations in index order and stop at the first
      that asks to stop. `stepped` is how many were stepped; the loop counter is
      a byte in the source, so at most 255 realizations terminate. */
  method Step<W>(s: Scheduler, step: StepFn<W>, time: nat, w: W) returns (ok: bool, w': W, stepped: nat)
    requires s.count <= 255
    ensures ok <==> AllKeepGoing(step, time, w, s.count)
    ensures ok ==> stepped == s.count
    ensures !ok ==> 1 <= stepped <= s.count && AllKeepGoing(step, time, w, stepped - 1)
                    && !KeepsGoing(step, time, w, stepped - 1)
    ensures w' == SteppedWorld(step, time, w, stepped)
  {
    w' := w;
    var i: nat := 0;
    while i < s.count
      invariant i <= s.count
      invariant w' == SteppedWorld(step, time, w, i)
      invariant AllKeepGoing(step, time, w, i)
    {
      var r := step(i, time, w');
      w' := r.0;
      if !r.1 {
        assert !KeepsGoing(step, time, w, i);
        return false, w', i + 1;
      }
      i := i + 1;
    }
    return true, w', i;
  }

  /** `update(mode)`: update every realization, then, if the hardware is
      dirty, refresh every realization's generator and clear the flag. */
  method Update<W>(s: Scheduler, update: WorldFn<W>, refresh: WorldFn<W>, w: W) returns (t: Scheduler, w': W)
    requires s.count <= 255
    ensures !t.dirty && t.count == s.count && t.statuses == s.statuses
    ensures !s.dirty ==> w' == ForEach(update, w, s.count)
    ensures s.dirty ==> w' == ForEach(refresh, ForEach(update, w, s.count), s.count)
  {
    w' := w;
    var i: nat := 0;
    while i < s.count
      invariant i <= s.count
      invariant w' == ForEach(update, w, i)
    {
      w' := update(i, w');
      i := i + 1;
    }
    t := s;
    if s.dirty {
      w' := ForceRefreshAll(s, refresh, w');
      t := s.(dirty := false);
    }
  }

  /** `force_sim_transmitter_refresh()`: refresh every realization's generator in order. */
  method ForceRefreshAll<W>(s: Scheduler, refresh: WorldFn<W>, w: W) returns (w': W)
    requires s.count <= 255
    ensures w' == ForEach(refresh, w, s.count)
  {
    w' := w;
    var i: nat := 0;
    while i < s.count
      invariant i <= s.count
      invariant w' == ForEach(refresh, w, i)
    {
      w' := refresh(i, w');
      i := i + 1;
    }
  }

  /** When no realization ever asks to stop (as no station does), a scheduler
      step reaches every realization. */
  lemma StepReachesAllWhenNoneStops<W>(step: StepFn<W>, time: nat, w: W, count: nat)
    requires forall i: nat, t: nat, x: W :: step(i, t, x).1
    ensures AllKeepGoing(step, time, w, count)
  {
  }

  /** A refresh that puts each realization's hardware in step with its state, and
      that no later refresh undoes, leaves all of them in step after a dirty update. */
  lemma {:induction false} RefreshEstablishes<W>(refresh: WorldFn<W>, synced: (nat, W) -> bool, w: W, k: nat)
    requires forall i: nat, x: W :: synced(i, refresh(i, x))
    requires forall i: nat, j: nat, x: W :: synced(i, x) ==> synced(i, refresh(j, x))
    ensures forall i :: 0 <= i < k ==> synced(i, ForEach(refresh, w, k))
  {
    if k > 0 {
      RefreshEstablishes(refresh, synced, w, k - 1);
    }
  }
}
