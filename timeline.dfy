/**
 * What the timeline builder of DES.cpp computes: running sums of the observer and arrival
 * variates, cut off at the simulation horizon, with the variates taken from batches of
 * DefaultSize slots.
 */
module Timeline {
  import opened Events

  /** The number of slots in one batch of variates. */
  const DefaultSize: nat := 1000

  /**
   * A stream of variates, in the order they are drawn. For the builder, slot n of the draw
   * order holds an observer variate at position 2 * n and an arrival variate at 2 * n + 1.
   */
  type Stream = nat -> real

  /** The two timelines the builder produces. */
  datatype Lane = ObserverLane | ArrivalLane
  {
    function Offset(): nat { if ObserverLane? then 0 else 1 }

    function EventKind(): Kind { if ObserverLane? then Observer else Arrival }
  }

  /** Every variate of the stream is at least bound. */
  ghost predicate AtLeast(s: Stream, bound: real)
  {
    forall n: nat :: s(n) >= bound
  }

  /** The variate of a lane in slot n. */
  function Draw(draws: Stream, lane: Lane, n: nat): real
  {
    draws(2 * n + lane.Offset())
  }

  /** The lane's clock after k steps: the sum of its first k variates. */
  function Clock(draws: Stream, lane: Lane, k: nat): real
    decreases k
  {
    if k == 0 then 0.0 else Clock(draws, lane, k - 1) + Draw(draws, lane, k - 1)
  }

  /** The first m events of a lane: the k-th one (from 0) is stamped with the clock after k + 1 steps. */
  function Generated(draws: Stream, lane: Lane, m: nat): seq<Event>
  {
    seq(m, k requires 0 <= k < m => Event(lane.EventKind(), Clock(draws, lane, k + 1)))
  }

  /** The lane pushes m events before the horizon: the clock is below it before each push and reaches it after the last. */
  predicate StopsAt(draws: Stream, lane: Lane, horizon: real, m: nat)
  {
    (forall k :: 0 <= k < m ==> Clock(draws, lane, k) < horizon) && Clock(draws, lane, m) >= horizon
  }

  /** Batch b of a lane: the variates of slots b * DefaultSize up to (b + 1) * DefaultSize. */
  function Batch(draws: Stream, lane: Lane, b: nat): seq<real>
  {
    seq(DefaultSize, i requires 0 <= i < DefaultSize => Draw(draws, lane, b * DefaultSize + i))
  }

  /** The number of refills after n slots are consumed: one each time a batch is used up and another slot is needed. */
  function Refills(n: nat): nat
  {
    if n == 0 then 0 else (n - 1) / DefaultSize
  }

  /** An upper bound on the events a lane whose variates are all at least eps pushes before the horizon. */
  function MaxEvents(horizon: real, eps: real): nat
    requires eps > 0.0
  {
    if horizon <= 0.0 then 0 else (horizon / eps).Floor + 1
  }

  /** With non-negative variates a clock never goes back. */
  lemma {:induction false} ClockMonotone(draws: Stream, lane: Lane, i: nat, j: nat)
    requires AtLeast(draws, 0.0)
    requires i <= j
    ensures Clock(draws, lane, i) <= Clock(draws, lane, j)
    decreases j
  {
    if i < j {
      ClockMonotone(draws, lane, i, j - 1);
      assert Draw(draws, lane, j - 1) >= 0.0;
    }
  }

  /** A generated timeline is sorted and holds only events of its lane's kind. */
  lemma GeneratedSorted(draws: Stream, lane: Lane, m: nat)
    requires AtLeast(draws, 0.0)
    ensures |Generated(draws, lane, m)| == m
    ensures Sorted(Generated(draws, lane, m))
    ensures AllOfKind(Generated(draws, lane, m), lane.EventKind())
  {
    var g := Generated(draws, lane, m);
    forall i, j | 0 <= i <= j < m
      ensures g[i].time <= g[j].time
    {
      ClockMonotone(draws, lane, i + 1, j + 1);
    }
  }

  /** One more step appends one event stamped with the new clock. */
  lemma GeneratedGrows(draws: Stream, lane: Lane, m: nat)
    ensures Generated(draws, lane, m + 1)
         == Generated(draws, lane, m) + [Event(lane.EventKind(), Clock(draws, lane, m) + Draw(draws, lane, m))]
  {
  }

  /** The number of events a lane pushes before the horizon is unique. */
  lemma StopsAtUnique(draws: Stream, lane: Lane, horizon: real, m: nat, m': nat)
    requires StopsAt(draws, lane, horizon, m) && StopsAt(draws, lane, horizon, m')
    ensures m == m'
  {
  }

  /**
   * Every generated timestamp except the last is before the horizon, the last is not, and a
   * positive horizon gives at least one event.
   */
  lemma HorizonBounds(draws: Stream, lane: Lane, horizon: real, m: nat)
    requires StopsAt(draws, lane, horizon, m)
    ensures forall k :: 0 <= k < m - 1 ==> Generated(draws, lane, m)[k].time < horizon
    ensures m > 0 ==> Generated(draws, lane, m)[m - 1].time >= horizon
    ensures horizon > 0.0 <==> m > 0
  {
    assert Clock(draws, lane, 0) == 0.0;
    var g := Generated(draws, lane, m);
    forall k | 0 <= k < m - 1
      ensures g[k].time < horizon
    {
      assert g[k].time == Clock(draws, lane, k + 1);
    }
  }

  /** With variates of at least eps, k steps take the clock to at least k * eps. */
  lemma {:induction false} ClockAtLeast(draws: Stream, lane: Lane, eps: real, k: nat)
    requires AtLeast(draws, eps)
    ensures Clock(draws, lane, k) >= k as real * eps
    decreases k
  {
    if k > 0 {
      ClockAtLeast(draws, lane, eps, k - 1);
      assert Draw(draws, lane, k - 1) >= eps;
      assert k as real * eps == (k - 1) as real * eps + eps;
    }
  }

  /** A lane whose clock was below the horizon before its last push has pushed at most MaxEvents. */
  lemma EventsBounded(draws: Stream, lane: Lane, horizon: real, eps: real, count: nat)
    requires eps > 0.0 && AtLeast(draws, eps)
    requires count > 0 ==> Clock(draws, lane, count - 1) < horizon
    ensures count <= MaxEvents(horizon, eps)
  {
    if count > 0 {
      ClockAtLeast(draws, lane, eps, count - 1);
      BelowQuotient((count - 1) as real, eps, horizon);
    }
  }

  /** A multiple of eps below the horizon has a factor below horizon / eps. */
  lemma BelowQuotient(a: real, eps: real, horizon: real)
    requires eps > 0.0 && a * eps < horizon
    ensures a < horizon / eps
  {
    assert horizon / eps * eps == horizon;
  }

  /**
   * The builder's state of one lane after n slots: its clock is the sum of its first count
   * variates, its queue is what it was before followed by the count generated events, the clock
   * was below the horizon before the last push, and a lane with fewer than n pushes has reached
   * the horizon.
   */
  ghost predicate LaneState(draws: Stream, lane: Lane, horizon: real, before: seq<Event>, queue: seq<Event>,
                            clock: real, count: nat, n: nat)
  {
    && clock == Clock(draws, lane, count)
    && queue == before + Generated(draws, lane, count)
    && (count > 0 ==> Clock(draws, lane, count - 1) < horizon)
    && (count == n || (count < n && clock >= horizon))
  }

  /** A lane that stops once its clock reaches the horizon has pushed exactly the events StopsAt counts. */
  lemma StopsAtLast(draws: Stream, lane: Lane, horizon: real, m: nat)
    requires AtLeast(draws, 0.0)
    requires (m > 0 ==> Clock(draws, lane, m - 1) < horizon) && Clock(draws, lane, m) >= horizon
    ensures StopsAt(draws, lane, horizon, m)
  {
    forall k | 0 <= k < m
      ensures Clock(draws, lane, k) < horizon
    {
      ClockMonotone(draws, lane, k, m - 1);
    }
  }

  /** A lane below the horizon uses slot n: it pushes its clock advanced by the slot's variate. */
  lemma LaneAdvance(draws: Stream, lane: Lane, horizon: real, eps: real, before: seq<Event>, queue: seq<Event>,
                    clock: real, count: nat, n: nat)
    requires eps > 0.0 && AtLeast(draws, eps)
    requires LaneState(draws, lane, horizon, before, queue, clock, count, n) && clock < horizon
    ensures count == n
    ensures var clock' := clock + Draw(draws, lane, n);
            && LaneState(draws, lane, horizon, before, queue + [Event(lane.EventKind(), clock')], clock', count + 1, n + 1)
            && count + 1 <= MaxEvents(horizon, eps)
  {
    GeneratedGrows(draws, lane, count);
    EventsBounded(draws, lane, horizon, eps, count + 1);
  }

  /** A lane that has reached the horizon lets slot n pass without pushing. */
  lemma LaneWaits(draws: Stream, lane: Lane, horizon: real, before: seq<Event>, queue: seq<Event>,
                  clock: real, count: nat, n: nat)
    requires LaneState(draws, lane, horizon, before, queue, clock, count, n) && clock >= horizon
    ensures LaneState(draws, lane, horizon, before, queue, clock, count, n + 1)
  {
  }

  /** The refill count of n consumed slots is the batch that holds slot n - 1. */
  lemma RefillsOfSlot(n: nat, batch: nat, j: nat)
    requires n == batch * DefaultSize + j && 1 <= j <= DefaultSize
    ensures Refills(n) == batch
  {
  }
}
