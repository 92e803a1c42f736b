/** Choosing the next event among the fronts of the three FIFO queues (getNextEvent in DES.cpp). */
module Scheduler {
  import opened Events

  /** The queue an event is taken from. */
  datatype Queue = ObserverQueue | ArrivalQueue | DepartureQueue

  predicate AnyPending(obs: seq<Event>, arr: seq<Event>, dep: seq<Event>)
  {
    obs != [] || arr != [] || dep != []
  }

  /**
   * The rule the scheduler follows: the chosen queue is non-empty and its front is no later than
   * every other non-empty front. On equal timestamps a departure is taken before the other two
   * kinds and an arrival before an observation.
   */
  predicate IsEarliest(q: Queue, obs: seq<Event>, arr: seq<Event>, dep: seq<Event>)
  {
    match q
    case ObserverQueue =>
      obs != [] && (arr != [] ==> obs[0].time < arr[0].time) && (dep != [] ==> obs[0].time < dep[0].time)
    case ArrivalQueue =>
      arr != [] && (obs != [] ==> arr[0].time <= obs[0].time) && (dep != [] ==> arr[0].time < dep[0].time)
    case DepartureQueue =>
      dep != [] && (obs != [] ==> dep[0].time <= obs[0].time) && (arr != [] ==> dep[0].time <= arr[0].time)
  }

  /** The branch chain of the scheduler: which queue's front it returns. */
  function Choose(obs: seq<Event>, arr: seq<Event>, dep: seq<Event>): (q: Queue)
    requires AnyPending(obs, arr, dep)
    ensures IsEarliest(q, obs, arr, dep)
  {
    if obs != [] && arr != [] && dep != [] then
      var next := if obs[0].time < arr[0].time then ObserverQueue else ArrivalQueue;
      var nextTime := if obs[0].time < arr[0].time then obs[0].time else arr[0].time;
      if nextTime < dep[0].time then next else DepartureQueue
    else if obs != [] && arr != [] then
      if obs[0].time < arr[0].time then ObserverQueue else ArrivalQueue
    else if obs != [] && dep != [] then
      if obs[0].time < dep[0].time then ObserverQueue else DepartureQueue
    else if arr != [] && dep != [] then
      if arr[0].time < dep[0].time then ArrivalQueue else DepartureQueue
    else if obs != [] then
      ObserverQueue
    else if arr != [] then
      ArrivalQueue
    else
      DepartureQueue
  }

  /**
   * The next event to dispatch: the front of some non-empty queue whose timestamp is no later
   * than the front of any non-empty queue. With all three queues empty there is nothing to return.
   */
  function NextEvent(obs: seq<Event>, arr: seq<Event>, dep: seq<Event>): (e: Event)
    requires AnyPending(obs, arr, dep)
    ensures (obs != [] && e == obs[0]) || (arr != [] && e == arr[0]) || (dep != [] && e == dep[0])
    ensures obs != [] ==> e.time <= obs[0].time
    ensures arr != [] ==> e.time <= arr[0].time
    ensures dep != [] ==> e.time <= dep[0].time
  {
    match Choose(obs, arr, dep)
    case ObserverQueue => obs[0]
    case ArrivalQueue => arr[0]
    case DepartureQueue => dep[0]
  }

  /** The rule determines the choice: the scheduler picks q exactly when q satisfies the rule. */
  lemma ChooseIsTheEarliest(obs: seq<Event>, arr: seq<Event>, dep: seq<Event>, q: Queue)
    requires AnyPending(obs, arr, dep)
    ensures Choose(obs, arr, dep) == q <==> IsEarliest(q, obs, arr, dep)
  {
  }

  /**
   * When the scheduler takes an arrival while departures are pending, the last pending departure
   * is strictly later than the arrival. So the base the arrival handler adds the service time to
   * (the back of the departure queue) is the later of the arrival time and that back time.
   */
  lemma ArrivalPrecedesPendingDepartures(obs: seq<Event>, arr: seq<Event>, dep: seq<Event>)
    requires AnyPending(obs, arr, dep)
    requires Sorted(dep) && dep != []
    requires Choose(obs, arr, dep) == ArrivalQueue
    ensures arr[0].time < dep[|dep| - 1].time
  {
  }

  /**
   * When every queue holds only its own kind, the kind of the next event names the queue it is
   * the front of.
   */
  lemma DispatchByKind(obs: seq<Event>, arr: seq<Event>, dep: seq<Event>)
    requires AnyPending(obs, arr, dep)
    requires AllOfKind(obs, Observer) && AllOfKind(arr, Arrival) && AllOfKind(dep, Departure)
    ensures var e := NextEvent(obs, arr, dep);
            && (e.kind == Observer ==> obs != [] && e == obs[0])
            && (e.kind == Arrival ==> arr != [] && e == arr[0])
            && (e.kind == Departure ==> dep != [] && e == dep[0])
  {
  }

  /**
   * With every queue in time order, the next event is no later than any pending event of any
   * kind, not only the three fronts.
   */
  lemma NextEventIsEarliestPending(obs: seq<Event>, arr: seq<Event>, dep: seq<Event>)
    requires AnyPending(obs, arr, dep)
    requires Sorted(obs) && Sorted(arr) && Sorted(dep)
    ensures forall i :: 0 <= i < |obs| ==> NextEvent(obs, arr, dep).time <= obs[i].time
    ensures forall i :: 0 <= i < |arr| ==> NextEvent(obs, arr, dep).time <= arr[i].time
    ensures forall i :: 0 <= i < |dep| ==> NextEvent(obs, arr, dep).time <= dep[i].time
  {
  }
}
