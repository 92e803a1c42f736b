/**
 * The discrete-event engine of DES.cpp: the state of one run (three FIFO queues and six
 * counters), the timeline builder, the three event handlers and the run loop.
 */
module Simulation {
  import opened Events
  import opened Scheduler
  import opened Timeline

  class Simulator {
    /** Pending observation instants, earliest first. */
    var observerQueue: seq<Event>
    /** Pending packet arrivals, earliest first. */
    var arrivalQueue: seq<Event>
    /** Scheduled departures of the packets in the system, earliest first. */
    var departureQueue: seq<Event>

    var observationCounter: nat
    var arrivalCounter: nat
    var departureCounter: nat
    var idleCounter: nat
    var numberOfPacketsInQueue: nat
    var droppedPacketsCounter: nat

    /** How many service times have been taken from the run's service stream. */
    var servicePosition: nat

    /** The queues and counters start empty and zero. */
    constructor ()
      ensures observerQueue == [] && arrivalQueue == [] && departureQueue == []
      ensures observationCounter == 0 && arrivalCounter == 0 && departureCounter == 0
      ensures idleCounter == 0 && numberOfPacketsInQueue == 0 && droppedPacketsCounter == 0
      ensures servicePosition == 0
    {
      observerQueue, arrivalQueue, departureQueue := [], [], [];
      observationCounter, arrivalCounter, departureCounter := 0, 0, 0;
      idleCounter, numberOfPacketsInQueue, droppedPacketsCounter := 0, 0, 0;
      servicePosition := 0;
    }

    /** Every queue holds only its own kind of event, and every queue is in time order. */
    ghost predicate WellFormed()
      reads this
    {
      && AllOfKind(observerQueue, Observer)
      && AllOfKind(arrivalQueue, Arrival)
      && AllOfKind(departureQueue, Departure)
      && Sorted(observerQueue)
      && Sorted(arrivalQueue)
      && Sorted(departureQueue)
    }

    /**
     * Fills the observer and arrival queues with the running sums of their variates, slot by
     * slot, until both clocks reach the horizon; a clock that has reached it stops, while the
     * other goes on using the same slots. When the batch is used up both arrays are refilled
     * with the next batch of the stream. observerCount and arrivalCount are the numbers of
     * events pushed.
     */
    method GenerateObserverAndArrivalEvents(simulationTime: real, observerTimes: array<real>, arrivalTimes: array<real>,
                                            draws: Stream, ghost eps: real)
      returns (ghost observerCount: nat, ghost arrivalCount: nat)
      requires eps > 0.0 && AtLeast(draws, eps)
      requires observerTimes != arrivalTimes
      requires HoldBatch(observerTimes, arrivalTimes, draws, 0)
      modifies this`observerQueue, this`arrivalQueue, observerTimes, arrivalTimes
      ensures StopsAt(draws, ObserverLane, simulationTime, observerCount)
      ensures StopsAt(draws, ArrivalLane, simulationTime, arrivalCount)
      ensures observerQueue == old(observerQueue) + Generated(draws, ObserverLane, observerCount)
      ensures arrivalQueue == old(arrivalQueue) + Generated(draws, ArrivalLane, arrivalCount)
      ensures HoldBatch(observerTimes, arrivalTimes, draws,
                        Refills(if observerCount < arrivalCount then arrivalCount else observerCount))
    {
      var observerTimeCounter := 0.0;
      var arrivalTimeCounter := 0.0;
      var j := 0;
      ghost var n: nat := 0;
      var batch: nat := 0;  // the batch of the stream the arrays hold
      ghost var observersBefore, arrivalsBefore := observerQueue, arrivalQueue;
      observerCount, arrivalCount := 0, 0;
      ghost var bound := MaxEvents(simulationTime, eps);
      while observerTimeCounter < simulationTime || arrivalTimeCounter < simulationTime
        invariant 0 <= j <= DefaultSize && n == batch * DefaultSize + j
        invariant n == 0 ==> batch == 0
        invariant n > 0 ==> 1 <= j
        invariant HoldBatch(observerTimes, arrivalTimes, draws, batch)
        invariant LaneState(draws, ObserverLane, simulationTime, observersBefore, observerQueue,
                            observerTimeCounter, observerCount, n)
        invariant LaneState(draws, ArrivalLane, simulationTime, arrivalsBefore, arrivalQueue,
                            arrivalTimeCounter, arrivalCount, n)
        invariant observerCount == n || arrivalCount == n
        invariant observerCount <= bound && arrivalCount <= bound
        decreases 2 * bound - observerCount - arrivalCount
      {
        j, batch := NextSlot(observerTimes, arrivalTimes, draws, j, batch);
        observerTimeCounter, observerQueue, observerCount :=
          AdvanceLane(ObserverLane, observerTimeCounter, observerQueue, observerTimes[j], simulationTime,
                      draws, eps, observersBefore, observerCount, n);
        arrivalTimeCounter, arrivalQueue, arrivalCount :=
          AdvanceLane(ArrivalLane, arrivalTimeCounter, arrivalQueue, arrivalTimes[j], simulationTime,
                      draws, eps, arrivalsBefore, arrivalCount, n);

        j := j + 1;
        n := n + 1;
      }
      StopsAtLast(draws, ObserverLane, simulationTime, observerCount);
      StopsAtLast(draws, ArrivalLane, simulationTime, arrivalCount);
      if n > 0 {
        RefillsOfSlot(n, batch, j);
      }
    }

    /** Samples the occupancy of the system without changing it, and consumes the observation. */
    method HandleObserverEvent()
      requires observerQueue != []
      modifies this`observationCounter, this`observerQueue, this`idleCounter, this`numberOfPacketsInQueue
      ensures observationCounter == old(observationCounter) + 1
      ensures observerQueue == old(observerQueue)[1..]
      ensures departureQueue == [] ==>
                idleCounter == old(idleCounter) + 1 && numberOfPacketsInQueue == old(numberOfPacketsInQueue)
      ensures departureQueue != [] ==>
                idleCounter == old(idleCounter) && numberOfPacketsInQueue == old(numberOfPacketsInQueue) + |departureQueue|
      ensures old(WellFormed()) ==> WellFormed()
    {
      observationCounter := observationCounter + 1;
      observerQueue := observerQueue[1..];

      var isQueueEmpty := |departureQueue| == 0;
      if isQueueEmpty {
        idleCounter := idleCounter + 1;
      } else {
        numberOfPacketsInQueue := numberOfPacketsInQueue + |departureQueue|;
      }
    }

    /**
     * Consumes an arrival. If fewer than queueSize packets are in the system, the packet is
     * admitted: its departure is scheduled one service time (the next one of the service
     * stream) after the last scheduled departure, or after its own arrival when the system is
     * empty. Otherwise the packet is dropped.
     */
    method HandleArrivalEvent(event: Event, queueSize: nat, service: Stream)
      requires arrivalQueue != []
      modifies this`arrivalCounter, this`arrivalQueue, this`departureQueue, this`droppedPacketsCounter,
               this`servicePosition
      ensures arrivalCounter == old(arrivalCounter) + 1
      ensures arrivalQueue == old(arrivalQueue)[1..]
      ensures old(|departureQueue|) < queueSize ==>
                && servicePosition == old(servicePosition) + 1
                && droppedPacketsCounter == old(droppedPacketsCounter)
                && departureQueue == old(departureQueue) + [Event(Departure, service(old(servicePosition)) +
                     if old(departureQueue) == [] then event.time else old(departureQueue)[|old(departureQueue)| - 1].time)]
      ensures old(|departureQueue|) >= queueSize ==>
                && servicePosition == old(servicePosition)
                && droppedPacketsCounter == old(droppedPacketsCounter) + 1
                && departureQueue == old(departureQueue)
      ensures old(|departureQueue|) <= queueSize ==> |departureQueue| <= queueSize
      ensures old(WellFormed()) && service(old(servicePosition)) >= 0.0 ==> WellFormed()
    {
      arrivalCounter := arrivalCounter + 1;
      arrivalQueue := arrivalQueue[1..];

      if |departureQueue| < queueSize {
        var departureTime := service(servicePosition);
        servicePosition := servicePosition + 1;
        if |departureQueue| == 0 {
          departureTime := departureTime + event.GetTime();
        } else {
          departureTime := departureTime + departureQueue[|departureQueue| - 1].GetTime();
        }
        departureQueue := departureQueue + [Event(Departure, departureTime)];
      } else {
        droppedPacketsCounter := droppedPacketsCounter + 1;
      }
    }

    /** Consumes the earliest departure: one packet leaves the system. */
    method HandleDepartureEvent()
      requires departureQueue != []
      modifies this`departureCounter, this`departureQueue
      ensures departureCounter == old(departureCounter) + 1
      ensures departureQueue == old(departureQueue)[1..]
      ensures old(WellFormed()) ==> WellFormed()
    {
      departureCounter := departureCounter + 1;
      departureQueue := departureQueue[1..];
    }

    /**
     * One run: resets the counters, builds the observer and arrival timelines from the first
     * batch of draws onwards, and dispatches the earliest pending event until no event is left.
     * At the end every generated observation and arrival has been handled, and every arrival has
     * either departed or been dropped.
     */
    method Simulate(simulationTime: real, draws: Stream, service: Stream, queueSize: nat, ghost eps: real)
      requires eps > 0.0 && AtLeast(draws, eps) && AtLeast(service, 0.0)
      requires observerQueue == [] && arrivalQueue == [] && departureQueue == []
      modifies this
      ensures observerQueue == [] && arrivalQueue == [] && departureQueue == []
      ensures StopsAt(draws, ObserverLane, simulationTime, observationCounter)
      ensures StopsAt(draws, ArrivalLane, simulationTime, arrivalCounter)
      ensures departureCounter + droppedPacketsCounter == arrivalCounter
      ensures servicePosition == departureCounter
      ensures idleCounter <= observationCounter
      ensures observationCounter - idleCounter <= numberOfPacketsInQueue <= queueSize * (observationCounter - idleCounter)
      ensures arrivalCounter <= queueSize ==> droppedPacketsCounter == 0
      ensures queueSize == 0 ==> departureCounter == 0 && droppedPacketsCounter == arrivalCounter
    {
      observationCounter := 0;
      arrivalCounter := 0;
      departureCounter := 0;
      idleCounter := 0;
      numberOfPacketsInQueue := 0;
      droppedPacketsCounter := 0;
      servicePosition := 0;

      ghost var observerCount, arrivalCount := BuildTimelines(simulationTime, draws, eps);
      GeneratedSorted(draws, ObserverLane, observerCount);
      GeneratedSorted(draws, ArrivalLane, arrivalCount);

      assert |observerQueue| == observerCount && |arrivalQueue| == arrivalCount;
      assert WellFormed();
      DispatchAll(queueSize, service);
      assert observationCounter == observerCount && arrivalCounter == arrivalCount;
    }

    /**
     * Draws the first batch of variates into two fresh arrays and builds the observer and
     * arrival timelines from them.
     */
    method BuildTimelines(simulationTime: real, draws: Stream, ghost eps: real)
      returns (ghost observerCount: nat, ghost arrivalCount: nat)
      requires eps > 0.0 && AtLeast(draws, eps)
      modifies this`observerQueue, this`arrivalQueue
      ensures StopsAt(draws, ObserverLane, simulationTime, observerCount)
      ensures StopsAt(draws, ArrivalLane, simulationTime, arrivalCount)
      ensures observerQueue == old(observerQueue) + Generated(draws, ObserverLane, observerCount)
      ensures arrivalQueue == old(arrivalQueue) + Generated(draws, ArrivalLane, arrivalCount)
    {
      var observerTimes := new real[DefaultSize];
      var arrivalTimes := new real[DefaultSize];
      Refill(observerTimes, arrivalTimes, draws, 0);
      observerCount, arrivalCount := GenerateObserverAndArrivalEvents(simulationTime, observerTimes, arrivalTimes, draws, eps);
    }

    /**
     * The counters and the departure queue account for every arrival handled so far: it has
     * departed, been dropped or is still in the system, and each admitted packet took one
     * service time. The system never holds more than queueSize packets, nothing is dropped
     * before more than queueSize packets have arrived, and with no room at all nothing departs.
     * Every observation either found the system idle or added between 1 and queueSize packets
     * to numberOfPacketsInQueue.
     */
    ghost predicate Accounting(queueSize: nat)
      reads this
    {
      && |departureQueue| <= queueSize
      && departureCounter + droppedPacketsCounter + |departureQueue| == arrivalCounter
      && servicePosition == departureCounter + |departureQueue|
      && idleCounter <= observationCounter
      && observationCounter - idleCounter <= numberOfPacketsInQueue <= queueSize * (observationCounter - idleCounter)
      && (droppedPacketsCounter > 0 ==> arrivalCounter > queueSize)
      && (queueSize == 0 ==> departureCounter == 0)
    }

    /**
     * One round of the dispatch loop: the earliest pending event is handed to the handler of its
     * kind, which has exactly the effect it has when called on its own; the fields the other two
     * handlers own are left as they were. The accounting of the counters is kept.
     */
    method DispatchNext(queueSize: nat, service: Stream) returns (event: Event)
      requires AtLeast(service, 0.0)
      requires observerQueue != [] || arrivalQueue != [] || departureQueue != []
      requires WellFormed() && Accounting(queueSize)
      modifies this
      ensures event == NextEvent(old(observerQueue), old(arrivalQueue), old(departureQueue))
      ensures event.kind == Observer ==>
                && observationCounter == old(observationCounter) + 1
                && observerQueue == old(observerQueue)[1..]
                && departureQueue == old(departureQueue)
                && (old(departureQueue) == [] ==>
                      idleCounter == old(idleCounter) + 1 && numberOfPacketsInQueue == old(numberOfPacketsInQueue))
                && (old(departureQueue) != [] ==>
                      && idleCounter == old(idleCounter)
                      && numberOfPacketsInQueue == old(numberOfPacketsInQueue) + old(|departureQueue|))
      ensures event.kind != Observer ==>
                && observationCounter == old(observationCounter) && observerQueue == old(observerQueue)
                && idleCounter == old(idleCounter) && numberOfPacketsInQueue == old(numberOfPacketsInQueue)
      ensures event.kind == Arrival ==>
                && arrivalCounter == old(arrivalCounter) + 1
                && arrivalQueue == old(arrivalQueue)[1..]
                && (old(|departureQueue|) < queueSize ==>
                      && servicePosition == old(servicePosition) + 1
                      && droppedPacketsCounter == old(droppedPacketsCounter)
                      && departureQueue == old(departureQueue) + [Event(Departure, service(old(servicePosition)) +
                           if old(departureQueue) == [] then event.time
                           else old(departureQueue)[|old(departureQueue)| - 1].time)])
                && (old(|departureQueue|) >= queueSize ==>
                      && servicePosition == old(servicePosition)
                      && droppedPacketsCounter == old(droppedPacketsCounter) + 1
                      && departureQueue == old(departureQueue))
      ensures event.kind != Arrival ==>
                && arrivalCounter == old(arrivalCounter) && arrivalQueue == old(arrivalQueue)
                && droppedPacketsCounter == old(droppedPacketsCounter) && servicePosition == old(servicePosition)
      ensures event.kind == Departure ==>
                departureCounter == old(departureCounter) + 1 && departureQueue == old(departureQueue)[1..]
      ensures event.kind != Departure ==> departureCounter == old(departureCounter)
      ensures WellFormed() && Accounting(queueSize)
    {
      event := NextEvent(observerQueue, arrivalQueue, departureQueue);
      DispatchByKind(observerQueue, arrivalQueue, departureQueue);
      if event.GetType() == Observer {
        if departureQueue != [] {
          OccupancySample(observationCounter - idleCounter, numberOfPacketsInQueue, |departureQueue|, queueSize);
        }
        HandleObserverEvent();
      } else if event.GetType() == Arrival {
        HandleArrivalEvent(event, queueSize, service);
      } else {
        HandleDepartureEvent();
      }
    }

    /**
     * The dispatch loop of a run: takes the earliest pending event and hands it to the handler
     * of its kind until all three queues are empty. Every pending observation and arrival is
     * handled exactly once, every arrival and pending departure ends as a departure or a drop,
     * and each observation either counts as idle or adds between 1 and queueSize packets.
     */
    method DispatchAll(queueSize: nat, service: Stream)
      requires AtLeast(service, 0.0)
      requires WellFormed() && Accounting(queueSize)
      modifies this
      ensures observerQueue == [] && arrivalQueue == [] && departureQueue == []
      ensures observationCounter == old(observationCounter) + old(|observerQueue|)
      ensures arrivalCounter == old(arrivalCounter) + old(|arrivalQueue|)
      ensures departureCounter >= old(departureCounter) && droppedPacketsCounter >= old(droppedPacketsCounter)
      ensures departureCounter + droppedPacketsCounter
           == old(departureCounter) + old(droppedPacketsCounter) + old(|arrivalQueue|) + old(|departureQueue|)
      ensures idleCounter >= old(idleCounter)
      ensures var sampled := observationCounter - old(observationCounter) - (idleCounter - old(idleCounter));
              && 0 <= sampled
              && sampled <= numberOfPacketsInQueue - old(numberOfPacketsInQueue) <= queueSize * sampled
      ensures WellFormed() && Accounting(queueSize)
    {
      ghost var observations := observationCounter + |observerQueue|;
      ghost var arrivals := arrivalCounter + |arrivalQueue|;
      while observerQueue != [] || arrivalQueue != [] || departureQueue != []
        invariant WellFormed() && Accounting(queueSize)
        invariant observationCounter + |observerQueue| == observations
        invariant arrivalCounter + |arrivalQueue| == arrivals
        invariant departureCounter >= old(departureCounter) && droppedPacketsCounter >= old(droppedPacketsCounter)
        invariant departureCounter + droppedPacketsCounter + |arrivalQueue| + |departureQueue|
               == old(departureCounter) + old(droppedPacketsCounter) + old(|arrivalQueue|) + old(|departureQueue|)
        invariant idleCounter >= old(idleCounter)
        invariant var sampled := observationCounter - old(observationCounter) - (idleCounter - old(idleCounter));
                  && 0 <= sampled
                  && sampled <= numberOfPacketsInQueue - old(numberOfPacketsInQueue) <= queueSize * sampled
        decreases |observerQueue| + 2 * |arrivalQueue| + |departureQueue|
      {
        ghost var sampled := observationCounter - old(observationCounter) - (idleCounter - old(idleCounter));
        ghost var packets := numberOfPacketsInQueue - old(numberOfPacketsInQueue);
        ghost var occupancy := |departureQueue|;
        var event := DispatchNext(queueSize, service);
        if event.kind == Observer && occupancy > 0 {
          OccupancySample(sampled, packets, occupancy, queueSize);
        }
      }
    }
  }

  /**
   * Adding one non-idle sample of an occupancy between 1 and queueSize keeps the sum of the
   * samples between their number and queueSize times their number.
   */
  lemma OccupancySample(sampled: int, packets: int, occupancy: nat, queueSize: nat)
    requires sampled <= packets <= queueSize * sampled
    requires 1 <= occupancy <= queueSize
    ensures sampled + 1 <= packets + occupancy <= queueSize * (sampled + 1)
  {
  }

  /**
   * One lane's share of a slot: a lane whose clock is still below the horizon adds the slot's
   * variate to its clock and pushes an event stamped with the new clock; a lane that has reached
   * the horizon is left as it is. count is the number of events the lane has pushed.
   */
  method AdvanceLane(lane: Lane, clock: real, queue: seq<Event>, variate: real, horizon: real,
                     ghost draws: Stream, ghost eps: real, ghost before: seq<Event>, ghost count: nat, ghost n: nat)
    returns (clock': real, queue': seq<Event>, ghost count': nat)
    requires eps > 0.0 && AtLeast(draws, eps)
    requires LaneState(draws, lane, horizon, before, queue, clock, count, n) && variate == Draw(draws, lane, n)
    ensures clock < horizon ==>
              clock' == clock + variate && queue' == queue + [Event(lane.EventKind(), clock')] && count' == count + 1
    ensures clock >= horizon ==> clock' == clock && queue' == queue && count' == count
    ensures LaneState(draws, lane, horizon, before, queue', clock', count', n + 1)
    ensures count' <= MaxEvents(horizon, eps)
  {
    clock', queue', count' := clock, queue, count;
    if clock < horizon {
      LaneAdvance(draws, lane, horizon, eps, before, queue, clock, count, n);
      clock' := clock + variate;
      queue' := queue + [Event(lane.EventKind(), clock')];
      count' := count + 1;
    } else {
      LaneWaits(draws, lane, horizon, before, queue, clock, count, n);
      EventsBounded(draws, lane, horizon, eps, count);
    }
  }

  /** The two arrays hold batch b of their lanes. */
  ghost predicate HoldBatch(observerTimes: array<real>, arrivalTimes: array<real>, draws: Stream, b: nat)
    reads observerTimes, arrivalTimes
  {
    observerTimes[..] == Batch(draws, ObserverLane, b) && arrivalTimes[..] == Batch(draws, ArrivalLane, b)
  }

  /**
   * Moves to the batch position of the next slot: when the batch is used up, both arrays are
   * refilled with the next batch of the stream and the position starts again at 0.
   */
  method NextSlot(observerTimes: array<real>, arrivalTimes: array<real>, draws: Stream, j: nat, batch: nat)
    returns (j': nat, batch': nat)
    requires observerTimes != arrivalTimes && j <= DefaultSize
    requires HoldBatch(observerTimes, arrivalTimes, draws, batch)
    modifies observerTimes, arrivalTimes
    ensures j < DefaultSize ==> j' == j && batch' == batch
    ensures j == DefaultSize ==> j' == 0 && batch' == batch + 1
    ensures HoldBatch(observerTimes, arrivalTimes, draws, batch')
    ensures observerTimes[j'] == Draw(draws, ObserverLane, batch * DefaultSize + j)
    ensures arrivalTimes[j'] == Draw(draws, ArrivalLane, batch * DefaultSize + j)
  {
    j', batch' := j, batch;
    if j == DefaultSize {
      j' := 0;
      Refill(observerTimes, arrivalTimes, draws, batch + 1);
      batch' := batch + 1;
    }
    assert observerTimes[j'] == Batch(draws, ObserverLane, batch')[j'];
    assert arrivalTimes[j'] == Batch(draws, ArrivalLane, batch')[j'];
  }

  /** Overwrites both batch arrays with batch b of the stream, slot by slot. */
  method Refill(observerTimes: array<real>, arrivalTimes: array<real>, draws: Stream, b: nat)
    requires observerTimes != arrivalTimes
    requires observerTimes.Length == DefaultSize && arrivalTimes.Length == DefaultSize
    modifies observerTimes, arrivalTimes
    ensures observerTimes[..] == Batch(draws, ObserverLane, b)
    ensures arrivalTimes[..] == Batch(draws, ArrivalLane, b)
  {
    for i := 0 to DefaultSize
      invariant forall k :: 0 <= k < i ==> observerTimes[k] == Draw(draws, ObserverLane, b * DefaultSize + k)
      invariant forall k :: 0 <= k < i ==> arrivalTimes[k] == Draw(draws, ArrivalLane, b * DefaultSize + k)
    {
      observerTimes[i] := draws(2 * (b * DefaultSize + i));
      arrivalTimes[i] := draws(2 * (b * DefaultSize + i) + 1);
    }
  }
}
