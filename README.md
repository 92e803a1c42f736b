# Queue simulator: a Dafny model of the discrete-event engine

This project models the discrete-event engine of a single-server FIFO queue simulator: the M/M/1
and M/M/1/K simulator in `DES.cpp`, together with the `Event` record it schedules (`Event.h`,
`Event.cpp`).

One run works as follows:

- The builder fills an observer queue and an arrival queue with running sums of random
  inter-event times, until each clock reaches the simulation horizon.
- It takes the times from two batch arrays of 1000 slots and refills both when the batch is used
  up.
- The run loop then repeatedly takes the earliest event among the fronts of the observer, arrival
  and departure queues and hands it to the handler of its kind.
- The observer handler samples the occupancy.
- The arrival handler either admits the packet or drops it when the buffer is full. An admitted
  packet's departure is scheduled one service time after the last pending departure, or after
  the packet's own arrival when the system is empty.
- The departure handler removes the head of the departure queue.

The model is split into four modules:

- `Events` (`events.dfy`)
  - The event kinds.
  - The event record, as an immutable datatype with its two accessors.
- `Scheduler` (`scheduler.dfy`)
  - The choice of the next event, as a pure function that follows the branch chain of
    `getNextEvent`.
  - A declarative rule, `IsEarliest`, that the choice is shown to satisfy exactly.
- `Timeline` (`timeline.dfy`)
  - Specification functions for the builder: each lane's clock as a prefix sum of its variates,
    the generated events, how many events are pushed before the horizon, the batches of the
    stream, and the refill count.
  - Lemmas about these functions.
- `Simulation` (`simulation.dfy`)
  - Class `Simulator`. Its fields are the global state of `DES.cpp`: three `seq<Event>` queues
    and the six counters. A seventh field, `servicePosition`, is the position reached in the
    service-time stream. It stands for the hidden state of `rand()` that the arrival handler
    advances.
  - The builder, the three handlers and the run loop, as methods that update those fields.
  - The batch arrays are `array<real>`. They are refilled in place.
  - Well-formedness (`WellFormed`): each queue holds only its own kind of event and is in time
    order. The handlers and the dispatch loop preserve it.

Random variates are supplied as streams (`nat -> real`):

- `draws` holds the observer and arrival variates in the order the C++ fill loops draw them.
  Slot `n` has its observer variate at position `2n` and its arrival variate at `2n + 1`.
- `service` holds the service times, in the order the arrival handler asks for them.

The builder needs its loop to terminate. Every draw is therefore required to be at least some
ghost `eps > 0`, and `MaxEvents` bounds the number of events each lane pushes.

## Model

| member | source | states |
|---|---|---|
| Events.KindsAreExactlyThree | Event.h:4-8 | an event kind is observer, arrival or departure, and these three are distinct |
| Events.ConstructorStoresArguments | Event.cpp:5-16 | covers the constructor and both accessors, `Event.GetType` (`getType`) and `Event.GetTime` (`getTime`): an event built from a kind and a time returns that kind from `GetType` and that time from `GetTime` |
| Events.EventIsItsFields | Event.h:10-17 | two events are equal exactly when their kinds and times agree: an event holds no other state |
| Scheduler.Choose | DES.cpp:62-98 | the chosen queue is non-empty and its front is no later than every other non-empty front, with ties resolved as the strict comparisons imply |
| Scheduler.NextEvent | DES.cpp:62-98 | the next event is the front of some non-empty queue, and its time is at most the front time of every non-empty queue |
| Scheduler.ChooseIsTheEarliest | DES.cpp:68-97 | the branch chain picks queue q if and only if q satisfies the earliest-front rule; on a tie a departure beats both other kinds and an arrival beats an observation |
| Scheduler.ArrivalPrecedesPendingDepartures | DES.cpp:73-78 | when an arrival is chosen while departures are pending, it is strictly earlier than the last pending departure, so the back of the departure queue is the later of the two bases |
| Scheduler.NextEventIsEarliestPending | DES.cpp:62-98 | when all three queues are in time order, the next event is no later than any pending event of any kind, not only the three fronts |
| Scheduler.DispatchByKind | DES.cpp:161-169 | when every queue holds only its own kind, the kind of the next event identifies the queue whose front it is |
| Timeline.ClockMonotone | DES.cpp:48-55 | with non-negative variates a lane's running clock never decreases |
| Timeline.GeneratedSorted | DES.cpp:48-55 | a generated timeline has one event per step, is sorted by time and holds only its lane's kind |
| Timeline.GeneratedGrows | DES.cpp:48-55 | one more step appends exactly one event, stamped with the old clock plus the step's variate |
| Timeline.StopsAtUnique | DES.cpp:37 | the number of events a lane pushes before reaching the horizon is unique |
| Timeline.HorizonBounds | DES.cpp:37-56 | every generated timestamp except the last is below the horizon, the last is not, and a lane pushes at least one event exactly when the horizon is positive |
| Timeline.ClockAtLeast | DES.cpp:48-55 | with variates of at least eps, k steps take the clock to at least k times eps |
| Timeline.EventsBounded | DES.cpp:37-56 | a lane whose clock was below the horizon before its last push has pushed at most MaxEvents(horizon, eps) events |
| Timeline.StopsAtLast | DES.cpp:37-56 | a lane that stops as soon as its clock reaches the horizon has pushed exactly the count StopsAt describes |
| Timeline.LaneAdvance | DES.cpp:48-56 | a lane below the horizon uses slot n: its clock advances by the slot's variate, it has pushed one event per slot so far, and the pushed event carries the new clock |
| Timeline.LaneWaits | DES.cpp:48-56 | a lane that has reached the horizon lets the slot pass without changing its state |
| Timeline.RefillsOfSlot | DES.cpp:38-45 | n = batch · 1000 + j with 1 ≤ j ≤ 1000 gives Refills(n) = batch; batch is the batch the builder's arrays hold, so after the loop they hold batch Refills(n) |
| Simulation.Simulator.constructor | DES.cpp:13-23 | a fresh simulator has three empty queues and all counters at zero |
| Simulation.Simulator.GenerateObserverAndArrivalEvents | DES.cpp:33-60 | each queue gains exactly the prefix-sum events of its lane up to the horizon, and both arrays end up holding the batch that the last slot came from |
| Simulation.AdvanceLane | DES.cpp:48-56 | below the horizon, the lane's clock gains the variate and one event with the new clock is pushed; at or past the horizon nothing changes; in both cases the lane keeps its prefix-sum state for the next slot |
| Simulation.NextSlot | DES.cpp:38-45 | when the batch position reaches 1000, both arrays are refilled with the next batch and the position is reset to 0; in either case the arrays' entry at the new position is the variate of the current slot |
| Simulation.Refill | DES.cpp:41-44 | both arrays are overwritten with batch b of the stream, in the interleaved draw order |
| Simulation.Simulator.HandleObserverEvent | DES.cpp:100-112 | the observation counter goes up by one and the observer front is popped; the departure queue is unchanged; the idle counter goes up exactly when the departure queue is empty, and otherwise the packet count grows by the departure queue's size |
| Simulation.Simulator.HandleArrivalEvent | DES.cpp:114-132 | the arrival counter goes up by one and the arrival front is popped; below capacity one departure is appended at the next service time plus the back departure time (or the arrival time when the queue is empty); at capacity the drop counter goes up and the departure queue is unchanged; capacity and sortedness are preserved |
| Simulation.Simulator.HandleDepartureEvent | DES.cpp:134-137 | the departure counter goes up by one and exactly the head of the departure queue is removed; well-formedness is preserved |
| Simulation.Simulator.BuildTimelines | DES.cpp:149-158 | after the first batch is drawn and the builder runs, the two queues hold their lanes' generated events up to the horizon |
| Simulation.Simulator.DispatchNext | DES.cpp:162-169 | the earliest pending event goes to the handler of its kind, with that handler's full effect: an observation is counted and popped and, depending on whether the system is empty, adds one to the idle counter or the current occupancy to the packet count; an arrival is counted and popped and is either admitted with its departure one service time after the back departure (or its own arrival time), or dropped; a departure is counted and removes the head of the departure queue; every field the other handlers own keeps its value, and accounting and well-formedness are kept |
| Simulation.Simulator.DispatchAll | DES.cpp:161-170 | the loop ends with all three queues empty; every pending observation and arrival is counted exactly once; every arrival and pending departure ends as exactly one departure or drop; no counter decreases; the observations that found the system busy number at most the packets they added, which is at most queueSize times their number; accounting and well-formedness are kept |
| Simulation.OccupancySample | DES.cpp:108-110 | one more non-idle sample, of an occupancy between 1 and queueSize, keeps the packet total between the number of non-idle samples and queueSize times that number |
| Simulation.Simulator.Simulate | DES.cpp:139-171 | a run ends with every queue empty and with the observation and arrival counters equal to the numbers of generated events; departures plus drops equal arrivals; the idle count is at most the observation count; the packet count is at least the number of non-idle observations and at most queueSize times that number; no packet is dropped while the arrivals fit into the buffer; with a buffer size of zero every arrival is dropped |

## Left out

- `getExponentialRandomVariable` (DES.cpp:25-31) is replaced by the supplied streams. It uses
  `rand()`, `RAND_MAX` and floating-point `log`. When the uniform value is exactly 1, `-log(0)`
  produces an infinite draw, and the model has no counterpart for that case.
- Floating point: timestamps are `real` and the `double` counters are `nat`. Rounding and the
  precision limits of large counters are not modelled.
- The builder loop terminates only because of the ghost assumption that every draw is at least
  some `eps > 0`. A run whose draws sum past the horizon without such a bound is not covered.
- `simulateMM1Queue`, `simulateMM1KQueue` and `main` (DES.cpp:173-235) are not modelled. They are
  parameter sweeps with console output and ratio arithmetic on the counters.
- Heap allocation: the C++ pushes `new Event` pointers and never frees them. Events here are
  values, so the leak and pointer identity are not modelled.
- Statistical claims, such as mean occupancy or blocking probability, are not modelled. They are
  probabilistic statements about floats.
- The signed/unsigned comparison of `size()` with `int queueSize` (DES.cpp:118) is avoided by
  taking `queueSize` as a `nat`.
- `Simulation.Simulator.Simulate`: `servicePosition` is reset to 0 at the start of each run. Each
  run is therefore given its own service stream. In the C++, `rand()` continues across runs.
- `Simulation.Simulator.Simulate` requires the three queues to be empty on entry. The C++ never
  clears them, but every run it performs leaves them empty, as the postcondition shows.
- `Simulation.Simulator.GenerateObserverAndArrivalEvents` requires its arrays to hold the first
  batch of the stream. This is what `simulate` establishes at DES.cpp:152-155, where the initial
  fill draws from the same stream as the refills.
- The arrival handler's `L` and `C` parameters (mean packet length and link rate) are left out.
  The service time they produce is taken directly from the service stream.
- The departure base: a single-server FIFO queue schedules a departure one service time after
  the later of the arrival time and the back of the departure queue. The code adds the service
  time to the back whenever the queue is non-empty, and the model follows the code.
  `Scheduler.ArrivalPrecedesPendingDepartures` shows that during a run the two rules agree.
- DispatchAll: its contract gives the loop's combined effect as counts, bounds and the
  accounting invariant. The order in which events are handled, and the occupancy each
  observation sampled, are stated only one step at a time, by `DispatchNext`.
- Simulation.Simulator.Simulate: the idle count and the packet count are bounded, but their
  exact values are not given. Departures and drops are given only as their sum, equal to the
  arrivals, plus two edge cases: no drops while the arrivals fit into the buffer, and only drops
  when the buffer size is zero. How arrivals split into departures and drops in general, and
  with it the drop count, is not stated for a whole run. All of these values depend on the
  interleaving of the whole run, which the model states only one step at a time, by
  `DispatchNext`.
