/** The event record: a kind and a timestamp, and nothing else (Event.h, Event.cpp). */
module Events {

  /** The three kinds an event can have. */
  datatype Kind = Observer | Arrival | Departure

  /** An event. Being a datatype value, it has no identity and cannot change after construction. */
  datatype Event = Event(kind: Kind, time: real)
  {
    /** The timestamp the event was built with. */
    function GetTime(): real { time }

    /** The kind the event was built with. */
    function GetType(): Kind { kind }
  }

  /** There are exactly three kinds, and they are distinct. */
  lemma KindsAreExactlyThree(k: Kind)
    ensures k == Observer || k == Arrival || k == Departure
    ensures Observer != Arrival && Arrival != Departure && Observer != Departure
  {}

  /** The accessors return what the constructor was given. */
  lemma ConstructorStoresArguments(k: Kind, t: real)
    ensures Event(k, t).GetType() == k
    ensures Event(k, t).GetTime() == t
  {}

  /** An event is determined by its kind and timestamp: there is no other state. */
  lemma EventIsItsFields(e: Event, e': Event)
    ensures e == e' <==> e.GetType() == e'.GetType() && e.GetTime() == e'.GetTime()
    ensures Event(e.GetType(), e.GetTime()) == e
  {}

  /** Timestamps never decrease from the front of the queue to its back. */
  ghost predicate Sorted(q: seq<Event>)
  {
    forall i, j :: 0 <= i <= j < |q| ==> q[i].time <= q[j].time
  }

  /** Every event of the queue has kind k. */
  ghost predicate AllOfKind(q: seq<Event>, k: Kind)
  {
    forall i :: 0 <= i < |q| ==> q[i].kind == k
  }
}
