/**
 * An event of the simulation: an immutable (type, time) pair, ordered by time
 * alone (Event.java). The datatype's destructors `kind` and `time` are the
 * getters `getType` and `getTime`; a constructed event reports exactly the
 * arguments it was built from, time 0 and very large times included.
 */
module Events {

  datatype EventType = Arrival | Departure

  datatype Event = Event(kind: EventType, time: real)

  /** `compareTo`: Double.compare on the two times, -1, 0 or 1; the type is never consulted. */
  function Compare(a: Event, b: Event): (r: int)
    ensures r < 0 <==> a.time < b.time
    ensures r > 0 <==> a.time > b.time
    ensures r == 0 <==> a.time == b.time
    ensures -1 <= r <= 1
  {
    if a.time < b.time then -1 else if a.time > b.time then 1 else 0
  }

  /** Comparable's contract: the sign flips when the arguments are swapped. */
  lemma CompareAntisymmetric(a: Event, b: Event)
    ensures Compare(a, b) == -Compare(b, a)
  {
  }

  /** Two events of the same time compare equal whatever their types: there is no tie-break. */
  lemma CompareIgnoresType(a: Event, b: Event)
    requires a.time == b.time
    ensures Compare(a, b) == 0
    ensures Compare(Event(Arrival, a.time), Event(Departure, b.time)) == 0
  {
  }

  /** The order is transitive, so a priority queue over it is well defined. */
  lemma CompareTransitive(a: Event, b: Event, c: Event)
    requires Compare(a, b) <= 0 && Compare(b, c) <= 0
    ensures Compare(a, c) <= 0
  {
  }
}
