/**
 * The event schedule: the `java.util.PriorityQueue<Event>` the driver creates
 * for each replication, modelled by its contract. Events are kept in
 * insertion order; `poll` and `peek` return an event of least time, and among
 * events of equal time the one added first. For the two-event schedule of the
 * driver this is also what the binary heap does, since it only swaps a new
 * element above an older one when it is strictly smaller.
 */
module Schedules {
  import opened Events
  import opened Wrappers

  /**
   * Index of the first event of least time in a non-empty sequence, ordered
   * by `compareTo`: a later event displaces the one found so far only when it
   * compares strictly below it.
   */
  function MinIndex(s: seq<Event>): (i: nat)
    requires |s| > 0
    ensures i < |s|
    ensures forall j :: 0 <= j < |s| ==> s[i].time <= s[j].time
    ensures forall j :: 0 <= j < i ==> s[i].time < s[j].time
  {
    if |s| == 1 then 0
    else
      var k := MinIndex(s[..|s| - 1]);
      if Compare(s[|s| - 1], s[k]) < 0 then |s| - 1 else k
  }

  function RemoveAt(s: seq<Event>, i: nat): seq<Event>
    requires i < |s|
  {
    s[..i] + s[i + 1..]
  }

  lemma RemoveAtMultiset(s: seq<Event>, i: nat)
    requires i < |s|
    ensures multiset(RemoveAt(s, i)) + multiset{s[i]} == multiset(s)
  {
    assert s == s[..i] + [s[i]] + s[i + 1..];
  }

  /** The events a sequence of polls returns, in the order it returns them. */
  function Drain(s: seq<Event>): seq<Event>
    decreases |s|
  {
    if |s| == 0 then []
    else
      var i := MinIndex(s);
      [s[i]] + Drain(RemoveAt(s, i))
  }

  predicate NonDecreasingTimes(s: seq<Event>) {
    forall j, k :: 0 <= j < k < |s| ==> s[j].time <= s[k].time
  }

  /** Polling until empty returns every event added, each exactly once. */
  lemma {:induction false} DrainPermutation(s: seq<Event>)
    ensures multiset(Drain(s)) == multiset(s)
    decreases |s|
  {
    if |s| > 0 {
      var i := MinIndex(s);
      DrainPermutation(RemoveAt(s, i));
      RemoveAtMultiset(s, i);
    }
  }

  /** Polling until empty returns the events in non-decreasing order of time. */
  lemma {:induction false} DrainSorted(s: seq<Event>)
    ensures NonDecreasingTimes(Drain(s))
    decreases |s|
  {
    if |s| > 0 {
      var i := MinIndex(s);
      var rest := RemoveAt(s, i);
      DrainSorted(rest);
      DrainPermutation(rest);
      RemoveAtMultiset(s, i);
      var d := Drain(s);
      forall k | 1 <= k < |d|
        ensures d[0].time <= d[k].time
      {
        assert d[k] in multiset(Drain(rest));
        assert d[k] in multiset(s);
      }
    }
  }

  /** The event a poll returns: the first of least time; None (Java's null) when there is none. */
  function First(s: seq<Event>): (r: Option<Event>)
    ensures r.None? <==> s == []
    ensures r.Some? ==> r.value in s && forall x :: x in s ==> r.value.time <= x.time
  {
    if s == [] then None else Some(s[MinIndex(s)])
  }

  class Schedule {
    var events: seq<Event>

    /** `new PriorityQueue<>()`: an empty schedule. */
    constructor ()
      ensures events == []
    {
      events := [];
    }

    /** `add`: the event joins the schedule, whatever its time. */
    method Add(e: Event)
      modifies this
      ensures events == old(events) + [e]
    {
      events := events + [e];
    }

    /** `isEmpty`. */
    predicate IsEmpty()
      reads this
    {
      events == []
    }

    /** `peek`: the event `Poll` would return, without removing it. */
    function Peek(): (r: Option<Event>)
      reads this
      ensures r.None? <==> events == []
      ensures r.Some? ==> r.value in events && forall x :: x in events ==> r.value.time <= x.time
    {
      First(events)
    }

    /** `poll`: removes and returns an event of least time; None (Java's null) when empty. */
    method Poll() returns (r: Option<Event>)
      modifies this
      ensures r == First(old(events))
      ensures old(events) == [] ==> events == []
      ensures old(events) != [] ==> events == RemoveAt(old(events), MinIndex(old(events)))
    {
      if events == [] {
        r := None;
      } else {
        var i := MinIndex(events);
        r := Some(events[i]);
        events := RemoveAt(events, i);
      }
    }
  }

  /** An event strictly earlier than every other is the one a poll returns first. */
  lemma DrainStrictMinimum(s: seq<Event>, i: nat)
    requires i < |s|
    requires forall j :: 0 <= j < |s| && j != i ==> s[i].time < s[j].time
    ensures Drain(s) == [s[i]] + Drain(RemoveAt(s, i))
  {
    var m := MinIndex(s);
    assert s[m].time <= s[i].time;
    assert m == i;
  }
}
