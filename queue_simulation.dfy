/**
 * The simulation driver (QueueSimulation.java). A replication seeds a fresh
 * schedule with an arrival at time 0 and the departure of that first customer,
 * then repeatedly polls the earliest event, advances the queue's statistics
 * to its time, applies it and schedules the events that follow from it, until
 * the clock is past the horizon. `RunFrom` states that loop as a function of
 * the queue's state, the schedule and the random stream; `QueueSimulation`
 * runs it in place and is proved to compute the same thing. The sweep runs
 * 100 replications per arrival rate, all drawing from one stream in turn.
 */
module Simulation {
  import opened Wrappers
  import opened Events
  import opened Schedules
  import opened Randomness
  import opened Queues
  import opened Results

  const LAMBDAS: seq<Rate> := [0.5, 0.8, 0.9, 0.99]
  const QUEUE_QUANTITY: nat := 100
  const SIMULATION_TIME: real := 10000.0

  /** What one replication's loop works on: the queue's fields, the pending events, the stream. */
  datatype SimState = SimState(q: QueueStats, schedule: seq<Event>, draws: seq<Variate>)

  /**
   * The invariant of a replication. Exactly two events are pending, one
   * arrival and one departure; no count is negative and the area is not
   * either; no pending event lies before the clock; and while the server is
   * idle the arrival was scheduled first and is not later than the departure,
   * so that it is the one polled next.
   */
  predicate Good(st: SimState) {
    |st.schedule| == 2 && st.schedule[0].kind != st.schedule[1].kind
    && st.q.customersInQueue >= 0 && st.q.customersCompleted >= 0
    && st.q.totalWeightedTime >= 0.0
    && st.q.lastEventTime == st.q.currentTime >= 0.0
    && st.schedule[0].time >= st.q.currentTime && st.schedule[1].time >= st.q.currentTime
    && (st.q.customersInQueue == 0 ==>
          st.schedule[0].kind == Arrival && st.schedule[0].time <= st.schedule[1].time)
  }

  /**
   * The schedule a replication starts from, on a new queue: an arrival at 0
   * and the first customer's departure one service time later. Only an
   * exponential service time needs a draw.
   */
  function Start(lambda: Rate, isServiceTimeConstant: bool, draws: seq<Variate>): (r: Option<SimState>)
    ensures r.None? <==> !isServiceTimeConstant && draws == []
    ensures r.Some? ==> r.value.q == Initial && |r.value.schedule| == 2
                        && r.value.schedule[0] == Event(Arrival, 0.0)
                        && r.value.schedule[1].kind == Departure && r.value.schedule[1].time >= 0.0
    ensures r.Some? && isServiceTimeConstant ==> r.value.schedule[1].time == 1.0 && r.value.draws == draws
    ensures r.Some? ==> ServiceDraw(isServiceTimeConstant, draws) == Some(Drawn(r.value.schedule[1].time, r.value.draws))
  {
    match ServiceDraw(isServiceTimeConstant, draws)
    case None => None
    case Some(d) => Some(SimState(Initial, [Event(Arrival, 0.0), Event(Departure, d.value)], d.rest))
  }

  /** One pass of the loop body, from the poll to the last `add`. None: the stream ran out. */
  function Step(st: SimState, lambda: Rate, isServiceTimeConstant: bool): (r: Option<SimState>)
    requires st.schedule != []
    ensures var event := st.schedule[MinIndex(st.schedule)];
            r.Some? ==> r.value.q.currentTime == event.time && r.value.q.lastEventTime == event.time
                        && r.value.q.customersInQueue == st.q.customersInQueue + (if event.kind == Arrival then 1 else -1)
                        && r.value.q.customersCompleted == st.q.customersCompleted + (if event.kind == Arrival then 0 else 1)
  {
    var i := MinIndex(st.schedule);
    var event := st.schedule[i];
    var pending := RemoveAt(st.schedule, i);
    var q := st.q.Updated(event.time);
    if event.kind == Arrival then AfterArrival(q.Arrived(), pending, event, lambda, st.draws)
    else AfterDeparture(q.Departed(), pending, event, isServiceTimeConstant, st.draws)
  }

  /** The arrival branch once the customer is counted: the next arrival follows an interarrival time later. */
  function AfterArrival(q: QueueStats, pending: seq<Event>, event: Event, lambda: Rate, draws: seq<Variate>): (r: Option<SimState>)
    ensures r.None? <==> draws == []
    ensures r.Some? ==> r.value.q == q && |r.value.schedule| == |pending| + 1 && r.value.schedule[..|pending|] == pending
    ensures r.Some? ==> r.value.schedule[|pending|].kind == Arrival && r.value.schedule[|pending|].time >= event.time
  {
    match InterarrivalDraw(lambda, draws)
    case None => None
    case Some(d) => Some(SimState(q, pending + [Event(Arrival, event.time + d.value)], d.rest))
  }

  /**
   * The departure branch once the customer has left: the next service starts
   * at once if anyone is waiting, otherwise when the pending arrival comes.
   */
  function AfterDeparture(q: QueueStats, pending: seq<Event>, event: Event, isServiceTimeConstant: bool, draws: seq<Variate>): (r: Option<SimState>)
    ensures r.None? <==> PushesDeparture(q, pending) && ServiceDraw(isServiceTimeConstant, draws).None?
    ensures r.Some? ==> r.value.q == q && |r.value.schedule| >= |pending| && r.value.schedule[..|pending|] == pending
    ensures r.Some? ==> (|r.value.schedule| == |pending| + 1 <==> PushesDeparture(q, pending))
    ensures r.Some? && !PushesDeparture(q, pending) ==> r.value.schedule == pending && r.value.draws == draws
    ensures r.Some? && PushesDeparture(q, pending) ==>
              r.value.schedule[|pending|].kind == Departure
              && r.value.schedule[|pending|].time >= (if q.IsEmpty() then First(pending).value.time else event.time)
  {
    if !q.IsEmpty() then
      match ServiceDraw(isServiceTimeConstant, draws)
      case None => None
      case Some(d) => Some(SimState(q, pending + [Event(Departure, event.time + d.value)], d.rest))
    else
      var next := First(pending);
      if next.Some? && next.value.kind == Arrival then
        match ServiceDraw(isServiceTimeConstant, draws)
        case None => None
        case Some(d) => Some(SimState(q, pending + [Event(Departure, next.value.time + d.value)], d.rest))
      else
        Some(SimState(q, pending, draws))
  }

  /**
   * Whether the departure branch schedules a departure: when customers remain,
   * or when the queue is empty and `peek` finds a pending arrival.
   */
  predicate PushesDeparture(q: QueueStats, pending: seq<Event>) {
    !q.IsEmpty() || (First(pending).Some? && First(pending).value.kind == Arrival)
  }

  /** A new replication satisfies the invariant. */
  lemma StartGood(lambda: Rate, isServiceTimeConstant: bool, draws: seq<Variate>)
    ensures Start(lambda, isServiceTimeConstant, draws).Some? ==>
              Good(Start(lambda, isServiceTimeConstant, draws).value)
              && IsSuffix(Start(lambda, isServiceTimeConstant, draws).value.draws, draws)
  {
    DrawsNonNegative(lambda, isServiceTimeConstant, draws);
    match ServiceDraw(isServiceTimeConstant, draws)
    case None =>
    case Some(d) =>
  }

  /**
   * No departure is ever polled while the queue is empty, and when a departure
   * empties the queue the event `peek` then finds is the pending arrival.
   */
  lemma DepartureNeedsCustomer(st: SimState)
    requires Good(st)
    ensures First(st.schedule).value.kind == Departure ==> st.q.customersInQueue >= 1
    ensures First(st.schedule).value.kind == Departure && st.q.customersInQueue == 1 ==>
              var pending := RemoveAt(st.schedule, MinIndex(st.schedule));
              First(pending).Some? && First(pending).value.kind == Arrival
  {
    var s := st.schedule;
    var i := MinIndex(s);
    if st.q.customersInQueue == 0 {
      assert i == 0;
    }
    if s[i].kind == Departure {
      assert RemoveAt(s, i) == [s[1 - i]];
    }
  }

  /** What a step must establish about the state it leads to. */
  predicate StepOk(st: SimState, next: SimState) {
    Good(next)
    && next.q.currentTime >= st.q.currentTime
    && IsSuffix(next.draws, st.draws)
    && (|next.draws| < |st.draws|
        || (|next.draws| == |st.draws| && next.q.customersInQueue < st.q.customersInQueue))
  }

  /** The facts every step starts from: the polled event, the one left pending, and their times. */
  lemma PollFacts(st: SimState)
    requires Good(st)
    ensures var i := MinIndex(st.schedule);
            RemoveAt(st.schedule, i) == [st.schedule[1 - i]]
            && st.q.currentTime <= st.schedule[i].time <= st.schedule[1 - i].time
            && st.schedule[i].kind != st.schedule[1 - i].kind
  {
    var i := MinIndex(st.schedule);
    assert RemoveAt(st.schedule, i) == [st.schedule[1 - i]];
  }

  /** An arrival leaves the pending departure and schedules the next arrival. */
  lemma ArrivalStepOk(st: SimState, lambda: Rate, isServiceTimeConstant: bool, d: Drawn)
    requires Good(st)
    requires st.schedule[MinIndex(st.schedule)].kind == Arrival
    requires InterarrivalDraw(lambda, st.draws) == Some(d)
    ensures var i := MinIndex(st.schedule);
            var event := st.schedule[i];
            var next := SimState(st.q.Updated(event.time).Arrived(),
                                 [st.schedule[1 - i], Event(Arrival, event.time + d.value)], d.rest);
            Step(st, lambda, isServiceTimeConstant) == Some(next) && StepOk(st, next)
  {
    var i := MinIndex(st.schedule);
    PollFacts(st);
    assert RemoveAt(st.schedule, i) + [Event(Arrival, st.schedule[i].time + d.value)]
        == [st.schedule[1 - i], Event(Arrival, st.schedule[i].time + d.value)];
    DrawsNonNegative(lambda, true, st.draws);
    UpdateNeverDecreasesArea(st.q, st.schedule[i].time);
  }

  /** A departure that leaves customers behind starts the next service at once. */
  lemma BusyDepartureStepOk(st: SimState, lambda: Rate, isServiceTimeConstant: bool, d: Drawn)
    requires Good(st)
    requires st.schedule[MinIndex(st.schedule)].kind == Departure
    requires st.q.customersInQueue != 1
    requires ServiceDraw(isServiceTimeConstant, st.draws) == Some(d)
    ensures var i := MinIndex(st.schedule);
            var event := st.schedule[i];
            var next := SimState(st.q.Updated(event.time).Departed(),
                                 [st.schedule[1 - i], Event(Departure, event.time + d.value)], d.rest);
            Step(st, lambda, isServiceTimeConstant) == Some(next) && StepOk(st, next)
  {
    var i := MinIndex(st.schedule);
    PollFacts(st);
    DepartureNeedsCustomer(st);
    assert !st.q.Updated(st.schedule[i].time).Departed().IsEmpty();
    assert RemoveAt(st.schedule, i) + [Event(Departure, st.schedule[i].time + d.value)]
        == [st.schedule[1 - i], Event(Departure, st.schedule[i].time + d.value)];
    DrawsNonNegative(1.0, isServiceTimeConstant, st.draws);
    UpdateNeverDecreasesArea(st.q, st.schedule[i].time);
  }

  /** A departure that empties the queue schedules the next departure after the pending arrival. */
  lemma IdleDepartureStepOk(st: SimState, lambda: Rate, isServiceTimeConstant: bool, d: Drawn)
    requires Good(st)
    requires st.schedule[MinIndex(st.schedule)].kind == Departure
    requires st.q.customersInQueue == 1
    requires ServiceDraw(isServiceTimeConstant, st.draws) == Some(d)
    ensures var i := MinIndex(st.schedule);
            var event := st.schedule[i];
            var arrival := st.schedule[1 - i];
            var next := SimState(st.q.Updated(event.time).Departed(),
                                 [arrival, Event(Departure, arrival.time + d.value)], d.rest);
            Step(st, lambda, isServiceTimeConstant) == Some(next) && StepOk(st, next)
  {
    var i := MinIndex(st.schedule);
    PollFacts(st);
    DepartureNeedsCustomer(st);
    assert First(RemoveAt(st.schedule, i)) == Some(st.schedule[1 - i]);
    assert RemoveAt(st.schedule, i) + [Event(Departure, st.schedule[1 - i].time + d.value)]
        == [st.schedule[1 - i], Event(Departure, st.schedule[1 - i].time + d.value)];
    DrawsNonNegative(1.0, isServiceTimeConstant, st.draws);
    UpdateNeverDecreasesArea(st.q, st.schedule[i].time);
  }

  /** A step fails exactly when the draw it needs is missing: the interarrival draw for an arrival, the service draw for a departure. */
  lemma StepNeedsDraw(st: SimState, lambda: Rate, isServiceTimeConstant: bool)
    requires Good(st)
    ensures st.schedule[MinIndex(st.schedule)].kind == Arrival ==>
              (Step(st, lambda, isServiceTimeConstant).None? <==> InterarrivalDraw(lambda, st.draws).None?)
    ensures st.schedule[MinIndex(st.schedule)].kind == Departure ==>
              (Step(st, lambda, isServiceTimeConstant).None? <==> ServiceDraw(isServiceTimeConstant, st.draws).None?)
  {
    PollFacts(st);
    DepartureNeedsCustomer(st);
  }

  /**
   * A step keeps the invariant, never moves the clock back, takes its draws
   * from the front of the stream, and either consumes a draw or serves a
   * customer (the termination measure of the loop).
   */
  lemma StepPreservesGood(st: SimState, lambda: Rate, isServiceTimeConstant: bool)
    requires Good(st)
    ensures Step(st, lambda, isServiceTimeConstant).Some? ==> StepOk(st, Step(st, lambda, isServiceTimeConstant).value)
  {
    var i := MinIndex(st.schedule);
    PollFacts(st);
    DepartureNeedsCustomer(st);
    if st.schedule[i].kind == Arrival {
      if InterarrivalDraw(lambda, st.draws).Some? {
        ArrivalStepOk(st, lambda, isServiceTimeConstant, InterarrivalDraw(lambda, st.draws).value);
      }
    } else if ServiceDraw(isServiceTimeConstant, st.draws).Some? {
      var d := ServiceDraw(isServiceTimeConstant, st.draws).value;
      if st.q.customersInQueue != 1 {
        BusyDepartureStepOk(st, lambda, isServiceTimeConstant, d);
      } else {
        IdleDepartureStepOk(st, lambda, isServiceTimeConstant, d);
      }
    }
  }

  /**
   * The loop of `simulateSingleQueue` from a given state: it tests the clock
   * before each poll and so stops at the first state past the horizon, or at
   * an empty schedule. None: the stream ran out first.
   */
  function RunFrom(st: SimState, lambda: Rate, isServiceTimeConstant: bool): (r: Option<SimState>)
    requires Good(st)
    ensures r.Some? ==> r.value.q.currentTime > SIMULATION_TIME || r.value.schedule == []
    decreases |st.draws|, st.q.customersInQueue, 1
  {
    if st.q.currentTime > SIMULATION_TIME then Some(st)
    else if st.schedule == [] then Some(st)
    else StepThenRun(st, lambda, isServiceTimeConstant)
  }

  /** One pass of the loop body and then the rest of the loop. */
  function StepThenRun(st: SimState, lambda: Rate, isServiceTimeConstant: bool): (r: Option<SimState>)
    requires Good(st)
    ensures r.Some? ==> r.value.q.currentTime > SIMULATION_TIME || r.value.schedule == []
    decreases |st.draws|, st.q.customersInQueue, 0
  {
    match Step(st, lambda, isServiceTimeConstant)
    case None => None
    case Some(next) =>
      StepPreservesGood(st, lambda, isServiceTimeConstant);
      RunFrom(next, lambda, isServiceTimeConstant)
  }

  /** Below the horizon, the loop from a state is the loop from the state one step later. */
  lemma RunFromStep(st: SimState, lambda: Rate, isServiceTimeConstant: bool)
    requires Good(st) && st.q.currentTime <= SIMULATION_TIME
    ensures Step(st, lambda, isServiceTimeConstant).None? ==> RunFrom(st, lambda, isServiceTimeConstant).None?
    ensures Step(st, lambda, isServiceTimeConstant).Some? ==>
              StepOk(st, Step(st, lambda, isServiceTimeConstant).value)
              && RunFrom(st, lambda, isServiceTimeConstant)
                 == RunFrom(Step(st, lambda, isServiceTimeConstant).value, lambda, isServiceTimeConstant)
  {
    StepPreservesGood(st, lambda, isServiceTimeConstant);
  }

  /**
   * A replication that completes ends in a state that still satisfies the
   * invariant, with the clock past the horizon (the schedule never empties),
   * never earlier than where it started, and with the stream consumed in order.
   */
  lemma {:induction false} RunFromEnds(st: SimState, lambda: Rate, isServiceTimeConstant: bool)
    requires Good(st)
    ensures RunFrom(st, lambda, isServiceTimeConstant).Some? ==>
              var fin := RunFrom(st, lambda, isServiceTimeConstant).value;
              Good(fin) && fin.q.currentTime > SIMULATION_TIME
              && fin.q.currentTime >= st.q.currentTime
              && IsSuffix(fin.draws, st.draws)
    decreases |st.draws|, st.q.customersInQueue
  {
    if st.q.currentTime <= SIMULATION_TIME {
      StepPreservesGood(st, lambda, isServiceTimeConstant);
      match Step(st, lambda, isServiceTimeConstant)
      case None =>
      case Some(next) =>
        RunFromEnds(next, lambda, isServiceTimeConstant);
        if RunFrom(next, lambda, isServiceTimeConstant).Some? {
          SuffixTransitive(RunFrom(next, lambda, isServiceTimeConstant).value.draws, next.draws, st.draws);
        }
    }
  }

  /** A span of simulated time: never negative. */
  type Duration = t: real | t >= 0.0

  /** The mean time in system of one replication, and the stream it leaves. */
  datatype Replication = Replication(mean: Duration, rest: seq<Variate>)

  /** `simulateSingleQueue`: None only when the stream runs out. */
  function Replicate(lambda: Rate, isServiceTimeConstant: bool, draws: seq<Variate>): (r: Option<Replication>)
    ensures r.Some? ==> IsSuffix(r.value.rest, draws)
  {
    StartGood(lambda, isServiceTimeConstant, draws);
    match Start(lambda, isServiceTimeConstant, draws)
    case None => None
    case Some(st) =>
      RunFromEnds(st, lambda, isServiceTimeConstant);
      match RunFrom(st, lambda, isServiceTimeConstant)
      case None => None
      case Some(fin) =>
        AverageNonNegative(fin.q, lambda);
        SuffixTransitive(fin.draws, st.draws, draws);
        Some(Replication(fin.q.AverageTimeInSystem(lambda).value, fin.draws))
  }

  /** The means of several replications run one after another on one stream, and the stream left. */
  datatype Batch = Batch(means: seq<Duration>, rest: seq<Variate>)

  /**
   * The inner loop of `runAllSimulations`: `count` replications, each
   * continuing the stream where the one before stopped. None as soon as one
   * of them runs out of stream.
   */
  function Replications(lambda: Rate, isServiceTimeConstant: bool, count: nat, draws: seq<Variate>): (r: Option<Batch>)
    ensures r.Some? ==> |r.value.means| == count && IsSuffix(r.value.rest, draws)
    decreases count
  {
    if count == 0 then Some(Batch([], draws))
    else
      match Replicate(lambda, isServiceTimeConstant, draws)
      case None => None
      case Some(rep) =>
        match Replications(lambda, isServiceTimeConstant, count - 1, rep.rest)
        case None => None
        case Some(later) =>
          SuffixTransitive(later.rest, rep.rest, draws);
          Some(Batch([rep.mean] + later.means, later.rest))
  }

  /** The means already collected in front of what the remaining replications give. */
  function Prefixed(means: seq<Duration>, r: Option<Batch>): Option<Batch> {
    match r
    case None => None
    case Some(b) => Some(Batch(means + b.means, b.rest))
  }

  /** One more replication moves its mean from what remains to what is collected. */
  lemma PrefixedStep(lambda: Rate, isServiceTimeConstant: bool, n: nat, draws: seq<Variate>, means: seq<Duration>)
    requires n > 0
    ensures Prefixed(means, Replications(lambda, isServiceTimeConstant, n, draws))
         == match Replicate(lambda, isServiceTimeConstant, draws)
            case None => None
            case Some(rep) => Prefixed(means + [rep.mean], Replications(lambda, isServiceTimeConstant, n - 1, rep.rest))
  {
    match Replicate(lambda, isServiceTimeConstant, draws)
    case None =>
    case Some(rep) =>
      match Replications(lambda, isServiceTimeConstant, n - 1, rep.rest)
      case None =>
      case Some(later) =>
        assert means + ([rep.mean] + later.means) == (means + [rep.mean]) + later.means;
  }

  function Sum(xs: seq<real>): real {
    if xs == [] then 0.0 else Sum(xs[..|xs| - 1]) + xs[|xs| - 1]
  }

  /** The stream average with `orElse(0.0)`: the sum over the count, or 0 for no values. */
  function Average(xs: seq<real>): (r: real)
    ensures xs == [] ==> r == 0.0
    ensures xs != [] ==> r * |xs| as real == Sum(xs)
  {
    if xs == [] then 0.0 else Sum(xs) / |xs| as real
  }

  predicate AllAtLeast(xs: seq<real>, lo: real) {
    forall k :: 0 <= k < |xs| ==> lo <= xs[k]
  }

  lemma {:induction false} SumAtLeast(xs: seq<real>, lo: real)
    requires AllAtLeast(xs, lo)
    ensures |xs| as real * lo <= Sum(xs)
  {
    if xs != [] {
      SumAtLeast(xs[..|xs| - 1], lo);
    }
  }

  /** The average of values that are all at least `lo` is at least `lo`. */
  lemma AverageAtLeast(xs: seq<real>, lo: real)
    requires AllAtLeast(xs, lo)
    requires xs != [] || lo <= 0.0
    ensures lo <= Average(xs)
  {
    if xs != [] {
      SumAtLeast(xs, lo);
      var n := |xs| as real;
      assert Sum(xs) / n >= (n * lo) / n;
    }
  }

  /** `1 / (1 - lambda)`: the mean time in system of the queue with unit service rate. */
  function TheoreticalResponseTime(lambda: real): (w: real)
    requires lambda != 1.0
    ensures w * (1.0 - lambda) == 1.0
    ensures 0.0 < lambda < 1.0 ==> w > 1.0
  {
    1.0 / (1.0 - lambda)
  }

  /** For the configured rates the theoretical times are 2, 5, 10 and 100. */
  lemma TheoreticalValues()
    ensures TheoreticalResponseTime(LAMBDAS[0]) == 2.0
    ensures TheoreticalResponseTime(LAMBDAS[1]) == 5.0
    ensures TheoreticalResponseTime(LAMBDAS[2]) == 10.0
    ensures TheoreticalResponseTime(LAMBDAS[3]) == 100.0
  {
  }

  /** One entry of the ordered result map: an arrival rate and its result. */
  datatype Entry = Entry(lambda: Rate, result: SimulationResult)

  /** The entries produced so far and the stream left. */
  datatype Swept = Swept(entries: seq<Entry>, rest: seq<Variate>)

  /**
   * The outer loop of `runAllSimulations` over the first `k` rates: one entry
   * per rate, in the order of LAMBDAS, its theoretical value 1 / (1 - lambda),
   * its simulated value the average of QUEUE_QUANTITY non-negative means.
   */
  function SweepUpTo(isServiceTimeConstant: bool, k: nat, draws: seq<Variate>): (r: Option<Swept>)
    requires k <= |LAMBDAS|
    ensures r.Some? ==> |r.value.entries| == k && IsSuffix(r.value.rest, draws)
    ensures r.Some? ==> forall j :: 0 <= j < k ==> EntryFor(r.value.entries[j], LAMBDAS[j])
    decreases k
  {
    if k == 0 then Some(Swept([], draws))
    else
      match SweepUpTo(isServiceTimeConstant, k - 1, draws)
      case None => None
      case Some(prev) =>
        var lambda := LAMBDAS[k - 1];
        RatesBelowOne(k - 1);
        match Replications(lambda, isServiceTimeConstant, QUEUE_QUANTITY, prev.rest)
        case None => None
        case Some(batch) =>
          AverageAtLeast(batch.means, 0.0);
          SuffixTransitive(batch.rest, prev.rest, draws);
          var entry := Entry(lambda, SimulationResult(Average(batch.means), TheoreticalResponseTime(lambda)));
          EntriesAppend(prev.entries, entry, k - 1);
          Some(Swept(prev.entries + [entry], batch.rest))
  }

  lemma SweepExhausted(isServiceTimeConstant: bool, k: nat, draws: seq<Variate>)
    requires k < |LAMBDAS|
    requires SweepUpTo(isServiceTimeConstant, k, draws).Some?
    requires Replications(LAMBDAS[k], isServiceTimeConstant, QUEUE_QUANTITY, SweepUpTo(isServiceTimeConstant, k, draws).value.rest).None?
    ensures SweepUpTo(isServiceTimeConstant, |LAMBDAS|, draws).None?
  {
    SweepStaysExhausted(isServiceTimeConstant, k + 1, |LAMBDAS|, draws);
  }

  /** One more rate: the entry for it follows the earlier ones, and the stream continues where its replications stopped. */
  lemma SweepStep(isServiceTimeConstant: bool, k: nat, draws: seq<Variate>, prev: Swept, batch: Batch)
    requires k < |LAMBDAS|
    requires SweepUpTo(isServiceTimeConstant, k, draws) == Some(prev)
    requires Replications(LAMBDAS[k], isServiceTimeConstant, QUEUE_QUANTITY, prev.rest) == Some(batch)
    ensures 0.0 < LAMBDAS[k] < 1.0
    ensures SweepUpTo(isServiceTimeConstant, k + 1, draws)
         == Some(Swept(prev.entries + [Entry(LAMBDAS[k], SimulationResult(Average(batch.means), TheoreticalResponseTime(LAMBDAS[k])))], batch.rest))
  {
  }

  /** Appending the entry for the next rate keeps every entry matched to its rate. */
  lemma EntriesAppend(entries: seq<Entry>, entry: Entry, k: nat)
    requires k < |LAMBDAS| && |entries| == k
    requires forall j :: 0 <= j < k ==> EntryFor(entries[j], LAMBDAS[j])
    requires EntryFor(entry, LAMBDAS[k])
    ensures forall j :: 0 <= j < k + 1 ==> EntryFor((entries + [entry])[j], LAMBDAS[j])
  {
  }

  /** Every configured rate lies strictly between 0 and 1. */
  lemma RatesBelowOne(j: nat)
    requires j < |LAMBDAS|
    ensures 0.0 < LAMBDAS[j] < 1.0
  {
  }

  /** The entry for one rate: keyed by it, theoretical value 1 / (1 - lambda), non-negative simulated mean. */
  predicate EntryFor(e: Entry, lambda: real)
    requires 0.0 < lambda < 1.0
  {
    e.lambda == lambda
    && e.result.theoretical == TheoreticalResponseTime(lambda)
    && e.result.simulation >= 0.0
  }

  /** Once the stream has run out, the remaining rates do not bring it back. */
  lemma {:induction false} SweepStaysExhausted(isServiceTimeConstant: bool, i: nat, n: nat, draws: seq<Variate>)
    requires i <= n <= |LAMBDAS|
    requires SweepUpTo(isServiceTimeConstant, i, draws).None?
    ensures SweepUpTo(isServiceTimeConstant, n, draws).None?
    decreases n
  {
    if i < n {
      SweepStaysExhausted(isServiceTimeConstant, i, n - 1, draws);
    }
  }

  class QueueSimulation {
    const isServiceTimeConstant: bool
    const random: RandomStream

    /** `QueueSimulation(isServiceTimeConstant, seed)`: a fresh generator; `draws` is the sequence the seed yields. */
    constructor (isServiceTimeConstant: bool, draws: seq<Variate>)
      ensures this.isServiceTimeConstant == isServiceTimeConstant
      ensures fresh(random) && random.draws == draws
    {
      this.isServiceTimeConstant := isServiceTimeConstant;
      random := new RandomStream(draws);
    }

    /** The state of a replication in progress: its queue, its schedule and the stream. */
    ghost function Snapshot(queue: Queue, eventQueue: Schedule): SimState
      reads queue, eventQueue, random
    {
      SimState(queue.Stats(), eventQueue.events, random.draws)
    }

    /**
     * The body of the loop of `simulateSingleQueue`: poll the earliest event,
     * advance the statistics to its time, then apply it. It does what `Step`
     * describes; `exhausted` means the stream ran out.
     */
    method ProcessNextEvent(queue: Queue, eventQueue: Schedule) returns (exhausted: bool)
      requires queue.random == random && eventQueue.events != []
      modifies queue, eventQueue, random
      ensures match Step(old(Snapshot(queue, eventQueue)), queue.lambda, queue.isServiceTimeConstant)
              case None => exhausted
              case Some(next) => !exhausted && Snapshot(queue, eventQueue) == next
    {
      var polled := eventQueue.Poll();
      var event := polled.value;
      queue.UpdateStatistics(event.time);
      if event.kind == Arrival {
        exhausted := HandleArrival(queue, eventQueue, event);
      } else {
        exhausted := HandleDeparture(queue, eventQueue, event);
      }
    }

    /** The arrival branch of the loop body: count the customer, schedule the next arrival. */
    method HandleArrival(queue: Queue, eventQueue: Schedule, event: Event) returns (exhausted: bool)
      requires queue.random == random
      modifies queue, eventQueue, random
      ensures match AfterArrival(old(queue.Stats()).Arrived(), old(eventQueue.events), event, queue.lambda, old(random.draws))
              case None => exhausted
              case Some(next) => !exhausted && Snapshot(queue, eventQueue) == next
    {
      queue.ProcessArrival();
      var interarrival := queue.GenerateInterarrivalTime();
      if interarrival.None? {
        return true;
      }
      eventQueue.Add(Event(Arrival, event.time + interarrival.value));
      exhausted := false;
    }

    /**
     * The departure branch of the loop body: the customer leaves; the next
     * service is scheduled from now if anyone waits, else from the arrival
     * `peek` finds.
     */
    method HandleDeparture(queue: Queue, eventQueue: Schedule, event: Event) returns (exhausted: bool)
      requires queue.random == random
      modifies queue, eventQueue, random
      ensures match AfterDeparture(old(queue.Stats()).Departed(), old(eventQueue.events), event,
                                   queue.isServiceTimeConstant, old(random.draws))
              case None => exhausted
              case Some(next) => !exhausted && Snapshot(queue, eventQueue) == next
    {
      queue.ProcessDeparture();
      exhausted := false;
      if !queue.IsEmpty() {
        var service := queue.GenerateServiceTime();
        if service.None? {
          return true;
        }
        eventQueue.Add(Event(Departure, event.time + service.value));
      } else {
        var nextArrival := eventQueue.Peek();
        if nextArrival.Some? && nextArrival.value.kind == Arrival {
          var service := queue.GenerateServiceTime();
          if service.None? {
            return true;
          }
          eventQueue.Add(Event(Departure, nextArrival.value.time + service.value));
        }
      }
    }

    /**
     * `simulateSingleQueue`: one replication on a fresh queue and a fresh
     * schedule. It returns what `Replicate` gives for the stream as it was on
     * entry and leaves the stream where that replication stops drawing; None
     * only when the stream runs out first.
     */
    method SimulateSingleQueue(lambda: Rate) returns (avg: Option<real>)
      modifies random
      ensures match Replicate(lambda, isServiceTimeConstant, old(random.draws))
              case None => avg == None
              case Some(rep) => avg == Some(rep.mean) && random.draws == rep.rest
    {
      ghost var draws := random.draws;
      StartGood(lambda, isServiceTimeConstant, draws);
      var queue := new Queue(lambda, isServiceTimeConstant, random);
      var eventQueue := new Schedule();
      eventQueue.Add(Event(Arrival, 0.0));
      var firstService := queue.GenerateServiceTime();
      if firstService.None? {
        return None;
      }
      eventQueue.Add(Event(Departure, firstService.value));
      assert eventQueue.events == [Event(Arrival, 0.0), Event(Departure, firstService.value)];
      ghost var start := SimState(queue.Stats(), eventQueue.events, random.draws);
      assert Start(lambda, isServiceTimeConstant, draws) == Some(start);

      while queue.currentTime <= SIMULATION_TIME
        invariant fresh(queue) && fresh(eventQueue)
        invariant queue.lambda == lambda && queue.isServiceTimeConstant == isServiceTimeConstant
        invariant queue.random == random
        invariant Good(Snapshot(queue, eventQueue))
        invariant RunFrom(Snapshot(queue, eventQueue), lambda, isServiceTimeConstant)
               == RunFrom(start, lambda, isServiceTimeConstant)
        decreases |random.draws|, queue.customersInQueue
      {
        if eventQueue.IsEmpty() {
          break;
        }
        ghost var current := Snapshot(queue, eventQueue);
        RunFromStep(current, lambda, isServiceTimeConstant);
        var exhausted := ProcessNextEvent(queue, eventQueue);
        if exhausted {
          return None;
        }
      }

      ghost var final := Snapshot(queue, eventQueue);
      assert RunFrom(start, lambda, isServiceTimeConstant) == Some(final);
      AverageNonNegative(final.q, lambda);
      avg := queue.AverageTimeInSystem();
    }

    /**
     * `runAllSimulations`: for each rate of LAMBDAS in order, QUEUE_QUANTITY
     * replications drawing from the one stream in turn, their average, and the
     * theoretical value; what `SweepUpTo` gives for the stream on entry.
     */
    method RunAllSimulations() returns (results: Option<seq<Entry>>)
      modifies random
      ensures match SweepUpTo(isServiceTimeConstant, |LAMBDAS|, old(random.draws))
              case None => results == None
              case Some(sw) => results == Some(sw.entries) && random.draws == sw.rest
    {
      ghost var initial := random.draws;
      var entries: seq<Entry> := [];
      for k := 0 to |LAMBDAS|
        invariant SweepUpTo(isServiceTimeConstant, k, initial) == Some(Swept(entries, random.draws))
      {
        var lambda := LAMBDAS[k];
        ghost var prev := Swept(entries, random.draws);
        var averageTimes := RunReplications(lambda, QUEUE_QUANTITY);
        if averageTimes.None? {
          SweepExhausted(isServiceTimeConstant, k, initial);
          return None;
        }
        ghost var batch := Batch(averageTimes.value, random.draws);
        SweepStep(isServiceTimeConstant, k, initial, prev, batch);
        var simulationMean := Average(averageTimes.value);
        var theoreticalResponseTime := TheoreticalResponseTime(lambda);
        entries := entries + [Entry(lambda, SimulationResult(simulationMean, theoreticalResponseTime))];
      }
      results := Some(entries);
    }

    /**
     * The inner loop of `runAllSimulations`: `count` (there QUEUE_QUANTITY)
     * replications at one rate, each continuing the stream; what
     * `Replications` gives.
     */
    method RunReplications(lambda: Rate, count: nat) returns (averageTimes: Option<seq<real>>)
      modifies random
      ensures match Replications(lambda, isServiceTimeConstant, count, old(random.draws))
              case None => averageTimes == None
              case Some(batch) => averageTimes == Some(batch.means) && random.draws == batch.rest
    {
      ghost var before := random.draws;
      var times: seq<Duration> := [];
      assert Prefixed(times, Replications(lambda, isServiceTimeConstant, count, before))
          == Replications(lambda, isServiceTimeConstant, count, before) by {
        var all := Replications(lambda, isServiceTimeConstant, count, before);
        assert all.Some? ==> [] + all.value.means == all.value.means;
      }
      for i := 0 to count
        invariant Replications(lambda, isServiceTimeConstant, count, before)
               == Prefixed(times, Replications(lambda, isServiceTimeConstant, count - i, random.draws))
      {
        ghost var draws := random.draws;
        PrefixedStep(lambda, isServiceTimeConstant, count - i, draws, times);
        var avgTime := SimulateSingleQueue(lambda);
        if avgTime.None? {
          return None;
        }
        ghost var rep := Replicate(lambda, isServiceTimeConstant, draws).value;
        assert avgTime.value == rep.mean && random.draws == rep.rest;
        times := times + [avgTime.value];
      }
      assert times + [] == times;
      averageTimes := Some(times);
    }
  }
}
