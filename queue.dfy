/**
 * One single-server queue (Queue.java): the customer count, the completed
 * count, the clock and the time-weighted area under the number-in-system
 * curve, with the three transitions the driver applies and the two random
 * generators that draw from the shared stream. `QueueStats` is the value of
 * the mutable fields; `Queue` is the object the driver updates in place.
 */
module Queues {
  import opened Wrappers
  import opened Randomness

  /** An arrival rate: every rate the simulation uses is positive. */
  type Rate = r: real | r > 0.0 witness 1.0

  datatype QueueStats = QueueStats(
    customersInQueue: int,
    customersCompleted: int,
    currentTime: real,
    lastEventTime: real,
    totalWeightedTime: real)
  {
    /** `updateStatistics`: the count in effect since the last event is charged for the elapsed time. */
    function Updated(newTime: real): (r: QueueStats)
      ensures r.customersInQueue == customersInQueue && r.customersCompleted == customersCompleted
      ensures r.lastEventTime == newTime && r.currentTime == newTime
      ensures r.totalWeightedTime - totalWeightedTime == customersInQueue as real * (newTime - lastEventTime)
    {
      this.(totalWeightedTime := totalWeightedTime + customersInQueue as real * (newTime - lastEventTime),
            lastEventTime := newTime,
            currentTime := newTime)
    }

    /** `processArrival`: one more customer, nothing else changes. */
    function Arrived(): (r: QueueStats)
      ensures r.customersInQueue == customersInQueue + 1
      ensures r.(customersInQueue := customersInQueue) == this
    {
      this.(customersInQueue := customersInQueue + 1)
    }

    /** `processDeparture`; nothing stops the count going below zero here. */
    function Departed(): (r: QueueStats)
      ensures r.customersInQueue == customersInQueue - 1
      ensures r.customersCompleted == customersCompleted + 1
      ensures r.(customersInQueue := customersInQueue, customersCompleted := customersCompleted) == this
    {
      this.(customersInQueue := customersInQueue - 1, customersCompleted := customersCompleted + 1)
    }

    predicate IsEmpty() {
      customersInQueue == 0
    }

    /**
     * `getAverageTimeInSystem`: 0 before any completion, otherwise Little's law
     * W = L / lambda with L the time-average number in system. None stands for
     * the NaN or infinity Java produces when the clock is still 0.
     */
    function AverageTimeInSystem(lambda: Rate): (r: Option<real>)
      ensures customersCompleted == 0 ==> r == Some(0.0)
      ensures r.None? <==> customersCompleted != 0 && currentTime == 0.0
      ensures customersCompleted != 0 && r.Some? ==> lambda * r.value * currentTime == totalWeightedTime
    {
      if customersCompleted == 0 then Some(0.0)
      else if currentTime == 0.0 then None
      else Some((totalWeightedTime / currentTime) / lambda)
    }
  }

  /** The state of a new queue: empty, clock at 0, nothing accumulated. */
  const Initial := QueueStats(0, 0, 0.0, 0.0, 0.0)

  /** With a non-negative count and a clock that does not go back, the area never decreases. */
  lemma UpdateNeverDecreasesArea(s: QueueStats, newTime: real)
    requires s.customersInQueue >= 0 && newTime >= s.lastEventTime
    ensures s.Updated(newTime).totalWeightedTime >= s.totalWeightedTime
    ensures s.Updated(newTime).customersInQueue == s.customersInQueue
    ensures s.Updated(newTime).customersCompleted == s.customersCompleted
  {
    assert s.customersInQueue as real * (newTime - s.lastEventTime) >= 0.0;
  }

  /** Advancing the clock to t1 and then to t2 charges the same area as advancing straight to t2. */
  lemma UpdateSplits(s: QueueStats, t1: real, t2: real)
    ensures s.Updated(t1).Updated(t2) == s.Updated(t2)
  {
    var n := s.customersInQueue as real;
    assert n * (t1 - s.lastEventTime) + n * (t2 - t1) == n * (t2 - s.lastEventTime);
  }

  /** A non-negative area over a positive clock gives a non-negative mean time in system. */
  lemma AverageNonNegative(s: QueueStats, lambda: Rate)
    requires s.totalWeightedTime >= 0.0 && s.currentTime > 0.0
    ensures s.AverageTimeInSystem(lambda).Some?
    ensures s.AverageTimeInSystem(lambda).value >= 0.0
  {
    if s.customersCompleted != 0 {
      assert s.totalWeightedTime / s.currentTime >= 0.0;
    }
  }

  /** `generateInterarrivalTime`: the next variate divided by lambda. */
  function InterarrivalDraw(lambda: Rate, draws: seq<Variate>): (r: Option<Drawn>)
    ensures r.None? <==> draws == []
    ensures r.Some? ==> r.value.value * lambda == draws[0] && r.value.rest == draws[1..]
  {
    match NextExponential(draws)
    case None => None
    case Some(d) => Some(Drawn(d.value / lambda, d.rest))
  }

  /** `generateServiceTime`: 1.0 without touching the stream under constant service, else the next variate. */
  function ServiceDraw(isServiceTimeConstant: bool, draws: seq<Variate>): (r: Option<Drawn>)
    ensures isServiceTimeConstant ==> r == Some(Drawn(1.0, draws))
    ensures !isServiceTimeConstant ==> r == NextExponential(draws)
  {
    if isServiceTimeConstant then Some(Drawn(1.0, draws)) else NextExponential(draws)
  }

  /** A draw from a stream of non-negative variates is non-negative and leaves a suffix of the stream. */
  lemma DrawsNonNegative(lambda: Rate, isServiceTimeConstant: bool, draws: seq<Variate>)
    ensures InterarrivalDraw(lambda, draws).Some? ==>
              InterarrivalDraw(lambda, draws).value.value >= 0.0 && IsSuffix(InterarrivalDraw(lambda, draws).value.rest, draws)
    ensures ServiceDraw(isServiceTimeConstant, draws).Some? ==>
              ServiceDraw(isServiceTimeConstant, draws).value.value >= 0.0 && IsSuffix(ServiceDraw(isServiceTimeConstant, draws).value.rest, draws)
  {
    if draws != [] {
      assert draws[0] >= 0.0;
    }
  }

  class Queue {
    const lambda: Rate
    const isServiceTimeConstant: bool
    const random: RandomStream
    var customersInQueue: int
    var currentTime: real
    var lastEventTime: real
    var totalWeightedTime: real
    var customersCompleted: int

    function Stats(): QueueStats
      reads this
    {
      QueueStats(customersInQueue, customersCompleted, currentTime, lastEventTime, totalWeightedTime)
    }

    /** A new queue is empty, with its clock and its statistics at 0. */
    constructor (lambda: Rate, isServiceTimeConstant: bool, random: RandomStream)
      ensures this.lambda == lambda && this.isServiceTimeConstant == isServiceTimeConstant
      ensures this.random == random
      ensures Stats() == Initial && IsEmpty()
    {
      this.lambda := lambda;
      this.isServiceTimeConstant := isServiceTimeConstant;
      this.random := random;
      customersInQueue := 0;
      currentTime := 0.0;
      lastEventTime := 0.0;
      totalWeightedTime := 0.0;
      customersCompleted := 0;
    }

    method GenerateInterarrivalTime() returns (t: Option<real>)
      modifies random
      ensures match InterarrivalDraw(lambda, old(random.draws))
              case None => t == None && random.draws == old(random.draws)
              case Some(d) => t == Some(d.value) && random.draws == d.rest
    {
      var x := random.Exponential();
      if x.None? {
        t := None;
      } else {
        t := Some(x.value / lambda);
      }
    }

    method GenerateServiceTime() returns (t: Option<real>)
      modifies random
      ensures match ServiceDraw(isServiceTimeConstant, old(random.draws))
              case None => t == None && random.draws == old(random.draws)
              case Some(d) => t == Some(d.value) && random.draws == d.rest
    {
      if isServiceTimeConstant {
        return Some(1.0);
      }
      t := random.Exponential();
    }

    method UpdateStatistics(newTime: real)
      modifies this
      ensures Stats() == old(Stats()).Updated(newTime)
    {
      totalWeightedTime := totalWeightedTime + customersInQueue as real * (newTime - lastEventTime);
      lastEventTime := newTime;
      currentTime := newTime;
    }

    method ProcessArrival()
      modifies this
      ensures Stats() == old(Stats()).Arrived()
    {
      customersInQueue := customersInQueue + 1;
    }

    method ProcessDeparture()
      modifies this
      ensures Stats() == old(Stats()).Departed()
    {
      customersInQueue := customersInQueue - 1;
      customersCompleted := customersCompleted + 1;
    }

    /** `isEmpty`: no customer in the system. */
    predicate IsEmpty()
      reads this
      ensures IsEmpty() <==> customersInQueue == 0
    {
      Stats().IsEmpty()
    }

    /** `getAverageTimeInSystem`, read off the fields. */
    function AverageTimeInSystem(): (r: Option<real>)
      reads this
      ensures customersCompleted == 0 ==> r == Some(0.0)
      ensures r.None? <==> customersCompleted != 0 && currentTime == 0.0
      ensures customersCompleted != 0 && r.Some? ==> lambda * r.value * currentTime == totalWeightedTime
    {
      Stats().AverageTimeInSystem(lambda)
    }
  }

  /**
   * With lambda 0.5: two arrivals, the clock advanced to 5, one departure, the
   * clock advanced to 10. The area is 2 * 5 + 1 * 5 = 15, so L = 1.5 and W = 3.
   */
  method LittleLawScenario() returns (avg: Option<real>)
    ensures avg == Some(3.0)
  {
    var random := new RandomStream([]);
    var queue := new Queue(0.5, true, random);
    queue.ProcessArrival();
    queue.ProcessArrival();
    queue.UpdateStatistics(5.0);
    queue.ProcessDeparture();
    queue.UpdateStatistics(10.0);
    avg := queue.AverageTimeInSystem();
  }

  /** Under constant service every service time is 1.0 and the stream is left as it was. */
  method ConstantServiceScenario(draws: seq<Variate>) returns (t1: Option<real>, t2: Option<real>, rest: seq<Variate>)
    ensures t1 == Some(1.0) && t2 == Some(1.0) && rest == draws
  {
    var random := new RandomStream(draws);
    var queue := new Queue(0.5, true, random);
    t1 := queue.GenerateServiceTime();
    t2 := queue.GenerateServiceTime();
    rest := random.draws;
  }
}
