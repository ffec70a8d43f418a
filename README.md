# mm1-queue in Dafny

A model of the discrete-event simulator of an M/M/1 (and M/D/1) single-server
queue in `andradenathan/mm1-queue`. The model and its proofs cover five parts:

- **Events** (`event.dfy`): an event is an immutable (type, time) pair. Events
  are ordered by time alone, with no tie-break.
- **The event schedule** (`schedule.dfy`): the `java.util.PriorityQueue<Event>`
  that each replication creates. It is modelled by its contract: `poll` and
  `peek` give an event of least time. Among events of equal time they give the
  one added first, which is what the binary heap does for the driver's
  two-event schedule.
- **The queue** (`queue.dfy`): a class whose fields the driver updates in
  place:
  - the customer count and the completed count;
  - the clock and the time of the last event;
  - the time-weighted area under the number-in-system curve.

  It has three transitions: `updateStatistics`, `processArrival` and
  `processDeparture`. Two generators draw interarrival and service times, and
  Little's law W = L / λ gives the mean time in system.
- **The driver** (`queue_simulation.dfy`):
  - `simulateSingleQueue` runs one replication. It polls the earliest event,
    advances the statistics to its time, applies it and schedules what follows
    from it, until the clock passes 10000.
  - `runAllSimulations` runs 100 replications for each of the arrival rates
    0.5, 0.8, 0.9 and 0.99, in that order, all drawing from one shared
    generator. It pairs each rate's average with the theoretical 1 / (1 − λ).
- **The result record** (`simulation_result.dfy`): the simulated and
  theoretical values and their relative error in percent.

### The random stream

`java.util.Random` is used only through `-Math.log(1 - nextDouble())`, a unit
exponential variate. It is modelled as a finite sequence of non-negative reals
consumed from the front (`random_stream.dfy`, type `Variate`):

- an interarrival time is the next variate divided by λ;
- an exponential service time is the next variate itself;
- a constant service time is 1.0 and takes nothing from the stream.

A seed stands for the sequence it produces. Every operation is a function of
that sequence, so the same seed gives the same results. Running out of the
sequence yields `None`. The Java generator never runs out; in the model this
is what bounds the event loop and lets it terminate.

### How the driver is specified

Each stateful part is specified by a pure function of the state:

- `Step` is one pass of the event loop.
- `RunFrom` is the whole loop.
- `Replicate` is one replication.
- `Replications` is the inner loop over 100 replications.
- `SweepUpTo` is the outer loop over the rates.

The imperative class `QueueSimulation` runs the loops in place on a `Queue`, a
`Schedule` and a `RandomStream`. Each of its methods is proved to compute what
the corresponding function gives.

The invariant `Good` holds before every pass of the event loop:

- exactly two events are pending, one arrival and one departure;
- the counts and the area are never negative;
- no pending event lies before the clock;
- while the server is idle, the pending arrival is the event polled next.

From the invariant it follows, for the model, that:

- a departure is never processed against an empty queue (this can fail in the
  Java program when a service time is -0.0, as explained under "Left out");
- the clock never goes back;
- the empty-schedule `break` is never taken;
- a completed replication ends with the clock past the horizon.

## Model

| member | source | states |
|---|---|---|
| Events.Compare | src/main/java/com/github/andradenathan/Event.java:25-28 | the result is negative, zero or positive exactly when this event's time is earlier than, equal to or later than the other's; it is always -1, 0 or 1 |
| Events.CompareAntisymmetric | src/main/java/com/github/andradenathan/Event.java:27 | swapping the two events flips the sign of the comparison |
| Events.CompareIgnoresType | src/main/java/com/github/andradenathan/Event.java:27 | events of equal time compare as 0 whatever their types: there is no secondary key |
| Events.CompareTransitive | src/main/java/com/github/andradenathan/Event.java:27 | the order is transitive, so the priority queue over it is well defined |
| Schedules.MinIndex | src/main/java/com/github/andradenathan/QueueSimulation.java:35 | the search orders events by `Compare` (`compareTo`); the chosen event has a time no later than any other event's, and every event before it is strictly later (first of least time) |
| Schedules.RemoveAtMultiset | src/main/java/com/github/andradenathan/QueueSimulation.java:35 | removing the polled event loses exactly that event and nothing else |
| Schedules.First | src/main/java/com/github/andradenathan/QueueSimulation.java:52 | `peek`/`poll` give null exactly on an empty schedule, otherwise an event of the schedule no later than any other |
| Schedules.DrainPermutation | src/test/java/com/github/andradenathan/EventTest.java:50-62 | polling until empty returns every added event exactly once (a permutation of what was added) |
| Schedules.DrainSorted | src/test/java/com/github/andradenathan/EventTest.java:50-62 | polling until empty returns events in non-decreasing order of time |
| Schedules.DrainStrictMinimum | src/test/java/com/github/andradenathan/EventTest.java:58-61 | an event strictly earlier than all others is the first one polled, and the rest are then polled as if it had never been added |
| Schedules.Schedule.constructor | src/main/java/com/github/andradenathan/QueueSimulation.java:24 | a new schedule is empty |
| Schedules.Schedule.Add | src/main/java/com/github/andradenathan/QueueSimulation.java:26-28 | the event joins the schedule and nothing else changes |
| Schedules.Schedule.IsEmpty | src/main/java/com/github/andradenathan/QueueSimulation.java:31 | the schedule holds no event (no contract of its own) |
| Schedules.Schedule.Peek | src/main/java/com/github/andradenathan/QueueSimulation.java:52 | null exactly when the schedule is empty, otherwise a pending event no later than any other; the schedule is not changed |
| Schedules.Schedule.Poll | src/main/java/com/github/andradenathan/QueueSimulation.java:35 | returns the first event of least time and removes exactly that one; on an empty schedule returns null and changes nothing |
| Randomness.NextExponential | src/main/java/com/github/andradenathan/Queue.java:37 | a draw fails exactly on an empty stream; otherwise the value and the rest put back together are the stream |
| Randomness.RandomStream.constructor | src/main/java/com/github/andradenathan/QueueSimulation.java:15 | a generator built from a seed produces that seed's sequence |
| Randomness.RandomStream.Exponential | src/main/java/com/github/andradenathan/Queue.java:37 | takes exactly the front variate off the stream, or reports exhaustion and leaves the stream alone |
| Queues.QueueStats.AverageTimeInSystem | src/main/java/com/github/andradenathan/Queue.java:67-73 | 0 before any completion; otherwise λ · W · clock equals the area, i.e. W = (area / clock) / λ; undefined (Java's NaN/∞) exactly when something completed at clock 0 |
| Queues.QueueStats.Updated | src/main/java/com/github/andradenathan/Queue.java:40-44 | the counts are unchanged, the last event time and the clock become the new time, and the area grows by count × (new time − last event time) |
| Queues.QueueStats.Arrived | src/main/java/com/github/andradenathan/Queue.java:46-48 | one more customer; every other field unchanged |
| Queues.QueueStats.Departed | src/main/java/com/github/andradenathan/Queue.java:50-53 | one customer fewer and one more completed, with no guard against a negative count; the clock and area unchanged |
| Queues.UpdateNeverDecreasesArea | src/main/java/com/github/andradenathan/Queue.java:40-44 | with a non-negative count and a clock that does not go back, `updateStatistics` never decreases the area and leaves both counts unchanged |
| Queues.UpdateSplits | src/main/java/com/github/andradenathan/Queue.java:40-44 | updating to t1 and then to t2 gives the same statistics as updating straight to t2 |
| Queues.AverageNonNegative | src/main/java/com/github/andradenathan/Queue.java:67-73 | a non-negative area over a positive clock gives a defined, non-negative mean time in system |
| Queues.InterarrivalDraw | src/main/java/com/github/andradenathan/Queue.java:29-31 | the interarrival time times λ is the front variate, which it consumes; fails exactly on an empty stream |
| Queues.ServiceDraw | src/main/java/com/github/andradenathan/Queue.java:33-38 | constant service gives 1.0 and leaves the stream untouched; exponential service is the front variate |
| Queues.DrawsNonNegative | src/main/java/com/github/andradenathan/Queue.java:29-38 | both generators give non-negative times and leave a suffix of the stream |
| Queues.Queue.constructor | src/main/java/com/github/andradenathan/Queue.java:17-27 | a new queue has no customers, no completions, clock 0 and area 0, and is empty |
| Queues.Queue.GenerateInterarrivalTime | src/main/java/com/github/andradenathan/Queue.java:29-31 | the value and the stream left are those of `InterarrivalDraw` on the stream before the call |
| Queues.Queue.GenerateServiceTime | src/main/java/com/github/andradenathan/Queue.java:33-38 | the value and the stream left are those of `ServiceDraw` on the stream before the call |
| Queues.Queue.UpdateStatistics | src/main/java/com/github/andradenathan/Queue.java:40-44 | adds count × (t − last event time) to the area, sets the last event time and the clock to t, leaves the counts alone |
| Queues.Queue.ProcessArrival | src/main/java/com/github/andradenathan/Queue.java:46-48 | the count goes up by exactly 1 and nothing else changes |
| Queues.Queue.ProcessDeparture | src/main/java/com/github/andradenathan/Queue.java:50-53 | the count goes down by 1, the completed count up by 1, nothing else changes |
| Queues.Queue.IsEmpty | src/main/java/com/github/andradenathan/Queue.java:55-57 | holds exactly when the customer count is 0 |
| Queues.Queue.AverageTimeInSystem | src/main/java/com/github/andradenathan/Queue.java:67-73 | read off the fields: 0 before any completion; otherwise λ · W · clock equals the area; undefined exactly when something completed at clock 0 |
| Queues.LittleLawScenario | src/test/java/com/github/andradenathan/QueueTest.java:143-157 | with λ = 0.5, two arrivals, an update to 5, a departure and an update to 10 give a mean time in system of exactly 3 |
| Queues.ConstantServiceScenario | src/test/java/com/github/andradenathan/QueueTest.java:30-38 | under constant service every service time is 1.0, and the stream is left as it was, whatever it holds |
| Results.SimulationResult.Error | src/main/java/com/github/andradenathan/SimulationResult.java:22-24 | error × theoretical = the absolute difference of simulation and theoretical × 100; non-negative when theoretical > 0; zero exactly when the two values are equal; undefined exactly when theoretical is 0 |
| Results.ErrorSymmetric | src/main/java/com/github/andradenathan/SimulationResult.java:23 | over- and under-estimating the theoretical value by the same amount give the same error |
| Results.ErrorExamples | src/test/java/com/github/andradenathan/QueueSimulationTest.java:150-169 | (5, 4) gives 25 percent and (10, 10) gives 0 percent |
| Simulation.Good | src/main/java/com/github/andradenathan/QueueSimulation.java:30-59 | the loop invariant (no contract of its own): two pending events, one arrival and one departure; counts and area non-negative; the last event time equal to the clock; no pending event before the clock; while idle, the arrival is pending first and not later than the departure |
| Simulation.Start | src/main/java/com/github/andradenathan/QueueSimulation.java:22-28 | a new queue with an arrival at 0 and a departure at the first service time, whose value and remaining stream are exactly those `ServiceDraw` gives (one draw taken under exponential service); the service time is 1.0 with no draw under constant service; fails only when an exponential service time finds the stream empty |
| Simulation.Step | src/main/java/com/github/andradenathan/QueueSimulation.java:35-58 | one pass moves the clock and the last event time to the polled event's time; an arrival adds one customer; a departure removes one and completes one |
| Simulation.AfterArrival | src/main/java/com/github/andradenathan/QueueSimulation.java:38-43 | the arrival branch keeps every pending event and pushes exactly one arrival, no earlier than the event processed; fails exactly when the stream is empty |
| Simulation.PushesDeparture | src/main/java/com/github/andradenathan/QueueSimulation.java:48-53 | the condition under which the departure branch schedules a departure (no contract of its own) |
| Simulation.AfterDeparture | src/main/java/com/github/andradenathan/QueueSimulation.java:45-57 | the departure branch keeps every pending event; it pushes exactly one departure when customers remain (no earlier than the event processed) or when `peek` finds an arrival (no earlier than that arrival), and otherwise changes neither the schedule nor the stream; it fails exactly when it needs a service time the stream cannot give |
| Simulation.RunFrom | src/main/java/com/github/andradenathan/QueueSimulation.java:30-59 | the `while` loop as a function; when it completes, the clock is past 10000 or the schedule is empty |
| Simulation.StepThenRun | src/main/java/com/github/andradenathan/QueueSimulation.java:35-59 | one pass of the loop body followed by the rest of the loop; when it completes, the clock is past 10000 or the schedule is empty |
| Simulation.StartGood | src/main/java/com/github/andradenathan/QueueSimulation.java:22-28 | the initial schedule (an arrival at 0 and the first customer's departure) on a new queue satisfies the loop invariant |
| Simulation.DepartureNeedsCustomer | src/main/java/com/github/andradenathan/QueueSimulation.java:45-56 | under the invariant a polled departure always finds a customer; when it leaves the queue empty, `peek` finds the pending arrival |
| Simulation.PollFacts | src/main/java/com/github/andradenathan/QueueSimulation.java:35-36 | under the invariant the poll takes one of the two events, not earlier than the clock and not later than the other, which is of the other type and stays pending |
| Simulation.ArrivalStepOk | src/main/java/com/github/andradenathan/QueueSimulation.java:38-43 | an arrival counts the customer and schedules exactly one new arrival at its time plus the interarrival time; the invariant is kept |
| Simulation.BusyDepartureStepOk | src/main/java/com/github/andradenathan/QueueSimulation.java:45-50 | a departure that leaves customers behind schedules the next departure at its own time plus a service time; the invariant is kept |
| Simulation.IdleDepartureStepOk | src/main/java/com/github/andradenathan/QueueSimulation.java:51-56 | a departure that empties the queue schedules the next departure at the pending arrival's time plus a service time; the invariant is kept |
| Simulation.StepNeedsDraw | src/main/java/com/github/andradenathan/QueueSimulation.java:38-57 | a pass of the loop fails exactly when the draw it needs is missing: the interarrival draw for an arrival, the service draw for a departure |
| Simulation.StepPreservesGood | src/main/java/com/github/andradenathan/QueueSimulation.java:30-59 | every pass of the loop keeps the invariant, never moves the clock back, takes its draws from the front of the stream, and consumes a draw or serves a customer |
| Simulation.RunFromStep | src/main/java/com/github/andradenathan/QueueSimulation.java:30-59 | while the clock is within the horizon, the loop from a state is the loop from the state after one pass, and fails when that pass fails |
| Simulation.RunFromEnds | src/main/java/com/github/andradenathan/QueueSimulation.java:30-34 | a completed loop ends with the clock past 10000 (so the empty-schedule exit is never taken), the invariant intact, the clock not earlier than at the start and the stream consumed in order |
| Simulation.Replicate | src/main/java/com/github/andradenathan/QueueSimulation.java:22-62 | a replication that completes leaves a suffix of the stream it started from; its mean is a non-negative duration |
| Simulation.Replications | src/main/java/com/github/andradenathan/QueueSimulation.java:70-73 | 100 (in general `count`) replications in turn give exactly that many means and leave a suffix of the stream |
| Simulation.PrefixedStep | src/main/java/com/github/andradenathan/QueueSimulation.java:70-73 | one more replication moves its mean from the replications still to run to the end of the list already collected |
| Simulation.Average | src/main/java/com/github/andradenathan/QueueSimulation.java:75-78 | the average times the count is the sum; the average of no values is 0 (`orElse(0.0)`) |
| Simulation.SumAtLeast | src/main/java/com/github/andradenathan/QueueSimulation.java:75-78 | values each at least `lo` sum to at least count × `lo` |
| Simulation.AverageAtLeast | src/main/java/com/github/andradenathan/QueueSimulation.java:75-78 | the average of values each at least `lo` is at least `lo`, so each rate's simulated mean is non-negative |
| Simulation.TheoreticalResponseTime | src/main/java/com/github/andradenathan/QueueSimulation.java:80 | w × (1 − λ) = 1, and w > 1 for 0 < λ < 1 |
| Simulation.TheoreticalValues | src/main/java/com/github/andradenathan/QueueSimulation.java:80 | for the configured rates the theoretical times are 2, 5, 10 and 100 |
| Simulation.RatesBelowOne | src/main/java/com/github/andradenathan/QueueSimulation.java:6 | every configured rate lies strictly between 0 and 1 |
| Simulation.SweepUpTo | src/main/java/com/github/andradenathan/QueueSimulation.java:64-85 | the sweep over the first k rates gives exactly k entries, entry j keyed by the j-th rate with theoretical value 1 / (1 − λ) and a non-negative simulated mean, and leaves a suffix of the stream |
| Simulation.SweepStep | src/main/java/com/github/andradenathan/QueueSimulation.java:67-83 | one more rate appends its entry (the average of its replications and 1 / (1 − λ)) after the earlier ones and continues the stream where its replications stopped |
| Simulation.SweepExhausted | src/main/java/com/github/andradenathan/QueueSimulation.java:67-83 | if the replications of one rate run out of stream, the whole sweep fails |
| Simulation.SweepStaysExhausted | src/main/java/com/github/andradenathan/QueueSimulation.java:67-83 | once the sweep has failed, more rates do not bring it back |
| Simulation.EntriesAppend | src/main/java/com/github/andradenathan/QueueSimulation.java:82 | appending the entry for the next rate keeps every entry matched with its own rate |
| Simulation.QueueSimulation.constructor | src/main/java/com/github/andradenathan/QueueSimulation.java:13-16 | keeps the service mode and creates a fresh generator for the seed's sequence |
| Simulation.QueueSimulation.ProcessNextEvent | src/main/java/com/github/andradenathan/QueueSimulation.java:35-58 | polling, updating and applying the event leaves the queue, schedule and stream exactly as `Step` says, or reports exhaustion where `Step` fails |
| Simulation.QueueSimulation.HandleArrival | src/main/java/com/github/andradenathan/QueueSimulation.java:38-43 | the arrival branch leaves the state `AfterArrival` gives |
| Simulation.QueueSimulation.HandleDeparture | src/main/java/com/github/andradenathan/QueueSimulation.java:45-58 | the departure branch, with both of its cases, leaves the state `AfterDeparture` gives |
| Simulation.QueueSimulation.SimulateSingleQueue | src/main/java/com/github/andradenathan/QueueSimulation.java:22-62 | the event loop in place returns the mean that `Replicate` gives for the stream on entry and leaves the stream where that replication stops |
| Simulation.QueueSimulation.RunReplications | src/main/java/com/github/andradenathan/QueueSimulation.java:68-73 | the replication loop collects, in order, the means `Replications` gives and leaves the stream where the last one stops |
| Simulation.QueueSimulation.RunAllSimulations | src/main/java/com/github/andradenathan/QueueSimulation.java:64-85 | returns the entries of `SweepUpTo` over all four rates, in the order of LAMBDAS, for the stream on entry |

## Left out

- `java.util.Random` and `Math.log` are not modelled. Each draw is an exponential variate taken from a finite stream, and running out of it gives `None`, which the Java generator never does.
- Schedules.Schedule.Poll: the heap internals of `java.util.PriorityQueue` are not modelled. Only the poll/peek-minimum contract is, with first-added as the rule among equal times. That rule is what the heap does for the driver's two-event schedule, but not in general.
- The concrete instance of events added at times 5, 2, 8 and 1 polling at 1, 2, 5 and 8 has no member of its own. It follows from `DrainSorted` and `DrainPermutation`.
- A service time of -0.0 is not modelled. `nextDouble()` can return 0.0, and then `-Math.log(1 - 0.0)` is -0.0. `Double.compare` orders -0.0 below 0.0. So if the first service time draws 0.0, the Java program polls the departure at -0.0 before the arrival at 0.0 and runs `processDeparture` on an empty queue, leaving the count at -1. In the model that draw is the variate 0.0, which ties with the arrival, and the arrival added first is polled first. The claim that a departure never finds an empty queue therefore holds for the model, but not for the Java program in this one case.
- The counts `customersInQueue` and `customersCompleted` are 32-bit Java `int`s, and their overflow is not modelled. The model's counts are unbounded. Its streams may hold 0.0, so any number of arrivals can share one time, and a count could in principle pass 2^31 − 1 where Java would wrap around.
- Simulation.TheoreticalResponseTime: requires λ ≠ 1 instead of modelling the infinity that Java's `1.0 / (1.0 - lambda)` gives at λ = 1. Every call passes one of LAMBDAS, all below 1, so the requirement always holds where the program uses it.
- Times and averages are exact reals: IEEE rounding is not modelled, and neither is `Double.compare`'s ordering of -0.0 and NaN.
- A division by zero, which Java turns into NaN or infinity, is `None`. This covers the mean time in system at clock 0 and the error for a theoretical value of 0.
- Arrival rates are positive (`Rate`); a zero or negative λ, never used by the program, is not modelled.
- The `totalTimeInSystem` field is set to 0 and never read again, so it is not modelled.
- Results are returned as an ordered sequence of (λ, result) entries rather than a `LinkedHashMap`. The keys are distinct, so the order and contents are the same.
- The loop body of `simulateSingleQueue` is factored into `ProcessNextEvent`, `HandleArrival` and `HandleDeparture`, and the inner loop of `runAllSimulations` into `RunReplications`. The statements are the same, in the same order.
- The time-seeded constructor (`System.currentTimeMillis()`) and the alias `getResults` are not modelled. The clock is I/O, and the alias adds nothing.
- `toString`, `printResults`, `String.format` and console output are not modelled: they are formatting and I/O.
- The stochastic assertions of the tests (means near 1 / (1 − λ), growth with λ, constant service being faster) cannot be stated of a model without probability.
- `main.py`, `mm1.py` and `eventqueue.py` (an earlier prototype, a stub and a data holder) are not part of this model.
