/**
 * The outcome for one arrival rate (SimulationResult.java): the simulated
 * mean time in system beside the theoretical one. The record is an immutable
 * value and the relative error is computed from its two fields on each use.
 */
module Results {
  import opened Wrappers

  function Abs(x: real): (r: real)
    ensures r >= 0.0 && (r == x || r == -x)
  {
    if x < 0.0 then -x else x
  }

  datatype SimulationResult = SimulationResult(simulation: real, theoretical: real)
  {
    /**
     * `getError`: |simulation - theoretical| / theoretical * 100, the deviation
     * in percent of the theoretical value. None stands for the infinity or NaN
     * Java produces when the theoretical value is 0.
     */
    function Error(): (r: Option<real>)
      ensures r.None? <==> theoretical == 0.0
      ensures r.Some? ==> r.value * theoretical == Abs(simulation - theoretical) * 100.0
      ensures r.Some? && theoretical > 0.0 ==> r.value >= 0.0
      ensures r.Some? ==> (r.value == 0.0 <==> simulation == theoretical)
    {
      if theoretical == 0.0 then None
      else Some(Abs(simulation - theoretical) / theoretical * 100.0)
    }
  }

  /** Over- and under-estimating by the same amount gives the same error. */
  lemma ErrorSymmetric(theoretical: real, d: real)
    ensures SimulationResult(theoretical + d, theoretical).Error() == SimulationResult(theoretical - d, theoretical).Error()
  {
  }

  /** Simulated 5 against theoretical 4 is 25 percent off; equal values are 0 percent off. */
  lemma ErrorExamples()
    ensures SimulationResult(5.0, 4.0).Error() == Some(25.0)
    ensures SimulationResult(10.0, 10.0).Error() == Some(0.0)
  {
  }
}
