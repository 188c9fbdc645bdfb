/**
 * The `PythonModel` base class of edward/models/models.py: `log_prob` stores
 * the data on the object and scores the batch through `_py_log_prob_z`, which
 * reads the stored data back and hands it to `_py_log_prob`. The base class
 * leaves `_py_log_prob` abstract; a subclass supplies it.
 */
module PythonAdapter {
  import opened Wrappers
  import opened Values

  class PythonModel {
    var numVars: Option<nat>
    /** The attribute `self.xs`; `None` until the first `log_prob` creates it. */
    var xs: Option<Observed>
    /** A subclass's `_py_log_prob`, or `None` for the base class, whose method raises. */
    const density: Option<(Observed, Batch) -> seq<real>>

    /** `__init__`: no variable count yet, and no stored data. */
    constructor (density: Option<(Observed, Batch) -> seq<real>>)
      ensures numVars.None? && xs.None?
      ensures this.density == density
    {
      numVars := None;
      xs := None;
      this.density := density;
    }

    /** `_py_log_prob(xs, zs)`: the subclass's scores, or NotImplementedError from the base class. */
    function RawLogProb(data: Observed, zs: Batch): (r: Result<seq<real>, Error>)
      ensures r.Failure? <==> density.None?
      ensures r.Failure? ==> r.error == NotImplementedError
      ensures r.Success? ==> r.value == density.value(data, zs)
    {
      if density.Some? then Success(density.value(data, zs)) else Failure(NotImplementedError)
    }

    /**
     * `_py_log_prob_z(zs)`: score with the stored data. Reading `self.xs`
     * before any `log_prob` raises AttributeError.
     */
    method PyLogProbZ(zs: Batch) returns (r: Result<seq<real>, Error>)
      ensures xs.None? ==> r == Failure(AttributeError)
      ensures xs.Some? ==> r == RawLogProb(xs.value, zs)
      ensures r.Failure? ==> r.error == AttributeError || r.error == NotImplementedError
    {
      if xs.None? {
        return Failure(AttributeError);
      }
      r := RawLogProb(xs.value, zs);
    }

    /**
     * `log_prob(xs, zs)`: overwrite the stored data with this call's, then
     * score through `_py_log_prob_z`, which therefore sees exactly this call's data.
     */
    method LogProb(data: Observed, zs: Batch) returns (r: Result<seq<real>, Error>)
      modifies this`xs
      ensures xs == Some(data)
      ensures r == RawLogProb(data, zs)
      ensures r.Failure? <==> density.None?
    {
      xs := Some(data);
      r := PyLogProbZ(zs);
    }
  }
}
