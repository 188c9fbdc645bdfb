/**
 * The `PyMC3Model` adapter of edward/models/models.py: the observations go
 * into a Theano shared variable, and the batch of latent rows is scored one
 * row at a time by the model's compiled log-density.
 */
module PyMC3Adapter {
  import opened Values

  /** A Theano shared variable holding one array; the compiled model reads it when it runs. */
  class SharedVariable {
    var value: seq<real>

    constructor (value: seq<real>)
      ensures this.value == value
    {
      this.value := value;
    }

    /** `set_value(v)`: later evaluations of the model see `v`. */
    method SetValue(v: seq<real>)
      modifies this
      ensures value == v
    {
      value := v;
    }
  }

  /**
   * What the adapter uses of a `pymc3.Model`: the names of its continuous
   * input variables, and `fastlogp` behind the array-to-point bijection, as a
   * log-density of one flat row given the current value of the shared variable.
   */
  datatype PyMC3Spec = PyMC3Spec(inputVars: seq<string>, logp: (seq<real>, Row) -> real)

  /** The log-density of every row of `zs`, in row order, for observations `xs`. */
  function Scores(model: PyMC3Spec, xs: seq<real>, zs: Batch): (r: seq<real>)
    ensures |r| == |zs|
  {
    seq(|zs|, s requires 0 <= s < |zs| => model.logp(xs, zs[s]))
  }

  /** Scoring two batches one after the other scores their concatenation: rows are independent. */
  lemma ScoresConcat(model: PyMC3Spec, xs: seq<real>, zs: Batch, ys: Batch)
    ensures Scores(model, xs, zs + ys) == Scores(model, xs, zs) + Scores(model, xs, ys)
  {
    var l, r := Scores(model, xs, zs + ys), Scores(model, xs, zs) + Scores(model, xs, ys);
    forall s | 0 <= s < |zs + ys|
      ensures l[s] == r[s]
    {
      if s >= |zs| {
        assert (zs + ys)[s] == ys[s - |zs|];
      }
    }
  }

  class PyMC3Model {
    const model: PyMC3Spec
    const observed: SharedVariable
    const numVars: nat

    /** `__init__`: keep the model and the shared variable; one variable per continuous input. */
    constructor (model: PyMC3Spec, observed: SharedVariable)
      ensures this.model == model && this.observed == observed
      ensures numVars == |model.inputVars|
    {
      this.model := model;
      this.observed := observed;
      numVars := |model.inputVars|;
    }

    /** `log_prob(xs, zs)`: bind the observations, then score the batch with them. */
    method LogProb(xs: seq<real>, zs: Batch) returns (lp: seq<real>)
      modifies observed
      ensures observed.value == xs
      ensures lp == Scores(model, xs, zs)
    {
      observed.SetValue(xs);
      lp := PyLogProb(zs);
    }

    /** `_py_log_prob(zs)`: one log-density per row, in row order, under the bound observations. */
    method PyLogProb(zs: Batch) returns (lp: seq<real>)
      ensures lp == Scores(model, observed.value, zs)
    {
      var a := new real[|zs|](_ => 0.0);
      for s := 0 to |zs|
        invariant forall t :: 0 <= t < s ==> a[t] == model.logp(observed.value, zs[t])
      {
        a[s] := model.logp(observed.value, zs[s]);
      }
      lp := a[..];
    }
  }
}
