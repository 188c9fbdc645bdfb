/**
 * The `Variational` container of edward/models/models.py: an ordered list of
 * distribution layers together with aggregate fields that must always equal a
 * fold over the current layers, and the joint sample, log-density, entropy and
 * string the container builds from its layers.
 */
module VariationalContainer {
  import opened Wrappers
  import opened Values
  import opened Reductions

  /**
   * A distribution layer, reduced to what the container reads from it. The
   * three capabilities are declared booleans: `hasReparam` and `hasEntropy`
   * say that the layer's class defines `reparam` and `entropy` itself, and
   * `isNormal` that the layer is a Normal. The layer's own sampler, density,
   * entropy and string are abstract values of the layer.
   */
  datatype Layer = Layer(
    shape: seq<int>,
    numVars: nat,
    numParams: nat,
    isMultivariate: bool,
    hasReparam: bool,
    hasEntropy: bool,
    isNormal: bool,
    density: Row -> real,   // log-density of one row
    draw: nat -> Batch,     // `sample(size)`: size rows
    entropy: real,
    text: string)

  /** `layer.log_prob(xs)`: one log-density per row of the batch, in row order. */
  function LayerLogProb(layer: Layer, xs: Batch): seq<real>
  {
    seq(|xs|, i requires 0 <= i < |xs| => layer.density(xs[i]))
  }

  // The per-layer lists the container folds over.

  function Shapes(ls: seq<Layer>): seq<seq<int>>
  {
    seq(|ls|, i requires 0 <= i < |ls| => ls[i].shape)
  }

  function Multivariates(ls: seq<Layer>): seq<bool>
  {
    seq(|ls|, i requires 0 <= i < |ls| => ls[i].isMultivariate)
  }

  function VarCounts(ls: seq<Layer>): seq<nat>
  {
    seq(|ls|, i requires 0 <= i < |ls| => ls[i].numVars)
  }

  function ParamCounts(ls: seq<Layer>): seq<nat>
  {
    seq(|ls|, i requires 0 <= i < |ls| => ls[i].numParams)
  }

  function ReparamFlags(ls: seq<Layer>): seq<bool>
  {
    seq(|ls|, i requires 0 <= i < |ls| => ls[i].hasReparam)
  }

  function NormalFlags(ls: seq<Layer>): seq<bool>
  {
    seq(|ls|, i requires 0 <= i < |ls| => ls[i].isNormal)
  }

  function EntropyFlags(ls: seq<Layer>): seq<bool>
  {
    seq(|ls|, i requires 0 <= i < |ls| => ls[i].hasEntropy)
  }

  function Entropies(ls: seq<Layer>): seq<real>
  {
    seq(|ls|, i requires 0 <= i < |ls| => ls[i].entropy)
  }

  function Texts(ls: seq<Layer>): seq<string>
  {
    seq(|ls|, i requires 0 <= i < |ls| => ls[i].text)
  }

  /** Each capability flag of a list of layers holds exactly when every layer has it. */
  lemma FlagsMeanEvery(ls: seq<Layer>)
    ensures All(ReparamFlags(ls)) <==> forall i :: 0 <= i < |ls| ==> ls[i].hasReparam
    ensures All(NormalFlags(ls)) <==> forall i :: 0 <= i < |ls| ==> ls[i].isNormal
    ensures All(EntropyFlags(ls)) <==> forall i :: 0 <= i < |ls| ==> ls[i].hasEntropy
  {
    AllMeansEvery(ReparamFlags(ls));
    AllMeansEvery(NormalFlags(ls));
    AllMeansEvery(EntropyFlags(ls));
    assert forall i :: 0 <= i < |ls| ==>
      ReparamFlags(ls)[i] == ls[i].hasReparam && NormalFlags(ls)[i] == ls[i].isNormal
      && EntropyFlags(ls)[i] == ls[i].hasEntropy;
  }

  /** Once a capability is missing from a list of layers, no layers added after it restore it. */
  lemma CapabilityStaysLost(ls: seq<Layer>, more: seq<Layer>)
    ensures !All(ReparamFlags(ls)) ==> !All(ReparamFlags(ls + more))
    ensures !All(NormalFlags(ls)) ==> !All(NormalFlags(ls + more))
    ensures !All(EntropyFlags(ls)) ==> !All(EntropyFlags(ls + more))
  {
    assert ReparamFlags(ls + more) == ReparamFlags(ls) + ReparamFlags(more);
    assert NormalFlags(ls + more) == NormalFlags(ls) + NormalFlags(more);
    assert EntropyFlags(ls + more) == EntropyFlags(ls) + EntropyFlags(more);
    AllConcat(ReparamFlags(ls), ReparamFlags(more));
    AllConcat(NormalFlags(ls), NormalFlags(more));
    AllConcat(EntropyFlags(ls), EntropyFlags(more));
  }

  /** The aggregate fields of the container, taken together. */
  datatype Aggregates = Aggregates(
    shape: seq<seq<int>>,
    numVars: nat,
    numParams: nat,
    isReparam: bool,
    isNormal: bool,
    isEntropy: bool,
    isMultivariate: seq<bool>)

  /**
   * The aggregates `__init__` derives from a list of layers: the per-layer
   * lists, the two sums and the three AND-reductions.
   */
  function Fold(ls: seq<Layer>): Aggregates
  {
    Aggregates(
      Shapes(ls),
      Sum(VarCounts(ls)),
      Sum(ParamCounts(ls)),
      All(ReparamFlags(ls)),
      All(NormalFlags(ls)),
      All(EntropyFlags(ls)),
      Multivariates(ls))
  }

  /** What `add(layer)` does to the aggregates, field by field. */
  function Step(a: Aggregates, layer: Layer): Aggregates
  {
    Aggregates(
      a.shape + [layer.shape],
      a.numVars + layer.numVars,
      a.numParams + layer.numParams,
      a.isReparam && layer.hasReparam,
      a.isNormal && layer.isNormal,
      a.isEntropy && layer.hasEntropy,
      a.isMultivariate + [layer.isMultivariate])
  }

  /** The incremental update of `add` agrees with folding over the extended list. */
  lemma FoldStep(ls: seq<Layer>, layer: Layer)
    ensures Fold(ls + [layer]) == Step(Fold(ls), layer)
  {
    assert Shapes(ls + [layer]) == Shapes(ls) + [layer.shape];
    assert Multivariates(ls + [layer]) == Multivariates(ls) + [layer.isMultivariate];
    assert VarCounts(ls + [layer]) == VarCounts(ls) + [layer.numVars];
    SumAppend(VarCounts(ls), layer.numVars);
    assert ParamCounts(ls + [layer]) == ParamCounts(ls) + [layer.numParams];
    SumAppend(ParamCounts(ls), layer.numParams);
    assert ReparamFlags(ls + [layer]) == ReparamFlags(ls) + [layer.hasReparam];
    AllConcat(ReparamFlags(ls), [layer.hasReparam]);
    assert NormalFlags(ls + [layer]) == NormalFlags(ls) + [layer.isNormal];
    AllConcat(NormalFlags(ls), [layer.isNormal]);
    assert EntropyFlags(ls + [layer]) == EntropyFlags(ls) + [layer.hasEntropy];
    AllConcat(EntropyFlags(ls), [layer.hasEntropy]);
  }

  /**
   * What `sample` returns and `log_prob` takes: a bare batch when the
   * container has exactly one layer, a list with one batch per layer otherwise.
   */
  datatype Bundle = Bare(batch: Batch) | Listed(batches: seq<Batch>)

  /** The per-layer batches of a bundle, in layer order. */
  function Parts(b: Bundle): seq<Batch>
  {
    match b
    case Bare(x) => [x]
    case Listed(xs) => xs
  }

  /** Every batch of the list has the batch size of the first. */
  predicate SameBatch(xss: seq<Batch>)
  {
    forall l :: 0 <= l < |xss| ==> |xss[l]| == |xss[0]|
  }

  /** What `log_prob(xs)` assumes of its argument: the shape of `sample`'s result, and one batch size. */
  predicate Fits(ls: seq<Layer>, xs: Bundle)
  {
    && (xs.Bare? <==> |ls| == 1)
    && |Parts(xs)| == |ls|
    && SameBatch(Parts(xs))
  }

  /** The log-densities of row `i` under each layer, in layer order. */
  function RowTerms(ls: seq<Layer>, xss: seq<Batch>, i: nat): seq<real>
    requires |xss| == |ls|
    requires forall l :: 0 <= l < |ls| ==> i < |xss[l]|
  {
    seq(|ls|, l requires 0 <= l < |ls| => ls[l].density(xss[l][i]))
  }

  /** Elementwise sum of two vectors of the same length. */
  function AddVec(a: seq<real>, b: seq<real>): (r: seq<real>)
    requires |a| == |b|
    ensures |r| == |a|
  {
    seq(|a|, i requires 0 <= i < |a| => a[i] + b[i])
  }

  class Variational {
    var layers: seq<Layer>
    var shape: seq<seq<int>>
    var numVars: nat
    var numParams: nat
    var isReparam: bool
    var isNormal: bool
    var isEntropy: bool
    var isMultivariate: seq<bool>

    /** The aggregate fields, read together. */
    ghost function Snapshot(): Aggregates
      reads this
    {
      Aggregates(shape, numVars, numParams, isReparam, isNormal, isEntropy, isMultivariate)
    }

    /** Every aggregate field equals the fold over the current layers. */
    ghost predicate Valid()
      reads this
    {
      Snapshot() == Fold(layers)
    }

    /** `Variational(layers)`; `None` stands for `layers=None`. */
    constructor (init: Option<seq<Layer>>)
      ensures Valid()
      ensures layers == if init.Some? then init.value else []
      ensures layers == [] ==> && shape == [] && numVars == 0 && numParams == 0
                               && isReparam && isNormal && isEntropy && isMultivariate == []
    {
      if init.None? {
        layers := [];
        shape := [];
        numVars := 0;
        numParams := 0;
        isReparam := true;
        isNormal := true;
        isEntropy := true;
        isMultivariate := [];
      } else {
        var ls := init.value;
        layers := ls;
        shape := Shapes(ls);
        numVars := Sum(VarCounts(ls));
        numParams := Sum(ParamCounts(ls));
        isReparam := All(ReparamFlags(ls));
        isNormal := All(NormalFlags(ls));
        isEntropy := All(EntropyFlags(ls));
        isMultivariate := Multivariates(ls);
      }
    }

    /** `add(layer)`: put a layer on top of the stack and update every aggregate. */
    method Add(layer: Layer)
      requires Valid()
      modifies this
      ensures Valid()
      ensures layers == old(layers) + [layer]
      ensures Snapshot() == Step(old(Snapshot()), layer)
    {
      ghost var before := layers;
      var next := Step(Aggregates(shape, numVars, numParams, isReparam, isNormal, isEntropy, isMultivariate), layer);
      layers := layers + [layer];
      shape := next.shape;
      numVars := next.numVars;
      numParams := next.numParams;
      isReparam := next.isReparam;
      isEntropy := next.isEntropy;
      isNormal := next.isNormal;
      isMultivariate := next.isMultivariate;
      FoldStep(before, layer);
    }

    /**
     * `sample(size=1)`: each layer's draw in layer order; with exactly one
     * layer its draw is returned bare, not in a one-element list.
     */
    function Sample(size: nat := 1): (r: Bundle)
      reads this
      ensures r.Bare? <==> |layers| == 1
      ensures |Parts(r)| == |layers|
      ensures forall l :: 0 <= l < |layers| ==> Parts(r)[l] == layers[l].draw(size)
    {
      var ls := layers;
      var draws := seq(|ls|, l requires 0 <= l < |ls| => ls[l].draw(size));
      if |draws| == 1 then Bare(draws[0]) else Listed(draws)
    }

    /**
     * `log_prob(xs)`. One layer: that layer's result, unwrapped. More layers:
     * entry `i` is the sum over the layers of their log-density of row `i`.
     * No layers: `xs[0]` on an empty list raises.
     */
    method LogProb(xs: Bundle) returns (r: Result<seq<real>, Error>)
      requires Fits(layers, xs)
      ensures r.Failure? <==> |layers| == 0
      ensures r.Failure? ==> r.error == IndexError
      ensures |layers| == 1 ==> r == Success(LayerLogProb(layers[0], xs.batch))
      ensures r.Success? ==> |r.value| == |Parts(xs)[0]|
      ensures r.Success? ==> forall i :: 0 <= i < |r.value| ==>
                r.value[i] == Total(RowTerms(layers, Parts(xs), i))
    {
      if |layers| == 1 {
        r := Success(LayerLogProb(layers[0], xs.batch));
        forall i | 0 <= i < |xs.batch|
          ensures r.value[i] == Total(RowTerms(layers, Parts(xs), i))
        {
          var terms := RowTerms(layers, Parts(xs), i);
          assert terms[1..] == [];
        }
        return;
      }
      var xss := xs.batches;
      if |xss| == 0 {
        return Failure(IndexError);
      }
      var n := |xss[0]|;
      var lp := seq(n, i => 0.0);
      for l := 0 to |layers|
        invariant |lp| == n
        invariant forall i :: 0 <= i < n ==> lp[i] == Total(RowTerms(layers[..l], xss[..l], i))
      {
        var step := LayerLogProb(layers[l], xss[l]);
        var next := AddVec(lp, step);
        forall i | 0 <= i < n
          ensures next[i] == Total(RowTerms(layers[..l + 1], xss[..l + 1], i))
        {
          var before := RowTerms(layers[..l], xss[..l], i);
          assert RowTerms(layers[..l + 1], xss[..l + 1], i) == before + [layers[l].density(xss[l][i])];
          TotalAppend(before, layers[l].density(xss[l][i]));
        }
        lp := next;
      }
      assert layers[..|layers|] == layers && xss[..|layers|] == xss;
      r := Success(lp);
    }

    /** `entropy()`: the sum of the layers' entropies, starting from 0. */
    method Entropy() returns (out: real)
      ensures out == Total(Entropies(layers))
    {
      out := 0.0;
      for l := 0 to |layers|
        invariant out == Total(Entropies(layers[..l]))
      {
        assert Entropies(layers[..l + 1]) == Entropies(layers[..l]) + [layers[l].entropy];
        TotalAppend(Entropies(layers[..l]), layers[l].entropy);
        out := out + layers[l].entropy;
      }
      assert layers[..|layers|] == layers;
    }

    /** `__str__`: the layer strings, each after the first preceded by a newline. */
    method ToString() returns (s: string)
      ensures s == Join(Texts(layers))
    {
      s := "";
      for l := 0 to |layers|
        invariant s == Join(Texts(layers[..l]))
      {
        assert Texts(layers[..l + 1]) == Texts(layers[..l]) + [layers[l].text];
        JoinAppend(Texts(layers[..l]), layers[l].text);
        if l != 0 {
          s := s + "\n";
        }
        s := s + layers[l].text;
      }
      assert layers[..|layers|] == layers;
    }
  }

  /** What `sample(size)` returns is an argument `log_prob` accepts, when every draw has `size` rows. */
  lemma SampleFitsLogProb(v: Variational, size: nat)
    requires forall l :: 0 <= l < |v.layers| ==> |v.layers[l].draw(size)| == size
    ensures Fits(v.layers, v.Sample(size))
  {
  }

  /** When no layer string holds a newline, the container string splits back into the layer strings. */
  lemma StringSplitsIntoLayers(ls: seq<Layer>)
    requires |ls| > 0
    requires forall l :: 0 <= l < |ls| ==> '\n' !in ls[l].text
    ensures SplitLines(Join(Texts(ls))) == Texts(ls)
  {
    SplitJoin(Texts(ls));
  }
}
