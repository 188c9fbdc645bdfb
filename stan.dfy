/**
 * The `StanModel` adapter of edward/models/models.py: the choice between a
 * Stan file and inline Stan code, the lazy one-time initialisation, the
 * variable count derived from the parameter dimensions, and the per-row
 * unflattening of a flat sample into an ordered name-to-value dictionary.
 */
module StanAdapter {
  import opened Wrappers
  import opened Values
  import opened Reductions

  /** Where the Stan program comes from. */
  datatype Source = File(path: string) | Code(text: string)

  /**
   * A constrained parameter value: a scalar for a parameter whose dimensions
   * sum to 0, otherwise the block of the flat row it takes (the reshape to
   * the parameter's dimensions is left as the raw slice).
   */
  datatype Value = Scalar(x: real) | Block(elems: seq<real>)

  /** One entry of the ordered dictionary `z_dict`. */
  type Entry = (string, Value)

  /**
   * What `pystan.stan` returns, reduced to what the adapter uses: the
   * parameter dimensions and names (`par_dims`, `model_pars`), the map from
   * constrained dictionary to unconstrained vector (`unconstrain_pars`), and
   * the log-density of an unconstrained vector without the Jacobian
   * adjustment (`log_prob(..., adjust_transform=False)`).
   */
  datatype StanFit = StanFit(
    parDims: seq<seq<nat>>,
    modelPars: seq<string>,
    unconstrain: seq<Entry> -> seq<real>,
    logProb: seq<real> -> real)

  /** `__init__`: a file wins over inline code; with neither, construction raises. */
  function ChooseSource(file: Option<string>, modelCode: Option<string>): (r: Result<Source, Error>)
    ensures r.Failure? <==> file.None? && modelCode.None?
    ensures r.Failure? ==> r.error == NotImplementedError
    ensures file.Some? ==> r == Success(File(file.value))
    ensures file.None? && modelCode.Some? ==> r == Success(Code(modelCode.value))
  {
    if file.Some? then Success(File(file.value))
    else if modelCode.Some? then Success(Code(modelCode.value))
    else Failure(NotImplementedError)
  }

  /** How many elements of the flat row a parameter takes: `sum(dim)`, or 1 when that sum is 0. */
  function Width(dim: seq<nat>): (w: nat)
    ensures w >= 1
    ensures Sum(dim) != 0 ==> w == Sum(dim)
  {
    if Sum(dim) != 0 then Sum(dim) else 1
  }

  function Widths(dims: seq<seq<nat>>): (ws: seq<nat>)
    ensures |ws| == |dims|
    ensures forall k :: 0 <= k < |dims| ==> ws[k] == Width(dims[k])
  {
    seq(|dims|, k requires 0 <= k < |dims| => Width(dims[k]))
  }

  /** `num_vars` after initialisation: the widths of all parameters, summed. */
  function NumVarsOf(dims: seq<seq<nat>>): nat
  {
    Sum(Widths(dims))
  }

  /** Every parameter takes at least one element, so there are at least as many variables as parameters. */
  lemma NumVarsAtLeastParams(dims: seq<seq<nat>>)
    ensures NumVarsOf(dims) >= |dims|
  {
    SumAtLeastLength(Widths(dims));
  }

  /** The cursor `idx` when parameter `k` is reached: each parameter's slice starts where the previous one ended. */
  function Offset(dims: seq<seq<nat>>, k: nat): nat
    requires k <= |dims|
  {
    if k == 0 then 0 else Offset(dims, k - 1) + Width(dims[k - 1])
  }

  /** The cursor at parameter `k` is the sum of the widths before it. */
  lemma {:induction false} OffsetIsPrefixSum(dims: seq<seq<nat>>, k: nat)
    requires k <= |dims|
    ensures Offset(dims, k) == Sum(Widths(dims)[..k])
  {
    if k > 0 {
      var ws := Widths(dims);
      OffsetIsPrefixSum(dims, k - 1);
      assert ws[..k] == ws[..k - 1] + [ws[k - 1]];
      SumAppend(ws[..k - 1], ws[k - 1]);
    }
  }

  /** After the last parameter the cursor stands at `num_vars`. */
  lemma OffsetAtEnd(dims: seq<seq<nat>>)
    ensures Offset(dims, |dims|) == NumVarsOf(dims)
  {
    OffsetIsPrefixSum(dims, |dims|);
    assert Widths(dims)[..|dims|] == Widths(dims);
  }

  /** Each offset is at most the next: the slices come in order. */
  lemma {:induction false} OffsetMonotone(dims: seq<seq<nat>>, j: nat, k: nat)
    requires j <= k <= |dims|
    ensures Offset(dims, j) <= Offset(dims, k)
    decreases k - j
  {
    if j < k {
      OffsetMonotone(dims, j, k - 1);
    }
  }

  /** No parameter's slice starts past `num_vars`. */
  lemma OffsetWithinNumVars(dims: seq<seq<nat>>, k: nat)
    requires k <= |dims|
    ensures Offset(dims, k) <= NumVarsOf(dims)
  {
    OffsetMonotone(dims, k, |dims|);
    OffsetAtEnd(dims);
  }

  /** `zip(par_dims, model_pars)` stops at the shorter list. */
  function Paired(fit: StanFit): (n: nat)
    ensures n <= |fit.parDims| && n <= |fit.modelPars|
  {
    if |fit.parDims| <= |fit.modelPars| then |fit.parDims| else |fit.modelPars|
  }

  /** The names of an ordered dictionary, in order. */
  function Keys(d: seq<Entry>): (ks: seq<string>)
    ensures |ks| == |d|
    ensures forall i :: 0 <= i < |d| ==> ks[i] == d[i].0
  {
    seq(|d|, i requires 0 <= i < |d| => d[i].0)
  }

  /** The position of key `k` in the ordered dictionary, or -1 when it is absent. */
  function IndexOf(d: seq<Entry>, k: string): int
  {
    if |d| == 0 then -1
    else if d[|d| - 1].0 == k then |d| - 1
    else IndexOf(d[..|d| - 1], k)
  }

  /** `d[k] = v` on an OrderedDict: an existing key is overwritten in place; a new key goes to the end. */
  function Put(d: seq<Entry>, k: string, v: Value): seq<Entry>
  {
    var i := IndexOf(d, k);
    if 0 <= i < |d| then d[i := (k, v)] else d + [(k, v)]
  }

  /** The position found holds the key, and no position is found exactly when the key is absent. */
  lemma {:induction false} IndexOfMeans(d: seq<Entry>, k: string)
    ensures -1 <= IndexOf(d, k) < |d|
    ensures IndexOf(d, k) >= 0 ==> d[IndexOf(d, k)].0 == k
    ensures IndexOf(d, k) == -1 <==> k !in Keys(d)
  {
    if |d| > 0 && d[|d| - 1].0 != k {
      var e := d[..|d| - 1];
      IndexOfMeans(e, k);
      assert Keys(d) == Keys(e) + [d[|d| - 1].0];
    }
  }

  /**
   * After `d[k] = v` the key maps to `v`. An existing key is overwritten in
   * its own position, leaving the length, the order of the keys and every
   * other entry as they were; a new key is appended after all the others.
   */
  lemma PutSemantics(d: seq<Entry>, k: string, v: Value)
    ensures k in Keys(d) ==> Keys(Put(d, k, v)) == Keys(d)
    ensures k in Keys(d) ==> |Put(d, k, v)| == |d| && 0 <= IndexOf(d, k) < |d|
                             && Put(d, k, v)[IndexOf(d, k)] == (k, v)
                             && forall j :: 0 <= j < |d| && j != IndexOf(d, k) ==> Put(d, k, v)[j] == d[j]
    ensures k !in Keys(d) ==> Put(d, k, v) == d + [(k, v)]
    ensures (k, v) in Put(d, k, v)
  {
    IndexOfMeans(d, k);
    if k in Keys(d) {
      assert Put(d, k, v)[IndexOf(d, k)] == (k, v);
    }
  }

  /** NumPy's `z[lo:hi]` for `0 <= lo <= hi`: the slice, cut short at the end of the row. */
  function Slice(z: Row, lo: nat, hi: nat): Row
    requires lo <= hi
  {
    if hi <= |z| then z[lo..hi]
    else if lo <= |z| then z[lo..]
    else []
  }

  /**
   * Reading parameter `j` raises. When its dimensions sum to 0 the loop reads
   * `float(z[idx])`, which raises once the cursor is past the end of the row.
   * Otherwise it reshapes the slice of `sum(dim)` elements to `dim`, which
   * raises unless the slice holds exactly `prod(dim)` elements.
   */
  predicate RaisesAt(fit: StanFit, z: Row, j: nat)
    requires j < |fit.parDims|
  {
    var n := Sum(fit.parDims[j]);
    var o := Offset(fit.parDims, j);
    if n == 0 then o >= |z| else |Slice(z, o, o + n)| != Product(fit.parDims[j])
  }

  /** The exception a raising read throws: IndexError for the scalar read, ValueError for the reshape. */
  function ErrorAt(dim: seq<nat>): Error
  {
    if Sum(dim) == 0 then IndexError else ValueError
  }

  /** One of the first `k` reads raises; the loop stops at the first one. */
  predicate Raises(fit: StanFit, z: Row, k: nat)
    requires k <= |fit.parDims|
  {
    k > 0 && (Raises(fit, z, k - 1) || RaisesAt(fit, z, k - 1))
  }

  /** The exception of the first of the first `k` reads that raises. */
  function FirstError(fit: StanFit, z: Row, k: nat): (e: Error)
    requires k <= |fit.parDims|
    requires Raises(fit, z, k)
    ensures e == IndexError || e == ValueError
  {
    if Raises(fit, z, k - 1) then FirstError(fit, z, k - 1) else ErrorAt(fit.parDims[k - 1])
  }

  /**
   * The value parameter `j` takes, read at its offset: the slice of
   * `sum(dim)` elements, clamped at the end of the row, or the single
   * element there when that sum is 0.
   */
  function ValueAt(fit: StanFit, z: Row, j: nat): Value
    requires j < |fit.parDims|
    requires !RaisesAt(fit, z, j)
  {
    var n := Sum(fit.parDims[j]);
    var o := Offset(fit.parDims, j);
    if n != 0 then Block(Slice(z, o, o + n)) else Scalar(z[o])
  }

  /** `z_dict` after the first `k` parameters of the zip, when none of them raised. */
  function Dict(fit: StanFit, z: Row, k: nat): seq<Entry>
    requires k <= Paired(fit)
    requires !Raises(fit, z, k)
  {
    if k == 0 then [] else Put(Dict(fit, z, k - 1), fit.modelPars[k - 1], ValueAt(fit, z, k - 1))
  }

  /**
   * The dictionary built for row `z`, or the exception of the first read that
   * raises: IndexError for a scalar past the end of the row, ValueError for a
   * block that does not reshape.
   */
  function RowDict(fit: StanFit, z: Row): (r: Result<seq<Entry>, Error>)
    ensures r.Failure? <==> Raises(fit, z, Paired(fit))
    ensures r.Failure? ==> r.error == IndexError || r.error == ValueError
  {
    if Raises(fit, z, Paired(fit)) then Failure(FirstError(fit, z, Paired(fit)))
    else Success(Dict(fit, z, Paired(fit)))
  }

  /**
   * One more parameter: it raises exactly when its own read does, and then
   * with that read's exception; the cursor moves by its width; otherwise its
   * value is stored under its name. A block raises exactly when its slice
   * does not hold `prod(dim)` elements, a scalar exactly when the cursor is
   * past the end of the row.
   */
  lemma DictNext(fit: StanFit, z: Row, k: nat)
    requires k < Paired(fit)
    requires !Raises(fit, z, k)
    ensures Raises(fit, z, k + 1) <==> RaisesAt(fit, z, k)
    ensures RaisesAt(fit, z, k) ==> FirstError(fit, z, k + 1) == ErrorAt(fit.parDims[k])
    ensures Offset(fit.parDims, k + 1) == Offset(fit.parDims, k) + Width(fit.parDims[k])
    ensures !RaisesAt(fit, z, k) ==> Dict(fit, z, k + 1) == Put(Dict(fit, z, k), fit.modelPars[k], ValueAt(fit, z, k))
    ensures Sum(fit.parDims[k]) != 0 ==>
              var o := Offset(fit.parDims, k);
              var block := Slice(z, o, o + Sum(fit.parDims[k]));
              && (RaisesAt(fit, z, k) <==> |block| != Product(fit.parDims[k]))
              && (!RaisesAt(fit, z, k) ==> ValueAt(fit, z, k) == Block(block))
    ensures Sum(fit.parDims[k]) == 0 ==>
              && (RaisesAt(fit, z, k) <==> Offset(fit.parDims, k) >= |z|)
              && (!RaisesAt(fit, z, k) ==> ValueAt(fit, z, k) == Scalar(z[Offset(fit.parDims, k)]))
  {
  }

  /** Once a read has raised, reading further parameters does not undo it. */
  lemma {:induction false} RaisesSticks(fit: StanFit, z: Row, j: nat, k: nat)
    requires j <= k <= |fit.parDims|
    requires Raises(fit, z, j)
    ensures Raises(fit, z, k)
    ensures FirstError(fit, z, k) == FirstError(fit, z, j)
    decreases k - j
  {
    if j < k {
      RaisesSticks(fit, z, j, k - 1);
      RaisesStep(fit, z, k);
    }
  }

  /** A row that raised within the first `k - 1` reads has raised within the first `k`, with the same exception. */
  lemma RaisesStep(fit: StanFit, z: Row, k: nat)
    requires 0 < k <= |fit.parDims|
    requires Raises(fit, z, k - 1)
    ensures Raises(fit, z, k) && FirstError(fit, z, k) == FirstError(fit, z, k - 1)
  {
  }

  /**
   * Every block parameter's `sum(dim)` is its element count `prod(dim)`. This
   * holds for scalars and vectors; for most matrices it does not, and then
   * their reshape fails on every row.
   */
  predicate Shaped(dims: seq<seq<nat>>)
  {
    forall j :: 0 <= j < |dims| && Sum(dims[j]) != 0 ==> Product(dims[j]) == Sum(dims[j])
  }

  /** A shaped parameter's read raises exactly when its slice runs past the end of the row. */
  lemma RaisesAtIffPastEnd(fit: StanFit, z: Row, j: nat)
    requires j < |fit.parDims|
    requires Shaped(fit.parDims)
    ensures RaisesAt(fit, z, j) <==> Offset(fit.parDims, j + 1) > |z|
  {
    assert Sum(fit.parDims[j]) != 0 ==> Product(fit.parDims[j]) == Sum(fit.parDims[j]);
  }

  /** With shaped parameters, one of the first `k` reads raises exactly when the row ends before their cursor. */
  lemma {:induction false} RaisesIffPastEnd(fit: StanFit, z: Row, k: nat)
    requires k <= |fit.parDims|
    requires Shaped(fit.parDims)
    ensures Raises(fit, z, k) <==> Offset(fit.parDims, k) > |z|
  {
    if k > 0 {
      RaisesIffPastEnd(fit, z, k - 1);
      RaisesAtIffPastEnd(fit, z, k - 1);
      OffsetMonotone(fit.parDims, k - 1, k);
    }
  }

  /** The flat elements a value was read from. */
  function Elems(v: Value): seq<real>
  {
    match v
    case Scalar(x) => [x]
    case Block(e) => e
  }

  /**
   * A parameter whose slice lies inside the row reads exactly the elements
   * from its offset up to the next parameter's offset.
   */
  lemma ValueSlice(fit: StanFit, z: Row, j: nat)
    requires j < |fit.parDims|
    requires Shaped(fit.parDims)
    requires Offset(fit.parDims, j + 1) <= |z|
    ensures !RaisesAt(fit, z, j)
    ensures Elems(ValueAt(fit, z, j)) == z[Offset(fit.parDims, j)..Offset(fit.parDims, j + 1)]
  {
    RaisesAtIffPastEnd(fit, z, j);
  }

  /** The dictionary's values flattened back, in order. */
  function Flatten(d: seq<Entry>): seq<real>
  {
    if |d| == 0 then [] else Flatten(d[..|d| - 1]) + Elems(d[|d| - 1].1)
  }

  predicate Distinct(names: seq<string>)
  {
    forall i, j :: 0 <= i < j < |names| ==> names[i] != names[j]
  }

  /** With distinct names, the next name is not among the names before it. */
  lemma NewName(names: seq<string>, ks: seq<string>, k: nat)
    requires k < |names|
    requires Distinct(names)
    requires ks == names[..k]
    ensures names[k] !in ks
  {
    forall i | 0 <= i < k
      ensures ks[i] != names[k]
    {
      assert ks[i] == names[i];
    }
  }

  /** Appending an entry appends its key. */
  lemma KeysSnoc(d: seq<Entry>, e: Entry)
    ensures Keys(d + [e]) == Keys(d) + [e.0]
  {
  }

  /** Appending an entry that holds the next slice of the row extends the flattened prefix to that slice's end. */
  lemma FlattenSnoc(d: seq<Entry>, e: Entry, z: Row, lo: nat, hi: nat)
    requires lo <= hi <= |z|
    requires Flatten(d) == z[..lo]
    requires Elems(e.1) == z[lo..hi]
    ensures Flatten(d + [e]) == z[..hi]
  {
    assert (d + [e])[..|d|] == d;
    assert z[..hi] == z[..lo] + z[lo..hi];
  }

  /** Storing the next of a list of distinct names appends it, extending the keys by that name. */
  lemma PutNewName(d: seq<Entry>, names: seq<string>, k: nat, v: Value)
    requires k < |names|
    requires Distinct(names)
    requires Keys(d) == names[..k]
    ensures Put(d, names[k], v) == d + [(names[k], v)]
    ensures Keys(d + [(names[k], v)]) == names[..k + 1]
  {
    NewName(names, Keys(d), k);
    PutSemantics(d, names[k], v);
    KeysSnoc(d, (names[k], v));
    assert names[..k + 1] == names[..k] + [names[k]];
  }

  /**
   * With distinct names every parameter gets its own key: the keys are the
   * names in declared order, and each turn appends one entry at the end.
   */
  lemma {:induction false} DictAppends(fit: StanFit, z: Row, k: nat)
    requires k <= Paired(fit)
    requires Distinct(fit.modelPars)
    requires !Raises(fit, z, k)
    ensures Keys(Dict(fit, z, k)) == fit.modelPars[..k]
    ensures k > 0 ==> Dict(fit, z, k) == Dict(fit, z, k - 1) + [(fit.modelPars[k - 1], ValueAt(fit, z, k - 1))]
  {
    if k > 0 {
      DictAppends(fit, z, k - 1);
      PutNewName(Dict(fit, z, k - 1), fit.modelPars, k - 1, ValueAt(fit, z, k - 1));
    }
  }

  /**
   * With distinct names, entry `j` of the dictionary is parameter `j` under
   * its own name; when the row holds the first `k` slices, its value is
   * exactly the row from its offset to the next one, so the slices are
   * contiguous and disjoint.
   */
  lemma {:induction false} DictEntry(fit: StanFit, z: Row, k: nat, j: nat)
    requires j < k <= Paired(fit)
    requires Distinct(fit.modelPars) && Shaped(fit.parDims)
    requires Offset(fit.parDims, k) <= |z|
    ensures !Raises(fit, z, k) && |Dict(fit, z, k)| == k
    ensures Dict(fit, z, k)[j].0 == fit.modelPars[j]
    ensures Offset(fit.parDims, j) <= Offset(fit.parDims, j + 1) <= |z|
    ensures Elems(Dict(fit, z, k)[j].1) == z[Offset(fit.parDims, j)..Offset(fit.parDims, j + 1)]
  {
    RaisesIffPastEnd(fit, z, k);
    DictAppends(fit, z, k);
    OffsetMonotone(fit.parDims, j, j + 1);
    OffsetMonotone(fit.parDims, j + 1, k);
    if j < k - 1 {
      OffsetMonotone(fit.parDims, k - 1, k);
      DictEntry(fit, z, k - 1, j);
      assert Dict(fit, z, k)[j] == Dict(fit, z, k - 1)[j];
    } else {
      ValueSlice(fit, z, j);
      assert Dict(fit, z, k)[j] == (fit.modelPars[j], ValueAt(fit, z, j));
    }
  }

  /** Flattening the dictionary of the first `k` parameters gives back the row up to their cursor. */
  lemma {:induction false} FlattenDict(fit: StanFit, z: Row, k: nat)
    requires k <= Paired(fit)
    requires Distinct(fit.modelPars) && Shaped(fit.parDims)
    requires Offset(fit.parDims, k) <= |z|
    ensures !Raises(fit, z, k)
    ensures Flatten(Dict(fit, z, k)) == z[..Offset(fit.parDims, k)]
  {
    RaisesIffPastEnd(fit, z, k);
    if k > 0 {
      OffsetMonotone(fit.parDims, k - 1, k);
      FlattenDict(fit, z, k - 1);
      DictAppends(fit, z, k);
      ValueSlice(fit, z, k - 1);
      FlattenSnoc(Dict(fit, z, k - 1), (fit.modelPars[k - 1], ValueAt(fit, z, k - 1)), z,
                  Offset(fit.parDims, k - 1), Offset(fit.parDims, k));
    }
  }

  /**
   * With as many names as dimensions, distinct names, shaped parameters and
   * a row of at least `num_vars` elements, no read raises, the row's dictionary has one entry
   * per parameter in declared order, and its values flattened back are the
   * first `num_vars` elements of the row.
   */
  lemma RowDictRoundTrip(fit: StanFit, z: Row)
    requires |fit.parDims| == |fit.modelPars|
    requires Distinct(fit.modelPars) && Shaped(fit.parDims)
    requires NumVarsOf(fit.parDims) <= |z|
    ensures RowDict(fit, z).Success?
    ensures Keys(RowDict(fit, z).value) == fit.modelPars
    ensures Flatten(RowDict(fit, z).value) == z[..NumVarsOf(fit.parDims)]
  {
    OffsetAtEnd(fit.parDims);
    FlattenDict(fit, z, Paired(fit));
    DictAppends(fit, z, Paired(fit));
    assert fit.modelPars[..|fit.modelPars|] == fit.modelPars;
  }

  /**
   * The loop checks no row length, yet with shaped parameters that does no
   * harm: a row unflattens exactly when it reaches the cursor's final
   * position (`num_vars` when every dimension has a name), and the tail of a
   * longer row is ignored.
   */
  lemma RowDictSucceedsIff(fit: StanFit, z: Row)
    requires Shaped(fit.parDims)
    ensures RowDict(fit, z).Success? <==> Offset(fit.parDims, Paired(fit)) <= |z|
    ensures |fit.parDims| == |fit.modelPars| ==> (RowDict(fit, z).Success? <==> NumVarsOf(fit.parDims) <= |z|)
  {
    RaisesIffPastEnd(fit, z, Paired(fit));
    OffsetAtEnd(fit.parDims);
  }

  /**
   * How rows of the wrong length fare. One block parameter of dimension [2]:
   * a one-element row is cut short and fails to reshape, with ValueError; a
   * three-element row succeeds and its last element is ignored. Two scalar
   * parameters: a one-element row fails on the second read, with IndexError.
   */
  lemma RowLengthCases()
    ensures var fit := StanFit([[2]], ["theta"], d => [], u => 0.0);
            && RowDict(fit, [1.0]) == Failure(ValueError)
            && RowDict(fit, [1.0, 2.0, 3.0]) == Success([("theta", Block([1.0, 2.0]))])
    ensures var fit := StanFit([[], []], ["a", "b"], d => [], u => 0.0);
            RowDict(fit, [1.0]) == Failure(IndexError)
  {
    var fit := StanFit([[2]], ["theta"], d => [], u => 0.0);
    assert Sum([2]) == 2 && Product([2]) == 2;
    assert Paired(fit) == 1;
    assert RaisesAt(fit, [1.0], 0);
    assert !Raises(fit, [1.0, 2.0, 3.0], 1);
    assert Slice([1.0, 2.0, 3.0], 0, 2) == [1.0, 2.0];
    assert Put([], "theta", Block([1.0, 2.0])) == [("theta", Block([1.0, 2.0]))];
    var pair := StanFit([[], []], ["a", "b"], d => [], u => 0.0);
    var empty: seq<nat> := [];
    assert Sum(empty) == 0;
    assert Paired(pair) == 2;
    assert !Raises(pair, [1.0], 1);
    assert RaisesAt(pair, [1.0], 1);
  }

  /**
   * A block counts `sum(dim)` elements, not `prod(dim)`: a 2-by-3 matrix
   * parameter is given 5 elements, `num_vars` is 5, and since 5 elements
   * never reshape to 2-by-3 every row fails with ValueError.
   */
  lemma MatrixParameterRaises(z: Row)
    ensures var fit := StanFit([[2, 3]], ["m"], d => [], u => 0.0);
            && NumVarsOf(fit.parDims) == 5
            && RowDict(fit, z) == Failure(ValueError)
  {
    var fit := StanFit([[2, 3]], ["m"], d => [], u => 0.0);
    assert Sum([2, 3]) == 5 && Product([2, 3]) == 6;
    assert Widths(fit.parDims) == [5];
    assert Paired(fit) == 1;
    assert RaisesAt(fit, z, 0);
  }

  /**
   * The inner loop of `_py_log_prob`: walk the cursor through one row,
   * filling the ordered dictionary parameter by parameter. On success the
   * cursor ends at the sum of the widths of the zipped parameters.
   */
  method UnflattenRow(fit: StanFit, z: Row) returns (r: Result<seq<Entry>, Error>, idx: nat)
    ensures r == RowDict(fit, z)
    ensures r.Success? ==> idx == Offset(fit.parDims, Paired(fit))
  {
    var n := Paired(fit);
    var d: seq<Entry> := [];
    idx := 0;
    var k := 0;
    while k < n
      invariant k <= n
      invariant idx == Offset(fit.parDims, k)
      invariant !Raises(fit, z, k) && d == Dict(fit, z, k)
    {
      var dim, par := fit.parDims[k], fit.modelPars[k];
      DictNext(fit, z, k);
      var elems := Sum(dim);
      if elems == 0 {
        if idx >= |z| {
          RaisesSticks(fit, z, k + 1, n);
          return Failure(IndexError), idx;
        }
        d := Put(d, par, Scalar(z[idx]));
        idx := idx + 1;
      } else {
        var block := Slice(z, idx, idx + elems);
        if |block| != Product(dim) {
          RaisesSticks(fit, z, k + 1, n);
          return Failure(ValueError), idx;
        }
        d := Put(d, par, Block(block));
        idx := idx + elems;
      }
      k := k + 1;
    }
    r := Success(d);
  }

  /** The log-density of one row: unflatten, map to the unconstrained space, evaluate. */
  function RowLogProb(fit: StanFit, z: Row): real
    requires RowDict(fit, z).Success?
  {
    fit.logProb(fit.unconstrain(RowDict(fit, z).value))
  }

  /**
   * What `_py_log_prob(zs)` returns: one log-density per row, in row order,
   * when every row unflattens; otherwise the exception of the first row
   * that does not.
   */
  ghost predicate Scored(fit: StanFit, zs: Batch, r: Result<seq<real>, Error>)
  {
    && (r.Success? <==> forall b :: 0 <= b < |zs| ==> RowDict(fit, zs[b]).Success?)
    && (r.Failure? ==>
          exists b :: 0 <= b < |zs| && RowDict(fit, zs[b]).Failure? && r.error == RowDict(fit, zs[b]).error
                      && forall c :: 0 <= c < b ==> RowDict(fit, zs[c]).Success?)
    && (r.Success? ==> |r.value| == |zs|)
    && (r.Success? ==>
          forall b :: 0 <= b < |zs| ==> RowDict(fit, zs[b]).Success? && r.value[b] == RowLogProb(fit, zs[b]))
  }

  /** The body of `_py_log_prob`, for a given instantiated model. */
  method BatchLogProb(fit: StanFit, zs: Batch) returns (r: Result<seq<real>, Error>)
    ensures Scored(fit, zs, r)
  {
    var lp := new real[|zs|](_ => 0.0);
    for b := 0 to |zs|
      invariant forall j :: 0 <= j < b ==> RowDict(fit, zs[j]).Success? && lp[j] == RowLogProb(fit, zs[j])
    {
      var d, _ := UnflattenRow(fit, zs[b]);
      if d.Failure? {
        return Failure(d.error);
      }
      lp[b] := fit.logProb(fit.unconstrain(d.value));
    }
    r := Success(lp[..]);
  }

  class StanModel {
    const source: Source
    var flagInit: bool
    var numVars: Option<nat>
    var model: Option<StanFit>

    /** Initialised exactly when the model exists, and then `num_vars` is derived from it. */
    ghost predicate Valid()
      reads this
    {
      && (flagInit <==> model.Some?)
      && numVars == if model.Some? then Some(NumVarsOf(model.value.parDims)) else None
    }

    /** The state `__init__` leaves once the source is chosen. */
    constructor (source: Source)
      ensures Valid()
      ensures this.source == source
      ensures !flagInit && numVars.None? && model.None?
    {
      this.source := source;
      flagInit := false;
      numVars := None;
      model := None;
    }

    /** `StanModel(file, model_code)`: choose the source or raise, and start uninitialised. */
    static method Create(file: Option<string>, modelCode: Option<string>) returns (r: Result<StanModel, Error>)
      ensures r.Failure? <==> file.None? && modelCode.None?
      ensures r.Failure? ==> r.error == NotImplementedError
      ensures r.Success? ==> && fresh(r.value) && r.value.Valid()
                             && Success(r.value.source) == ChooseSource(file, modelCode)
                             && !r.value.flagInit && r.value.numVars.None?
    {
      var src := ChooseSource(file, modelCode);
      if src.Failure? {
        return Failure(src.error);
      }
      var m := new StanModel(src.value);
      r := Success(m);
    }

    /**
     * `_initialize(xs)`: build the model from the source and the data
     * (`stan` stands for `pystan.stan` with one iteration and one chain),
     * then derive `num_vars` and set the flag. When the build raises,
     * nothing is assigned and the exception is passed on.
     */
    method Initialize(xs: Observed, stan: (Source, Observed) -> Result<StanFit, Error>) returns (err: Option<Error>)
      requires Valid()
      modifies this
      ensures Valid()
      ensures stan(source, xs).Success? ==>
                && err.None? && flagInit && model == Some(stan(source, xs).value)
                && numVars == Some(NumVarsOf(stan(source, xs).value.parDims))
      ensures stan(source, xs).Failure? ==>
                && err == Some(stan(source, xs).error)
                && flagInit == old(flagInit) && model == old(model) && numVars == old(numVars)
    {
      var built := stan(source, xs);
      if built.Failure? {
        return Some(built.error);
      }
      var fit := built.value;
      model := Some(fit);
      numVars := Some(NumVarsOf(fit.parDims));
      flagInit := true;
      err := None;
    }

    /** `_py_log_prob(zs)` on the instantiated model. */
    method PyLogProb(zs: Batch) returns (r: Result<seq<real>, Error>)
      requires Valid() && flagInit
      ensures Scored(model.value, zs, r)
    {
      r := BatchLogProb(model.value, zs);
    }

    /**
     * `log_prob(xs, zs)`: initialise while the flag is down, so the data of
     * the first call whose initialisation succeeds stays bound; then score
     * every row. A failed initialisation raises and leaves the flag down, so
     * the next call initialises again with its own data.
     */
    method LogProb(xs: Observed, zs: Batch, stan: (Source, Observed) -> Result<StanFit, Error>)
      returns (r: Result<seq<real>, Error>)
      requires Valid()
      modifies this
      ensures Valid()
      ensures old(flagInit) ==> flagInit && model == old(model) && numVars == old(numVars)
      ensures !old(flagInit) && stan(source, xs).Success? ==> flagInit && model == Some(stan(source, xs).value)
      ensures !old(flagInit) && stan(source, xs).Failure? ==>
                && !flagInit && model == old(model) && numVars == old(numVars)
                && r == Failure(stan(source, xs).error)
      ensures flagInit ==> Scored(model.value, zs, r)
    {
      if !flagInit {
        var err := Initialize(xs, stan);
        if err.Some? {
          return Failure(err.value);
        }
      }
      r := PyLogProb(zs);
    }
  }
}
