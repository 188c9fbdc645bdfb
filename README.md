# Edward model wrappers and the variational container, in Dafny

This project models `edward/models/models.py` of the Edward probabilistic
programming library. That file holds three wrappers that give an inference
algorithm one interface, `log_prob(xs, zs)`: "for every row of the latent
sample `zs`, the joint log-density with the observations `xs`". Each wrapper
sits over a different modelling back-end. The file also holds `Variational`,
the container that stacks the distribution layers of a variational family.

- `PyMC3Model` (pymc3.dfy, module `PyMC3Adapter`) binds the observations to
  a Theano shared variable. It then scores the batch one row at a time with
  the model's compiled log-density.
- `PythonModel` (python_model.dfy, module `PythonAdapter`) stores the
  observations on the object. It scores through `_py_log_prob_z`, which hands
  the stored data to the abstract `_py_log_prob` of a subclass.
- `StanModel` (stan.dfy, module `StanAdapter`) does three things:
  - it chooses between a Stan file and inline Stan code;
  - it instantiates the Stan model lazily, on the first `log_prob`, and
    derives `num_vars` from the parameter dimensions;
  - for every row, it walks a cursor through the flat sample to build an
    ordered dictionary from parameter names to values, which the Stan
    back-end then scores.
- `Variational` (variational.dfy, module `VariationalContainer`) keeps
  aggregate fields beside its list of layers. These are the shapes, the
  variable and parameter counts, three capability flags and the
  multivariate flags. Its class invariant `Valid()` says the aggregates
  always equal a fold over the current layers. `add` preserves that
  invariant, and `FoldStep` proves the incremental update equal to the fold.
  `sample`, `log_prob`, `entropy` and `__str__` combine the layers' own
  results.

Shared pieces:

- wrappers.dfy holds the `Option` and `Result` types.
- values.dfy holds rows, batches, observed data and the exceptions the code
  raises.
- reductions.dfy holds Python's `sum` and `all`, and the newline join with its
  inverse split.

The back-ends are parameters. Each appears as a datatype of functions:
`StanFit` for a fitted PyStan model, `PyMC3Spec` for a PyMC3 model, and the
`density` of a `PythonModel` subclass. So are a layer's own sampler, density,
entropy and string. Every property below therefore holds for every back-end
and layer that returns a result (see Left out). The one back-end call that may
fail here is the instantiation by `pystan.stan`.

## Model

| member | source | states |
|---|---|---|
| `VariationalContainer.Variational.constructor` | edward/models/models.py:215-237 | Without layers, every aggregate is empty, zero or true; with layers, the container holds exactly those layers and every aggregate equals the fold over them (`Valid`). |
| `VariationalContainer.Variational.Add` | edward/models/models.py:249-264 | The layer goes on top of the stack, each aggregate takes exactly its one-step update, and the invariant that the aggregates equal the fold over the layers is preserved. |
| `VariationalContainer.FoldStep` | edward/models/models.py:257-264 | Folding over the list extended by one layer gives the same aggregates as the incremental update `add` applies to the fold of the old list. |
| `VariationalContainer.FlagsMeanEvery` | edward/models/models.py:231-236 | `is_reparam`, `is_normal` and `is_entropy` hold, in both directions, exactly when every layer has that capability. |
| `VariationalContainer.CapabilityStaysLost` | edward/models/models.py:261-263 | Once a capability flag is false, no sequence of later layers makes it true again. |
| `VariationalContainer.Variational.Sample` | edward/models/models.py:266-288 | With `size` defaulting to 1, entry `l` is layer `l`'s draw of `size` rows; the result is bare exactly when there is one layer, and otherwise holds one batch per layer. |
| `VariationalContainer.SampleFitsLogProb` | edward/models/models.py:284-288 | When every layer draws `size` rows, what `sample` returns has the shape `log_prob` requires: bare for one layer, one batch per layer, one batch size. |
| `VariationalContainer.Variational.LogProb` | edward/models/models.py:310-318 | One layer: that layer's per-row densities, unwrapped. Several layers: one entry per row, each the sum over the layers of their density of that row. No layers: IndexError, and only then. |
| `VariationalContainer.Variational.Entropy` | edward/models/models.py:320-325 | The result is the sum of the layers' entropies, starting from 0. |
| `VariationalContainer.Variational.ToString` | edward/models/models.py:239-247 | The result is the layer strings joined by single newlines, with none before the first or after the last. |
| `VariationalContainer.StringSplitsIntoLayers` | edward/models/models.py:239-247 | When no layer string holds a newline, splitting the container string at newlines gives back the layer strings in order. |
| `StanAdapter.ChooseSource` | edward/models/models.py:130-135 | A file takes precedence over inline code. Construction fails with NotImplementedError exactly when neither is given. |
| `StanAdapter.StanModel.Create` | edward/models/models.py:123-138 | Raises NotImplementedError exactly when neither source is given; otherwise a new, uninitialised model over the chosen source with no `num_vars`. |
| `StanAdapter.StanModel.constructor` | edward/models/models.py:137-138 | A new model starts with the flag down, no `num_vars` and no instantiated model, which satisfies the class invariant. |
| `StanAdapter.StanModel.Initialize` | edward/models/models.py:167-178 | When the instantiation from the stored source and this call's data succeeds, the model is that instance, `num_vars` becomes the summed widths of its parameters, and the flag goes up. When it raises, the exception is passed on and the flag, the model and `num_vars` are left as they were. |
| `StanAdapter.StanModel.LogProb` | edward/models/models.py:140-165 | Initialises only while the flag is down. Once it is up, later calls keep that model and `num_vars` whatever data they pass. A first call whose instantiation raises returns that exception and leaves the flag down, so the next call initialises with its own data. Whenever the flag is up, every row is scored as `_py_log_prob` does. |
| `StanAdapter.StanModel.PyLogProb` | edward/models/models.py:180-210 | For a back-end that does not raise: succeeds exactly when every row unflattens. Then it holds one log-density per row, in row order: the back-end's density of the unconstrained image of that row's dictionary. Otherwise it fails with the exception of the first row that does not unflatten. |
| `StanAdapter.BatchLogProb` | edward/models/models.py:194-210 | The same scoring property for a given instantiated model, filled into an array row by row. |
| `StanAdapter.UnflattenRow` | edward/models/models.py:196-205 | The cursor loop yields exactly the declaratively defined row dictionary, or the exception of its first raising read; on success the cursor ends at the summed widths of the zipped parameters. |
| `StanAdapter.RowDict` | edward/models/models.py:195-205 | A row fails exactly when one of its reads raises, and then only with IndexError (a scalar read past the end of the row) or ValueError (a block slice that does not hold `prod(dim)` elements, so it does not reshape). |
| `StanAdapter.Width` | edward/models/models.py:176-177 | Every parameter takes at least one element: `sum(dim)` when it is not 0, else 1. |
| `StanAdapter.NumVarsAtLeastParams` | edward/models/models.py:176-177 | `num_vars` is at least the number of parameters. |
| `StanAdapter.OffsetAtEnd` | edward/models/models.py:176-177 | The cursor after the last parameter equals `num_vars`: the loop consumes exactly what `_initialize` counts. |
| `StanAdapter.OffsetWithinNumVars` | edward/models/models.py:197-205 | No parameter's slice starts past `num_vars`. |
| `StanAdapter.PutSemantics` | edward/models/models.py:201-204 | Assigning into the ordered dictionary stores the value under its key. An existing key is overwritten in its own position: the length, the key order and every other entry stay as they were. A new key is appended at the end. |
| `StanAdapter.DictNext` | edward/models/models.py:199-205 | One loop turn: the row starts failing exactly when this read raises, and then with this read's exception. A block raises exactly when its slice does not hold `prod(dim)` elements, a scalar exactly when the cursor is past the end. The cursor moves by the parameter's width, and otherwise the value (the block slice, or the scalar at the cursor) is stored under the parameter's name. |
| `StanAdapter.RaisesSticks` | edward/models/models.py:198-205 | Once a read has raised, the row fails however many parameters follow, and with the exception of that first raising read. |
| `StanAdapter.RaisesIffPastEnd` | edward/models/models.py:198-205 | When every block's `sum(dim)` equals `prod(dim)`, one of the first `k` reads raises exactly when the row ends before their cursor. |
| `StanAdapter.RaisesAtIffPastEnd` | edward/models/models.py:199-205 | Under the same condition, a single parameter's read raises exactly when its slice runs past the end of the row. |
| `StanAdapter.ValueSlice` | edward/models/models.py:199-205 | When every block's `sum(dim)` equals `prod(dim)`, a parameter whose slice lies inside the row does not raise, and reads exactly the elements from its cursor up to the next parameter's cursor. |
| `StanAdapter.DictAppends` | edward/models/models.py:198-205 | With distinct names, the dictionary's keys are the parameter names in declared order, and each turn appends one entry at the end. |
| `StanAdapter.DictEntry` | edward/models/models.py:198-205 | With distinct names, blocks whose `sum(dim)` equals `prod(dim)`, and a long enough row, entry `j` is parameter `j` under its own name. Its value is the row between consecutive cursors, so the slices are contiguous and disjoint. |
| `StanAdapter.FlattenDict` | edward/models/models.py:197-205 | Under the same conditions, flattening the dictionary of the first `k` parameters gives back the row up to the cursor. |
| `StanAdapter.RowDictRoundTrip` | edward/models/models.py:195-205 | With as many names as dimensions, distinct names, blocks whose `sum(dim)` equals `prod(dim)`, and a row of at least `num_vars` elements, the row unflattens. The dictionary holds every name in declared order, and its values flatten back to the first `num_vars` elements of the row. |
| `StanAdapter.RowDictSucceedsIff` | edward/models/models.py:195-205 | The loop checks no length, but when every block's `sum(dim)` equals `prod(dim)`, a row unflattens exactly when it holds at least the final cursor position (`num_vars` when every dimension has a name). A longer row's tail is ignored. |
| `StanAdapter.RowLengthCases` | edward/models/models.py:199-205 | For one parameter of dimension [2], a one-element row fails with ValueError and a three-element row succeeds with its last element ignored. For two scalars, a one-element row fails with IndexError. |
| `StanAdapter.MatrixParameterRaises` | edward/models/models.py:199-204 | Because a block counts `sum(dim)` elements, a 2-by-3 matrix parameter gives `num_vars` 5, and every row fails with ValueError. |
| `PyMC3Adapter.PyMC3Model.constructor` | edward/models/models.py:37-41 | Keeps the model and the shared variable; `num_vars` is the number of continuous input variables. |
| `PyMC3Adapter.PyMC3Model.LogProb` | edward/models/models.py:69-70 | Afterwards the shared variable holds this call's observations, and the result is every row's density under those observations (when the scoring runs before any later `log_prob`; see Left out). |
| `PyMC3Adapter.PyMC3Model.PyLogProb` | edward/models/models.py:72-78 | One log-density per row of the batch, in row order, under the currently bound observations. |
| `PyMC3Adapter.ScoresConcat` | edward/models/models.py:75-76 | Rows are scored independently: scoring a concatenated batch gives the concatenation of the two batches' scores. |
| `PyMC3Adapter.SharedVariable.SetValue` | edward/models/models.py:69 | After `set_value(v)`, the shared variable holds `v`. |
| `PythonAdapter.PythonModel.constructor` | edward/models/models.py:84-85 | A new model has no `num_vars` and no stored data. |
| `PythonAdapter.PythonModel.RawLogProb` | edward/models/models.py:116-117 | The base class raises NotImplementedError, and only the base class. A subclass's result is its own density of the data and the batch. |
| `PythonAdapter.PythonModel.PyLogProbZ` | edward/models/models.py:113-114 | Before any `log_prob` has stored data, reading `self.xs` raises AttributeError. Afterwards the stored data is scored, and the only errors are AttributeError and NotImplementedError. |
| `PythonAdapter.PythonModel.LogProb` | edward/models/models.py:109-111 | The stored data becomes this call's data, and the batch is scored with that data (when the scoring runs before any later `log_prob`; see Left out). It fails exactly when no subclass density exists. |

## Left out

- PyMC3Adapter.PyMC3Model.LogProb, PythonAdapter.PythonModel.LogProb and
  StanAdapter.StanModel.LogProb: the source's `log_prob` only builds a
  `tf.py_func` node. The scoring and its exceptions happen when the graph is
  evaluated, and it then reads the shared variable or `self.xs` as they are
  at that moment. The model scores at once. So its result equals the
  source's only when the node is evaluated before any later `log_prob` call
  on the same wrapper. For Stan the model is fixed after the first call, so
  only the timing of the exception differs.
- StanAdapter.StanModel.PyLogProb, StanAdapter.BatchLogProb,
  VariationalContainer.Variational.Entropy, VariationalContainer.Variational.LogProb,
  VariationalContainer.Variational.Sample, PyMC3Adapter.PyMC3Model.PyLogProb and
  PythonAdapter.PythonModel.RawLogProb: every call into a back-end or a layer is a
  total function here. These calls are `unconstrain_pars`, Stan's `log_prob`,
  PyMC3's `logp`, a layer's `sample`, `log_prob` and `entropy`, and a subclass's
  `_py_log_prob`. The source catches nothing around them, so whatever they raise
  fails the whole call. One example is `unconstrain_pars` given a value outside
  a bounded parameter's support. Those exceptions are not modelled. The stated
  results, including "succeeds exactly when every row unflattens", hold for
  back-ends and layers that do not raise.
- TensorFlow plumbing is not modelled. This covers `tf.py_func`, the float32
  result type, `tf.zeros`/`tf.constant`, `get_dims` and `get_session`. Values
  are `real`, and a batch is a sequence of rows.
- The back-ends are parameters, so their internals are not modelled. This
  covers `pystan.stan` with its one iteration and one chain (whose failures
  are one `StanError`), `unconstrain_pars`
  and Stan's `log_prob`; PyMC3's `inputvars`, the array bijection and
  `fastlogp`; and a layer's sampler, density, entropy and string.
  edward/models/distributions.py is not part of this model.
- PyMC3Adapter.PyMC3Model.constructor: the gradient `dlogp` is built but
  never used by the modelled methods, so it is left out.
- StanAdapter.ValueAt: a block's value is the flat slice. The array that
  `reshape(dim)` makes of it is not built; its shape is the parameter's `dim`.
  The reshape's ValueError is modelled in `RaisesAt`.
- StanAdapter.Width: the code counts `sum(dim)` elements per parameter, and
  the model counts the same way. `MatrixParameterRaises` shows what that does
  to a multi-dimensional parameter.
- StanAdapter.RowDictRoundTrip: assumes distinct parameter names. With a
  repeated name the ordered dictionary overwrites the earlier entry in
  place; `Put` and `PutSemantics` model that overwrite.
- StanAdapter.StanModel.Initialize: the diagnostic printed before the
  instantiation is output only, and is not modelled.
- VariationalContainer.Variational.constructor: the container takes the
  caller's list by value. The source aliases the caller's list, so a later
  `add` is also seen through that list; this model does not capture that.
- VariationalContainer.Layer: the two class-dictionary checks (`'reparam'`
  and `'entropy'` defined by the layer's own class) and `isinstance(layer,
  Normal)` are booleans the layer declares.
- VariationalContainer.Variational.LogProb: a layer's `log_prob` is taken to
  score each row independently. The call requires the argument shape that
  the source's notes assume: as `sample` returns it, with one batch size.
- PythonAdapter.PythonModel: `xs` may be any value in the source; here it is
  observed data. A subclass that sets `num_vars` is not modelled.
- Concurrent use of one wrapper is not modelled. That covers the shared
  observed-data slot and the unguarded initialisation flag.
