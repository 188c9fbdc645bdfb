/** The numeric values that cross the boundary between the adapters and their back-ends. */
module Values {

  /** One flattened draw of the latent variables: the row `zs[s, :]` of a sample batch. */
  type Row = seq<real>

  /** A batch of rows; its length is the batch size (the leading dimension). */
  type Batch = seq<Row>

  /** Observed data. This layer never looks inside it: it only hands it to a back-end. */
  type Observed = map<string, seq<real>>

  /** The exceptions the modelled code raises itself (back-end errors are not modelled). */
  datatype Error =
    | NotImplementedError  // no Stan source given, or the abstract `_py_log_prob` called
    | IndexError           // indexing past the end of a list or a row
    | AttributeError       // reading `self.xs` before `log_prob` stored it
    | ValueError           // reshaping a slice whose length is not the shape's element count
    | StanError            // `pystan.stan` failing to build or fit the program with the data
}
