/** Names, shapes and error values shared by the accelerator model and the
    host-side model.

    Every accelerator buffer that ML/MVKernels.c allocates gets a name.  The
    host-visible staging mirrors are not named here: the host model keeps
    their contents directly as sequences.
 */
module Buffers {

  /** The per-layer buffers that create_node allocates. */
  datatype Kind =
    | Weights | Bias | Output | Activated | ActivatedDerivative
    | ActivatedTransposed | WeightsDerivative | BiasDerivative
    | WeightsTransposed | Delta

  /** Accelerator buffers by name: the shared training buffers, the per-layer
      buffers of the layer at position `index` from the head, and the PCA
      working set. */
  datatype BufId =
    // training input, target and cost (reserve_input_memory)
    | X | XT | Y | YT | Cost | CostDerivative
    // per layer (create_node)
    | Layer(index: nat, kind: Kind)
    // covariance (calculate_covariance)
    | Data | Z | Cov | Means | Stddev
    // eigenvectors and QR workspace (cuda_eigenvectors, cuda_qr_get_q_and_r)
    | PQ | PQ2 | Q | R | RT | Dotp | L2Norm | Sums | SumIndices
    // projection (cuda_project_results)
    | Projection

  /** What the last write left in a buffer: a flat run of values uploaded
      from the host, a row-major matrix written by a kernel, or the leading
      `done` columns of a matrix written column by column. */
  datatype Layout =
    | Flat(size: nat)
    | Matrix(rows: nat, cols: nat)
    | Columns(rows: nat, cols: nat, done: nat)
  {
    /** Number of values the layout spans. */
    function Size(): nat {
      match this
      case Flat(n) => n
      case Matrix(r, c) => r * c
      case Columns(r, c, _) => r * c
    }
  }

  /** The part of a buffer that one kernel argument touches: a whole
      `rows x cols` matrix, a single column of one, or its leading `count`
      columns.  The kernel addresses a row-major `rows x cols` block in every
      case. */
  datatype Region =
    | Whole(rows: nat, cols: nat)
    | Column(rows: nat, cols: nat, col: nat)
    | Leading(rows: nat, cols: nat, count: nat)
  {
    /** Number of elements from the start of the buffer the region may touch. */
    function Extent(): nat {
      match this
      case Whole(r, c) => r * c
      case Column(r, c, _) => r * c
      case Leading(r, c, _) => r * c
    }
  }

  datatype Access = Access(buf: BufId, region: Region)

  /** The sizes create_node is given for one layer: `insize`, `outsize` and
      the `batch_size` its activation buffers are allocated for. */
  datatype Dims = Dims(inSize: nat, outSize: nat, batchSize: nat)

  /** Why a host call or an accelerator call is not well defined. */
  datatype Error =
    | Overflow(buf: BufId, extent: nat, capacity: nat)  // writes or reads past the allocation
    | Unallocated(buf: BufId)                           // buffer never allocated (or freed)
    | Unwritten(buf: BufId)                             // read before any write
    | Mismatch(buf: BufId, found: Layout, wanted: Region) // read with a shape other than the one written
    | HostOverflow(extent: nat, capacity: nat)          // host staging buffer written past its allocation
    | NullLink                                          // the host follows a null list pointer

  datatype Result<+T> = Ok(value: T) | Err(error: Error) {
    predicate IsFailure() {
      Err?
    }

    function PropagateFailure<U>(): Result<U>
      requires Err?
    {
      Err(error)
    }

    function Extract(): T
      requires Ok?
    {
      value
    }
  }
}
