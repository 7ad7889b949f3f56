/** The accelerator kernels of nvidia_kernel/CUDAKernel.h, each described
    only by the regions it reads and writes.

    Every constructor takes the kernel's arguments in the header's order and
    derives the matrix shape of each buffer argument from the size
    arguments, following the parameter names (`input_size`,
    `middle_size`, `output_size`, `rows`, `cols`, `colno`).  What the kernel
    computes is not modelled.
 */
module Kernels {
  import opened Buffers
  import D = Device

  function W(b: BufId, rows: nat, cols: nat): Access {
    Access(b, Whole(rows, cols))
  }

  /** run_gpu_linear: Output (m x k) from Weights (m x n), activation (n x k)
      and Bias (m x 1). */
  function Linear(activation: BufId, weights: BufId, bias: BufId, output: BufId, m: nat, n: nat, k: nat): D.Call {
    D.Kernel(D.Linear, [W(activation, n, k), W(weights, m, n), W(bias, m, 1)], [W(output, m, k)])
  }

  /** run_gpu_matmul: r (input x output) from a (input x middle) and b
      (middle x output). */
  function Matmul(a: BufId, b: BufId, r: BufId, inputSize: nat, middleSize: nat, outputSize: nat): D.Call {
    D.Kernel(D.Matmul, [W(a, inputSize, middleSize), W(b, middleSize, outputSize)], [W(r, inputSize, outputSize)])
  }

  /** run_gpu_partial_matmul: only the first `maxColumns` result columns. */
  function PartialMatmul(a: BufId, b: BufId, r: BufId, inputSize: nat, middleSize: nat, outputSize: nat,
                         maxColumns: nat): D.Call {
    D.Kernel(D.PartialMatmul, [W(a, inputSize, middleSize), W(b, middleSize, outputSize)], [W(r, inputSize, maxColumns)])
  }

  /** run_gpu_matmul_check_converged: a matmul that also sets the
      accelerator's convergence flag. */
  function MatmulCheckConverged(a: BufId, b: BufId, r: BufId, inputSize: nat, middleSize: nat, outputSize: nat): D.Call {
    D.Kernel(D.MatmulCheckConverged, [W(a, inputSize, middleSize), W(b, middleSize, outputSize)],
             [W(r, inputSize, outputSize)])
  }

  /** run_gpu_derivative: r = (a . b) combined elementwise with sp. */
  function Derivative(a: BufId, b: BufId, sp: BufId, r: BufId, inputSize: nat, middleSize: nat, outputSize: nat): D.Call {
    D.Kernel(D.Derivative,
             [W(a, inputSize, middleSize), W(b, middleSize, outputSize), W(sp, inputSize, outputSize)],
             [W(r, inputSize, outputSize)])
  }

  /** run_gpu_weight_derivative: r (input x output) from a and b. */
  function WeightDerivative(a: BufId, b: BufId, r: BufId, inputSize: nat, middleSize: nat, outputSize: nat): D.Call {
    D.Kernel(D.WeightDerivative, [W(a, inputSize, middleSize), W(b, middleSize, outputSize)], [W(r, inputSize, outputSize)])
  }

  /** gpu_sigmoid: elementwise over an output_size x cols matrix. */
  function Sigmoid(output: BufId, activated: BufId, outputSize: nat, cols: nat): D.Call {
    D.Kernel(D.Sigmoid, [W(output, outputSize, cols)], [W(activated, outputSize, cols)])
  }

  /** run_gpu_sigmoid_prime: elementwise over an output_size x cols matrix. */
  function SigmoidPrime(activated: BufId, derivative: BufId, outputSize: nat, cols: nat): D.Call {
    D.Kernel(D.SigmoidPrime, [W(activated, outputSize, cols)], [W(derivative, outputSize, cols)])
  }

  /** run_gpu_transpose_2D_array: a rows x cols input becomes cols x rows. */
  function Transpose(input: BufId, transpose: BufId, rows: nat, cols: nat): D.Call {
    D.Kernel(D.Transpose, [W(input, rows, cols)], [W(transpose, cols, rows)])
  }

  /** run_gpu_update_weights: in place over output_size x input_size. */
  function UpdateWeights(weights: BufId, derivative: BufId, outputSize: nat, inputSize: nat): D.Call {
    D.Kernel(D.UpdateWeights, [W(weights, outputSize, inputSize), W(derivative, outputSize, inputSize)],
             [W(weights, outputSize, inputSize)])
  }

  /** run_gpu_update_biases: the bias gradient is output_size x batch_size. */
  function UpdateBiases(bias: BufId, derivative: BufId, outputSize: nat, batchSize: nat): D.Call {
    D.Kernel(D.UpdateBiases, [W(bias, outputSize, 1), W(derivative, outputSize, batchSize)], [W(bias, outputSize, 1)])
  }

  /** gpu_calculate_cost_and_derivative: elementwise over rows x cols. */
  function CostAndDerivative(activated: BufId, y: BufId, derivative: BufId, rows: nat, cols: nat): D.Call {
    D.Kernel(D.CostAndDerivative, [W(activated, rows, cols), W(y, rows, cols)], [W(derivative, rows, cols)])
  }

  /** gpu_calculate_cost: elementwise over rows x cols. */
  function CostOnly(activated: BufId, y: BufId, cost: BufId, rows: nat, cols: nat): D.Call {
    D.Kernel(D.CostOnly, [W(activated, rows, cols), W(y, rows, cols)], [W(cost, rows, cols)])
  }

  /** run_gpu_calc_means: accumulates one value per column into `means`
      (which the host zeroes first). */
  function CalcMeans(data: BufId, means: BufId, rows: nat, cols: nat): D.Call {
    D.Kernel(D.CalcMeans, [W(data, rows, cols), W(means, 1, cols)], [W(means, 1, cols)])
  }

  /** run_gpu_calc_stddev: accumulates one value per column into `stddev`. */
  function CalcStddev(data: BufId, means: BufId, stddev: BufId, rows: nat, cols: nat): D.Call {
    D.Kernel(D.CalcStddev, [W(data, rows, cols), W(means, 1, cols), W(stddev, 1, cols)], [W(stddev, 1, cols)])
  }

  /** run_gpu_assign_z_scores: z (rows x cols) from data and the column
      statistics. */
  function AssignZScores(data: BufId, means: BufId, stddev: BufId, z: BufId, rows: nat, cols: nat): D.Call {
    D.Kernel(D.AssignZScores, [W(data, rows, cols), W(means, 1, cols), W(stddev, 1, cols)], [W(z, rows, cols)])
  }

  /** run_gpu_calc_covariance: a cols x cols covariance of rows x cols data. */
  function CalcCovariance(z: BufId, cov: BufId, rows: nat, cols: nat): D.Call {
    D.Kernel(D.CalcCovariance, [W(z, rows, cols)], [W(cov, cols, cols)])
  }

  /** run_gpu_qr_column_mult: dot products of column `colno` of `orig` with
      the columns of `r` before it. */
  function QrColumnMult(orig: BufId, r: BufId, dotp: BufId, rows: nat, cols: nat, colno: nat): D.Call {
    D.Kernel(D.QrColumnMult, [W(orig, rows, cols), Access(r, Leading(rows, cols, colno))], [W(dotp, 1, cols)])
  }

  /** run_gpu_qr_column: column `colno` of `r` from column `colno` of `orig`
      minus its projections on the earlier columns. */
  function QrColumn(orig: BufId, r: BufId, dotp: BufId, rows: nat, cols: nat, colno: nat): D.Call {
    D.Kernel(D.QrColumn, [W(orig, rows, cols), W(dotp, 1, cols), Access(r, Leading(rows, cols, colno))],
             [Access(r, Column(rows, cols, colno))])
  }

  /** run_gpu_qr_l2_norm: the norm of column `colno`, then the column
      divided by it in place. */
  function QrL2Norm(r: BufId, l2norm: BufId, rows: nat, cols: nat, colno: nat): D.Call {
    D.Kernel(D.QrL2Norm, [Access(r, Column(rows, cols, colno))],
             [W(l2norm, 1, 1), Access(r, Column(rows, cols, colno))])
  }

  /** run_gpu_qr_clamp_r_to_0: in place over rows x cols. */
  function QrClampR(r: BufId, rows: nat, cols: nat): D.Call {
    D.Kernel(D.QrClampR, [W(r, rows, cols)], [W(r, rows, cols)])
  }

  /** run_gpu_eigenvector_signs: one sum per column, and every column whose
      sum is below the kernel's threshold is negated in place (the caller's
      comment at ML/MVKernels.c:958-959 gives the threshold as 1; the
      kernel's own test is not part of this model). */
  function EigenvectorSigns(eigenvectors: BufId, sums: BufId, rows: nat, cols: nat): D.Call {
    D.Kernel(D.EigenvectorSigns, [W(eigenvectors, rows, cols)], [W(sums, 1, cols), W(eigenvectors, rows, cols)])
  }

  /** run_gpu_reorder_eigenvectors: `sorted` gets the columns of `unsorted`
      in the order given by `indices`. */
  function ReorderEigenvectors(unsorted: BufId, sorted: BufId, indices: BufId, rows: nat, cols: nat): D.Call {
    D.Kernel(D.ReorderEigenvectors, [W(unsorted, rows, cols), W(indices, 1, cols)], [W(sorted, rows, cols)])
  }
}
