# MVKernels: a Dafny model of the accelerator orchestration of perl_k_means

`ML/MVKernels.c` is the host side of the CUDA back end of perl_k_means.
It keeps a feed-forward neural network as a doubly linked list of layers
(`create_node`, `add_node`) whose weights, biases and gradients live in
accelerator buffers, stages mini batches into those buffers (`load_input`,
`load_target`), drives the kernels of one training step
(`run_feed_forward`, `calculate_cost_derivative`, `run_backpropagation`,
`run_update_weights_and_biases`) and reads results back (`calculate_cost`,
`calculate_weights_cost`, `get_weights`, `get_biases`).  Its second half
is principal component analysis: `calculate_covariance` standardises a
data matrix and forms its covariance, `cuda_eigenvectors` runs QR
iterations (`cuda_qr_get_q_and_r`) until the accelerator reports
convergence, sorts the eigenvectors by their column sums, and
`cuda_project_results` projects the z-scores onto them.

The model has two layers.

* **The device** (modules `Buffers`, `Device`, `Kernels`, `Steps`).  Every
  host-to-accelerator interaction is a `Call`: a kernel launch with the
  regions it reads and writes, an upload, a download, an on-device copy,
  a `malloc` or a `free`.  `Device.Exec` runs a list of calls against a
  `State` that records each buffer's capacity and the shape it was last
  written with, and stops at the first ill-defined call: an access past a
  buffer's capacity (`Overflow`), a buffer that is not allocated
  (`Unallocated`), a read of a buffer nothing wrote (`Unwritten`), or a
  read of an `r x c` matrix from a buffer last written with another shape
  (`Mismatch`).  A host read through a null list pointer is the call
  `NullDeref`, which fails with `NullLink`.  Kernels are named by what they read and write; their
  numerical results are not modelled.  On this layer the model proves
  that each operation's calls are well defined, which buffers they leave
  with which shapes, and that nothing else changes (modules `Build`,
  `Training`, `Qr`, `Covariance`, `Eigen`).
* **The host** (modules `Network`, `Ordering`, `Contents`).  The linked
  list is a sequence of `Node` records, head first, with host and device
  copies of the buffers the host code reads or writes as `seq<real>`; the
  file's globals (`mini_batch_size`, `dirty_dirty_weights`, the staging
  buffers of `reserve_input_memory`) are fields of `Net`.  Values the
  kernels compute enter as parameters.  On this layer the model proves
  where each value lands (create, load, read-back round trips), what the
  dirty flag promises, and how the eigenvectors are sorted and reordered.

Sizes are `nat`.  A host buffer write past its allocation is the error
`HostOverflow`.  Memory that is allocated but never written reads as zeros
on the host and as `Unwritten` on the device.

## Model

| member | source | states |
|---|---|---|
| Network.InitialWf | ML/MVKernels.c:20-29 | before any call the list is empty, the flag clear and the staging buffers null, which is well formed |
| Network.CreateNode | ML/MVKernels.c:155-224 | the node has create_node's buffer sizes and equal host and device weights and biases; the bias copy fails exactly when `AH * AW` values exceed the `outsize` the host buffer holds |
| Network.CreateNodeAt | ML/MVKernels.c:172-196 | weight (i, j) lands at `i * insize + j` and bias (i, j) at `i * AW + j` |
| Build.WorkspaceOk | ML/MVKernels.c:200-219 | the workspace mallocs give every buffer of the layer its capacity and keep its weights and biases |
| Build.CreateNodeOk | ML/MVKernels.c:155-224 | on the device, create_node allocates and uploads the layer's weights and biases and touches no other layer |
| Build.CreateNodeCalls | ML/MVKernels.c:155-224 | the device calls of create_node for one layer: bias and weights allocated and uploaded, then the workspace allocated; Build.CreateNodeOk states what they do |
| Network.AddNode | ML/MVKernels.c:226-244 | add_node succeeds exactly when create_node does, and keeps the mini batch, the flag and the staging buffers |
| Network.AddNodeLinks | ML/MVKernels.c:233-241 | the new list is the old list with the new node appended: head, old tail as `prev`, new tail |
| Network.AddNodeChained | ML/MVKernels.c:226-244 | the sizes stay chained exactly when the new input size is the old tail's output size |
| Network.AddNodeKeeps | ML/MVKernels.c:226-244 | add_node keeps the state well formed and the dirty flag's promise |
| Build.NetworkOk | ML/MVKernels.c:226-244 | adding any list of layers to an empty device is well defined and allocates every layer's buffers |
| Build.NetworkCalls | ML/MVKernels.c:226-244 | the calls of add_node for every layer, head first; Build.NetworkOk states what they do |
| Network.ResetNode | ML/MVKernels.c:246-259 | one node's reset succeeds exactly when its bias derivative holds `output_size` values |
| Network.ResetNodes | ML/MVKernels.c:246-259 | the reset over the whole list keeps its length |
| Network.ResetDerivatives | ML/MVKernels.c:246-259 | reset_derivatives keeps the mini batch, the flag and the staging buffers |
| Network.ResetNodeFrom | ML/MVKernels.c:248-256 | every weight-derivative entry and the first `output_size` bias-derivative entries become zero on both sides, the rest is unchanged |
| Network.ResetNodesSpec | ML/MVKernels.c:246-259 | reset_derivatives succeeds exactly when every node has room, and then resets every node as above |
| Network.ResetKeeps | ML/MVKernels.c:246-259 | the reset keeps the state well formed, the flag's promise and the chaining |
| Network.ReserveInputMemory | ML/MVKernels.c:261-283 | fresh staging buffers with the requested sizes; the batch size becomes the mini batch size; layers and flag unchanged |
| Build.ReserveOk | ML/MVKernels.c:261-283 | after the layers, the reservation completes every allocation a training step needs |
| Build.ReserveCalls | ML/MVKernels.c:261-283 | the device buffers of reserve_input_memory, in its order; Build.ReserveOk states what they do |
| Build.SetupOk | ML/MVKernels.c:226-283 | add_node for every layer then reserve_input_memory, from an empty device, allocates and initialises everything |
| Network.LoadInput | ML/MVKernels.c:285-315 | load_input sets the mini batch size and succeeds exactly when `elements * input_size` fits the staging buffer |
| Network.LoadInputAt | ML/MVKernels.c:297-307 | value j of row i is staged at `i * insize + j` and lands transposed at `j * elements + i` of device_x |
| Network.LoadInputFits | ML/MVKernels.c:285-315 | with a reservation for the head's input size, load_input succeeds exactly when the batch is no larger than the reserved one |
| Training.LoadInputOk | ML/MVKernels.c:306-307 | the upload and transpose leave device_x as an `input_size x mini_batch_size` matrix |
| Network.LoadTarget | ML/MVKernels.c:317-346 | load_target succeeds exactly when `mini_batch_size * output_size` fits the staging buffer |
| Network.LoadTargetAt | ML/MVKernels.c:325-335 | target j of row i lands at `j * mini_batch_size + i` of device_y |
| Training.LoadTargetOk | ML/MVKernels.c:334-335 | device_y becomes an `output_size x mini_batch_size` matrix |
| Training.ForwardLayerOk | ML/MVKernels.c:356-378 | one layer writes its output and activation as `output_size x mini_batch_size` |
| Training.ForwardLayersOk | ML/MVKernels.c:355-387 | the loop leaves every activation with its shape and writes no other kind of buffer |
| Training.FeedForwardAsWritten | ML/MVKernels.c:349-388 | (as written) run_feed_forward with the transposition of line 354 sized `input_size x 1`; Training.TrainingStepAsWrittenFails states its failure |
| Training.FeedForward | ML/MVKernels.c:349-388 | (intended) the same pass with that transposition sized `input_size x mini_batch_size`; Training.FeedForwardOk states what it does |
| Training.FeedForwardOk | ML/MVKernels.c:349-388 | the corrected forward pass is well defined and writes only the transposed input and the forward buffers |
| Training.ForwardVisitsHeadToTail | ML/MVKernels.c:355-387 | each activation is written once, head to tail |
| Training.FeedForwardOverflows | ML/MVKernels.c:356 | a mini batch wider than the head layer's batch size overflows its output buffer at the first linear step |
| Training.CostDerivativeOk | ML/MVKernels.c:583-593 | the cost derivative is left as an `output_size x mini_batch_size` matrix |
| Training.CostCallsOk | ML/MVKernels.c:539-550 | the cost kernel and its read-back are well defined and write only device_Cost |
| Network.CalculateCost | ML/MVKernels.c:539-563 | the read-back fits exactly when `mini_batch_size * output_size` values fit host_Cost; then the sum is the sum of those values |
| Training.BackpropTailOk | ML/MVKernels.c:392-421 | the tail's delta and bias gradient are copies of the cost derivative and its weight gradient is `output_size x input_size` |
| Training.BackpropLayerOk | ML/MVKernels.c:423-464 | one iteration leaves the layer's delta, bias gradient and weight gradient from the next layer's delta |
| Training.BackpropLayersOk | ML/MVKernels.c:423-464 | the loop toward the head leaves every gradient of the layers it visits |
| Training.HeadOnlyTail | ML/MVKernels.c:394-413 | (intended) the start of run_backpropagation for one layer, its weight gradient reading device_x_transposed as line 453 does for the head |
| Training.Backprop | ML/MVKernels.c:390-465 | (intended) run_backpropagation, with Training.HeadOnlyTail for a one-layer network; Training.BackpropOk states what it does |
| Training.BackpropAsWritten | ML/MVKernels.c:390-401 | (as written) for one layer, the two copies and then the read through the null `tail->prev`; Training.BackpropAsWrittenOneLayerFails states its failure |
| Training.BackpropOk | ML/MVKernels.c:390-465 | run_backpropagation leaves every layer's gradients and writes only backward buffers |
| Training.HeadOnlyTailOk | ML/MVKernels.c:394-413 | (intended) for one layer, the delta and bias gradient are copies of the cost derivative and the weight gradient, taken from device_x_transposed as line 453 does for the head, is `output_size x input_size`; only backward buffers are written |
| Training.BackpropAsWrittenOneLayerFails | ML/MVKernels.c:394-401 | (as written) for one layer, the backward pass makes its two copies and then stops with a null-link error at `tail->prev` |
| Training.BackpropVisitsTailToHead | ML/MVKernels.c:390-465 | each layer's delta and gradients are written once, from the tail to the head |
| Training.UpdateLayerOk | ML/MVKernels.c:469-473 | one update rewrites the layer's weights and biases with their own shapes |
| Training.UpdateLayersOk | ML/MVKernels.c:467-476 | the update loop keeps the network initialised and writes only weights and biases |
| Training.UpdateVisitsHeadToTail | ML/MVKernels.c:467-476 | each layer's weights and biases are rewritten once, head to tail |
| Training.UpdateLayers | ML/MVKernels.c:467-476 | the update calls of the first `n` layers, head to tail; Training.UpdateLayersOk states what they do |
| Training.TrainingStep | ML/MVKernels.c:285-476 | (intended) load_input, load_target, the intended forward pass, the cost derivative, the intended backward pass and the update, in a training step's order; Training.TrainingStepOk states what it does |
| Training.TrainingStepAsWritten | ML/MVKernels.c:285-476 | (as written) the same step with run_feed_forward and run_backpropagation as written; Training.TrainingStepAsWrittenFails and Training.TrainingStepAsWrittenOneLayerFails state its failures |
| Network.UpdateWeightsAndBiases | ML/MVKernels.c:467-476 | every node becomes the same node with the new device weights and biases, so the host copies and everything else about it stay; the mini batch and staging buffers are unchanged, and the flag is set |
| Training.TrainingStepOk | ML/MVKernels.c:285-476 | (intended) a step of any ready network, one layer included, is well defined, allocates nothing and leaves the network ready |
| Build.SetupThenTrainOk | ML/MVKernels.c:226-476 | a network set up by add_node and reserve_input_memory with chained sizes and a batch that fits trains a step without an ill-defined call |
| Training.TrainingStepAsWrittenFails | ML/MVKernels.c:354 | as written, the first forward call reads device_x as `input_size x 1` and fails for any mini batch above one |
| Training.TrainingStepAsWrittenOneLayerFails | ML/MVKernels.c:401 | (as written against intended) a ready one-layer network with a one-column batch fails with a null-link error as written and trains a step when corrected |
| Training.AsWrittenAgreesOnSingleColumn | ML/MVKernels.c:354 | for a batch of one the forward pass as written is the corrected one, and the whole step as written is the corrected step exactly when the network has at least two layers |
| Network.RetransposeRestoresBatch | ML/MVKernels.c:354 | sized `(input_size, mini_batch_size)` the transposition restores the staged rows |
| Network.RetransposeInput | ML/MVKernels.c:354 | the transposition back into device_x_transposed keeps its length; Network.RetransposeRestoresBatch and Network.RetransposeAsWrittenScrambles state its contents for the two sizings |
| Network.RetransposeAsWrittenScrambles | ML/MVKernels.c:354 | (as written) sized `(input_size, 1)`, for the rows `[[0, 1], [2, 3]]` device_x_transposed becomes `[0, 2, 2, 3]` instead of `[0, 1, 2, 3]`: row 1's first value lands where row 0's second belongs |
| Network.ScrambleExampleIsLoaded | ML/MVKernels.c:285-315 | the scrambled device_x is what load_input leaves for that batch |
| Network.Refreshed | ML/MVKernels.c:569-571 | a layer is refreshed from the device exactly when the flag is set |
| Network.LayerSquares | ML/MVKernels.c:572-576 | the loop over `i * output_size + j` adds the square of every weight |
| Network.CalculateWeightsCost | ML/MVKernels.c:565-581 | the host weights are refreshed when the flag is set, the flag is cleared, and the sum covers the refreshed weights |
| Network.CoherentSquares | ML/MVKernels.c:565-581 | with host and device weights equal, the host sum is the device sum |
| Network.WeightsCostIsCurrent | ML/MVKernels.c:565-581 | from a state keeping the flag's promise, the penalty is the sum over the device weights and the promise still holds |
| Network.Walk | ML/MVKernels.c:613-615 | the walk stops at position `i`, or at the head for a negative `i`, where the position one past the tail is the null pointer; a step from that pointer is a null-link error, so the walk fails exactly when `i` exceeds the number of layers |
| Network.GetWeightsAt | ML/MVKernels.c:607-647 | get_weights with its walk fails with a null-link error exactly when `i` (0 for a negative `i`) names no layer; otherwise it reads back that layer as Network.GetWeights does |
| Network.GetBiasesAt | ML/MVKernels.c:649-689 | get_biases with its walk fails in the same cases, and otherwise reads back that layer's biases as Network.GetBiases does |
| Network.Unflatten | ML/MVKernels.c:635-646 | the values come back as `rows` rows of `cols` values each |
| Network.UnflattenAt | ML/MVKernels.c:635-646 | entry (a, b) of the rows returned is value `a * cols + b` of the buffer |
| Network.GetWeights | ML/MVKernels.c:607-647 | the layer's host weights are refreshed from the device, every other layer is unchanged, and `output_size` rows come back |
| Network.GetBiases | ML/MVKernels.c:649-689 | the same for the biases, one value per row |
| Network.GetWeightsKeeps | ML/MVKernels.c:607-689 | reading back keeps the flag's promise |
| Network.UnflattenFlatten | ML/MVKernels.c:186-196 | cutting flattened rows gives the rows back, each cut to the width |
| Network.WeightsRoundTrip | ML/MVKernels.c:607-647 | weights passed to add_node come back from get_weights |
| Network.BiasesRoundTrip | ML/MVKernels.c:649-689 | biases passed to add_node as one value per row come back from get_biases |
| Covariance.AllocationsOk | ML/MVKernels.c:738-742 | the five working buffers get `DW * DH` values and nothing else changes |
| Covariance.StatisticsOk | ML/MVKernels.c:771-793 | with a row to read, the upload and the statistics leave the z-scores as a `DH x DW` matrix |
| Covariance.ProductOk | ML/MVKernels.c:803-804 | the covariance fits its buffer exactly when there are no more columns than rows |
| Covariance.CovarianceOk | ML/MVKernels.c:697-836 | calculate_covariance is well defined exactly when `DW <= DH`; then it leaves a `DW x DW` covariance and the z-scores, and otherwise overflows device_Cov |
| Covariance.Calls | ML/MVKernels.c:697-836 | the device calls of calculate_covariance: allocations, statistics, product; Covariance.CovarianceOk states what they do |
| Qr.PrepareOk | ML/MVKernels.c:846-851 | only a call with the flag clear allocates, and then exactly the workspace |
| Qr.InitialisedAllocatesNothing | ML/MVKernels.c:844-860 | with the flag set the call neither allocates nor frees |
| Qr.ColumnLoopAt | ML/MVKernels.c:852-856 | the j-th group of kernel calls works on column j: increasing order |
| Qr.ColumnStepOk | ML/MVKernels.c:853-855 | a column step needs exactly the leading columns and leaves one more |
| Qr.ColumnLoopOk | ML/MVKernels.c:852-856 | the loop over k columns is well defined and leaves Q with k columns |
| Qr.ColumnOutOfOrderFails | ML/MVKernels.c:852-856 | a column computed before the ones that precede it fails |
| Qr.QrOk | ML/MVKernels.c:844-860 | on a square matrix, whatever the flag when it keeps its promise, the call leaves Q and R and the workspace and changes nothing else |
| Qr.InitialisedTooSmallFails | ML/MVKernels.c:846-851 | the flag records that the workspace exists, not its size: a wider matrix later overflows it |
| Eigen.SetupKeepsDotp | ML/MVKernels.c:930-939 | the allocations and upload of cuda_eigenvectors keep the dot-product workspace's capacity |
| Eigen.EigenvectorsAfterNarrowerFails | ML/MVKernels.c:846-851 | with the QR flag left set by a narrower matrix, cuda_eigenvectors overflows the dot-product buffer at the first factorisation |
| Qr.CleanupOk | ML/MVKernels.c:862-868 | the cleanup frees exactly the workspace; a second cleanup fails |
| Qr.Calls | ML/MVKernels.c:844-860 | the device calls of cuda_qr_get_q_and_r: the lazy workspace allocation, the column loop, the finish; Qr.QrOk states what they do |
| Eigen.Iterate | ML/MVKernels.c:941-951 | the loop runs at most `max_iterations` times and none when that is not positive, stops after the first converged report, and leaves the counter one past the runs unless convergence ended it |
| Eigen.SetupOk | ML/MVKernels.c:930-939 | the mallocs and the upload leave what the loop needs, pQ2 still unwritten |
| Eigen.IterationOk | ML/MVKernels.c:943-950 | one iteration is well defined, sets up the QR workspace and leaves pQ2 written |
| Eigen.IterationsOk | ML/MVKernels.c:941-951 | any number of iterations is well defined; after at least one, pQ2 is written |
| Eigen.LoopOk | ML/MVKernels.c:930-951 | after the setup and k iterations pQ2 is written exactly when k > 0 |
| Eigen.SignsExec | ML/MVKernels.c:960-976 | the signs, their read-back and the index upload leave the sums and indices on the device |
| Eigen.ReorderExec | ML/MVKernels.c:977-978 | the intended reorder writes pQ2 from pQ and copies it back |
| Eigen.ReorderAsWrittenExec | ML/MVKernels.c:977-978 | as written, the reorder reads pQ2 and fails when no iteration wrote it |
| Eigen.ReorderAsWritten | ML/MVKernels.c:977-978 | (as written) the reorder from pQ2 into pQ, then pQ2 copied over pQ; Eigen.ReorderAsWrittenExec states its failure |
| Eigen.Reorder | ML/MVKernels.c:977-978 | (intended) the reorder from pQ into pQ2, then pQ2 copied back; Eigen.ReorderExec states what it does |
| Eigen.TailOk | ML/MVKernels.c:960-985 | the intended tail leaves pQ with the eigenvectors and frees Q and R |
| Eigen.TailAsWrittenUnwritten | ML/MVKernels.c:960-985 | the tail as written fails on an unwritten pQ2 |
| Eigen.EigenvectorsOk | ML/MVKernels.c:874-1025 | with the intended reorder, cuda_eigenvectors on a square pQ is well defined for every number of iterations, including none |
| Eigen.EigenvectorsAsWrittenOk | ML/MVKernels.c:874-1025 | as written it is well defined exactly when at least one iteration runs |
| Eigen.Calls | ML/MVKernels.c:874-1025 | (intended) cuda_eigenvectors on a square pQ with `k` iterations and the intended reorder; Eigen.EigenvectorsOk states what it does |
| Eigen.CallsAsWritten | ML/MVKernels.c:874-1025 | (as written) the same with the reorder as written; Eigen.EigenvectorsAsWrittenOk states when it fails |
| Eigen.ProjectionOk | ML/MVKernels.c:1052-1063 | the projection is a `CCH x projected_columns` matrix |
| Eigen.Projection | ML/MVKernels.c:1052-1063 | the device calls of the projection: the result's allocation, the partial product, the read-back; Eigen.ProjectionOk states what they do |
| Eigen.ProjectionFirstFails | ML/MVKernels.c:1052-1054 | projecting before any eigenvectors were allocated fails at pQ |
| Eigen.CovarianceHandsOver | ML/MVKernels.c:697-836 | calculate_covariance leaves the covariance and z-scores the later calls read |
| Eigen.EigenvectorsHandOver | ML/MVKernels.c:874-1025 | cuda_eigenvectors leaves the eigenvectors and keeps the z-scores for the projection |
| Eigen.AnalysisOk | ML/MVKernels.c:697-1085 | covariance, eigenvectors and projection in sequence are well defined exactly when `DW <= DH`, and then the projection is `DH x projected_columns` |
| Contents.Iota | ML/MVKernels.c:963-966 | the index array before the sort lists 0 .. n-1 in order |
| Ordering.PermutationIndices | ML/MVKernels.c:963-971 | a permutation of the indices names each column once |
| Ordering.PermutationCovers | ML/MVKernels.c:963-971 | every column appears in a permutation |
| Ordering.Insert | ML/MVKernels.c:967 | inserting adds exactly one index to the multiset |
| Ordering.InsertSorted | ML/MVKernels.c:967 | inserting into a sorted order keeps it sorted by the comparator of line 870 |
| Ordering.SortIndices | ML/MVKernels.c:963-971 | the indices come back as a permutation of the columns along which the sums never decrease |
| Ordering.ReorderAsWrittenDiscards | ML/MVKernels.c:977-978 | as written, pQ ends as pQ2 unchanged: neither signs nor order reach it |
| Ordering.ReorderAsWritten | ML/MVKernels.c:977-978 | (as written) pQ takes pQ2's columns in the sorted order and then pQ2 whole; the result keeps the matrix's size, and Ordering.ReorderAsWrittenDiscards states what it holds |
| Ordering.ReorderAt | ML/MVKernels.c:977-978 | as intended, column c of pQ is column `order[c]` of the signed eigenvectors |
| Ordering.Reorder | ML/MVKernels.c:977-978 | (intended) pQ2 takes pQ's columns in the sorted order and pQ then takes pQ2; the result keeps the matrix's size, and Ordering.ReorderAt states what it holds |
| Ordering.ReorderColumn | ML/MVKernels.c:977-978 | the same, column by column |
| Ordering.ReorderSorts | ML/MVKernels.c:963-978 | with the sorted order, pQ holds every eigenvector with non-decreasing sums |
| Ordering.ReorderAsWrittenKeepsOrder | ML/MVKernels.c:977-978 | for two columns out of order, the intended reorder swaps them and the code as written does not |

## Left out

- Perl marshalling (`SV`, `AV`, `newRV`), the debug output and the
  `inline` glue: they only move values the model passes as parameters.
- The numerical results of the kernels (`run_gpu_*`, `CUDAKernel.h`):
  the device layer checks which regions a kernel reads and writes, and
  the host layer takes the values they compute as parameters.
  nvidia_kernel's kernel bodies are not part of this model.
- Floating point: values are `real`; rounding, NaN and the float
  comparison of `sums_less_than` are not modelled.
- Real memory management: `malloc` never fails, and freed memory is
  simply gone.  Host buffers of calculate_covariance, cuda_eigenvectors
  and cuda_project_results other than the sums and indices are not modelled.
- Negative C `int` sizes: every size is a `nat`.
- Ordering.SortIndices: std::sort orders equal sums in an unspecified way;
  the model sorts stably, and its contract (a sorted permutation) is all
  std::sort promises.
- Eigen.EigenvectorsOk: only a square pQ whose size is the covariance's
  is modelled (`pQH == pQW == XW`), as calculate_covariance prepares it;
  Eigen.Iterate relates the number of iterations to `max_iterations` and
  the convergence reports, which the accelerator computes
  (`gpu_get_unconverged_state`) and the model takes as a parameter.
- Eigen.ProjectionOk: the partial product is modelled as reading the
  whole `CCW x CCW` pQ; which of its entries the kernel reads for a given
  `projected_columns`, and whether a value above `CCW` reads past its
  rows, is inside the kernel and not modelled.
- Qr.QrOk: only a square matrix, as cuda_eigenvectors passes it.
- Eigen.EigenvectorsOk: it requires the QR flag's promise (`Qr.FlagInv`):
  a set flag must come with a workspace wide enough for the matrix.  The
  code does not check this; a caller that moves to a wider matrix must call
  cuda_qr_get_q_and_r_cleanup first (Qr.CleanupOk), and
  Eigen.EigenvectorsAfterNarrowerFails states the overflow otherwise.
- Eigen.AnalysisOk: the same requirement on the QR flag, for the same
  reason.

## Findings

| source | as written | input that shows it | evidently intended | confidence | as-written member | corrected member |
|---|---|---|---|---|---|---|
| ML/MVKernels.c:354 | `run_gpu_transpose_2D_array(activation, device_x_transposed, head->input_size, 1)` transposes device_x as an `input_size x 1` matrix | a mini batch of two rows of two values, `[[0, 1], [2, 3]]`: device_x (`[0, 2, 1, 3]`) is transposed as a `2 x 1` matrix, so device_x_transposed becomes `[0, 2, 2, 3]` instead of `[0, 1, 2, 3]`, and the head's weight gradient reads the scrambled rows | transpose device_x as `input_size x mini_batch_size` | high, not executed | Network.RetransposeAsWrittenScrambles | Network.RetransposeRestoresBatch |
| ML/MVKernels.c:401 | before its loop, run_backpropagation transposes `current->prev->device_Activated_Output` for the tail, and line 413 reads `current->prev` again, whatever the length of the list | a network of one layer: `tail->prev` is NULL, so after the two copies of lines 394-395 the host reads through a null pointer | for a single layer, take the weight gradient from device_x_transposed, as line 453 does for the head | high, not executed | Training.TrainingStepAsWrittenOneLayerFails | Training.TrainingStepOk |
| ML/MVKernels.c:977-978 | `run_gpu_reorder_eigenvectors(device_pQ2, device_pQ, ...)` writes pQ2's columns, reordered, into pQ, and `gpu_memcpy_intra_device(device_pQ2, device_pQ, ...)` then copies pQ2 over that result | one row, two columns with sums `[2, 1]`: the result keeps the order `[2, 1]` instead of `[1, 2]`, and the signs of line 960 are lost too | reorder pQ into pQ2, then copy pQ2 back into pQ | high, not executed | Ordering.ReorderAsWrittenKeepsOrder | Ordering.ReorderSorts |
| ML/MVKernels.c:977 | the reorder reads device_pQ2, which only the loop body of lines 943-950 writes | `max_iterations <= 0`: the loop body never runs, and the reorder reads pQ2 before anything wrote it | the reorder reads pQ, which line 939 uploaded | high, not executed | Eigen.EigenvectorsAsWrittenOk | Eigen.EigenvectorsOk |
