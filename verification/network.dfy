/** The host side of ML/MVKernels.c: the layer list that add_node builds,
    the host staging buffers that reserve_input_memory allocates, and the
    globals `mini_batch_size` and `dirty_dirty_weights`, with every host
    operation as a function from one state to the next.

    Buffers are sequences whose length is their capacity.  Only the contents
    the host code reads or writes are kept: the host and device copies of
    each layer's weights, biases and derivatives, and the staging buffers of
    the input, the target and the cost.  Values the kernels compute enter as
    parameters.
 */
module Network {
  import opened Buffers
  import opened Contents

  /** One node of the doubly linked list: its sizes and the host (`h`) and
      device (`d`) copies of the buffers the host code touches.  The list
      itself is a sequence, head first; `prev` of position `c` is `c - 1`
      and `next` is `c + 1`. */
  datatype Node = Node(
    dims: Dims,
    hBias: seq<real>, dBias: seq<real>,
    hWeights: seq<real>, dWeights: seq<real>,
    hWeightsDerivative: seq<real>, dWeightsDerivative: seq<real>,
    hBiasDerivative: seq<real>, dBiasDerivative: seq<real>)

  /** The input, target and cost buffers of reserve_input_memory, with the
      sizes it was called with. */
  datatype Staging = Staging(
    sizes: Dims,
    hXT: seq<real>, dXT: seq<real>, dX: seq<real>,
    hYT: seq<real>, dYT: seq<real>, dY: seq<real>,
    hCost: seq<real>)

  datatype Net = Net(nodes: seq<Node>, miniBatch: nat, dirty: bool, staging: Staging)

  /** Every buffer of a node has the capacity create_node gives it
      (ML/MVKernels.c:169-219). */
  predicate NodeWf(n: Node) {
    var d := n.dims;
    && |n.hBias| == d.outSize && |n.dBias| == d.outSize
    && |n.hWeights| == d.outSize * d.inSize && |n.dWeights| == d.inSize * d.outSize
    && |n.hWeightsDerivative| == d.outSize * d.inSize && |n.dWeightsDerivative| == d.inSize * d.outSize
    && |n.hBiasDerivative| == d.outSize * d.batchSize && |n.dBiasDerivative| == d.batchSize * d.outSize
  }

  /** The staging buffers have reserve_input_memory's capacities
      (ML/MVKernels.c:264-278). */
  predicate StagingWf(g: Staging) {
    var d := g.sizes;
    && |g.hXT| == d.inSize * d.batchSize && |g.dXT| == d.inSize * d.batchSize && |g.dX| == d.inSize * d.batchSize
    && |g.hYT| == d.outSize * d.batchSize && |g.dYT| == d.outSize * d.batchSize && |g.dY| == d.outSize * d.batchSize
    && |g.hCost| == d.outSize * d.batchSize
  }

  predicate Wf(net: Net) {
    (forall c :: 0 <= c < |net.nodes| ==> NodeWf(net.nodes[c])) && StagingWf(net.staging)
  }

  /** `layer[c].output_size == layer[c + 1].input_size` along the list. */
  predicate Chained(nodes: seq<Node>) {
    forall c :: 0 <= c && c + 1 < |nodes| ==> nodes[c].dims.outSize == nodes[c + 1].dims.inSize
  }

  /** Every layer's host weights are the device weights. */
  predicate Coherent(nodes: seq<Node>) {
    forall c :: 0 <= c < |nodes| ==> nodes[c].hWeights == nodes[c].dWeights
  }

  /** What `dirty_dirty_weights` promises: a clear flag means the host copies
      of the weights are current. */
  predicate DirtyInv(net: Net) {
    !net.dirty ==> Coherent(net.nodes)
  }

  /** Nothing is allocated before the first call: empty list, null staging
      buffers (capacity zero), both globals zero. */
  const Initial := Net([], 0, false, Staging(Dims(0, 0, 0), [], [], [], [], [], [], []))

  lemma InitialWf()
    ensures Wf(Initial) && DirtyInv(Initial) && Chained(Initial.nodes)
  {
  }

  // ---------------------------------------------------------------------
  // Building the list

  /** The rows of a Perl array of arrays that create_node reads: `count`
      rows of at least `width` values. */
  predicate Rows(rows: seq<seq<real>>, count: nat, width: nat) {
    count <= |rows| && forall i :: 0 <= i < count ==> width <= |rows[i]|
  }

  /** create_node (ML/MVKernels.c:155-224).  The bias array is copied as
      `AH x AW` values, `AW` the length of its first row, into a host buffer
      of `outsize` values; the weights as `outsize x insize`.  Both are
      uploaded.  The derivative buffers are allocated but not written, and
      read as zeros. */
  function CreateNode(insize: nat, outsize: nat, biases: seq<seq<real>>, weights: seq<seq<real>>, batch: nat): (r: Result<Node>)
    requires |biases| > 0 && Rows(biases, |biases|, |biases[0]|)
    requires Rows(weights, outsize, insize)
    ensures r.Ok? <==> |biases| * |biases[0]| <= outsize
    ensures r.Err? ==> r.error == HostOverflow(|biases| * |biases[0]|, outsize)
    ensures r.Ok? ==> NodeWf(r.value) && r.value.dims == Dims(insize, outsize, batch)
    ensures r.Ok? ==> r.value.dWeights == r.value.hWeights && r.value.dBias == r.value.hBias
  {
    var ah, aw := |biases|, |biases[0]|;
    if ah * aw > outsize then Err(HostOverflow(ah * aw, outsize))
    else
      var hb := Overwrite(Zeros(outsize), Flatten(biases, ah, aw));
      var hw := Flatten(weights, outsize, insize);
      Ok(Node(Dims(insize, outsize, batch), hb, hb, hw, hw,
              Zeros(outsize * insize), Zeros(insize * outsize),
              Zeros(outsize * batch), Zeros(batch * outsize)))
  }

  /** Weight (i, j) lands at `i * insize + j`; bias (i, j) at `i * AW + j`. */
  lemma CreateNodeAt(insize: nat, outsize: nat, biases: seq<seq<real>>, weights: seq<seq<real>>, batch: nat, i: nat, j: nat)
    requires |biases| > 0 && Rows(biases, |biases|, |biases[0]|)
    requires Rows(weights, outsize, insize)
    requires CreateNode(insize, outsize, biases, weights, batch).Ok?
    ensures var n := CreateNode(insize, outsize, biases, weights, batch).value;
            && (i < outsize && j < insize ==> i * insize + j < |n.hWeights| && n.hWeights[i * insize + j] == weights[i][j])
            && (i < |biases| && j < |biases[0]| ==>
                  i * |biases[0]| + j < |n.hBias| && n.hBias[i * |biases[0]| + j] == biases[i][j])
  {
    if i < outsize && j < insize {
      FlattenAt(weights, outsize, insize, i, j);
    }
    if i < |biases| && j < |biases[0]| {
      FlattenAt(biases, |biases|, |biases[0]|, i, j);
    }
  }

  /** add_node (ML/MVKernels.c:226-244): the new node becomes the tail. */
  function AddNode(net: Net, insize: nat, outsize: nat, biases: seq<seq<real>>, weights: seq<seq<real>>, batch: nat): (r: Result<Net>)
    requires |biases| > 0 && Rows(biases, |biases|, |biases[0]|)
    requires Rows(weights, outsize, insize)
    ensures r.Ok? <==> CreateNode(insize, outsize, biases, weights, batch).Ok?
    ensures r.Ok? ==> r.value.miniBatch == net.miniBatch && r.value.dirty == net.dirty && r.value.staging == net.staging
  {
    var n :- CreateNode(insize, outsize, biases, weights, batch);
    Ok(net.(nodes := net.nodes + [n]))
  }

  /** The list after add_node is the old list with the new node appended:
      the first node becomes head and tail; otherwise the head stays, the
      old tail becomes the new node's `prev`, and the new node is the tail. */
  lemma AddNodeLinks(net: Net, insize: nat, outsize: nat, biases: seq<seq<real>>, weights: seq<seq<real>>, batch: nat)
    requires |biases| > 0 && Rows(biases, |biases|, |biases[0]|)
    requires Rows(weights, outsize, insize)
    requires AddNode(net, insize, outsize, biases, weights, batch).Ok?
    ensures var ns := AddNode(net, insize, outsize, biases, weights, batch).value.nodes;
            var n := CreateNode(insize, outsize, biases, weights, batch).value;
            && |ns| == |net.nodes| + 1
            && ns[..|net.nodes|] == net.nodes
            && ns[|ns| - 1] == n
            && (|net.nodes| == 0 ==> ns == [n])
            && (|net.nodes| > 0 ==> ns[0] == net.nodes[0] && ns[|ns| - 2] == net.nodes[|net.nodes| - 1])
  {
  }

  /** Appending keeps the sizes chained exactly when the new layer's input
      is the old tail's output. */
  lemma AddNodeChained(net: Net, insize: nat, outsize: nat, biases: seq<seq<real>>, weights: seq<seq<real>>, batch: nat)
    requires |biases| > 0 && Rows(biases, |biases|, |biases[0]|)
    requires Rows(weights, outsize, insize)
    requires AddNode(net, insize, outsize, biases, weights, batch).Ok? && Chained(net.nodes)
    ensures Chained(AddNode(net, insize, outsize, biases, weights, batch).value.nodes) <==>
            (|net.nodes| == 0 || net.nodes[|net.nodes| - 1].dims.outSize == insize)
  {
    var ns := AddNode(net, insize, outsize, biases, weights, batch).value.nodes;
    var m := |net.nodes|;
    forall c | 0 <= c < m ensures ns[c] == net.nodes[c] {
      assert ns[..m][c] == ns[c];
    }
    if m > 0 && Chained(ns) {
      assert ns[m - 1].dims.outSize == ns[m].dims.inSize;
    }
  }

  /** add_node keeps the state well formed and the dirty flag's promise. */
  lemma AddNodeKeeps(net: Net, insize: nat, outsize: nat, biases: seq<seq<real>>, weights: seq<seq<real>>, batch: nat)
    requires |biases| > 0 && Rows(biases, |biases|, |biases[0]|)
    requires Rows(weights, outsize, insize)
    requires Wf(net) && DirtyInv(net)
    requires AddNode(net, insize, outsize, biases, weights, batch).Ok?
    ensures Wf(AddNode(net, insize, outsize, biases, weights, batch).value)
    ensures DirtyInv(AddNode(net, insize, outsize, biases, weights, batch).value)
  {
    var ns := AddNode(net, insize, outsize, biases, weights, batch).value.nodes;
    AddNodeLinks(net, insize, outsize, biases, weights, batch);
    forall c | 0 <= c < |ns| ensures NodeWf(ns[c]) && (Coherent(net.nodes) ==> ns[c].hWeights == ns[c].dWeights) {
      if c < |net.nodes| {
        assert ns[..|net.nodes|][c] == ns[c];
      }
    }
  }

  lemma AddNodeWf(net: Net, insize: nat, outsize: nat, biases: seq<seq<real>>, weights: seq<seq<real>>, batch: nat)
    requires |biases| > 0 && Rows(biases, |biases|, |biases[0]|)
    requires Rows(weights, outsize, insize)
    requires Wf(net) && AddNode(net, insize, outsize, biases, weights, batch).Ok?
    ensures Wf(AddNode(net, insize, outsize, biases, weights, batch).value)
  {
    var ns := AddNode(net, insize, outsize, biases, weights, batch).value.nodes;
    AddNodeLinks(net, insize, outsize, biases, weights, batch);
    forall c | 0 <= c < |ns| ensures NodeWf(ns[c]) {
      if c < |net.nodes| {
        assert ns[..|net.nodes|][c] == ns[c];
      }
    }
  }

  // ---------------------------------------------------------------------
  // reset_derivatives

  /** One node of reset_derivatives (ML/MVKernels.c:248-256): every
      weight-derivative entry `i * input_size + j` and the first
      `output_size` bias-derivative entries become zero on the host and are
      pushed to the device.  The bias derivative holds
      `output_size * batch_size` values, so a node created with batch size
      zero has no room for them. */
  function ResetNode(n: Node): (r: Result<Node>)
    requires NodeWf(n)
    ensures r.Ok? <==> n.dims.outSize <= |n.hBiasDerivative|
    ensures r.Err? ==> r.error == HostOverflow(n.dims.outSize, |n.hBiasDerivative|)
    ensures r.Ok? ==> NodeWf(r.value)
  {
    var d := n.dims;
    if d.outSize > |n.hBiasDerivative| then Err(HostOverflow(d.outSize, |n.hBiasDerivative|))
    else
      var hbd := Overwrite(n.hBiasDerivative, Zeros(d.outSize));
      Ok(n.(hWeightsDerivative := Zeros(d.outSize * d.inSize),
            dWeightsDerivative := Zeros(d.inSize * d.outSize),
            hBiasDerivative := hbd,
            dBiasDerivative := Overwrite(n.dBiasDerivative, hbd[..d.outSize])))
  }

  /** reset_derivatives over the list from the head; it stops at the first
      node whose bias derivative is too small. */
  function ResetNodes(nodes: seq<Node>): (r: Result<seq<Node>>)
    requires forall c :: 0 <= c < |nodes| ==> NodeWf(nodes[c])
    ensures r.Ok? ==> |r.value| == |nodes|
    decreases |nodes|
  {
    if |nodes| == 0 then Ok([])
    else
      var n :- ResetNode(nodes[0]);
      var rest :- ResetNodes(nodes[1..]);
      Ok([n] + rest)
  }

  function ResetDerivatives(net: Net): (r: Result<Net>)
    requires Wf(net)
    ensures r.Ok? ==> r.value.miniBatch == net.miniBatch && r.value.dirty == net.dirty && r.value.staging == net.staging
  {
    var ns :- ResetNodes(net.nodes);
    Ok(net.(nodes := ns))
  }

  /** What reset_derivatives leaves in one node. */
  predicate ResetFrom(n: Node, r: Node) {
    var d := n.dims;
    && r.dims == d
    && r.hWeights == n.hWeights && r.dWeights == n.dWeights && r.hBias == n.hBias && r.dBias == n.dBias
    && |r.hWeightsDerivative| == |n.hWeightsDerivative| && |r.dWeightsDerivative| == |n.dWeightsDerivative|
    && (forall k :: 0 <= k < |r.hWeightsDerivative| ==> r.hWeightsDerivative[k] == 0.0)
    && (forall k :: 0 <= k < |r.dWeightsDerivative| ==> r.dWeightsDerivative[k] == 0.0)
    && |r.hBiasDerivative| == |n.hBiasDerivative| && |r.dBiasDerivative| == |n.dBiasDerivative|
    && d.outSize <= |n.hBiasDerivative| && d.outSize <= |n.dBiasDerivative|
    && (forall k :: 0 <= k < d.outSize ==> r.hBiasDerivative[k] == 0.0 && r.dBiasDerivative[k] == 0.0)
    && r.hBiasDerivative[d.outSize..] == n.hBiasDerivative[d.outSize..]
    && r.dBiasDerivative[d.outSize..] == n.dBiasDerivative[d.outSize..]
  }

  lemma ResetNodeFrom(n: Node)
    requires NodeWf(n) && ResetNode(n).Ok?
    ensures ResetFrom(n, ResetNode(n).value)
  {
  }

  /** reset_derivatives succeeds exactly when every node has room for its
      bias derivative; then it zeroes every node's derivative prefixes on
      both sides and leaves weights, biases and the list unchanged. */
  lemma {:induction false} ResetNodesSpec(nodes: seq<Node>)
    requires forall c :: 0 <= c < |nodes| ==> NodeWf(nodes[c])
    ensures ResetNodes(nodes).Ok? <==> forall c :: 0 <= c < |nodes| ==> nodes[c].dims.outSize <= |nodes[c].hBiasDerivative|
    ensures ResetNodes(nodes).Ok? ==> forall c :: 0 <= c < |nodes| ==> ResetFrom(nodes[c], ResetNodes(nodes).value[c])
    decreases |nodes|
  {
    if |nodes| > 0 {
      var tl := nodes[1..];
      assert forall c :: 0 <= c < |tl| ==> tl[c] == nodes[c + 1];
      ResetNodesSpec(tl);
      if ResetNodes(nodes).Ok? {
        var r := ResetNodes(nodes).value;
        ResetNodeFrom(nodes[0]);
        assert r == [ResetNode(nodes[0]).value] + ResetNodes(tl).value;
        forall c | 0 <= c < |nodes| ensures ResetFrom(nodes[c], r[c]) {
          if c > 0 {
            assert r[c] == ResetNodes(tl).value[c - 1];
          }
        }
      }
    }
  }

  /** reset_derivatives keeps the state well formed and the flag's promise. */
  lemma ResetKeeps(net: Net)
    requires Wf(net) && DirtyInv(net) && ResetDerivatives(net).Ok?
    ensures Wf(ResetDerivatives(net).value) && DirtyInv(ResetDerivatives(net).value)
    ensures Chained(ResetDerivatives(net).value.nodes) <==> Chained(net.nodes)
  {
    ResetNodesSpec(net.nodes);
    var ns := ResetDerivatives(net).value.nodes;
    forall c | 0 <= c < |ns| ensures NodeWf(ns[c]) && ns[c].dims == net.nodes[c].dims && ns[c].hWeights == net.nodes[c].hWeights {
      assert ResetFrom(net.nodes[c], ns[c]);
    }
  }

  // ---------------------------------------------------------------------
  // Staging buffers and loads

  /** reserve_input_memory (ML/MVKernels.c:261-283): fresh staging buffers
      for `insize`, `outsize` and `batch_size`, which also becomes the mini
      batch size. */
  function ReserveInputMemory(net: Net, insize: nat, outsize: nat, batch: nat): (r: Net)
    ensures StagingWf(r.staging) && r.staging.sizes == Dims(insize, outsize, batch)
    ensures r.miniBatch == batch && r.nodes == net.nodes && r.dirty == net.dirty
  {
    var ni, no := insize * batch, outsize * batch;
    net.(miniBatch := batch,
         staging := Staging(Dims(insize, outsize, batch), Zeros(ni), Zeros(ni), Zeros(ni), Zeros(no), Zeros(no), Zeros(no), Zeros(no)))
  }

  /** load_input (ML/MVKernels.c:285-315): `mini_batch_size` becomes
      `elements`; row i of the batch is staged at `i * insize` with `insize`
      the head's input size; the staged values are uploaded and transposed
      into an `insize x elements` device_x.  Staging more values than the
      reservation holds is a host overflow. */
  function LoadInput(net: Net, x: seq<seq<real>>, elements: nat): (r: Result<Net>)
    requires Wf(net) && |net.nodes| > 0
    requires Rows(x, elements, net.nodes[0].dims.inSize)
    ensures r.Ok? <==> elements * net.nodes[0].dims.inSize <= |net.staging.hXT|
    ensures r.Err? ==> r.error == HostOverflow(elements * net.nodes[0].dims.inSize, |net.staging.hXT|)
    ensures r.Ok? ==> r.value.miniBatch == elements && r.value.nodes == net.nodes && r.value.dirty == net.dirty
    ensures r.Ok? ==> Wf(r.value)
  {
    var insize := net.nodes[0].dims.inSize;
    var n := elements * insize;
    var g := net.staging;
    if n > |g.hXT| then Err(HostOverflow(n, |g.hXT|))
    else
      var hxt := Overwrite(g.hXT, Flatten(x, elements, insize));
      var dxt := Overwrite(g.dXT, hxt[..n]);
      Ok(net.(miniBatch := elements, staging := g.(hXT := hxt, dXT := dxt, dX := TransposeInto(g.dX, dxt, elements, insize))))
  }

  /** Value j of row i is staged at `i * insize + j` and lands at
      `j * elements + i` of device_x; values past the batch are untouched. */
  lemma LoadInputAt(net: Net, x: seq<seq<real>>, elements: nat, i: nat, j: nat)
    requires Wf(net) && |net.nodes| > 0
    requires Rows(x, elements, net.nodes[0].dims.inSize)
    requires LoadInput(net, x, elements).Ok?
    requires i < elements && j < net.nodes[0].dims.inSize
    ensures var insize := net.nodes[0].dims.inSize;
            var g := LoadInput(net, x, elements).value.staging;
            && i * insize + j < |g.hXT| && j * elements + i < |g.dX|
            && g.hXT[i * insize + j] == x[i][j]
            && g.dXT[i * insize + j] == x[i][j]
            && g.dX[j * elements + i] == x[i][j]
            && g.hXT[elements * insize..] == net.staging.hXT[elements * insize..]
  {
    var insize := net.nodes[0].dims.inSize;
    var g := net.staging;
    var hxt := Overwrite(g.hXT, Flatten(x, elements, insize));
    var dxt := Overwrite(g.dXT, hxt[..elements * insize]);
    FlattenAt(x, elements, insize, i, j);
    TransposeAt(g.dX, dxt, elements, insize, i, j);
  }

  /** With the reservation made for the head's input size, load_input stays
      inside it exactly when the batch is no larger than the reserved one. */
  lemma LoadInputFits(net: Net, x: seq<seq<real>>, elements: nat)
    requires Wf(net) && |net.nodes| > 0
    requires Rows(x, elements, net.nodes[0].dims.inSize)
    requires net.staging.sizes.inSize == net.nodes[0].dims.inSize > 0
    ensures LoadInput(net, x, elements).Ok? <==> elements <= net.staging.sizes.batchSize
  {
    var n := net.nodes[0].dims.inSize;
    var b := net.staging.sizes.batchSize;
    if elements <= b {
      MulLe(elements, b, n);
    } else {
      MulLe(b + 1, elements, n);
    }
  }

  /** load_target (ML/MVKernels.c:317-346): `mini_batch_size` rows of the
      tail's output size, staged, uploaded and transposed into an
      `outsize x mini_batch_size` device_y. */
  function LoadTarget(net: Net, y: seq<seq<real>>): (r: Result<Net>)
    requires Wf(net) && |net.nodes| > 0
    requires Rows(y, net.miniBatch, net.nodes[|net.nodes| - 1].dims.outSize)
    ensures r.Ok? <==> net.miniBatch * net.nodes[|net.nodes| - 1].dims.outSize <= |net.staging.hYT|
    ensures r.Err? ==> r.error == HostOverflow(net.miniBatch * net.nodes[|net.nodes| - 1].dims.outSize, |net.staging.hYT|)
    ensures r.Ok? ==> r.value.miniBatch == net.miniBatch && r.value.nodes == net.nodes && r.value.dirty == net.dirty
    ensures r.Ok? ==> Wf(r.value)
  {
    var outsize := net.nodes[|net.nodes| - 1].dims.outSize;
    var b := net.miniBatch;
    var n := b * outsize;
    var g := net.staging;
    if n > |g.hYT| then Err(HostOverflow(n, |g.hYT|))
    else
      var hyt := Overwrite(g.hYT, Flatten(y, b, outsize));
      var dyt := Overwrite(g.dYT, hyt[..n]);
      Ok(net.(staging := g.(hYT := hyt, dYT := dyt, dY := TransposeInto(g.dY, dyt, b, outsize))))
  }

  /** Target j of row i lands at `j * mini_batch_size + i` of device_y. */
  lemma LoadTargetAt(net: Net, y: seq<seq<real>>, i: nat, j: nat)
    requires Wf(net) && |net.nodes| > 0
    requires Rows(y, net.miniBatch, net.nodes[|net.nodes| - 1].dims.outSize)
    requires LoadTarget(net, y).Ok?
    requires i < net.miniBatch && j < net.nodes[|net.nodes| - 1].dims.outSize
    ensures var outsize := net.nodes[|net.nodes| - 1].dims.outSize;
            var g := LoadTarget(net, y).value.staging;
            && i * outsize + j < |g.hYT| && j * net.miniBatch + i < |g.dY|
            && g.hYT[i * outsize + j] == y[i][j]
            && g.dY[j * net.miniBatch + i] == y[i][j]
  {
    var outsize := net.nodes[|net.nodes| - 1].dims.outSize;
    var g := net.staging;
    var hyt := Overwrite(g.hYT, Flatten(y, net.miniBatch, outsize));
    var dyt := Overwrite(g.dYT, hyt[..net.miniBatch * outsize]);
    FlattenAt(y, net.miniBatch, outsize, i, j);
    TransposeAt(g.dY, dyt, net.miniBatch, outsize, i, j);
  }

  // ---------------------------------------------------------------------
  // The input transposition at the start of run_feed_forward

  /** device_x_transposed after the first call of run_feed_forward, which
      transposes device_x (`insize x B`) back as a `rows x cols` matrix
      (ML/MVKernels.c:354). */
  function RetransposeInput(g: Staging, rows: nat, cols: nat): (r: seq<real>)
    requires rows * cols <= |g.dXT| && rows * cols <= |g.dX|
    ensures |r| == |g.dXT|
  {
    TransposeInto(g.dXT, g.dX, rows, cols)
  }

  /** Sized `(insize, B)`, the transposition gives back exactly the rows
      load_input staged, which is what the head's weight gradient reads. */
  lemma RetransposeRestoresBatch(net: Net, x: seq<seq<real>>, elements: nat)
    requires Wf(net) && |net.nodes| > 0
    requires Rows(x, elements, net.nodes[0].dims.inSize)
    requires LoadInput(net, x, elements).Ok?
    ensures var insize := net.nodes[0].dims.inSize;
            var g := LoadInput(net, x, elements).value.staging;
            && insize * elements <= |g.dX|
            && RetransposeInput(g, insize, elements)[..elements * insize] == g.dXT[..elements * insize]
  {
    var insize := net.nodes[0].dims.inSize;
    var g0 := net.staging;
    var hxt := Overwrite(g0.hXT, Flatten(x, elements, insize));
    var dxt := Overwrite(g0.dXT, hxt[..elements * insize]);
    TransposeTwice(dxt, g0.dX, dxt, elements, insize);
  }

  /** Sized `(insize, 1)` as written, the transposition of a batch of two
      two-value rows moves only the first two values of device_x: entry 1
      should hold row 0's second value and holds row 1's first value, and
      entries 2 and 3 keep what load_input staged. */
  lemma RetransposeAsWrittenScrambles()
    ensures var g := Staging(Dims(2, 0, 2), [0.0, 1.0, 2.0, 3.0], [0.0, 1.0, 2.0, 3.0], [0.0, 2.0, 1.0, 3.0], [], [], [], []);
            RetransposeInput(g, 2, 1) == [0.0, 2.0, 2.0, 3.0] && g.dXT == [0.0, 1.0, 2.0, 3.0]
  {
    var g := Staging(Dims(2, 0, 2), [0.0, 1.0, 2.0, 3.0], [0.0, 1.0, 2.0, 3.0], [0.0, 2.0, 1.0, 3.0], [], [], [], []);
    var r := RetransposeInput(g, 2, 1);
    TransposeAt(g.dXT, g.dX, 2, 1, 0, 0);
    TransposeAt(g.dXT, g.dX, 2, 1, 1, 0);
    assert r[2..] == g.dXT[2..];
    assert r[2] == r[2..][0] && r[3] == r[2..][1];
  }

  /** The device_x above is what load_input leaves for that batch. */
  lemma ScrambleExampleIsLoaded(net: Net)
    requires Wf(net) && |net.nodes| > 0 && net.nodes[0].dims.inSize == 2
    requires net.staging.sizes == Dims(2, 0, 2) && |net.staging.hXT| == 4
    ensures var x := [[0.0, 1.0], [2.0, 3.0]];
            LoadInput(net, x, 2).Ok? && LoadInput(net, x, 2).value.staging.dX == [0.0, 2.0, 1.0, 3.0]
            && LoadInput(net, x, 2).value.staging.dXT == [0.0, 1.0, 2.0, 3.0]
  {
    var x := [[0.0, 1.0], [2.0, 3.0]];
    var g := LoadInput(net, x, 2).value.staging;
    LoadInputAt(net, x, 2, 0, 0);
    LoadInputAt(net, x, 2, 0, 1);
    LoadInputAt(net, x, 2, 1, 0);
    LoadInputAt(net, x, 2, 1, 1);
    assert |g.dX| == 4 && |g.dXT| == 4;
  }

  // ---------------------------------------------------------------------
  // Update and the weight penalty

  /** run_update_weights_and_biases (ML/MVKernels.c:467-476): the kernels
      write new device weights and biases, given here as `weights[c]` and
      `biases[c]`; the host copies are now stale, so the flag is set. */
  function UpdateWeightsAndBiases(net: Net, weights: seq<seq<real>>, biases: seq<seq<real>>): (r: Net)
    requires Wf(net) && |weights| == |biases| == |net.nodes|
    requires forall c :: 0 <= c < |net.nodes| ==> |weights[c]| == |net.nodes[c].dWeights| && |biases[c]| == |net.nodes[c].dBias|
    ensures r.dirty && Wf(r) && DirtyInv(r)
    ensures |r.nodes| == |net.nodes|
    ensures forall c :: 0 <= c < |r.nodes| ==>
              r.nodes[c].dWeights == weights[c] && r.nodes[c].dBias == biases[c] && r.nodes[c].hWeights == net.nodes[c].hWeights
    ensures r.miniBatch == net.miniBatch && r.staging == net.staging
    ensures forall c :: 0 <= c < |r.nodes| ==> r.nodes[c] == net.nodes[c].(dWeights := weights[c], dBias := biases[c])
  {
    net.(nodes := seq(|net.nodes|, c requires 0 <= c < |net.nodes| => net.nodes[c].(dWeights := weights[c], dBias := biases[c])),
         dirty := true)
  }

  /** The sum of squares of every layer's host weights, head first. */
  function WeightsSquares(nodes: seq<Node>): real
    decreases |nodes|
  {
    if |nodes| == 0 then 0.0 else WeightsSquares(nodes[..|nodes| - 1]) + SumSquares(nodes[|nodes| - 1].hWeights)
  }

  /** calculate_weights_cost (ML/MVKernels.c:565-581).  When the flag is set
      each layer's host weights are refreshed from the device first; the
      flag is cleared either way.  The loop reads entry
      `i * output_size + j` for `i < input_size`, `j < output_size`. */
  method CalculateWeightsCost(net: Net) returns (r: Net, sum: real)
    requires Wf(net)
    ensures Wf(r) && !r.dirty
    ensures r.miniBatch == net.miniBatch && r.staging == net.staging && |r.nodes| == |net.nodes|
    ensures forall c :: 0 <= c < |r.nodes| ==>
              r.nodes[c].dims == net.nodes[c].dims && r.nodes[c].dWeights == net.nodes[c].dWeights
              && r.nodes[c].hWeights == (if net.dirty then net.nodes[c].dWeights else net.nodes[c].hWeights)
    ensures DirtyInv(net) ==> Coherent(r.nodes)
    ensures !net.dirty ==> r.nodes == net.nodes
    ensures sum == WeightsSquares(r.nodes)
  {
    var nodes := net.nodes;
    var done: seq<Node> := [];
    sum := 0.0;
    var c := 0;
    while c < |nodes|
      invariant 0 <= c <= |nodes| && |done| == c
      invariant forall k :: 0 <= k < c ==> done[k] == Refreshed(nodes[k], net.dirty)
      invariant sum == WeightsSquares(done)
    {
      var n := Refreshed(nodes[c], net.dirty);
      var s := LayerSquares(n.hWeights, n.dims.inSize, n.dims.outSize);
      assert (done + [n])[..c] == done;
      sum := sum + s;
      done := done + [n];
      c := c + 1;
    }
    if !net.dirty {
      assert done == nodes;
    }
    r := net.(nodes := done, dirty := false);
  }

  /** A layer as calculate_weights_cost leaves it: refreshed from the device
      when the flag is set. */
  function Refreshed(n: Node, dirty: bool): (r: Node)
    ensures NodeWf(n) ==> NodeWf(r)
    ensures r.dims == n.dims && r.dWeights == n.dWeights
    ensures dirty ==> r.hWeights == n.dWeights
    ensures !dirty ==> r == n
  {
    if dirty then n.(hWeights := n.dWeights) else n
  }

  /** The sum of squares of one layer's weights, reading entry
      `i * output_size + j` for `i < input_size`, `j < output_size`
      (ML/MVKernels.c:572-576). */
  method LayerSquares(w: seq<real>, insize: nat, outsize: nat) returns (s: real)
    requires |w| == insize * outsize
    ensures s == SumSquares(w)
  {
    s := 0.0;
    var i := 0;
    while i < insize
      invariant 0 <= i <= insize
      invariant i * outsize <= |w|
      invariant s == SumSquares(w[..i * outsize])
    {
      var j := 0;
      while j < outsize
        invariant 0 <= j <= outsize
        invariant i * outsize + j <= |w|
        invariant s == SumSquares(w[..i * outsize + j])
      {
        IndexInside(i, j, insize, outsize);
        SumStep(w, i * outsize + j);
        s := s + w[i * outsize + j] * w[i * outsize + j];
        j := j + 1;
      }
      assert i * outsize + outsize == (i + 1) * outsize;
      i := i + 1;
    }
    assert w[..insize * outsize] == w;
  }

  /** The sum of squares of every layer's device weights, the ones
      training reads and writes. */
  function DeviceSquares(nodes: seq<Node>): real
    decreases |nodes|
  {
    if |nodes| == 0 then 0.0 else DeviceSquares(nodes[..|nodes| - 1]) + SumSquares(nodes[|nodes| - 1].dWeights)
  }

  /** With host and device weights equal the two sums agree. */
  lemma {:induction false} CoherentSquares(nodes: seq<Node>)
    requires Coherent(nodes)
    ensures WeightsSquares(nodes) == DeviceSquares(nodes)
    decreases |nodes|
  {
    if |nodes| > 0 {
      var init := nodes[..|nodes| - 1];
      assert forall c :: 0 <= c < |init| ==> init[c] == nodes[c];
      CoherentSquares(init);
    }
  }

  /** The flag's promise is what makes the penalty right: from a state
      where it holds, calculate_weights_cost sums the device weights, and
      the state it leaves keeps the promise. */
  method WeightsCostIsCurrent(net: Net) returns (r: Net, sum: real)
    requires Wf(net) && DirtyInv(net)
    ensures sum == DeviceSquares(net.nodes)
    ensures DirtyInv(r) && Wf(r)
  {
    r, sum := CalculateWeightsCost(net);
    CoherentSquares(r.nodes);
    assert DeviceSquares(r.nodes) == DeviceSquares(net.nodes) by {
      SameDeviceSquares(r.nodes, net.nodes);
    }
  }

  lemma {:induction false} SameDeviceSquares(a: seq<Node>, b: seq<Node>)
    requires |a| == |b| && forall c :: 0 <= c < |a| ==> a[c].dWeights == b[c].dWeights
    ensures DeviceSquares(a) == DeviceSquares(b)
    decreases |a|
  {
    if |a| > 0 {
      var a', b' := a[..|a| - 1], b[..|b| - 1];
      assert forall c :: 0 <= c < |a'| ==> a'[c] == a[c] && b'[c] == b[c];
      SameDeviceSquares(a', b');
    }
  }

  // ---------------------------------------------------------------------
  // The cost sum

  /** The host side of calculate_cost (ML/MVKernels.c:550-556): the
      `mini_batch_size * output_size` values the cost kernel left in
      device_Cost (`costs`) are read back into host_Cost and added up in the
      order `i * output_size + j`.  Reading back more than host_Cost holds
      is a host overflow. */
  method CalculateCost(net: Net, costs: seq<real>) returns (r: Result<Net>, sum: real)
    requires Wf(net) && |net.nodes| > 0
    requires net.miniBatch * net.nodes[|net.nodes| - 1].dims.outSize <= |costs|
    ensures var n := net.miniBatch * net.nodes[|net.nodes| - 1].dims.outSize;
            && (r.Ok? <==> n <= |net.staging.hCost|)
            && (r.Err? ==> r.error == HostOverflow(n, |net.staging.hCost|))
            && (r.Ok? ==> |r.value.staging.hCost| == |net.staging.hCost| && sum == Sum(costs[..n]) && r.value.staging.hCost[..n] == costs[..n]
                          && r.value.nodes == net.nodes && r.value.dirty == net.dirty && Wf(r.value))
  {
    var outsize := net.nodes[|net.nodes| - 1].dims.outSize;
    var b := net.miniBatch;
    var n := b * outsize;
    sum := 0.0;
    if n > |net.staging.hCost| {
      return Err(HostOverflow(n, |net.staging.hCost|)), sum;
    }
    var host := Overwrite(net.staging.hCost, costs[..n]);
    var i := 0;
    while i < b
      invariant 0 <= i <= b
      invariant i * outsize <= n
      invariant sum == Sum(host[..i * outsize])
    {
      var j := 0;
      while j < outsize
        invariant 0 <= j <= outsize
        invariant i * outsize + j <= n
        invariant sum == Sum(host[..i * outsize + j])
      {
        IndexInside(i, j, b, outsize);
        SumStep(host, i * outsize + j);
        sum := sum + host[i * outsize + j];
        j := j + 1;
      }
      assert i * outsize + outsize == (i + 1) * outsize;
      i := i + 1;
    }
    assert host[..n] == costs[..n];
    r := Ok(net.(staging := net.staging.(hCost := host)));
  }

  // ---------------------------------------------------------------------
  // Reading weights and biases back

  /** The walk of get_weights and get_biases (ML/MVKernels.c:613-615): `i`
      steps along `next` from the head, and a negative `i` takes no step.
      Position `|nodes|` stands for the null pointer after the tail; a step
      from there follows a null link. */
  method Walk(nodes: seq<Node>, i: int) returns (r: Result<nat>)
    ensures r.Ok? <==> i <= |nodes|
    ensures r.Err? ==> r.error == NullLink
    ensures r.Ok? ==> r.value <= |nodes| && r.value == (if i < 0 then 0 else i)
  {
    var pos := 0;
    var skip := 0;
    while skip < i
      invariant 0 <= skip <= (if i < 0 then 0 else i)
      invariant pos == skip && pos <= |nodes|
    {
      if pos == |nodes| {
        return Err(NullLink);
      }
      pos := pos + 1;
      skip := skip + 1;
    }
    return Ok(pos);
  }

  /** Row-major `rows x cols` values as rows. */
  function Unflatten(v: seq<real>, rows: nat, cols: nat): (r: seq<seq<real>>)
    requires rows * cols <= |v|
    ensures |r| == rows && forall a :: 0 <= a < rows ==> |r[a]| == cols
  {
    seq(rows, a requires 0 <= a < rows => Row(v, rows, cols, a))
  }

  /** Row `a` of row-major `rows x cols` values. */
  function Row(v: seq<real>, rows: nat, cols: nat, a: nat): (r: seq<real>)
    requires rows * cols <= |v| && a < rows
    ensures |r| == cols
  {
    RowInside(a, rows, cols);
    v[a * cols..a * cols + cols]
  }

  /** Row `a` of a row-major `rows x cols` matrix lies inside it. */
  lemma RowInside(a: nat, rows: nat, cols: nat)
    requires a < rows
    ensures a * cols + cols <= rows * cols
  {
    MulLe(a + 1, rows, cols);
  }

  lemma UnflattenAt(v: seq<real>, rows: nat, cols: nat, a: nat, b: nat)
    requires rows * cols <= |v| && a < rows && b < cols
    ensures a * cols + b < |v| && Unflatten(v, rows, cols)[a][b] == v[a * cols + b]
  {
    RowInside(a, rows, cols);
    var row := Unflatten(v, rows, cols)[a];
    assert row == Row(v, rows, cols, a);
    assert row[b] == v[a * cols + b];
  }

  /** get_weights (ML/MVKernels.c:607-647): the layer's device weights are
      read back into its host copy and returned as `output_size` rows of
      `input_size` values. */
  function GetWeights(net: Net, pos: nat): (r: (Net, seq<seq<real>>))
    requires Wf(net) && pos < |net.nodes|
    ensures |r.0.nodes| == |net.nodes| && r.0.dirty == net.dirty && Wf(r.0)
    ensures r.0.nodes[pos].hWeights == net.nodes[pos].dWeights
    ensures forall c :: 0 <= c < |net.nodes| && c != pos ==> r.0.nodes[c] == net.nodes[c]
    ensures |r.1| == net.nodes[pos].dims.outSize
  {
    var n := net.nodes[pos];
    var n' := n.(hWeights := n.dWeights);
    (net.(nodes := net.nodes[pos := n']), Unflatten(n.dWeights, n.dims.outSize, n.dims.inSize))
  }

  /** get_biases (ML/MVKernels.c:649-689): `output_size` rows of one value. */
  function GetBiases(net: Net, pos: nat): (r: (Net, seq<seq<real>>))
    requires Wf(net) && pos < |net.nodes|
    ensures |r.0.nodes| == |net.nodes| && r.0.dirty == net.dirty && Wf(r.0)
    ensures r.0.nodes[pos].hBias == net.nodes[pos].dBias
    ensures forall c :: 0 <= c < |net.nodes| && c != pos ==> r.0.nodes[c] == net.nodes[c]
    ensures |r.1| == net.nodes[pos].dims.outSize
  {
    var n := net.nodes[pos];
    (net.(nodes := net.nodes[pos := n.(hBias := n.dBias)]), Unflatten(n.dBias, n.dims.outSize, 1))
  }

  /** get_weights with its walk: an index that does not name a layer ends
      on, or steps from, the null pointer after the tail, and the read
      through it fails; an index that names a layer reads that layer back. */
  method GetWeightsAt(net: Net, i: int) returns (r: Result<(Net, seq<seq<real>>)>)
    requires Wf(net)
    ensures r.Ok? <==> (if i < 0 then 0 else i) < |net.nodes|
    ensures r.Err? ==> r.error == NullLink
    ensures r.Ok? ==> var pos := if i < 0 then 0 else i;
                      && pos < |net.nodes|
                      && r.value == GetWeights(net, pos)
                      && r.value.0.nodes[pos].hWeights == net.nodes[pos].dWeights
  {
    var w := Walk(net.nodes, i);
    if w.Err? {
      return Err(w.error);
    }
    if w.value == |net.nodes| {
      return Err(NullLink);
    }
    return Ok(GetWeights(net, w.value));
  }

  /** get_biases with its walk, failing as get_weights does. */
  method GetBiasesAt(net: Net, i: int) returns (r: Result<(Net, seq<seq<real>>)>)
    requires Wf(net)
    ensures r.Ok? <==> (if i < 0 then 0 else i) < |net.nodes|
    ensures r.Err? ==> r.error == NullLink
    ensures r.Ok? ==> var pos := if i < 0 then 0 else i;
                      && pos < |net.nodes|
                      && r.value == GetBiases(net, pos)
                      && r.value.0.nodes[pos].hBias == net.nodes[pos].dBias
  {
    var w := Walk(net.nodes, i);
    if w.Err? {
      return Err(w.error);
    }
    if w.value == |net.nodes| {
      return Err(NullLink);
    }
    return Ok(GetBiases(net, w.value));
  }

  /** Reading back keeps the flag's promise. */
  lemma GetWeightsKeeps(net: Net, pos: nat)
    requires Wf(net) && pos < |net.nodes| && DirtyInv(net)
    ensures DirtyInv(GetWeights(net, pos).0) && DirtyInv(GetBiases(net, pos).0)
  {
  }

  /** Weights passed to add_node come back from get_weights unchanged until
      the network is trained: create_node flattens the rows and get_weights
      cuts them again. */
  lemma WeightsRoundTrip(net: Net, insize: nat, outsize: nat, biases: seq<seq<real>>, weights: seq<seq<real>>, batch: nat)
    requires Wf(net)
    requires |biases| > 0 && Rows(biases, |biases|, |biases[0]|)
    requires Rows(weights, outsize, insize)
    requires AddNode(net, insize, outsize, biases, weights, batch).Ok?
    ensures var net' := AddNode(net, insize, outsize, biases, weights, batch).value;
            && Wf(net')
            && GetWeights(net', |net.nodes|).1 == seq(outsize, a requires 0 <= a < outsize => weights[a][..insize])
  {
    var net' := AddNode(net, insize, outsize, biases, weights, batch).value;
    AddNodeLinks(net, insize, outsize, biases, weights, batch);
    AddNodeWf(net, insize, outsize, biases, weights, batch);
    var n := CreateNode(insize, outsize, biases, weights, batch).value;
    assert net'.nodes[|net.nodes|] == n;
    UnflattenFlatten(weights, outsize, insize);
  }

  /** Cutting flattened rows gives the rows back, each cut to the width. */
  lemma UnflattenFlatten(rows: seq<seq<real>>, count: nat, width: nat)
    requires Rows(rows, count, width)
    ensures Unflatten(Flatten(rows, count, width), count, width) == seq(count, a requires 0 <= a < count => rows[a][..width])
  {
    var got := Unflatten(Flatten(rows, count, width), count, width);
    forall a | 0 <= a < count ensures got[a] == rows[a][..width] {
      forall b | 0 <= b < width ensures got[a][b] == rows[a][b] {
        UnflattenAt(Flatten(rows, count, width), count, width, a, b);
        FlattenAt(rows, count, width, a, b);
      }
    }
  }

  /** Biases passed as `outsize` rows of one value come back from
      get_biases unchanged. */
  lemma BiasesRoundTrip(net: Net, insize: nat, outsize: nat, biases: seq<seq<real>>, weights: seq<seq<real>>, batch: nat)
    requires Wf(net)
    requires |biases| == outsize > 0 && |biases[0]| == 1 && Rows(biases, |biases|, 1)
    requires Rows(weights, outsize, insize)
    ensures AddNode(net, insize, outsize, biases, weights, batch).Ok?
    ensures var net' := AddNode(net, insize, outsize, biases, weights, batch).value;
            && Wf(net')
            && GetBiases(net', |net.nodes|).1 == seq(outsize, a requires 0 <= a < outsize => biases[a][..1])
  {
    var net' := AddNode(net, insize, outsize, biases, weights, batch).value;
    AddNodeLinks(net, insize, outsize, biases, weights, batch);
    AddNodeWf(net, insize, outsize, biases, weights, batch);
    var got := GetBiases(net', |net.nodes|).1;
    var n := net'.nodes[|net.nodes|];
    forall a | 0 <= a < outsize ensures got[a] == biases[a][..1] {
      UnflattenAt(n.dBias, outsize, 1, a, 0);
      CreateNodeAt(insize, outsize, biases, weights, batch, a, 0);
    }
  }
}
