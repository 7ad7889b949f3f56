/** The accelerator calls one training step of ML/MVKernels.c makes, as
    schedules over the layer list, and the proof that the corrected step is
    well defined: every kernel reads a buffer last written with the shape it
    expects, and every kernel, copy and transfer stays inside the buffer's
    allocation.

    Layers are numbered from the head (index 0) to the tail; `ds[c]` holds
    the sizes layer `c` was created with and `B` is `mini_batch_size`.
 */
module Training {
  import opened Buffers
  import opened Device
  import opened Steps
  import K = Kernels
  import Contents

  /** The output of each layer feeds the next layer's input. */
  predicate Chained(ds: seq<Dims>) {
    forall c :: 0 <= c && c + 1 < |ds| ==> ds[c].outSize == ds[c + 1].inSize
  }

  /** The capacity create_node gives each per-layer buffer (ML/MVKernels.c:169-219). */
  function LayerCapacity(d: Dims, k: Kind): nat {
    match k
    case Bias => d.outSize
    case Weights => d.inSize * d.outSize
    case WeightsDerivative => d.inSize * d.outSize
    case WeightsTransposed => d.inSize * d.outSize
    case _ => d.batchSize * d.outSize
  }

  /** Every buffer of every layer and of the input reservation is allocated
      with the size create_node and reserve_input_memory give it; `res`
      holds reserve_input_memory's `insize`, `outsize` and `batch_size`. */
  predicate Allocated(cap: map<BufId, nat>, ds: seq<Dims>, res: Dims) {
    && (forall c, k :: 0 <= c < |ds| ==> Layer(c, k) in cap && cap[Layer(c, k)] == LayerCapacity(ds[c], k))
    && X in cap && cap[X] == res.inSize * res.batchSize
    && XT in cap && cap[XT] == res.inSize * res.batchSize
    && Y in cap && cap[Y] == res.outSize * res.batchSize
    && YT in cap && cap[YT] == res.outSize * res.batchSize
    && CostDerivative in cap && cap[CostDerivative] == res.outSize * res.batchSize
    && Cost in cap && cap[Cost] == res.outSize * res.batchSize
  }

  /** Every layer's weights and biases hold a matrix of the layer's shape. */
  predicate Initialised(s: State, ds: seq<Dims>) {
    forall c :: 0 <= c < |ds| ==>
      Has(s, Layer(c, Weights), ds[c].outSize, ds[c].inSize) && Has(s, Layer(c, Bias), ds[c].outSize, 1)
  }

  /** A mini batch of `B` columns fits every per-layer activation buffer and
      the input reservation. */
  predicate BatchFits(ds: seq<Dims>, res: Dims, B: nat) {
    && (forall c :: 0 <= c < |ds| ==> B * ds[c].outSize <= ds[c].batchSize * ds[c].outSize)
    && (|ds| > 0 ==> B * ds[0].inSize <= res.inSize * res.batchSize)
    && (|ds| > 0 ==> B * ds[|ds| - 1].outSize <= res.outSize * res.batchSize)
  }

  /** What every phase of a training step may assume. */
  predicate Ready(s: State, ds: seq<Dims>, res: Dims, B: nat) {
    |ds| > 0 && Chained(ds) && Allocated(s.cap, ds, res) && Initialised(s, ds) && BatchFits(ds, res, B)
  }

  // ---------------------------------------------------------------------
  // Schedules

  /** load_input: the staged rows go to device_x_transposed, which is then
      transposed into device_x (ML/MVKernels.c:306-307). */
  function LoadInputCalls(inSize: nat, B: nat): seq<Call> {
    [Upload(XT, B * inSize), K.Transpose(XT, X, B, inSize)]
  }

  /** load_target (ML/MVKernels.c:336-337). */
  function LoadTargetCalls(outSize: nat, B: nat): seq<Call> {
    [Upload(YT, B * outSize), K.Transpose(YT, Y, B, outSize)]
  }

  /** The input to layer `c`'s linear step: device_x for the head, the
      previous layer's activation otherwise. */
  function ForwardInput(c: nat): BufId {
    if c == 0 then X else Layer(c - 1, Activated)
  }

  /** One iteration of run_feed_forward's loop (ML/MVKernels.c:356, 378). */
  function ForwardLayer(ds: seq<Dims>, B: nat, c: nat): seq<Call>
    requires c < |ds|
  {
    [K.Linear(ForwardInput(c), Layer(c, Weights), Layer(c, Bias), Layer(c, Output), ds[c].outSize, ds[c].inSize, B),
     K.Sigmoid(Layer(c, Output), Layer(c, Activated), ds[c].outSize, B)]
  }

  /** The loop over the first `n` layers, head first. */
  function ForwardLayers(ds: seq<Dims>, B: nat, n: nat): seq<Call>
    requires n <= |ds|
  {
    if n == 0 then [] else ForwardLayers(ds, B, n - 1) + ForwardLayer(ds, B, n - 1)
  }

  /** run_feed_forward as written: device_x is transposed into
      device_x_transposed as an `input_size x 1` matrix (ML/MVKernels.c:354). */
  function FeedForwardAsWritten(ds: seq<Dims>, B: nat): seq<Call>
    requires |ds| > 0
  {
    [K.Transpose(X, XT, ds[0].inSize, 1)] + ForwardLayers(ds, B, |ds|)
  }

  /** run_feed_forward with the transposition sized for the mini batch. */
  function FeedForward(ds: seq<Dims>, B: nat): seq<Call>
    requires |ds| > 0
  {
    [K.Transpose(X, XT, ds[0].inSize, B)] + ForwardLayers(ds, B, |ds|)
  }

  /** calculate_cost_derivative (ML/MVKernels.c:584). */
  function CostDerivativeCalls(ds: seq<Dims>, B: nat): seq<Call>
    requires |ds| > 0
  {
    var t := |ds| - 1;
    [K.CostAndDerivative(Layer(t, Activated), Y, CostDerivative, ds[t].outSize, B)]
  }

  /** calculate_cost: the cost kernel, then the read back of
      `mini_batch_size * output_size` values (ML/MVKernels.c:541, 550). */
  function CostCalls(ds: seq<Dims>, B: nat): seq<Call>
    requires |ds| > 0
  {
    var t := |ds| - 1;
    [K.CostOnly(Layer(t, Activated), Y, Cost, ds[t].outSize, B), Download(Cost, B * ds[t].outSize)]
  }

  /** The start of run_backpropagation, for the tail `t` and its predecessor
      (ML/MVKernels.c:394-414). */
  function BackpropTail(ds: seq<Dims>, B: nat): seq<Call>
    requires |ds| >= 2
  {
    var t := |ds| - 1;
    [Copy(CostDerivative, Layer(t, Delta), B * ds[t].outSize),
     Copy(CostDerivative, Layer(t, BiasDerivative), B * ds[t].outSize),
     K.Transpose(Layer(t - 1, Activated), Layer(t - 1, ActivatedTransposed), ds[t - 1].outSize, B),
     K.WeightDerivative(Layer(t, Delta), Layer(t - 1, ActivatedTransposed), Layer(t, WeightsDerivative),
                        ds[t].outSize, B, ds[t].inSize)]
  }

  /** The operand layer `c`'s weight gradient is multiplied by: the head uses
      device_x_transposed, every other layer its predecessor's transposed
      activation (ML/MVKernels.c:449-454). */
  function GradientInput(c: nat): BufId {
    if c == 0 then XT else Layer(c - 1, ActivatedTransposed)
  }

  /** The delta of layer `c` below the tail: the sigmoid derivative of its
      activation, the next layer's weights transposed, and
      `W_{c+1}^T * delta_{c+1} .* sigma'(z_c)` (ML/MVKernels.c:426, 436, 442). */
  function DeltaCalls(ds: seq<Dims>, B: nat, c: nat): seq<Call>
    requires c + 1 < |ds|
  {
    [K.SigmoidPrime(Layer(c, Activated), Layer(c, ActivatedDerivative), ds[c].outSize, B),
     K.Transpose(Layer(c + 1, Weights), Layer(c + 1, WeightsTransposed), ds[c + 1].outSize, ds[c + 1].inSize),
     K.Derivative(Layer(c + 1, WeightsTransposed), Layer(c + 1, Delta), Layer(c, ActivatedDerivative), Layer(c, Delta),
                  ds[c].outSize, ds[c + 1].outSize, B)]
  }

  /** The transposition of the previous layer's activation, which only a
      layer with a predecessor makes (ML/MVKernels.c:449-454). */
  function OperandCalls(ds: seq<Dims>, B: nat, c: nat): seq<Call>
    requires c < |ds|
  {
    if c > 0 then [K.Transpose(Layer(c - 1, Activated), Layer(c - 1, ActivatedTransposed), ds[c].inSize, B)] else []
  }

  /** The bias gradient is a copy of the delta; the weight gradient is the
      delta times the operand (ML/MVKernels.c:455-456). */
  function GradientCalls(ds: seq<Dims>, B: nat, c: nat): seq<Call>
    requires c < |ds|
  {
    [Copy(Layer(c, Delta), Layer(c, BiasDerivative), B * ds[c].outSize),
     K.Matmul(Layer(c, Delta), GradientInput(c), Layer(c, WeightsDerivative), ds[c].outSize, B, ds[c].inSize)]
  }

  /** One iteration of run_backpropagation's loop, for layer `c` below the
      tail (ML/MVKernels.c:424-459). */
  function BackpropLayer(ds: seq<Dims>, B: nat, c: nat): seq<Call>
    requires c + 1 < |ds|
  {
    DeltaCalls(ds, B, c) + OperandCalls(ds, B, c) + GradientCalls(ds, B, c)
  }

  /** The loop from layer `c - 1` down to the head. */
  function BackpropLayers(ds: seq<Dims>, B: nat, c: nat): seq<Call>
    requires c < |ds|
  {
    if c == 0 then [] else BackpropLayer(ds, B, c - 1) + BackpropLayers(ds, B, c - 1)
  }

  /** The start of run_backpropagation for a network of one layer, whose
      weight gradient takes device_x_transposed as its operand, as the loop
      does for the head (ML/MVKernels.c:449-454). */
  function HeadOnlyTail(ds: seq<Dims>, B: nat): seq<Call>
    requires |ds| == 1
  {
    [Copy(CostDerivative, Layer(0, Delta), B * ds[0].outSize),
     Copy(CostDerivative, Layer(0, BiasDerivative), B * ds[0].outSize),
     K.WeightDerivative(Layer(0, Delta), XT, Layer(0, WeightsDerivative), ds[0].outSize, B, ds[0].inSize)]
  }

  /** run_backpropagation, with the tail of a one-layer network reading
      device_x_transposed. */
  function Backprop(ds: seq<Dims>, B: nat): seq<Call>
    requires |ds| >= 1
  {
    if |ds| == 1 then HeadOnlyTail(ds, B) else BackpropTail(ds, B) + BackpropLayers(ds, B, |ds| - 1)
  }

  /** run_backpropagation as written: `tail->prev` is used unconditionally,
      so for a network of one layer line 401 reads through a null pointer
      right after the two copies (ML/MVKernels.c:394-401). */
  function BackpropAsWritten(ds: seq<Dims>, B: nat): seq<Call>
    requires |ds| >= 1
  {
    if |ds| == 1 then
      [Copy(CostDerivative, Layer(0, Delta), B * ds[0].outSize),
       Copy(CostDerivative, Layer(0, BiasDerivative), B * ds[0].outSize),
       NullDeref]
    else Backprop(ds, B)
  }

  /** One iteration of run_update_weights_and_biases (ML/MVKernels.c:471-472). */
  function UpdateLayer(ds: seq<Dims>, B: nat, c: nat): seq<Call>
    requires c < |ds|
  {
    [K.UpdateWeights(Layer(c, Weights), Layer(c, WeightsDerivative), ds[c].outSize, ds[c].inSize),
     K.UpdateBiases(Layer(c, Bias), Layer(c, BiasDerivative), ds[c].outSize, B)]
  }

  function UpdateLayers(ds: seq<Dims>, B: nat, n: nat): seq<Call>
    requires n <= |ds|
  {
    if n == 0 then [] else UpdateLayers(ds, B, n - 1) + UpdateLayer(ds, B, n - 1)
  }

  /** The loads at the start of a step: a mini batch and its targets. */
  function Loads(ds: seq<Dims>, B: nat): seq<Call>
    requires |ds| > 0
  {
    LoadInputCalls(ds[0].inSize, B) + LoadTargetCalls(ds[|ds| - 1].outSize, B)
  }

  /** One training step as the calling code drives it: load a mini batch and
      its targets, feed forward, take the cost derivative, back propagate
      and update. */
  function TrainingStep(ds: seq<Dims>, B: nat): seq<Call>
    requires |ds| >= 1
  {
    Loads(ds, B) + (FeedForward(ds, B) + CostDerivativeCalls(ds, B)) + Backprop(ds, B) + UpdateLayers(ds, B, |ds|)
  }

  /** The same step with run_feed_forward and run_backpropagation as
      written. */
  function TrainingStepAsWritten(ds: seq<Dims>, B: nat): seq<Call>
    requires |ds| >= 1
  {
    Loads(ds, B) + (FeedForwardAsWritten(ds, B) + CostDerivativeCalls(ds, B)) + BackpropAsWritten(ds, B) + UpdateLayers(ds, B, |ds|)
  }

  // ---------------------------------------------------------------------
  // Frames

  predicate ForwardKind(k: Kind) {
    k == Output || k == Activated
  }

  predicate BackwardKind(k: Kind) {
    k == Delta || k == BiasDerivative || k == ActivatedTransposed || k == ActivatedDerivative
    || k == WeightsTransposed || k == WeightsDerivative
  }

  /** Three layout updates keep every other buffer. */
  lemma UpdatesKeep(s: State, r: State, b1: BufId, l1: Layout, b2: BufId, l2: Layout, b3: BufId, l3: Layout)
    requires r == s.(layout := s.layout[b1 := l1][b2 := l2][b3 := l3])
    ensures forall b: BufId :: b != b1 && b != b2 && b != b3 ==> Keeps(s, r, b)
  {
  }

  /** Weights and biases that a phase leaves alone stay initialised. */
  lemma KeepInitialised(s: State, r: State, ds: seq<Dims>)
    requires Initialised(s, ds)
    requires forall c :: 0 <= c < |ds| ==> Keeps(s, r, Layer(c, Weights)) && Keeps(s, r, Layer(c, Bias))
    ensures Initialised(r, ds)
  {
  }

  // ---------------------------------------------------------------------
  // Loading

  lemma LoadInputOk(s: State, ds: seq<Dims>, res: Dims, B: nat)
    requires Ready(s, ds, res, B)
    ensures Exec(s, LoadInputCalls(ds[0].inSize, B)) ==
            Ok(s.(layout := s.layout[XT := Flat(B * ds[0].inSize)][X := Matrix(ds[0].inSize, B)]))
  {
    var n := ds[0].inSize;
    var s1 := s.(layout := s.layout[XT := Flat(B * n)]);
    UploadOk(s, XT, B * n);
    TransposeOk(s1, XT, X, B, n);
    Run2(s, Upload(XT, B * n), K.Transpose(XT, X, B, n), s1, s1.(layout := s1.layout[X := Matrix(n, B)]));
  }

  lemma LoadTargetOk(s: State, ds: seq<Dims>, res: Dims, B: nat)
    requires Ready(s, ds, res, B)
    ensures Exec(s, LoadTargetCalls(ds[|ds| - 1].outSize, B)) ==
            Ok(s.(layout := s.layout[YT := Flat(B * ds[|ds| - 1].outSize)][Y := Matrix(ds[|ds| - 1].outSize, B)]))
  {
    var n := ds[|ds| - 1].outSize;
    var s1 := s.(layout := s.layout[YT := Flat(B * n)]);
    UploadOk(s, YT, B * n);
    TransposeOk(s1, YT, Y, B, n);
    Run2(s, Upload(YT, B * n), K.Transpose(YT, Y, B, n), s1, s1.(layout := s1.layout[Y := Matrix(n, B)]));
  }

  // ---------------------------------------------------------------------
  // Forward pass

  /** One layer of the forward pass writes its output and its activation,
      both `output_size x mini_batch_size`. */
  lemma ForwardLayerOk(s: State, ds: seq<Dims>, res: Dims, B: nat, c: nat)
    requires Ready(s, ds, res, B) && c < |ds|
    requires Has(s, ForwardInput(c), ds[c].inSize, B)
    ensures Exec(s, ForwardLayer(ds, B, c)) ==
            Ok(s.(layout := s.layout[Layer(c, Output) := Matrix(ds[c].outSize, B)]
                                    [Layer(c, Activated) := Matrix(ds[c].outSize, B)]))
  {
    var d := ds[c];
    ForwardRoom(s, ds, res, B, c);
    var lin := K.Linear(ForwardInput(c), Layer(c, Weights), Layer(c, Bias), Layer(c, Output), d.outSize, d.inSize, B);
    var sig := K.Sigmoid(Layer(c, Output), Layer(c, Activated), d.outSize, B);
    LinearOk(s, ForwardInput(c), Layer(c, Weights), Layer(c, Bias), Layer(c, Output), d.outSize, d.inSize, B);
    var s1 := s.(layout := s.layout[Layer(c, Output) := Matrix(d.outSize, B)]);
    SigmoidOk(s1, Layer(c, Output), Layer(c, Activated), d.outSize, B);
    Run2(s, lin, sig, s1, s1.(layout := s1.layout[Layer(c, Activated) := Matrix(d.outSize, B)]));
  }

  /** The capacities one forward layer relies on. */
  lemma ForwardRoom(s: State, ds: seq<Dims>, res: Dims, B: nat, c: nat)
    requires Ready(s, ds, res, B) && c < |ds|
    ensures Room(s, ForwardInput(c), ds[c].inSize * B)
    ensures Room(s, Layer(c, Weights), ds[c].outSize * ds[c].inSize)
    ensures Room(s, Layer(c, Bias), ds[c].outSize)
    ensures Room(s, Layer(c, Output), ds[c].outSize * B)
    ensures Room(s, Layer(c, Activated), ds[c].outSize * B)
    ensures Has(s, Layer(c, Weights), ds[c].outSize, ds[c].inSize) && Has(s, Layer(c, Bias), ds[c].outSize, 1)
  {
    var d := ds[c];
    if c > 0 {
      assert ds[c - 1].outSize == d.inSize;
      assert s.cap[Layer(c - 1, Activated)] == ds[c - 1].batchSize * ds[c - 1].outSize;
    }
    assert s.cap[Layer(c, Output)] == d.batchSize * d.outSize;
    assert s.cap[Layer(c, Activated)] == d.batchSize * d.outSize;
    assert s.cap[Layer(c, Weights)] == d.inSize * d.outSize;
    assert s.cap[Layer(c, Bias)] == d.outSize;
  }

  /** The loop over the first `n` layers leaves every activation
      `output_size x mini_batch_size` and touches no other kind of buffer. */
  lemma {:induction false} ForwardLayersOk(s: State, ds: seq<Dims>, res: Dims, B: nat, n: nat)
    requires Ready(s, ds, res, B) && n <= |ds|
    requires Has(s, X, ds[0].inSize, B)
    ensures Exec(s, ForwardLayers(ds, B, n)).Ok?
    ensures var r := Exec(s, ForwardLayers(ds, B, n)).value;
            && r.cap == s.cap
            && (forall c :: 0 <= c < n ==> Has(r, Layer(c, Activated), ds[c].outSize, B))
            && (forall b: BufId :: !(b.Layer? && ForwardKind(b.kind)) ==> Keeps(s, r, b))
  {
    if n > 0 {
      ForwardLayersOk(s, ds, res, B, n - 1);
      var r0 := Exec(s, ForwardLayers(ds, B, n - 1)).value;
      KeepInitialised(s, r0, ds);
      assert Keeps(s, r0, X);
      var input := ForwardInput(n - 1);
      assert Has(r0, input, ds[n - 1].inSize, B) by {
        if n - 1 > 0 {
          assert Has(r0, Layer(n - 2, Activated), ds[n - 2].outSize, B);
        }
      }
      ForwardLayerOk(r0, ds, res, B, n - 1);
      var m := Matrix(ds[n - 1].outSize, B);
      var r := r0.(layout := r0.layout[Layer(n - 1, Output) := m][Layer(n - 1, Activated) := m]);
      ExecSplit(s, ForwardLayers(ds, B, n - 1), ForwardLayer(ds, B, n - 1), r0);
      assert Exec(s, ForwardLayers(ds, B, n)) == Ok(r);
      ForwardFrame(s, r0, r, ds, B, n);
    }
  }

  /** Adding one layer's writes keeps the loop's invariant. */
  lemma ForwardFrame(s: State, r0: State, r: State, ds: seq<Dims>, B: nat, n: nat)
    requires 0 < n <= |ds|
    requires forall c :: 0 <= c < n - 1 ==> Has(r0, Layer(c, Activated), ds[c].outSize, B)
    requires forall b: BufId :: !(b.Layer? && ForwardKind(b.kind)) ==> Keeps(s, r0, b)
    requires r == r0.(layout := r0.layout[Layer(n - 1, Output) := Matrix(ds[n - 1].outSize, B)]
                                         [Layer(n - 1, Activated) := Matrix(ds[n - 1].outSize, B)])
    ensures forall c :: 0 <= c < n ==> Has(r, Layer(c, Activated), ds[c].outSize, B)
    ensures forall b: BufId :: !(b.Layer? && ForwardKind(b.kind)) ==> Keeps(s, r, b)
  {
    forall b: BufId | !(b.Layer? && ForwardKind(b.kind)) ensures Keeps(s, r, b) {
      assert Keeps(s, r0, b);
    }
    forall c | 0 <= c < n ensures Has(r, Layer(c, Activated), ds[c].outSize, B) {
      if c < n - 1 {
        assert Has(r0, Layer(c, Activated), ds[c].outSize, B);
      }
    }
  }

  /** The corrected forward pass from a loaded mini batch. */
  lemma FeedForwardOk(s: State, ds: seq<Dims>, res: Dims, B: nat)
    requires Ready(s, ds, res, B)
    requires Has(s, X, ds[0].inSize, B)
    ensures Exec(s, FeedForward(ds, B)).Ok?
    ensures var r := Exec(s, FeedForward(ds, B)).value;
            && r.cap == s.cap
            && Has(r, XT, B, ds[0].inSize)
            && (forall c :: 0 <= c < |ds| ==> Has(r, Layer(c, Activated), ds[c].outSize, B))
            && (forall b: BufId :: b != XT && !(b.Layer? && ForwardKind(b.kind)) ==> Keeps(s, r, b))
  {
    var n := ds[0].inSize;
    var t := K.Transpose(X, XT, n, B);
    var s1 := s.(layout := s.layout[XT := Matrix(B, n)]);
    InputRoom(s, ds, res, B);
    TransposeOk(s, X, XT, n, B);
    ExecCons(s, t, ForwardLayers(ds, B, |ds|));
    KeepInitialised(s, s1, ds);
    ForwardLayersOk(s1, ds, res, B, |ds|);
    var r := Exec(s1, ForwardLayers(ds, B, |ds|)).value;
    KeepThrough(s, s1, r, XT);
  }

  /** The input reservation has room for the mini batch in both layouts. */
  lemma InputRoom(s: State, ds: seq<Dims>, res: Dims, B: nat)
    requires Ready(s, ds, res, B)
    ensures Room(s, X, ds[0].inSize * B) && Room(s, XT, B * ds[0].inSize)
    ensures Room(s, X, B * ds[0].inSize) && Room(s, XT, ds[0].inSize * B)
  {
  }

  /** A phase after a write to `w` keeps what the phase before it kept. */
  lemma KeepThrough(s: State, s1: State, r: State, w: BufId)
    requires s1.cap == s.cap && w in s1.layout && s1.layout == s.layout[w := s1.layout[w]]
    requires forall b: BufId :: !(b.Layer? && ForwardKind(b.kind)) ==> Keeps(s1, r, b)
    ensures forall b: BufId :: b != w && !(b.Layer? && ForwardKind(b.kind)) ==> Keeps(s, r, b)
    ensures !(w.Layer? && ForwardKind(w.kind)) ==> w in r.layout && r.layout[w] == s1.layout[w]
  {
    forall b: BufId | b != w && !(b.Layer? && ForwardKind(b.kind)) ensures Keeps(s, r, b) {
      assert Keeps(s1, r, b);
    }
    if !(w.Layer? && ForwardKind(w.kind)) {
      assert Keeps(s1, r, w);
    }
  }

  // ---------------------------------------------------------------------
  // Cost

  /** What the backward phase may assume: a ready network whose forward pass
      and target load have run. */
  predicate Forwarded(s: State, ds: seq<Dims>, res: Dims, B: nat) {
    && Ready(s, ds, res, B)
    && Has(s, XT, B, ds[0].inSize)
    && Has(s, Y, ds[|ds| - 1].outSize, B)
    && (forall c :: 0 <= c < |ds| ==> Has(s, Layer(c, Activated), ds[c].outSize, B))
  }

  /** The backward phase writes only backward buffers, so what the forward
      phase left stays available. */
  lemma KeepForwarded(s: State, r: State, ds: seq<Dims>, res: Dims, B: nat)
    requires Forwarded(s, ds, res, B) && r.cap == s.cap
    requires forall b: BufId :: !(b.Layer? && BackwardKind(b.kind)) ==> Keeps(s, r, b)
    ensures Forwarded(r, ds, res, B)
  {
    KeepInitialised(s, r, ds);
    assert Keeps(s, r, XT) && Keeps(s, r, Y);
    forall c | 0 <= c < |ds| ensures Has(r, Layer(c, Activated), ds[c].outSize, B) {
      assert Keeps(s, r, Layer(c, Activated));
    }
  }

  /** Per-layer buffers sized `batch_size * output_size`. */
  predicate PerBatch(k: Kind) {
    k != Bias && k != Weights && k != WeightsDerivative && k != WeightsTransposed
  }

  lemma BatchRoom(s: State, ds: seq<Dims>, res: Dims, B: nat, c: nat, k: Kind)
    requires Ready(s, ds, res, B) && c < |ds| && PerBatch(k)
    ensures Room(s, Layer(c, k), B * ds[c].outSize) && Room(s, Layer(c, k), ds[c].outSize * B)
  {
    assert s.cap[Layer(c, k)] == ds[c].batchSize * ds[c].outSize;
  }

  lemma WeightRoom(s: State, ds: seq<Dims>, res: Dims, B: nat, c: nat, k: Kind)
    requires Ready(s, ds, res, B) && c < |ds| && (k == Weights || k == WeightsDerivative || k == WeightsTransposed)
    ensures Room(s, Layer(c, k), ds[c].outSize * ds[c].inSize) && Room(s, Layer(c, k), ds[c].inSize * ds[c].outSize)
  {
    assert s.cap[Layer(c, k)] == ds[c].inSize * ds[c].outSize;
  }

  /** The shared target and cost buffers have room for the tail's output. */
  lemma TargetRoom(s: State, ds: seq<Dims>, res: Dims, B: nat)
    requires Ready(s, ds, res, B)
    ensures var n := ds[|ds| - 1].outSize;
            && Room(s, Y, n * B) && Room(s, CostDerivative, n * B) && Room(s, CostDerivative, B * n)
            && Room(s, Cost, n * B) && Room(s, Cost, B * n)
  {
  }

  /** calculate_cost_derivative leaves an `output_size x mini_batch_size`
      derivative of the tail. */
  lemma CostDerivativeOk(s: State, ds: seq<Dims>, res: Dims, B: nat)
    requires Forwarded(s, ds, res, B)
    ensures Exec(s, CostDerivativeCalls(ds, B)) ==
            Ok(s.(layout := s.layout[CostDerivative := Matrix(ds[|ds| - 1].outSize, B)]))
  {
    var t := |ds| - 1;
    TargetRoom(s, ds, res, B);
    BatchRoom(s, ds, res, B, t, Activated);
    CostOk(s, Layer(t, Activated), Y, CostDerivative, ds[t].outSize, B);
    Run1(s, K.CostAndDerivative(Layer(t, Activated), Y, CostDerivative, ds[t].outSize, B),
         s.(layout := s.layout[CostDerivative := Matrix(ds[t].outSize, B)]));
  }

  /** calculate_cost reads back exactly the values the cost kernel wrote. */
  lemma CostCallsOk(s: State, ds: seq<Dims>, res: Dims, B: nat)
    requires Forwarded(s, ds, res, B)
    ensures Exec(s, CostCalls(ds, B)) == Ok(s.(layout := s.layout[Cost := Matrix(ds[|ds| - 1].outSize, B)]))
  {
    var t := |ds| - 1;
    var s1 := s.(layout := s.layout[Cost := Matrix(ds[t].outSize, B)]);
    TargetRoom(s, ds, res, B);
    BatchRoom(s, ds, res, B, t, Activated);
    CostOk(s, Layer(t, Activated), Y, Cost, ds[t].outSize, B);
    DownloadOk(s1, Cost, B * ds[t].outSize);
    Run2(s, K.CostOnly(Layer(t, Activated), Y, Cost, ds[t].outSize, B), Download(Cost, B * ds[t].outSize), s1, s1);
  }

  // ---------------------------------------------------------------------
  // Backward pass

  /** The start of run_backpropagation leaves the tail's delta, bias
      gradient and weight gradient, the first two as copies of the cost
      derivative, and writes nothing but those and the transposed activation
      of the layer before the tail. */
  lemma BackpropTailOk(s: State, ds: seq<Dims>, res: Dims, B: nat)
    requires |ds| >= 2 && Forwarded(s, ds, res, B)
    requires Has(s, CostDerivative, ds[|ds| - 1].outSize, B)
    ensures Exec(s, BackpropTail(ds, B)).Ok?
    ensures var r := Exec(s, BackpropTail(ds, B)).value;
            var t := |ds| - 1;
            && r.cap == s.cap
            && Has(r, Layer(t, Delta), ds[t].outSize, B)
            && Has(r, Layer(t, BiasDerivative), ds[t].outSize, B)
            && Has(r, Layer(t, WeightsDerivative), ds[t].outSize, ds[t].inSize)
            && r.layout[Layer(t, Delta)] == s.layout[CostDerivative]
            && r.layout[Layer(t, BiasDerivative)] == s.layout[CostDerivative]
            && (forall b: BufId ::
                  (b != Layer(t, Delta) && b != Layer(t, BiasDerivative) && b != Layer(t - 1, ActivatedTransposed)
                   && b != Layer(t, WeightsDerivative)) ==> Keeps(s, r, b))
  {
    var t := |ds| - 1;
    var n := B * ds[t].outSize;
    assert ds[t - 1].outSize == ds[t].inSize;
    TargetRoom(s, ds, res, B);
    BatchRoom(s, ds, res, B, t, Delta);
    BatchRoom(s, ds, res, B, t, BiasDerivative);
    BatchRoom(s, ds, res, B, t - 1, Activated);
    BatchRoom(s, ds, res, B, t - 1, ActivatedTransposed);
    WeightRoom(s, ds, res, B, t, WeightsDerivative);
    var c1 := Copy(CostDerivative, Layer(t, Delta), n);
    var c2 := Copy(CostDerivative, Layer(t, BiasDerivative), n);
    var c3 := K.Transpose(Layer(t - 1, Activated), Layer(t - 1, ActivatedTransposed), ds[t - 1].outSize, B);
    var c4 := K.WeightDerivative(Layer(t, Delta), Layer(t - 1, ActivatedTransposed), Layer(t, WeightsDerivative),
                                 ds[t].outSize, B, ds[t].inSize);
    CopyOk(s, CostDerivative, Layer(t, Delta), ds[t].outSize, B, n);
    var s1 := Step(s, c1).value;
    CopyOk(s1, CostDerivative, Layer(t, BiasDerivative), ds[t].outSize, B, n);
    var s2 := Step(s1, c2).value;
    assert Has(s2, Layer(t - 1, Activated), ds[t - 1].outSize, B);
    TransposeOk(s2, Layer(t - 1, Activated), Layer(t - 1, ActivatedTransposed), ds[t - 1].outSize, B);
    var s3 := Step(s2, c3).value;
    assert Has(s3, Layer(t, Delta), ds[t].outSize, B);
    MatmulOk(s3, Layer(t, Delta), Layer(t - 1, ActivatedTransposed), Layer(t, WeightsDerivative), ds[t].outSize, B, ds[t].inSize);
    var s4 := Step(s3, c4).value;
    Run4(s, c1, c2, c3, c4, s1, s2, s3, s4);
  }

  /** The buffers one iteration of the loop writes for layer `c`. */
  predicate LayerWrites(c: nat, b: BufId) {
    || b == Layer(c, ActivatedDerivative) || b == Layer(c + 1, WeightsTransposed) || b == Layer(c, Delta)
    || (c > 0 && b == Layer(c - 1, ActivatedTransposed))
    || b == Layer(c, BiasDerivative) || b == Layer(c, WeightsDerivative)
  }

  /** The first three calls of an iteration: the new delta. */
  lemma DeltaOk(s: State, ds: seq<Dims>, res: Dims, B: nat, c: nat)
    requires Forwarded(s, ds, res, B) && c + 1 < |ds|
    requires Has(s, Layer(c + 1, Delta), ds[c + 1].outSize, B)
    ensures Exec(s, DeltaCalls(ds, B, c)) ==
            Ok(s.(layout := s.layout[Layer(c, ActivatedDerivative) := Matrix(ds[c].outSize, B)]
                                    [Layer(c + 1, WeightsTransposed) := Matrix(ds[c].outSize, ds[c + 1].outSize)]
                                    [Layer(c, Delta) := Matrix(ds[c].outSize, B)]))
  {
    var o := ds[c].outSize;
    var o1 := ds[c + 1].outSize;
    assert ds[c + 1].inSize == o;
    BatchRoom(s, ds, res, B, c, Activated);
    BatchRoom(s, ds, res, B, c, ActivatedDerivative);
    BatchRoom(s, ds, res, B, c, Delta);
    BatchRoom(s, ds, res, B, c + 1, Delta);
    WeightRoom(s, ds, res, B, c + 1, Weights);
    WeightRoom(s, ds, res, B, c + 1, WeightsTransposed);
    var c1 := K.SigmoidPrime(Layer(c, Activated), Layer(c, ActivatedDerivative), o, B);
    var c2 := K.Transpose(Layer(c + 1, Weights), Layer(c + 1, WeightsTransposed), o1, o);
    var c3 := K.Derivative(Layer(c + 1, WeightsTransposed), Layer(c + 1, Delta), Layer(c, ActivatedDerivative), Layer(c, Delta), o, o1, B);
    SigmoidOk(s, Layer(c, Activated), Layer(c, ActivatedDerivative), o, B);
    var s1 := s.(layout := s.layout[Layer(c, ActivatedDerivative) := Matrix(o, B)]);
    TransposeOk(s1, Layer(c + 1, Weights), Layer(c + 1, WeightsTransposed), o1, o);
    var s2 := s1.(layout := s1.layout[Layer(c + 1, WeightsTransposed) := Matrix(o, o1)]);
    DerivativeOk(s2, Layer(c + 1, WeightsTransposed), Layer(c + 1, Delta), Layer(c, ActivatedDerivative), Layer(c, Delta), o, o1, B);
    Run3(s, c1, c2, c3, s1, s2, s2.(layout := s2.layout[Layer(c, Delta) := Matrix(o, B)]));
  }

  /** The transposed previous activation, when there is one. */
  lemma OperandOk(s: State, ds: seq<Dims>, res: Dims, B: nat, c: nat)
    requires Forwarded(s, ds, res, B) && c < |ds|
    ensures Exec(s, OperandCalls(ds, B, c)).Ok?
    ensures var r := Exec(s, OperandCalls(ds, B, c)).value;
            && r.cap == s.cap
            && Has(r, GradientInput(c), B, ds[c].inSize)
            && (forall b: BufId :: !(c > 0 && b == Layer(c - 1, ActivatedTransposed)) ==> Keeps(s, r, b))
  {
    if c > 0 {
      assert ds[c - 1].outSize == ds[c].inSize;
      BatchRoom(s, ds, res, B, c - 1, Activated);
      BatchRoom(s, ds, res, B, c - 1, ActivatedTransposed);
      TransposeOk(s, Layer(c - 1, Activated), Layer(c - 1, ActivatedTransposed), ds[c].inSize, B);
      Run1(s, K.Transpose(Layer(c - 1, Activated), Layer(c - 1, ActivatedTransposed), ds[c].inSize, B),
           s.(layout := s.layout[Layer(c - 1, ActivatedTransposed) := Matrix(B, ds[c].inSize)]));
    }
  }

  lemma GradientInputRoom(s: State, ds: seq<Dims>, res: Dims, B: nat, c: nat)
    requires Ready(s, ds, res, B) && c < |ds|
    ensures Room(s, GradientInput(c), B * ds[c].inSize)
  {
    if c == 0 {
      InputRoom(s, ds, res, B);
    } else {
      assert ds[c - 1].outSize == ds[c].inSize;
      BatchRoom(s, ds, res, B, c - 1, ActivatedTransposed);
    }
  }

  /** The two gradients of layer `c` from its delta and its operand. */
  lemma GradientOk(s: State, ds: seq<Dims>, res: Dims, B: nat, c: nat)
    requires Ready(s, ds, res, B) && c < |ds|
    requires Has(s, Layer(c, Delta), ds[c].outSize, B) && Has(s, GradientInput(c), B, ds[c].inSize)
    ensures Exec(s, GradientCalls(ds, B, c)).Ok?
    ensures var r := Exec(s, GradientCalls(ds, B, c)).value;
            && r.cap == s.cap
            && Has(r, Layer(c, BiasDerivative), ds[c].outSize, B)
            && Has(r, Layer(c, WeightsDerivative), ds[c].outSize, ds[c].inSize)
            && (forall b: BufId :: b != Layer(c, BiasDerivative) && b != Layer(c, WeightsDerivative) ==> Keeps(s, r, b))
  {
    var o := ds[c].outSize;
    var i := ds[c].inSize;
    BatchRoom(s, ds, res, B, c, Delta);
    BatchRoom(s, ds, res, B, c, BiasDerivative);
    WeightRoom(s, ds, res, B, c, WeightsDerivative);
    GradientInputRoom(s, ds, res, B, c);
    var c1 := Copy(Layer(c, Delta), Layer(c, BiasDerivative), B * o);
    var c2 := K.Matmul(Layer(c, Delta), GradientInput(c), Layer(c, WeightsDerivative), o, B, i);
    CopyOk(s, Layer(c, Delta), Layer(c, BiasDerivative), o, B, B * o);
    var s1 := Step(s, c1).value;
    MatmulOk(s1, Layer(c, Delta), GradientInput(c), Layer(c, WeightsDerivative), o, B, i);
    Run2(s, c1, c2, s1, s1.(layout := s1.layout[Layer(c, WeightsDerivative) := Matrix(o, i)]));
  }

  /** The delta keeps what the forward phase left and writes only
      buffers of the iteration. */
  lemma DeltaKeeps(s: State, ds: seq<Dims>, res: Dims, B: nat, c: nat)
    requires Forwarded(s, ds, res, B) && c + 1 < |ds|
    requires Has(s, Layer(c + 1, Delta), ds[c + 1].outSize, B)
    ensures Exec(s, DeltaCalls(ds, B, c)).Ok?
    ensures var r := Exec(s, DeltaCalls(ds, B, c)).value;
            && r.cap == s.cap
            && Forwarded(r, ds, res, B)
            && Has(r, Layer(c, Delta), ds[c].outSize, B)
            && (forall b: BufId :: !LayerWrites(c, b) ==> Keeps(s, r, b))
  {
    DeltaOk(s, ds, res, B, c);
    var r := Exec(s, DeltaCalls(ds, B, c)).value;
    var o := ds[c].outSize;
    UpdatesKeep(s, r, Layer(c, ActivatedDerivative), Matrix(o, B), Layer(c + 1, WeightsTransposed),
                Matrix(o, ds[c + 1].outSize), Layer(c, Delta), Matrix(o, B));
    KeepForwarded(s, r, ds, res, B);
  }

  /** The delta of layer `c` and the operand of its weight gradient. */
  lemma DeltaAndOperandOk(s: State, ds: seq<Dims>, res: Dims, B: nat, c: nat)
    requires Forwarded(s, ds, res, B) && c + 1 < |ds|
    requires Has(s, Layer(c + 1, Delta), ds[c + 1].outSize, B)
    ensures Exec(s, DeltaCalls(ds, B, c) + OperandCalls(ds, B, c)).Ok?
    ensures var r := Exec(s, DeltaCalls(ds, B, c) + OperandCalls(ds, B, c)).value;
            && r.cap == s.cap
            && Ready(r, ds, res, B)
            && Has(r, Layer(c, Delta), ds[c].outSize, B)
            && Has(r, GradientInput(c), B, ds[c].inSize)
            && (forall b: BufId :: !LayerWrites(c, b) ==> Keeps(s, r, b))
  {
    DeltaKeeps(s, ds, res, B, c);
    var s1 := Exec(s, DeltaCalls(ds, B, c)).value;
    OperandOk(s1, ds, res, B, c);
    var r := Exec(s1, OperandCalls(ds, B, c)).value;
    ExecSplit(s, DeltaCalls(ds, B, c), OperandCalls(ds, B, c), s1);
    assert Keeps(s1, r, Layer(c, Delta));
    KeepInitialised(s1, r, ds);
    forall b: BufId | !LayerWrites(c, b) ensures Keeps(s, r, b) {
      assert Keeps(s, s1, b) && Keeps(s1, r, b);
    }
  }

  /** One iteration of the loop: layer `c`'s gradients from the next layer's
      delta. */
  lemma BackpropLayerOk(s: State, ds: seq<Dims>, res: Dims, B: nat, c: nat)
    requires Forwarded(s, ds, res, B) && c + 1 < |ds|
    requires Has(s, Layer(c + 1, Delta), ds[c + 1].outSize, B)
    ensures Exec(s, BackpropLayer(ds, B, c)).Ok?
    ensures var r := Exec(s, BackpropLayer(ds, B, c)).value;
            && r.cap == s.cap
            && Has(r, Layer(c, Delta), ds[c].outSize, B)
            && Has(r, Layer(c, BiasDerivative), ds[c].outSize, B)
            && Has(r, Layer(c, WeightsDerivative), ds[c].outSize, ds[c].inSize)
            && (forall b: BufId :: !LayerWrites(c, b) ==> Keeps(s, r, b))
  {
    DeltaAndOperandOk(s, ds, res, B, c);
    var s2 := Exec(s, DeltaCalls(ds, B, c) + OperandCalls(ds, B, c)).value;
    GradientOk(s2, ds, res, B, c);
    var r := Exec(s2, GradientCalls(ds, B, c)).value;
    ExecSplit(s, DeltaCalls(ds, B, c) + OperandCalls(ds, B, c), GradientCalls(ds, B, c), s2);
    assert Keeps(s2, r, Layer(c, Delta));
    forall b: BufId | !LayerWrites(c, b) ensures Keeps(s, r, b) {
      assert Keeps(s, s2, b) && Keeps(s2, r, b);
    }
  }

  /** What the loop from layer `c - 1` down to the head may write: backward
      buffers of the layers below `c`, and the transposed weights of `c`. */
  predicate BackwardWrite(b: BufId, c: nat) {
    b.Layer? && BackwardKind(b.kind) && (b.index < c || b == Layer(c, WeightsTransposed))
  }

  /** The loop from layer `c - 1` down to the head leaves every gradient of
      those layers, given the delta of layer `c`. */
  lemma {:induction false} BackpropLayersOk(s: State, ds: seq<Dims>, res: Dims, B: nat, c: nat)
    requires Forwarded(s, ds, res, B) && c < |ds|
    requires Has(s, Layer(c, Delta), ds[c].outSize, B)
    ensures Exec(s, BackpropLayers(ds, B, c)).Ok?
    ensures var r := Exec(s, BackpropLayers(ds, B, c)).value;
            && r.cap == s.cap
            && (forall j :: 0 <= j < c ==>
                  Has(r, Layer(j, WeightsDerivative), ds[j].outSize, ds[j].inSize) && Has(r, Layer(j, BiasDerivative), ds[j].outSize, B))
            && (forall b: BufId :: !BackwardWrite(b, c) ==> Keeps(s, r, b))
    decreases c
  {
    if c > 0 {
      BackpropLayerOk(s, ds, res, B, c - 1);
      var s1 := Exec(s, BackpropLayer(ds, B, c - 1)).value;
      LayerWritesBackward(s, s1, c - 1);
      KeepForwarded(s, s1, ds, res, B);
      BackpropLayersOk(s1, ds, res, B, c - 1);
      var r := Exec(s1, BackpropLayers(ds, B, c - 1)).value;
      ExecSplit(s, BackpropLayer(ds, B, c - 1), BackpropLayers(ds, B, c - 1), s1);
      GradientsThrough(s1, r, ds, B, c);
      BackwardWriteStep(s, s1, r, c);
    }
  }

  /** The gradients of layer `c - 1` survive the rest of the loop. */
  lemma GradientsThrough(s1: State, r: State, ds: seq<Dims>, B: nat, c: nat)
    requires 0 < c < |ds|
    requires Has(s1, Layer(c - 1, WeightsDerivative), ds[c - 1].outSize, ds[c - 1].inSize)
    requires Has(s1, Layer(c - 1, BiasDerivative), ds[c - 1].outSize, B)
    requires forall b: BufId :: !BackwardWrite(b, c - 1) ==> Keeps(s1, r, b)
    requires forall j :: 0 <= j < c - 1 ==>
               Has(r, Layer(j, WeightsDerivative), ds[j].outSize, ds[j].inSize) && Has(r, Layer(j, BiasDerivative), ds[j].outSize, B)
    ensures forall j :: 0 <= j < c ==>
              Has(r, Layer(j, WeightsDerivative), ds[j].outSize, ds[j].inSize) && Has(r, Layer(j, BiasDerivative), ds[j].outSize, B)
  {
    assert Keeps(s1, r, Layer(c - 1, WeightsDerivative)) && Keeps(s1, r, Layer(c - 1, BiasDerivative));
  }

  /** An iteration writes backward buffers only. */
  lemma LayerWritesBackward(s: State, r: State, c: nat)
    requires forall b: BufId :: !LayerWrites(c, b) ==> Keeps(s, r, b)
    ensures forall b: BufId :: !(b.Layer? && BackwardKind(b.kind)) ==> Keeps(s, r, b)
  {
    forall b: BufId | !(b.Layer? && BackwardKind(b.kind)) ensures Keeps(s, r, b) {
      assert !LayerWrites(c, b);
    }
  }

  /** The iteration for `c - 1` followed by the rest of the loop writes what
      the loop from `c - 1` down may write. */
  lemma BackwardWriteStep(s: State, s1: State, r: State, c: nat)
    requires c > 0
    requires forall b: BufId :: !LayerWrites(c - 1, b) ==> Keeps(s, s1, b)
    requires forall b: BufId :: !BackwardWrite(b, c - 1) ==> Keeps(s1, r, b)
    ensures forall b: BufId :: !BackwardWrite(b, c) ==> Keeps(s, r, b)
  {
    forall b: BufId | !BackwardWrite(b, c) ensures Keeps(s, r, b) {
      assert !LayerWrites(c - 1, b) && !BackwardWrite(b, c - 1);
      assert Keeps(s, s1, b) && Keeps(s1, r, b);
    }
  }

  /** run_backpropagation leaves the weight and bias gradients of every
      layer and writes no buffer but backward ones. */
  lemma BackpropOk(s: State, ds: seq<Dims>, res: Dims, B: nat)
    requires |ds| >= 1 && Forwarded(s, ds, res, B)
    requires Has(s, CostDerivative, ds[|ds| - 1].outSize, B)
    ensures Exec(s, Backprop(ds, B)).Ok?
    ensures var r := Exec(s, Backprop(ds, B)).value;
            && r.cap == s.cap
            && Forwarded(r, ds, res, B)
            && (forall j :: 0 <= j < |ds| ==>
                  Has(r, Layer(j, WeightsDerivative), ds[j].outSize, ds[j].inSize) && Has(r, Layer(j, BiasDerivative), ds[j].outSize, B))
            && (forall b: BufId :: !(b.Layer? && BackwardKind(b.kind)) ==> Keeps(s, r, b))
  {
    if |ds| == 1 {
      HeadOnlyTailOk(s, ds, res, B);
      return;
    }
    var t := |ds| - 1;
    BackpropTailForwards(s, ds, res, B);
    var s1 := Exec(s, BackpropTail(ds, B)).value;
    BackpropLayersOk(s1, ds, res, B, t);
    var r := Exec(s1, BackpropLayers(ds, B, t)).value;
    ExecSplit(s, BackpropTail(ds, B), BackpropLayers(ds, B, t), s1);
    assert Keeps(s1, r, Layer(t, WeightsDerivative)) && Keeps(s1, r, Layer(t, BiasDerivative));
    BackwardKeepsTrans(s, s1, r, t);
    KeepForwarded(s, r, ds, res, B);
  }

  /** The backward pass of a one-layer network: the delta and the bias
      gradient are copies of the cost derivative, and the weight gradient is
      the delta times device_x_transposed. */
  lemma HeadOnlyTailOk(s: State, ds: seq<Dims>, res: Dims, B: nat)
    requires |ds| == 1 && Forwarded(s, ds, res, B)
    requires Has(s, CostDerivative, ds[0].outSize, B)
    ensures Exec(s, HeadOnlyTail(ds, B)).Ok?
    ensures var r := Exec(s, HeadOnlyTail(ds, B)).value;
            && r.cap == s.cap
            && Forwarded(r, ds, res, B)
            && Has(r, Layer(0, WeightsDerivative), ds[0].outSize, ds[0].inSize)
            && Has(r, Layer(0, BiasDerivative), ds[0].outSize, B)
            && (forall b: BufId :: !(b.Layer? && BackwardKind(b.kind)) ==> Keeps(s, r, b))
  {
    var n := B * ds[0].outSize;
    TargetRoom(s, ds, res, B);
    InputRoom(s, ds, res, B);
    BatchRoom(s, ds, res, B, 0, Delta);
    BatchRoom(s, ds, res, B, 0, BiasDerivative);
    WeightRoom(s, ds, res, B, 0, WeightsDerivative);
    var c1 := Copy(CostDerivative, Layer(0, Delta), n);
    var c2 := Copy(CostDerivative, Layer(0, BiasDerivative), n);
    var c3 := K.WeightDerivative(Layer(0, Delta), XT, Layer(0, WeightsDerivative), ds[0].outSize, B, ds[0].inSize);
    CopyOk(s, CostDerivative, Layer(0, Delta), ds[0].outSize, B, n);
    var s1 := Step(s, c1).value;
    CopyOk(s1, CostDerivative, Layer(0, BiasDerivative), ds[0].outSize, B, n);
    var s2 := Step(s1, c2).value;
    assert Has(s2, XT, B, ds[0].inSize);
    MatmulOk(s2, Layer(0, Delta), XT, Layer(0, WeightsDerivative), ds[0].outSize, B, ds[0].inSize);
    var s3 := Step(s2, c3).value;
    Run3(s, c1, c2, c3, s1, s2, s3);
    KeepForwarded(s, s3, ds, res, B);
  }

  /** As written, the backward pass of a one-layer network makes its two
      copies and then follows the null `prev` of the tail. */
  lemma BackpropAsWrittenOneLayerFails(s: State, ds: seq<Dims>, res: Dims, B: nat)
    requires |ds| == 1 && Forwarded(s, ds, res, B)
    requires Has(s, CostDerivative, ds[0].outSize, B)
    ensures Exec(s, BackpropAsWritten(ds, B)) == Err(NullLink)
  {
    var n := B * ds[0].outSize;
    TargetRoom(s, ds, res, B);
    BatchRoom(s, ds, res, B, 0, Delta);
    BatchRoom(s, ds, res, B, 0, BiasDerivative);
    var c1 := Copy(CostDerivative, Layer(0, Delta), n);
    var c2 := Copy(CostDerivative, Layer(0, BiasDerivative), n);
    CopyOk(s, CostDerivative, Layer(0, Delta), ds[0].outSize, B, n);
    var s1 := Step(s, c1).value;
    CopyOk(s1, CostDerivative, Layer(0, BiasDerivative), ds[0].outSize, B, n);
    var s2 := Step(s1, c2).value;
    ExecCons(s, c1, [c2, NullDeref]);
    assert [c1] + [c2, NullDeref] == BackpropAsWritten(ds, B);
    ExecCons(s1, c2, [NullDeref]);
    assert [c2] + [NullDeref] == [c2, NullDeref];
    ExecCons(s2, NullDeref, []);
    assert [NullDeref] + [] == [NullDeref];
  }

  /** The start of the backward pass keeps what the forward pass left. */
  lemma BackpropTailForwards(s: State, ds: seq<Dims>, res: Dims, B: nat)
    requires |ds| >= 2 && Forwarded(s, ds, res, B)
    requires Has(s, CostDerivative, ds[|ds| - 1].outSize, B)
    ensures Exec(s, BackpropTail(ds, B)).Ok?
    ensures var r := Exec(s, BackpropTail(ds, B)).value;
            var t := |ds| - 1;
            && r.cap == s.cap
            && Forwarded(r, ds, res, B)
            && Has(r, Layer(t, Delta), ds[t].outSize, B)
            && Has(r, Layer(t, BiasDerivative), ds[t].outSize, B)
            && Has(r, Layer(t, WeightsDerivative), ds[t].outSize, ds[t].inSize)
            && (forall b: BufId :: !(b.Layer? && BackwardKind(b.kind)) ==> Keeps(s, r, b))
  {
    BackpropTailOk(s, ds, res, B);
    KeepForwarded(s, Exec(s, BackpropTail(ds, B)).value, ds, res, B);
  }

  /** The tail's writes and the loop's writes are both backward. */
  lemma BackwardKeepsTrans(s: State, s1: State, r: State, t: nat)
    requires forall b: BufId :: !(b.Layer? && BackwardKind(b.kind)) ==> Keeps(s, s1, b)
    requires forall b: BufId :: !BackwardWrite(b, t) ==> Keeps(s1, r, b)
    ensures forall b: BufId :: !(b.Layer? && BackwardKind(b.kind)) ==> Keeps(s, r, b)
  {
    forall b: BufId | !(b.Layer? && BackwardKind(b.kind)) ensures Keeps(s, r, b) {
      assert Keeps(s, s1, b) && Keeps(s1, r, b);
    }
  }

  // ---------------------------------------------------------------------
  // Update

  /** One iteration of run_update_weights_and_biases rewrites the layer's
      weights and biases with their own shapes. */
  lemma UpdateLayerOk(s: State, ds: seq<Dims>, res: Dims, B: nat, c: nat)
    requires Ready(s, ds, res, B) && c < |ds|
    requires Has(s, Layer(c, WeightsDerivative), ds[c].outSize, ds[c].inSize)
    requires Has(s, Layer(c, BiasDerivative), ds[c].outSize, B)
    ensures Exec(s, UpdateLayer(ds, B, c)) ==
            Ok(s.(layout := s.layout[Layer(c, Weights) := Matrix(ds[c].outSize, ds[c].inSize)]
                                    [Layer(c, Bias) := Matrix(ds[c].outSize, 1)]))
  {
    var o := ds[c].outSize;
    var i := ds[c].inSize;
    WeightRoom(s, ds, res, B, c, Weights);
    WeightRoom(s, ds, res, B, c, WeightsDerivative);
    BatchRoom(s, ds, res, B, c, BiasDerivative);
    assert Room(s, Layer(c, Bias), o) by {
      assert s.cap[Layer(c, Bias)] == o;
    }
    UpdateWeightsOk(s, Layer(c, Weights), Layer(c, WeightsDerivative), o, i);
    var s1 := s.(layout := s.layout[Layer(c, Weights) := Matrix(o, i)]);
    UpdateBiasesOk(s1, Layer(c, Bias), Layer(c, BiasDerivative), o, B);
    Run2(s, K.UpdateWeights(Layer(c, Weights), Layer(c, WeightsDerivative), o, i),
         K.UpdateBiases(Layer(c, Bias), Layer(c, BiasDerivative), o, B),
         s1, s1.(layout := s1.layout[Layer(c, Bias) := Matrix(o, 1)]));
  }

  /** The update loop over the first `n` layers keeps every layer
      initialised and writes weights and biases only. */
  lemma {:induction false} UpdateLayersOk(s: State, ds: seq<Dims>, res: Dims, B: nat, n: nat)
    requires Ready(s, ds, res, B) && n <= |ds|
    requires forall j :: 0 <= j < |ds| ==>
               Has(s, Layer(j, WeightsDerivative), ds[j].outSize, ds[j].inSize) && Has(s, Layer(j, BiasDerivative), ds[j].outSize, B)
    ensures Exec(s, UpdateLayers(ds, B, n)).Ok?
    ensures var r := Exec(s, UpdateLayers(ds, B, n)).value;
            && r.cap == s.cap
            && Ready(r, ds, res, B)
            && (forall b: BufId :: !(b.Layer? && (b.kind == Weights || b.kind == Bias)) ==> Keeps(s, r, b))
    decreases n
  {
    if n > 0 {
      UpdateLayersOk(s, ds, res, B, n - 1);
      var r0 := Exec(s, UpdateLayers(ds, B, n - 1)).value;
      assert Keeps(s, r0, Layer(n - 1, WeightsDerivative)) && Keeps(s, r0, Layer(n - 1, BiasDerivative));
      UpdateLayerOk(r0, ds, res, B, n - 1);
      var r := Exec(r0, UpdateLayer(ds, B, n - 1)).value;
      ExecSplit(s, UpdateLayers(ds, B, n - 1), UpdateLayer(ds, B, n - 1), r0);
      UpdateFrame(s, r0, r, ds, n - 1);
    }
  }

  /** Rewriting one layer's weights and biases with their own shapes keeps
      the network initialised. */
  lemma UpdateFrame(s: State, r0: State, r: State, ds: seq<Dims>, c: nat)
    requires c < |ds| && Initialised(r0, ds)
    requires forall b: BufId :: !(b.Layer? && (b.kind == Weights || b.kind == Bias)) ==> Keeps(s, r0, b)
    requires r == r0.(layout := r0.layout[Layer(c, Weights) := Matrix(ds[c].outSize, ds[c].inSize)]
                                         [Layer(c, Bias) := Matrix(ds[c].outSize, 1)])
    ensures Initialised(r, ds)
    ensures forall b: BufId :: !(b.Layer? && (b.kind == Weights || b.kind == Bias)) ==> Keeps(s, r, b)
  {
    forall b: BufId | !(b.Layer? && (b.kind == Weights || b.kind == Bias)) ensures Keeps(s, r, b) {
      assert Keeps(s, r0, b);
    }
  }

  // ---------------------------------------------------------------------
  // One training step

  /** The loads at the start of a step keep the network ready and leave the
      mini batch and its targets on the device. */
  lemma LoadsOk(s: State, ds: seq<Dims>, res: Dims, B: nat)
    requires |ds| >= 1 && Ready(s, ds, res, B)
    ensures var a := Loads(ds, B);
            && Exec(s, a).Ok?
            && Exec(s, a).value.cap == s.cap
            && Ready(Exec(s, a).value, ds, res, B)
            && X in Exec(s, a).value.layout && Exec(s, a).value.layout[X] == Matrix(ds[0].inSize, B)
            && Has(Exec(s, a).value, Y, ds[|ds| - 1].outSize, B)
  {
    var t := |ds| - 1;
    LoadInputOk(s, ds, res, B);
    var s0 := s.(layout := s.layout[XT := Flat(B * ds[0].inSize)]);
    var s1 := s0.(layout := s0.layout[X := Matrix(ds[0].inSize, B)]);
    ReadyAfterWrite(s, ds, res, B, XT, Flat(B * ds[0].inSize));
    ReadyAfterWrite(s0, ds, res, B, X, Matrix(ds[0].inSize, B));
    LoadTargetOk(s1, ds, res, B);
    var s2 := s1.(layout := s1.layout[YT := Flat(B * ds[t].outSize)]);
    ReadyAfterWrite(s1, ds, res, B, YT, Flat(B * ds[t].outSize));
    ReadyAfterWrite(s2, ds, res, B, Y, Matrix(ds[t].outSize, B));
    ExecSplit(s, LoadInputCalls(ds[0].inSize, B), LoadTargetCalls(ds[t].outSize, B), s1);
  }

  /** After the loads, the forward pass leaves what the backward pass reads. */
  lemma FeedForwardForwards(s: State, ds: seq<Dims>, res: Dims, B: nat)
    requires |ds| >= 1 && Ready(s, ds, res, B)
    requires Has(s, X, ds[0].inSize, B) && Has(s, Y, ds[|ds| - 1].outSize, B)
    ensures Exec(s, FeedForward(ds, B)).Ok?
    ensures Exec(s, FeedForward(ds, B)).value.cap == s.cap
    ensures Forwarded(Exec(s, FeedForward(ds, B)).value, ds, res, B)
  {
    FeedForwardOk(s, ds, res, B);
    var s1 := Exec(s, FeedForward(ds, B)).value;
    assert Keeps(s, s1, Y);
    ForwardKeepsInitialised(s, s1, ds);
  }

  lemma ForwardKeepsInitialised(s: State, r: State, ds: seq<Dims>)
    requires Initialised(s, ds)
    requires forall b: BufId :: b != XT && !(b.Layer? && ForwardKind(b.kind)) ==> Keeps(s, r, b)
    ensures Initialised(r, ds)
  {
    forall c | 0 <= c < |ds| ensures Keeps(s, r, Layer(c, Weights)) && Keeps(s, r, Layer(c, Bias)) {
      assert Keeps(s, r, Layer(c, Weights));
      assert Keeps(s, r, Layer(c, Bias));
    }
    KeepInitialised(s, r, ds);
  }

  /** The forward pass and the cost derivative after the loads. */
  lemma ForwardAndCostOk(s: State, ds: seq<Dims>, res: Dims, B: nat)
    requires |ds| >= 1 && Ready(s, ds, res, B)
    requires Has(s, X, ds[0].inSize, B) && Has(s, Y, ds[|ds| - 1].outSize, B)
    ensures var a := FeedForward(ds, B) + CostDerivativeCalls(ds, B);
            && Exec(s, a).Ok?
            && Exec(s, a).value.cap == s.cap
            && Forwarded(Exec(s, a).value, ds, res, B)
            && Has(Exec(s, a).value, CostDerivative, ds[|ds| - 1].outSize, B)
  {
    FeedForwardForwards(s, ds, res, B);
    var s1 := Exec(s, FeedForward(ds, B)).value;
    CostDerivativeOk(s1, ds, res, B);
    ExecSplit(s, FeedForward(ds, B), CostDerivativeCalls(ds, B), s1);
    ForwardedAfterWrite(s1, ds, res, B, CostDerivative, Matrix(ds[|ds| - 1].outSize, B));
  }

  /** Writing a shared buffer other than the transposed input and the target
      keeps what the forward phase left. */
  lemma ForwardedAfterWrite(s: State, ds: seq<Dims>, res: Dims, B: nat, b: BufId, l: Layout)
    requires Forwarded(s, ds, res, B) && !b.Layer? && b != XT && b != Y
    ensures Forwarded(s.(layout := s.layout[b := l]), ds, res, B)
  {
    KeepInitialised(s, s.(layout := s.layout[b := l]), ds);
  }

  /** Writing a buffer other than weights and biases keeps the network ready. */
  lemma ReadyAfterWrite(s: State, ds: seq<Dims>, res: Dims, B: nat, b: BufId, l: Layout)
    requires Ready(s, ds, res, B) && !(b.Layer? && (b.kind == Weights || b.kind == Bias))
    ensures Ready(s.(layout := s.layout[b := l]), ds, res, B)
  {
    KeepInitialised(s, s.(layout := s.layout[b := l]), ds);
  }

  /** A training step of a network of at least two layers whose buffers are
      allocated and whose weights and biases are set is well defined
      throughout, allocates nothing, and leaves the network ready for the
      next step. */
  lemma TrainingStepOk(s: State, ds: seq<Dims>, res: Dims, B: nat)
    requires |ds| >= 1 && Ready(s, ds, res, B)
    ensures Exec(s, TrainingStep(ds, B)).Ok?
    ensures Exec(s, TrainingStep(ds, B)).value.cap == s.cap
    ensures Ready(Exec(s, TrainingStep(ds, B)).value, ds, res, B)
  {
    var fwd := FeedForward(ds, B) + CostDerivativeCalls(ds, B);
    LoadsOk(s, ds, res, B);
    var s1 := Exec(s, Loads(ds, B)).value;
    ForwardAndCostOk(s1, ds, res, B);
    var s2 := Exec(s1, fwd).value;
    BackpropOk(s2, ds, res, B);
    var s3 := Exec(s2, Backprop(ds, B)).value;
    UpdateLayersOk(s3, ds, res, B, |ds|);
    ExecSplit(s, Loads(ds, B), fwd, s1);
    ExecSplit(s, Loads(ds, B) + fwd, Backprop(ds, B), s2);
    ExecSplit(s, Loads(ds, B) + fwd + Backprop(ds, B), UpdateLayers(ds, B, |ds|), s3);
  }

  /** With run_feed_forward as written, the first forward call reads
      device_x as an `input_size x 1` matrix; after load_input it holds
      `input_size x mini_batch_size`, so a mini batch of more than one
      column stops the step there. */
  lemma TrainingStepAsWrittenFails(s: State, ds: seq<Dims>, res: Dims, B: nat)
    requires |ds| >= 1 && Ready(s, ds, res, B) && B > 1
    ensures Exec(s, TrainingStepAsWritten(ds, B)) == Err(Mismatch(X, Matrix(ds[0].inSize, B), Whole(ds[0].inSize, 1)))
  {
    var n := ds[0].inSize;
    var fwd := FeedForwardAsWritten(ds, B) + CostDerivativeCalls(ds, B);
    LoadsOk(s, ds, res, B);
    var s1 := Exec(s, Loads(ds, B)).value;
    ColumnRoom(s1, ds, res, B);
    ForwardAsWrittenFails(s1, ds, B);
    ExecSplit(s, Loads(ds, B), fwd, s1);
    ExecStops(s, Loads(ds, B) + fwd, BackpropAsWritten(ds, B));
    ExecStops(s, Loads(ds, B) + fwd + BackpropAsWritten(ds, B), UpdateLayers(ds, B, |ds|));
  }

  /** With run_backpropagation as written, a network of one layer gets
      through the forward pass on a one-column mini batch and then stops at
      the tail's null `prev`; with the weight gradient read from
      device_x_transposed the same step succeeds (TrainingStepOk). */
  lemma TrainingStepAsWrittenOneLayerFails(s: State, ds: seq<Dims>, res: Dims)
    requires |ds| == 1 && Ready(s, ds, res, 1)
    ensures Exec(s, TrainingStepAsWritten(ds, 1)) == Err(NullLink)
    ensures Exec(s, TrainingStep(ds, 1)).Ok?
  {
    var fwd := FeedForward(ds, 1) + CostDerivativeCalls(ds, 1);
    AsWrittenAgreesOnSingleColumn(ds);
    LoadsOk(s, ds, res, 1);
    var s1 := Exec(s, Loads(ds, 1)).value;
    ForwardAndCostOk(s1, ds, res, 1);
    var s2 := Exec(s1, fwd).value;
    BackpropAsWrittenOneLayerFails(s2, ds, res, 1);
    ExecSplit(s, Loads(ds, 1), fwd, s1);
    ExecSplit(s, Loads(ds, 1) + fwd, BackpropAsWritten(ds, 1), s2);
    ExecStops(s, Loads(ds, 1) + fwd + BackpropAsWritten(ds, 1), UpdateLayers(ds, 1, |ds|));
    TrainingStepOk(s, ds, res, 1);
  }

  /** A non-empty mini batch leaves room for one column of input. */
  lemma ColumnRoom(s: State, ds: seq<Dims>, res: Dims, B: nat)
    requires Ready(s, ds, res, B) && B > 0
    ensures Room(s, X, ds[0].inSize * 1) && Room(s, XT, 1 * ds[0].inSize)
  {
    InputRoom(s, ds, res, B);
    Contents.MulLe(1, B, ds[0].inSize);
  }

  /** The forward phase as written stops at its first call once device_x
      holds more than one column. */
  lemma ForwardAsWrittenFails(s: State, ds: seq<Dims>, B: nat)
    requires |ds| >= 1 && B > 1
    requires X in s.layout && s.layout[X] == Matrix(ds[0].inSize, B)
    requires Room(s, X, ds[0].inSize * 1) && Room(s, XT, 1 * ds[0].inSize)
    ensures Exec(s, FeedForwardAsWritten(ds, B) + CostDerivativeCalls(ds, B))
            == Err(Mismatch(X, Matrix(ds[0].inSize, B), Whole(ds[0].inSize, 1)))
  {
    var n := ds[0].inSize;
    var bad := K.Transpose(X, XT, n, 1);
    TransposeAsWrittenFails(s, n, B);
    ExecCons(s, bad, ForwardLayers(ds, B, |ds|));
    ExecStops(s, FeedForwardAsWritten(ds, B), CostDerivativeCalls(ds, B));
  }

  /** The transpose at line 354 reads an `n x B` device_x as `n x 1`. */
  lemma TransposeAsWrittenFails(s: State, n: nat, B: nat)
    requires B > 1 && X in s.layout && s.layout[X] == Matrix(n, B)
    requires Room(s, X, n * 1) && Room(s, XT, 1 * n)
    ensures Step(s, K.Transpose(X, XT, n, 1)) == Err(Mismatch(X, Matrix(n, B), Whole(n, 1)))
  {
    assert FirstSizeFault(s, [K.W(X, n, 1)] + [K.W(XT, 1, n)]) == Pass;
    assert !ReadOk(s, K.W(X, n, 1));
  }

  lemma MulLess(a: nat, b: nat, c: nat)
    requires a < b && c > 0
    ensures a * c < c * b
  {
    assert c * b == c * a + c * (b - a);
  }

  /** The forward loop starts with the head layer's two calls. */
  lemma {:induction false} ForwardLayersStart(ds: seq<Dims>, B: nat, n: nat)
    requires 0 < n <= |ds|
    ensures |ForwardLayers(ds, B, n)| == 2 * n
    ensures ForwardLayers(ds, B, n) == ForwardLayer(ds, B, 0) + ForwardLayers(ds, B, n)[2..]
    decreases n
  {
    if n > 1 {
      ForwardLayersStart(ds, B, n - 1);
      var a := ForwardLayers(ds, B, n - 1);
      assert ForwardLayers(ds, B, n)[..2] == a[..2];
    }
  }

  /** A mini batch wider than the head layer was created for overflows the
      head's output buffer at the first linear step: the batch bound of
      a ready network cannot be dropped. */
  lemma FeedForwardOverflows(s: State, ds: seq<Dims>, B: nat)
    requires |ds| > 0 && Initialised(s, ds)
    requires forall k :: Layer(0, k) in s.cap && s.cap[Layer(0, k)] == LayerCapacity(ds[0], k)
    requires Has(s, X, ds[0].inSize, B) && Room(s, X, ds[0].inSize * B) && Room(s, XT, B * ds[0].inSize)
    requires ds[0].outSize > 0 && B > ds[0].batchSize
    ensures Exec(s, FeedForward(ds, B)) ==
            Err(Overflow(Layer(0, Output), ds[0].outSize * B, ds[0].batchSize * ds[0].outSize))
  {
    var d := ds[0];
    var t := K.Transpose(X, XT, d.inSize, B);
    TransposeOk(s, X, XT, d.inSize, B);
    var s1 := s.(layout := s.layout[XT := Matrix(B, d.inSize)]);
    var lin := K.Linear(X, Layer(0, Weights), Layer(0, Bias), Layer(0, Output), d.outSize, d.inSize, B);
    var sig := K.Sigmoid(Layer(0, Output), Layer(0, Activated), d.outSize, B);
    assert Has(s1, Layer(0, Weights), d.outSize, d.inSize) && Has(s1, Layer(0, Bias), d.outSize, 1);
    assert s1.cap[Layer(0, Weights)] == d.inSize * d.outSize;
    assert d.batchSize * d.outSize < d.outSize * B by {
      MulLess(d.batchSize, B, d.outSize);
    }
    var accs := lin.inputs + lin.outputs;
    assert accs == [K.W(X, d.inSize, B), K.W(Layer(0, Weights), d.outSize, d.inSize), K.W(Layer(0, Bias), d.outSize, 1),
                    K.W(Layer(0, Output), d.outSize, B)];
    assert FirstSizeFault(s1, accs[3..]) == Fail(Overflow(Layer(0, Output), d.outSize * B, d.batchSize * d.outSize));
    assert accs[2..][1..] == accs[3..];
    assert accs[1..][1..] == accs[2..];
    assert FirstSizeFault(s1, accs) == FirstSizeFault(s1, accs[3..]);
    ExecCons(s1, lin, [sig]);
    assert [lin] + [sig] == ForwardLayer(ds, B, 0);
    ForwardLayersStart(ds, B, |ds|);
    ExecStops(s1, ForwardLayer(ds, B, 0), ForwardLayers(ds, B, |ds|)[2..]);
    ExecCons(s, t, ForwardLayers(ds, B, |ds|));
  }

  /** For a mini batch of one column the step as written is the corrected
      step, so only batches of other sizes tell them apart. */
  lemma AsWrittenAgreesOnSingleColumn(ds: seq<Dims>)
    requires |ds| >= 1
    ensures FeedForwardAsWritten(ds, 1) == FeedForward(ds, 1)
    ensures |ds| >= 2 <==> TrainingStepAsWritten(ds, 1) == TrainingStep(ds, 1)
  {
    if |ds| == 1 {
      var a := Loads(ds, 1) + (FeedForwardAsWritten(ds, 1) + CostDerivativeCalls(ds, 1));
      assert TrainingStepAsWritten(ds, 1)[|a| + 2] == NullDeref;
      assert TrainingStep(ds, 1)[|a| + 2] != NullDeref;
    }
  }

  // ---------------------------------------------------------------------
  // Order of the layer walks

  /** The layers whose buffer of kind `k` appears among `outs`, in order. */
  function OutputLayers(outs: seq<Access>, k: Kind): seq<nat>
    decreases |outs|
  {
    if |outs| == 0 then []
    else (if outs[0].buf.Layer? && outs[0].buf.kind == k then [outs[0].buf.index] else []) + OutputLayers(outs[1..], k)
  }

  /** The layers whose buffer of kind `k` one call writes. */
  function CallLayers(call: Call, k: Kind): seq<nat> {
    match call
    case Kernel(_, _, outs) => OutputLayers(outs, k)
    case Upload(b, _) => if b.Layer? && b.kind == k then [b.index] else []
    case Copy(_, b, _) => if b.Layer? && b.kind == k then [b.index] else []
    case _ => []
  }

  /** The layers whose buffer of kind `k` a schedule writes, in the order of
      the writes. */
  function LayersWritten(calls: seq<Call>, k: Kind): seq<nat>
    decreases |calls|
  {
    if |calls| == 0 then [] else CallLayers(calls[0], k) + LayersWritten(calls[1..], k)
  }

  /** `n - 1, n - 2, ..., 0`. */
  function Countdown(n: nat): (r: seq<nat>)
    ensures |r| == n && forall i :: 0 <= i < n ==> r[i] == n - 1 - i
  {
    if n == 0 then [] else [n - 1] + Countdown(n - 1)
  }

  lemma {:induction false} LayersWrittenAppend(a: seq<Call>, b: seq<Call>, k: Kind)
    ensures LayersWritten(a + b, k) == LayersWritten(a, k) + LayersWritten(b, k)
    decreases |a|
  {
    if |a| == 0 {
      assert a + b == b;
    } else {
      assert (a + b)[0] == a[0];
      assert (a + b)[1..] == a[1..] + b;
      LayersWrittenAppend(a[1..], b, k);
    }
  }

  /** A single call writes what it writes; a kernel with one output writes
      that output's layer, if any. */
  lemma LayersWrittenOne(c: Call, k: Kind)
    ensures LayersWritten([c], k) == CallLayers(c, k)
    ensures c.Kernel? && |c.outputs| == 1 ==>
              CallLayers(c, k) == (if c.outputs[0].buf.Layer? && c.outputs[0].buf.kind == k then [c.outputs[0].buf.index] else [])
  {
    assert [c][1..] == [];
    if c.Kernel? && |c.outputs| == 1 {
      assert c.outputs[1..] == [];
      assert OutputLayers(c.outputs[1..], k) == [];
    }
  }

  lemma DeltaCallsWrite(ds: seq<Dims>, B: nat, c: nat, k: Kind)
    requires c + 1 < |ds| && (k == Delta || k == BiasDerivative || k == WeightsDerivative)
    ensures LayersWritten(DeltaCalls(ds, B, c), k) == if k == Delta then [c] else []
  {
    var d := DeltaCalls(ds, B, c);
    LayersWrittenAppend([d[0]], [d[1], d[2]], k);
    LayersWrittenAppend([d[1]], [d[2]], k);
    assert d == [d[0]] + ([d[1]] + [d[2]]);
    LayersWrittenOne(d[0], k);
    LayersWrittenOne(d[1], k);
    LayersWrittenOne(d[2], k);
  }

  lemma OperandCallsWrite(ds: seq<Dims>, B: nat, c: nat, k: Kind)
    requires c < |ds| && (k == Delta || k == BiasDerivative || k == WeightsDerivative)
    ensures LayersWritten(OperandCalls(ds, B, c), k) == []
  {
    if c > 0 {
      LayersWrittenOne(OperandCalls(ds, B, c)[0], k);
    }
  }

  lemma GradientCallsWrite(ds: seq<Dims>, B: nat, c: nat, k: Kind)
    requires c < |ds| && (k == Delta || k == BiasDerivative || k == WeightsDerivative)
    ensures LayersWritten(GradientCalls(ds, B, c), k) == if k == Delta then [] else [c]
  {
    var g := GradientCalls(ds, B, c);
    LayersWrittenAppend([g[0]], [g[1]], k);
    assert g == [g[0]] + [g[1]];
    LayersWrittenOne(g[0], k);
    LayersWrittenOne(g[1], k);
  }

  /** One iteration of the backward loop writes the delta, the bias gradient
      and the weight gradient of its own layer, once each. */
  lemma BackpropLayerWrites(ds: seq<Dims>, B: nat, c: nat, k: Kind)
    requires c + 1 < |ds| && (k == Delta || k == BiasDerivative || k == WeightsDerivative)
    ensures LayersWritten(BackpropLayer(ds, B, c), k) == [c]
  {
    var d := DeltaCalls(ds, B, c);
    var o := OperandCalls(ds, B, c);
    var g := GradientCalls(ds, B, c);
    LayersWrittenAppend(d + o, g, k);
    LayersWrittenAppend(d, o, k);
    DeltaCallsWrite(ds, B, c, k);
    OperandCallsWrite(ds, B, c, k);
    GradientCallsWrite(ds, B, c, k);
  }

  /** The loop from layer `c - 1` down to the head visits each of those
      layers once, in decreasing order. */
  lemma {:induction false} BackpropLayersWrites(ds: seq<Dims>, B: nat, c: nat, k: Kind)
    requires c < |ds| && (k == Delta || k == BiasDerivative || k == WeightsDerivative)
    ensures LayersWritten(BackpropLayers(ds, B, c), k) == Countdown(c)
    decreases c
  {
    if c > 0 {
      LayersWrittenAppend(BackpropLayer(ds, B, c - 1), BackpropLayers(ds, B, c - 1), k);
      BackpropLayerWrites(ds, B, c - 1, k);
      BackpropLayersWrites(ds, B, c - 1, k);
    }
  }

  lemma LayersWrittenPair(a: Call, b: Call, k: Kind)
    ensures LayersWritten([a, b], k) == CallLayers(a, k) + CallLayers(b, k)
  {
    LayersWrittenAppend([a], [b], k);
    assert [a, b] == [a] + [b];
    LayersWrittenOne(a, k);
    LayersWrittenOne(b, k);
  }

  lemma TailWrites(ds: seq<Dims>, B: nat, k: Kind)
    requires |ds| >= 2 && (k == Delta || k == BiasDerivative || k == WeightsDerivative)
    ensures LayersWritten(BackpropTail(ds, B), k) == [|ds| - 1]
  {
    var tail := BackpropTail(ds, B);
    assert tail == [tail[0], tail[1]] + [tail[2], tail[3]];
    LayersWrittenAppend([tail[0], tail[1]], [tail[2], tail[3]], k);
    LayersWrittenPair(tail[0], tail[1], k);
    LayersWrittenPair(tail[2], tail[3], k);
    LayersWrittenOne(tail[2], k);
    LayersWrittenOne(tail[3], k);
  }

  /** run_backpropagation writes the delta, the bias gradient and the weight
      gradient of every layer exactly once, from the tail to the head. */
  lemma BackpropVisitsTailToHead(ds: seq<Dims>, B: nat, k: Kind)
    requires |ds| >= 1 && (k == Delta || k == BiasDerivative || k == WeightsDerivative)
    ensures LayersWritten(Backprop(ds, B), k) == Countdown(|ds|)
  {
    if |ds| == 1 {
      var tail := HeadOnlyTail(ds, B);
      assert tail == [tail[0], tail[1]] + [tail[2]];
      LayersWrittenAppend([tail[0], tail[1]], [tail[2]], k);
      LayersWrittenPair(tail[0], tail[1], k);
      LayersWrittenOne(tail[2], k);
      return;
    }
    var t := |ds| - 1;
    LayersWrittenAppend(BackpropTail(ds, B), BackpropLayers(ds, B, t), k);
    BackpropLayersWrites(ds, B, t, k);
    TailWrites(ds, B, k);
  }

  lemma ForwardLayerWrites(ds: seq<Dims>, B: nat, c: nat)
    requires c < |ds|
    ensures LayersWritten(ForwardLayer(ds, B, c), Activated) == [c]
  {
    var l := ForwardLayer(ds, B, c);
    LayersWrittenAppend([l[0]], [l[1]], Activated);
    assert l == [l[0]] + [l[1]];
    LayersWrittenOne(l[0], Activated);
    LayersWrittenOne(l[1], Activated);
  }

  /** run_feed_forward writes each layer's activation once, from the head to
      the tail. */
  lemma {:induction false} ForwardVisitsHeadToTail(ds: seq<Dims>, B: nat, n: nat)
    requires n <= |ds|
    ensures LayersWritten(ForwardLayers(ds, B, n), Activated) == Contents.Iota(n)
    decreases n
  {
    if n > 0 {
      ForwardLayersStep(ds, B, n);
      ForwardVisitsHeadToTail(ds, B, n - 1);
      assert Contents.Iota(n) == Contents.Iota(n - 1) + [n - 1];
    }
  }

  /** One more forward layer adds its own index at the end. */
  lemma ForwardLayersStep(ds: seq<Dims>, B: nat, n: nat)
    requires 0 < n <= |ds|
    ensures LayersWritten(ForwardLayers(ds, B, n), Activated) == LayersWritten(ForwardLayers(ds, B, n - 1), Activated) + [n - 1]
  {
    var prev := ForwardLayers(ds, B, n - 1);
    assert ForwardLayers(ds, B, n) == prev + ForwardLayer(ds, B, n - 1);
    LayersWrittenAppend(prev, ForwardLayer(ds, B, n - 1), Activated);
    ForwardLayerWrites(ds, B, n - 1);
  }

  lemma UpdateLayerWrites(ds: seq<Dims>, B: nat, c: nat, k: Kind)
    requires c < |ds| && (k == Weights || k == Bias)
    ensures LayersWritten(UpdateLayer(ds, B, c), k) == [c]
  {
    var l := UpdateLayer(ds, B, c);
    LayersWrittenAppend([l[0]], [l[1]], k);
    assert l == [l[0]] + [l[1]];
    LayersWrittenOne(l[0], k);
    LayersWrittenOne(l[1], k);
  }

  /** run_update_weights_and_biases rewrites each layer's weights and biases
      once, from the head to the tail. */
  lemma {:induction false} UpdateVisitsHeadToTail(ds: seq<Dims>, B: nat, n: nat, k: Kind)
    requires n <= |ds| && (k == Weights || k == Bias)
    ensures LayersWritten(UpdateLayers(ds, B, n), k) == Contents.Iota(n)
    decreases n
  {
    if n > 0 {
      UpdateLayersStep(ds, B, n, k);
      UpdateVisitsHeadToTail(ds, B, n - 1, k);
      assert Contents.Iota(n) == Contents.Iota(n - 1) + [n - 1];
    }
  }

  /** One more update layer adds its own index at the end. */
  lemma UpdateLayersStep(ds: seq<Dims>, B: nat, n: nat, k: Kind)
    requires 0 < n <= |ds| && (k == Weights || k == Bias)
    ensures LayersWritten(UpdateLayers(ds, B, n), k) == LayersWritten(UpdateLayers(ds, B, n - 1), k) + [n - 1]
  {
    var prev := UpdateLayers(ds, B, n - 1);
    assert UpdateLayers(ds, B, n) == prev + UpdateLayer(ds, B, n - 1);
    LayersWrittenAppend(prev, UpdateLayer(ds, B, n - 1), k);
    UpdateLayerWrites(ds, B, n - 1, k);
  }
}
