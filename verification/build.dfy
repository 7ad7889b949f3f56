/** The accelerator calls that set a network up: create_node's allocations
    and uploads for each layer (ML/MVKernels.c:155-224), added head first by
    add_node, and reserve_input_memory's shared buffers
    (ML/MVKernels.c:261-283).  Running them from an empty device leaves
    exactly the capacities and initial weights a training step needs.
 */
module Build {
  import opened Buffers
  import opened Device
  import opened Steps
  import opened Training

  /** The per-layer buffers create_node allocates after the weights, in its
      order (ML/MVKernels.c:204-219). */
  const Workspace: seq<Kind> :=
    [Output, Activated, ActivatedDerivative, ActivatedTransposed, WeightsDerivative, BiasDerivative, WeightsTransposed, Delta]

  function Sized(c: nat, d: Dims, kinds: seq<Kind>): (r: seq<(BufId, nat)>)
    ensures |r| == |kinds|
    ensures forall i :: 0 <= i < |kinds| ==> r[i] == (Layer(c, kinds[i]), LayerCapacity(d, kinds[i]))
  {
    seq(|kinds|, i requires 0 <= i < |kinds| => (Layer(c, kinds[i]), LayerCapacity(d, kinds[i])))
  }

  /** The start of create_node: bias and weights allocated and uploaded. */
  function FrontCalls(c: nat, d: Dims): seq<Call> {
    Mallocs(Sized(c, d, [Bias, Weights]))
    + [Upload(Layer(c, Bias), d.outSize), Upload(Layer(c, Weights), d.inSize * d.outSize)]
  }

  /** create_node for the layer at position `c`: bias and weights are
      allocated and uploaded, then the workspace is allocated. */
  function CreateNodeCalls(c: nat, d: Dims): seq<Call> {
    FrontCalls(c, d) + Mallocs(Sized(c, d, Workspace))
  }

  /** add_node for every layer, head first. */
  function NetworkCalls(ds: seq<Dims>, n: nat): seq<Call>
    requires n <= |ds|
  {
    if n == 0 then [] else NetworkCalls(ds, n - 1) + CreateNodeCalls(n - 1, ds[n - 1])
  }

  /** reserve_input_memory's device buffers, in its order. */
  function ReserveCalls(res: Dims): seq<Call> {
    Mallocs(Reservation(res))
  }

  /** The whole set-up: the layers, then the shared buffers. */
  function SetupCalls(ds: seq<Dims>, res: Dims): seq<Call> {
    NetworkCalls(ds, |ds|) + ReserveCalls(res)
  }

  /** Every buffer of layer `c` has create_node's capacity, and its weights
      and biases hold the uploaded values. */
  predicate NodeReady(s: State, c: nat, d: Dims) {
    && (forall k :: Layer(c, k) in s.cap && s.cap[Layer(c, k)] == LayerCapacity(d, k))
    && Has(s, Layer(c, Weights), d.outSize, d.inSize) && Has(s, Layer(c, Bias), d.outSize, 1)
  }

  lemma WorkspaceDistinct(c: nat, d: Dims)
    ensures Distinct(Sized(c, d, Workspace)) && Distinct(Sized(c, d, [Bias, Weights]))
    ensures !Among(Layer(c, Weights), Sized(c, d, Workspace)) && !Among(Layer(c, Bias), Sized(c, d, Workspace))
  {
  }

  lemma WorkspaceCovers(c: nat, d: Dims)
    ensures forall k :: k != Weights && k != Bias ==> Among(Layer(c, k), Sized(c, d, Workspace))
  {
    var w := Sized(c, d, Workspace);
    forall k | k != Weights && k != Bias ensures Among(Layer(c, k), w) {
      var i := match k
        case Output => 0 case Activated => 1 case ActivatedDerivative => 2 case ActivatedTransposed => 3
        case WeightsDerivative => 4 case BiasDerivative => 5 case WeightsTransposed => 6 case _ => 7;
      assert w[i].0 == Layer(c, k);
    }
  }

  /** No buffer outside layer `c` changes. */
  ghost predicate Untouched(s: State, r: State, c: nat) {
    forall b: BufId :: !(b.Layer? && b.index == c) ==>
      (b in r.cap <==> b in s.cap) && (b in s.cap ==> r.cap[b] == s.cap[b]) && Keeps(s, r, b)
  }

  lemma UntouchedTrans(s: State, s1: State, r: State, c: nat)
    requires Untouched(s, s1, c) && Untouched(s1, r, c)
    ensures Untouched(s, r, c)
  {
  }

  /** Allocating buffers of layer `c` leaves the others alone. */
  lemma MallocsUntouched(s: State, c: nat, d: Dims, kinds: seq<Kind>)
    requires Distinct(Sized(c, d, kinds))
    ensures Exec(s, Mallocs(Sized(c, d, kinds))).Ok?
    ensures Untouched(s, Exec(s, Mallocs(Sized(c, d, kinds))).value, c)
  {
    var a := Sized(c, d, kinds);
    MallocsOk(s, a);
    var r := Exec(s, Mallocs(a)).value;
    forall b: BufId | !(b.Layer? && b.index == c)
      ensures (b in r.cap <==> b in s.cap) && (b in s.cap ==> r.cap[b] == s.cap[b]) && Keeps(s, r, b)
    {
      assert !Among(b, a);
    }
  }

  lemma FrontMallocsOk(s: State, c: nat, d: Dims)
    ensures Exec(s, Mallocs(Sized(c, d, [Bias, Weights]))).Ok?
    ensures var r := Exec(s, Mallocs(Sized(c, d, [Bias, Weights]))).value;
            && Layer(c, Bias) in r.cap && r.cap[Layer(c, Bias)] == d.outSize
            && Layer(c, Weights) in r.cap && r.cap[Layer(c, Weights)] == d.inSize * d.outSize
            && Untouched(s, r, c)
  {
    var a := Sized(c, d, [Bias, Weights]);
    WorkspaceDistinct(c, d);
    MallocsUntouched(s, c, d, [Bias, Weights]);
    MallocsOk(s, a);
    assert a[0].0 == Layer(c, Bias) && a[1].0 == Layer(c, Weights);
  }

  /** The bias and the weights hold their uploads; no other buffer
      changes. */
  lemma FrontOk(s: State, c: nat, d: Dims)
    ensures Exec(s, FrontCalls(c, d)).Ok?
    ensures var r := Exec(s, FrontCalls(c, d)).value;
            && Layer(c, Bias) in r.cap && r.cap[Layer(c, Bias)] == d.outSize
            && Layer(c, Weights) in r.cap && r.cap[Layer(c, Weights)] == d.inSize * d.outSize
            && Layer(c, Bias) in r.layout && r.layout[Layer(c, Bias)] == Flat(d.outSize)
            && Layer(c, Weights) in r.layout && r.layout[Layer(c, Weights)] == Flat(d.inSize * d.outSize)
            && Untouched(s, r, c)
  {
    var a := Sized(c, d, [Bias, Weights]);
    FrontMallocsOk(s, c, d);
    var s1 := Exec(s, Mallocs(a)).value;
    UploadOk(s1, Layer(c, Bias), d.outSize);
    var s2 := s1.(layout := s1.layout[Layer(c, Bias) := Flat(d.outSize)]);
    UploadOk(s2, Layer(c, Weights), d.inSize * d.outSize);
    var s3 := s2.(layout := s2.layout[Layer(c, Weights) := Flat(d.inSize * d.outSize)]);
    Run2(s1, Upload(Layer(c, Bias), d.outSize), Upload(Layer(c, Weights), d.inSize * d.outSize), s2, s3);
    ExecSplit(s, Mallocs(a), [Upload(Layer(c, Bias), d.outSize), Upload(Layer(c, Weights), d.inSize * d.outSize)], s1);
    UploadsUntouched(s1, s3, c, Flat(d.outSize), Flat(d.inSize * d.outSize));
    UntouchedTrans(s, s1, s3, c);
  }

  lemma UploadsUntouched(s: State, r: State, c: nat, l1: Layout, l2: Layout)
    requires r == s.(layout := s.layout[Layer(c, Bias) := l1][Layer(c, Weights) := l2])
    ensures Untouched(s, r, c)
  {
  }

  /** The workspace allocations give each workspace buffer its capacity and
      keep the weights and biases. */
  lemma WorkspaceOk(s: State, c: nat, d: Dims)
    ensures Exec(s, Mallocs(Sized(c, d, Workspace))).Ok?
    ensures var r := Exec(s, Mallocs(Sized(c, d, Workspace))).value;
            && (forall k :: k != Weights && k != Bias ==> Layer(c, k) in r.cap && r.cap[Layer(c, k)] == LayerCapacity(d, k))
            && Same(s, r, Layer(c, Weights)) && Same(s, r, Layer(c, Bias))
            && Untouched(s, r, c)
  {
    var w := Sized(c, d, Workspace);
    WorkspaceDistinct(c, d);
    WorkspaceCovers(c, d);
    MallocsUntouched(s, c, d, Workspace);
    MallocsOk(s, w);
    var r := Exec(s, Mallocs(w)).value;
    forall k | k != Weights && k != Bias ensures Layer(c, k) in r.cap && r.cap[Layer(c, k)] == LayerCapacity(d, k) {
      var i :| 0 <= i < |w| && w[i].0 == Layer(c, k);
      assert w[i] == (Layer(c, Workspace[i]), LayerCapacity(d, Workspace[i]));
    }
  }

  /** `b` has the same allocation and contents in `r` as in `s`. */
  predicate Same(s: State, r: State, b: BufId) {
    (b in r.cap <==> b in s.cap) && (b in s.cap ==> r.cap[b] == s.cap[b]) && Keeps(s, r, b)
  }

  /** create_node leaves its layer ready and touches no other buffer. */
  lemma CreateNodeOk(s: State, c: nat, d: Dims)
    requires forall k :: Layer(c, k) !in s.cap
    ensures Exec(s, CreateNodeCalls(c, d)).Ok?
    ensures var r := Exec(s, CreateNodeCalls(c, d)).value;
            NodeReady(r, c, d) && Untouched(s, r, c)
  {
    FrontOk(s, c, d);
    var s3 := Exec(s, FrontCalls(c, d)).value;
    WorkspaceOk(s3, c, d);
    var r := Exec(s3, Mallocs(Sized(c, d, Workspace))).value;
    ExecSplit(s, FrontCalls(c, d), Mallocs(Sized(c, d, Workspace)), s3);
    UntouchedTrans(s, s3, r, c);
    assert LayerCapacity(d, Weights) == d.inSize * d.outSize;
  }

  /** The layers created so far are ready; nothing else is allocated. */
  predicate Built(s: State, ds: seq<Dims>, n: nat)
    requires n <= |ds|
  {
    && (forall c :: 0 <= c < n ==> NodeReady(s, c, ds[c]))
    && (forall b: BufId :: b in s.cap ==> b.Layer? && b.index < n)
  }

  /** add_node for the first `n` layers, from an empty device. */
  lemma {:induction false} NetworkOk(ds: seq<Dims>, n: nat)
    requires n <= |ds|
    ensures Exec(Empty, NetworkCalls(ds, n)).Ok?
    ensures Built(Exec(Empty, NetworkCalls(ds, n)).value, ds, n)
    decreases n
  {
    if n > 0 {
      NetworkOk(ds, n - 1);
      var s := Exec(Empty, NetworkCalls(ds, n - 1)).value;
      CreateNodeOk(s, n - 1, ds[n - 1]);
      var r := Exec(s, CreateNodeCalls(n - 1, ds[n - 1])).value;
      ExecSplit(Empty, NetworkCalls(ds, n - 1), CreateNodeCalls(n - 1, ds[n - 1]), s);
      BuiltStep(s, r, ds, n);
    }
  }

  /** Adding the node at position `n - 1` extends what is built. */
  lemma BuiltStep(s: State, r: State, ds: seq<Dims>, n: nat)
    requires 0 < n <= |ds| && Built(s, ds, n - 1)
    requires NodeReady(r, n - 1, ds[n - 1])
    requires forall b: BufId :: !(b.Layer? && b.index == n - 1) ==>
               (b in r.cap <==> b in s.cap) && (b in s.cap ==> r.cap[b] == s.cap[b]) && Keeps(s, r, b)
    ensures Built(r, ds, n)
  {
    forall c | 0 <= c < n ensures NodeReady(r, c, ds[c]) {
      if c < n - 1 {
        NodeKept(s, r, c, ds[c]);
      }
    }
    forall b: BufId | b in r.cap ensures b.Layer? && b.index < n {
      if !(b.Layer? && b.index == n - 1) {
        assert b in s.cap;
      }
    }
  }

  /** A ready layer stays ready while its buffers are left alone. */
  lemma NodeKept(s: State, r: State, c: nat, d: Dims)
    requires NodeReady(s, c, d)
    requires forall b: BufId :: b.Layer? && b.index == c ==>
               (b in r.cap <==> b in s.cap) && (b in s.cap ==> r.cap[b] == s.cap[b]) && Keeps(s, r, b)
    ensures NodeReady(r, c, d)
  {
    forall k ensures Layer(c, k) in r.cap && r.cap[Layer(c, k)] == LayerCapacity(d, k) {
      assert Layer(c, k) in s.cap;
    }
    assert Keeps(s, r, Layer(c, Weights)) && Keeps(s, r, Layer(c, Bias));
  }

  /** Setting up from an empty device allocates every buffer with the size a
      training step relies on, and loads every layer's weights and biases. */
  lemma SetupOk(ds: seq<Dims>, res: Dims)
    ensures Exec(Empty, SetupCalls(ds, res)).Ok?
    ensures var s := Exec(Empty, SetupCalls(ds, res)).value;
            Allocated(s.cap, ds, res) && Initialised(s, ds)
  {
    NetworkOk(ds, |ds|);
    var s := Exec(Empty, NetworkCalls(ds, |ds|)).value;
    ReserveOk(s, ds, res);
    ExecSplit(Empty, NetworkCalls(ds, |ds|), ReserveCalls(res), s);
  }

  /** The shared buffers of the reservation, with their sizes. */
  function Reservation(res: Dims): seq<(BufId, nat)> {
    [(X, res.inSize * res.batchSize), (XT, res.inSize * res.batchSize),
     (Y, res.outSize * res.batchSize), (YT, res.outSize * res.batchSize),
     (CostDerivative, res.outSize * res.batchSize), (Cost, res.outSize * res.batchSize)]
  }

  lemma ReservationShared(res: Dims)
    ensures Distinct(Reservation(res))
    ensures forall b: BufId :: b.Layer? ==> !Among(b, Reservation(res))
  {
  }

  /** reserve_input_memory allocates the shared buffers with their sizes. */
  lemma ReserveAllocates(s: State, res: Dims)
    ensures Exec(s, ReserveCalls(res)).Ok?
    ensures var r := Exec(s, ReserveCalls(res)).value;
            && X in r.cap && r.cap[X] == res.inSize * res.batchSize
            && XT in r.cap && r.cap[XT] == res.inSize * res.batchSize
            && Y in r.cap && r.cap[Y] == res.outSize * res.batchSize
            && YT in r.cap && r.cap[YT] == res.outSize * res.batchSize
            && CostDerivative in r.cap && r.cap[CostDerivative] == res.outSize * res.batchSize
            && Cost in r.cap && r.cap[Cost] == res.outSize * res.batchSize
  {
    var bs := Reservation(res);
    ReservationShared(res);
    MallocsOk(s, bs);
    var r := Exec(s, Mallocs(bs)).value;
    assert r.cap[bs[0].0] == bs[0].1 && r.cap[bs[1].0] == bs[1].1 && r.cap[bs[2].0] == bs[2].1;
    assert r.cap[bs[3].0] == bs[3].1 && r.cap[bs[4].0] == bs[4].1 && r.cap[bs[5].0] == bs[5].1;
  }

  /** reserve_input_memory leaves every layer buffer alone. */
  lemma ReserveKeepsLayers(s: State, res: Dims)
    ensures Exec(s, ReserveCalls(res)).Ok?
    ensures var r := Exec(s, ReserveCalls(res)).value;
            forall b: BufId :: b.Layer? ==>
              (b in r.cap <==> b in s.cap) && (b in s.cap ==> r.cap[b] == s.cap[b]) && Keeps(s, r, b)
  {
    ReservationShared(res);
    MallocsOk(s, Reservation(res));
  }

  /** reserve_input_memory after the layers completes what a step needs. */
  lemma ReserveOk(s: State, ds: seq<Dims>, res: Dims)
    requires Built(s, ds, |ds|)
    ensures Exec(s, ReserveCalls(res)).Ok?
    ensures var r := Exec(s, ReserveCalls(res)).value;
            Allocated(r.cap, ds, res) && Initialised(r, ds)
  {
    ReserveAllocates(s, res);
    ReserveKeepsLayers(s, res);
    var r := Exec(s, ReserveCalls(res)).value;
    forall c | 0 <= c < |ds| ensures NodeReady(r, c, ds[c]) {
      assert NodeReady(s, c, ds[c]);
      NodeKept(s, r, c, ds[c]);
    }
  }

  /** A network set up by add_node and reserve_input_memory, with chained
      layer sizes and a mini batch that fits every buffer, trains one step
      without a single ill-defined call. */
  lemma SetupThenTrainOk(ds: seq<Dims>, res: Dims, B: nat)
    requires |ds| >= 1 && Chained(ds) && BatchFits(ds, res, B)
    ensures Exec(Empty, SetupCalls(ds, res) + TrainingStep(ds, B)).Ok?
  {
    SetupOk(ds, res);
    var s := Exec(Empty, SetupCalls(ds, res)).value;
    TrainingStepOk(s, ds, res, B);
    ExecSplit(Empty, SetupCalls(ds, res), TrainingStep(ds, B), s);
  }
}
