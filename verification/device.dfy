/** The accelerator as the host code sees it: named buffers with a capacity,
    and a sequence of synchronous calls (kernels, transfers, allocations).

    `Exec` is the reference semantics every schedule in this project is
    judged against.  A call is well defined when every buffer it touches is
    allocated, every region fits inside the allocation, and every region a
    kernel reads was last written with the same shape.  Values are not
    tracked here: the kernels' arithmetic is outside the model.
 */
module Device {
  import opened Buffers

  /** One name per kernel declared in nvidia_kernel/CUDAKernel.h. */
  datatype KernelName =
    | Linear | Matmul | PartialMatmul | MatmulCheckConverged
    | Derivative | WeightDerivative | Sigmoid | SigmoidPrime | Transpose
    | UpdateWeights | UpdateBiases | CostAndDerivative | CostOnly
    | CalcMeans | CalcStddev | AssignZScores | CalcCovariance
    | QrColumnMult | QrColumn | QrL2Norm | QrClampR
    | EigenvectorSigns | ReorderEigenvectors

  datatype Call =
    | Kernel(name: KernelName, inputs: seq<Access>, outputs: seq<Access>)
    | Upload(dst: BufId, n: nat)          // gpu_memcpy_to_device[_int], n elements
    | Download(src: BufId, n: nat)        // gpu_memcpy_from_device
    | Copy(src: BufId, dst: BufId, n: nat) // gpu_memcpy_intra_device
    | Malloc(buf: BufId, n: nat)          // gpu_device_malloc[_int], n elements
    | Free(buf: BufId)                    // gpu_free_device
    | NullDeref                           // the host reads a field through a null node pointer

  /** Allocation sizes (in elements) and the layout of the last write. */
  datatype State = State(cap: map<BufId, nat>, layout: map<BufId, Layout>)

  const Empty := State(map[], map[])

  /** Outcome of checking a list of accesses. */
  datatype Check = Pass | Fail(error: Error)

  predicate Fits(s: State, a: Access) {
    a.buf in s.cap && a.region.Extent() <= s.cap[a.buf]
  }

  /** The error for touching `n` elements of `b` when that does not fit. */
  function SizeFault(s: State, b: BufId, n: nat): Error {
    if b !in s.cap then Unallocated(b) else Overflow(b, n, s.cap[b])
  }

  /** The leading `k` columns of an `r x c` matrix are available in a buffer
      laid out as `l`. */
  predicate Covers(l: Layout, r: nat, c: nat, k: nat) {
    || (l == Matrix(r, c) && k <= c)
    || (l == Flat(r * c) && k <= c)
    || (l.Columns? && l.rows == r && l.cols == c && k <= l.done)
  }

  predicate Provides(l: Layout, g: Region) {
    match g
    case Whole(r, c) => Covers(l, r, c, c)
    case Column(r, c, j) => j < c && Covers(l, r, c, j + 1)
    case Leading(r, c, k) => Covers(l, r, c, k)
  }

  /** Reading no columns needs nothing; any other read needs a prior write of
      the same shape. */
  predicate ReadOk(s: State, a: Access) {
    || (a.region.Leading? && a.region.count == 0)
    || (a.buf in s.layout && Provides(s.layout[a.buf], a.region))
  }

  /** The layout a kernel leaves behind when it writes region `g`. */
  function Written(g: Region): Layout {
    match g
    case Whole(r, c) => Matrix(r, c)
    case Column(r, c, j) => Columns(r, c, j + 1)
    case Leading(r, c, k) => Columns(r, c, k)
  }

  /** First access that is unallocated or too large, if any. */
  function FirstSizeFault(s: State, accs: seq<Access>): (r: Check)
    ensures r.Pass? <==> forall k :: 0 <= k < |accs| ==> Fits(s, accs[k])
    ensures r.Fail? ==> exists k :: 0 <= k < |accs| && !Fits(s, accs[k]) &&
                          r.error == SizeFault(s, accs[k].buf, accs[k].region.Extent())
    decreases |accs|
  {
    if |accs| == 0 then Pass
    else if !Fits(s, accs[0]) then Fail(SizeFault(s, accs[0].buf, accs[0].region.Extent()))
    else
      var rest := FirstSizeFault(s, accs[1..]);
      assert forall k :: 1 <= k < |accs| ==> accs[k] == accs[1..][k - 1];
      rest
  }

  /** First read that finds nothing written, or a different shape. */
  function FirstBadRead(s: State, ins: seq<Access>): (r: Check)
    ensures r.Pass? <==> forall k :: 0 <= k < |ins| ==> ReadOk(s, ins[k])
    ensures r.Fail? ==> exists k :: 0 <= k < |ins| && !ReadOk(s, ins[k]) &&
                          (r.error == Unwritten(ins[k].buf) ||
                           (ins[k].buf in s.layout &&
                            r.error == Mismatch(ins[k].buf, s.layout[ins[k].buf], ins[k].region)))
    decreases |ins|
  {
    if |ins| == 0 then Pass
    else if !ReadOk(s, ins[0]) then
      (if ins[0].buf !in s.layout then Fail(Unwritten(ins[0].buf))
       else Fail(Mismatch(ins[0].buf, s.layout[ins[0].buf], ins[0].region)))
    else
      var rest := FirstBadRead(s, ins[1..]);
      assert forall k :: 1 <= k < |ins| ==> ins[k] == ins[1..][k - 1];
      rest
  }

  /** Record the writes of one kernel call, in argument order. */
  function ApplyWrites(layout: map<BufId, Layout>, outs: seq<Access>): map<BufId, Layout>
    decreases |outs|
  {
    if |outs| == 0 then layout
    else ApplyWrites(layout, outs[..|outs| - 1])[outs[|outs| - 1].buf := Written(outs[|outs| - 1].region)]
  }

  /** A buffer no argument writes keeps its layout. */
  lemma {:induction false} ApplyWritesFrame(layout: map<BufId, Layout>, outs: seq<Access>, b: BufId)
    requires forall k :: 0 <= k < |outs| ==> outs[k].buf != b
    ensures b in ApplyWrites(layout, outs) <==> b in layout
    ensures b in layout ==> ApplyWrites(layout, outs)[b] == layout[b]
    decreases |outs|
  {
    if |outs| > 0 {
      var n := |outs| - 1;
      assert forall k :: 0 <= k < n ==> outs[..n][k] == outs[k];
      ApplyWritesFrame(layout, outs[..n], b);
    }
  }

  /** The last argument that writes a buffer decides its layout. */
  lemma {:induction false} ApplyWritesLast(layout: map<BufId, Layout>, outs: seq<Access>, k: nat)
    requires k < |outs|
    requires forall k' :: k < k' < |outs| ==> outs[k'].buf != outs[k].buf
    ensures outs[k].buf in ApplyWrites(layout, outs)
    ensures ApplyWrites(layout, outs)[outs[k].buf] == Written(outs[k].region)
    decreases |outs|
  {
    var n := |outs| - 1;
    if k < n {
      assert forall j :: 0 <= j < n ==> outs[..n][j] == outs[j];
      ApplyWritesLast(layout, outs[..n], k);
    }
  }

  function Step(s: State, c: Call): Result<State> {
    match c
    case Malloc(b, n) =>
      Ok(State(s.cap[b := n], s.layout - {b}))
    case Free(b) =>
      if b !in s.cap then Err(Unallocated(b))
      else Ok(State(s.cap - {b}, s.layout - {b}))
    case Upload(b, n) =>
      if b !in s.cap || n > s.cap[b] then Err(SizeFault(s, b, n))
      else Ok(s.(layout := s.layout[b := Flat(n)]))
    case Download(b, n) =>
      if b !in s.cap || n > s.cap[b] then Err(SizeFault(s, b, n))
      else if b !in s.layout then Err(Unwritten(b))
      else Ok(s)
    case Copy(src, dst, n) =>
      if src !in s.cap || n > s.cap[src] then Err(SizeFault(s, src, n))
      else if dst !in s.cap || n > s.cap[dst] then Err(SizeFault(s, dst, n))
      else if src !in s.layout then Err(Unwritten(src))
      else
        // a copy of the whole last write keeps its shape
        var l := if s.layout[src].Size() == n then s.layout[src] else Flat(n);
        Ok(s.(layout := s.layout[dst := l]))
    case NullDeref =>
      Err(NullLink)
    case Kernel(_, inputs, outputs) =>
      match FirstSizeFault(s, inputs + outputs)
      case Fail(e) => Err(e)
      case Pass =>
        match FirstBadRead(s, inputs)
        case Fail(e) => Err(e)
        case Pass => Ok(s.(layout := ApplyWrites(s.layout, outputs)))
  }

  /** Run the calls in order, stopping at the first one that is not well defined. */
  function Exec(s: State, calls: seq<Call>): Result<State>
    decreases |calls|
  {
    if |calls| == 0 then Ok(s)
    else
      match Step(s, calls[0])
      case Err(e) => Err(e)
      case Ok(s') => Exec(s', calls[1..])
  }

  /** Continue a run that may already have failed. */
  function Then(r: Result<State>, calls: seq<Call>): Result<State> {
    match r
    case Err(e) => Err(e)
    case Ok(s) => Exec(s, calls)
  }

  /** Running two schedules back to back is running their concatenation. */
  lemma {:induction false} ExecAppend(s: State, a: seq<Call>, b: seq<Call>)
    ensures Exec(s, a + b) == Then(Exec(s, a), b)
    decreases |a|
  {
    if |a| == 0 {
      assert a + b == b;
    } else {
      assert (a + b)[0] == a[0];
      assert (a + b)[1..] == a[1..] + b;
      match Step(s, a[0])
      case Err(e) =>
      case Ok(s') =>
        ExecAppend(s', a[1..], b);
    }
  }

  lemma ExecOne(s: State, c: Call)
    ensures Exec(s, [c]) == Step(s, c)
  {
    assert [c][1..] == [];
  }

  /** No call in the schedule allocates or frees. */
  predicate NoAllocation(calls: seq<Call>) {
    forall k :: 0 <= k < |calls| ==> !calls[k].Malloc? && !calls[k].Free?
  }

  /** A schedule without allocations leaves every capacity as it was. */
  lemma {:induction false} ExecKeepsCapacity(s: State, calls: seq<Call>)
    requires NoAllocation(calls)
    requires Exec(s, calls).Ok?
    ensures Exec(s, calls).value.cap == s.cap
    decreases |calls|
  {
    if |calls| > 0 {
      var s' := Step(s, calls[0]).value;
      assert s'.cap == s.cap;
      assert NoAllocation(calls[1..]) by {
        forall k | 0 <= k < |calls[1..]| ensures !calls[1..][k].Malloc? && !calls[1..][k].Free? {
          assert calls[1..][k] == calls[k + 1];
        }
      }
      ExecKeepsCapacity(s', calls[1..]);
    }
  }
}
