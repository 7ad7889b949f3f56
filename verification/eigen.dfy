/** cuda_eigenvectors (ML/MVKernels.c:874-1025) and cuda_project_results
    (ML/MVKernels.c:1027-1085) on the accelerator, and the host loop that
    decides how many QR iterations run.

    The eigenvectors start from the caller's `pQH x pQW` matrix pQ.  Each
    iteration factors the covariance as Q R, multiplies pQ by Q into pQ2,
    copies pQ2 back into pQ and asks the accelerator whether R Q has
    converged.  Afterwards the columns get their signs and are sorted by
    their sums (see module Ordering), and the projection multiplies the
    z-scores by the leading columns.

    The reorder at lines 977-978 is modelled twice: as written (reading pQ2,
    writing pQ, then copying pQ2 over pQ) and as evidently intended (reading
    pQ, writing pQ2, then copying pQ2 into pQ).
 */
module Eigen {
  import opened Buffers
  import opened Device
  import opened Steps
  import K = Kernels
  import Qr
  import Covariance
  import opened Contents

  // ---------------------------------------------------------------------
  // The host loop

  /** The loop at lines 941-951.  `reports[j]` is the convergence flag the
      accelerator reports after iteration `j` (true: not yet converged).
      The condition `host_unconverged == 1 && iterations++ < max_iterations`
      increments the counter whenever it is tested with the flag set.
      `runs` counts the iterations of the body. */
  method Iterate(maxIterations: int, reports: seq<bool>) returns (runs: nat, iterations: int)
    requires maxIterations <= |reports|
    ensures maxIterations <= 0 ==> runs == 0
    ensures runs <= maxIterations || runs == 0
    ensures forall j :: 0 <= j < runs - 1 ==> reports[j]
    ensures runs < maxIterations ==> runs > 0 && !reports[runs - 1]
    ensures runs > 0 && !reports[runs - 1] ==> iterations == runs
    ensures runs == 0 || reports[runs - 1] ==> iterations == runs + 1
  {
    iterations := 0;
    runs := 0;
    var unconverged := true;
    while true
      invariant iterations == runs && runs <= |reports|
      invariant runs <= maxIterations || runs == 0
      invariant forall j :: 0 <= j < runs - 1 ==> reports[j]
      invariant unconverged == (runs == 0 || reports[runs - 1])
      decreases if iterations <= maxIterations then maxIterations - iterations else 0
    {
      if !unconverged {
        break;
      }
      var tested := iterations;
      iterations := iterations + 1;
      if !(tested < maxIterations) {
        break;
      }
      unconverged := reports[runs];
      runs := runs + 1;
    }
  }

  // ---------------------------------------------------------------------
  // The accelerator schedule

  /** The working buffers of lines 930-934, all `pQW * pQH` values except
      the `pQW` column sums. */
  function Allocations(h: nat, w: nat): seq<(BufId, nat)> {
    [(PQ, w * h), (PQ2, w * h), (R, w * h), (Q, w * h), (Sums, w)]
  }

  /** The allocations and the upload of pQ (line 939). */
  function Setup(h: nat, w: nat): seq<Call> {
    Mallocs(Allocations(h, w)) + [Upload(PQ, w * h)]
  }

  /** The loop body after the factorisation (lines 945-949): pQ2 := pQ Q,
      copied back into pQ, and R Q written over the covariance. */
  function Rotate(h: nat, w: nat): seq<Call> {
    [K.Matmul(PQ, Q, PQ2, h, w, w), Copy(PQ2, PQ, h * w), K.MatmulCheckConverged(R, Q, Cov, h, w, w)]
  }

  /** One pass of the loop body (lines 944-950). */
  function Iteration(initialised: bool, h: nat, w: nat): seq<Call> {
    Qr.Calls(initialised, h, w) + Rotate(h, w)
  }

  /** `k` passes; only the first can find the QR flag clear. */
  function Iterations(initialised: bool, k: nat, h: nat, w: nat): seq<Call>
    decreases k
  {
    if k == 0 then [] else Iteration(initialised, h, w) + Iterations(true, k - 1, h, w)
  }

  /** The signs, their read-back and the upload of the sorted column order
      (lines 960-976; the sort itself is module Ordering). */
  function Signs(h: nat, w: nat): seq<Call> {
    [K.EigenvectorSigns(PQ, Sums, h, w), Download(Sums, w), Malloc(SumIndices, w), Upload(SumIndices, w)]
  }

  /** Lines 977-978 as written. */
  function ReorderAsWritten(h: nat, w: nat): seq<Call> {
    [K.ReorderEigenvectors(PQ2, PQ, SumIndices, h, w), Copy(PQ2, PQ, h * w)]
  }

  /** Lines 977-978 as evidently intended: sort pQ into pQ2, copy back. */
  function Reorder(h: nat, w: nat): seq<Call> {
    [K.ReorderEigenvectors(PQ, PQ2, SumIndices, h, w), Copy(PQ2, PQ, h * w)]
  }

  /** The frees and the read-back of the result (lines 980-985). */
  function Release(h: nat, w: nat): seq<Call> {
    [Free(R), Free(Q), Download(PQ, w * h)]
  }

  function Tail(n: nat): seq<Call> {
    Signs(n, n) + (Reorder(n, n) + Release(n, n))
  }

  function TailAsWritten(n: nat): seq<Call> {
    Signs(n, n) + (ReorderAsWritten(n, n) + Release(n, n))
  }

  /** cuda_eigenvectors on a square `n x n` pQ, running `k` iterations. */
  function Calls(initialised: bool, k: nat, n: nat): seq<Call> {
    Setup(n, n) + (Iterations(initialised, k, n, n) + Tail(n))
  }

  function CallsAsWritten(initialised: bool, k: nat, n: nat): seq<Call> {
    Setup(n, n) + (Iterations(initialised, k, n, n) + TailAsWritten(n))
  }

  /** The projection (lines 1052-1063): a `CCH x projected_columns` result. */
  function Projection(cch: nat, ccw: nat, columns: nat): seq<Call> {
    [Malloc(Buffers.Projection, columns * cch), K.PartialMatmul(Z, PQ, Buffers.Projection, cch, ccw, ccw, columns),
     Download(Buffers.Projection, cch * columns)]
  }

  // ---------------------------------------------------------------------
  // Frames

  predicate Touched(b: BufId) {
    Qr.Touched(b) || b == PQ || b == PQ2 || b == Cov || b == Sums || b == SumIndices
  }

  /** `b` has the same allocation and contents in `r` as in `s`. */
  predicate Same(s: State, r: State, b: BufId) {
    (b in r.cap <==> b in s.cap) && (b in s.cap ==> r.cap[b] == s.cap[b]) && Keeps(s, r, b)
  }

  ghost predicate Outside(s: State, r: State) {
    forall b: BufId :: !Touched(b) ==> Same(s, r, b)
  }

  lemma OutsideTrans(a: State, b: State, c: State)
    requires Outside(a, b) && Outside(b, c)
    ensures Outside(a, c)
  {
  }

  /** What every iteration finds and keeps: the covariance, room for Q, R
      and the sums, and pQ as an `n x n` matrix with room for pQ2. */
  predicate Looping(s: State, n: nat) {
    && n > 0 && Qr.Operands(s, n, n) && Has(s, PQ, n, n) && Room(s, PQ, n * n) && Room(s, PQ2, n * n)
    && Room(s, Sums, n)
  }

  // ---------------------------------------------------------------------
  // Setup

  lemma AllocationsOk(s: State, n: nat)
    ensures Exec(s, Mallocs(Allocations(n, n))).Ok?
    ensures var r := Exec(s, Mallocs(Allocations(n, n))).value;
            && Room(r, PQ, n * n) && Room(r, PQ2, n * n) && Room(r, R, n * n) && Room(r, Q, n * n)
            && Room(r, Sums, n) && PQ2 !in r.layout && Outside(s, r)
  {
    var bs := Allocations(n, n);
    AllocationsRoom(s, n);
    AllocationsKeep(s, n);
    var r := Exec(s, Mallocs(bs)).value;
    forall b: BufId | !Touched(b) ensures Same(s, r, b) {
      UntouchedNotAllocated(n, b);
    }
  }

  lemma AllocationsRoom(s: State, n: nat)
    ensures Exec(s, Mallocs(Allocations(n, n))).Ok?
    ensures var r := Exec(s, Mallocs(Allocations(n, n))).value;
            && Room(r, PQ, n * n) && Room(r, PQ2, n * n) && Room(r, R, n * n) && Room(r, Q, n * n)
            && Room(r, Sums, n) && PQ2 !in r.layout
  {
    var bs := Allocations(n, n);
    MallocsOk(s, bs);
    assert bs[0].0 == PQ && bs[1].0 == PQ2 && bs[2].0 == R && bs[3].0 == Q && bs[4].0 == Sums;
  }

  lemma UntouchedNotAllocated(n: nat, b: BufId)
    requires !Touched(b)
    ensures !Among(b, Allocations(n, n))
  {
  }

  /** The allocations leave the covariance and the QR workspace alone. */
  lemma AllocationsKeep(s: State, n: nat)
    ensures Exec(s, Mallocs(Allocations(n, n))).Ok?
    ensures var r := Exec(s, Mallocs(Allocations(n, n))).value;
            forall b: BufId :: !Among(b, Allocations(n, n)) ==> Same(s, r, b)
  {
    MallocsOk(s, Allocations(n, n));
  }

  lemma NotAllocated(n: nat)
    ensures !Among(Cov, Allocations(n, n)) && !Among(L2Norm, Allocations(n, n))
    ensures !Among(Dotp, Allocations(n, n)) && !Among(RT, Allocations(n, n))
  {
    var bs := Allocations(n, n);
    assert bs[0].0 == PQ && bs[1].0 == PQ2 && bs[2].0 == R && bs[3].0 == Q && bs[4].0 == Sums;
  }

  lemma SetupOk(s: State, initialised: bool, n: nat)
    requires n > 0 && Has(s, Cov, n, n) && Room(s, Cov, n * n) && Qr.FlagInv(s, initialised, n, n)
    ensures Exec(s, Setup(n, n)).Ok?
    ensures var r := Exec(s, Setup(n, n)).value;
            && Looping(r, n) && Qr.FlagInv(r, initialised, n, n) && Outside(s, r) && PQ2 !in r.layout
  {
    AllocationsOk(s, n);
    AllocationsKeep(s, n);
    NotAllocated(n);
    var s1 := Exec(s, Mallocs(Allocations(n, n))).value;
    var s2 := s1.(layout := s1.layout[PQ := Flat(n * n)]);
    UploadOk(s1, PQ, n * n);
    Run1(s1, Upload(PQ, n * n), s2);
    ExecSplit(s, Mallocs(Allocations(n, n)), [Upload(PQ, n * n)], s1);
    forall b: BufId | !Touched(b) ensures Same(s1, s2, b) {
    }
    OutsideTrans(s, s1, s2);
  }

  /** The setup leaves the dot-product workspace as it found it. */
  lemma SetupKeepsDotp(s: State, n: nat)
    requires n > 0 && Has(s, Cov, n, n) && Room(s, Cov, n * n) && Dotp in s.cap
    ensures Exec(s, Setup(n, n)).Ok?
    ensures var r := Exec(s, Setup(n, n)).value;
            Dotp in r.cap && r.cap[Dotp] == s.cap[Dotp]
  {
    AllocationsOk(s, n);
    AllocationsKeep(s, n);
    NotAllocated(n);
    var s1 := Exec(s, Mallocs(Allocations(n, n))).value;
    assert Same(s, s1, Dotp);
    var s2 := s1.(layout := s1.layout[PQ := Flat(n * n)]);
    UploadOk(s1, PQ, n * n);
    Run1(s1, Upload(PQ, n * n), s2);
    ExecSplit(s, Mallocs(Allocations(n, n)), [Upload(PQ, n * n)], s1);
  }

  /** The QR flag records only that the workspace exists.  With the flag set
      by an earlier, narrower matrix, lines 846-851 skip the allocation and
      the first factorisation overflows the dot-product buffer; calling
      cuda_qr_get_q_and_r_cleanup in between clears the flag
      (Qr.CleanupOk). */
  lemma EigenvectorsAfterNarrowerFails(s: State, k: nat, n: nat)
    requires n > 0 && k > 0 && Has(s, Cov, n, n) && Room(s, Cov, n * n)
    requires Dotp in s.cap && s.cap[Dotp] < n
    ensures Exec(s, Calls(true, k, n)) == Err(Overflow(Dotp, n, s.cap[Dotp]))
  {
    SetupOk(s, false, n);
    SetupKeepsDotp(s, n);
    var s1 := Exec(s, Setup(n, n)).value;
    Qr.InitialisedTooSmallFails(s1, n, n);
    ExecStops(s1, Qr.Calls(true, n, n), Rotate(n, n));
    ExecStops(s1, Iteration(true, n, n), Iterations(true, k - 1, n, n));
    ExecStops(s1, Iterations(true, k, n, n), Tail(n));
    ExecSplit(s, Setup(n, n), Iterations(true, k, n, n) + Tail(n), s1);
  }

  // ---------------------------------------------------------------------
  // Iterations

  /** What the factorisation leaves, seen from the loop. */
  lemma QrKeepsLooping(s: State, initialised: bool, n: nat)
    requires Looping(s, n) && Qr.FlagInv(s, initialised, n, n)
    ensures var q := Qr.QrResult(s, initialised, n);
            && Looping(q, n) && Qr.Workspace(q, n, n) && Has(q, Q, n, n) && Has(q, R, n, n)
  {
  }

  lemma QrFrame(s: State, initialised: bool, n: nat)
    ensures Outside(s, Qr.QrResult(s, initialised, n))
  {
    var q := Qr.QrResult(s, initialised, n);
    Qr.QrResultFrame(s, initialised, n);
    forall b: BufId | !Touched(b) ensures Same(s, q, b) {
      assert !Qr.Touched(b);
    }
  }

  function RotateResult(s: State, n: nat): State {
    s.(layout := s.layout[PQ2 := Matrix(n, n)][PQ := Matrix(n, n)][Cov := Matrix(n, n)])
  }

  lemma RotateExec(s: State, n: nat)
    requires Looping(s, n) && Has(s, Q, n, n) && Has(s, R, n, n)
    ensures Exec(s, Rotate(n, n)) == Ok(RotateResult(s, n))
  {
    var s1 := s.(layout := s.layout[PQ2 := Matrix(n, n)]);
    MatmulOk(s, PQ, Q, PQ2, n, n, n);
    CopyOk(s1, PQ2, PQ, n, n, n * n);
    var s2 := s1.(layout := s1.layout[PQ := Matrix(n, n)]);
    MatmulOk(s2, R, Q, Cov, n, n, n);
    Run3(s, K.Matmul(PQ, Q, PQ2, n, n, n), Copy(PQ2, PQ, n * n), K.MatmulCheckConverged(R, Q, Cov, n, n, n),
         s1, s2, RotateResult(s, n));
  }

  lemma RotateKeeps(s: State, n: nat)
    requires Looping(s, n) && Qr.Workspace(s, n, n)
    ensures var r := RotateResult(s, n);
            Looping(r, n) && Qr.Workspace(r, n, n) && Has(r, PQ2, n, n) && Outside(s, r)
  {
    var r := RotateResult(s, n);
    forall b: BufId | !Touched(b) ensures Same(s, r, b) {
    }
  }

  function IterationResult(s: State, initialised: bool, n: nat): State {
    RotateResult(Qr.QrResult(s, initialised, n), n)
  }

  /** One iteration keeps the loop's buffers, sets up the QR workspace and
      leaves pQ2 as an `n x n` matrix. */
  lemma IterationOk(s: State, initialised: bool, n: nat)
    requires Looping(s, n) && Qr.FlagInv(s, initialised, n, n)
    ensures Exec(s, Iteration(initialised, n, n)) == Ok(IterationResult(s, initialised, n))
    ensures var r := IterationResult(s, initialised, n);
            && Looping(r, n) && Qr.Workspace(r, n, n) && Has(r, PQ2, n, n) && Outside(s, r)
  {
    Qr.QrExec(s, initialised, n);
    QrKeepsLooping(s, initialised, n);
    QrFrame(s, initialised, n);
    var q := Qr.QrResult(s, initialised, n);
    RotateExec(q, n);
    RotateKeeps(q, n);
    ExecSplit(s, Qr.Calls(initialised, n, n), Rotate(n, n), q);
    OutsideTrans(s, q, IterationResult(s, initialised, n));
  }

  /** `k` iterations are well defined; after at least one, pQ2 holds an
      `n x n` matrix and the QR workspace exists, so the flag may stay set. */
  lemma {:induction false} IterationsOk(s: State, initialised: bool, k: nat, n: nat)
    requires Looping(s, n) && Qr.FlagInv(s, initialised, n, n)
    ensures Exec(s, Iterations(initialised, k, n, n)).Ok?
    ensures var r := Exec(s, Iterations(initialised, k, n, n)).value;
            && Looping(r, n) && Qr.FlagInv(r, initialised || k > 0, n, n) && Outside(s, r)
            && (k > 0 ==> Has(r, PQ2, n, n))
            && (k == 0 ==> r == s)
    decreases k
  {
    if k > 0 {
      var a := Iteration(initialised, n, n);
      var rest := Iterations(true, k - 1, n, n);
      assert Iterations(initialised, k, n, n) == a + rest;
      IterationOk(s, initialised, n);
      var s1 := IterationResult(s, initialised, n);
      IterationsOk(s1, true, k - 1, n);
      var r := Exec(s1, rest).value;
      ExecSplit(s, a, rest, s1);
      OutsideTrans(s, s1, r);
    } else {
      assert Iterations(initialised, k, n, n) == [];
    }
  }

  // ---------------------------------------------------------------------
  // Signs, reorder, release

  function SignsResult(s: State, n: nat): State {
    var s1 := s.(layout := s.layout[Sums := Matrix(1, n)][PQ := Matrix(n, n)]);
    State(s1.cap[SumIndices := n], (s1.layout - {SumIndices})[SumIndices := Flat(n)])
  }

  lemma SignsExec(s: State, n: nat)
    requires Looping(s, n)
    ensures Exec(s, Signs(n, n)) == Ok(SignsResult(s, n))
  {
    var s1 := s.(layout := s.layout[Sums := Matrix(1, n)][PQ := Matrix(n, n)]);
    WholeOk(s, PQ, n, n);
    KernelStep2(s, EigenvectorSigns, [K.W(PQ, n, n)], K.W(Sums, 1, n), K.W(PQ, n, n));
    DownloadOk(s1, Sums, n);
    var s3 := State(s1.cap[SumIndices := n], s1.layout - {SumIndices});
    UploadOk(s3, SumIndices, n);
    Run4(s, K.EigenvectorSigns(PQ, Sums, n, n), Download(Sums, n), Malloc(SumIndices, n), Upload(SumIndices, n),
         s1, s1, s3, SignsResult(s, n));
  }

  lemma SignsKeeps(s: State, n: nat)
    requires Looping(s, n)
    ensures var r := SignsResult(s, n);
            && Looping(r, n) && Has(r, SumIndices, 1, n) && Room(r, SumIndices, n)
            && Same(s, r, PQ2) && Outside(s, r) && (Qr.Workspace(s, n, n) ==> Qr.Workspace(r, n, n))
  {
    var r := SignsResult(s, n);
    forall b: BufId | !Touched(b) ensures Same(s, r, b) {
    }
  }

  function ReorderResult(s: State, n: nat): State {
    s.(layout := s.layout[PQ2 := Matrix(n, n)][PQ := Matrix(n, n)])
  }

  lemma ReorderExec(s: State, n: nat)
    requires Looping(s, n) && Has(s, SumIndices, 1, n) && Room(s, SumIndices, n)
    ensures Exec(s, Reorder(n, n)) == Ok(ReorderResult(s, n))
  {
    var s1 := s.(layout := s.layout[PQ2 := Matrix(n, n)]);
    WholeOk(s, PQ, n, n);
    WholeOk(s, SumIndices, 1, n);
    KernelStep(s, ReorderEigenvectors, [K.W(PQ, n, n), K.W(SumIndices, 1, n)], K.W(PQ2, n, n));
    CopyOk(s1, PQ2, PQ, n, n, n * n);
    Run2(s, K.ReorderEigenvectors(PQ, PQ2, SumIndices, n, n), Copy(PQ2, PQ, n * n), s1, ReorderResult(s, n));
  }

  lemma ReorderKeeps(s: State, n: nat)
    requires Looping(s, n)
    ensures var r := ReorderResult(s, n);
            Looping(r, n) && Outside(s, r) && (Qr.Workspace(s, n, n) ==> Qr.Workspace(r, n, n))
  {
    var r := ReorderResult(s, n);
    forall b: BufId | !Touched(b) ensures Same(s, r, b) {
    }
  }

  /** As written, the reorder reads pQ2, which only an iteration writes,
      and then copies that pQ2 back over its own result. */
  function ReorderAsWrittenResult(s: State): State
    requires PQ2 in s.layout
  {
    s.(layout := s.layout[PQ := s.layout[PQ2]])
  }

  lemma ReorderAsWrittenExec(s: State, n: nat)
    requires Looping(s, n) && Has(s, SumIndices, 1, n) && Room(s, SumIndices, n)
    ensures Has(s, PQ2, n, n) ==> Exec(s, ReorderAsWritten(n, n)) == Ok(ReorderAsWrittenResult(s))
    ensures PQ2 !in s.layout ==> Exec(s, ReorderAsWritten(n, n)) == Err(Unwritten(PQ2))
  {
    var c := K.ReorderEigenvectors(PQ2, PQ, SumIndices, n, n);
    assert ReorderAsWritten(n, n) == [c] + [Copy(PQ2, PQ, n * n)];
    ExecCons(s, c, [Copy(PQ2, PQ, n * n)]);
    if Has(s, PQ2, n, n) {
      var s1 := s.(layout := s.layout[PQ := Matrix(n, n)]);
      WholeOk(s, PQ2, n, n);
      WholeOk(s, SumIndices, 1, n);
      KernelStep(s, ReorderEigenvectors, [K.W(PQ2, n, n), K.W(SumIndices, 1, n)], K.W(PQ, n, n));
      CopyOk(s1, PQ2, PQ, n, n, n * n);
      assert s1.(layout := s1.layout[PQ := s1.layout[PQ2]]) == ReorderAsWrittenResult(s);
      Run1(s1, Copy(PQ2, PQ, n * n), ReorderAsWrittenResult(s));
    } else if PQ2 !in s.layout {
      var all := [K.W(PQ2, n, n), K.W(SumIndices, 1, n), K.W(PQ, n, n)];
      assert c.inputs + c.outputs == all;
      assert all[1..] == [K.W(SumIndices, 1, n), K.W(PQ, n, n)];
      assert all[1..][1..] == [K.W(PQ, n, n)];
      assert FirstSizeFault(s, all) == Pass;
      assert FirstBadRead(s, c.inputs) == Fail(Unwritten(PQ2));
    }
  }

  lemma ReorderAsWrittenKeeps(s: State, n: nat)
    requires Looping(s, n) && Has(s, PQ2, n, n)
    ensures var r := ReorderAsWrittenResult(s);
            Looping(r, n) && Outside(s, r) && (Qr.Workspace(s, n, n) ==> Qr.Workspace(r, n, n))
  {
    var r := ReorderAsWrittenResult(s);
    forall b: BufId | !Touched(b) ensures Same(s, r, b) {
    }
  }

  function ReleaseResult(s: State): State {
    State(s.cap - {R} - {Q}, s.layout - {R} - {Q})
  }

  lemma ReleaseExec(s: State, n: nat)
    requires Looping(s, n)
    ensures Exec(s, Release(n, n)) == Ok(ReleaseResult(s))
  {
    var s1 := State(s.cap - {R}, s.layout - {R});
    DownloadOk(ReleaseResult(s), PQ, n * n);
    Run3(s, Free(R), Free(Q), Download(PQ, n * n), s1, ReleaseResult(s), ReleaseResult(s));
  }

  lemma ReleaseKeeps(s: State, initialised: bool, n: nat)
    requires Looping(s, n) && Qr.FlagInv(s, initialised, n, n)
    ensures var r := ReleaseResult(s);
            && Has(r, PQ, n, n) && Room(r, PQ, n * n) && Q !in r.cap && R !in r.cap
            && Qr.FlagInv(r, initialised, n, n) && Outside(s, r)
  {
    var r := ReleaseResult(s);
    forall b: BufId | !Touched(b) ensures Same(s, r, b) {
    }
  }

  // ---------------------------------------------------------------------
  // The whole call

  /** What cuda_eigenvectors leaves when it is well defined: pQ as an
      `n x n` matrix, Q and R freed, the QR workspace kept when any
      iteration ran (the flag stays set; nothing here clears it), and every
      buffer outside its working set untouched. */
  ghost predicate Done(s: State, r: State, initialised: bool, k: nat, n: nat) {
    && Has(r, PQ, n, n) && Room(r, PQ, n * n) && Q !in r.cap && R !in r.cap
    && Qr.FlagInv(r, initialised || k > 0, n, n) && Outside(s, r)
  }

  lemma DoneTrans(s: State, m: State, r: State, initialised: bool, k: nat, n: nat)
    requires Outside(s, m) && Done(m, r, initialised, k, n)
    ensures Done(s, r, initialised, k, n)
  {
    OutsideTrans(s, m, r);
  }

  /** The reorder as intended leaves the result in pQ. */
  lemma TailOk(s: State, initialised: bool, k: nat, n: nat)
    requires Looping(s, n) && Qr.FlagInv(s, initialised || k > 0, n, n)
    ensures Exec(s, Tail(n)).Ok?
    ensures Done(s, Exec(s, Tail(n)).value, initialised, k, n)
  {
    SignsExec(s, n);
    SignsKeeps(s, n);
    var s1 := SignsResult(s, n);
    ReorderExec(s1, n);
    ReorderKeeps(s1, n);
    var s2 := ReorderResult(s1, n);
    ReleaseExec(s2, n);
    ReleaseKeeps(s2, initialised || k > 0, n);
    var s3 := ReleaseResult(s2);
    ExecSplit(s1, Reorder(n, n), Release(n, n), s2);
    ExecSplit(s, Signs(n, n), Reorder(n, n) + Release(n, n), s1);
    OutsideTrans(s, s1, s2);
    OutsideTrans(s, s2, s3);
  }

  lemma TailAsWrittenWritten(s: State, initialised: bool, k: nat, n: nat)
    requires Looping(s, n) && Qr.FlagInv(s, initialised || k > 0, n, n) && Has(s, PQ2, n, n)
    ensures Exec(s, TailAsWritten(n)).Ok?
    ensures Done(s, Exec(s, TailAsWritten(n)).value, initialised, k, n)
  {
    SignsExec(s, n);
    SignsKeeps(s, n);
    var s1 := SignsResult(s, n);
    ReorderAsWrittenExec(s1, n);
    ReorderAsWrittenKeeps(s1, n);
    var s2 := ReorderAsWrittenResult(s1);
    ReleaseExec(s2, n);
    ReleaseKeeps(s2, initialised || k > 0, n);
    var s3 := ReleaseResult(s2);
    ExecSplit(s1, ReorderAsWritten(n, n), Release(n, n), s2);
    ExecSplit(s, Signs(n, n), ReorderAsWritten(n, n) + Release(n, n), s1);
    OutsideTrans(s, s1, s2);
    OutsideTrans(s, s2, s3);
  }

  lemma TailAsWrittenUnwritten(s: State, n: nat)
    requires Looping(s, n) && PQ2 !in s.layout
    ensures Exec(s, TailAsWritten(n)) == Err(Unwritten(PQ2))
  {
    SignsExec(s, n);
    SignsKeeps(s, n);
    var s1 := SignsResult(s, n);
    ReorderAsWrittenExec(s1, n);
    ExecStops(s1, ReorderAsWritten(n, n), Release(n, n));
    ExecSplit(s, Signs(n, n), ReorderAsWritten(n, n) + Release(n, n), s1);
  }

  /** The state the iterations leave, from the state Setup leaves. */
  lemma LoopOk(s: State, initialised: bool, k: nat, n: nat)
    requires n > 0 && Has(s, Cov, n, n) && Room(s, Cov, n * n) && Qr.FlagInv(s, initialised, n, n)
    ensures Exec(s, Setup(n, n) + Iterations(initialised, k, n, n)).Ok?
    ensures var r := Exec(s, Setup(n, n) + Iterations(initialised, k, n, n)).value;
            && Looping(r, n) && Qr.FlagInv(r, initialised || k > 0, n, n) && Outside(s, r)
            && (k > 0 ==> Has(r, PQ2, n, n)) && (k == 0 ==> PQ2 !in r.layout)
  {
    SetupOk(s, initialised, n);
    var s1 := Exec(s, Setup(n, n)).value;
    IterationsOk(s1, initialised, k, n);
    var s2 := Exec(s1, Iterations(initialised, k, n, n)).value;
    ExecSplit(s, Setup(n, n), Iterations(initialised, k, n, n), s1);
    OutsideTrans(s, s1, s2);
  }

  /** cuda_eigenvectors with the reorder as intended, on a square pQ whose
      size matches the covariance, is well defined for every number of
      iterations the loop can run, including none. */
  lemma EigenvectorsOk(s: State, initialised: bool, k: nat, n: nat)
    requires n > 0 && Has(s, Cov, n, n) && Room(s, Cov, n * n) && Qr.FlagInv(s, initialised, n, n)
    ensures Exec(s, Calls(initialised, k, n)).Ok?
    ensures Done(s, Exec(s, Calls(initialised, k, n)).value, initialised, k, n)
  {
    var front := Setup(n, n) + Iterations(initialised, k, n, n);
    LoopOk(s, initialised, k, n);
    var s1 := Exec(s, front).value;
    TailOk(s1, initialised, k, n);
    ExecSplit(s, front, Tail(n), s1);
    assert Calls(initialised, k, n) == front + Tail(n);
    DoneTrans(s, s1, Exec(s1, Tail(n)).value, initialised, k, n);
  }

  /** As written, the same call is well defined when at least one
      iteration runs, and reads pQ2 before anything wrote it when none does
      (`max_iterations <= 0`). */
  lemma EigenvectorsAsWrittenOk(s: State, initialised: bool, k: nat, n: nat)
    requires n > 0 && Has(s, Cov, n, n) && Room(s, Cov, n * n) && Qr.FlagInv(s, initialised, n, n)
    ensures Exec(s, CallsAsWritten(initialised, k, n)).Ok? <==> k > 0
    ensures k == 0 ==> Exec(s, CallsAsWritten(initialised, k, n)) == Err(Unwritten(PQ2))
    ensures k > 0 ==> Done(s, Exec(s, CallsAsWritten(initialised, k, n)).value, initialised, k, n)
  {
    var front := Setup(n, n) + Iterations(initialised, k, n, n);
    LoopOk(s, initialised, k, n);
    var s1 := Exec(s, front).value;
    ExecSplit(s, front, TailAsWritten(n), s1);
    assert CallsAsWritten(initialised, k, n) == front + TailAsWritten(n);
    if k > 0 {
      TailAsWrittenWritten(s1, initialised, k, n);
      DoneTrans(s, s1, Exec(s1, TailAsWritten(n)).value, initialised, k, n);
    } else {
      TailAsWrittenUnwritten(s1, n);
    }
  }

  // ---------------------------------------------------------------------
  // Projection and the whole analysis

  /** cuda_project_results: with the z-scores (`CCH x CCW`) and the
      eigenvectors (`CCW x CCW`) in place, the projection is a
      `CCH x projected_columns` matrix. */
  lemma ProjectionOk(s: State, cch: nat, ccw: nat, columns: nat)
    requires Has(s, Z, cch, ccw) && Room(s, Z, cch * ccw) && Has(s, PQ, ccw, ccw) && Room(s, PQ, ccw * ccw)
    ensures Exec(s, Projection(cch, ccw, columns)).Ok?
    ensures var r := Exec(s, Projection(cch, ccw, columns)).value;
            && Buffers.Projection in r.layout && r.layout[Buffers.Projection] == Matrix(cch, columns)
            && Buffers.Projection in r.cap && r.cap[Buffers.Projection] == columns * cch
  {
    var p := Buffers.Projection;
    var s1 := State(s.cap[p := columns * cch], s.layout - {p});
    PartialMatmulOk(s1, Z, PQ, p, cch, ccw, ccw, columns);
    var s2 := s1.(layout := s1.layout[p := Matrix(cch, columns)]);
    DownloadOk(s2, p, cch * columns);
    Run3(s, Malloc(p, columns * cch), K.PartialMatmul(Z, PQ, p, cch, ccw, ccw, columns), Download(p, cch * columns),
         s1, s2, s2);
  }

  /** Without eigenvectors on the device the projection reads nothing
      valid: projecting before cuda_eigenvectors ever allocated pQ fails. */
  lemma ProjectionFirstFails(s: State, cch: nat, ccw: nat, columns: nat)
    requires ccw > 0 && Has(s, Z, cch, ccw) && Room(s, Z, cch * ccw) && PQ !in s.cap
    ensures Exec(s, Projection(cch, ccw, columns)) == Err(Unallocated(PQ))
  {
    var p := Buffers.Projection;
    var s1 := State(s.cap[p := columns * cch], s.layout - {p});
    var c := K.PartialMatmul(Z, PQ, p, cch, ccw, ccw, columns);
    assert Projection(cch, ccw, columns) == [Malloc(p, columns * cch)] + ([c] + [Download(p, cch * columns)]);
    ExecCons(s, Malloc(p, columns * cch), [c] + [Download(p, cch * columns)]);
    ExecCons(s1, c, [Download(p, cch * columns)]);
    ProductUnallocated(s1, cch, ccw, columns);
  }

  /** The partial product stops at pQ when pQ was never allocated. */
  lemma ProductUnallocated(s: State, cch: nat, ccw: nat, columns: nat)
    requires ccw > 0 && Has(s, Z, cch, ccw) && Room(s, Z, cch * ccw) && PQ !in s.cap
    ensures Step(s, K.PartialMatmul(Z, PQ, Buffers.Projection, cch, ccw, ccw, columns)) == Err(Unallocated(PQ))
  {
    var c := K.PartialMatmul(Z, PQ, Buffers.Projection, cch, ccw, ccw, columns);
    var all := c.inputs + c.outputs;
    assert all[0] == K.W(Z, cch, ccw) && all[1].buf == PQ;
    assert Fits(s, all[0]) && !Fits(s, all[1]);
    assert all[1..][1..] == all[2..];
    assert FirstSizeFault(s, all[1..]) == Fail(Unallocated(PQ));
    assert FirstSizeFault(s, all) == Fail(Unallocated(PQ));
  }

  function Analysis(initialised: bool, k: nat, h: nat, w: nat, columns: nat): seq<Call> {
    Covariance.Calls(h, w) + (Calls(initialised, k, w) + Projection(h, w, columns))
  }

  /** What calculate_covariance hands to cuda_eigenvectors: the
      covariance, and the z-scores the projection reads later. */
  lemma CovarianceHandsOver(s: State, h: nat, w: nat)
    requires 0 < w <= h
    ensures Exec(s, Covariance.Calls(h, w)).Ok?
    ensures var r := Exec(s, Covariance.Calls(h, w)).value;
            Has(r, Cov, w, w) && Room(r, Cov, w * w) && Has(r, Z, h, w) && Room(r, Z, h * w)
  {
    Covariance.CovarianceOk(s, h, w);
    var r := Exec(s, Covariance.Calls(h, w)).value;
    CapacitiesSuffice(r, h, w);
  }

  lemma CapacitiesSuffice(r: State, h: nat, w: nat)
    requires w <= h && Covariance.Allocated(r, h, w)
    ensures Room(r, Cov, w * w) && Room(r, Z, h * w)
  {
    assert Covariance.Touched(Cov) && Covariance.Touched(Z);
    MulLe(w, h, w);
    assert w * h == h * w;
  }

  /** calculate_covariance leaves the QR workspace alone. */
  lemma CovarianceKeepsFlag(s: State, initialised: bool, h: nat, w: nat)
    requires 0 < w <= h && Qr.FlagInv(s, initialised, w, w)
    ensures Exec(s, Covariance.Calls(h, w)).Ok?
    ensures Qr.FlagInv(Exec(s, Covariance.Calls(h, w)).value, initialised, w, w)
  {
    Covariance.CovarianceOk(s, h, w);
    var r := Exec(s, Covariance.Calls(h, w)).value;
    if initialised {
      assert !Covariance.Touched(L2Norm) && !Covariance.Touched(Dotp) && !Covariance.Touched(RT);
    }
  }

  /** What cuda_eigenvectors hands to cuda_project_results. */
  lemma EigenvectorsHandOver(s: State, initialised: bool, k: nat, h: nat, w: nat)
    requires 0 < w && Has(s, Cov, w, w) && Room(s, Cov, w * w) && Has(s, Z, h, w) && Room(s, Z, h * w)
    requires Qr.FlagInv(s, initialised, w, w)
    ensures Exec(s, Calls(initialised, k, w)).Ok?
    ensures var r := Exec(s, Calls(initialised, k, w)).value;
            Has(r, Z, h, w) && Room(r, Z, h * w) && Has(r, PQ, w, w) && Room(r, PQ, w * w)
  {
    EigenvectorsOk(s, initialised, k, w);
    var r := Exec(s, Calls(initialised, k, w)).value;
    assert !Touched(Z);
    assert Same(s, r, Z);
  }

  /** calculate_covariance, cuda_eigenvectors on a `DW x DW` pQ and
      cuda_project_results in sequence: well defined exactly when the data
      has no more columns than rows, and then the projection is
      `DH x projected_columns`. */
  lemma AnalysisOk(s: State, initialised: bool, k: nat, h: nat, w: nat, columns: nat)
    requires h > 0 && w > 0 && Qr.FlagInv(s, initialised, w, w)
    ensures Exec(s, Analysis(initialised, k, h, w, columns)).Ok? <==> w <= h
    ensures w <= h ==>
              var r := Exec(s, Analysis(initialised, k, h, w, columns)).value;
              Buffers.Projection in r.layout && r.layout[Buffers.Projection] == Matrix(h, columns)
  {
    Covariance.CovarianceOk(s, h, w);
    if w <= h {
      CovarianceHandsOver(s, h, w);
      CovarianceKeepsFlag(s, initialised, h, w);
      var s1 := Exec(s, Covariance.Calls(h, w)).value;
      EigenvectorsHandOver(s1, initialised, k, h, w);
      var s2 := Exec(s1, Calls(initialised, k, w)).value;
      ProjectionOk(s2, h, w, columns);
      ExecSplit(s1, Calls(initialised, k, w), Projection(h, w, columns), s2);
      ExecSplit(s, Covariance.Calls(h, w), Calls(initialised, k, w) + Projection(h, w, columns), s1);
    } else {
      ExecStops(s, Covariance.Calls(h, w), Calls(initialised, k, w) + Projection(h, w, columns));
    }
  }
}
