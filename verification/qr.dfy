/** cuda_qr_get_q_and_r and its cleanup (ML/MVKernels.c:844-868) on the
    accelerator.

    The workspace (the norm, the dot products and the transposed R) is
    allocated on the first call only, recorded by the host flag
    `cuda_qr_initialised`, and freed by the cleanup, which clears the flag.
    Q is built one column at a time, column `i` from the columns before it,
    so each column step reads the leading `i` columns the earlier steps
    wrote.  The only caller passes device_Cov, device_Q and device_R.
 */
module Qr {
  import opened Buffers
  import opened Device
  import opened Steps
  import K = Kernels
  import opened Contents

  /** The lazy allocation of lines 846-851. */
  function Init(h: nat, w: nat): seq<Call> {
    [Malloc(L2Norm, 1), Malloc(Dotp, w), Malloc(RT, w * h)]
  }

  function Prepare(initialised: bool, h: nat, w: nat): seq<Call> {
    if initialised then [] else Init(h, w)
  }

  /** One pass of the loop at lines 852-856: column `i` of Q. */
  function ColumnStep(h: nat, w: nat, i: nat): seq<Call> {
    [K.QrColumnMult(Cov, Q, Dotp, h, w, i), K.QrColumn(Cov, Q, Dotp, h, w, i), K.QrL2Norm(Q, L2Norm, h, w, i)]
  }

  /** Columns `0 .. k - 1`, in that order. */
  function ColumnLoop(h: nat, w: nat, k: nat): (r: seq<Call>)
    ensures |r| == 3 * k
    decreases k
  {
    if k == 0 then [] else ColumnLoop(h, w, k - 1) + ColumnStep(h, w, k - 1)
  }

  /** R from A and Q, transposed and clamped (lines 857-859). */
  function Finish(h: nat, w: nat): seq<Call> {
    [K.Matmul(Cov, Q, RT, h, w, w), K.Transpose(RT, R, h, w), K.QrClampR(R, h, w)]
  }

  function Calls(initialised: bool, h: nat, w: nat): seq<Call> {
    Prepare(initialised, h, w) + (ColumnLoop(h, w, w) + Finish(h, w))
  }

  /** cuda_qr_get_q_and_r_cleanup (lines 862-868). */
  const Cleanup: seq<Call> := [Free(L2Norm), Free(Dotp), Free(RT)]

  /** The workspace exists with room for an `h x w` problem. */
  predicate Workspace(s: State, h: nat, w: nat) {
    Room(s, L2Norm, 1) && Room(s, Dotp, w) && Room(s, RT, w * h)
  }

  /** What the flag promises: when set, the workspace exists. */
  predicate FlagInv(s: State, initialised: bool, h: nat, w: nat) {
    initialised ==> Workspace(s, h, w)
  }

  /** The caller's buffers: A holds an `h x w` matrix; Q and R have room
      for one. */
  predicate Operands(s: State, h: nat, w: nat) {
    Has(s, Cov, h, w) && Room(s, Cov, h * w) && Room(s, Q, h * w) && Room(s, R, h * w)
  }

  predicate Touched(b: BufId) {
    b == Q || b == R || b == RT || b == Dotp || b == L2Norm
  }

  /** The same state outside Q, R and the workspace. */
  ghost predicate Outside(s: State, r: State) {
    forall b: BufId :: !Touched(b) ==> (b in r.cap <==> b in s.cap) && (b in s.cap ==> r.cap[b] == s.cap[b]) && Keeps(s, r, b)
  }

  // ---------------------------------------------------------------------
  // The lazy allocation

  /** Only a call with the flag clear allocates, and then exactly the
      workspace. */
  lemma PrepareOk(s: State, initialised: bool, h: nat, w: nat)
    requires FlagInv(s, initialised, h, w)
    ensures initialised ==> Exec(s, Prepare(initialised, h, w)) == Ok(s)
    ensures !initialised ==>
              Exec(s, Prepare(initialised, h, w)) ==
              Ok(State(s.cap[L2Norm := 1][Dotp := w][RT := w * h], s.layout - {L2Norm} - {Dotp} - {RT}))
    ensures Workspace(Exec(s, Prepare(initialised, h, w)).value, h, w)
  {
    if !initialised {
      var s1 := State(s.cap[L2Norm := 1], s.layout - {L2Norm});
      var s2 := State(s1.cap[Dotp := w], s1.layout - {Dotp});
      var s3 := State(s2.cap[RT := w * h], s2.layout - {RT});
      Run3(s, Malloc(L2Norm, 1), Malloc(Dotp, w), Malloc(RT, w * h), s1, s2, s3);
    }
  }

  /** With the flag set no call allocates or frees. */
  lemma InitialisedAllocatesNothing(h: nat, w: nat)
    ensures NoAllocation(Calls(true, h, w))
    ensures Calls(false, h, w) == Init(h, w) + Calls(true, h, w)
  {
    var c := Calls(true, h, w);
    assert c == ColumnLoop(h, w, w) + Finish(h, w);
    forall k | 0 <= k < |c| ensures !c[k].Malloc? && !c[k].Free? {
      if k < 3 * w {
        ColumnLoopAt(h, w, w, k / 3);
        assert c[k] == ColumnLoop(h, w, w)[k];
        assert 3 * (k / 3) <= k < 3 * (k / 3) + 3;
        assert ColumnLoop(h, w, w)[k] == ColumnStep(h, w, k / 3)[k - 3 * (k / 3)];
      } else {
        assert c[k] == Finish(h, w)[k - 3 * w];
      }
    }
  }

  // ---------------------------------------------------------------------
  // The column loop

  /** The `j`-th group of three calls of the loop works on column `j`:
      the columns are computed in increasing order. */
  lemma {:induction false} ColumnLoopAt(h: nat, w: nat, k: nat, j: nat)
    requires j < k
    ensures 3 * j + 3 <= |ColumnLoop(h, w, k)|
    ensures ColumnLoop(h, w, k)[3 * j..3 * j + 3] == ColumnStep(h, w, j)
    decreases k
  {
    var prev := ColumnLoop(h, w, k - 1);
    if j < k - 1 {
      ColumnLoopAt(h, w, k - 1, j);
      assert ColumnLoop(h, w, k)[3 * j..3 * j + 3] == prev[3 * j..3 * j + 3];
    } else {
      assert ColumnLoop(h, w, k)[3 * j..3 * j + 3] == ColumnStep(h, w, k - 1);
    }
  }

  /** The layout the loop leaves after `k` columns. */
  function AfterColumns(s: State, h: nat, w: nat, k: nat): State {
    if k == 0 then s
    else s.(layout := s.layout[Dotp := Matrix(1, w)][L2Norm := Matrix(1, 1)][Q := Columns(h, w, k)])
  }

  /** The leading `i` columns of Q are there to read. */
  predicate Leads(s: State, h: nat, w: nat, i: nat) {
    i == 0 || (Q in s.layout && s.layout[Q] == Columns(h, w, i))
  }

  lemma ColumnMultOk(s: State, h: nat, w: nat, i: nat)
    requires i < w && Operands(s, h, w) && Workspace(s, h, w) && Leads(s, h, w, i)
    ensures Step(s, K.QrColumnMult(Cov, Q, Dotp, h, w, i)) == Ok(s.(layout := s.layout[Dotp := Matrix(1, w)]))
  {
    var lead := Access(Q, Leading(h, w, i));
    WholeOk(s, Cov, h, w);
    assert Fits(s, lead) && ReadOk(s, lead);
    KernelStep(s, QrColumnMult, [K.W(Cov, h, w), lead], K.W(Dotp, 1, w));
  }

  lemma ColumnOk(s: State, h: nat, w: nat, i: nat)
    requires i < w && Operands(s, h, w) && Workspace(s, h, w) && Leads(s, h, w, i)
    requires Dotp in s.layout && s.layout[Dotp] == Matrix(1, w)
    ensures Step(s, K.QrColumn(Cov, Q, Dotp, h, w, i)) == Ok(s.(layout := s.layout[Q := Columns(h, w, i + 1)]))
  {
    var lead := Access(Q, Leading(h, w, i));
    var col := Access(Q, Column(h, w, i));
    WholeOk(s, Cov, h, w);
    assert Fits(s, lead) && ReadOk(s, lead) && Fits(s, col);
    assert Fits(s, K.W(Dotp, 1, w)) && ReadOk(s, K.W(Dotp, 1, w));
    KernelStep(s, QrColumn, [K.W(Cov, h, w), K.W(Dotp, 1, w), lead], col);
  }

  lemma L2NormOk(s: State, h: nat, w: nat, i: nat)
    requires i < w && Operands(s, h, w) && Workspace(s, h, w)
    requires Q in s.layout && s.layout[Q] == Columns(h, w, i + 1)
    ensures Step(s, K.QrL2Norm(Q, L2Norm, h, w, i)) ==
            Ok(s.(layout := s.layout[L2Norm := Matrix(1, 1)][Q := Columns(h, w, i + 1)]))
  {
    var col := Access(Q, Column(h, w, i));
    assert Fits(s, col) && ReadOk(s, col);
    KernelStep2(s, QrL2Norm, [col], K.W(L2Norm, 1, 1), col);
  }

  /** One column step: it reads the leading `i` columns, so it needs
      exactly the `i` columns before it, and leaves `i + 1`. */
  lemma ColumnStepOk(s: State, h: nat, w: nat, i: nat)
    requires i < w && Operands(s, h, w) && Workspace(s, h, w) && Leads(s, h, w, i)
    ensures Exec(s, ColumnStep(h, w, i)) ==
            Ok(s.(layout := s.layout[Dotp := Matrix(1, w)][L2Norm := Matrix(1, 1)][Q := Columns(h, w, i + 1)]))
  {
    var s1 := s.(layout := s.layout[Dotp := Matrix(1, w)]);
    ColumnMultOk(s, h, w, i);
    var s2 := s1.(layout := s1.layout[Q := Columns(h, w, i + 1)]);
    ColumnOk(s1, h, w, i);
    var s3 := s2.(layout := s2.layout[L2Norm := Matrix(1, 1)][Q := Columns(h, w, i + 1)]);
    L2NormOk(s2, h, w, i);
    Run3(s, K.QrColumnMult(Cov, Q, Dotp, h, w, i), K.QrColumn(Cov, Q, Dotp, h, w, i),
         K.QrL2Norm(Q, L2Norm, h, w, i), s1, s2, s3);
    assert s3.layout == s.layout[Dotp := Matrix(1, w)][L2Norm := Matrix(1, 1)][Q := Columns(h, w, i + 1)];
  }

  lemma {:induction false} ColumnLoopOk(s: State, h: nat, w: nat, k: nat)
    requires k <= w && Operands(s, h, w) && Workspace(s, h, w)
    ensures Exec(s, ColumnLoop(h, w, k)) == Ok(AfterColumns(s, h, w, k))
    decreases k
  {
    if k > 0 {
      ColumnLoopOk(s, h, w, k - 1);
      var s1 := AfterColumns(s, h, w, k - 1);
      AfterColumnsReady(s, h, w, k - 1);
      ColumnStepOk(s1, h, w, k - 1);
      ExecSplit(s, ColumnLoop(h, w, k - 1), ColumnStep(h, w, k - 1), s1);
      AfterColumnsStep(s, h, w, k);
    }
  }

  /** After `k` columns the next step finds its operands and the leading
      `k` columns. */
  lemma AfterColumnsReady(s: State, h: nat, w: nat, k: nat)
    requires Operands(s, h, w) && Workspace(s, h, w)
    ensures var r := AfterColumns(s, h, w, k);
            Operands(r, h, w) && Workspace(r, h, w) && Leads(r, h, w, k)
  {
  }

  lemma AfterColumnsStep(s: State, h: nat, w: nat, k: nat)
    requires k > 0
    ensures var s1 := AfterColumns(s, h, w, k - 1);
            s1.(layout := s1.layout[Dotp := Matrix(1, w)][L2Norm := Matrix(1, 1)][Q := Columns(h, w, k)]) ==
            AfterColumns(s, h, w, k)
  {
    var s1 := AfterColumns(s, h, w, k - 1);
    assert s1.layout[Dotp := Matrix(1, w)][L2Norm := Matrix(1, 1)][Q := Columns(h, w, k)] ==
           AfterColumns(s, h, w, k).layout;
  }

  /** A step that runs ahead of the columns written so far fails: column
      `i` cannot be computed before columns `d .. i - 1`. */
  lemma ColumnOutOfOrderFails(s: State, h: nat, w: nat, d: nat, i: nat)
    requires d < i < w && Operands(s, h, w) && Workspace(s, h, w)
    requires Q in s.layout && s.layout[Q] == Columns(h, w, d)
    ensures Exec(s, ColumnStep(h, w, i)) == Err(Mismatch(Q, Columns(h, w, d), Leading(h, w, i)))
  {
    var lead := Access(Q, Leading(h, w, i));
    var c := K.QrColumnMult(Cov, Q, Dotp, h, w, i);
    ExecCons(s, c, ColumnStep(h, w, i)[1..]);
    assert ColumnStep(h, w, i) == [c] + ColumnStep(h, w, i)[1..];
    var all := [K.W(Cov, h, w), lead, K.W(Dotp, 1, w)];
    assert FirstSizeFault(s, all) == Pass;
    assert [K.W(Cov, h, w), lead][1..] == [lead];
    assert FirstBadRead(s, [K.W(Cov, h, w), lead]) == Fail(Mismatch(Q, Columns(h, w, d), Leading(h, w, i)));
  }

  // ---------------------------------------------------------------------
  // The whole call

  lemma FinishOk(s: State, n: nat)
    requires Operands(s, n, n) && Workspace(s, n, n)
    requires Q in s.layout && s.layout[Q] == Columns(n, n, n)
    ensures Exec(s, Finish(n, n)) ==
            Ok(s.(layout := s.layout[RT := Matrix(n, n)][R := Matrix(n, n)][R := Matrix(n, n)]))
  {
    var s1 := s.(layout := s.layout[RT := Matrix(n, n)]);
    MatmulOk(s, Cov, Q, RT, n, n, n);
    var s2 := s1.(layout := s1.layout[R := Matrix(n, n)]);
    TransposeOk(s1, RT, R, n, n);
    var s3 := s2.(layout := s2.layout[R := Matrix(n, n)]);
    KernelStep(s2, QrClampR, [K.W(R, n, n)], K.W(R, n, n));
    Run3(s, K.Matmul(Cov, Q, RT, n, n, n), K.Transpose(RT, R, n, n), K.QrClampR(R, n, n), s1, s2, s3);
  }

  /** The state the call leaves: the workspace as Prepare leaves it, then
      the loop's and the finish's writes. */
  function QrResult(s: State, initialised: bool, n: nat): State {
    var s1 := if initialised then s else State(s.cap[L2Norm := 1][Dotp := n][RT := n * n], s.layout - {L2Norm} - {Dotp} - {RT});
    s1.(layout := s1.layout[Dotp := Matrix(1, n)][L2Norm := Matrix(1, 1)][Q := Columns(n, n, n)]
                           [RT := Matrix(n, n)][R := Matrix(n, n)][R := Matrix(n, n)])
  }

  lemma QrExec(s: State, initialised: bool, n: nat)
    requires n > 0 && Operands(s, n, n) && FlagInv(s, initialised, n, n)
    ensures Exec(s, Calls(initialised, n, n)) == Ok(QrResult(s, initialised, n))
  {
    PrepareOk(s, initialised, n, n);
    var s1 := Exec(s, Prepare(initialised, n, n)).value;
    ColumnLoopOk(s1, n, n, n);
    var s2 := AfterColumns(s1, n, n, n);
    FinishOk(s2, n);
    ExecSplit(s1, ColumnLoop(n, n, n), Finish(n, n), s2);
    ExecSplit(s, Prepare(initialised, n, n), ColumnLoop(n, n, n) + Finish(n, n), s1);
  }

  /** cuda_qr_get_q_and_r on a square `n x n` A, whatever the flag, as long
      as the flag keeps its promise: the call is well defined, leaves Q
      complete and R as an `n x n` matrix, sets up the workspace (so the
      flag may be set afterwards), and changes nothing outside Q, R and the
      workspace. */
  lemma QrOk(s: State, initialised: bool, n: nat)
    requires n > 0 && Operands(s, n, n) && FlagInv(s, initialised, n, n)
    ensures Exec(s, Calls(initialised, n, n)).Ok?
    ensures var r := Exec(s, Calls(initialised, n, n)).value;
            && Workspace(r, n, n) && Operands(r, n, n) && Outside(s, r)
            && Has(r, Q, n, n) && Has(r, R, n, n)
  {
    QrExec(s, initialised, n);
    QrResultShapes(s, initialised, n);
    QrResultFrame(s, initialised, n);
  }

  lemma QrResultShapes(s: State, initialised: bool, n: nat)
    requires n > 0 && Operands(s, n, n) && FlagInv(s, initialised, n, n)
    ensures var r := QrResult(s, initialised, n);
            Workspace(r, n, n) && Operands(r, n, n) && Has(r, Q, n, n) && Has(r, R, n, n)
  {
  }

  lemma QrResultFrame(s: State, initialised: bool, n: nat)
    ensures Outside(s, QrResult(s, initialised, n))
  {
    var r := QrResult(s, initialised, n);
    forall b: BufId | !Touched(b)
      ensures (b in r.cap <==> b in s.cap) && (b in s.cap ==> r.cap[b] == s.cap[b]) && Keeps(s, r, b)
    {
    }
  }

  /** The flag records that the workspace exists, not how large it is: a
      later call for a wider matrix, with the flag still set, overflows
      the dot-product buffer at its first kernel. */
  lemma InitialisedTooSmallFails(s: State, h: nat, w: nat)
    requires w > 0 && Operands(s, h, w) && Dotp in s.cap && s.cap[Dotp] < w
    ensures Exec(s, Calls(true, h, w)) == Err(Overflow(Dotp, w, s.cap[Dotp]))
  {
    var first := K.QrColumnMult(Cov, Q, Dotp, h, w, 0);
    var c := Calls(true, h, w);
    assert c[0] == first by {
      ColumnLoopAt(h, w, w, 0);
      assert ColumnLoop(h, w, w)[0] == ColumnLoop(h, w, w)[0..3][0];
    }
    FirstStepFails(s, h, w);
  }

  lemma FirstStepFails(s: State, h: nat, w: nat)
    requires w > 0 && Operands(s, h, w) && Dotp in s.cap && s.cap[Dotp] < w
    ensures Step(s, K.QrColumnMult(Cov, Q, Dotp, h, w, 0)) == Err(Overflow(Dotp, w, s.cap[Dotp]))
  {
    var c := K.QrColumnMult(Cov, Q, Dotp, h, w, 0);
    var all := [K.W(Cov, h, w), Access(Q, Leading(h, w, 0)), K.W(Dotp, 1, w)];
    assert c.inputs + c.outputs == all;
    var u := [K.W(Dotp, 1, w)];
    assert all[1..][1..] == u;
    assert FirstSizeFault(s, u) == Fail(Overflow(Dotp, w, s.cap[Dotp]));
    assert FirstSizeFault(s, all[1..]) == FirstSizeFault(s, u);
    assert FirstSizeFault(s, all) == FirstSizeFault(s, all[1..]);
  }

  // ---------------------------------------------------------------------
  // Cleanup

  /** The cleanup frees exactly the workspace (the flag may then be
      cleared); a second cleanup frees freed memory. */
  lemma CleanupOk(s: State, h: nat, w: nat)
    requires Workspace(s, h, w)
    ensures Exec(s, Cleanup) == Ok(State(s.cap - {L2Norm} - {Dotp} - {RT}, s.layout - {L2Norm} - {Dotp} - {RT}))
    ensures Exec(s, Cleanup + Cleanup) == Err(Unallocated(L2Norm))
  {
    var s1 := State(s.cap - {L2Norm}, s.layout - {L2Norm});
    var s2 := State(s1.cap - {Dotp}, s1.layout - {Dotp});
    var s3 := State(s2.cap - {RT}, s2.layout - {RT});
    Run3(s, Free(L2Norm), Free(Dotp), Free(RT), s1, s2, s3);
    ExecSplit(s, Cleanup, Cleanup, s3);
    ExecCons(s3, Free(L2Norm), Cleanup[1..]);
    assert Cleanup == [Free(L2Norm)] + Cleanup[1..];
  }
}
