/** Building blocks for running schedules: when one kernel call, transfer or
    allocation is well defined and what it leaves behind.  Each lemma turns
    facts about the buffers a call touches into the exact next state, so that
    a schedule can be run one call at a time.
 */
module Steps {
  import opened Buffers
  import opened Device
  import K = Kernels

  /** `b` is allocated with room for `n` values. */
  predicate Room(s: State, b: BufId, n: nat) {
    b in s.cap && n <= s.cap[b]
  }

  /** `b` holds a whole `rows x cols` matrix. */
  predicate Has(s: State, b: BufId, rows: nat, cols: nat) {
    b in s.layout && Covers(s.layout[b], rows, cols, cols)
  }

  /** The layout of `b` is the same in `s'` as in `s`. */
  predicate Keeps(s: State, s': State, b: BufId) {
    b in s.layout ==> b in s'.layout && s'.layout[b] == s.layout[b]
  }

  // ---------------------------------------------------------------------
  // Running a schedule call by call

  lemma ExecCons(s: State, c: Call, rest: seq<Call>)
    ensures Exec(s, [c] + rest) == Then(Step(s, c), rest)
  {
    assert ([c] + rest)[0] == c;
    assert ([c] + rest)[1..] == rest;
  }

  lemma ExecSplit(s: State, a: seq<Call>, b: seq<Call>, s': State)
    requires Exec(s, a) == Ok(s')
    ensures Exec(s, a + b) == Exec(s', b)
  {
    ExecAppend(s, a, b);
  }

  lemma Run1(s: State, a: Call, s1: State)
    requires Step(s, a) == Ok(s1)
    ensures Exec(s, [a]) == Ok(s1)
  {
    ExecCons(s, a, []);
    assert [a] + [] == [a];
  }

  lemma Run2(s: State, a: Call, b: Call, s1: State, s2: State)
    requires Step(s, a) == Ok(s1) && Step(s1, b) == Ok(s2)
    ensures Exec(s, [a, b]) == Ok(s2)
  {
    Run1(s1, b, s2);
    ExecCons(s, a, [b]);
    assert [a] + [b] == [a, b];
  }

  lemma Run3(s: State, a: Call, b: Call, c: Call, s1: State, s2: State, s3: State)
    requires Step(s, a) == Ok(s1) && Step(s1, b) == Ok(s2) && Step(s2, c) == Ok(s3)
    ensures Exec(s, [a, b, c]) == Ok(s3)
  {
    Run2(s1, b, c, s2, s3);
    ExecCons(s, a, [b, c]);
    assert [a] + [b, c] == [a, b, c];
  }

  lemma Run4(s: State, a: Call, b: Call, c: Call, d: Call, s1: State, s2: State, s3: State, s4: State)
    requires Step(s, a) == Ok(s1) && Step(s1, b) == Ok(s2) && Step(s2, c) == Ok(s3) && Step(s3, d) == Ok(s4)
    ensures Exec(s, [a, b, c, d]) == Ok(s4)
  {
    Run3(s1, b, c, d, s2, s3, s4);
    ExecCons(s, a, [b, c, d]);
    assert [a] + [b, c, d] == [a, b, c, d];
  }

  /** A failure stops the rest of the schedule. */
  lemma ExecStops(s: State, a: seq<Call>, b: seq<Call>)
    requires Exec(s, a).Err?
    ensures Exec(s, a + b) == Exec(s, a)
  {
    ExecAppend(s, a, b);
  }

  // ---------------------------------------------------------------------
  // Kernels

  /** A kernel with one output whose accesses fit and whose reads find what
      they expect records its write and changes nothing else. */
  lemma KernelStep(s: State, name: KernelName, ins: seq<Access>, out: Access)
    requires forall k :: 0 <= k < |ins| ==> Fits(s, ins[k]) && ReadOk(s, ins[k])
    requires Fits(s, out)
    ensures Step(s, Kernel(name, ins, [out])) == Ok(s.(layout := s.layout[out.buf := Written(out.region)]))
  {
    var all := ins + [out];
    assert forall k :: 0 <= k < |all| ==> Fits(s, all[k]) by {
      forall k | 0 <= k < |all| ensures Fits(s, all[k]) {
        if k < |ins| {
          assert all[k] == ins[k];
        } else {
          assert all[k] == out;
        }
      }
    }
    assert FirstSizeFault(s, all) == Pass;
    assert FirstBadRead(s, ins) == Pass;
    assert [out][..0] == [];
    assert ApplyWrites(s.layout, [out]) == s.layout[out.buf := Written(out.region)];
  }

  /** The same for a kernel with two outputs, recorded in argument order. */
  lemma KernelStep2(s: State, name: KernelName, ins: seq<Access>, out1: Access, out2: Access)
    requires forall k :: 0 <= k < |ins| ==> Fits(s, ins[k]) && ReadOk(s, ins[k])
    requires Fits(s, out1) && Fits(s, out2)
    ensures Step(s, Kernel(name, ins, [out1, out2])) ==
            Ok(s.(layout := s.layout[out1.buf := Written(out1.region)][out2.buf := Written(out2.region)]))
  {
    var all := ins + [out1, out2];
    assert forall k :: 0 <= k < |all| ==> Fits(s, all[k]) by {
      forall k | 0 <= k < |all| ensures Fits(s, all[k]) {
        if k < |ins| {
          assert all[k] == ins[k];
        } else if k == |ins| {
          assert all[k] == out1;
        } else {
          assert all[k] == out2;
        }
      }
    }
    assert FirstSizeFault(s, all) == Pass;
    assert FirstBadRead(s, ins) == Pass;
    assert [out1, out2][..1] == [out1];
    assert [out1][..0] == [];
    assert ApplyWrites(s.layout, [out1]) == s.layout[out1.buf := Written(out1.region)];
    assert ApplyWrites(s.layout, [out1, out2]) ==
           s.layout[out1.buf := Written(out1.region)][out2.buf := Written(out2.region)];
  }

  /** A whole-matrix access to a buffer that holds that matrix and has room
      for it is well defined. */
  lemma WholeOk(s: State, b: BufId, rows: nat, cols: nat)
    requires Has(s, b, rows, cols) && Room(s, b, rows * cols)
    ensures Fits(s, K.W(b, rows, cols)) && ReadOk(s, K.W(b, rows, cols))
  {
  }

  lemma LinearOk(s: State, act: BufId, w: BufId, bias: BufId, out: BufId, m: nat, n: nat, k: nat)
    requires Has(s, act, n, k) && Room(s, act, n * k)
    requires Has(s, w, m, n) && Room(s, w, m * n)
    requires Has(s, bias, m, 1) && Room(s, bias, m)
    requires Room(s, out, m * k)
    ensures Step(s, K.Linear(act, w, bias, out, m, n, k)) == Ok(s.(layout := s.layout[out := Matrix(m, k)]))
  {
    KernelStep(s, Linear, [K.W(act, n, k), K.W(w, m, n), K.W(bias, m, 1)], K.W(out, m, k));
  }

  /** Every elementwise kernel over one `rows x cols` input: gpu_sigmoid,
      run_gpu_sigmoid_prime. */
  lemma SigmoidOk(s: State, input: BufId, out: BufId, rows: nat, cols: nat)
    requires Has(s, input, rows, cols) && Room(s, input, rows * cols)
    requires Room(s, out, rows * cols)
    ensures Step(s, K.Sigmoid(input, out, rows, cols)) == Ok(s.(layout := s.layout[out := Matrix(rows, cols)]))
    ensures Step(s, K.SigmoidPrime(input, out, rows, cols)) == Ok(s.(layout := s.layout[out := Matrix(rows, cols)]))
  {
    KernelStep(s, Sigmoid, [K.W(input, rows, cols)], K.W(out, rows, cols));
    KernelStep(s, SigmoidPrime, [K.W(input, rows, cols)], K.W(out, rows, cols));
  }

  lemma TransposeOk(s: State, input: BufId, out: BufId, rows: nat, cols: nat)
    requires Has(s, input, rows, cols) && Room(s, input, rows * cols)
    requires Room(s, out, cols * rows)
    ensures Step(s, K.Transpose(input, out, rows, cols)) == Ok(s.(layout := s.layout[out := Matrix(cols, rows)]))
  {
    KernelStep(s, Transpose, [K.W(input, rows, cols)], K.W(out, cols, rows));
  }

  /** run_gpu_matmul, run_gpu_weight_derivative and
      run_gpu_matmul_check_converged share one shape. */
  lemma MatmulOk(s: State, a: BufId, b: BufId, r: BufId, i: nat, m: nat, o: nat)
    requires Has(s, a, i, m) && Room(s, a, i * m)
    requires Has(s, b, m, o) && Room(s, b, m * o)
    requires Room(s, r, i * o)
    ensures Step(s, K.Matmul(a, b, r, i, m, o)) == Ok(s.(layout := s.layout[r := Matrix(i, o)]))
    ensures Step(s, K.WeightDerivative(a, b, r, i, m, o)) == Ok(s.(layout := s.layout[r := Matrix(i, o)]))
    ensures Step(s, K.MatmulCheckConverged(a, b, r, i, m, o)) == Ok(s.(layout := s.layout[r := Matrix(i, o)]))
  {
    var ins := [K.W(a, i, m), K.W(b, m, o)];
    KernelStep(s, Matmul, ins, K.W(r, i, o));
    KernelStep(s, WeightDerivative, ins, K.W(r, i, o));
    KernelStep(s, MatmulCheckConverged, ins, K.W(r, i, o));
  }

  lemma PartialMatmulOk(s: State, a: BufId, b: BufId, r: BufId, i: nat, m: nat, o: nat, columns: nat)
    requires Has(s, a, i, m) && Room(s, a, i * m)
    requires Has(s, b, m, o) && Room(s, b, m * o)
    requires Room(s, r, i * columns)
    ensures Step(s, K.PartialMatmul(a, b, r, i, m, o, columns)) == Ok(s.(layout := s.layout[r := Matrix(i, columns)]))
  {
    KernelStep(s, PartialMatmul, [K.W(a, i, m), K.W(b, m, o)], K.W(r, i, columns));
  }

  lemma DerivativeOk(s: State, a: BufId, b: BufId, sp: BufId, r: BufId, i: nat, m: nat, o: nat)
    requires Has(s, a, i, m) && Room(s, a, i * m)
    requires Has(s, b, m, o) && Room(s, b, m * o)
    requires Has(s, sp, i, o) && Room(s, sp, i * o)
    requires Room(s, r, i * o)
    ensures Step(s, K.Derivative(a, b, sp, r, i, m, o)) == Ok(s.(layout := s.layout[r := Matrix(i, o)]))
  {
    KernelStep(s, Derivative, [K.W(a, i, m), K.W(b, m, o), K.W(sp, i, o)], K.W(r, i, o));
  }

  lemma UpdateWeightsOk(s: State, w: BufId, d: BufId, out: nat, input: nat)
    requires Has(s, w, out, input) && Room(s, w, out * input)
    requires Has(s, d, out, input) && Room(s, d, out * input)
    ensures Step(s, K.UpdateWeights(w, d, out, input)) == Ok(s.(layout := s.layout[w := Matrix(out, input)]))
  {
    KernelStep(s, UpdateWeights, [K.W(w, out, input), K.W(d, out, input)], K.W(w, out, input));
  }

  lemma UpdateBiasesOk(s: State, bias: BufId, d: BufId, out: nat, batch: nat)
    requires Has(s, bias, out, 1) && Room(s, bias, out)
    requires Has(s, d, out, batch) && Room(s, d, out * batch)
    ensures Step(s, K.UpdateBiases(bias, d, out, batch)) == Ok(s.(layout := s.layout[bias := Matrix(out, 1)]))
  {
    KernelStep(s, UpdateBiases, [K.W(bias, out, 1), K.W(d, out, batch)], K.W(bias, out, 1));
  }

  /** gpu_calculate_cost_and_derivative and gpu_calculate_cost. */
  lemma CostOk(s: State, act: BufId, y: BufId, out: BufId, rows: nat, cols: nat)
    requires Has(s, act, rows, cols) && Room(s, act, rows * cols)
    requires Has(s, y, rows, cols) && Room(s, y, rows * cols)
    requires Room(s, out, rows * cols)
    ensures Step(s, K.CostAndDerivative(act, y, out, rows, cols)) == Ok(s.(layout := s.layout[out := Matrix(rows, cols)]))
    ensures Step(s, K.CostOnly(act, y, out, rows, cols)) == Ok(s.(layout := s.layout[out := Matrix(rows, cols)]))
  {
    var ins := [K.W(act, rows, cols), K.W(y, rows, cols)];
    KernelStep(s, CostAndDerivative, ins, K.W(out, rows, cols));
    KernelStep(s, CostOnly, ins, K.W(out, rows, cols));
  }

  // ---------------------------------------------------------------------
  // Transfers

  lemma UploadOk(s: State, b: BufId, n: nat)
    requires Room(s, b, n)
    ensures Step(s, Upload(b, n)) == Ok(s.(layout := s.layout[b := Flat(n)]))
  {
  }

  lemma DownloadOk(s: State, b: BufId, n: nat)
    requires Room(s, b, n) && b in s.layout
    ensures Step(s, Download(b, n)) == Ok(s)
  {
  }

  /** Copying all of a whole matrix keeps its layout. */
  lemma CopyOk(s: State, src: BufId, dst: BufId, rows: nat, cols: nat, n: nat)
    requires n == rows * cols
    requires Has(s, src, rows, cols) && Room(s, src, n) && Room(s, dst, n)
    ensures Step(s, Copy(src, dst, n)) == Ok(s.(layout := s.layout[dst := s.layout[src]]))
    ensures Has(Step(s, Copy(src, dst, n)).value, dst, rows, cols)
  {
  }

  // ---------------------------------------------------------------------
  // Allocation

  /** One `gpu_device_malloc` per entry, in order. */
  function Mallocs(bs: seq<(BufId, nat)>): seq<Call>
    decreases |bs|
  {
    if |bs| == 0 then [] else [Malloc(bs[0].0, bs[0].1)] + Mallocs(bs[1..])
  }

  predicate Distinct(bs: seq<(BufId, nat)>) {
    forall i, j :: 0 <= i < j < |bs| ==> bs[i].0 != bs[j].0
  }

  /** `b` is one of the buffers of `bs`. */
  predicate Among(b: BufId, bs: seq<(BufId, nat)>) {
    exists i :: 0 <= i < |bs| && bs[i].0 == b
  }

  /** Allocating distinct buffers gives each its size and leaves every
      other buffer as it was. */
  lemma {:induction false} MallocsOk(s: State, bs: seq<(BufId, nat)>)
    requires Distinct(bs)
    ensures Exec(s, Mallocs(bs)).Ok?
    ensures var r := Exec(s, Mallocs(bs)).value;
            && (forall i :: 0 <= i < |bs| ==> bs[i].0 in r.cap && r.cap[bs[i].0] == bs[i].1 && bs[i].0 !in r.layout)
            && (forall b: BufId :: !Among(b, bs) ==> (b in r.cap <==> b in s.cap) && (b in r.layout <==> b in s.layout) && Keeps(s, r, b))
            && (forall b: BufId :: !Among(b, bs) && b in s.cap ==> r.cap[b] == s.cap[b])
    decreases |bs|
  {
    if |bs| > 0 {
      var s1 := State(s.cap[bs[0].0 := bs[0].1], s.layout - {bs[0].0});
      ExecCons(s, Malloc(bs[0].0, bs[0].1), Mallocs(bs[1..]));
      assert Distinct(bs[1..]) by {
        forall i, j | 0 <= i < j < |bs[1..]| ensures bs[1..][i].0 != bs[1..][j].0 {
          assert bs[1..][i] == bs[i + 1] && bs[1..][j] == bs[j + 1];
        }
      }
      MallocsOk(s1, bs[1..]);
      var r := Exec(s1, Mallocs(bs[1..])).value;
      assert !Among(bs[0].0, bs[1..]) by {
        forall i | 0 <= i < |bs[1..]| ensures bs[1..][i].0 != bs[0].0 {
          assert bs[1..][i] == bs[i + 1];
        }
      }
      forall i | 0 <= i < |bs| ensures bs[i].0 in r.cap && r.cap[bs[i].0] == bs[i].1 && bs[i].0 !in r.layout {
        if i > 0 {
          assert bs[1..][i - 1] == bs[i];
        }
      }
      forall b: BufId | !Among(b, bs)
        ensures (b in r.cap <==> b in s.cap) && (b in r.layout <==> b in s.layout) && Keeps(s, r, b)
        ensures b in s.cap ==> r.cap[b] == s.cap[b]
      {
        assert b != bs[0].0;
        forall i | 0 <= i < |bs[1..]| ensures bs[1..][i].0 != b {
          assert bs[1..][i] == bs[i + 1];
        }
      }
    }
  }
}
