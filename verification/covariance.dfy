/** calculate_covariance (ML/MVKernels.c:697-836) on the accelerator: the
    five working buffers, the column statistics, the z-scores and the
    covariance of a `DH x DW` data matrix.

    Every buffer is allocated with `DW * DH` values (lines 730-742), but the
    covariance is `DW x DW` (lines 804-824), so the call is well defined
    exactly when there are no more columns than rows.
 */
module Covariance {
  import opened Buffers
  import opened Device
  import opened Steps
  import K = Kernels
  import opened Contents

  /** The buffers calculate_covariance allocates, all `DW * DH` values. */
  function Allocations(h: nat, w: nat): seq<(BufId, nat)> {
    [(Data, w * h), (Z, w * h), (Cov, w * h), (Means, w * h), (Stddev, w * h)]
  }

  predicate Touched(b: BufId) {
    b == Data || b == Z || b == Cov || b == Means || b == Stddev
  }

  /** Upload of the data and of the zeroed statistics (lines 771-779). */
  function Uploads(h: nat, w: nat): seq<Call> {
    [Upload(Data, w * h), Upload(Means, w), Upload(Stddev, w)]
  }

  /** Means, standard deviations and z-scores (lines 781-793). */
  function Standardise(h: nat, w: nat): seq<Call> {
    [K.CalcMeans(Data, Means, h, w), K.CalcStddev(Data, Means, Stddev, h, w),
     K.AssignZScores(Data, Means, Stddev, Z, h, w)]
  }

  function Statistics(h: nat, w: nat): seq<Call> {
    Uploads(h, w) + Standardise(h, w)
  }

  /** The covariance and its read-back (lines 803-804). */
  function Product(h: nat, w: nat): seq<Call> {
    [K.CalcCovariance(Z, Cov, h, w), Download(Cov, h * w)]
  }

  function Calls(h: nat, w: nat): seq<Call> {
    Mallocs(Allocations(h, w)) + (Statistics(h, w) + Product(h, w))
  }

  ghost predicate Allocated(s: State, h: nat, w: nat) {
    forall b: BufId :: Touched(b) ==> b in s.cap && s.cap[b] == w * h
  }

  /** The same state outside the five working buffers. */
  ghost predicate Outside(s: State, r: State) {
    forall b: BufId :: !Touched(b) ==> (b in r.cap <==> b in s.cap) && (b in s.cap ==> r.cap[b] == s.cap[b]) && Keeps(s, r, b)
  }

  lemma AllocationsOk(s: State, h: nat, w: nat)
    ensures Exec(s, Mallocs(Allocations(h, w))).Ok?
    ensures Allocated(Exec(s, Mallocs(Allocations(h, w))).value, h, w)
    ensures Outside(s, Exec(s, Mallocs(Allocations(h, w))).value)
  {
    AllocationsSized(s, h, w);
    AllocationsKeep(s, h, w);
  }

  lemma AllocationsSized(s: State, h: nat, w: nat)
    ensures Exec(s, Mallocs(Allocations(h, w))).Ok?
    ensures Allocated(Exec(s, Mallocs(Allocations(h, w))).value, h, w)
  {
    var bs := Allocations(h, w);
    MallocsOk(s, bs);
    var r := Exec(s, Mallocs(bs)).value;
    assert bs[0].0 == Data && bs[1].0 == Z && bs[2].0 == Cov && bs[3].0 == Means && bs[4].0 == Stddev;
    AllocatedEach(r, h, w, w * h);
  }

  lemma AllocatedEach(r: State, h: nat, w: nat, n: nat)
    requires n == w * h
    requires Data in r.cap && r.cap[Data] == n && Z in r.cap && r.cap[Z] == n && Cov in r.cap && r.cap[Cov] == n
    requires Means in r.cap && r.cap[Means] == n && Stddev in r.cap && r.cap[Stddev] == n
    ensures Allocated(r, h, w)
  {
  }

  lemma AllocationsKeep(s: State, h: nat, w: nat)
    ensures Exec(s, Mallocs(Allocations(h, w))).Ok?
    ensures Outside(s, Exec(s, Mallocs(Allocations(h, w))).value)
  {
    var bs := Allocations(h, w);
    MallocsOk(s, bs);
    forall b: BufId | !Touched(b) ensures !Among(b, bs) {
      UntouchedNotAllocated(h, w, b);
    }
  }

  lemma UntouchedNotAllocated(h: nat, w: nat, b: BufId)
    requires !Touched(b)
    ensures !Among(b, Allocations(h, w))
  {
  }

  lemma UploadsOk(s: State, h: nat, w: nat)
    requires h > 0 && Allocated(s, h, w)
    ensures Exec(s, Uploads(h, w)) ==
            Ok(s.(layout := s.layout[Data := Flat(w * h)][Means := Flat(w)][Stddev := Flat(w)]))
  {
    MulLe(1, h, w);
    var s1 := s.(layout := s.layout[Data := Flat(w * h)]);
    var s2 := s1.(layout := s1.layout[Means := Flat(w)]);
    var s3 := s2.(layout := s2.layout[Stddev := Flat(w)]);
    UploadOk(s, Data, w * h);
    UploadOk(s1, Means, w);
    UploadOk(s2, Stddev, w);
    Run3(s, Upload(Data, w * h), Upload(Means, w), Upload(Stddev, w), s1, s2, s3);
  }

  lemma StandardiseOk(s: State, h: nat, w: nat)
    requires h > 0 && Allocated(s, h, w)
    requires Data in s.layout && s.layout[Data] == Flat(w * h)
    requires Means in s.layout && s.layout[Means] == Flat(w)
    requires Stddev in s.layout && s.layout[Stddev] == Flat(w)
    ensures Exec(s, Standardise(h, w)) ==
            Ok(s.(layout := s.layout[Means := Matrix(1, w)][Stddev := Matrix(1, w)][Z := Matrix(h, w)]))
  {
    MulLe(1, h, w);
    assert h * w == w * h;
    var s1 := s.(layout := s.layout[Means := Matrix(1, w)]);
    KernelStep(s, CalcMeans, [K.W(Data, h, w), K.W(Means, 1, w)], K.W(Means, 1, w));
    var s2 := s1.(layout := s1.layout[Stddev := Matrix(1, w)]);
    KernelStep(s1, CalcStddev, [K.W(Data, h, w), K.W(Means, 1, w), K.W(Stddev, 1, w)], K.W(Stddev, 1, w));
    var s3 := s2.(layout := s2.layout[Z := Matrix(h, w)]);
    KernelStep(s2, AssignZScores, [K.W(Data, h, w), K.W(Means, 1, w), K.W(Stddev, 1, w)], K.W(Z, h, w));
    Run3(s, K.CalcMeans(Data, Means, h, w), K.CalcStddev(Data, Means, Stddev, h, w),
         K.AssignZScores(Data, Means, Stddev, Z, h, w), s1, s2, s3);
  }

  /** With a row to read, the statistics are well defined and leave the
      z-scores as an `h x w` matrix. */
  lemma StatisticsOk(s: State, h: nat, w: nat)
    requires h > 0 && Allocated(s, h, w)
    ensures Exec(s, Statistics(h, w)).Ok?
    ensures var r := Exec(s, Statistics(h, w)).value;
            r.cap == s.cap && Has(r, Z, h, w) && Outside(s, r)
  {
    UploadsOk(s, h, w);
    var s1 := Exec(s, Uploads(h, w)).value;
    StandardiseOk(s1, h, w);
    ExecSplit(s, Uploads(h, w), Standardise(h, w), s1);
  }

  /** The covariance fits its buffer exactly when `w * w <= w * h`. */
  lemma ProductOk(s: State, h: nat, w: nat)
    requires h > 0 && Allocated(s, h, w) && Has(s, Z, h, w)
    ensures Exec(s, Product(h, w)).Ok? <==> w <= h
    ensures w > h ==> Exec(s, Product(h, w)) == Err(Overflow(Cov, w * w, w * h))
    ensures w <= h ==> Exec(s, Product(h, w)) == Ok(s.(layout := s.layout[Cov := Matrix(w, w)]))
  {
    var c := K.CalcCovariance(Z, Cov, h, w);
    assert h * w == w * h;
    ExecCons(s, c, [Download(Cov, h * w)]);
    if w <= h {
      MulLe(w, h, w);
      var s1 := s.(layout := s.layout[Cov := Matrix(w, w)]);
      KernelStep(s, CalcCovariance, [K.W(Z, h, w)], K.W(Cov, w, w));
      DownloadOk(s1, Cov, h * w);
      Run1(s1, Download(Cov, h * w), s1);
    } else {
      MulLe(h + 1, w, w);
      var all := [K.W(Z, h, w), K.W(Cov, w, w)];
      assert all[1..] == [K.W(Cov, w, w)];
      assert FirstSizeFault(s, all) == Fail(Overflow(Cov, w * w, w * h));
    }
  }

  /** calculate_covariance is well defined exactly when the data has no
      more columns than rows; then it leaves the `w x w` covariance and the
      `h x w` z-scores (which the projection reads later), and no buffer
      outside its working set changes.  Otherwise the covariance kernel
      overflows device_Cov. */
  lemma CovarianceOk(s: State, h: nat, w: nat)
    requires h > 0
    ensures Exec(s, Calls(h, w)).Ok? <==> w <= h
    ensures w > h ==> Exec(s, Calls(h, w)) == Err(Overflow(Cov, w * w, w * h))
    ensures w <= h ==>
              var r := Exec(s, Calls(h, w)).value;
              && Has(r, Cov, w, w) && Has(r, Z, h, w) && Allocated(r, h, w) && Outside(s, r)
  {
    AllocationsOk(s, h, w);
    var s1 := Exec(s, Mallocs(Allocations(h, w))).value;
    StatisticsOk(s1, h, w);
    var s2 := Exec(s1, Statistics(h, w)).value;
    ProductOk(s2, h, w);
    ExecSplit(s, Mallocs(Allocations(h, w)), Statistics(h, w) + Product(h, w), s1);
    ExecSplit(s1, Statistics(h, w), Product(h, w), s2);
  }
}
