/** The host-side ordering of the eigenvectors in cuda_eigenvectors
    (ML/MVKernels.c:960-978): the column order sorted by the column sums,
    and the reorder that applies it.

    The host starts from the identity order 0 .. pQW-1 and sorts it with
    `std::sort` under `host_Sums[i] < host_Sums[j]` (line 870), so the
    result is an arrangement of the column indices whose sums never
    decrease.  `std::sort` is not stable; SortIndices below keeps equal
    sums in index order, which is one of the orders the host may produce,
    and its contract states only what every such order satisfies.

    The reorder is modelled on buffer contents twice.  As written (lines
    977-978) it gathers pQ2's columns into pQ and then copies pQ2 over pQ,
    so the final pQ is pQ2 unchanged.  As evidently intended it gathers the
    signed pQ into pQ2 and copies that back into pQ.
 */
module Ordering {
  import opened Contents

  /** Every entry of `order` names a column of `key`. */
  predicate Indices(order: seq<nat>, n: nat) {
    forall i :: 0 <= i < |order| ==> order[i] < n
  }

  /** `order` lists 0 .. n-1, each exactly once. */
  predicate IsPermutation(order: seq<nat>, n: nat) {
    |order| == n && multiset(order) == multiset(Iota(n))
  }

  /** The sums of the listed columns never decrease along `order`. */
  predicate SortedBy(order: seq<nat>, key: seq<real>)
    requires Indices(order, |key|)
  {
    forall i, j :: 0 <= i < j < |order| ==> key[order[i]] <= key[order[j]]
  }

  // ---------------------------------------------------------------------
  // Permutations

  lemma IotaStep(n: nat)
    ensures multiset(Iota(n + 1)) == multiset(Iota(n)) + multiset{n}
  {
    assert Iota(n + 1) == Iota(n) + [n];
  }

  /** A permutation of 0 .. n-1 names only columns below n, and each of
      them once. */
  lemma PermutationIndices(order: seq<nat>, n: nat)
    requires IsPermutation(order, n)
    ensures Indices(order, n)
    ensures forall i, j :: 0 <= i < j < n ==> order[i] != order[j]
  {
    forall i | 0 <= i < |order| ensures order[i] < n {
      assert order[i] in multiset(order);
      assert order[i] in multiset(Iota(n));
      var k :| 0 <= k < n && Iota(n)[k] == order[i];
    }
    forall i, j | 0 <= i < j < n ensures order[i] != order[j] {
      if order[i] == order[j] {
        var v := order[i];
        TwiceCounted(order, i, j);
        IotaOnce(n, v);
        assert false;
      }
    }
  }

  /** A value found at two positions occurs at least twice. */
  lemma TwiceCounted(s: seq<nat>, i: nat, j: nat)
    requires i < j < |s| && s[i] == s[j]
    ensures multiset(s)[s[i]] >= 2
  {
    var v := s[i];
    assert s == s[..i] + [v] + s[i + 1..j] + [v] + s[j + 1..];
    assert multiset(s) == multiset(s[..i]) + multiset{v} + multiset(s[i + 1..j]) + multiset{v} + multiset(s[j + 1..]);
  }

  /** Iota lists each value at most once. */
  lemma {:induction false} IotaOnce(n: nat, v: nat)
    ensures multiset(Iota(n))[v] <= 1
    ensures v >= n ==> multiset(Iota(n))[v] == 0
    decreases n
  {
    if n > 0 {
      IotaOnce(n - 1, v);
      IotaStep(n - 1);
    }
  }

  /** Every column appears somewhere in a permutation. */
  lemma PermutationCovers(order: seq<nat>, n: nat, c: nat)
    requires IsPermutation(order, n) && c < n
    ensures c in order
  {
    assert Iota(n)[c] == c;
    assert c in multiset(Iota(n));
    assert c in multiset(order);
  }

  // ---------------------------------------------------------------------
  // The sort

  /** `order` with `x` placed after every entry whose key is not larger. */
  function Insert(order: seq<nat>, x: nat, key: seq<real>): (r: seq<nat>)
    requires x < |key| && Indices(order, |key|)
    ensures |r| == |order| + 1 && multiset(r) == multiset(order) + multiset{x}
    ensures Indices(r, |key|)
    decreases |order|
  {
    if |order| == 0 then [x]
    else if key[x] < key[order[0]] then
      assert multiset([x] + order) == multiset{x} + multiset(order);
      [x] + order
    else
      var rest := Insert(order[1..], x, key);
      assert order == [order[0]] + order[1..];
      assert multiset([order[0]] + rest) == multiset{order[0]} + multiset(rest);
      [order[0]] + rest
  }

  /** Inserting into a sorted order keeps it sorted. */
  lemma {:induction false} InsertSorted(order: seq<nat>, x: nat, key: seq<real>)
    requires x < |key| && Indices(order, |key|) && SortedBy(order, key)
    ensures SortedBy(Insert(order, x, key), key)
    decreases |order|
  {
    var r := Insert(order, x, key);
    if |order| == 0 {
    } else if key[x] < key[order[0]] {
      forall i, j | 0 <= i < j < |r| ensures key[r[i]] <= key[r[j]] {
        assert r[j] == order[j - 1];
        if i > 0 {
          assert r[i] == order[i - 1];
        } else if j > 1 {
          assert key[order[0]] <= key[order[j - 1]];
        }
      }
    } else {
      var tail := order[1..];
      assert SortedBy(tail, key) by {
        forall i, j | 0 <= i < j < |tail| ensures key[tail[i]] <= key[tail[j]] {
          assert tail[i] == order[i + 1] && tail[j] == order[j + 1];
        }
      }
      InsertSorted(tail, x, key);
      var rest := Insert(tail, x, key);
      assert r == [order[0]] + rest;
      forall i, j | 0 <= i < j < |r| ensures key[r[i]] <= key[r[j]] {
        if i > 0 {
          assert r[i] == rest[i - 1] && r[j] == rest[j - 1];
        } else {
          var y := rest[j - 1];
          assert r[j] == y && r[0] == order[0];
          assert y in multiset(rest);
          if y != x {
            assert y in multiset(tail);
            var k :| 0 <= k < |tail| && tail[k] == y;
            assert order[k + 1] == y;
          }
        }
      }
    }
  }

  /** Lines 963-971: the column indices sorted by their sums.  The result
      is a permutation of 0 .. |sums|-1 along which the sums never
      decrease. */
  method SortIndices(sums: seq<real>) returns (order: seq<nat>)
    ensures IsPermutation(order, |sums|)
    ensures Indices(order, |sums|) && SortedBy(order, sums)
  {
    order := [];
    var i := 0;
    while i < |sums|
      invariant 0 <= i <= |sums|
      invariant |order| == i && multiset(order) == multiset(Iota(i))
      invariant Indices(order, |sums|) && SortedBy(order, sums)
    {
      InsertSorted(order, i, sums);
      order := Insert(order, i, sums);
      IotaStep(i);
      i := i + 1;
    }
  }

  // ---------------------------------------------------------------------
  // The reorder on buffer contents

  /** device_pQ and device_pQ2 after the signs: pQ holds the signed
      eigenvectors, pQ2 the product of the last iteration. */
  datatype Pair = Pair(pq: seq<real>, pq2: seq<real>)

  predicate Sized(e: Pair, h: nat, w: nat) {
    |e.pq| == h * w && |e.pq2| == h * w
  }

  /** Lines 977-978 as written: pQ := pQ2's columns in `order`, then
      pQ := pQ2. */
  function ReorderAsWritten(e: Pair, h: nat, w: nat, order: seq<nat>): (r: Pair)
    requires Sized(e, h, w) && |order| == w && Indices(order, w)
    ensures Sized(r, h, w)
  {
    var sorted := Overwrite(e.pq, GatherColumns(e.pq2, h, w, order));
    Pair(Overwrite(sorted, e.pq2[..h * w]), e.pq2)
  }

  /** Lines 977-978 as evidently intended: pQ2 := pQ's columns in
      `order`, then pQ := pQ2. */
  function Reorder(e: Pair, h: nat, w: nat, order: seq<nat>): (r: Pair)
    requires Sized(e, h, w) && |order| == w && Indices(order, w)
    ensures Sized(r, h, w)
  {
    var sorted := Overwrite(e.pq2, GatherColumns(e.pq, h, w, order));
    Pair(Overwrite(e.pq, sorted[..h * w]), sorted)
  }

  /** As written, the final pQ is pQ2 unchanged: neither the signs nor the
      order reach the result. */
  lemma ReorderAsWrittenDiscards(e: Pair, h: nat, w: nat, order: seq<nat>)
    requires Sized(e, h, w) && |order| == w && Indices(order, w)
    ensures ReorderAsWritten(e, h, w, order).pq == e.pq2
    ensures ReorderAsWritten(e, h, w, order).pq2 == e.pq2
  {
  }

  /** As intended, column c of the final pQ is column order[c] of the
      signed eigenvectors, and pQ2 holds the same values. */
  lemma ReorderAt(e: Pair, h: nat, w: nat, order: seq<nat>, i: nat, c: nat)
    requires Sized(e, h, w) && |order| == w && Indices(order, w)
    requires i < h && c < w
    ensures i * w + c < h * w && i * w + order[c] < h * w
    ensures Reorder(e, h, w, order).pq[i * w + c] == e.pq[i * w + order[c]]
    ensures Reorder(e, h, w, order).pq == Reorder(e, h, w, order).pq2
  {
    GatherAt(e.pq, h, w, order, i, c);
  }

  /** Column c of the row-major `h x w` matrix m. */
  function Column(m: seq<real>, h: nat, w: nat, c: nat): (r: seq<real>)
    requires |m| == h * w && c < w
    ensures |r| == h
  {
    seq(h, i requires 0 <= i < h => IndexInside(i, c, h, w); m[i * w + c])
  }

  lemma ReorderColumn(e: Pair, h: nat, w: nat, order: seq<nat>, c: nat)
    requires Sized(e, h, w) && |order| == w && Indices(order, w) && c < w
    ensures Column(Reorder(e, h, w, order).pq, h, w, c) == Column(e.pq, h, w, order[c])
  {
    forall i | 0 <= i < h
      ensures Column(Reorder(e, h, w, order).pq, h, w, c)[i] == Column(e.pq, h, w, order[c])[i]
    {
      ReorderAt(e, h, w, order, i, c);
    }
  }

  /** With the order SortIndices produces, the intended reorder leaves the
      eigenvectors in pQ sorted by their sums: column c is column order[c]
      of the signed eigenvectors, every column appears, and the sums along
      the columns never decrease. */
  lemma ReorderSorts(e: Pair, h: nat, w: nat, sums: seq<real>, order: seq<nat>)
    requires Sized(e, h, w) && |sums| == w
    requires IsPermutation(order, w) && Indices(order, w) && SortedBy(order, sums)
    ensures forall c :: 0 <= c < w ==> Column(Reorder(e, h, w, order).pq, h, w, c) == Column(e.pq, h, w, order[c])
    ensures forall c: nat :: c < w ==> c in order
    ensures forall c, d :: 0 <= c < d < w ==> sums[order[c]] <= sums[order[d]]
  {
    forall c | 0 <= c < w
      ensures Column(Reorder(e, h, w, order).pq, h, w, c) == Column(e.pq, h, w, order[c])
    {
      ReorderColumn(e, h, w, order, c);
    }
    forall c: nat | c < w ensures c in order {
      PermutationCovers(order, w, c);
    }
  }

  /** One row, two columns whose sums are out of order: the intended
      reorder swaps them, the code as written leaves them as they were. */
  lemma ReorderAsWrittenKeepsOrder()
    ensures IsPermutation([1, 0], 2) && SortedBy([1, 0], [2.0, 1.0])
    ensures Reorder(Pair([2.0, 1.0], [2.0, 1.0]), 1, 2, [1, 0]).pq == [1.0, 2.0]
    ensures ReorderAsWritten(Pair([2.0, 1.0], [2.0, 1.0]), 1, 2, [1, 0]).pq == [2.0, 1.0]
  {
    assert Iota(2) == [0, 1];
    assert multiset([1, 0]) == multiset([0, 1]);
    var e := Pair([2.0, 1.0], [2.0, 1.0]);
    var order: seq<nat> := [1, 0];
    ReorderAt(e, 1, 2, order, 0, 0);
    ReorderAt(e, 1, 2, order, 0, 1);
  }
}
