/** The pairwise scan of calculate_zhi_relations in bazi_core.py, apart from
    what it looks for: every index pair i < j of a branch list, row by row,
    earlier index first. `pair` stands for the checks the loop body makes on
    one pair of branches. */
module PairScans {
  import opened Sexagenary

  /** What `pair` finds in row i of the scan, for the columns
      k, k + 1, ... up to the end. */
  function RowScan<R>(pair: (Branch, Branch) -> seq<R>, zhis: seq<Branch>, i: nat, k: nat): seq<R>
    requires i < |zhis| && k <= |zhis|
    decreases |zhis| - k
  {
    if k == |zhis| then [] else pair(zhis[i], zhis[k]) + RowScan(pair, zhis, i, k + 1)
  }

  /** What `pair` finds in the rows m, m + 1, ... of the scan,
      each row i from column i + 1 on. */
  function PairScan<R>(pair: (Branch, Branch) -> seq<R>, zhis: seq<Branch>, m: nat): seq<R>
    requires m <= |zhis|
    decreases |zhis| - m
  {
    if m == |zhis| then [] else RowScan(pair, zhis, m, m + 1) + PairScan(pair, zhis, m + 1)
  }

  /** The rows from m on hold exactly what `pair` finds for the index
      pairs m <= i < j: each pair is examined, earlier branch first. */
  lemma PairScanMembers<R>(pair: (Branch, Branch) -> seq<R>, zhis: seq<Branch>, m: nat, r: R)
    requires m <= |zhis|
    ensures r in PairScan(pair, zhis, m) <==>
      exists i, j :: m <= i < j < |zhis| && r in pair(zhis[i], zhis[j])
  {
    if r in PairScan(pair, zhis, m) {
      var i, j := PairScanWitness(pair, zhis, m, r);
    }
    forall i, j | m <= i < j < |zhis| && r in pair(zhis[i], zhis[j])
      ensures r in PairScan(pair, zhis, m)
    {
      PairScanCovers(pair, zhis, m, r, i, j);
    }
  }

  /** Everything row i reports from column k on comes from one column j >= k. */
  lemma {:induction false} RowScanWitness<R>(pair: (Branch, Branch) -> seq<R>, zhis: seq<Branch>, i: nat, k: nat, r: R)
      returns (j: nat)
    requires i < |zhis| && k <= |zhis| && r in RowScan(pair, zhis, i, k)
    ensures k <= j < |zhis| && r in pair(zhis[i], zhis[j])
    decreases |zhis| - k
  {
    if r in pair(zhis[i], zhis[k]) {
      j := k;
    } else {
      j := RowScanWitness(pair, zhis, i, k + 1, r);
    }
  }

  /** Everything column j >= k of row i finds is reported. */
  lemma {:induction false} RowScanCovers<R>(pair: (Branch, Branch) -> seq<R>, zhis: seq<Branch>, i: nat, k: nat, r: R, j: nat)
    requires i < |zhis| && k <= j < |zhis| && r in pair(zhis[i], zhis[j])
    ensures r in RowScan(pair, zhis, i, k)
    decreases |zhis| - k
  {
    if k < j {
      RowScanCovers(pair, zhis, i, k + 1, r, j);
    }
  }

  /** Everything the rows from m on report comes from some pair m <= i < j. */
  lemma {:induction false} PairScanWitness<R>(pair: (Branch, Branch) -> seq<R>, zhis: seq<Branch>, m: nat, r: R)
      returns (i: nat, j: nat)
    requires m <= |zhis| && r in PairScan(pair, zhis, m)
    ensures m <= i < j < |zhis| && r in pair(zhis[i], zhis[j])
    decreases |zhis| - m
  {
    if r in RowScan(pair, zhis, m, m + 1) {
      i := m;
      j := RowScanWitness(pair, zhis, m, m + 1, r);
    } else {
      i, j := PairScanWitness(pair, zhis, m + 1, r);
    }
  }

  /** Everything some pair m <= i < j finds is reported. */
  lemma {:induction false} PairScanCovers<R>(pair: (Branch, Branch) -> seq<R>, zhis: seq<Branch>, m: nat, r: R, i: nat, j: nat)
    requires m <= i < j < |zhis| && r in pair(zhis[i], zhis[j])
    ensures r in PairScan(pair, zhis, m)
    decreases |zhis| - m
  {
    var row, rest := RowScan(pair, zhis, m, m + 1), PairScan(pair, zhis, m + 1);
    assert PairScan(pair, zhis, m) == row + rest;
    if i == m {
      RowScanCovers(pair, zhis, m, m + 1, r, j);
      InConcat(row, rest, r);
    } else {
      PairScanCovers(pair, zhis, m + 1, r, i, j);
      InConcat(row, rest, r);
    }
  }

  lemma InConcat<R>(a: seq<R>, b: seq<R>, r: R)
    requires r in a || r in b
    ensures r in a + b
  {
  }
}
