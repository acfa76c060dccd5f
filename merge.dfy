/** The element-wise min reduction shared by every algorithm of the engine: the row
    fold of stmp, stampBatch and stompBatch, the merge of batch results in
    mergeMPResults, and the fold of the newest row in Update. */
module ProfileMerge {
  import opened ProfileValues

  /** A profile with its index: `MP` and `Idx` of a context, of one batch, or one row. */
  datatype Profile = Profile(mp: seq<Dist>, idx: seq<int>)

  predicate Shaped(p: Profile, n: int) {
    |p.mp| == n && |p.idx| == n
  }

  predicate AllShaped(rows: seq<Profile>, n: int) {
    forall k :: 0 <= k < |rows| ==> Shaped(rows[k], n)
  }

  /** A batch's starting profile: every entry +Inf with index MaxInt64. */
  function Top(n: nat): Profile {
    Profile(seq(n, _ => Inf), seq(n, _ => MaxInt64))
  }

  /** A distance-profile row, every entry recorded with the query index `r`. */
  function RowOf(vals: seq<Dist>, r: int): Profile {
    Profile(vals, seq(|vals|, _ => r))
  }

  /** One reduction step: entry j takes `next`'s value and index when
      `next.mp[j] <= cur.mp[j]`, so a tie goes to `next`. */
  function Merge(cur: Profile, next: Profile): (r: Profile)
    requires Shaped(cur, |cur.mp|) && Shaped(next, |cur.mp|)
    ensures Shaped(r, |cur.mp|)
  {
    var n := |cur.mp|;
    Profile(seq(n, j requires 0 <= j < n => if Le(next.mp[j], cur.mp[j]) then next.mp[j] else cur.mp[j]),
            seq(n, j requires 0 <= j < n => if Le(next.mp[j], cur.mp[j]) then next.idx[j] else cur.idx[j]))
  }

  /** Each entry of a merge is at most both inputs' entries; it carries `next`'s index
      when it holds `next`'s value, and `cur`'s value and index otherwise. */
  lemma MergeMeaning(cur: Profile, next: Profile)
    requires Shaped(cur, |cur.mp|) && Shaped(next, |cur.mp|)
    ensures var r := Merge(cur, next);
            && (forall j :: 0 <= j < |cur.mp| ==> Le(r.mp[j], cur.mp[j]) && Le(r.mp[j], next.mp[j]))
            && (forall j :: 0 <= j < |cur.mp| && r.mp[j] == next.mp[j] ==> r.idx[j] == next.idx[j])
            && (forall j :: 0 <= j < |cur.mp| && r.mp[j] != next.mp[j] ==> r.mp[j] == cur.mp[j] && r.idx[j] == cur.idx[j])
  {
  }

  /** Folding `rows` into `cur` in order, one Merge per row. */
  function FoldRows(cur: Profile, rows: seq<Profile>): (r: Profile)
    requires Shaped(cur, |cur.mp|) && AllShaped(rows, |cur.mp|)
    ensures Shaped(r, |cur.mp|)
    decreases |rows|
  {
    if rows == [] then cur
    else Merge(FoldRows(cur, rows[..|rows| - 1]), rows[|rows| - 1])
  }

  /** Entry j of every row, in row order. */
  function Column(rows: seq<Profile>, j: nat): seq<Dist>
    requires forall k :: 0 <= k < |rows| ==> j < |rows[k].mp|
  {
    seq(|rows|, k requires 0 <= k < |rows| => rows[k].mp[j])
  }

  /** The least of `v` and the elements of `col`. */
  function ColMin(v: Dist, col: seq<Dist>): (m: Dist)
    ensures Le(m, v)
    ensures forall k :: 0 <= k < |col| ==> Le(m, col[k])
    ensures m == v || m in col
  {
    if col == [] then v
    else
      var m := ColMin(v, col[..|col| - 1]);
      if Le(col[|col| - 1], m) then col[|col| - 1] else m
  }

  /** The position of the last element of `col` equal to `v`, or -1 when there is none. */
  function LastAttaining(col: seq<Dist>, v: Dist): (k: int)
    ensures -1 <= k < |col|
    ensures k >= 0 ==> col[k] == v
    ensures forall i :: k < i < |col| ==> col[i] != v
  {
    if col == [] then -1
    else if col[|col| - 1] == v then |col| - 1
    else LastAttaining(col[..|col| - 1], v)
  }

  /** The row-fold invariant: after folding rows in order, entry j is the least of
      its initial value and the rows' entries j, and its index is that of the last
      row attaining that least value (or the initial index when no row does). */
  lemma {:induction false} FoldRowsAt(cur: Profile, rows: seq<Profile>, j: nat)
    requires Shaped(cur, |cur.mp|) && AllShaped(rows, |cur.mp|) && j < |cur.mp|
    ensures FoldRows(cur, rows).mp[j] == ColMin(cur.mp[j], Column(rows, j))
    ensures var k := LastAttaining(Column(rows, j), FoldRows(cur, rows).mp[j]);
            FoldRows(cur, rows).idx[j] == if k < 0 then cur.idx[j] else rows[k].idx[j]
  {
    if rows != [] {
      var n := |rows| - 1;
      FoldRowsAt(cur, rows[..n], j);
      assert Column(rows[..n], j) == Column(rows, j)[..n];
    }
  }

  /** Merge is associative, ties included. */
  lemma MergeAssociative(a: Profile, b: Profile, c: Profile)
    requires Shaped(a, |a.mp|) && Shaped(b, |a.mp|) && Shaped(c, |a.mp|)
    ensures Merge(a, Merge(b, c)) == Merge(Merge(a, b), c)
  {
    var l := Merge(a, Merge(b, c));
    var r := Merge(Merge(a, b), c);
    forall j | 0 <= j < |a.mp|
      ensures l.mp[j] == r.mp[j] && l.idx[j] == r.idx[j]
    {
      LeTotalOrder(c.mp[j], b.mp[j], a.mp[j]);
      LeTotalOrder(a.mp[j], b.mp[j], c.mp[j]);
    }
    assert l.mp == r.mp;
    assert l.idx == r.idx;
  }

  /** Merging an all-+Inf profile and then a row is the same as merging the row alone. */
  lemma MergeTopThen(cur: Profile, x: Profile)
    requires Shaped(cur, |cur.mp|) && Shaped(x, |cur.mp|)
    ensures Merge(Merge(cur, Top(|cur.mp|)), x) == Merge(cur, x)
  {
    var l := Merge(Merge(cur, Top(|cur.mp|)), x);
    var r := Merge(cur, x);
    assert l.mp == r.mp;
    assert l.idx == r.idx;
  }

  /** Merging one row into the all-+Inf profile copies the row. */
  lemma MergeIntoTop(x: Profile)
    requires Shaped(x, |x.mp|)
    ensures Merge(Top(|x.mp|), x) == x
  {
    var r := Merge(Top(|x.mp|), x);
    assert r.mp == x.mp;
    assert r.idx == x.idx;
  }

  /** Folding one more row is one more Merge. */
  lemma FoldRowsSnoc(cur: Profile, rows: seq<Profile>, x: Profile)
    requires Shaped(cur, |cur.mp|) && AllShaped(rows, |cur.mp|) && Shaped(x, |cur.mp|)
    ensures FoldRows(cur, rows + [x]) == Merge(FoldRows(cur, rows), x)
  {
    assert (rows + [x])[..|rows|] == rows;
  }

  /** Extending the run `all[start..last]` by the row `all[last]` is one more Merge. */
  lemma FoldNext(all: seq<Profile>, start: nat, last: nat, end: nat, n: nat)
    requires start <= last && end == last + 1 && end <= |all| && AllShaped(all, n)
    ensures FoldRows(Top(n), all[start..end]) == Merge(FoldRows(Top(n), all[start..last]), all[last])
  {
    assert all[start..end] == all[start..last] + [all[last]];
    FoldRowsSnoc(Top(n), all[start..last], all[last]);
  }

  /** Folding a concatenation is folding its halves one after the other. */
  lemma {:induction false} FoldAppend(cur: Profile, xs: seq<Profile>, ys: seq<Profile>)
    requires Shaped(cur, |cur.mp|) && AllShaped(xs, |cur.mp|) && AllShaped(ys, |cur.mp|)
    ensures FoldRows(cur, xs + ys) == FoldRows(FoldRows(cur, xs), ys)
    decreases |ys|
  {
    if ys == [] {
      assert xs + ys == xs;
    } else {
      var n := |ys| - 1;
      assert (xs + ys)[..|xs + ys| - 1] == xs + ys[..n];
      FoldAppend(cur, xs, ys[..n]);
    }
  }

  /** Merging a folded profile is folding the same rows after merging its start. */
  lemma {:induction false} MergeFold(cur: Profile, q: Profile, rows: seq<Profile>)
    requires Shaped(cur, |cur.mp|) && Shaped(q, |cur.mp|) && AllShaped(rows, |cur.mp|)
    ensures Merge(cur, FoldRows(q, rows)) == FoldRows(Merge(cur, q), rows)
    decreases |rows|
  {
    if rows != [] {
      var n := |rows| - 1;
      MergeFold(cur, q, rows[..n]);
      MergeAssociative(cur, FoldRows(q, rows[..n]), rows[n]);
    }
  }

  /** A batch that folds a non-empty run of rows from +Inf and is then merged has the
      same effect as folding that run directly. */
  lemma MergeFoldFromTop(cur: Profile, rows: seq<Profile>)
    requires Shaped(cur, |cur.mp|) && AllShaped(rows, |cur.mp|) && rows != []
    ensures Merge(cur, FoldRows(Top(|cur.mp|), rows)) == FoldRows(cur, rows)
  {
    var n := |cur.mp|;
    MergeFold(cur, Top(n), rows);
    assert rows == [rows[0]] + rows[1..];
    FoldAppend(Merge(cur, Top(n)), [rows[0]], rows[1..]);
    FoldAppend(cur, [rows[0]], rows[1..]);
    assert [rows[0]][..0] == [];
    MergeTopThen(cur, rows[0]);
  }

  /** The runs of rows of consecutive batches, concatenated. */
  function Flatten<T>(batches: seq<seq<T>>): seq<T>
    decreases |batches|
  {
    if batches == [] then [] else Flatten(batches[..|batches| - 1]) + batches[|batches| - 1]
  }

  lemma {:induction false} FlattenShaped(batches: seq<seq<Profile>>, n: int)
    requires forall b :: 0 <= b < |batches| ==> AllShaped(batches[b], n)
    ensures AllShaped(Flatten(batches), n)
    decreases |batches|
  {
    if batches != [] {
      FlattenShaped(batches[..|batches| - 1], n);
    }
  }

  /** Each run of rows folded from +Inf, as each batch worker does. */
  function FoldEach(batches: seq<seq<Profile>>, n: nat): (folds: seq<Profile>)
    requires forall b :: 0 <= b < |batches| ==> AllShaped(batches[b], n)
    ensures |folds| == |batches| && AllShaped(folds, n)
    ensures forall b :: 0 <= b < |batches| ==> folds[b] == FoldRows(Top(n), batches[b])
  {
    seq(|batches|, b requires 0 <= b < |batches| => FoldRows(Top(n), batches[b]))
  }

  /** Merging, in batch order, the folds of non-empty consecutive runs of rows is one
      sequential fold of all the rows: the deterministic fan-in of the engine. */
  lemma {:induction false} MergeBatchFolds(cur: Profile, batches: seq<seq<Profile>>)
    requires Shaped(cur, |cur.mp|)
    requires forall b :: 0 <= b < |batches| ==> batches[b] != [] && AllShaped(batches[b], |cur.mp|)
    ensures AllShaped(Flatten(batches), |cur.mp|)
    ensures FoldRows(cur, FoldEach(batches, |cur.mp|)) == FoldRows(cur, Flatten(batches))
    decreases |batches|
  {
    FlattenShaped(batches, |cur.mp|);
    var n := |cur.mp|;
    if batches != [] {
      var k := |batches| - 1;
      var front := batches[..k];
      MergeBatchFolds(cur, front);
      assert FoldEach(batches, n)[..k] == FoldEach(front, n);
      FlattenShaped(front, n);
      MergeFoldFromTop(FoldRows(cur, Flatten(front)), batches[k]);
      FoldAppend(cur, Flatten(front), batches[k]);
    }
  }

  // ---------------------------------------------------------------------------
  // Batch results and their merge (mergeMPResults)
  // ---------------------------------------------------------------------------

  /** A worker's result: optional MP and Idx slices (nil in Go when absent) and an error. */
  datatype Partial = Partial(mp: Option<seq<Dist>>, idx: Option<seq<int>>, err: Option<Error>)

  /** `&mpResult{}`: a batch that had nothing to do. */
  function EmptyPartial(): Partial {
    Partial(None, None, None)
  }

  /** `&mpResult{nil, nil, err}`. */
  function Failed(e: Error): Partial {
    Partial(None, None, Some(e))
  }

  /** A successful batch result. */
  function Done(p: Profile): Partial {
    Partial(Some(p.mp), Some(p.idx), None)
  }

  /** The merge folds a result only when it carries no error and both slices. */
  predicate Usable(r: Partial) {
    r.err.None? && r.mp.Some? && r.idx.Some?
  }

  function AsProfile(r: Partial): Profile
    requires Usable(r)
  {
    Profile(r.mp.value, r.idx.value)
  }

  /** Every result the merge folds has the context's profile length. */
  predicate UsablesShaped(rs: seq<Partial>, n: int) {
    forall k :: 0 <= k < |rs| && Usable(rs[k]) ==> Shaped(AsProfile(rs[k]), n)
  }

  /** The usable results, in channel-index order. */
  function UsableRows(rs: seq<Partial>): (out: seq<Profile>)
    ensures |out| <= |rs|
    ensures forall n :: UsablesShaped(rs, n) ==> AllShaped(out, n)
    decreases |rs|
  {
    if rs == [] then []
    else
      var last := rs[|rs| - 1];
      assert forall n :: UsablesShaped(rs, n) ==> UsablesShaped(rs[..|rs| - 1], n);
      UsableRows(rs[..|rs| - 1]) + if Usable(last) then [AsProfile(last)] else []
  }

  /** When the usable results are exactly the first `k`, the merge folds those, in order. */
  lemma {:induction false} UsablePrefix(rs: seq<Partial>, k: nat)
    requires k <= |rs|
    requires forall i :: 0 <= i < k ==> Usable(rs[i])
    requires forall i :: k <= i < |rs| ==> !Usable(rs[i])
    ensures |UsableRows(rs)| == k
    ensures forall i :: 0 <= i < k ==> UsableRows(rs)[i] == AsProfile(rs[i])
    decreases |rs|
  {
    if rs != [] {
      var front := rs[..|rs| - 1];
      if k == |rs| {
        UsablePrefix(front, k - 1);
      } else {
        UsablePrefix(front, k);
      }
    }
  }

  /** One more result read by the merge loop. */
  lemma MergeLoopStep(rs: seq<Partial>, i: nat)
    requires i < |rs|
    ensures Usable(rs[i]) ==> UsableRows(rs[..i + 1]) == UsableRows(rs[..i]) + [AsProfile(rs[i])]
    ensures !Usable(rs[i]) ==> UsableRows(rs[..i + 1]) == UsableRows(rs[..i])
    ensures LastError(rs[..i + 1]) == if rs[i].err.Some? then rs[i].err else LastError(rs[..i])
  {
    assert rs[..i + 1][..i] == rs[..i];
    assert UsableRows(rs[..i]) + [] == UsableRows(rs[..i]);
  }

  /** The position of the last result carrying an error, or -1. */
  function LastErrorAt(rs: seq<Partial>): (k: int)
    ensures -1 <= k < |rs|
    ensures k >= 0 ==> rs[k].err.Some?
    ensures forall i :: k < i < |rs| ==> rs[i].err.None?
    decreases |rs|
  {
    if rs == [] then -1
    else if rs[|rs| - 1].err.Some? then |rs| - 1
    else LastErrorAt(rs[..|rs| - 1])
  }

  /** The error mergeMPResults returns: that of the last erroring result, or none. */
  function LastError(rs: seq<Partial>): Option<Error> {
    var k := LastErrorAt(rs);
    if k < 0 then None else rs[k].err
  }

  /** The position of the last usable result whose entry j equals `v`, or -1. */
  function LastTaker(rs: seq<Partial>, n: int, j: nat, v: Dist): (k: int)
    requires UsablesShaped(rs, n) && j < n
    ensures -1 <= k < |rs|
    ensures k >= 0 ==> Usable(rs[k]) && rs[k].mp.value[j] == v
    ensures forall i :: k < i < |rs| && Usable(rs[i]) ==> rs[i].mp.value[j] != v
    decreases |rs|
  {
    if rs == [] then -1
    else if Usable(rs[|rs| - 1]) && rs[|rs| - 1].mp.value[j] == v then |rs| - 1
    else LastTaker(rs[..|rs| - 1], n, j, v)
  }

  /** Merging keeps the minimum: each entry ends at most its prior value and at most
      every usable result's entry, and its index is that of the last usable result
      equal to the final value, or unchanged (with the value) when none is; error and
      empty results play no part. */
  lemma {:induction false} MergeKeepsMinimum(cur: Profile, rs: seq<Partial>, j: nat)
    requires Shaped(cur, |cur.mp|) && UsablesShaped(rs, |cur.mp|) && j < |cur.mp|
    ensures var f := FoldRows(cur, UsableRows(rs));
            && Le(f.mp[j], cur.mp[j])
            && (forall k :: 0 <= k < |rs| && Usable(rs[k]) ==> Le(f.mp[j], rs[k].mp.value[j]))
            && var t := LastTaker(rs, |cur.mp|, j, f.mp[j]);
               if t < 0 then f.mp[j] == cur.mp[j] && f.idx[j] == cur.idx[j]
               else f.idx[j] == rs[t].idx.value[j]
    decreases |rs|
  {
    var n := |cur.mp|;
    if rs != [] {
      var k := |rs| - 1;
      var front := rs[..k];
      assert UsablesShaped(front, n);
      MergeKeepsMinimum(cur, front, j);
      var g := FoldRows(cur, UsableRows(front));
      var last := rs[k];
      if Usable(last) {
        var x := AsProfile(last);
        assert UsableRows(rs) == UsableRows(front) + [x];
        assert UsableRows(rs)[..|UsableRows(rs)| - 1] == UsableRows(front);
        var f := FoldRows(cur, UsableRows(rs));
        assert f == Merge(g, x);
        LeTotalOrder(f.mp[j], g.mp[j], cur.mp[j]);
        forall i | 0 <= i < |rs| && Usable(rs[i])
          ensures Le(f.mp[j], rs[i].mp.value[j])
        {
          if i < k {
            assert front[i] == rs[i];
            LeTotalOrder(f.mp[j], g.mp[j], rs[i].mp.value[j]);
          }
        }
        if f.mp[j] != x.mp[j] {
          assert LastTaker(rs, n, j, f.mp[j]) == LastTaker(front, n, j, f.mp[j]);
        }
      } else {
        assert UsableRows(rs) == UsableRows(front);
        assert LastTaker(rs, n, j, g.mp[j]) == LastTaker(front, n, j, g.mp[j]);
        forall i | 0 <= i < |rs| && Usable(rs[i])
          ensures Le(g.mp[j], rs[i].mp.value[j])
        {
          assert front[i] == rs[i];
        }
      }
    }
  }
}
