/** What the batch workers of stamp and stomp return, as functions of the series. */
module BatchSpecs {
  import opened ProfileValues
  import opened ProfileMerge
  import opened Batching
  import opened SlidingDot
  import opened DistanceProfiles
  import opened RowFolds

  /** Go's `int(x)` for a float64, which truncates toward zero. */
  function Trunc(x: real): (t: int)
    ensures x >= 0.0 ==> 0 <= t && t as real <= x < t as real + 1.0
    ensures x < 0.0 ==> t <= 0 && x <= t as real < x + 1.0
  {
    if x >= 0.0 then x.Floor else -((-x).Floor)
  }

  /** The query rows of stmp and stampBatch: distanceProfile on the current series. */
  function QueryFn(a: seq<real>, b: seq<real>, m: nat, mass: MassFn): RowFn {
    (q: nat) => DistanceProfile(a, b, m, q, mass)
  }

  lemma QueryFnFits(a: seq<real>, b: seq<real>, m: nat, mass: MassFn)
    requires MassShaped(mass, m)
    ensures RowsFit(QueryFn(a, b, m, mass), |b| - m + 1)
  {
  }

  /** `0, 1, ..., k-1`: the query order of stmp (line 176). */
  function Range(k: nat): (r: seq<nat>)
    ensures |r| == k && forall i :: 0 <= i < k ==> r[i] == i
  {
    seq(k, i requires 0 <= i < k => i)
  }

  /** The permutation positions a STAMP batch visits (lines 348-351): `count` from
      `start`, cut at the end of the permutation. */
  function StampQueries(perm: seq<nat>, start: nat, count: int): (qs: seq<nat>)
    ensures start < |perm| && count > 0 ==> qs == perm[start..Min(start + count, |perm|)]
    ensures start >= |perm| || count <= 0 ==> qs == []
  {
    if start >= |perm| || count <= 0 then [] else perm[start..Min(start + count, |perm|)]
  }

  /** The number of rows a STAMP batch reads, `int(float64(batchSize)*sample)`. */
  function StampCount(bs: int, sample: real): int {
    Trunc(bs as real * sample)
  }

  /** With a sample in (0, 1], a STAMP batch visits at most `bs` positions, and they
      are the leading positions of its own batch of the permutation: batches never
      visit each other's positions. */
  lemma StampVisitsOwnBatch(perm: seq<nat>, idx: nat, bs: int, sample: real)
    requires bs >= 1 && 0.0 < sample <= 1.0
    ensures var qs := StampQueries(perm, idx * bs, StampCount(bs, sample));
            && 0 <= StampCount(bs, sample) <= bs
            && qs <= BatchSlice(perm, bs, idx)
            && (idx * bs < |perm| ==> |qs| == Min(StampCount(bs, sample), |perm| - idx * bs))
  {
    var count := StampCount(bs, sample);
    assert bs as real * sample <= bs as real;
    assert count <= bs;
  }

  /** The visited positions grow one at a time. */
  lemma StampQueriesSnoc(perm: seq<nat>, start: nat, i: nat)
    requires start + i < |perm|
    ensures StampQueries(perm, start, i + 1) == StampQueries(perm, start, i) + [perm[start + i]]
  {
  }

  /** Cutting the visit short at `i` gives its first `i` positions. */
  lemma StampQueriesPrefix(perm: seq<nat>, start: nat, count: int, i: nat)
    requires i <= count && start + i <= |perm|
    ensures i <= |StampQueries(perm, start, count)|
    ensures StampQueries(perm, start, count)[..i] == StampQueries(perm, start, i)
  {
  }

  /** stampBatch (lines 328-363): empty past the end of A; otherwise the fold of the
      visited queries from +Inf, or the first error met. */
  function StampBatchSpec(a: seq<real>, b: seq<real>, m: nat, idx: nat, bs: int, sample: real,
                          perm: seq<nat>, mass: MassFn): Partial
    requires bs >= 1 && m <= |b| && MassShaped(mass, m)
  {
    if idx * bs + m > |a| then EmptyPartial()
    else
      QueryFnFits(a, b, m, mass);
      var qs := StampQueries(perm, idx * bs, StampCount(bs, sample));
      var o := FoldQueries(Top(|b| - m + 1), qs, QueryFn(a, b, m, mass));
      if o.err.Some? then Failed(o.err.value) else Done(o.profile)
  }

  /** A batch whose visit folds without error returns the profile reached. */
  lemma StampBatchDone(a: seq<real>, b: seq<real>, m: nat, idx: nat, bs: int, sample: real,
                       perm: seq<nat>, mass: MassFn, acc: Profile)
    requires bs >= 1 && m <= |b| && MassShaped(mass, m) && idx * bs + m <= |a|
    requires RowsFit(QueryFn(a, b, m, mass), |b| - m + 1)
    requires FoldQueries(Top(|b| - m + 1), StampQueries(perm, idx * bs, StampCount(bs, sample)), QueryFn(a, b, m, mass))
          == Outcome(acc, None)
    ensures StampBatchSpec(a, b, m, idx, bs, sample, perm, mass) == Done(acc)
  {
  }

  /** A batch whose `i+1` first visited queries fail at the last one returns that error. */
  lemma StampBatchFails(a: seq<real>, b: seq<real>, m: nat, idx: nat, bs: int, sample: real,
                        perm: seq<nat>, mass: MassFn, i: nat, e: Error)
    requires bs >= 1 && m <= |b| && MassShaped(mass, m) && idx * bs + m <= |a|
    requires i < StampCount(bs, sample) && idx * bs + i < |perm|
    requires RowsFit(QueryFn(a, b, m, mass), |b| - m + 1)
    requires FoldQueries(Top(|b| - m + 1), StampQueries(perm, idx * bs, i + 1), QueryFn(a, b, m, mass)).err == Some(e)
    ensures StampBatchSpec(a, b, m, idx, bs, sample, perm, mass) == Failed(e)
  {
    var start, count := idx * bs, StampCount(bs, sample);
    StampQueriesPrefix(perm, start, count, i + 1);
    FoldQueriesStops(Top(|b| - m + 1), StampQueries(perm, start, count), i + 1, QueryFn(a, b, m, mass));
  }

  /** The results of the `parallelism` STAMP batches, in channel order. */
  function StampPartials(a: seq<real>, b: seq<real>, m: nat, sample: real, parallelism: int,
                         perm: seq<nat>, mass: MassFn): (rs: seq<Partial>)
    requires parallelism >= 1 && |a| + 1 >= m && m <= |b| && MassShaped(mass, m)
    ensures |rs| == parallelism && UsablesShaped(rs, |b| - m + 1)
  {
    var bs := BatchSize(|a| - m + 1, parallelism);
    seq(parallelism, idx requires 0 <= idx < parallelism => StampBatchSpec(a, b, m, idx, bs, sample, perm, mass))
  }

  /** Row `q` as stompBatch produces it: the sliding dot products of query window `q`
      converted to distances, recorded with index `q`. */
  function StompRow(a: seq<real>, b: seq<real>, m: nat, conv: DistFn, q: nat): (row: Profile)
    requires q + m <= |a| && m <= |b|
    ensures Shaped(row, |b| - m + 1)
  {
    RowOf(ConvRow(CrossCorrelate(a, b, q, m), q, conv), q)
  }

  /** The rows of every query window of A, in order; none when A is shorter than a
      window. */
  function StompRows(a: seq<real>, b: seq<real>, m: nat, conv: DistFn): (rows: seq<Profile>)
    requires m <= |b|
    ensures |a| + 1 >= m ==> |rows| == |a| - m + 1
    ensures |a| + 1 < m ==> rows == []
    ensures AllShaped(rows, |b| - m + 1)
  {
    if |a| + 1 < m then []
    else seq(|a| - m + 1, q requires 0 <= q < |a| - m + 1 => StompRow(a, b, m, conv, q))
  }

  lemma StompRowsAt(a: seq<real>, b: seq<real>, m: nat, conv: DistFn, q: nat)
    requires q + m <= |a| && m <= |b|
    ensures StompRows(a, b, m, conv)[q] == StompRow(a, b, m, conv, q)
  {
  }

  /** The fold from +Inf of the rows of query windows `start .. start+count-1`, one
      row after the other, as stompBatch's loop builds it. */
  function StompFold(a: seq<real>, b: seq<real>, m: nat, conv: DistFn, start: nat, count: nat): (p: Profile)
    requires start + count + m <= |a| + 1 && m <= |b|
    ensures Shaped(p, |b| - m + 1)
    decreases count
  {
    if count == 0 then Top(|b| - m + 1)
    else Merge(StompFold(a, b, m, conv, start, count - 1), StompRow(a, b, m, conv, start + (count - 1)))
  }

  /** The row-by-row fold is the fold of any slice holding the same rows. */
  lemma {:induction false} StompFoldOf(a: seq<real>, b: seq<real>, m: nat, conv: DistFn, start: nat, count: nat,
                                       rows: seq<Profile>)
    requires start + count + m <= |a| + 1 && m <= |b|
    requires start + count <= |rows| && AllShaped(rows, |b| - m + 1)
    requires forall q {:trigger StompRow(a, b, m, conv, q)} :: start <= q < start + count ==> rows[q] == StompRow(a, b, m, conv, q)
    ensures StompFold(a, b, m, conv, start, count) == FoldRows(Top(|b| - m + 1), rows[start..start + count])
    decreases count
  {
    if count == 0 {
      assert rows[start..start] == [];
    } else {
      StompFoldOf(a, b, m, conv, start, count - 1, rows);
      FoldNext(rows, start, start + (count - 1), start + count, |b| - m + 1);
    }
  }

  /** The row-by-row fold is the fold of the corresponding slice of StompRows. */
  lemma StompFoldSlice(a: seq<real>, b: seq<real>, m: nat, conv: DistFn, start: nat, count: nat)
    requires start + count + m <= |a| + 1 && m <= |b|
    ensures StompFold(a, b, m, conv, start, count)
         == FoldRows(Top(|b| - m + 1), StompRows(a, b, m, conv)[start..start + count])
  {
    var all := StompRows(a, b, m, conv);
    forall q | start <= q < start + count
      ensures all[q] == StompRow(a, b, m, conv, q)
    {
      StompRowsAt(a, b, m, conv, q);
    }
    StompFoldOf(a, b, m, conv, start, count, all);
  }

  /** stompBatch (lines 410-472): empty past the end of A; otherwise the fold from
      +Inf of the rows of the batch's query windows. */
  function StompBatchSpec(a: seq<real>, b: seq<real>, m: nat, idx: nat, bs: int, conv: DistFn): Partial
    requires m <= |b| && (idx * bs + m <= |a| ==> bs >= 1)
  {
    if idx * bs + m > |a| then EmptyPartial()
    else Done(FoldRows(Top(|b| - m + 1), BatchSlice(StompRows(a, b, m, conv), bs, idx)))
  }

  /** A batch whose loop stopped after `i` rows, at the batch size or at the last
      query window of A, returns the fold of its slice of the rows. */
  lemma StompBatchDone(a: seq<real>, b: seq<real>, m: nat, conv: DistFn, idx: nat, bs: int, i: nat, r: Profile)
    requires bs >= 1 && 1 <= m <= |b| && idx * bs + m <= |a|
    requires 1 <= i <= bs && idx * bs + i + m <= |a| + 1
    requires i == bs || idx * bs + i + m > |a|
    requires r == StompFold(a, b, m, conv, idx * bs, i)
    ensures StompBatchSpec(a, b, m, idx, bs, conv) == Done(r)
  {
    var start := idx * bs;
    StompFoldSlice(a, b, m, conv, start, i);
    StartSucc(idx, bs);
    assert StompRows(a, b, m, conv)[start..start + i] == BatchSlice(StompRows(a, b, m, conv), bs, idx);
  }

  /** The results of the `parallelism` STOMP batches, in channel order. */
  function StompPartials(a: seq<real>, b: seq<real>, m: nat, parallelism: int, conv: DistFn): (rs: seq<Partial>)
    requires parallelism >= 1 && m <= |b|
    ensures |rs| == parallelism && UsablesShaped(rs, |b| - m + 1)
  {
    var bs := BatchSize(|a| - m + 1, parallelism);
    seq(parallelism, idx requires 0 <= idx < parallelism =>
      StompSizeOk(a, m, parallelism, idx);
      StompBatchSpec(a, b, m, idx, bs, conv))
  }

  /** A STOMP batch that gets past the early exit has a size of at least 1: with no
      query window in A, every batch stops at the early exit. */
  lemma StompSizeOk(a: seq<real>, m: nat, parallelism: int, idx: nat)
    requires parallelism >= 1 && idx < parallelism
    ensures var bs := BatchSize(|a| - m + 1, parallelism);
            idx * bs + m <= |a| ==> bs >= 1 && |a| + 1 >= m
  {
    if |a| + 1 < m {
      NegativeTotalStarts(|a| - m + 1, parallelism, idx);
    }
  }

  /** With no query window in A, every STOMP batch returns the empty result, and there
      are no rows. */
  lemma StompNoWindows(a: seq<real>, b: seq<real>, m: nat, parallelism: int, conv: DistFn)
    requires parallelism >= 1 && m <= |b| && |a| + 1 < m
    ensures StompRows(a, b, m, conv) == []
    ensures forall i :: 0 <= i < parallelism ==> StompPartials(a, b, m, parallelism, conv)[i] == EmptyPartial()
  {
    forall i | 0 <= i < parallelism
      ensures StompPartials(a, b, m, parallelism, conv)[i] == EmptyPartial()
    {
      NegativeTotalStarts(|a| - m + 1, parallelism, i);
    }
  }

  /** No STOMP batch fails. */
  lemma StompNeverFails(a: seq<real>, b: seq<real>, m: nat, parallelism: int, conv: DistFn)
    requires parallelism >= 1 && m <= |b|
    ensures LastError(StompPartials(a, b, m, parallelism, conv)) == None
  {
    var rs := StompPartials(a, b, m, parallelism, conv);
    assert forall k :: 0 <= k < |rs| ==> rs[k].err.None?;
  }

  /** The batches that get past the early exit are the leading `LiveBatches` ones,
      and they cover every query window of A. */
  lemma StompLiveBatches(a: seq<real>, b: seq<real>, m: nat, parallelism: int, conv: DistFn)
    requires parallelism >= 1 && |a| + 1 >= m && m <= |b|
    ensures var bs := BatchSize(|a| - m + 1, parallelism);
            var k := LiveBatches(|a| - m + 1, bs);
            var rs := StompPartials(a, b, m, parallelism, conv);
            var all := StompRows(a, b, m, conv);
            && k <= parallelism && Start(k, bs) >= |all|
            && (forall i :: 0 <= i < k ==> Start(i, bs) < |all|)
            && (forall i :: 0 <= i < k ==> rs[i] == Done(FoldRows(Top(|b| - m + 1), BatchSlice(all, bs, i))))
            && (forall i :: k <= i < parallelism ==> rs[i] == EmptyPartial())
  {
    var bs := BatchSize(|a| - m + 1, parallelism);
    var k := LiveBatches(|a| - m + 1, bs);
    assert !(parallelism * bs < |a| - m + 1);
  }

  /** STOMP's batches, merged in channel order, give the sequential fold of the rows
      of every query window of A, in order: the parallel split changes nothing. */
  lemma StompMergesAllRows(cur: Profile, a: seq<real>, b: seq<real>, m: nat, parallelism: int, conv: DistFn)
    requires parallelism >= 1 && m <= |b| && Shaped(cur, |b| - m + 1)
    ensures FoldRows(cur, UsableRows(StompPartials(a, b, m, parallelism, conv))) == FoldRows(cur, StompRows(a, b, m, conv))
  {
    if |a| + 1 < m {
      StompNoWindows(a, b, m, parallelism, conv);
      UsablePrefix(StompPartials(a, b, m, parallelism, conv), 0);
      return;
    }
    var bs := BatchSize(|a| - m + 1, parallelism);
    StompLiveBatches(a, b, m, parallelism, conv);
    MergeLiveBatches(cur, StompRows(a, b, m, conv), StompPartials(a, b, m, parallelism, conv), bs,
                     LiveBatches(|a| - m + 1, bs));
  }
}
