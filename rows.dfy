/** Folding distance-profile rows query by query, as stmp and stampBatch do: each
    query's row is computed and folded with `<=` at once, and the first failing
    query stops the loop with its error. */
module RowFolds {
  import opened ProfileValues
  import opened ProfileMerge

  /** The distance profile of a query index, or its error. */
  type RowFn = nat -> Result<seq<Dist>>

  /** Every successful row has `n` entries. */
  ghost predicate RowsFit(dp: RowFn, n: int) {
    forall q :: dp(q).Ok? ==> |dp(q).value| == n
  }

  /** The profile reached and the error that stopped the loop, if any. */
  datatype Outcome = Outcome(profile: Profile, err: Option<Error>)

  /** The loop over the queries `qs`, in order: each row is folded into the profile
      under the query's index; the first failing query ends the loop with what was
      folded before it. */
  function FoldQueries(cur: Profile, qs: seq<nat>, dp: RowFn): (r: Outcome)
    requires Shaped(cur, |cur.mp|) && RowsFit(dp, |cur.mp|)
    ensures Shaped(r.profile, |cur.mp|)
    decreases |qs|
  {
    if qs == [] then Outcome(cur, None)
    else
      var front := FoldQueries(cur, qs[..|qs| - 1], dp);
      var q := qs[|qs| - 1];
      if front.err.Some? then front
      else match dp(q)
        case Err(e) => Outcome(front.profile, Some(e))
        case Ok(row) => Outcome(Merge(front.profile, RowOf(row, q)), None)
  }

  /** Once a prefix of the queries has failed, the later queries change nothing. */
  lemma {:induction false} FoldQueriesStops(cur: Profile, qs: seq<nat>, i: nat, dp: RowFn)
    requires Shaped(cur, |cur.mp|) && RowsFit(dp, |cur.mp|) && i <= |qs|
    requires FoldQueries(cur, qs[..i], dp).err.Some?
    ensures FoldQueries(cur, qs, dp) == FoldQueries(cur, qs[..i], dp)
    decreases |qs|
  {
    if i < |qs| {
      var front := qs[..|qs| - 1];
      assert front[..i] == qs[..i];
      FoldQueriesStops(cur, front, i, dp);
    } else {
      assert qs[..i] == qs;
    }
  }

  /** One more query after a prefix that has not failed. */
  lemma FoldQueriesSnoc(cur: Profile, qs: seq<nat>, q: nat, dp: RowFn)
    requires Shaped(cur, |cur.mp|) && RowsFit(dp, |cur.mp|)
    requires FoldQueries(cur, qs, dp).err.None?
    ensures dp(q).Err? ==> FoldQueries(cur, qs + [q], dp) == Outcome(FoldQueries(cur, qs, dp).profile, Some(dp(q).error))
    ensures dp(q).Ok? ==> FoldQueries(cur, qs + [q], dp) == Outcome(Merge(FoldQueries(cur, qs, dp).profile, RowOf(dp(q).value, q)), None)
  {
    assert (qs + [q])[..|qs|] == qs;
  }

  /** The position of the first failing query of `qs`, or `|qs|`. */
  function FirstFailure(qs: seq<nat>, dp: RowFn): (f: nat)
    ensures f <= |qs|
    ensures forall k :: 0 <= k < f ==> dp(qs[k]).Ok?
    ensures f < |qs| ==> dp(qs[f]).Err?
    decreases |qs|
  {
    if qs == [] then 0
    else
      var f := FirstFailure(qs[..|qs| - 1], dp);
      if f < |qs| - 1 then f
      else if dp(qs[|qs| - 1]).Err? then |qs| - 1
      else |qs|
  }

  /** The rows of queries that all succeed, each recorded with its query index. */
  function QueryRows(qs: seq<nat>, dp: RowFn): (rows: seq<Profile>)
    requires forall k :: 0 <= k < |qs| ==> dp(qs[k]).Ok?
    ensures |rows| == |qs|
    ensures forall k :: 0 <= k < |qs| ==> rows[k] == RowOf(dp(qs[k]).value, qs[k])
    ensures forall n :: RowsFit(dp, n) ==> AllShaped(rows, n)
  {
    seq(|qs|, k requires 0 <= k < |qs| => RowOf(dp(qs[k]).value, qs[k]))
  }

  /** The query loop is the row fold of the queries before the first failure, and
      reports that failure's error; with no failing query it is the fold of all the
      rows and reports no error. */
  lemma {:induction false} FoldQueriesMeaning(cur: Profile, qs: seq<nat>, dp: RowFn)
    requires Shaped(cur, |cur.mp|) && RowsFit(dp, |cur.mp|)
    ensures var f := FirstFailure(qs, dp);
            && FoldQueries(cur, qs, dp).profile == FoldRows(cur, QueryRows(qs[..f], dp))
            && FoldQueries(cur, qs, dp).err == if f < |qs| then Some(dp(qs[f]).error) else None
    decreases |qs|
  {
    var f := FirstFailure(qs, dp);
    if qs != [] {
      var n := |qs| - 1;
      var front := qs[..n];
      FoldQueriesMeaning(cur, front, dp);
      var g := FirstFailure(front, dp);
      assert front[..g] == qs[..g];
      if g == n && f == |qs| {
        var rows := QueryRows(qs, dp);
        assert qs[..f] == qs;
        assert rows[..n] == QueryRows(front, dp);
        assert front[..g] == front;
      }
    }
  }

  /** The least entry of `row` and the first position holding it, as Update's
      `minVal`/`minIdx` loop finds it with strict `<` from +Inf and MaxInt64. */
  function FirstMin(row: seq<Dist>): (r: (Dist, int))
    ensures r.0 == Inf ==> r.1 == MaxInt64 && forall k :: 0 <= k < |row| ==> row[k] == Inf
    ensures r.0 != Inf ==> 0 <= r.1 < |row| && row[r.1] == r.0
    ensures forall k :: 0 <= k < |row| ==> Le(r.0, row[k])
    ensures r.0 != Inf ==> forall k :: 0 <= k < r.1 ==> Lt(r.0, row[k])
    decreases |row|
  {
    if row == [] then (Inf, MaxInt64)
    else
      var front := FirstMin(row[..|row| - 1]);
      var last := row[|row| - 1];
      if Lt(last, front.0) then (last, |row| - 1) else front
  }

  /** Lines 355-360 and 464-469: folding one row into a batch's result buffers. */
  method FoldInto(mp: array<Dist>, ix: array<int>, row: Profile)
    requires mp.Length == ix.Length && Shaped(row, mp.Length)
    modifies mp, ix
    ensures Profile(mp[..], ix[..]) == Merge(old(Profile(mp[..], ix[..])), row)
  {
    ghost var cur := Profile(mp[..], ix[..]);
    ghost var target := Merge(cur, row);
    for j := 0 to mp.Length
      invariant forall k :: 0 <= k < j ==> mp[k] == target.mp[k] && ix[k] == target.idx[k]
      invariant forall k :: j <= k < mp.Length ==> mp[k] == cur.mp[k] && ix[k] == cur.idx[k]
    {
      if Le(row.mp[j], mp[j]) {
        mp[j] := row.mp[j];
        ix[j] := row.idx[j];
      }
    }
    assert mp[..] == target.mp;
    assert ix[..] == target.idx;
  }
}
