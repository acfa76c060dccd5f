/** MPX as index structure (compute.go, mpx, runMpxABJoin, mpxabBatch).

    A pass walks diagonals of the distance matrix. Along diagonal `d` it keeps a
    running covariance `c`, started directly from the first window pair and
    then updated from the df/dg deltas. At every cell it offers the normalised
    correlation to one or two profile slots. A slot takes an offered value only
    when the value is strictly greater, and then stores it clamped to at most 1.
    The statistics (util.MuInvN) are given. The numbers are exact reals here; the
    final conversion from correlation to distance is an injected function. */
module MpxDiagonals {
  import opened ProfileValues
  import opened ProfileMerge
  import opened Batching

  /** The outputs of util.MuInvN for one series: rolling means and inverse norms. */
  datatype MuSig = MuSig(mu: seq<real>, sig: seq<real>)

  /** One series with its per-window statistics and the df/dg deltas of mpx. */
  datatype SeriesStats = SeriesStats(s: seq<real>, mu: seq<real>, sig: seq<real>, df: seq<real>, dg: seq<real>)

  /** Number of windows of length `m` in the series. */
  function Windows(st: SeriesStats, m: nat): int {
    |st.s| - m + 1
  }

  predicate StatsOk(st: SeriesStats, m: nat) {
    && |st.s| >= m
    && |st.mu| == Windows(st, m) && |st.sig| == Windows(st, m)
    && |st.df| == Windows(st, m) && |st.dg| == Windows(st, m)
  }

  /** One call of mpxabBatch after the flip of lines 585-591. The pass walks the
      diagonals of `a`; `b` is the other series. In the `ab` pass `a` is mp.A. In
      the flipped pass `a` is mp.B. */
  datatype Pass = Pass(a: SeriesStats, b: SeriesStats, m: nat, selfJoin: bool, ab: bool)

  predicate PassOk(p: Pass) {
    && p.m >= 1
    && StatsOk(p.a, p.m) && StatsOk(p.b, p.m)
    && (p.selfJoin ==> p.a == p.b && p.ab)
  }

  /** The pass for runMpxABJoin's `ab` flag: the series as given, or flipped (lines 585-591). */
  function MakePass(sa: SeriesStats, sb: SeriesStats, m: nat, selfJoin: bool, ab: bool): (p: Pass)
    ensures p.ab == ab && p.m == m && p.selfJoin == selfJoin
    ensures ab ==> p.a == sa && p.b == sb
    ensures !ab ==> p.a == sb && p.b == sa
  {
    if ab then Pass(sa, sb, m, selfJoin, true) else Pass(sb, sa, m, selfJoin, false)
  }

  function LenA(p: Pass): int { Windows(p.a, p.m) }

  function LenB(p: Pass): int { Windows(p.b, p.m) }

  /** The length of the batch's profile: `len(mp.A)-M+1`, that is, the number of windows
      of mp.A, which is `a` in the `ab` pass and `b` in the flipped one. */
  function ProfileLen(p: Pass): int {
    if p.ab then LenA(p) else LenB(p)
  }

  /** Lines 619-626 run: slot `offset+diag` is offered the value, with index `offset`. */
  predicate Side1(p: Pass) { p.selfJoin || p.ab }

  /** Lines 628-635 run: slot `offset` is offered the value, with index `offset+diag`. */
  predicate Side2(p: Pass) { p.selfJoin || !p.ab }

  /** Lines 604-614: the ab and flipped branches (written there with the unflipped
      lengths) both say `min(LenA - diag, LenB)` in terms of the flipped pair. */
  function OffsetMax(p: Pass, d: nat): int
    requires d < LenA(p)
  {
    Min(LenA(p) - d, LenB(p))
  }

  /** Lines 600-602, summed over the first k terms. */
  function InitCovSum(p: Pass, d: nat, k: nat): real
    requires PassOk(p) && d < LenA(p) && k <= p.m
  {
    if k == 0 then 0.0
    else InitCovSum(p, d, k - 1) + (p.a.s[d + k - 1] - p.a.mu[d]) * (p.b.s[k - 1] - p.b.mu[0])
  }

  /** The running covariance `c` of diagonal `d` after `k` updates of line 617. */
  function Cov(p: Pass, d: nat, k: nat): real
    requires PassOk(p) && d < LenA(p) && k <= OffsetMax(p, d)
  {
    if k == 0 then InitCovSum(p, d, p.m)
    else Cov(p, d, k - 1) + p.b.df[k - 1] * p.a.dg[k - 1 + d] + p.a.df[k - 1 + d] * p.b.dg[k - 1]
  }

  /** `c_cmp` at cell `(d, o)`, line 618. */
  function Corr(p: Pass, d: nat, o: nat): real
    requires PassOk(p) && d < LenA(p) && o < OffsetMax(p, d)
  {
    Cov(p, d, o + 1) * (p.b.sig[o] * p.a.sig[o + d])
  }

  function Clamp(v: real): real {
    if v > 1.0 then 1.0 else v
  }

  /** A batch's correlation profile and index while it is being filled. */
  datatype CorrState = CorrState(c: seq<real>, idx: seq<int>)

  predicate Fits(p: Pass, s: CorrState) {
    |s.c| == ProfileLen(p) && |s.idx| == ProfileLen(p)
  }

  /** Lines 573-579: every slot -1, every index 0. */
  function Init(n: nat): CorrState {
    CorrState(seq(n, _ => -1.0), seq(n, _ => 0))
  }

  /** The update rule: the slot is overwritten only by a strictly greater value, and
      then holds that value clamped to at most 1. */
  function Offer(s: CorrState, pos: nat, v: real, partner: int): CorrState
    requires pos < |s.c| && |s.idx| == |s.c|
  {
    if v > s.c[pos] then CorrState(s.c[pos := Clamp(v)], s.idx[pos := partner]) else s
  }

  /** One cell of lines 617-636. When the first branch clamps `c_cmp`, the second
      branch compares the clamped value. */
  function Cell(p: Pass, s: CorrState, d: nat, o: nat): (r: CorrState)
    requires PassOk(p) && Fits(p, s) && d < LenA(p) && o < OffsetMax(p, d)
    ensures Fits(p, r)
  {
    var v := Corr(p, d, o);
    var v2 := if Side1(p) && v > s.c[o + d] then Clamp(v) else v;
    var s1 := if Side1(p) then Offer(s, o + d, v, o) else s;
    if Side2(p) then Offer(s1, o, v2, o + d) else s1
  }

  /** The first `k` cells of diagonal `d`. */
  function AlongDiag(p: Pass, s: CorrState, d: nat, k: nat): (r: CorrState)
    requires PassOk(p) && Fits(p, s) && d < LenA(p) && k <= OffsetMax(p, d)
    ensures Fits(p, r)
  {
    if k == 0 then s else Cell(p, AlongDiag(p, s, d, k - 1), d, k - 1)
  }

  /** Diagonals `lo .. d-1`, each walked to its end. */
  function AcrossDiags(p: Pass, s: CorrState, lo: nat, d: nat): (r: CorrState)
    requires PassOk(p) && Fits(p, s) && lo <= d <= LenA(p)
    ensures Fits(p, r)
    decreases d - lo
  {
    if d == lo then s else AlongDiag(p, AcrossDiags(p, s, lo, d - 1), d - 1, OffsetMax(p, d - 1))
  }

  // ---------------------------------------------------------------------------
  // Which diagonals a batch walks
  // ---------------------------------------------------------------------------

  /** Batch `idx` walks diagonal `d` when it passes the early-exit guard against
      `limit` (line 568) and `d` lies in its range before the break at `limit`
      (lines 595-598). */
  predicate WalksDiag(idx: int, bs: int, excl: int, limit: int, d: int) {
    && idx * bs + excl <= limit
    && idx * bs + excl <= d < (idx + 1) * bs + excl
    && d < limit
  }

  /** The limit compute.go uses in both passes: `lenA`, the window count of mp.A. */
  function AsWrittenDiagLimit(p: Pass): int {
    ProfileLen(p)
  }

  /** The limit of the walked series `a` itself: mp.A in the ab pass, mp.B once flipped. */
  function DiagLimit(p: Pass): int {
    LenA(p)
  }

  /** The correlation profile of a batch, with the corrected limit. */
  function BatchCorr(p: Pass, idx: nat, bs: int, excl: nat): (r: CorrState)
    requires PassOk(p) && idx * bs + excl <= DiagLimit(p)
    ensures Fits(p, r)
  {
    if bs < 1 then Init(ProfileLen(p))
    else AcrossDiags(p, Init(ProfileLen(p)), idx * bs + excl, Min(idx * bs + excl + bs, DiagLimit(p)))
  }

  /** Line 640-642: each correlation converted to a distance by the injected function. */
  function ToDists(c: seq<real>, toDist: real -> Dist): (r: seq<Dist>)
    ensures |r| == |c| && forall i :: 0 <= i < |c| ==> r[i] == toDist(c[i])
  {
    seq(|c|, i requires 0 <= i < |c| => toDist(c[i]))
  }

  /** What mpxabBatch returns, with the corrected limit. */
  function MpxBatchSpec(p: Pass, idx: nat, bs: int, excl: nat, toDist: real -> Dist): Partial
    requires PassOk(p)
  {
    if idx * bs + excl > DiagLimit(p) then EmptyPartial()
    else
      var s := BatchCorr(p, idx, bs, excl);
      Partial(Some(ToDists(s.c, toDist)), Some(s.idx), None)
  }

  /** The batch's walk is exactly the diagonals `WalksDiag` admits. */
  lemma BatchWalks(p: Pass, idx: nat, bs: int, excl: nat, d: int)
    requires PassOk(p) && bs >= 1
    ensures WalksDiag(idx, bs, excl, DiagLimit(p), d)
        <==> idx * bs + excl <= d < Min(idx * bs + excl + bs, DiagLimit(p))
  {
    assert (idx + 1) * bs == idx * bs + bs;
  }

  // ---------------------------------------------------------------------------
  // The update rule: bounds, provenance of the index, and the maximum
  // ---------------------------------------------------------------------------

  /** Slot `q` holding value `v` with index `r` records a cell of a diagonal `d` in
      `[lo, hi)` and the clamped correlation of that cell: from the first branch the
      cell is `(d, r)` with `d = q - r`, from the second it is `(d, q)` with
      `d = r - q`; either way the cell lies on the walked part of the diagonal. */
  predicate Records(p: Pass, lo: int, hi: int, q: int, r: int, v: real)
    requires PassOk(p)
  {
    || (&& Side1(p) && 0 <= r <= q && lo <= q - r < hi && q - r < LenA(p)
        && r < OffsetMax(p, q - r) && v == Clamp(Corr(p, q - r, r)))
    || (&& Side2(p) && 0 <= q <= r && lo <= r - q < hi && r - q < LenA(p)
        && q < OffsetMax(p, r - q) && v == Clamp(Corr(p, r - q, q)))
  }

  /** Slot `q` holds a value in [-1, 1], and when above -1 the clamped correlation of
      the cell its index records. */
  predicate SlotGood(p: Pass, lo: int, hi: int, s: CorrState, q: int)
    requires PassOk(p) && Fits(p, s) && 0 <= q < |s.c|
  {
    -1.0 <= s.c[q] <= 1.0 && (s.c[q] > -1.0 ==> Records(p, lo, hi, q, s.idx[q], s.c[q]))
  }

  /** Every slot is good. */
  predicate GoodState(p: Pass, lo: int, hi: int, s: CorrState)
    requires PassOk(p) && Fits(p, s)
  {
    forall q :: 0 <= q < |s.c| ==> SlotGood(p, lo, hi, s, q)
  }

  /** No slot of `t` is below the same slot of `s`. */
  predicate NoLower(s: CorrState, t: CorrState) {
    |s.c| == |t.c| && forall q :: 0 <= q < |s.c| ==> s.c[q] <= t.c[q]
  }

  /** Cell `(d, o)` has been offered to every slot it writes, clamped. */
  predicate Dominates(p: Pass, s: CorrState, d: nat, o: nat)
    requires PassOk(p) && Fits(p, s) && d < LenA(p) && o < OffsetMax(p, d)
  {
    && (Side1(p) ==> s.c[o + d] >= Clamp(Corr(p, d, o)))
    && (Side2(p) ==> s.c[o] >= Clamp(Corr(p, d, o)))
  }

  /** Offering `w` to a slot, with a partner that records a cell whose clamped value
      is `Clamp(w)`, keeps the state good, lowers nothing and leaves the slot at least
      `Clamp(w)`. */
  lemma OfferGood(p: Pass, lo: int, hi: int, s: CorrState, pos: nat, w: real, partner: int)
    requires PassOk(p) && Fits(p, s) && pos < |s.c| && GoodState(p, lo, hi, s)
    requires w > -1.0 ==> Records(p, lo, hi, pos, partner, Clamp(w))
    ensures Fits(p, Offer(s, pos, w, partner)) && GoodState(p, lo, hi, Offer(s, pos, w, partner))
    ensures NoLower(s, Offer(s, pos, w, partner))
    ensures Offer(s, pos, w, partner).c[pos] >= Clamp(w)
  {
    var r := Offer(s, pos, w, partner);
    forall q | 0 <= q < |r.c|
      ensures SlotGood(p, lo, hi, r, q)
    {
      assert SlotGood(p, lo, hi, s, q);
      if q == pos && w > s.c[pos] {
        assert r.c[q] == Clamp(w) && r.idx[q] == partner;
        assert Records(p, lo, hi, pos, partner, Clamp(w));
      } else {
        assert r.c[q] == s.c[q] && r.idx[q] == s.idx[q];
      }
    }
    assert SlotGood(p, lo, hi, s, pos);
    assert r.c[pos] >= s.c[pos] && r.c[pos] >= Clamp(w);
    assert forall q :: 0 <= q < |s.c| && q != pos ==> r.c[q] == s.c[q];
  }

  lemma CellGood(p: Pass, lo: int, hi: int, s: CorrState, d: nat, o: nat)
    requires PassOk(p) && Fits(p, s) && lo <= d < hi && d < LenA(p) && o < OffsetMax(p, d)
    requires GoodState(p, lo, hi, s)
    ensures GoodState(p, lo, hi, Cell(p, s, d, o))
    ensures NoLower(s, Cell(p, s, d, o))
    ensures Dominates(p, Cell(p, s, d, o), d, o)
  {
    var v := Corr(p, d, o);
    var v2 := if Side1(p) && v > s.c[o + d] then Clamp(v) else v;
    var s1 := if Side1(p) then Offer(s, o + d, v, o) else s;
    if Side1(p) {
      assert v > -1.0 ==> Records(p, lo, hi, o + d, o, Clamp(v)) by {
        assert (o + d) - o == d;
      }
      OfferGood(p, lo, hi, s, o + d, v, o);
    }
    assert GoodState(p, lo, hi, s1) && NoLower(s, s1);
    assert Side1(p) ==> s1.c[o + d] >= Clamp(v);
    var r := if Side2(p) then Offer(s1, o, v2, o + d) else s1;
    assert r == Cell(p, s, d, o);
    if Side2(p) {
      assert Clamp(v2) == Clamp(v);
      assert v2 > -1.0 ==> Records(p, lo, hi, o, o + d, Clamp(v2)) by {
        assert (o + d) - o == d;
      }
      OfferGood(p, lo, hi, s1, o, v2, o + d);
    }
    assert GoodState(p, lo, hi, r) && NoLower(s1, r);
  }

  lemma {:induction false} AlongDiagGood(p: Pass, lo: int, hi: int, s: CorrState, d: nat, k: nat)
    requires PassOk(p) && Fits(p, s) && lo <= d < hi && d < LenA(p) && k <= OffsetMax(p, d)
    requires GoodState(p, lo, hi, s)
    ensures GoodState(p, lo, hi, AlongDiag(p, s, d, k))
    ensures NoLower(s, AlongDiag(p, s, d, k))
    ensures forall o :: 0 <= o < k ==> Dominates(p, AlongDiag(p, s, d, k), d, o)
  {
    if k > 0 {
      AlongDiagGood(p, lo, hi, s, d, k - 1);
      var t := AlongDiag(p, s, d, k - 1);
      CellGood(p, lo, hi, t, d, k - 1);
      forall o | 0 <= o < k - 1
        ensures Dominates(p, AlongDiag(p, s, d, k), d, o)
      {
        DominatesKept(p, t, Cell(p, t, d, k - 1), d, o);
      }
    }
  }

  lemma DominatesKept(p: Pass, s: CorrState, t: CorrState, d: nat, o: nat)
    requires PassOk(p) && Fits(p, s) && Fits(p, t) && d < LenA(p) && o < OffsetMax(p, d)
    requires Dominates(p, s, d, o) && NoLower(s, t)
    ensures Dominates(p, t, d, o)
  {
  }

  /** Walking diagonals `lo .. d-1` keeps every slot in [-1, 1] holding the clamped
      correlation of the cell its index records,
      never lowers a slot, and leaves every slot at least the clamped value of each
      cell offered to it: each slot ends at the maximum of what it was offered. */
  lemma {:induction false} AcrossDiagsGood(p: Pass, hi: int, s: CorrState, lo: nat, d: nat)
    requires PassOk(p) && Fits(p, s) && lo <= d <= LenA(p) && d <= hi
    requires GoodState(p, lo, hi, s)
    ensures GoodState(p, lo, hi, AcrossDiags(p, s, lo, d))
    ensures NoLower(s, AcrossDiags(p, s, lo, d))
    ensures forall e, o :: lo <= e < d && 0 <= o < OffsetMax(p, e) ==> Dominates(p, AcrossDiags(p, s, lo, d), e, o)
    decreases d - lo
  {
    if d > lo {
      AcrossDiagsGood(p, hi, s, lo, d - 1);
      var t := AcrossDiags(p, s, lo, d - 1);
      AlongDiagGood(p, lo, hi, t, d - 1, OffsetMax(p, d - 1));
      var u := AcrossDiags(p, s, lo, d);
      assert u == AlongDiag(p, t, d - 1, OffsetMax(p, d - 1));
      forall e, o | lo <= e < d && 0 <= o < OffsetMax(p, e)
        ensures Dominates(p, u, e, o)
      {
        if e < d - 1 {
          DominatesKept(p, t, u, e, o);
        }
      }
    }
  }

  /** What one batch produces (corrected limit): every slot in [-1, 1]; a slot above
      -1 holds the clamped correlation of the cell its index records, a cell of one of
      the batch's diagonals; and every slot is at least the clamped correlation of
      every cell the batch offers it. Together: each slot holds the maximum of what the
      batch offered it, with the index of a cell that attains it. */
  lemma BatchCorrProperties(p: Pass, idx: nat, bs: int, excl: nat)
    requires PassOk(p) && bs >= 1 && idx * bs + excl <= DiagLimit(p)
    ensures var lo := idx * bs + excl;
            var hi := Min(lo + bs, DiagLimit(p));
            var s := BatchCorr(p, idx, bs, excl);
            && GoodState(p, lo, hi, s)
            && forall e, o :: lo <= e < hi && 0 <= o < OffsetMax(p, e) ==> Dominates(p, s, e, o)
  {
    var lo := idx * bs + excl;
    var hi := Min(lo + bs, DiagLimit(p));
    AcrossDiagsGood(p, hi, Init(ProfileLen(p)), lo, hi);
  }

  /** The self-join exclusion zone: a slot that took a value records a partner at
      least `excl` positions away. */
  lemma SelfJoinExclusionZone(p: Pass, idx: nat, bs: int, excl: nat, q: nat)
    requires PassOk(p) && p.selfJoin && bs >= 1 && idx * bs + excl <= DiagLimit(p)
    requires q < ProfileLen(p) && BatchCorr(p, idx, bs, excl).c[q] > -1.0
    ensures var r := BatchCorr(p, idx, bs, excl).idx[q];
            0 <= r < ProfileLen(p) && (r <= q - excl || r >= q + excl)
  {
    BatchCorrProperties(p, idx, bs, excl);
    var s := BatchCorr(p, idx, bs, excl);
    assert SlotGood(p, idx * bs + excl, Min(idx * bs + excl + bs, DiagLimit(p)), s, q);
    assert Records(p, idx * bs + excl, Min(idx * bs + excl + bs, DiagLimit(p)), q, s.idx[q], s.c[q]);
  }

  // ---------------------------------------------------------------------------
  // Coverage of the window pairs, and the as-written limit
  // ---------------------------------------------------------------------------

  /** Lines 523 and 568-598 with the corrected limit: every diagonal `d` in
      `[excl, LenA)` is walked by batch `(d-excl)/bs` of the `parallelism` batches. */
  lemma DiagonalsCovered(p: Pass, parallelism: int, excl: nat, d: int)
    requires PassOk(p) && parallelism >= 1 && excl <= d < DiagLimit(p)
    ensures var bs := BatchSize(DiagLimit(p) - excl + 1, parallelism);
            var idx := (d - excl) / bs;
            0 <= idx < parallelism && WalksDiag(idx, bs, excl, DiagLimit(p), d)
  {
    var total := DiagLimit(p) - excl + 1;
    var bs := BatchSize(total, parallelism);
    BatchesPartition(total, parallelism, d - excl);
    var idx := (d - excl) / bs;
    assert (idx + 1) * bs == idx * bs + bs;
  }

  /** With the corrected limit, every pair of a window `q` of the profile's series and
      a window `r` of the other series lies on a cell the passes walk: a cell of
      the ab pass (diagonal `q-r`, offset `r`) when `r <= q`, and of the flipped pass
      (diagonal `r-q`, offset `q`) otherwise. */
  lemma CorrectedPassesCoverAllPairs(pab: Pass, pba: Pass, parallelism: int, q: int, r: int)
    requires PassOk(pab) && PassOk(pba) && parallelism >= 1
    requires pab.ab && !pab.selfJoin && pba == Pass(pab.b, pab.a, pab.m, false, false)
    requires 0 <= q < LenA(pab) && 0 <= r < LenB(pab)
    ensures r <= q ==>
              var bs := BatchSize(LenA(pab) + 1, parallelism);
              && 0 <= (q - r) / bs < parallelism
              && WalksDiag((q - r) / bs, bs, 0, DiagLimit(pab), q - r)
              && r < OffsetMax(pab, q - r)
    ensures q < r ==>
              var bs := BatchSize(LenA(pba) + 1, parallelism);
              && 0 <= (r - q) / bs < parallelism
              && WalksDiag((r - q) / bs, bs, 0, DiagLimit(pba), r - q)
              && q < OffsetMax(pba, r - q)
  {
    if r <= q {
      DiagonalsCovered(pab, parallelism, 0, q - r);
    } else {
      DiagonalsCovered(pba, parallelism, 0, r - q);
    }
  }

  /** Every cell a batch visits with the corrected limit reads its series in range:
      the first covariance reads `a[d+m-1]`, the walk reads `a` at `o+d` and `b` at `o`. */
  lemma VisitedCellsInRange(p: Pass, idx: int, bs: int, excl: int, d: int, o: int)
    requires PassOk(p) && d >= 0 && WalksDiag(idx, bs, excl, DiagLimit(p), d)
    requires 0 <= o < OffsetMax(p, d)
    ensures d + p.m - 1 < |p.a.s| && o + d < LenA(p) && o < LenB(p)
  {
  }

  /** The as-written limit in the flipped pass of an AB-join with more windows in
      mp.A than in mp.B: some batch walks diagonal `LenA` of mp.B, whose first
      covariance reads `mp.B[LenA + m - 1]`, one past the end of mp.B. */
  lemma AsWrittenFlippedPassOverruns(p: Pass, parallelism: int)
    requires PassOk(p) && !p.ab && !p.selfJoin && parallelism >= 1
    requires ProfileLen(p) > LenA(p)
    ensures var bs := BatchSize(LenA(p) + 1, parallelism);
            var d := LenA(p);
            && 0 <= d / bs < parallelism
            && WalksDiag(d / bs, bs, 0, AsWrittenDiagLimit(p), d)
            && d + p.m - 1 >= |p.a.s|
  {
    var total := LenA(p) + 1;
    var bs := BatchSize(total, parallelism);
    BatchesPartition(total, parallelism, LenA(p));
    var idx := LenA(p) / bs;
    assert (idx + 1) * bs == idx * bs + bs;
  }

  /** The correlation profile of a batch with the as-written limit, where that limit
      does not run past the walked series (so no read is out of range). As with the
      corrected limit, each slot is the maximum of what the batch offered it, with the
      index of a cell that attains it. */
  function AsWrittenBatchCorr(p: Pass, idx: nat, bs: int, excl: nat): (r: CorrState)
    requires PassOk(p) && AsWrittenDiagLimit(p) <= LenA(p)
    requires idx * bs + excl <= AsWrittenDiagLimit(p)
    ensures Fits(p, r)
    ensures bs < 1 ==> r == Init(ProfileLen(p))
    ensures bs >= 1 ==>
            var lo := idx * bs + excl;
            var hi := Min(lo + bs, AsWrittenDiagLimit(p));
            && GoodState(p, lo, hi, r)
            && forall e, o :: lo <= e < hi && 0 <= o < OffsetMax(p, e) ==> Dominates(p, r, e, o)
  {
    if bs < 1 then Init(ProfileLen(p))
    else
      var lo := idx * bs + excl;
      var hi := Min(lo + bs, AsWrittenDiagLimit(p));
      AcrossDiagsGood(p, hi, Init(ProfileLen(p)), lo, hi);
      AcrossDiags(p, Init(ProfileLen(p)), lo, hi)
  }

  /** Slot 0 of an as-written batch of the AB-join passes, when it took a value,
      records a partner below `ProfileLen` of the flipped pass. */
  lemma AsWrittenSlotZero(p: Pass, idx: nat, bs: int)
    requires PassOk(p) && !p.selfJoin && AsWrittenDiagLimit(p) <= LenA(p)
    requires idx * bs <= AsWrittenDiagLimit(p)
    ensures var s := AsWrittenBatchCorr(p, idx, bs, 0);
            |s.c| > 0 && s.c[0] > -1.0 ==> 0 <= s.idx[0] < AsWrittenDiagLimit(p)
  {
    if bs >= 1 {
      var lo := idx * bs;
      var hi := Min(lo + bs, AsWrittenDiagLimit(p));
      AcrossDiagsGood(p, hi, Init(ProfileLen(p)), lo, hi);
      var s := AsWrittenBatchCorr(p, idx, bs, 0);
      if |s.c| > 0 && s.c[0] > -1.0 {
        assert SlotGood(p, lo, hi, s, 0);
        assert Records(p, lo, hi, 0, s.idx[0], s.c[0]);
      }
    }
  }

  /** The as-written limit in the flipped pass of an AB-join with more windows in
      mp.B than in mp.A: no batch walks diagonal `ProfileLen` of mp.B, and in neither
      pass does slot 0 (window 0 of mp.A) record window `ProfileLen` of mp.B as its
      partner, so that pair is never compared in the profile. */
  lemma AsWrittenFlippedPassMisses(pab: Pass, p: Pass, idx: nat, bs: int, idxab: nat, bsab: int)
    requires PassOk(pab) && pab.ab && !pab.selfJoin
    requires p == Pass(pab.b, pab.a, pab.m, false, false)
    requires LenA(p) > ProfileLen(p)
    requires idx * bs <= AsWrittenDiagLimit(p) && idxab * bsab <= AsWrittenDiagLimit(pab)
    ensures ProfileLen(p) < DiagLimit(p)
    ensures !WalksDiag(idx, bs, 0, AsWrittenDiagLimit(p), ProfileLen(p))
    ensures var s := AsWrittenBatchCorr(p, idx, bs, 0);
            |s.c| > 0 && s.c[0] > -1.0 ==> s.idx[0] != ProfileLen(p)
    ensures var t := AsWrittenBatchCorr(pab, idxab, bsab, 0);
            |t.c| > 0 && t.c[0] > -1.0 ==> t.idx[0] != ProfileLen(p)
  {
    AsWrittenSlotZero(p, idx, bs);
    AsWrittenSlotZero(pab, idxab, bsab);
  }

  // ---------------------------------------------------------------------------
  // The loops of mpx and mpxabBatch
  // ---------------------------------------------------------------------------

  /** The df deltas of mpx: 0 for the first window, then half the change between the
      entry leaving and the entry entering the window. */
  function DeltaF(s: seq<real>, m: nat): seq<real>
    requires m >= 1 && |s| >= m
  {
    seq(|s| - m + 1, i requires 0 <= i < |s| - m + 1 => if i == 0 then 0.0 else 0.5 * (s[m + i - 1] - s[i - 1]))
  }

  /** The dg deltas of mpx: 0 for the first window, then the deviations of the entering
      and the leaving entry from their windows' means. */
  function DeltaG(s: seq<real>, mu: seq<real>, m: nat): seq<real>
    requires m >= 1 && |s| >= m && |mu| == |s| - m + 1
  {
    seq(|s| - m + 1, i requires 0 <= i < |s| - m + 1 =>
      if i == 0 then 0.0 else (s[m + i - 1] - mu[i]) + (s[i - 1] - mu[i - 1]))
  }

  /** Lines 493-498 (and 501-506 for mp.B): the df/dg deltas of one series. */
  method ComputeDeltas(s: seq<real>, mu: seq<real>, m: nat) returns (df: seq<real>, dg: seq<real>)
    requires m >= 1 && |s| >= m && |mu| == |s| - m + 1
    ensures df == DeltaF(s, m) && dg == DeltaG(s, mu, m)
    ensures |df| == |mu| && |dg| == |mu|
    ensures df[0] == 0.0 && dg[0] == 0.0
    ensures forall i :: 1 <= i < |mu| ==> df[i] == 0.5 * (s[m + i - 1] - s[i - 1])
    ensures forall i :: 1 <= i < |mu| ==> dg[i] == (s[m + i - 1] - mu[i]) + (s[i - 1] - mu[i - 1])
  {
    var n := |mu|;
    var f := new real[n];
    var g := new real[n];
    f[0], g[0] := 0.0, 0.0;
    for i := 0 to n - 1
      invariant f[0] == 0.0 && g[0] == 0.0
      invariant forall t :: 1 <= t <= i ==> f[t] == 0.5 * (s[m + t - 1] - s[t - 1])
      invariant forall t :: 1 <= t <= i ==> g[t] == (s[m + t - 1] - mu[t]) + (s[t - 1] - mu[t - 1])
    {
      f[i + 1] := 0.5 * (s[m + i] - s[i]);
      g[i + 1] := (s[m + i] - mu[1 + i]) + (s[i] - mu[i]);
    }
    df, dg := f[..], g[..];
  }

  /** Lines 599-602: the covariance of the first window pair of diagonal `d`. */
  method InitialCov(p: Pass, d: nat) returns (c: real)
    requires PassOk(p) && d < LenA(p)
    ensures c == Cov(p, d, 0)
  {
    c := 0.0;
    for i := 0 to p.m
      invariant c == InitCovSum(p, d, i)
    {
      c := c + (p.a.s[d + i] - p.a.mu[d]) * (p.b.s[i] - p.b.mu[0]);
    }
  }

  /** Lines 618-636 for one cell, on the batch's buffers. */
  method OfferCell(p: Pass, mp: array<real>, ix: array<int>, d: nat, o: nat, cov: real)
    requires PassOk(p) && mp.Length == ProfileLen(p) && ix.Length == ProfileLen(p)
    requires d < LenA(p) && o < OffsetMax(p, d) && cov == Cov(p, d, o + 1)
    modifies mp, ix
    ensures CorrState(mp[..], ix[..]) == Cell(p, old(CorrState(mp[..], ix[..])), d, o)
  {
    ghost var s := CorrState(mp[..], ix[..]);
    var cmp := cov * (p.b.sig[o] * p.a.sig[o + d]);
    if p.selfJoin || p.ab {
      if cmp > mp[o + d] {
        if cmp > 1.0 {
          cmp := 1.0;
        }
        mp[o + d] := cmp;
        ix[o + d] := o;
      }
    }
    ghost var s1 := CorrState(mp[..], ix[..]);
    assert s1 == if Side1(p) then Offer(s, o + d, Corr(p, d, o), o) else s;
    assert cmp == if Side1(p) && Corr(p, d, o) > s.c[o + d] then Clamp(Corr(p, d, o)) else Corr(p, d, o);
    ghost var v2 := cmp;
    if p.selfJoin || !p.ab {
      if cmp > mp[o] {
        if cmp > 1.0 {
          cmp := 1.0;
        }
        mp[o] := cmp;
        ix[o] := o + d;
      }
    }
    assert CorrState(mp[..], ix[..]) == if Side2(p) then Offer(s1, o, v2, o + d) else s1;
  }

  /** Lines 599-636 for one diagonal: the first covariance, then the walk down it. */
  method WalkDiagonal(p: Pass, mp: array<real>, ix: array<int>, diag: nat)
    requires PassOk(p) && mp.Length == ProfileLen(p) && ix.Length == ProfileLen(p)
    requires diag < DiagLimit(p)
    modifies mp, ix
    ensures CorrState(mp[..], ix[..]) == AlongDiag(p, old(CorrState(mp[..], ix[..])), diag, OffsetMax(p, diag))
  {
    ghost var start := CorrState(mp[..], ix[..]);
    var limit := DiagLimit(p);
    var c := InitialCov(p, diag);
    var offsetMax := if limit - diag > LenB(p) then LenB(p) else limit - diag;
    var offset := 0;
    while offset < offsetMax
      invariant 0 <= offset <= offsetMax == OffsetMax(p, diag)
      invariant c == Cov(p, diag, offset)
      invariant CorrState(mp[..], ix[..]) == AlongDiag(p, start, diag, offset)
    {
      c := c + p.b.df[offset] * p.a.dg[offset + diag] + p.a.df[offset + diag] * p.b.dg[offset];
      OfferCell(p, mp, ix, diag, offset, c);
      offset := offset + 1;
    }
  }

  /** Lines 595-637: the diagonals of batch `idx`, and the break at the limit. */
  method WalkBatch(p: Pass, mp: array<real>, ix: array<int>, idx: nat, bs: int, excl: nat)
    requires PassOk(p) && mp.Length == ProfileLen(p) && ix.Length == ProfileLen(p)
    requires idx * bs + excl <= DiagLimit(p)
    requires CorrState(mp[..], ix[..]) == Init(ProfileLen(p))
    modifies mp, ix
    ensures CorrState(mp[..], ix[..]) == BatchCorr(p, idx, bs, excl)
  {
    var limit := DiagLimit(p);
    var n := ProfileLen(p);
    var lo := idx * bs + excl;
    var hi := if bs < 1 then lo else Min(lo + bs, limit);
    assert (idx + 1) * bs + excl == lo + bs;
    var diag := lo;
    while diag < (idx + 1) * bs + excl
      invariant bs < 1 ==> diag == lo && CorrState(mp[..], ix[..]) == Init(n)
      invariant bs >= 1 ==> 0 <= lo <= diag <= hi &&
                            CorrState(mp[..], ix[..]) == AcrossDiags(p, Init(n), lo, diag)
      decreases hi - diag
    {
      if diag >= limit {
        break;
      }
      WalkDiagonal(p, mp, ix, diag);
      diag := diag + 1;
    }
    assert bs >= 1 ==> diag == hi;
  }

  /** Lines 640-642: the correlations converted to distances. */
  method ToDistances(mp: array<real>, toDist: real -> Dist) returns (d: seq<Dist>)
    ensures d == ToDists(mp[..], toDist)
  {
    var out := new Dist[mp.Length];
    for i := 0 to mp.Length
      invariant forall t :: 0 <= t < i ==> out[t] == toDist(mp[t])
    {
      out[i] := toDist(mp[i]);
    }
    d := out[..];
  }

  /** mpxabBatch (lines 558-645) on an already flipped pass, with the corrected limit. */
  method MpxBatch(p: Pass, idx: nat, bs: int, excl: nat, toDist: real -> Dist) returns (res: Partial)
    requires PassOk(p)
    ensures res == MpxBatchSpec(p, idx, bs, excl, toDist)
  {
    if idx * bs + excl > DiagLimit(p) {
      return EmptyPartial();
    }
    var n := ProfileLen(p);
    var mp := new real[n](_ => -1.0);
    var ix := new int[n](_ => 0);
    assert CorrState(mp[..], ix[..]) == Init(n);
    WalkBatch(p, mp, ix, idx, bs, excl);
    var d := ToDistances(mp, toDist);
    res := Partial(Some(d), Some(ix[..]), None);
  }
}
