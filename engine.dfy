/** The profile context of compute.go and its algorithms: the fields MP and Idx are
    updated in place by the merge, stmp and Update; A, B and N grow in Update. */
module Engine {
  import opened ProfileValues
  import opened ProfileMerge
  import opened Batching
  import opened SlidingDot
  import opened DistanceProfiles
  import opened RowFolds
  import opened BatchSpecs
  import MpxDiagonals

  const AlgoSTOMP: string := "STOMP"
  const AlgoSTAMP: string := "STAMP"
  const AlgoSTMP: string := "STMP"
  const AlgoMPX: string := "MPX"

  /** ComputeOptions: the algorithm's name, STAMP's sample fraction, the number of batches. */
  datatype ComputeOptions = ComputeOptions(algorithm: string, sample: real, parallelism: int)

  /** initCaches for the grown series: no error, or the error of the rolling statistics. */
  type CacheFn = (seq<real>, seq<real>) -> Option<Error>

  /** The collaborators the algorithms consult: MASS (stmp, stamp, Update), the dot
      product to distance conversion (stomp), the permutation rand.Perm yields (stamp),
      util.MuInvN of A and of B and the final correlation to distance map (mpx). */
  datatype Collaborators = Collaborators(
    mass: MassFn, conv: DistFn, perm: seq<nat>,
    statsA: MpxDiagonals.MuSig, statsB: MpxDiagonals.MuSig, toDist: real -> Dist)

  /** The context's series and profile, as Update sees them. */
  datatype State = State(a: seq<real>, b: seq<real>, n: nat, mp: seq<Dist>, idx: seq<int>)

  predicate StateOk(s: State, m: nat, selfJoin: bool) {
    && 1 <= m <= |s.a| && s.n == |s.b| && m <= s.n
    && |s.mp| == s.n - m + 1 && |s.idx| == |s.mp|
    && (selfJoin ==> s.a == s.b)
  }

  /** Lines 200-210 of Update: the value is appended to A (and B is the same series)
      in a self-join, to B otherwise; N grows by one and the profile gets a new slot
      holding +Inf and MaxInt64. */
  function Grow(s: State, v: real, selfJoin: bool): (g: State)
    ensures g.n == s.n + 1 && g.mp == s.mp + [Inf] && g.idx == s.idx + [MaxInt64]
    ensures selfJoin ==> g.a == s.a + [v] && g.b == g.a
    ensures !selfJoin ==> g.a == s.a && g.b == s.b + [v]
  {
    var a := if selfJoin then s.a + [v] else s.a;
    var b := if selfJoin then a else s.b + [v];
    State(a, b, s.n + 1, s.mp + [Inf], s.idx + [MaxInt64])
  }

  /** Lines 222-235 of Update on the grown state: the older slots fold the newest row
      with `<=` under index `k`, the new slot `k` takes the row's first minimum. */
  function FoldNewest(g: State, row: seq<Dist>): State
    requires |g.mp| >= 1 && |g.idx| == |g.mp| && |row| == |g.mp|
  {
    var k := |g.mp| - 1;
    var folded := Merge(Profile(g.mp[..k], g.idx[..k]), RowOf(row[..k], k));
    var best := FirstMin(row[..k]);
    State(g.a, g.b, g.n, folded.mp + [best.0], folded.idx + [best.1])
  }

  /** Overwriting the last slot of a sequence. */
  lemma LastSlot<T>(s: seq<T>, k: nat, x: T)
    requires |s| == k + 1
    ensures s[k := x] == s[..k] + [x]
  {
  }

  /** Growing keeps the context's shape. */
  lemma GrowKeepsShape(s: State, v: real, m: nat, selfJoin: bool)
    requires StateOk(s, m, selfJoin)
    ensures StateOk(Grow(s, v, selfJoin), m, selfJoin)
  {
  }

  /** Lines 212-235 of Update on the grown state: the caches are rebuilt, the distance
      profile of the last window of A is computed, and the row is folded in; either
      failure leaves the grown state as it is and reports the error. */
  function AfterGrow(g: State, m: nat, selfJoin: bool, mass: MassFn, caches: CacheFn): (r: (State, Option<Error>))
    requires StateOk(g, m, selfJoin) && MassShaped(mass, m)
  {
    if caches(g.a, g.b).Some? then (g, caches(g.a, g.b))
    else match DistanceProfile(g.a, g.b, m, |g.a| - m, mass)
      case Err(e) => (g, Some(e))
      case Ok(row) => (FoldNewest(g, row), None)
  }

  /** One value of Update (lines 199-236). The series and the profile grow by one
      whether or not the step then fails; UpdateStepMeaning states what a successful
      step stores. */
  function UpdateStep(s: State, v: real, m: nat, selfJoin: bool, mass: MassFn, caches: CacheFn): (r: (State, Option<Error>))
    requires StateOk(s, m, selfJoin) && MassShaped(mass, m)
    ensures StateOk(r.0, m, selfJoin)
    ensures r.0.n == s.n + 1 && |r.0.mp| == |s.mp| + 1
    ensures selfJoin ==> r.0.a == s.a + [v] && r.0.b == r.0.a
    ensures !selfJoin ==> r.0.a == s.a && r.0.b == s.b + [v]
    ensures r.1.Some? ==> r.0.mp == s.mp + [Inf] && r.0.idx == s.idx + [MaxInt64]
  {
    GrowKeepsShape(s, v, m, selfJoin);
    AfterGrow(Grow(s, v, selfJoin), m, selfJoin, mass, caches)
  }

  /** A successful step of Update computed the distance profile of the last window of A
      against the grown B; every older slot `j` took the row's entry with index `N-M`
      when that entry is `<=` the slot and is otherwise unchanged; the new slot `N-M`
      holds the least of the row's entries over the older slots, at the first position
      holding it, or +Inf and MaxInt64 when every entry is +Inf. */
  lemma UpdateStepMeaning(s: State, v: real, m: nat, selfJoin: bool, mass: MassFn, caches: CacheFn)
    requires StateOk(s, m, selfJoin) && MassShaped(mass, m)
    ensures var r := UpdateStep(s, v, m, selfJoin, mass, caches);
            r.1.None? ==>
              && caches(r.0.a, r.0.b).None?
              && DistanceProfile(r.0.a, r.0.b, m, |r.0.a| - m, mass).Ok?
              && var row := DistanceProfile(r.0.a, r.0.b, m, |r.0.a| - m, mass).value;
                 var k := |s.mp|;
                 && |row| == k + 1
                 && (forall j :: 0 <= j < k && Le(row[j], s.mp[j]) ==> r.0.mp[j] == row[j] && r.0.idx[j] == k)
                 && (forall j :: 0 <= j < k && !Le(row[j], s.mp[j]) ==> r.0.mp[j] == s.mp[j] && r.0.idx[j] == s.idx[j])
                 && (forall j :: 0 <= j < k ==> Le(r.0.mp[k], row[j]))
                 && (r.0.mp[k] == Inf ==> r.0.idx[k] == MaxInt64)
                 && (r.0.mp[k] != Inf ==> 0 <= r.0.idx[k] < k && row[r.0.idx[k]] == r.0.mp[k]
                                          && forall j :: 0 <= j < r.0.idx[k] ==> Lt(r.0.mp[k], row[j]))
  {
    var r := UpdateStep(s, v, m, selfJoin, mass, caches);
    if r.1.None? {
      var row := DistanceProfile(r.0.a, r.0.b, m, |r.0.a| - m, mass).value;
      var k := |s.mp|;
      var best := FirstMin(row[..k]);
      assert r.0.mp[k] == best.0 && r.0.idx[k] == best.1;
    }
  }

  /** Update over `vals`, stopping at the first failing value. */
  function UpdateAll(s: State, vals: seq<real>, m: nat, selfJoin: bool, mass: MassFn, caches: CacheFn): (r: (State, Option<Error>))
    requires StateOk(s, m, selfJoin) && MassShaped(mass, m)
    ensures StateOk(r.0, m, selfJoin)
    ensures r.1.None? ==> r.0.n == s.n + |vals| && |r.0.mp| == |s.mp| + |vals|
    decreases |vals|
  {
    if vals == [] then (s, None)
    else
      var t := UpdateStep(s, vals[0], m, selfJoin, mass, caches);
      if t.1.Some? then t else UpdateAll(t.0, vals[1..], m, selfJoin, mass, caches)
  }

  /** The statistics of one series, deltas included, as mpx builds them. */
  function SeriesOf(s: seq<real>, st: MpxDiagonals.MuSig, m: nat): MpxDiagonals.SeriesStats
    requires m >= 1 && |s| >= m && |st.mu| == |s| - m + 1
  {
    MpxDiagonals.SeriesStats(s, st.mu, st.sig, MpxDiagonals.DeltaF(s, m), MpxDiagonals.DeltaG(s, st.mu, m))
  }

  predicate MuSigFits(st: MpxDiagonals.MuSig, s: seq<real>, m: nat) {
    |s| >= m && |st.mu| == |s| - m + 1 && |st.sig| == |s| - m + 1
  }

  /** The exclusion zone of runMpxABJoin (lines 517-520): M/4 in a self-join, 0 otherwise. */
  function ExclZone(selfJoin: bool, m: nat): nat {
    if selfJoin then m / 4 else 0
  }

  /** The results of the first `k` batches of a pass, in channel order. */
  function MpxBatches(p: MpxDiagonals.Pass, k: nat, bs: int, excl: nat, toDist: real -> Dist): (rs: seq<Partial>)
    requires MpxDiagonals.PassOk(p)
    ensures |rs| == k && UsablesShaped(rs, MpxDiagonals.ProfileLen(p))
    ensures forall i :: 0 <= i < k ==> rs[i].err.None?
    decreases k
  {
    if k == 0 then []
    else MpxBatches(p, k - 1, bs, excl, toDist) + [MpxDiagonals.MpxBatchSpec(p, k - 1, bs, excl, toDist)]
  }

  /** The batch loop of runMpxABJoin (lines 542-548): the batches `0 .. k-1` of
      pass `p`, each result in its own channel, read in channel order. */
  method RunMpxBatches(p: MpxDiagonals.Pass, k: nat, bs: int, excl: nat, toDist: real -> Dist)
      returns (results: seq<Partial>)
    requires MpxDiagonals.PassOk(p)
    ensures results == MpxBatches(p, k, bs, excl, toDist)
  {
    results := [];
    for batch := 0 to k
      invariant results == MpxBatches(p, batch, bs, excl, toDist)
    {
      var r := MpxDiagonals.MpxBatch(p, batch, bs, excl, toDist);
      results := results + [r];
    }
  }

  /** The results of the `parallelism` batches of one runMpxABJoin (lines 516-555). */
  function MpxPartials(p: MpxDiagonals.Pass, parallelism: int, profileLen: int, excl: nat, toDist: real -> Dist): (rs: seq<Partial>)
    requires MpxDiagonals.PassOk(p) && parallelism >= 1
    ensures |rs| == parallelism && UsablesShaped(rs, MpxDiagonals.ProfileLen(p))
  {
    MpxBatches(p, parallelism, BatchSize(profileLen - excl + 1, parallelism), excl, toDist)
  }

  /** One runMpxABJoin's effect: the fold of its batches' results into `cur`. */
  function MpxPassFold(cur: Profile, p: MpxDiagonals.Pass, parallelism: int, profileLen: int, excl: nat,
                       toDist: real -> Dist): (r: Profile)
    requires MpxDiagonals.PassOk(p) && parallelism >= 1 && Shaped(cur, MpxDiagonals.ProfileLen(p))
    ensures Shaped(r, MpxDiagonals.ProfileLen(p))
  {
    FoldRows(cur, UsableRows(MpxPartials(p, parallelism, profileLen, excl, toDist)))
  }

  /** The statistics mpx works with (lines 484-506): A's, and B's unless
      self-joining, each with its df/dg deltas. */
  function MpxStats(a: seq<real>, b: seq<real>, m: nat, selfJoin: bool,
                    statsA: MpxDiagonals.MuSig, statsB: MpxDiagonals.MuSig): (st: (MpxDiagonals.SeriesStats, MpxDiagonals.SeriesStats))
    requires m >= 1 && (selfJoin ==> a == b)
    requires MuSigFits(statsA, a, m) && MuSigFits(statsB, b, m)
    ensures MpxDiagonals.StatsOk(st.0, m) && MpxDiagonals.StatsOk(st.1, m)
    ensures st.0.s == a && st.1.s == b
    ensures selfJoin ==> st.1 == st.0
  {
    var sa := SeriesOf(a, statsA, m);
    (sa, if selfJoin then sa else SeriesOf(b, statsB, m))
  }

  /** The two passes of mpx (lines 508-513) over the statistics `sa` and `sb`: the
      fold of the ab pass's batches from +Inf over the `lenA` windows of A, then,
      unless self-joining, of the flipped pass's. */
  function MpxFolds(sa: MpxDiagonals.SeriesStats, sb: MpxDiagonals.SeriesStats, m: nat, selfJoin: bool,
                    parallelism: int, lenA: nat, lenB: int, toDist: real -> Dist): Profile
    requires m >= 1 && parallelism >= 1 && MpxDiagonals.StatsOk(sa, m) && MpxDiagonals.StatsOk(sb, m)
    requires (selfJoin ==> sb == sa) && lenA == |sa.s| - m + 1
  {
    var excl := ExclZone(selfJoin, m);
    var r1 := MpxPassFold(Top(lenA), MpxDiagonals.MakePass(sa, sb, m, selfJoin, true), parallelism, lenA, excl, toDist);
    if selfJoin then r1
    else MpxPassFold(r1, MpxDiagonals.MakePass(sa, sb, m, selfJoin, false), parallelism, lenB, excl, toDist)
  }

  /** The profile mpx leaves (lines 474-514), with the corrected diagonal limit. */
  function MpxSpec(a: seq<real>, b: seq<real>, m: nat, selfJoin: bool, parallelism: int,
                   statsA: MpxDiagonals.MuSig, statsB: MpxDiagonals.MuSig, toDist: real -> Dist): Profile
    requires m >= 1 && parallelism >= 1 && (selfJoin ==> a == b)
    requires MuSigFits(statsA, a, m) && MuSigFits(statsB, b, m)
  {
    var st := MpxStats(a, b, m, selfJoin, statsA, statsB);
    MpxFolds(st.0, st.1, m, selfJoin, parallelism, |a| - m + 1, |b| - m + 1, toDist)
  }

  /** MpxSpec is MpxFolds over the statistics MpxStats builds. */
  lemma MpxSpecFromStats(a: seq<real>, b: seq<real>, m: nat, selfJoin: bool, parallelism: int,
                         statsA: MpxDiagonals.MuSig, statsB: MpxDiagonals.MuSig, toDist: real -> Dist,
                         sa: MpxDiagonals.SeriesStats, sb: MpxDiagonals.SeriesStats, r: Profile)
    requires m >= 1 && parallelism >= 1 && (selfJoin ==> a == b)
    requires MuSigFits(statsA, a, m) && MuSigFits(statsB, b, m)
    requires (sa, sb) == MpxStats(a, b, m, selfJoin, statsA, statsB)
    requires r == MpxFolds(sa, sb, m, selfJoin, parallelism, |a| - m + 1, |b| - m + 1, toDist)
    ensures r == MpxSpec(a, b, m, selfJoin, parallelism, statsA, statsB, toDist)
  {
  }

  /** MpxFolds pass by pass. */
  lemma MpxFoldsPasses(sa: MpxDiagonals.SeriesStats, sb: MpxDiagonals.SeriesStats, m: nat, selfJoin: bool,
                       parallelism: int, lenA: nat, lenB: int, toDist: real -> Dist, r1: Profile)
    requires m >= 1 && parallelism >= 1 && MpxDiagonals.StatsOk(sa, m) && MpxDiagonals.StatsOk(sb, m)
    requires (selfJoin ==> sb == sa) && lenA == |sa.s| - m + 1
    requires r1 == MpxPassFold(Top(lenA), MpxDiagonals.MakePass(sa, sb, m, selfJoin, true), parallelism, lenA,
                               ExclZone(selfJoin, m), toDist)
    ensures selfJoin ==> MpxFolds(sa, sb, m, selfJoin, parallelism, lenA, lenB, toDist) == r1
    ensures !selfJoin ==> (MpxFolds(sa, sb, m, selfJoin, parallelism, lenA, lenB, toDist)
                           == MpxPassFold(r1, MpxDiagonals.MakePass(sa, sb, m, selfJoin, false), parallelism, lenB, 0, toDist))
  {
  }

  /** No MPX batch fails. */
  lemma MpxNeverFails(p: MpxDiagonals.Pass, k: nat, bs: int, excl: nat, toDist: real -> Dist)
    requires MpxDiagonals.PassOk(p)
    ensures LastError(MpxBatches(p, k, bs, excl, toDist)) == None
  {
    var rs := MpxBatches(p, k, bs, excl, toDist);
    assert forall i :: 0 <= i < |rs| ==> rs[i].err.None?;
  }

  /** Merging the results of a pass's batches into `cur` is MpxPassFold. */
  lemma MpxMergedBatches(cur: Profile, p: MpxDiagonals.Pass, parallelism: int, profileLen: int, excl: nat,
                         toDist: real -> Dist, rs: seq<Partial>, r: Profile)
    requires MpxDiagonals.PassOk(p) && parallelism >= 1 && Shaped(cur, MpxDiagonals.ProfileLen(p))
    requires rs == MpxBatches(p, parallelism, BatchSize(profileLen - excl + 1, parallelism), excl, toDist)
    requires r == FoldRows(cur, UsableRows(rs))
    ensures r == MpxPassFold(cur, p, parallelism, profileLen, excl, toDist)
  {
  }


  /** Row `i` of stompBatch (lines 441-469), for query window `q = start + i`: the
      recurrence moves the dot products to window `q`, they are converted to
      distances, and the row is folded into the batch's buffers under index `q`. */
  method StompStep(a: seq<real>, b: seq<real>, m: nat, conv: DistFn,
                   dot: array<real>, mp: array<Dist>, ix: array<int>, start: nat, i: nat)
    requires 1 <= i && 1 <= m && start + i + m <= |a| && m <= |b|
    requires dot.Length == |b| - m + 1 && mp.Length == dot.Length && ix.Length == dot.Length
    requires dot[..] == CrossCorrelate(a, b, start + i - 1, m)
    requires Profile(mp[..], ix[..]) == StompFold(a, b, m, conv, start, i)
    modifies dot, mp, ix
    ensures dot[..] == CrossCorrelate(a, b, start + i, m)
    ensures Profile(mp[..], ix[..]) == StompFold(a, b, m, conv, start, i + 1)
  {
    var q := start + i;
    AdvanceDot(dot, a, b, q, m);
    var cc := dot[..];
    var r := CalculateDistanceProfile(cc, q, dot.Length, |a|, m, conv);
    assert r.Ok? && r.value == ConvRow(cc, q, conv);
    FoldInto(mp, ix, RowOf(r.value, q));
  }

  /** The first row of stompBatch (lines 417-436): the sliding dot product of query
      window `start`, its distances, and every index set to `start`. */
  method StompFirstRow(a: seq<real>, b: seq<real>, m: nat, conv: DistFn, start: nat)
      returns (dot: array<real>, mp: array<Dist>, ix: array<int>)
    requires 1 <= m <= |b| && start + m <= |a|
    ensures fresh(dot) && fresh(mp) && fresh(ix)
    ensures dot.Length == |b| - m + 1 && mp.Length == dot.Length && ix.Length == dot.Length
    ensures dot[..] == CrossCorrelate(a, b, start, m)
    ensures Profile(mp[..], ix[..]) == StompFold(a, b, m, conv, start, 1)
  {
    var n := |b| - m + 1;
    var first := CrossCorrelate(a, b, start, m);
    dot := new real[n](j requires 0 <= j < n => first[j]);
    assert dot[..] == first;
    var r := CalculateDistanceProfile(dot[..], start, dot.Length, |a|, m, conv);
    assert r.Ok?;
    mp := new Dist[n](j requires 0 <= j < n => r.value[j]);
    ix := new int[n](_ => start);
    ghost var row := StompRow(a, b, m, conv, start);
    assert Profile(mp[..], ix[..]) == row;
    MergeIntoTop(row);
  }

  /** stompBatch (lines 410-472): the receiver is a copy of the context, so the batch
      reads A, B and M by value. Neither call of calculateDistanceProfile can fail: the
      early exit keeps every query index within A, and the profile has the dot
      product's length. */
  method StompBatch(a: seq<real>, b: seq<real>, m: nat, conv: DistFn, idx: nat, bs: int) returns (res: Partial)
    requires 1 <= m <= |b| && (idx * bs + m <= |a| ==> bs >= 1)
    ensures res == StompBatchSpec(a, b, m, idx, bs, conv)
  {
    var start := idx * bs;
    if start + m > |a| {
      return EmptyPartial();
    }
    assert bs >= 1 && start + m <= |a|;
    var dot, mp, ix := StompFirstRow(a, b, m, conv, start);
    var i := 1;
    while i < bs
      invariant 1 <= i <= bs && start + i + m <= |a| + 1
      invariant dot.Length == |b| - m + 1 && mp.Length == dot.Length && ix.Length == dot.Length
      invariant dot[..] == CrossCorrelate(a, b, start + i - 1, m)
      invariant Profile(mp[..], ix[..]) == StompFold(a, b, m, conv, start, i)
    {
      if start + i - 1 >= |a| || start + i + m - 1 >= |a| {
        break;
      }
      StompStep(a, b, m, conv, dot, mp, ix, start, i);
      i := i + 1;
    }
    StompBatchDone(a, b, m, conv, idx, bs, i, Profile(mp[..], ix[..]));
    res := Done(Profile(mp[..], ix[..]));
  }

  /** Lines 484-506 of mpx: the statistics of A and, unless self-joining, of B, with
      their df/dg deltas; a self-join uses A's for both. */
  method MpxSeries(a: seq<real>, b: seq<real>, m: nat, selfJoin: bool, statsA: MpxDiagonals.MuSig, statsB: MpxDiagonals.MuSig)
      returns (sa: MpxDiagonals.SeriesStats, sb: MpxDiagonals.SeriesStats)
    requires m >= 1 && (selfJoin ==> a == b)
    requires MuSigFits(statsA, a, m) && MuSigFits(statsB, b, m)
    ensures (sa, sb) == MpxStats(a, b, m, selfJoin, statsA, statsB)
    ensures MpxDiagonals.StatsOk(sa, m) && MpxDiagonals.StatsOk(sb, m) && sa.s == a && sb.s == b
    ensures selfJoin ==> sb == sa
  {
    var mub, sigb := statsA.mu, statsA.sig;
    if !selfJoin {
      mub, sigb := statsB.mu, statsB.sig;
    }
    var dfa, dga := MpxDiagonals.ComputeDeltas(a, statsA.mu, m);
    var dfb, dgb := dfa, dga;
    if !selfJoin {
      dfb, dgb := MpxDiagonals.ComputeDeltas(b, mub, m);
    }
    sa := MpxDiagonals.SeriesStats(a, statsA.mu, statsA.sig, dfa, dga);
    sb := MpxDiagonals.SeriesStats(b, mub, sigb, dfb, dgb);
  }

  /** The batch loop of stomp (lines 371, 390-396): batches `0 .. parallelism-1`, each
      result in its own channel, read in channel order. */
  method RunStompBatches(a: seq<real>, b: seq<real>, m: nat, parallelism: int, conv: DistFn)
      returns (results: seq<Partial>)
    requires parallelism >= 1 && 1 <= m <= |b|
    ensures results == StompPartials(a, b, m, parallelism, conv)
  {
    var bs := GoDiv(|a| - m + 1, parallelism) + 1;
    assert bs == BatchSize(|a| - m + 1, parallelism);
    ghost var spec := StompPartials(a, b, m, parallelism, conv);
    results := [];
    for batch := 0 to parallelism
      invariant results == spec[..batch]
    {
      StompSizeOk(a, m, parallelism, batch);
      var r := StompBatch(a, b, m, conv, batch, bs);
      results := results + [r];
    }
    assert results == spec;
  }

  /** stampBatch (lines 328-363): like stompBatch, it reads a copy of the context.
      The batch visits the permutation positions from `idx*bs` on, at most
      `int(bs*sample)` of them, and stops at the first failing query. */
  method StampBatch(a: seq<real>, b: seq<real>, m: nat, mass: MassFn, idx: nat, bs: int, sample: real,
                    perm: seq<nat>) returns (res: Partial)
    requires 1 <= m <= |b| && MassShaped(mass, m) && bs >= 1
    ensures res == StampBatchSpec(a, b, m, idx, bs, sample, perm, mass)
  {
    var start := idx * bs;
    if start + m > |a| {
      return EmptyPartial();
    }
    var n := |b| - m + 1;
    var mp := new Dist[n](_ => Inf);
    var ix := new int[n](_ => MaxInt64);
    assert Profile(mp[..], ix[..]) == Top(n);
    var dp := QueryFn(a, b, m, mass);
    QueryFnFits(a, b, m, mass);
    var count := StampCount(bs, sample);
    ghost var qs := StampQueries(perm, start, count);
    ghost var acc := Top(n);
    var i := 0;
    while i < count
      invariant 0 <= i && (i > 0 ==> i <= count && start + i <= |perm|)
      invariant Profile(mp[..], ix[..]) == acc && Shaped(acc, n)
      invariant FoldQueries(Top(n), StampQueries(perm, start, i), dp) == Outcome(acc, None)
    {
      if start + i >= |perm| {
        break;
      }
      var q := perm[start + i];
      StampQueriesSnoc(perm, start, i);
      FoldQueriesSnoc(Top(n), StampQueries(perm, start, i), q, dp);
      var r := DistanceProfile(a, b, m, q, mass);
      if r.Err? {
        StampBatchFails(a, b, m, idx, bs, sample, perm, mass, i, r.error);
        return Failed(r.error);
      }
      FoldInto(mp, ix, RowOf(r.value, q));
      acc := Merge(acc, RowOf(r.value, q));
      i := i + 1;
    }
    assert StampQueries(perm, start, i) == qs;
    StampBatchDone(a, b, m, idx, bs, sample, perm, mass, acc);
    res := Done(Profile(mp[..], ix[..]));
  }

  class MatrixProfile {
    var A: seq<real>
    var B: seq<real>
    var M: nat
    var N: nat
    var SelfJoin: bool
    var MP: seq<Dist>
    var Idx: seq<int>

    /** The context's invariant: `N == len(B)`, `MP` and `Idx` of length `N-M+1`,
        and A and B the same series in a self-join. */
    predicate Valid()
      reads this
    {
      && 1 <= M <= N && N == |B|
      && |MP| == N - M + 1 && |Idx| == N - M + 1
      && (SelfJoin ==> A == B)
    }

    function Current(): Profile
      reads this
    {
      Profile(MP, Idx)
    }

    function Snapshot(): State
      reads this
    {
      State(A, B, N, MP, Idx)
    }

    /** The element-wise `<=` fold of one row into MP and Idx (lines 181-186, 271-276). */
    method MergeRow(row: Profile)
      requires |MP| == |Idx| && Shaped(row, |MP|)
      modifies this`MP, this`Idx
      ensures Current() == Merge(old(Current()), row)
    {
      ghost var cur := Current();
      ghost var target := Merge(cur, row);
      for j := 0 to |MP|
        invariant |MP| == |cur.mp| && |Idx| == |cur.mp|
        invariant forall k :: 0 <= k < j ==> MP[k] == target.mp[k] && Idx[k] == target.idx[k]
        invariant forall k :: j <= k < |MP| ==> MP[k] == cur.mp[k] && Idx[k] == cur.idx[k]
      {
        if Le(row.mp[j], MP[j]) {
          MP := MP[j := row.mp[j]];
          Idx := Idx[j := row.idx[j]];
        }
      }
      assert MP == target.mp;
      assert Idx == target.idx;
    }

    /** mergeMPResults (lines 251-279): every result is read in channel order; error
        results and empty ones are skipped; the last error is returned. */
    method MergeResults(rs: seq<Partial>) returns (err: Option<Error>)
      requires |MP| == |Idx| && UsablesShaped(rs, |MP|)
      modifies this`MP, this`Idx
      ensures |MP| == old(|MP|) && |Idx| == old(|Idx|) && (old(Valid()) ==> Valid())
      ensures Current() == FoldRows(old(Current()), UsableRows(rs))
      ensures err == LastError(rs)
    {
      ghost var cur := Current();
      err := None;
      for i := 0 to |rs|
        invariant |MP| == |cur.mp| && |Idx| == |cur.mp|
        invariant UsablesShaped(rs[..i], |cur.mp|)
        invariant Current() == FoldRows(cur, UsableRows(rs[..i]))
        invariant err == LastError(rs[..i])
      {
        MergeLoopStep(rs, i);
        var r := rs[i];
        if r.err.Some? {
          err := r.err;
          continue;
        }
        if r.mp.None? || r.idx.None? {
          continue;
        }
        FoldRowsSnoc(cur, UsableRows(rs[..i]), AsProfile(r));
        MergeRow(AsProfile(r));
      }
      assert rs[..|rs|] == rs;
    }

    /** stmp (lines 171-190): the rows of queries 0 .. N-M in order, folded into MP
        and Idx as they come; the first failing query ends the loop, leaving what was
        folded before it. */
    method Stmp(mass: MassFn) returns (err: Option<Error>)
      requires Valid() && MassShaped(mass, M)
      modifies this`MP, this`Idx
      ensures Valid()
      ensures var o := FoldQueries(old(Current()), Range(N - M + 1), QueryFn(A, B, M, mass));
              Current() == o.profile && err == o.err
    {
      var n := N - M + 1;
      var dp := QueryFn(A, B, M, mass);
      QueryFnFits(A, B, M, mass);
      ghost var cur := Current();
      for i := 0 to n
        invariant Valid()
        invariant FoldQueries(cur, Range(i), dp) == Outcome(Current(), None)
      {
        assert Range(i + 1)[..i] == Range(i);
        var r := DistanceProfile(A, B, M, i, mass);
        if r.Err? {
          err := Some(r.error);
          assert FoldQueries(cur, Range(i + 1), dp) == Outcome(Current(), err);
          assert Range(n)[..i + 1] == Range(i + 1);
          FoldQueriesStops(cur, Range(n), i + 1, dp);
          return;
        }
        MergeRow(RowOf(r.value, i));
      }
      err := None;
    }

    /** stamp (lines 286-325): a non-positive sample is rejected before anything else;
        otherwise every batch runs and the results are merged in channel order. */
    method Stamp(sample: real, parallelism: int, perm: seq<nat>, mass: MassFn) returns (err: Option<Error>)
      requires Valid() && MassShaped(mass, M) && parallelism >= 1 && |perm| == |A| - M + 1
      modifies this`MP, this`Idx
      ensures Valid()
      ensures sample <= 0.0 ==> err == Some(InvalidSample(sample)) && Current() == old(Current())
      ensures sample > 0.0 ==>
                var rs := StampPartials(A, B, M, sample, parallelism, perm, mass);
                Current() == FoldRows(old(Current()), UsableRows(rs)) && err == LastError(rs)
    {
      if sample <= 0.0 {
        return Some(InvalidSample(sample));
      }
      var bs := GoDiv(|A| - M + 1, parallelism) + 1;
      assert bs == BatchSize(|A| - M + 1, parallelism);
      ghost var spec := StampPartials(A, B, M, sample, parallelism, perm, mass);
      var results: seq<Partial> := [];
      for batch := 0 to parallelism
        invariant unchanged(this) && results == spec[..batch]
      {
        var r := StampBatch(A, B, M, mass, batch, bs, sample, perm);
        results := results + [r];
      }
      assert results == spec;
      err := MergeResults(results);
    }

    /** stomp (lines 370-403): every batch runs and the results are merged in channel
        order. No batch fails, and the merged profile is the sequential fold of the
        rows of every query window of A, in order. */
    method Stomp(parallelism: int, conv: DistFn) returns (err: Option<Error>)
      requires Valid() && parallelism >= 1
      modifies this`MP, this`Idx
      ensures err == None
      ensures Current() == FoldRows(old(Current()), UsableRows(StompPartials(A, B, M, parallelism, conv)))
      ensures Current() == FoldRows(old(Current()), StompRows(A, B, M, conv))
      ensures Valid()
    {
      var results := RunStompBatches(A, B, M, parallelism, conv);
      ghost var cur := Current();
      StompNeverFails(A, B, M, parallelism, conv);
      StompMergesAllRows(cur, A, B, M, parallelism, conv);
      err := MergeResults(results);
    }

    /** One runMpxABJoin (lines 516-555) for the (already flipped) pass `p`. A batch
        never fails, so neither does the merge. */
    method RunMpxABJoin(parallelism: int, profileLen: int, p: MpxDiagonals.Pass, toDist: real -> Dist) returns (err: Option<Error>)
      requires MpxDiagonals.PassOk(p) && parallelism >= 1 && p.selfJoin == SelfJoin && p.m == M
      requires |MP| == MpxDiagonals.ProfileLen(p) && |Idx| == |MP|
      modifies this`MP, this`Idx
      ensures err == None
      ensures Current() == MpxPassFold(old(Current()), p, parallelism, profileLen, ExclZone(p.selfJoin, p.m), toDist)
    {
      ghost var cur := Current();
      var excl := ExclZone(SelfJoin, M);
      var bs := GoDiv(profileLen - excl + 1, parallelism) + 1;
      assert bs == BatchSize(profileLen - excl + 1, parallelism);
      var results := RunMpxBatches(p, parallelism, bs, excl, toDist);
      MpxNeverFails(p, parallelism, bs, excl, toDist);
      err := MergeResults(results);
      MpxMergedBatches(cur, p, parallelism, profileLen, excl, toDist, results, Current());
    }

    /** mpx (lines 474-514): MP and Idx are reset to +Inf and MaxInt64 over the
        windows of A, the deltas are computed, and the ab pass runs; unless
        self-joining, the flipped pass follows. */
    method Mpx(parallelism: int, statsA: MpxDiagonals.MuSig, statsB: MpxDiagonals.MuSig, toDist: real -> Dist) returns (err: Option<Error>)
      requires M >= 1 && parallelism >= 1 && (SelfJoin ==> A == B)
      requires MuSigFits(statsA, A, M) && MuSigFits(statsB, B, M)
      modifies this`MP, this`Idx
      ensures err == None
      ensures Current() == MpxSpec(A, B, M, SelfJoin, parallelism, statsA, statsB, toDist)
    {
      var a, b, m, selfJoin := A, B, M, SelfJoin;
      var sa, sb := MpxSeries(a, b, m, selfJoin, statsA, statsB);
      err := MpxPasses(parallelism, a, b, m, selfJoin, statsA, statsB, sa, sb, toDist);
    }

    /** Lines 478-482 and 508-513 of mpx, once the statistics `sa` and `sb` of the
        series `a` and `b` are built: the profile left is MpxSpec's. */
    method MpxPasses(parallelism: int, a: seq<real>, b: seq<real>, m: nat, selfJoin: bool,
                     statsA: MpxDiagonals.MuSig, statsB: MpxDiagonals.MuSig,
                     sa: MpxDiagonals.SeriesStats, sb: MpxDiagonals.SeriesStats, toDist: real -> Dist)
        returns (err: Option<Error>)
      requires m == M && selfJoin == SelfJoin
      requires m >= 1 && parallelism >= 1 && (selfJoin ==> a == b)
      requires MuSigFits(statsA, a, m) && MuSigFits(statsB, b, m)
      requires (sa, sb) == MpxStats(a, b, m, selfJoin, statsA, statsB)
      requires MpxDiagonals.StatsOk(sa, m) && MpxDiagonals.StatsOk(sb, m) && sa.s == a && sb.s == b
      requires selfJoin ==> sb == sa
      modifies this`MP, this`Idx
      ensures err == None
      ensures Current() == MpxSpec(a, b, m, selfJoin, parallelism, statsA, statsB, toDist)
    {
      var lenA, lenB := |a| - m + 1, |b| - m + 1;
      ghost var r := MpxFolds(sa, sb, m, selfJoin, parallelism, lenA, lenB, toDist);
      MpxSpecFromStats(a, b, m, selfJoin, parallelism, statsA, statsB, toDist, sa, sb, r);
      err := MpxFoldPasses(parallelism, sa, sb, m, selfJoin, lenA, lenB, toDist);
    }

    /** The passes themselves: MP and Idx are reset over the `lenA` windows of A, the
        ab pass runs and, unless self-joining, the flipped pass over the `lenB`
        windows of B. */
    method MpxFoldPasses(parallelism: int, sa: MpxDiagonals.SeriesStats, sb: MpxDiagonals.SeriesStats, m: nat,
                         selfJoin: bool, lenA: nat, lenB: int, toDist: real -> Dist) returns (err: Option<Error>)
      requires m == M && selfJoin == SelfJoin
      requires m >= 1 && parallelism >= 1 && MpxDiagonals.StatsOk(sa, m) && MpxDiagonals.StatsOk(sb, m)
      requires (selfJoin ==> sb == sa) && lenA == |sa.s| - m + 1
      modifies this`MP, this`Idx
      ensures err == None
      ensures Current() == MpxFolds(sa, sb, m, selfJoin, parallelism, lenA, lenB, toDist)
    {
      var top := Top(lenA);
      MP, Idx := top.mp, top.idx;
      assert Current() == top;
      var p1 := MpxDiagonals.MakePass(sa, sb, m, selfJoin, true);
      ghost var r1 := MpxPassFold(top, p1, parallelism, lenA, ExclZone(selfJoin, m), toDist);
      MpxFoldsPasses(sa, sb, m, selfJoin, parallelism, lenA, lenB, toDist, r1);
      err := RunMpxABJoin(parallelism, lenA, p1, toDist);
      if selfJoin {
        return;
      }
      var p2 := MpxDiagonals.MakePass(sa, sb, m, selfJoin, false);
      err := RunMpxABJoin(parallelism, lenB, p2, toDist);
    }

    /** Lines 213-231 of Update: the newest row is folded into the `k` older slots
        with `<=` under index `k`, and its least entry over those slots is found with
        strict `<`; the new slot `k` is left as it is. */
    method FoldNewRow(row: seq<Dist>, k: nat) returns (minVal: Dist, minIdx: int)
      requires |MP| == k + 1 && |Idx| == k + 1 && |row| == k + 1
      modifies this`MP, this`Idx
      ensures |MP| == k + 1 && |Idx| == k + 1
      ensures var folded := Merge(Profile(old(MP)[..k], old(Idx)[..k]), RowOf(row[..k], k));
              MP[..k] == folded.mp && Idx[..k] == folded.idx
      ensures (minVal, minIdx) == FirstMin(row[..k])
    {
      ghost var before := Profile(MP[..k], Idx[..k]);
      ghost var folded := Merge(before, RowOf(row[..k], k));
      minVal := Inf;
      minIdx := MaxInt64;
      for j := 0 to |row| - 1
        invariant |MP| == k + 1 && |Idx| == k + 1
        invariant forall t :: 0 <= t < j ==> MP[t] == folded.mp[t] && Idx[t] == folded.idx[t]
        invariant forall t :: j <= t < k ==> MP[t] == before.mp[t] && Idx[t] == before.idx[t]
        invariant (minVal, minIdx) == FirstMin(row[..j])
      {
        assert row[..j + 1][..j] == row[..j];
        if Le(row[j], MP[j]) {
          MP := MP[j := row[j]];
          Idx := Idx[j := k];
        }
        if Lt(row[j], minVal) {
          minVal := row[j];
          minIdx := j;
        }
      }
      assert MP[..k] == folded.mp;
      assert Idx[..k] == folded.idx;
    }

    /** Lines 200-210 of Update: the series, N and the profile grow by one. */
    method GrowBy(val: real)
      modifies this`A, this`B, this`N, this`MP, this`Idx
      ensures Snapshot() == Grow(old(Snapshot()), val, SelfJoin)
    {
      if SelfJoin {
        A := A + [val];
        B := A;
      } else {
        B := B + [val];
      }
      N := N + 1;
      MP := MP + [Inf];
      Idx := Idx + [MaxInt64];
    }

    /** Lines 212-235 of Update, after the growth. */
    method FoldLatest(mass: MassFn, caches: CacheFn) returns (err: Option<Error>)
      requires StateOk(Snapshot(), M, SelfJoin) && MassShaped(mass, M)
      modifies this`MP, this`Idx
      ensures (Snapshot(), err) == AfterGrow(old(Snapshot()), M, SelfJoin, mass, caches)
    {
      var a, b, m := A, B, M;
      var cacheErr := caches(a, b);
      if cacheErr.Some? {
        return cacheErr;
      }
      var profile := DistanceProfile(a, b, m, |a| - m, mass);
      if profile.Err? {
        return Some(profile.error);
      }
      ghost var grown := Snapshot();
      var k := N - m;
      var minVal, minIdx := FoldNewRow(profile.value, k);
      ghost var folded := Merge(Profile(grown.mp[..k], grown.idx[..k]), RowOf(profile.value[..k], k));
      LastSlot(MP, k, minVal);
      LastSlot(Idx, k, minIdx);
      MP := MP[k := minVal];
      Idx := Idx[k := minIdx];
      assert Snapshot() == State(a, b, grown.n, folded.mp + [minVal], folded.idx + [minIdx]);
      err := None;
    }

    /** One value of Update (lines 199-236). */
    method UpdateValue(val: real, mass: MassFn, caches: CacheFn) returns (err: Option<Error>)
      requires StateOk(Snapshot(), M, SelfJoin) && MassShaped(mass, M)
      modifies this`A, this`B, this`N, this`MP, this`Idx
      ensures (Snapshot(), err) == UpdateStep(old(Snapshot()), val, M, SelfJoin, mass, caches)
    {
      GrowKeepsShape(Snapshot(), val, M, SelfJoin);
      GrowBy(val);
      err := FoldLatest(mass, caches);
    }

    /** Update (lines 194-239): each value grows the series and the profile and folds
        in the newest row; the first failing value ends the call. */
    method Update(newValues: seq<real>, mass: MassFn, caches: CacheFn) returns (err: Option<Error>)
      requires Valid() && M <= |A| && MassShaped(mass, M)
      modifies this`A, this`B, this`N, this`MP, this`Idx
      ensures Valid()
      ensures (Snapshot(), err) == UpdateAll(old(Snapshot()), newValues, M, SelfJoin, mass, caches)
    {
      ghost var goal := UpdateAll(Snapshot(), newValues, M, SelfJoin, mass, caches);
      for i := 0 to |newValues|
        invariant StateOk(Snapshot(), M, SelfJoin)
        invariant UpdateAll(Snapshot(), newValues[i..], M, SelfJoin, mass, caches) == goal
      {
        assert newValues[i..][0] == newValues[i] && newValues[i..][1..] == newValues[i + 1..];
        err := UpdateValue(newValues[i], mass, caches);
        if err.Some? {
          return;
        }
      }
      err := None;
      assert newValues[|newValues|..] == [];
    }

    /** Compute (lines 41-53): dispatch on the algorithm's name; an unknown name
        returns no error and changes nothing. */
    method Compute(o: ComputeOptions, c: Collaborators) returns (err: Option<Error>)
      requires Valid()
      requires o.algorithm == AlgoSTMP ==> MassShaped(c.mass, M)
      requires o.algorithm == AlgoSTAMP ==> MassShaped(c.mass, M) && o.parallelism >= 1 && |c.perm| == |A| - M + 1
      requires o.algorithm == AlgoSTOMP ==> o.parallelism >= 1
      requires o.algorithm == AlgoMPX ==> o.parallelism >= 1 && MuSigFits(c.statsA, A, M) && MuSigFits(c.statsB, B, M)
      modifies this`MP, this`Idx
      ensures o.algorithm !in {AlgoSTOMP, AlgoSTAMP, AlgoSTMP, AlgoMPX} ==> err == None && Current() == old(Current())
      ensures o.algorithm == AlgoSTOMP ==> err == None && Current() == FoldRows(old(Current()), StompRows(A, B, M, c.conv))
      ensures o.algorithm == AlgoSTAMP && o.sample <= 0.0 ==> err == Some(InvalidSample(o.sample)) && Current() == old(Current())
      ensures o.algorithm == AlgoSTAMP && o.sample > 0.0 ==>
                var rs := StampPartials(A, B, M, o.sample, o.parallelism, c.perm, c.mass);
                Current() == FoldRows(old(Current()), UsableRows(rs)) && err == LastError(rs)
      ensures o.algorithm == AlgoSTMP ==>
                var r := FoldQueries(old(Current()), Range(N - M + 1), QueryFn(A, B, M, c.mass));
                Current() == r.profile && err == r.err
      ensures o.algorithm == AlgoMPX ==>
                err == None && Current() == MpxSpec(A, B, M, SelfJoin, o.parallelism, c.statsA, c.statsB, c.toDist)
      ensures o.algorithm != AlgoMPX ==> Valid()
    {
      if o.algorithm == AlgoSTOMP {
        err := Stomp(o.parallelism, c.conv);
      } else if o.algorithm == AlgoSTAMP {
        err := Stamp(o.sample, o.parallelism, c.perm, c.mass);
      } else if o.algorithm == AlgoSTMP {
        err := Stmp(c.mass);
      } else if o.algorithm == AlgoMPX {
        err := Mpx(o.parallelism, c.statsA, c.statsB, c.toDist);
      } else {
        err := None;
      }
    }
  }
}
