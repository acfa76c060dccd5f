# go-matrixprofile engine core, modelled in Dafny

This project models the discrete skeleton of `compute.go`, the engine of the
go-matrixprofile library, and proves properties of it. The engine computes the
matrix profile of a series A against a series B (or against itself in a
self-join). For every window of length M it computes the distance to the
nearest other window (`MP`) and the position of that window (`Idx`).

The library has four algorithms:

- STMP: one distance profile per query window, folded in order.
- STAMP: a sampled, random-order subset of the query windows, split into batches.
- STOMP: the sliding dot products of each row obtained from the previous row's by
  a recurrence, also split into batches.
- MPX: a diagonal walk over correlations, run in two passes for an AB-join.

Batches report partial results, which `mergeMPResults` folds in channel order.
`Update` appends values to a series and refreshes the profile.

Profile values are `Dist = Fin(real) | Inf`. Go's `<=` on float64 becomes `Le`,
and `math.MaxInt64` marks an unset index. The floating-point content is not
modelled numerically. Each such part is a parameter of the model:

- MASS as an oracle from query index to a row or an error (`MassFn`);
- the dot-product-to-distance formula (`DistFn`);
- the correlation-to-distance formula of MPX (`toDist`);
- the outputs of `util.MuInvN` (`MuSig`);
- `initCaches` (`CacheFn`);
- the permutation `rand.Perm` returns.

The FFT cross-correlation is modelled by what it computes: an exact sliding dot
product (`SlidingDot.CrossCorrelate`). This lets the STOMP recurrence be proved
exactly.

The `MatrixProfile` class holds the fields A, B, M, N, SelfJoin, MP and Idx:

- `Compute`, `stmp`, `stamp`, `stomp`, `mpx`, `mergeMPResults` and `Update` are
  its methods.
- They change MP and Idx, and also A, B and N in `Update`, in place.
- Batch workers take the series by value, as Go's value receivers do. They
  fill fresh arrays.

Every method is proved against a specification function. Lemmas then relate
those functions to what the engine promises. For example, merging STOMP's
batches equals one sequential fold of every row, in order.

Modules, in dependency order:

- `values.dfy`: `ProfileValues`.
- `merge.dfy`: `ProfileMerge`, the `<=` reduction, row folds and the
  batch-result merge.
- `batching.dfy`: `Batching`, `batchSize` and the batch partition.
- `dot.dfy`: `SlidingDot`, the STOMP recurrence.
- `distance.dfy`: `DistanceProfiles`, the two guard-checking routines.
- `rows.dfy`: `RowFolds`, the query loops and `Update`'s first minimum.
- `batchspecs.dfy`: `BatchSpecs`, what a STAMP or STOMP batch returns.
- `mpx.dfy`: `MpxDiagonals`, the MPX diagonal walk.
- `engine.dfy`: `Engine`, the context class, its algorithms and `Update`.

## Model

| member | source | states |
|---|---|---|
| ProfileValues.LeTotalOrder | compute.go:182 | The `<=` used by every fold is a total order on distances with +Inf largest, and the strict `<` of Update is `<=` without equality |
| ProfileMerge.MergeMeaning | compute.go:271-276 | After one element-wise step each entry is at most both inputs' entries; it carries the newer row's index when it holds the newer value, and keeps the older value and index otherwise (ties go to the newer row) |
| ProfileMerge.ColMin | compute.go:181-186 | The least of an initial value and a column: at most each of them, and equal to one of them |
| ProfileMerge.LastAttaining | compute.go:181-186 | The last position of a column holding a value, or -1 when none does |
| ProfileMerge.FoldRowsAt | compute.go:181-186 | Row-fold invariant: after folding rows in order, entry j is the minimum of its initial value and the rows' entries j, and its index is the last row attaining that minimum, or the initial index when no row does |
| ProfileMerge.MergeAssociative | compute.go:271-276 | The `<=`-with-ties step is associative, ties included |
| ProfileMerge.MergeIntoTop | compute.go:433-436 | Folding one row into the all +Inf / MaxInt64 profile gives that row |
| ProfileMerge.MergeFoldFromTop | compute.go:255-276 | Merging a batch that folded a non-empty run of rows from +Inf equals folding that run directly |
| ProfileMerge.FoldAppend | compute.go:255-276 | Folding a concatenation is folding its two parts one after the other |
| ProfileMerge.MergeBatchFolds | compute.go:255-276 | Merging, in channel order, the folds of consecutive non-empty runs of rows equals one sequential fold of all the rows |
| ProfileMerge.UsablePrefix | compute.go:261-270 | When exactly the first k results are usable, the merge folds those k results in order |
| ProfileMerge.LastErrorAt | compute.go:261-263 | The position of the last result carrying an error; no later result has one |
| ProfileMerge.MergeKeepsMinimum | compute.go:255-276 | After the merge, each MP[j] is at most its prior value and at most every usable result's MP[j]. Idx[j] is that of the last usable result equal to the final MP[j], or unchanged (with MP[j]) when none is. Error and empty results play no part |
| Batching.GoDiv | compute.go:293 | Go's integer division truncates toward zero, for non-negative and for negative numerators |
| Batching.BatchSize | compute.go:293 | `L/P + 1` is at least 1, and P batches of that size cover L rows |
| Batching.NegativeTotalStarts | compute.go:371 | When the row count `len(A)-M+1` is negative, every one of the P batches starts at or past it, even where the truncating division makes `batchSize` zero or negative |
| Batching.LiveBatches | compute.go:330-333 | The batches starting inside `[0, L)` are exactly the leading ones: `b < k` if and only if `b*bs < L` |
| Batching.BatchesPartition | compute.go:293 | Every index of `[0, L)` lies in batch `q/bs`, which is below P, and in no other batch `[b*bs, (b+1)*bs)` |
| Batching.FlattenBatches | compute.go:293 | The first k batch slices, concatenated, are the prefix of the rows up to `k*bs` |
| Batching.MergeLiveBatches | compute.go:255-276 | Leading batches that fold their own slice from +Inf, followed by empty batches, merge into the sequential fold of all the rows |
| SlidingDot.DotShift | compute.go:448 | The STOMP identity: the dot product one step down a diagonal is the previous one minus the first product plus the new last product |
| SlidingDot.AdvanceDot | compute.go:447-458 | The downward in-place loop plus the direct recomputation of `dot[0]` turns row `r-1`'s sliding dot products into row `r`'s, for every entry |
| SlidingDot.NextDotZero | compute.go:454-457 | The accumulated `nextDotZero` is the dot product of query window r with the first window of B |
| DistanceProfiles.DistanceProfile | compute.go:127-141 | Fails exactly when `idx > len(A)-M` (with that error) or MASS fails; otherwise it returns MASS's row |
| DistanceProfiles.DistanceProfileRejectsFirst | compute.go:128-130 | An out-of-range index is rejected whatever MASS would return |
| DistanceProfiles.CalculateDistanceProfile | compute.go:146-165 | Succeeds exactly when the index is in range and the lengths agree; the index guard comes first, then the length guard; a success is the converted row |
| DistanceProfiles.CalculateRejectsFirst | compute.go:147-153 | A rejected call gives the same error whatever the dot products and the conversion |
| RowFolds.FoldQueriesStops | compute.go:177-179 | Once a prefix of the queries has failed, the later queries change neither the profile nor the error |
| RowFolds.FirstFailure | compute.go:177-179 | The position of the first failing query: every query before it succeeds and the one at it fails |
| RowFolds.FoldQueriesMeaning | compute.go:176-187 | The query loop leaves the row fold of the queries before the first failure and reports that failure's error; with no failure it is the fold of every row and reports none |
| RowFolds.FirstMin | compute.go:223-234 | From +Inf and MaxInt64 with strict `<`: the least entry, at the first position holding it; +Inf with MaxInt64 when every entry is +Inf |
| RowFolds.FoldInto | compute.go:355-360 | Folding one row into a batch's result arrays leaves their element-wise `<=` merge |
| BatchSpecs.Trunc | compute.go:348 | Go's `int(x)` for a float64 truncates toward zero |
| BatchSpecs.StampVisitsOwnBatch | compute.go:348-351 | With a sample in (0, 1], a batch visits at most `bs` positions, `min(count, len-start)` of them, and they are a prefix of its own batch of the permutation |
| BatchSpecs.StampQueriesSnoc | compute.go:348-352 | The visited positions grow one permutation entry at a time |
| BatchSpecs.StampQueriesPrefix | compute.go:348-351 | Stopping the visit at i gives its first i positions |
| BatchSpecs.StampBatchFails | compute.go:352-353 | A batch whose i+1-th visited query fails returns that error and no profile |
| BatchSpecs.StompFoldOf | compute.go:464-469 | The row-by-row STOMP fold equals the fold of any slice holding the same rows |
| BatchSpecs.StompFoldSlice | compute.go:441-469 | The row-by-row fold of query windows `start ..` equals the fold of that slice of the rows of every query window |
| BatchSpecs.StompBatchDone | compute.go:441-471 | A batch whose loop stops at its size or at the last window of A returns the fold of its slice of rows |
| BatchSpecs.StompSizeOk | compute.go:371-415 | A STOMP batch that gets past the early exit of line 412 has `batchSize >= 1`, and A then has at least one window |
| BatchSpecs.StompNoWindows | compute.go:410-415 | When A is shorter than a window, every STOMP batch stops at the early exit with the empty result, and there are no rows to fold |
| BatchSpecs.StompNeverFails | compute.go:423-425 | No STOMP batch returns an error |
| BatchSpecs.StompLiveBatches | compute.go:412-415 | The leading `LiveBatches` batches cover every query window and return their slice's fold; every later batch returns the empty result |
| BatchSpecs.StompMergesAllRows | compute.go:370-403 | STOMP's batches, merged in channel order, give the sequential fold of the rows of every query window of A: the split changes nothing |
| MpxDiagonals.BatchWalks | compute.go:595-598 | A batch walks exactly the diagonals in `[idx*bs+excl, min((idx+1)*bs+excl, limit))` |
| MpxDiagonals.CellGood | compute.go:617-636 | One cell keeps every slot in [-1, 1], holding the clamped correlation of the cell its index records on a walked diagonal, never lowers a slot, and leaves each slot it writes at least the clamped correlation |
| MpxDiagonals.AlongDiagGood | compute.go:616-637 | Walking a diagonal keeps those properties, and every offered cell is dominated afterwards |
| MpxDiagonals.DominatesKept | compute.go:620-635 | A slot is only overwritten by a strictly greater value, so a dominated cell stays dominated |
| MpxDiagonals.AcrossDiagsGood | compute.go:595-637 | Over several diagonals every slot stays in [-1, 1], a slot above -1 holds the clamped correlation of the walked cell its index records, and every slot ends at least the clamped value of every cell offered to it: the maximum, with a cell attaining it |
| MpxDiagonals.BatchCorrProperties | compute.go:595-637 | A batch's result: slots in [-1, 1]; a slot above -1 records a partner `offset` (first branch) or `offset+diag` (second branch) on one of its diagonals and holds exactly that cell's clamped correlation; every slot is at least every clamped correlation offered to it. So each slot is the maximum over its offered cells, and its index names a cell attaining it |
| MpxDiagonals.SelfJoinExclusionZone | compute.go:564-567 | In a self-join, a slot that took a value records a partner at least M/4 positions away |
| MpxDiagonals.DiagonalsCovered | compute.go:523 | Every diagonal in `[excl, lenA)` is walked by batch `(d-excl)/bs`, which is one of the P batches |
| MpxDiagonals.CorrectedPassesCoverAllPairs | compute.go:509-513 | With the corrected limit, every pair of a window of A and a window of B lies on a walked cell of the ab pass or of the flipped pass |
| MpxDiagonals.VisitedCellsInRange | compute.go:599-618 | Every visited cell reads both series and their statistics in range: `diag+M-1`, `offset+diag < lenA` and `offset < lenB` of the walked pair |
| MpxDiagonals.AsWrittenFlippedPassOverruns | compute.go:568 | As written, an AB-join with more windows in A than in B makes the flipped pass walk diagonal `lenB` of B, reading one past the end of B |
| MpxDiagonals.AsWrittenBatchCorr | compute.go:568-637 | The batch profile with the as-written limit `lenA`, where that limit stays inside the walked series: with a batch size below 1 it is the initial state; otherwise every slot is in [-1, 1], a slot above -1 holds the clamped correlation of a recorded cell on one of the batch diagonals below that limit, and every slot is at least every clamped correlation offered to it |
| MpxDiagonals.AsWrittenSlotZero | compute.go:568-636 | With the as-written limit, where it stays inside the walked series, slot 0 of a batch that took a value records a partner below that limit |
| MpxDiagonals.AsWrittenFlippedPassMisses | compute.go:596 | As written, an AB-join with more windows in B than in A never walks diagonal `lenA` of B, and in neither pass does slot 0 (window 0 of A) record window `lenA` of B as its partner |
| MpxDiagonals.ComputeDeltas | compute.go:493-498 | The df/dg deltas: 0 at window 0, then half the change and the sum of the deviations of the entering and leaving entries |
| MpxDiagonals.InitialCov | compute.go:599-602 | The loop computes the covariance of the first window pair of the diagonal |
| MpxDiagonals.OfferCell | compute.go:618-636 | The cell's two guarded, clamped writes on the arrays are the modelled cell step |
| MpxDiagonals.WalkDiagonal | compute.go:599-637 | The running covariance and `offsetMax` give the whole diagonal's walk |
| MpxDiagonals.WalkBatch | compute.go:595-638 | The diagonal loop with its break at the limit leaves the batch's correlation profile |
| MpxDiagonals.ToDistances | compute.go:640-642 | Fills a fresh array with each correlation converted to a distance, entry i from entry i (Go overwrites `mpr.MP` in place) |
| MpxDiagonals.MpxBatch | compute.go:558-645 | A batch past the guard is empty; any other batch returns the converted correlation profile and its index, never an error |
| Engine.Grow | compute.go:200-210 | In a self-join A grows and B becomes A; otherwise only B grows; N, MP and Idx grow by one, with a +Inf / MaxInt64 slot |
| Engine.GrowKeepsShape | compute.go:200-210 | Growing keeps `N == len(B)`, the profile length `N-M+1` and A and B equal in a self-join |
| Engine.UpdateStep | compute.go:199-236 | One value grows the series and the profile by one whether or not it then fails; a failing step leaves the new slot at +Inf / MaxInt64 |
| Engine.UpdateStepMeaning | compute.go:219-236 | A successful step folds the last window's row into every older slot with `<=` under index `N-M`, and the new slot `N-M` holds the first strict minimum of the row over the older slots (+Inf / MaxInt64 when there is none) |
| Engine.UpdateAll | compute.go:198-239 | Update over several values keeps the context's shape, and without error grows N and the profile by exactly the number of values |
| Engine.MpxStats | compute.go:485-506 | mpx's statistics cover both series; a self-join uses A's for B |
| Engine.MpxBatches | compute.go:544-548 | The results of a pass's first k batches, in channel order: shaped like the profile and never an error |
| Engine.RunMpxBatches | compute.go:542-548 | The batch loop produces the pass's results in channel order |
| Engine.MpxPartials | compute.go:523 | One pass runs P batches of size `(profileLen-excl+1)/P + 1` |
| Engine.MpxNeverFails | compute.go:554 | The merge of an MPX pass returns no error |
| Engine.StompStep | compute.go:441-469 | One row of stompBatch: the dot products move to the next window and the batch's profile is the fold one row further |
| Engine.StompFirstRow | compute.go:417-436 | The first row's dot products are the sliding dot product of the batch's first window, and the batch profile is that row under its index |
| Engine.StompBatch | compute.go:410-472 | A STOMP batch returns the empty result past the end of A, and otherwise the fold from +Inf of the rows of its query windows |
| Engine.MpxSeries | compute.go:485-507 | The statistics and deltas built for A and, unless self-joining, for B |
| Engine.StampBatch | compute.go:328-363 | A STAMP batch returns the empty result past the end of A, otherwise the fold of its visited queries or the first error met |
| Engine.MatrixProfile.MergeRow | compute.go:271-276 | MP and Idx become their element-wise `<=` merge with the row |
| Engine.MatrixProfile.MergeResults | compute.go:251-279 | MP and Idx become the fold of the usable results in channel order, and the returned error is that of the last erroring result |
| Engine.MatrixProfile.Stmp | compute.go:171-190 | The profile is the fold of the query rows `0 .. N-M` up to the first failure, and the error is that failure's; the context stays `Valid()` |
| Engine.MatrixProfile.Stamp | compute.go:286-325 | A non-positive sample is rejected with nothing changed; otherwise the profile is the merge of the batch results and the error is the last batch error; the context stays `Valid()` |
| Engine.RunStompBatches | compute.go:371-396 | The batch loop produces STOMP's results in channel order |
| Engine.MatrixProfile.Stomp | compute.go:370-403 | No error, and the profile becomes the sequential fold of the rows of every query window of A (none, and nothing changes, when A is shorter than a window); the context stays `Valid()` |
| Engine.MatrixProfile.RunMpxABJoin | compute.go:516-555 | No error, and the profile becomes the fold of the pass's batch results |
| Engine.MatrixProfile.Mpx | compute.go:474-514 | No error, and the profile is that of the reset followed by the ab pass and, unless self-joining, the flipped pass |
| Engine.MatrixProfile.MpxPasses | compute.go:508-513 | After the statistics, the passes leave mpx's profile |
| Engine.MatrixProfile.MpxFoldPasses | compute.go:478-513 | The reset to +Inf / MaxInt64 over A's windows, then the two pass folds |
| Engine.MatrixProfile.FoldNewRow | compute.go:223-234 | The older slots take the element-wise `<=` merge with the row under index `N-M`, and `minVal`/`minIdx` are the row's first strict minimum |
| Engine.MatrixProfile.GrowBy | compute.go:200-210 | The context grows as Grow says |
| Engine.MatrixProfile.FoldLatest | compute.go:212-236 | A cache or MASS failure is reported with the grown state left as it was; otherwise the newest row is folded in |
| Engine.MatrixProfile.UpdateValue | compute.go:199-236 | The context and the error are those of one Update step |
| Engine.MatrixProfile.Update | compute.go:194-239 | The context and the error are those of Update over all the values, stopping at the first failure; the context stays `Valid()` |
| Engine.MatrixProfile.Compute | compute.go:41-53 | Dispatches on the algorithm's name to stomp, stamp, stmp or mpx with their outcomes; an unknown name returns no error and changes nothing; every algorithm but mpx keeps the context `Valid()` |

## Left out

- The numeric content of `crossCorrelate`, `mass` and `initCaches` (compute.go:57-121) is left out: it uses the gonum FFT, a foreign library. The sliding dot product is modelled exactly; MASS and `initCaches` are parameters.
- The distance formulas of lines 157 and 641 are not computed: they need float64 square roots and divisions. They are injected functions.
- `util.MovMeanStd`, `util.ZNormalize`, `util.MuInvN` and `util.ApplyExclusionZone` are not part of this model. Their outputs are parameters. The exclusion zone of `distanceProfile` and `calculateDistanceProfile` is inside the injected MASS and conversion.
- Goroutines, channels, `sync.WaitGroup` and the `done` handshake are left out. The merge reads the results as a sequence in channel-index order, which is the order `mergeMPResults` reads them in.
- `rand.Perm` is left out: randomness is not modelled. The permutation is a parameter of length `len(A)-M+1`. Nothing relies on it being a permutation.
- NaN distances are not modelled, since a distance is a finite real or +Inf.
- Numerical agreement between STMP, STOMP and MPX is not proved, and neither is the accuracy of MPX's correlations. Both are floating-point questions.
- Go's 64-bit `int` overflow is not modelled. Index products such as `idx*batchSize` are unbounded integers here.
- Engine.MatrixProfile.Compute requires `parallelism >= 1` for STOMP, STAMP and MPX. With 0 the Go code divides by zero and panics, and a negative count panics in `make`.
- Engine.MatrixProfile.Mpx: the profile it is proved equal to uses the corrected diagonal limit (see Findings), not the code as written.
- MpxDiagonals.MpxBatch, MpxDiagonals.WalkBatch: both use the corrected limit, the window count of the walked series. As written, the flipped pass of an AB-join uses A's window count instead. When A has more windows than B, the code reads past the end of B and panics. When B has more windows than A, the code returns a profile with diagonals `lenA ..` of B never walked. That second result is modelled only for slot 0 (`AsWrittenBatchCorr`, `AsWrittenFlippedPassMisses`), not for the whole profile.
- BatchSpecs.StampCount: the product `bs * sample` is exact here. Go rounds the float64 product first, so at a rounding boundary the count can differ by one. For example, the float64 nearest 0.3 is just below 0.3. Its exact product with 10 is just below 3 and truncates to 2 here, while Go rounds the product to 3.0 and reads 3 rows.
- Engine.MatrixProfile.Mpx does not promise `Valid()`. After an AB-join, MP and Idx have `len(A)-M+1` entries, while `Valid()` asks for `N-M+1` with `N = len(B)`. So the context is `Valid()` afterwards only when A and B have the same length.
- Engine.MatrixProfile.Stmp requires `Valid()`, the shape every other operation keeps. The Go code itself needs less. It needs `N-M+1 >= 0`, or `make` panics on a negative length. It needs MP and Idx to have at least `N-M+1` entries, or the merge indexes out of range. With `M = N+1` the loop runs zero times and returns nil. Extra entries of longer MP and Idx are left untouched. Those two cases are not modelled.
- Engine.MatrixProfile.Stamp requires a permutation of length `len(A)-M+1`. When A is shorter than `M-1`, Go's `rand.Perm` panics on the negative length. That panic is not modelled.
- Engine.MatrixProfile.Mpx / Engine.MatrixProfile.Compute requires `len(A) >= M` for MPX, through `MuSigFits` of A's statistics. `Valid()` gives only `M <= len(B)`, so this excludes two AB-joins the Go code accepts. With `len(A) = M-1`, `lenA` is 0 (compute.go:475-479): both passes break at once (compute.go:596-597) and `mpx` returns nil with empty MP and Idx, provided `util.MuInvN` returns on a series shorter than a window. With `len(A) < M-1`, `make` panics on the negative `lenA` (compute.go:478). Neither case is modelled.
- Engine.MatrixProfile.Update requires `M <= len(A)`. In a self-join `Valid()` already implies it. In an AB-join with A shorter than M, `distanceProfile(len(A)-M, ...)` passes its guard with a negative index and panics slicing `mp.A` (compute.go:128-132). That panic is not modelled.
- Engine.UpdateStep is modelled as written, also for an AB-join. There it folds the row of A's last window `len(A)-M`, but records the older slots with index `N-M`, B's newest window. The new slot `N-M` gets the least distance from A's last window to B's older windows, with a B window as its index. The intended update for a new window of B is not modelled: compare that window with every window of A. It would need MASS of B's window against A, which this model has no oracle for.
- The STAMP and STOMP batch workers take A, B and M as parameters. They do not read them through an aliased receiver, because Go passes the receiver `mp MatrixProfile` by value.
- `runMpxABJoin` has a value receiver, but its merge's element writes still reach the context's `MP` and `Idx`, because the copied slices share their backing arrays. The model does not represent that aliasing: it writes the context's fields directly.

## Findings

| source | as written | input that shows it | evidently intended | confidence | as-written member | corrected member |
|---|---|---|---|---|---|---|
| compute.go:568 | In the flipped pass (`ab == false`), the early-exit guard and the break at line 596 use `lenA`, the window count of the unflipped A, while the diagonals walked are those of B | An AB-join where A has more windows than B, for example `len(A) = 10`, `len(B) = 6`, `M = 3` (`lenA = 8`, `lenB = 4`). Some batch walks diagonal 4 of B, and the first covariance reads `B[4+M-1] = B[6]`, past the end of B | Bound the flipped pass by B's window count, the series it walks | not executed | MpxDiagonals.AsWrittenFlippedPassOverruns | MpxDiagonals.CorrectedPassesCoverAllPairs |
| compute.go:596 | The same `lenA` bound also stops the flipped pass too early when B has more windows than A | `len(A) = 6`, `len(B) = 10`, `M = 3` (`lenA = 4`, `lenB = 8`). Diagonal 4 of B is never walked, and in neither pass does slot 0 (window 0 of A) record window 4 of B as its partner, so that pair is never compared | Walk every diagonal of B | not executed | MpxDiagonals.AsWrittenFlippedPassMisses | MpxDiagonals.CorrectedPassesCoverAllPairs |
