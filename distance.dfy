/** The two distance-profile routines of compute.go and their validation guards.

    The floating-point content (MASS with z-normalization and FFT, the sqrt/abs
    formula of line 157, the exclusion zone applied by util.ApplyExclusionZone) is
    injected: MASS as an oracle from query index to its outcome, and the
    dot-product-to-distance conversion as a function of the dot product, the
    reference column and the query index. */
module DistanceProfiles {
  import opened ProfileValues

  /** MASS for query window `idx` of `a` against every window of `b`, exclusion zone
      included, or the error of a collaborator. */
  type MassFn = (seq<real>, seq<real>, nat) -> Result<seq<Dist>>

  /** Distance of reference window `j` to query window `idx` given their dot product. */
  type DistFn = (real, nat, nat) -> Dist

  /** MASS yields one distance per window of the reference series. */
  ghost predicate MassShaped(mass: MassFn, m: nat) {
    forall a, b, idx :: mass(a, b, idx).Ok? ==> |mass(a, b, idx).value| == |b| - m + 1
  }

  /** distanceProfile (lines 127-141). */
  function DistanceProfile(a: seq<real>, b: seq<real>, m: nat, idx: nat, mass: MassFn): (r: Result<seq<Dist>>)
    ensures r.Err? <==> idx > |a| - m || mass(a, b, idx).Err?
    ensures idx > |a| - m ==> r == Err(IndexBeyondSeries(idx, |a|, m))
    ensures r.Ok? ==> r.value == mass(a, b, idx).value
  {
    if idx > |a| - m then Err(IndexBeyondSeries(idx, |a|, m)) else mass(a, b, idx)
  }

  /** An out-of-range query index is rejected before MASS is consulted: the outcome
      does not depend on the oracle at all. */
  lemma DistanceProfileRejectsFirst(a: seq<real>, b: seq<real>, m: nat, idx: nat, mass1: MassFn, mass2: MassFn)
    requires idx > |a| - m
    ensures DistanceProfile(a, b, m, idx, mass1) == DistanceProfile(a, b, m, idx, mass2)
    ensures DistanceProfile(a, b, m, idx, mass1).Err?
  {
  }

  /** The distance row of query `idx` from its sliding dot products (line 156-158). */
  function ConvRow(dot: seq<real>, idx: nat, conv: DistFn): (row: seq<Dist>)
    ensures |row| == |dot|
    ensures forall j :: 0 <= j < |dot| ==> row[j] == conv(dot[j], j, idx)
  {
    seq(|dot|, j requires 0 <= j < |dot| => conv(dot[j], j, idx))
  }

  /** calculateDistanceProfile (lines 146-165): the index guard, then the length
      guard, then the conversion. */
  function CalculateDistanceProfile(dot: seq<real>, idx: nat, profileLen: int, lenA: int, m: int,
                                    conv: DistFn): (r: Result<seq<Dist>>)
    ensures r.Ok? <==> idx <= lenA - m && profileLen == |dot|
    ensures idx > lenA - m ==> r == Err(IndexBeyondSeries(idx, lenA, m))
    ensures idx <= lenA - m && profileLen != |dot| ==> r == Err(ProfileLengthMismatch(profileLen, |dot|))
    ensures r.Ok? ==> r.value == ConvRow(dot, idx, conv)
  {
    if idx > lenA - m then Err(IndexBeyondSeries(idx, lenA, m))
    else if profileLen != |dot| then Err(ProfileLengthMismatch(profileLen, |dot|))
    else Ok(ConvRow(dot, idx, conv))
  }

  /** Both guards reject before any dot product is read: a rejected call gives the
      same error whatever the dot products and the conversion. */
  lemma CalculateRejectsFirst(dot1: seq<real>, dot2: seq<real>, idx: nat, profileLen: int, lenA: int, m: int,
                              conv1: DistFn, conv2: DistFn)
    requires |dot1| == |dot2|
    requires idx > lenA - m || profileLen != |dot1|
    ensures CalculateDistanceProfile(dot1, idx, profileLen, lenA, m, conv1)
         == CalculateDistanceProfile(dot2, idx, profileLen, lenA, m, conv2)
  {
  }
}
