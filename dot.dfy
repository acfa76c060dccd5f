/** Sliding dot products and the STOMP row-to-row recurrence, over exact arithmetic.

    The FFT cross-correlation of compute.go (crossCorrelate) is modelled by what it
    computes: the sliding dot product of one query window of `a` with every window
    of `b`. */
module SlidingDot {

  /** `a[i]*b[j] + ... + a[i+k-1]*b[j+k-1]`, summed left to right. */
  function DotSum(a: seq<real>, b: seq<real>, i: nat, j: nat, k: nat): real
    requires i + k <= |a| && j + k <= |b|
  {
    if k == 0 then 0.0 else DotSum(a, b, i, j, k - 1) + a[i + k - 1] * b[j + k - 1]
  }

  /** The sliding dot product of `a[r..r+m]` with each of the `|b|-m+1` windows of `b`. */
  function CrossCorrelate(a: seq<real>, b: seq<real>, r: nat, m: nat): (dot: seq<real>)
    requires r + m <= |a| && m <= |b|
    ensures |dot| == |b| - m + 1
    ensures forall j :: 0 <= j < |dot| ==> dot[j] == DotSum(a, b, r, j, m)
  {
    seq(|b| - m + 1, j requires 0 <= j < |b| - m + 1 => DotSum(a, b, r, j, m))
  }

  /** Peeling the first product off a sum. */
  lemma {:induction false} DotSumPeel(a: seq<real>, b: seq<real>, i: nat, j: nat, k: nat)
    requires i + k + 1 <= |a| && j + k + 1 <= |b|
    ensures DotSum(a, b, i, j, k + 1) == a[i] * b[j] + DotSum(a, b, i + 1, j + 1, k)
  {
    if k > 0 {
      DotSumPeel(a, b, i, j, k - 1);
    }
  }

  /** The STOMP identity (compute.go line 448): the window pair one step further down
      the diagonal drops its first product and gains a new last one. */
  lemma DotShift(a: seq<real>, b: seq<real>, r: nat, j: nat, m: nat)
    requires 1 <= r && 1 <= j && m >= 1 && r + m <= |a| && j + m <= |b|
    ensures DotSum(a, b, r, j, m)
         == DotSum(a, b, r - 1, j - 1, m) - b[j - 1] * a[r - 1] + b[j + m - 1] * a[r + m - 1]
  {
    DotSumPeel(a, b, r - 1, j - 1, m);
  }

  /** Lines 447-458 of compute.go: turn row `r-1`'s sliding dot products into row
      `r`'s in place. The loop runs downward so that `dot[j-1]` still holds the old
      row when it is read; `dot[0]` has no predecessor and is recomputed directly. */
  method AdvanceDot(dot: array<real>, a: seq<real>, b: seq<real>, r: nat, m: nat)
    requires 1 <= r && 1 <= m && r + m <= |a| && m <= |b|
    requires dot.Length == |b| - m + 1
    requires dot[..] == CrossCorrelate(a, b, r - 1, m)
    modifies dot
    ensures dot[..] == CrossCorrelate(a, b, r, m)
  {
    var j := |b| - m;
    while j > 0
      invariant 0 <= j <= |b| - m
      invariant forall t :: 0 <= t <= j ==> dot[t] == DotSum(a, b, r - 1, t, m)
      invariant forall t :: j < t < dot.Length ==> dot[t] == DotSum(a, b, r, t, m)
    {
      dot[j] := dot[j - 1] - b[j - 1] * a[r - 1] + b[j + m - 1] * a[r + m - 1];
      DotShift(a, b, r, j, m);
      j := j - 1;
    }
    var nextDotZero := NextDotZero(a, b, r, m);
    dot[0] := nextDotZero;
    assert dot[..] == CrossCorrelate(a, b, r, m);
  }

  /** `dot[0]` of row `r`, accumulated as lines 454-457 do. */
  method NextDotZero(a: seq<real>, b: seq<real>, r: nat, m: nat) returns (s: real)
    requires r + m <= |a| && m <= |b|
    ensures s == DotSum(a, b, r, 0, m)
  {
    s := 0.0;
    for k := 0 to m
      invariant s == DotSum(a, b, r, 0, k)
    {
      s := s + a[r + k] * b[k];
    }
  }
}
