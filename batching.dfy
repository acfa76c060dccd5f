/** The static partition of an index range into `parallelism` contiguous batches
    (compute.go, stamp, stomp, runMpxABJoin). */
module Batching {
  import opened ProfileMerge

  /** Go's integer `/`, which truncates toward zero. */
  function GoDiv(a: int, b: int): (q: int)
    requires b > 0
    ensures a >= 0 ==> 0 <= q && q * b <= a < q * b + b
    ensures a < 0 ==> q <= 0 && a <= q * b < a + b
  {
    if a >= 0 then a / b else -((-a) / b)
  }

  /** `batchSize := total/parallelism + 1`. */
  function BatchSize(total: int, parallelism: int): (bs: int)
    requires parallelism >= 1
    ensures total >= 0 ==> bs >= 1 && parallelism * bs > total
  {
    var q := GoDiv(total, parallelism);
    assert total >= 0 ==> parallelism * (q + 1) == q * parallelism + parallelism;
    q + 1
  }

  /** With a negative total (fewer than zero rows, as when the series is shorter than
      the window), every one of the `parallelism` batches starts at or past the total:
      `idx*bs >= total` even where the truncating division makes the size negative. */
  lemma NegativeTotalStarts(total: int, parallelism: int, idx: nat)
    requires parallelism >= 1 && total < 0 && idx < parallelism
    ensures idx * BatchSize(total, parallelism) >= total
  {
    var q := GoDiv(total, parallelism);
    var bs := q + 1;
    if bs < 0 {
      assert (parallelism - 1 - idx) * bs <= 0 by {
        MulMonotone(0, parallelism - 1 - idx, -bs);
      }
      assert idx * bs >= (parallelism - 1) * bs;
      assert parallelism * bs == q * parallelism + parallelism;
    } else {
      MulMonotone(0, idx, bs);
    }
  }

  /** The number of leading batches that start inside `[0, total)`. */
  function LiveBatches(total: nat, bs: int): (k: nat)
    requires bs >= 1
    ensures k * bs >= total
    ensures forall b: nat :: b < k <==> b * bs < total
  {
    if total == 0 then 0
    else
      var k := (total - 1) / bs + 1;
      assert k * bs == (total - 1) / bs * bs + bs;
      assert forall b: nat :: b < k ==> b * bs <= (total - 1) / bs * bs by {
        forall b: nat | b < k ensures b * bs <= (total - 1) / bs * bs {
          MulMonotone(b, (total - 1) / bs, bs);
        }
      }
      assert forall b: nat :: b >= k ==> b * bs >= k * bs by {
        forall b: nat | b >= k ensures b * bs >= k * bs {
          MulMonotone(k, b, bs);
        }
      }
      k
  }

  lemma MulMonotone(x: int, y: int, c: nat)
    requires x <= y
    ensures x * c <= y * c
  {
    assert y * c - x * c == (y - x) * c;
  }

  /** Every index of `[0, total)` lies in exactly one batch `[b*bs, (b+1)*bs)` with `b < parallelism`. */
  lemma BatchesPartition(total: nat, parallelism: int, q: int)
    requires parallelism >= 1 && 0 <= q < total
    ensures var bs := BatchSize(total, parallelism);
            && 0 <= q / bs < parallelism
            && (q / bs) * bs <= q < (q / bs) * bs + bs
            && forall b: int :: 0 <= b && b * bs <= q < b * bs + bs ==> b == q / bs
  {
    var bs := BatchSize(total, parallelism);
    var b0 := q / bs;
    QuotientBounds(q, bs);
    if b0 >= parallelism {
      MulMonotone(parallelism, b0, bs);
    }
    forall b: int | 0 <= b && b * bs <= q < b * bs + bs
      ensures b == b0
    {
      QuotientUnique(q, bs, b, b0);
    }
  }

  lemma QuotientBounds(q: nat, bs: int)
    requires bs >= 1
    ensures q / bs >= 0 && (q / bs) * bs <= q < (q / bs) * bs + bs
  {
    assert q == (q / bs) * bs + q % bs;
  }

  lemma QuotientUnique(q: int, bs: int, b: int, b0: int)
    requires bs >= 1
    requires b * bs <= q < b * bs + bs
    requires b0 * bs <= q < b0 * bs + bs
    ensures b == b0
  {
    if b < b0 {
      MulMonotone(b + 1, b0, bs);
    } else if b > b0 {
      MulMonotone(b0 + 1, b, bs);
    }
  }

  function Min(x: int, y: int): int {
    if x <= y then x else y
  }

  /** Where batch `b` starts: `b*batchSize`. */
  function Start(b: nat, bs: nat): nat {
    b * bs
  }

  lemma StartSucc(b: nat, bs: nat)
    ensures Start(b + 1, bs) == Start(b, bs) + bs
  {
  }

  /** The elements of batch `b` among `all`. */
  function BatchSlice<T>(all: seq<T>, bs: nat, b: nat): seq<T> {
    all[Min(Start(b, bs), |all|)..Min(Start(b, bs) + bs, |all|)]
  }

  /** The first `k` batches of `all`. */
  function Batches<T>(all: seq<T>, bs: nat, k: nat): (r: seq<seq<T>>)
    ensures |r| == k && forall b :: 0 <= b < k ==> r[b] == BatchSlice(all, bs, b)
  {
    if k == 0 then [] else Batches(all, bs, k - 1) + [BatchSlice(all, bs, k - 1)]
  }

  /** The batches, concatenated in order, give back the prefix they cover. */
  lemma {:induction false} FlattenBatches<T>(all: seq<T>, bs: nat, k: nat)
    ensures Flatten(Batches(all, bs, k)) == all[..Min(Start(k, bs), |all|)]
  {
    if k > 0 {
      var j := k - 1;
      var front := Batches(all, bs, j);
      assert Batches(all, bs, k) == front + [BatchSlice(all, bs, j)];
      FlattenBatches(all, bs, j);
      FlattenSnoc(front, BatchSlice(all, bs, j));
      StartSucc(j, bs);
      SliceJoin(all, Start(j, bs), bs);
    }
  }

  lemma FlattenSnoc<T>(front: seq<seq<T>>, last: seq<T>)
    ensures Flatten(front + [last]) == Flatten(front) + last
  {
    assert (front + [last])[..|front|] == front;
  }

  lemma SliceJoin<T>(all: seq<T>, x: nat, bs: nat)
    ensures all[..Min(x, |all|)] + all[Min(x, |all|)..Min(x + bs, |all|)] == all[..Min(x + bs, |all|)]
  {
  }

  /** A batch of shaped rows is shaped, and a batch that starts inside the rows is not empty. */
  lemma BatchSliceShaped(all: seq<Profile>, bs: nat, b: nat, n: int)
    requires AllShaped(all, n)
    ensures AllShaped(BatchSlice(all, bs, b), n)
    ensures bs >= 1 && Start(b, bs) < |all| ==> BatchSlice(all, bs, b) != []
  {
    var x := BatchSlice(all, bs, b);
    forall i | 0 <= i < |x|
      ensures Shaped(x[i], n)
    {
      assert x[i] == all[Min(Start(b, bs), |all|) + i];
    }
  }

  /** The batch results of a split whose leading `k` batches each fold their run of
      `all` from +Inf, and whose other batches return nothing, merge in channel order
      into the sequential fold of all the rows. */
  lemma MergeLiveBatches(cur: Profile, all: seq<Profile>, rs: seq<Partial>, bs: nat, k: nat)
    requires Shaped(cur, |cur.mp|) && AllShaped(all, |cur.mp|) && bs >= 1
    requires k <= |rs| && Start(k, bs) >= |all|
    requires forall i :: 0 <= i < k ==> Start(i, bs) < |all|
    requires forall i :: 0 <= i < k ==> rs[i] == Done(FoldRows(Top(|cur.mp|), BatchSlice(all, bs, i)))
    requires forall i :: k <= i < |rs| ==> rs[i] == EmptyPartial()
    ensures UsablesShaped(rs, |cur.mp|)
    ensures FoldRows(cur, UsableRows(rs)) == FoldRows(cur, all)
  {
    var n := |cur.mp|;
    var parts := Batches(all, bs, k);
    forall i | 0 <= i < k
      ensures parts[i] != [] && AllShaped(parts[i], n)
    {
      BatchSliceShaped(all, bs, i, n);
    }
    UsableLiveBatches(rs, parts, n);
    MergeBatchFolds(cur, parts);
    FlattenAll(all, bs, k);
  }

  lemma UsableLiveBatches(rs: seq<Partial>, parts: seq<seq<Profile>>, n: nat)
    requires |parts| <= |rs|
    requires forall i :: 0 <= i < |parts| ==> AllShaped(parts[i], n)
    requires forall i :: 0 <= i < |parts| ==> rs[i] == Done(FoldRows(Top(n), parts[i]))
    requires forall i :: |parts| <= i < |rs| ==> rs[i] == EmptyPartial()
    ensures UsablesShaped(rs, n)
    ensures UsableRows(rs) == FoldEach(parts, n)
  {
    UsablePrefix(rs, |parts|);
  }

  lemma FlattenAll(all: seq<Profile>, bs: nat, k: nat)
    requires Start(k, bs) >= |all|
    ensures Flatten(Batches(all, bs, k)) == all
  {
    FlattenBatches(all, bs, k);
    assert all[..Min(Start(k, bs), |all|)] == all;
  }
}
