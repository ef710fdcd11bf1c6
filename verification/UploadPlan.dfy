/** How many uploads there are: the arithmetic of get_config and the request list of upload. */
module UploadPlan {
  import opened Basics
  import Transfer
  import TransferResults

  const UP_SIZES: seq<nat> := [32768, 65536, 131072, 262144, 524288, 1048576, 7340032]

  // Python's xs[start:] and xs[:stop], where a negative index counts from the end.
  function SliceFrom<T>(xs: seq<T>, start: int): seq<T> {
    if start >= |xs| then []
    else if start >= 0 then xs[start..]
    else if |xs| + start >= 0 then xs[|xs| + start..]
    else xs
  }

  function SliceTo<T>(xs: seq<T>, stop: int): seq<T> {
    if stop >= |xs| then xs else if stop >= 0 then xs[..stop] else if |xs| + stop >= 0 then xs[..|xs| + stop] else []
  }

  /** A slice keeps a suffix or a prefix, of the length Python gives it. */
  lemma SliceMeaning<T>(xs: seq<T>, k: int)
    requires 0 <= k <= |xs|
    ensures SliceFrom(xs, k) == xs[k..] && SliceTo(xs, k) == xs[..k]
    ensures k > 0 ==> SliceFrom(xs, -k) == xs[|xs| - k..] && SliceTo(xs, -k) == xs[..|xs| - k]
    ensures SliceFrom(xs, |xs| + k) == [] && SliceTo(xs, |xs| + k) == xs
    ensures k > 0 ==> SliceFrom(xs, -|xs| - k) == xs && SliceTo(xs, -|xs| - k) == []
  {
  }

  // math.ceil(a / n), the division being exact
  function CeilDiv(a: int, n: nat): int
    requires n > 0
  {
    -((-a) / n)
  }

  lemma CeilDivMeaning(a: int, n: nat)
    requires n > 0
    ensures a <= CeilDiv(a, n) * n < a + n
  {
  }

  // The part of the configuration that upload uses; None is a ZeroDivisionError.
  datatype UploadConfig = UploadConfig(sizes: seq<nat>, count: int, uploadMax: int)

  function GetConfig(ratio: int, maxChunkCount: int): Option<UploadConfig> {
    var sizes := SliceFrom(UP_SIZES, ratio - 1);
    var sizeCount := |sizes|;
    if sizeCount == 0 then None
    else
      var uploadCount := CeilDiv(maxChunkCount, sizeCount);
      Some(UploadConfig(sizes, uploadCount, uploadCount * sizeCount))
  }

  function Copies(size: nat, n: nat): (c: seq<nat>)
    ensures |c| == n && forall i :: 0 <= i < n ==> c[i] == size
  {
    seq(n, _ => size)
  }

  /** Ratio r from 1 to 7 keeps the last 8 - r of the seven sizes; from 0 down the index counts from the end, and beyond
      the list it keeps them all. */
  lemma SizesOfRatio(ratio: int, maxChunkCount: int)
    requires ratio <= 7
    ensures var all: seq<nat> := [32768, 65536, 131072, 262144, 524288, 1048576, 7340032];
            var first: nat := if ratio >= 1 then ratio - 1 else if ratio >= -6 then 6 + ratio else 0;
            && GetConfig(ratio, maxChunkCount).Some?
            && GetConfig(ratio, maxChunkCount).value.sizes == all[first..]
  {
  }

  // Every size `count` times over, in order; none when count is negative.
  function Plan(sizes: seq<nat>, count: int): seq<nat> {
    if sizes == [] then []
    else Copies(sizes[0], if count >= 0 then count else 0) + Plan(sizes[1..], count)
  }

  lemma {:induction false} PlanLength(sizes: seq<nat>, count: int)
    ensures |Plan(sizes, count)| == if count >= 0 then |sizes| * count else 0
  {
    if sizes != [] {
      PlanLength(sizes[1..], count);
      if count >= 0 {
        assert |sizes| * count == count + |sizes[1..]| * count;
      }
    }
  }

  /** The requests for one size stand together, in the order of the sizes. */
  lemma {:induction false} PlanAt(sizes: seq<nat>, count: nat, i: nat, k: nat)
    requires i < |sizes| && k < count
    ensures 0 <= i * count + k < |Plan(sizes, count)| && Plan(sizes, count)[i * count + k] == sizes[i]
  {
    if i > 0 {
      PlanAt(sizes[1..], count, i - 1, k);
      assert i * count + k == count + ((i - 1) * count + k);
    }
  }

  /** upload's nested loop. */
  method BuildSizes(sizes: seq<nat>, count: int) returns (all: seq<nat>)
    ensures all == Plan(sizes, count)
  {
    all := [];
    for i := 0 to |sizes|
      invariant all + Plan(sizes[i..], count) == Plan(sizes, count)
    {
      var n := if count >= 0 then count else 0;
      ghost var before := all;
      for j := 0 to n
        invariant all == before + Copies(sizes[i], j)
      {
        all := all + [sizes[i]];
      }
      assert before + Plan(sizes[i..], count) == all + Plan(sizes[i + 1..], count) by {
        assert sizes[i..][1..] == sizes[i + 1..];
      }
    }
    assert sizes[|sizes|..] == [];
  }

  lemma MultipleMod(a: int, n: nat)
    requires n > 0
    ensures (a * n) % n == 0
    ensures a >= 0 <==> a * n >= 0
  {
    var q := (a * n) / n;
    assert (a - q) * n == (a * n) % n;
    MultipleBounds(a - q, n);
    MultipleBounds(a, n);
  }

  lemma MultipleBounds(d: int, n: nat)
    ensures d >= 1 ==> d * n >= n
    ensures d <= -1 ==> d * n + n <= 0
  {
  }

  // The least multiple of the number of sizes that reaches m, and a plan of as many requests.
  lemma CountFits(sizes: seq<nat>, m: int)
    requires sizes != []
    ensures var count := CeilDiv(m, |sizes|);
            var top := count * |sizes|;
            && m <= top < m + |sizes| && top % |sizes| == 0
            && |Plan(sizes, count)| == (if top >= 0 then top else 0) &&
                  SliceTo(Plan(sizes, count), top) == Plan(sizes, count)
  {
    hide CeilDiv, Plan;
    var count := CeilDiv(m, |sizes|);
    CeilDivMeaning(m, |sizes|);
    PlanLength(sizes, count);
    MultipleMod(count, |sizes|);
    assert |sizes| * count == count * |sizes|;
  }

  /** The configuration fails only for a ratio above 7. Otherwise the request count is the least multiple of the
      number of sizes that reaches maxchunkcount, the nested loop builds exactly that many requests, and the
      slice handed to the producer drops none. */
  lemma RequestCount(ratio: int, maxChunkCount: int)
    ensures GetConfig(ratio, maxChunkCount) == None <==> ratio > 7
    ensures ratio <= 7 ==>
              var c := GetConfig(ratio, maxChunkCount).value;
              && maxChunkCount <= c.uploadMax < maxChunkCount + |c.sizes|
              && c.uploadMax % |c.sizes| == 0
              && |Plan(c.sizes, c.count)| == (if c.uploadMax >= 0 then c.uploadMax else 0)
              && SliceTo(Plan(c.sizes, c.count), c.uploadMax) == Plan(c.sizes, c.count)
  {
    hide CeilDiv, Plan, SliceTo;
    var sizes := SliceFrom(UP_SIZES, ratio - 1);
    assert sizes == [] <==> ratio > 7;
    if ratio <= 7 {
      hide SliceFrom, UP_SIZES;
      CountFits(sizes, maxChunkCount);
    }
  }

  /** Hence the consumer waits for exactly the requests that the producer starts, and whether upload can hang depends
      on the threads alone: with an atomic counter and a thread no run hangs, whatever the threads transfer and
      however they interleave; with `+=` split in two some run hangs exactly when there are more requests than
      threads. */
  lemma UploadHangsIff(ratio: int, maxChunkCount: nat, c: UploadConfig, cfg: Transfer.Config)
    requires GetConfig(ratio, maxChunkCount) == Some(c) && cfg.maxThreads >= 1
    requires cfg.count == c.uploadMax && |cfg.work| == |SliceTo(Plan(c.sizes, c.count), c.uploadMax)|
    ensures (exists acts :: TransferResults.Hangs(cfg, acts)) <==> !cfg.atomic && c.uploadMax > cfg.maxThreads
  {
    RequestCount(ratio, maxChunkCount);
    TransferResults.HangIff(cfg);
  }

  lemma {:induction false} PlanHolds(sizes: seq<nat>, count: int, least: nat)
    requires forall i :: 0 <= i < |sizes| ==> sizes[i] >= least
    ensures forall i :: 0 <= i < |Plan(sizes, count)| ==> Plan(sizes, count)[i] >= least
  {
    if sizes != [] {
      PlanHolds(sizes[1..], count, least);
    }
  }

  /** No upload that any configuration asks for is smaller than the least size there is, 32768. */
  lemma RequestsHold(ratio: int, maxChunkCount: nat, c: UploadConfig)
    requires GetConfig(ratio, maxChunkCount) == Some(c)
    ensures var requests := SliceTo(Plan(c.sizes, c.count), c.uploadMax);
            forall i :: 0 <= i < |requests| ==> requests[i] >= 32768
  {
    hide Plan;
    RequestCount(ratio, maxChunkCount);
    PlanHolds(c.sizes, c.count, 32768);
  }
}
