/** Which test servers are used: filtering and bucketing by distance, the nearest, and the one with least latency. */
module Servers {
  import opened Basics

  // Distances and latencies are dictionary keys; only their order matters.
  datatype Key = Key(rank: int)

  type Distance = Key

  // A server element of the retrieved list; `d` is None when its coordinates do not parse.
  datatype Element = Element(id: int, url: string, d: Option<Distance>)

  datatype Server = Server(id: int, url: string, d: Distance)

  // ---- the filter of get_servers ----

  predicate Eligible(e: Element, wanted: seq<int>, ignored: seq<int>, exclude: seq<int>) {
    (wanted == [] || e.id in wanted) && e.id !in ignored && e.id !in exclude && e.d.Some?
  }

  function EligibleServers(es: seq<Element>, wanted: seq<int>, ignored: seq<int>, exclude: seq<int>): seq<Server> {
    if es == [] then []
    else
      var e := es[0];
      var rest := EligibleServers(es[1..], wanted, ignored, exclude);
      if Eligible(e, wanted, ignored, exclude) then [Server(e.id, e.url, e.d.value)] + rest else rest
  }

  // ---- buckets ----

  function AddTo(m: map<Distance, seq<Server>>, s: Server): map<Distance, seq<Server>> {
    m[s.d := (if s.d in m then m[s.d] else []) + [s]]
  }

  // The servers at one distance, in order.
  function At(ss: seq<Server>, d: Distance): seq<Server> {
    if ss == [] then []
    else if ss[0].d == d then [ss[0]] + At(ss[1..], d)
    else At(ss[1..], d)
  }

  lemma {:induction false} AtAppend(xs: seq<Server>, ys: seq<Server>, d: Distance)
    ensures At(xs + ys, d) == At(xs, d) + At(ys, d)
  {
    if xs == [] {
      assert xs + ys == ys;
    } else {
      assert (xs + ys)[1..] == xs[1..] + ys;
      AtAppend(xs[1..], ys, d);
    }
  }

  // m holds exactly the servers of ss, each distance's in their order.
  ghost predicate IsBuckets(m: map<Distance, seq<Server>>, ss: seq<Server>) {
    && (forall d :: d in m <==> At(ss, d) != [])
    && (forall d :: d in m ==> m[d] == At(ss, d))
  }

  lemma AddToKeepsBuckets(m: map<Distance, seq<Server>>, ss: seq<Server>, s: Server)
    requires IsBuckets(m, ss)
    ensures IsBuckets(AddTo(m, s), ss + [s])
  {
    forall d
      ensures At(ss + [s], d) == At(ss, d) + (if s.d == d then [s] else [])
    {
      AtAppend(ss, [s], d);
      assert [s][1..] == [];
    }
  }

  lemma {:induction false} EligibleMembers(es: seq<Element>, wanted: seq<int>, ignored: seq<int>, exclude: seq<int>,
                                           s: Server)
    ensures s in EligibleServers(es, wanted, ignored, exclude) <==>
              && Element(s.id, s.url, Some(s.d)) in es
              && (wanted == [] || s.id in wanted) && s.id !in ignored && s.id !in exclude
  {
    if es != [] {
      EligibleMembers(es[1..], wanted, ignored, exclude, s);
    }
  }

  lemma {:induction false} AtContains(ss: seq<Server>, s: Server)
    ensures s in At(ss, s.d) <==> s in ss
  {
    if ss != [] {
      AtContains(ss[1..], s);
    }
  }

  /** A server is in the bucket of its distance exactly when it is on the list with that distance, is one of those
      wanted (if any are named), and is neither ignored nor excluded. */
  lemma InBucketIff(m: map<Distance, seq<Server>>, es: seq<Element>, wanted: seq<int>, ignored: seq<int>,
                    exclude: seq<int>, s: Server)
    requires IsBuckets(m, EligibleServers(es, wanted, ignored, exclude))
    ensures s.d in m && s in m[s.d] <==>
              && Element(s.id, s.url, Some(s.d)) in es
              && (wanted == [] || s.id in wanted) && s.id !in ignored && s.id !in exclude
  {
    EligibleMembers(es, wanted, ignored, exclude, s);
    AtContains(EligibleServers(es, wanted, ignored, exclude), s);
  }

  // ---- sorted(...) ----

  predicate StrictlyIncreasing(ks: seq<Distance>) {
    forall i, j :: 0 <= i < j < |ks| ==> ks[i].rank < ks[j].rank
  }

  function InsertKey(ks: seq<Distance>, k: Distance): (r: seq<Distance>)
    requires StrictlyIncreasing(ks) && k !in ks
    ensures StrictlyIncreasing(r) && |r| == |ks| + 1
    ensures forall x :: x in r <==> x in ks || x == k
  {
    if ks == [] then [k]
    else if k.rank < ks[0].rank then [k] + ks
    else
      var rest := InsertKey(ks[1..], k);
      assert forall i :: 0 <= i < |rest| ==> ks[0].rank < rest[i].rank by {
        assert forall i :: 0 <= i < |rest| ==> rest[i] in rest;
      }
      [ks[0]] + rest
  }

  method SortKeys(keys: set<Distance>) returns (ks: seq<Distance>)
    ensures StrictlyIncreasing(ks)
    ensures forall k :: k in ks <==> k in keys
  {
    ks := [];
    var left := keys;
    while left != {}
      invariant left <= keys && StrictlyIncreasing(ks)
      invariant forall k :: k in ks <==> k in keys && k !in left
      decreases left
    {
      var k :| k in left;
      ks := InsertKey(ks, k);
      left := left - {k};
    }
  }

  // ---- the walk of get_closest_servers ----

  function Concat(m: map<Distance, seq<Server>>, ks: seq<Distance>): seq<Server>
    requires forall k :: k in ks ==> k in m
  {
    if ks == [] then []
    else
      assert ks[0] in ks;
      m[ks[0]] + Concat(m, ks[1..])
  }

  // Append one by one, stopping when the list has `limit` members.
  function Walk(closest: seq<Server>, rest: seq<Server>, limit: int): seq<Server>
    decreases |rest|
  {
    if rest == [] then closest
    else
      var longer := closest + [rest[0]];
      if |longer| == limit then longer else Walk(longer, rest[1..], limit)
  }

  /** The walk fills the list up to the limit; a list that is already that long never meets it and takes all. */
  lemma {:induction false} WalkMeaning(closest: seq<Server>, rest: seq<Server>, limit: int)
    ensures Walk(closest, rest, limit)
         == if |closest| < limit <= |closest + rest| then (closest + rest)[..limit] else closest + rest
    decreases |rest|
  {
    if rest == [] {
      assert closest + rest == closest;
    } else {
      var longer := closest + [rest[0]];
      assert longer + rest[1..] == closest + rest;
      if |longer| == limit {
        assert (closest + rest)[..limit] == longer;
      } else {
        WalkMeaning(longer, rest[1..], limit);
      }
    }
  }

  // ---- the stable sort by distance ----

  predicate SortedByDistance(ss: seq<Server>) {
    forall i, j :: 0 <= i < j < |ss| ==> ss[i].d.rank <= ss[j].d.rank
  }

  // Insertion sort; a server goes before those at its own distance that come after it in the list.
  function InsertServer(s: Server, sorted: seq<Server>): seq<Server> {
    if sorted == [] || s.d.rank <= sorted[0].d.rank then [s] + sorted
    else [sorted[0]] + InsertServer(s, sorted[1..])
  }

  function StableSort(ss: seq<Server>): seq<Server> {
    if ss == [] then [] else InsertServer(ss[0], StableSort(ss[1..]))
  }

  lemma {:induction false} InsertServerMeaning(s: Server, sorted: seq<Server>)
    requires SortedByDistance(sorted)
    ensures var r := InsertServer(s, sorted);
            && SortedByDistance(r) && |r| == |sorted| + 1
            && (forall x :: x in r ==> x == s || x in sorted)
            && (forall d :: At(r, d) == At([s] + sorted, d))
  {
    if sorted != [] && s.d.rank > sorted[0].d.rank {
      var rest := InsertServer(s, sorted[1..]);
      InsertServerMeaning(s, sorted[1..]);
      forall d
        ensures At([sorted[0]] + rest, d) == At([s] + sorted, d)
      {
        assert ([sorted[0]] + rest)[1..] == rest;
        assert ([s] + sorted)[1..] == sorted;
        assert ([s] + sorted[1..])[1..] == sorted[1..];
      }
    }
  }

  lemma {:induction false} StableSortMeaning(ss: seq<Server>)
    ensures SortedByDistance(StableSort(ss)) && |StableSort(ss)| == |ss|
    ensures forall d :: At(StableSort(ss), d) == At(ss, d)
  {
    if ss != [] {
      StableSortMeaning(ss[1..]);
      InsertServerMeaning(ss[0], StableSort(ss[1..]));
      forall d
        ensures At([ss[0]] + StableSort(ss[1..]), d) == At(ss, d)
      {
        assert ([ss[0]] + StableSort(ss[1..]))[1..] == StableSort(ss[1..]);
      }
    }
  }

  lemma {:induction false} AtNonEmpty(ss: seq<Server>, i: nat)
    requires i < |ss|
    ensures At(ss, ss[i].d) != []
  {
    if i > 0 {
      AtNonEmpty(ss[1..], i - 1);
    }
  }

  lemma {:induction false} AtMembers(ss: seq<Server>, d: Distance)
    ensures forall x :: x in At(ss, d) ==> x in ss && x.d == d
  {
    if ss != [] {
      AtMembers(ss[1..], d);
    }
  }

  // Order by distance and order within each distance leave only one arrangement.
  lemma {:induction false} SortIsUnique(xs: seq<Server>, ys: seq<Server>)
    requires SortedByDistance(xs) && SortedByDistance(ys)
    requires forall d :: At(xs, d) == At(ys, d)
    ensures xs == ys
  {
    if xs == [] || ys == [] {
      if xs != [] {
        AtNonEmpty(xs, 0);
      }
      if ys != [] {
        AtNonEmpty(ys, 0);
      }
    } else {
      AtNonEmpty(xs, 0);
      AtNonEmpty(ys, 0);
      AtMembers(ys, xs[0].d);
      AtMembers(xs, ys[0].d);
      assert At(ys, xs[0].d)[0] in ys && At(xs, ys[0].d)[0] in xs;
      var k := xs[0].d;
      assert ys[0].d == k;
      assert At(xs, k) == [xs[0]] + At(xs[1..], k) && At(ys, k) == [ys[0]] + At(ys[1..], k);
      assert xs[0] == At(xs, k)[0] == At(ys, k)[0] == ys[0];
      forall d
        ensures At(xs[1..], d) == At(ys[1..], d)
      {
        assert At(xs, d) == At(ys, d);
        if d == k {
          assert At(xs, d)[1..] == At(xs[1..], d) && At(ys, d)[1..] == At(ys[1..], d);
        }
      }
      SortIsUnique(xs[1..], ys[1..]);
    }
  }

  lemma {:induction false} ConcatMembers(m: map<Distance, seq<Server>>, ss: seq<Server>, ks: seq<Distance>)
    requires IsBuckets(m, ss) && forall k :: k in ks ==> k in m
    ensures forall x :: x in Concat(m, ks) ==> x.d in ks
  {
    if ks != [] {
      ConcatMembers(m, ss, ks[1..]);
      assert ks[0] in ks;
      AtMembers(ss, ks[0]);
    }
  }

  lemma {:induction false} ConcatSorted(m: map<Distance, seq<Server>>, ss: seq<Server>, ks: seq<Distance>)
    requires IsBuckets(m, ss) && StrictlyIncreasing(ks) && forall k :: k in ks ==> k in m
    ensures SortedByDistance(Concat(m, ks))
  {
    if ks != [] {
      var bucket, rest := m[ks[0]], Concat(m, ks[1..]);
      assert ks[0] in ks;
      ConcatSorted(m, ss, ks[1..]);
      ConcatMembers(m, ss, ks[1..]);
      AtMembers(ss, ks[0]);
      assert forall i :: 0 <= i < |bucket| ==> bucket[i] in bucket;
      assert forall i :: 0 <= i < |rest| ==> rest[i] in rest && ks[0].rank < rest[i].d.rank;
    }
  }

  lemma {:induction false} ConcatAt(m: map<Distance, seq<Server>>, ss: seq<Server>, ks: seq<Distance>, d: Distance)
    requires IsBuckets(m, ss) && StrictlyIncreasing(ks) && forall k :: k in ks ==> k in m
    ensures At(Concat(m, ks), d) == if d in ks then At(ss, d) else []
  {
    if ks != [] {
      var k := ks[0];
      assert k in ks;
      ConcatAt(m, ss, ks[1..], d);
      AtMembers(ss, k);
      AtAppend(m[k], Concat(m, ks[1..]), d);
      AtOfBucket(m[k], k, d);
    }
  }

  lemma {:induction false} AtOfBucket(bucket: seq<Server>, k: Distance, d: Distance)
    requires forall x :: x in bucket ==> x.d == k
    ensures At(bucket, d) == if d == k then bucket else []
  {
    if bucket != [] {
      AtOfBucket(bucket[1..], k, d);
    }
  }

  // The buckets in the order of their distances are the stable sort of what was put in them.
  lemma BucketsSort(m: map<Distance, seq<Server>>, ss: seq<Server>, ks: seq<Distance>)
    requires IsBuckets(m, ss) && StrictlyIncreasing(ks) && forall k :: k in ks <==> k in m
    ensures Concat(m, ks) == StableSort(ss)
  {
    ConcatSorted(m, ss, ks);
    forall d
      ensures At(Concat(m, ks), d) == At(ss, d)
    {
      ConcatAt(m, ss, ks, d);
    }
    StableSortMeaning(ss);
    SortIsUnique(Concat(m, ks), StableSort(ss));
  }

  /** Cutting the stable sort short leaves out only servers at least as far away as every one kept. */
  lemma OmittedAreFarther(ss: seq<Server>, n: nat, i: nat, j: nat)
    requires i < n <= j < |ss|
    ensures |StableSort(ss)| == |ss| && StableSort(ss)[i].d.rank <= StableSort(ss)[j].d.rank
  {
    StableSortMeaning(ss);
  }

  class Speedtest {
    var servers: map<Distance, seq<Server>>
    var closest: seq<Server>

    constructor ()
      ensures servers == map[] && closest == []
    {
      servers, closest := map[], [];
    }

    /** `elements` is the list from the first URL that answered, None when none did. The result is false for
        NoMatchedServers. */
    method GetServers(elements: Option<seq<Element>>, wanted: seq<int>, ignored: seq<int>, exclude: seq<int>)
      returns (ok: bool)
      modifies this`servers
      ensures IsBuckets(servers,
          EligibleServers(if elements.Some? then elements.value else [], wanted, ignored, exclude))
      ensures ok <==> (wanted == [] && exclude == []) || servers != map[]
    {
      servers := map[];
      var es := if elements.Some? then elements.value else [];
      ghost var done: seq<Server> := [];
      for i := 0 to |es|
        invariant IsBuckets(servers, done)
        invariant done + EligibleServers(es[i..], wanted, ignored, exclude) ==
            EligibleServers(es, wanted, ignored, exclude)
      {
        assert es[i..][1..] == es[i + 1..];
        var e := es[i];
        if wanted != [] && e.id !in wanted {
          continue;
        }
        if e.id in ignored || e.id in exclude {
          continue;
        }
        if e.d.None? {
          continue;
        }
        var s := Server(e.id, e.url, e.d.value);
        AddToKeepsBuckets(servers, done, s);
        ghost var before := servers;
        if s.d in servers {
          servers := servers[s.d := servers[s.d] + [s]];
        } else {
          servers := servers[s.d := [s]];
        }
        assert [] + [s] == [s];
        assert servers == AddTo(before, s);
        done := done + [s];
      }
      assert es[|es|..] == [] && done + [] == done;
      ok := (wanted == [] && exclude == []) || servers != map[];
    }

    /** What is appended is the stable sort by distance of the servers found, up to the limit. */
    method GetClosestServers(limit: int, ghost found: seq<Server>)
      requires IsBuckets(servers, found)
      modifies this`closest
      ensures closest == (var all := old(closest) + StableSort(found);
                          if |old(closest)| < limit <= |all| then all[..limit] else all)
    {
      var ks := SortKeys(servers.Keys);
      BucketsSort(servers, found, ks);
      hide IsBuckets, StableSort, At;
      ghost var all := Concat(servers, ks);
      assert ks[0..] == ks;
      var i, full := 0, false;
      while i < |ks| && !full
        invariant 0 <= i <= |ks|
        invariant full ==> closest == Walk(old(closest), all, limit)
        invariant !full ==> Walk(closest, Concat(servers, ks[i..]), limit) == Walk(old(closest), all, limit)
      {
        var bucket := servers[ks[i]];
        ghost var later := Concat(servers, ks[i + 1..]);
        assert ks[i..][1..] == ks[i + 1..];
        var j := 0;
        while j < |bucket| && !full
          invariant 0 <= j <= |bucket|
          invariant full ==> closest == Walk(old(closest), all, limit)
          invariant !full ==> Walk(closest, bucket[j..] + later, limit) == Walk(old(closest), all, limit)
        {
          assert (bucket[j..] + later)[1..] == bucket[j + 1..] + later;
          closest := closest + [bucket[j]];
          if |closest| == limit {
            full := true;
          }
          j := j + 1;
        }
        if !full {
          assert bucket[|bucket|..] + later == later;
        }
        i := i + 1;
      }
      WalkMeaning(old(closest), all, limit);
    }
  }
}
