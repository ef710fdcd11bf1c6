/** get_best_server: three latency samples for each candidate, and the candidate with the least rounded score. */
module BestServer {
  import opened Basics
  import opened Servers

  // One request for latency.txt: an HTTP error, or an answer after `total` seconds that was or was not the expected
  // one.
  datatype Probe = HttpError | Answered(total: real, asExpected: bool)

  const PENALTY: real := 3600.0

  function Sample(p: Probe): real {
    if p.Answered? && p.asExpected then p.total else PENALTY
  }

  predicate Plausible(p: Probe) {
    p.Answered? ==> p.total >= 0.0
  }

  // round(x): to nearest, a half to even
  function Round(x: real): int {
    var f := x.Floor;
    var rest := x - f as real;
    if rest < 0.5 || (rest == 0.5 && f % 2 == 0) then f else f + 1
  }

  /** Round is the nearest integer, the even one of two that are as near. */
  lemma RoundMeaning(x: real)
    ensures -0.5 <= Round(x) as real - x <= 0.5
    ensures Round(x) as real - x == 0.5 || Round(x) as real - x == -0.5 ==> Round(x) % 2 == 0
  {
  }

  lemma RoundIsMonotone(x: real, y: real)
    requires x <= y
    ensures Round(x) <= Round(y)
  {
  }

  function Total(cum: seq<real>): real {
    if cum == [] then 0.0 else Total(cum[..|cum| - 1]) + cum[|cum| - 1]
  }

  // round((sum(cum) / 6) * 1000.0, 3), counted in thousandths of a millisecond
  function Score(cum: seq<real>): Key {
    Key(Round(Total(cum) / 6.0 * 1000.0 * 1000.0))
  }

  function Samples(probe: (nat, nat) -> Probe, server: nat): seq<real> {
    [Sample(probe(server, 0)), Sample(probe(server, 1)), Sample(probe(server, 2))]
  }

  function ScoreOf(probe: (nat, nat) -> Probe, server: nat): Key {
    Score(Samples(probe, server))
  }

  predicate Clean(a: Probe, b: Probe, c: Probe) {
    a.Answered? && b.Answered? && c.Answered? && a.asExpected && b.asExpected && c.asExpected
  }

  predicate AllPlausible(a: Probe, b: Probe, c: Probe) {
    Plausible(a) && Plausible(b) && Plausible(c)
  }

  function ScoreOf3(a: Probe, b: Probe, c: Probe): Key {
    Score([Sample(a), Sample(b), Sample(c)])
  }

  lemma ScoreOf3Meaning(a: Probe, b: Probe, c: Probe)
    ensures ScoreOf3(a, b, c) == Key(Round((Sample(a) + Sample(b) + Sample(c)) / 6.0 * 1000.0 * 1000.0))
  {
    var s := [Sample(a), Sample(b), Sample(c)];
    assert s[..2] == [Sample(a), Sample(b)] && s[..2][..1] == [Sample(a)] && s[..2][..1][..0] == [];
    assert Total(s) == Total(s[..2]) + Sample(c);
    assert Total(s[..2]) == Total(s[..2][..1]) + Sample(b);
    assert Total(s[..2][..1]) == Total([]) + Sample(a);
  }

  /** Three clean answers score a sixth of their time in thousandths of a millisecond, to the nearest. */
  lemma CleanScore(a: Probe, b: Probe, c: Probe)
    requires Clean(a, b, c)
    ensures -0.5 <= ScoreOf3(a, b, c).rank as real - (a.total + b.total + c.total) / 6.0 * 1000000.0 <= 0.5
  {
    ScoreOf3Meaning(a, b, c);
    RoundMeaning((a.total + b.total + c.total) / 6.0 * 1000.0 * 1000.0);
  }

  /** A request that failed, or was answered with the wrong text, counts as a clean answer after an hour. */
  lemma FailureIsAnHour(p: Probe, q: Probe, r: Probe)
    requires p.HttpError? || !p.asExpected
    ensures ScoreOf3(p, q, r) == ScoreOf3(Answered(3600.0, true), q, r)
    ensures ScoreOf3(q, p, r) == ScoreOf3(q, Answered(3600.0, true), r)
    ensures ScoreOf3(q, r, p) == ScoreOf3(q, r, Answered(3600.0, true))
  {
    assert Sample(p) == Sample(Answered(3600.0, true));
  }

  predicate CleanAt(probe: (nat, nat) -> Probe, server: nat) {
    Clean(probe(server, 0), probe(server, 1), probe(server, 2))
  }

  function TimeTaken(probe: (nat, nat) -> Probe, server: nat): real
    requires CleanAt(probe, server)
  {
    probe(server, 0).total + probe(server, 1).total + probe(server, 2).total
  }

  // A candidate that scores no more than another took no longer, up to rounding.
  lemma ScoreFollowsTime(probe: (nat, nat) -> Probe, i: nat, j: nat)
    requires CleanAt(probe, i) && CleanAt(probe, j) && ScoreOf(probe, i).rank <= ScoreOf(probe, j).rank
    ensures TimeTaken(probe, i) <= TimeTaken(probe, j) + 0.000006
  {
    CleanScore(probe(i, 0), probe(i, 1), probe(i, 2));
    CleanScore(probe(j, 0), probe(j, 1), probe(j, 2));
  }

  /** `probe(s, i)` is the outcome of request i to candidate s. The server returned has the least score of all;
      of several with that score it is the last listed. Only an empty list of candidates has no best. Of candidates that
      answered every request, none is returned that took longer, over its three requests, than another by more than the
      rounding hides, six microseconds. */
  method GetBestServer(n: nat, probe: (nat, nat) -> Probe) returns (best: Option<nat>, latency: Key)
    ensures best.None? <==> n == 0
    ensures best.Some? ==> best.value < n && latency == ScoreOf(probe, best.value)
    ensures best.Some? ==> forall s :: 0 <= s < n ==> latency.rank <= ScoreOf(probe, s).rank
    ensures best.Some? ==> forall s :: best.value < s < n ==> latency.rank < ScoreOf(probe, s).rank
    ensures best.Some? ==> forall s :: 0 <= s < n && CleanAt(probe, best.value) && CleanAt(probe, s) ==>
              TimeTaken(probe, best.value) <= TimeTaken(probe, s) + 0.000006
  {
    var results: map<Key, nat> := map[];
    for server := 0 to n
      invariant forall s :: 0 <= s < server ==> ScoreOf(probe, s) in results
      invariant forall k :: k in results ==> results[k] < server && ScoreOf(probe, results[k]) == k
      invariant forall k, s :: k in results && results[k] < s < server ==> ScoreOf(probe, s) != k
    {
      var cum: seq<real> := [];
      for i := 0 to 3
        invariant cum == Samples(probe, server)[..i]
      {
        var p := probe(server, i);
        if p.HttpError? {
          cum := cum + [PENALTY];
          continue;
        }
        if p.asExpected {
          cum := cum + [p.total];
        } else {
          cum := cum + [PENALTY];
        }
      }
      assert cum == Samples(probe, server);
      var avg := Score(cum);
      results := results[avg := server];
    }
    var keys := SortKeys(results.Keys);
    if keys == [] {
      assert n > 0 ==> ScoreOf(probe, 0) in results;
      best, latency := None, Key(0);
    } else {
      var fastest := keys[0];
      assert fastest in keys;
      best, latency := Some(results[fastest]), fastest;
      forall s | 0 <= s < n
        ensures fastest.rank <= ScoreOf(probe, s).rank
      {
        var k := ScoreOf(probe, s);
        assert k in keys;
        var i :| 0 <= i < |keys| && keys[i] == k;
      }
      forall s | 0 <= s < n && CleanAt(probe, best.value) && CleanAt(probe, s)
        ensures TimeTaken(probe, best.value) <= TimeTaken(probe, s) + 0.000006
      {
        ScoreFollowsTime(probe, best.value, s);
      }
    }
  }

  // ---- failed samples ----

  // The score of one penalty and two instant answers.
  const PENALTY_RANK: int := 600_000_000

  /** A candidate with a failed sample never scores below that of a single penalty. */
  lemma FailedScoresHigh(a: Probe, b: Probe, c: Probe)
    requires !Clean(a, b, c) && AllPlausible(a, b, c)
    ensures ScoreOf3(a, b, c).rank >= PENALTY_RANK
  {
    ScoreOf3Meaning(a, b, c);
    RoundIsMonotone(3600.0 / 6.0 * 1000.0 * 1000.0, (Sample(a) + Sample(b) + Sample(c)) / 6.0 * 1000.0 * 1000.0);
  }

  /** Three clean answers that take under an hour together never lose to a failed sample. */
  lemma CleanBeatsFailed(a: Probe, b: Probe, c: Probe, x: Probe, y: Probe, z: Probe)
    requires Clean(a, b, c) && a.total + b.total + c.total <= PENALTY
    requires !Clean(x, y, z) && AllPlausible(x, y, z)
    ensures ScoreOf3(a, b, c).rank <= ScoreOf3(x, y, z).rank
  {
    FailedScoresHigh(x, y, z);
    ScoreOf3Meaning(a, b, c);
    RoundIsMonotone((a.total + b.total + c.total) / 6.0 * 1000.0 * 1000.0, 3600.0 / 6.0 * 1000.0 * 1000.0);
  }

  /** And exactly the candidates scoring no more than one penalty are safe from every failed candidate. */
  lemma SafeFromFailedIff(a: Probe, b: Probe, c: Probe)
    ensures (forall x, y, z :: !Clean(x, y, z) && AllPlausible(x, y, z) ==>
        ScoreOf3(a, b, c).rank <= ScoreOf3(x, y, z).rank)
       <==> ScoreOf3(a, b, c).rank <= PENALTY_RANK
  {
    var instant := Answered(0.0, true);
    ScoreOf3Meaning(HttpError, instant, instant);
    assert !Clean(HttpError, instant, instant) && AllPlausible(HttpError, instant, instant);
    assert ScoreOf3(HttpError, instant, instant).rank == PENALTY_RANK;
    forall x, y, z | !Clean(x, y, z) && AllPlausible(x, y, z)
      ensures ScoreOf3(x, y, z).rank >= PENALTY_RANK
    {
      FailedScoresHigh(x, y, z);
    }
  }
}
