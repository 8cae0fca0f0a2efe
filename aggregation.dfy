/**
 * Aggregation of the peer rankings (`calculate_aggregate_rankings`): every label
 * a ranking names that the label map knows records its 1-based position for the
 * member behind it; each member with a position gets its average position and
 * count; the entries are sorted, stably, by average, best first.
 *
 * Averages are kept in hundredths, as `round(avg, 2)` leaves them, computed from
 * the exact quotient.
 */
module Aggregation {
  import opened Wrappers
  import opened RankingParser
  import opened Rankings

  /** One resolvable label of a ranking: the member it stands for and its position in the ranking. */
  datatype Observation = Observation(member: string, position: nat)

  /** The resolvable labels of `parsed[..n]`, with their 1-based positions, in order. */
  function Resolved(lm: LabelMap, parsed: seq<string>, n: nat): (r: seq<Observation>)
    requires n <= |parsed|
    ensures |r| <= n
    ensures forall k :: 0 <= k < |r| ==> 1 <= r[k].position <= n
  {
    if n == 0 then []
    else
      Resolved(lm, parsed, n - 1)
      + (match Lookup(lm, parsed[n - 1]) case Some(m) => [Observation(m, n)] case None => [])
  }

  /**
   * A ranking records exactly the known labels, each at its own 1-based
   * position: one observation per resolvable label, duplicates included.
   */
  lemma {:induction false} ResolvedExactly(lm: LabelMap, parsed: seq<string>, n: nat, o: Observation)
    requires n <= |parsed|
    ensures o in Resolved(lm, parsed, n) <==> 1 <= o.position <= n && Lookup(lm, parsed[o.position - 1]) == Some(o.member)
  {
    if n > 0 {
      ResolvedExactly(lm, parsed, n - 1, o);
      var tail := match Lookup(lm, parsed[n - 1]) case Some(m) => [Observation(m, n)] case None => [];
      assert Resolved(lm, parsed, n) == Resolved(lm, parsed, n - 1) + tail;
      assert o in tail <==> o.position == n && Lookup(lm, parsed[n - 1]) == Some(o.member);
    }
  }

  /** The rankings, each parsed again from its full text, as the source does. */
  function Reparsed(results: seq<Stage3Result>): seq<seq<string>> {
    seq(|results|, k requires 0 <= k < |results| => ParseRanking(results[k].ranking))
  }

  /** The length of the longest of the rankings `rankings[..n]`. */
  function LongestRanking(rankings: seq<seq<string>>, n: nat): (r: nat)
    requires n <= |rankings|
    ensures forall k :: 0 <= k < n ==> |rankings[k]| <= r
  {
    if n == 0 then 0
    else
      var before := LongestRanking(rankings, n - 1);
      if |rankings[n - 1]| < before then before else |rankings[n - 1]|
  }

  /** The resolvable labels of the rankings `rankings[..n]`, in order. */
  function Observations(lm: LabelMap, rankings: seq<seq<string>>, n: nat): seq<Observation>
    requires n <= |rankings|
  {
    if n == 0 then []
    else Observations(lm, rankings, n - 1) + Resolved(lm, rankings[n - 1], |rankings[n - 1]|)
  }

  /** The resolvable labels of all the rankings of stage 3. */
  function ObservationsOf(lm: LabelMap, results: seq<Stage3Result>): seq<Observation> {
    var rankings := Reparsed(results);
    Observations(lm, rankings, |rankings|)
  }

  /** Some observation is of member `m`. */
  predicate Observed(obs: seq<Observation>, m: string) {
    exists k :: 0 <= k < |obs| && obs[k].member == m
  }

  /** The members observed, each once, in the order of their first observation (the dict's key order). */
  function FirstSeen(obs: seq<Observation>): seq<string> {
    if obs == [] then []
    else
      var prev := FirstSeen(obs[..|obs| - 1]);
      var m := obs[|obs| - 1].member;
      if m in prev then prev else prev + [m]
  }

  /** The positions recorded for member `m`, in order. */
  function PositionsOf(obs: seq<Observation>, m: string): (r: seq<nat>)
    ensures |r| <= |obs|
  {
    if obs == [] then []
    else
      var o := obs[|obs| - 1];
      PositionsOf(obs[..|obs| - 1], m) + (if o.member == m then [o.position] else [])
  }

  lemma ObservedSnoc(obs: seq<Observation>, o: Observation, x: string)
    ensures Observed(obs + [o], x) <==> Observed(obs, x) || o.member == x
  {
    if Observed(obs + [o], x) && o.member != x {
      var k :| 0 <= k < |obs| + 1 && (obs + [o])[k].member == x;
      assert obs[k].member == x;
    }
    if Observed(obs, x) {
      var k :| 0 <= k < |obs| && obs[k].member == x;
      assert (obs + [o])[k].member == x;
    }
    if o.member == x {
      assert (obs + [o])[|obs|].member == x;
    }
  }

  /** No name occurs twice. */
  predicate Distinct(names: seq<string>) {
    forall a, b :: 0 <= a < b < |names| ==> names[a] != names[b]
  }

  /** `FirstSeen` lists every observed member, and nothing else, once. */
  lemma {:induction false} FirstSeenSpec(obs: seq<Observation>)
    ensures forall m :: m in FirstSeen(obs) <==> Observed(obs, m)
    ensures Distinct(FirstSeen(obs))
  {
    if obs != [] {
      var prefix := obs[..|obs| - 1];
      var o := obs[|obs| - 1];
      assert obs == prefix + [o];
      FirstSeenSpec(prefix);
      forall x ensures Observed(obs, x) <==> Observed(prefix, x) || o.member == x {
        ObservedSnoc(prefix, o, x);
      }
      var prev := FirstSeen(prefix);
      if o.member !in prev {
        var r := prev + [o.member];
        forall a, b | 0 <= a < b < |r| ensures r[a] != r[b] {
          if b == |prev| {
            assert r[a] == prev[a] && prev[a] in prev && r[b] == o.member;
          } else {
            assert r[a] == prev[a] && r[b] == prev[b];
          }
        }
      }
    }
  }

  /** A member has positions exactly when it was observed. */
  lemma {:induction false} PositionsObserved(obs: seq<Observation>, m: string)
    ensures PositionsOf(obs, m) != [] <==> Observed(obs, m)
  {
    if obs != [] {
      var prefix := obs[..|obs| - 1];
      var o := obs[|obs| - 1];
      assert obs == prefix + [o];
      PositionsObserved(prefix, m);
      ObservedSnoc(prefix, o, m);
    }
  }

  lemma FirstSeenSnoc(obs: seq<Observation>, o: Observation)
    ensures FirstSeen(obs + [o])
         == if o.member in FirstSeen(obs) then FirstSeen(obs) else FirstSeen(obs) + [o.member]
  {
    assert (obs + [o])[..|obs|] == obs;
  }

  lemma PositionsSnoc(obs: seq<Observation>, o: Observation, m: string)
    ensures PositionsOf(obs + [o], m) == PositionsOf(obs, m) + (if o.member == m then [o.position] else [])
  {
    assert (obs + [o])[..|obs|] == obs;
  }

  function Sum(ps: seq<nat>): nat {
    if ps == [] then 0 else Sum(ps[..|ps| - 1]) + ps[|ps| - 1]
  }

  /**
   * `round(sum / count, 2)` in hundredths: the hundredth nearest to the exact
   * quotient, a tie going to the even one.
   */
  function AverageRank(sum: nat, count: nat): (r: nat)
    requires count > 0
    ensures 2 * (100 * sum - r * count) <= count
    ensures 2 * (r * count - 100 * sum) <= count
  {
    var q, rem := (100 * sum) / count, (100 * sum) % count;
    assert 100 * sum == q * count + rem;
    assert (q + 1) * count == q * count + count;
    if 2 * rem < count || (2 * rem == count && q % 2 == 0) then q else q + 1
  }

  /** One output entry: `{"model": ..., "average_rank": ..., "rankings_count": ...}`, the average in hundredths. */
  datatype AggregateRanking = AggregateRanking(member: string, averageRank: nat, rankingsCount: nat)

  /** The entry of an observed member: its average position and how many positions it has. */
  function EntryOf(obs: seq<Observation>, m: string): AggregateRanking
    requires PositionsOf(obs, m) != []
  {
    var ps := PositionsOf(obs, m);
    AggregateRanking(m, AverageRank(Sum(ps), |ps|), |ps|)
  }

  /** One entry per name of `names` that has positions (`if positions:`), in the order of `names`. */
  function Entries(obs: seq<Observation>, names: seq<string>): (r: seq<AggregateRanking>)
    ensures |r| <= |names|
  {
    if names == [] then []
    else
      var m := names[|names| - 1];
      Entries(obs, names[..|names| - 1]) + (if PositionsOf(obs, m) != [] then [EntryOf(obs, m)] else [])
  }

  // ---------------------------------------------------------------------------
  // The stable sort

  predicate SortedByRank(s: seq<AggregateRanking>) {
    forall a, b :: 0 <= a < b < |s| ==> s[a].averageRank <= s[b].averageRank
  }

  /** The entries of `s` with average `v`, in order. */
  function WithRank(s: seq<AggregateRanking>, v: nat): seq<AggregateRanking> {
    if s == [] then [] else (if s[0].averageRank == v then [s[0]] else []) + WithRank(s[1..], v)
  }

  /** Puts `x` before the first entry whose average is not below its own. */
  function Insert(s: seq<AggregateRanking>, x: AggregateRanking): seq<AggregateRanking> {
    if s == [] then [x]
    else if x.averageRank <= s[0].averageRank then [x] + s
    else [s[0]] + Insert(s[1..], x)
  }

  /** Inserting adds exactly `x`. */
  lemma {:induction false} InsertPerm(s: seq<AggregateRanking>, x: AggregateRanking)
    ensures multiset(Insert(s, x)) == multiset(s) + multiset{x}
  {
    if s != [] && x.averageRank > s[0].averageRank {
      InsertPerm(s[1..], x);
      assert s == [s[0]] + s[1..];
    }
  }

  /** Every entry's average is at least `v`. */
  predicate RanksAtLeast(s: seq<AggregateRanking>, v: nat) {
    forall k :: 0 <= k < |s| ==> v <= s[k].averageRank
  }

  lemma RanksAtLeastCons(e: AggregateRanking, rest: seq<AggregateRanking>, v: nat)
    requires v <= e.averageRank && RanksAtLeast(rest, v)
    ensures RanksAtLeast([e] + rest, v)
  {
    var r := [e] + rest;
    forall k | 0 < k < |r| ensures v <= r[k].averageRank {
      assert r[k] == rest[k - 1];
    }
  }

  /** Inserting an entry whose average is at least `v` keeps every average at least `v`. */
  lemma {:induction false} InsertRanksAtLeast(s: seq<AggregateRanking>, x: AggregateRanking, v: nat)
    requires RanksAtLeast(s, v) && v <= x.averageRank
    ensures RanksAtLeast(Insert(s, x), v)
  {
    if s == [] {
      RanksAtLeastCons(x, [], v);
    } else if x.averageRank <= s[0].averageRank {
      RanksAtLeastCons(x, s, v);
    } else {
      InsertRanksAtLeast(s[1..], x, v);
      RanksAtLeastCons(s[0], Insert(s[1..], x), v);
    }
  }

  /** A sorted list starts with its least average, and its tail is sorted. */
  lemma SortedTail(s: seq<AggregateRanking>)
    requires SortedByRank(s) && s != []
    ensures SortedByRank(s[1..]) && RanksAtLeast(s[1..], s[0].averageRank)
  {
    forall k | 0 <= k < |s| - 1 ensures s[0].averageRank <= s[1..][k].averageRank {
      assert s[1..][k] == s[k + 1];
    }
  }

  lemma SortedCons(e: AggregateRanking, rest: seq<AggregateRanking>)
    requires SortedByRank(rest) && RanksAtLeast(rest, e.averageRank)
    ensures SortedByRank([e] + rest)
  {
    var r := [e] + rest;
    forall a, b | 0 <= a < b < |r| ensures r[a].averageRank <= r[b].averageRank {
      assert r[b] == rest[b - 1];
      if a > 0 {
        assert r[a] == rest[a - 1];
      }
    }
  }

  /** Inserting into a sorted list keeps it sorted. */
  lemma {:induction false} InsertSorted(s: seq<AggregateRanking>, x: AggregateRanking)
    requires SortedByRank(s)
    ensures SortedByRank(Insert(s, x))
  {
    if s == [] {
      SortedCons(x, []);
    } else if x.averageRank <= s[0].averageRank {
      SortedTail(s);
      RanksAtLeastCons(s[0], s[1..], x.averageRank);
      assert [s[0]] + s[1..] == s;
      SortedCons(x, s);
    } else {
      SortedTail(s);
      InsertSorted(s[1..], x);
      InsertRanksAtLeast(s[1..], x, s[0].averageRank);
      SortedCons(s[0], Insert(s[1..], x));
    }
  }

  /** The entries of average `v` of a list with `x` in front. */
  lemma WithRankCons(x: AggregateRanking, s: seq<AggregateRanking>, v: nat)
    ensures WithRank([x] + s, v) == (if x.averageRank == v then [x] else []) + WithRank(s, v)
  {
    assert ([x] + s)[1..] == s;
  }

  /** Inserting puts `x` first among the entries with its average, and moves no other entry past another of equal average. */
  lemma {:induction false} InsertStable(s: seq<AggregateRanking>, x: AggregateRanking, v: nat)
    ensures WithRank(Insert(s, x), v) == (if x.averageRank == v then [x] else []) + WithRank(s, v)
  {
    var mine := if x.averageRank == v then [x] else [];
    if s == [] {
      WithRankCons(x, [], v);
    } else if x.averageRank <= s[0].averageRank {
      WithRankCons(x, s, v);
    } else {
      var head := if s[0].averageRank == v then [s[0]] else [];
      var rest := Insert(s[1..], x);
      var after := WithRank(s[1..], v);
      assert Insert(s, x) == [s[0]] + rest;
      InsertStable(s[1..], x, v);
      WithRankCons(s[0], rest, v);
      assert WithRank(Insert(s, x), v) == head + (mine + after);
      WithRankCons(s[0], s[1..], v);
      assert s == [s[0]] + s[1..];
      assert WithRank(s, v) == head + after;
      SwapEmpty(head, mine, after);
    }
  }

  /** One of two prefixes is empty, so their order does not matter. */
  lemma SwapEmpty<T>(a: seq<T>, b: seq<T>, c: seq<T>)
    requires a == [] || b == []
    ensures a + (b + c) == b + (a + c)
  {
    if a == [] {
      assert a + (b + c) == b + c && a + c == c;
    } else {
      assert b + c == c && b + (a + c) == a + c;
    }
  }

  /**
   * `aggregate.sort(key=lambda x: x['average_rank'])`: ascending by average; the
   * sort is stable, so entries with equal averages keep their order.
   */
  function SortByRank(s: seq<AggregateRanking>): seq<AggregateRanking> {
    if s == [] then [] else Insert(SortByRank(s[1..]), s[0])
  }

  /** The sort is a permutation: it neither adds, drops nor duplicates an entry. */
  lemma {:induction false} SortPerm(s: seq<AggregateRanking>)
    ensures multiset(SortByRank(s)) == multiset(s)
  {
    if s != [] {
      SortPerm(s[1..]);
      InsertPerm(SortByRank(s[1..]), s[0]);
      assert s == [s[0]] + s[1..];
    }
  }

  /** The sort's result is sorted by average. */
  lemma {:induction false} SortSorted(s: seq<AggregateRanking>)
    ensures SortedByRank(SortByRank(s))
  {
    if s != [] {
      SortSorted(s[1..]);
      InsertSorted(SortByRank(s[1..]), s[0]);
    }
  }

  /** The sort is stable: the entries of any one average come out in the order they went in. */
  lemma {:induction false} SortStable(s: seq<AggregateRanking>, v: nat)
    ensures WithRank(SortByRank(s), v) == WithRank(s, v)
  {
    if s != [] {
      SortStable(s[1..], v);
      InsertStable(SortByRank(s[1..]), s[0], v);
    }
  }

  // ---------------------------------------------------------------------------
  // The aggregation

  /** `calculate_aggregate_rankings`, as a function of the rankings and the label map. */
  function AggregateRankings(results: seq<Stage3Result>, lm: LabelMap): seq<AggregateRanking> {
    var obs := ObservationsOf(lm, results);
    SortByRank(Entries(obs, FirstSeen(obs)))
  }

  /** `positions` holds, for each member of `order`, its positions in `obs`, and holds nothing else. */
  ghost predicate Tracks(obs: seq<Observation>, order: seq<string>, positions: map<string, seq<nat>>) {
    (forall m :: m in positions <==> m in order)
    && forall m :: m in positions ==> positions[m] == PositionsOf(obs, m)
  }

  /** Recording one more observation keeps the first-seen order and the positions in step with it. */
  lemma {:induction false} TracksSnoc(seen: seq<Observation>, o: Observation,
                                      order: seq<string>, positions: map<string, seq<nat>>,
                                      order': seq<string>, positions': map<string, seq<nat>>)
    requires order == FirstSeen(seen) && Tracks(seen, order, positions)
    requires o.member in positions ==>
      order' == order && positions' == positions[o.member := positions[o.member] + [o.position]]
    requires o.member !in positions ==>
      order' == order + [o.member] && positions' == positions[o.member := [o.position]]
    ensures order' == FirstSeen(seen + [o]) && Tracks(seen + [o], order', positions')
  {
    FirstSeenSnoc(seen, o);
    forall x {
      PositionsSnoc(seen, o, x);
    }
    if o.member !in positions {
      FirstSeenSpec(seen);
      PositionsObserved(seen, o.member);
    }
  }

  lemma ResolvedStep(lm: LabelMap, parsed: seq<string>, before: seq<Observation>, j: nat)
    requires j < |parsed|
    ensures before + Resolved(lm, parsed, j + 1)
         == before + Resolved(lm, parsed, j)
            + (match Lookup(lm, parsed[j]) case Some(m) => [Observation(m, j + 1)] case None => [])
  {
    var tail := match Lookup(lm, parsed[j]) case Some(m) => [Observation(m, j + 1)] case None => [];
    assert Resolved(lm, parsed, j + 1) == Resolved(lm, parsed, j) + tail;
    assert before + (Resolved(lm, parsed, j) + tail) == before + Resolved(lm, parsed, j) + tail;
  }

  /** The inner loop of `calculate_aggregate_rankings`: records the resolvable labels of one ranking. */
  method RecordRanking(lm: LabelMap, parsed: seq<string>, ghost before: seq<Observation>,
                       order0: seq<string>, positions0: map<string, seq<nat>>)
    returns (order: seq<string>, positions: map<string, seq<nat>>)
    requires order0 == FirstSeen(before) && Tracks(before, order0, positions0)
    ensures order == FirstSeen(before + Resolved(lm, parsed, |parsed|))
    ensures Tracks(before + Resolved(lm, parsed, |parsed|), order, positions)
  {
    order, positions := order0, positions0;
    ghost var seen := before;
    assert before + Resolved(lm, parsed, 0) == before;
    for j := 0 to |parsed|
      invariant seen == before + Resolved(lm, parsed, j)
      invariant order == FirstSeen(seen) && Tracks(seen, order, positions)
    {
      var found := Lookup(lm, parsed[j]);
      var position: nat := j + 1;
      if found.Some? {
        var m := found.value;
        ghost var o := Observation(m, position);
        ghost var order0, positions0 := order, positions;
        if m in positions {
          positions := positions[m := positions[m] + [position]];
        } else {
          order := order + [m];
          positions := positions[m := [position]];
        }
        TracksSnoc(seen, o, order0, positions0, order, positions);
        ResolvedStep(lm, parsed, before, j);
        seen := seen + [o];
      } else {
        ResolvedStep(lm, parsed, before, j);
      }
    }
  }

  /** The second loop of `calculate_aggregate_rankings`: one entry per member with positions, in first-seen order. */
  method BuildEntries(ghost obs: seq<Observation>, order: seq<string>, positions: map<string, seq<nat>>)
    returns (aggregate: seq<AggregateRanking>)
    requires Tracks(obs, order, positions)
    ensures aggregate == Entries(obs, order)
  {
    aggregate := [];
    for k := 0 to |order|
      invariant aggregate == Entries(obs, order[..k])
    {
      var m := order[k];
      var ps := positions[m];
      assert order[..k + 1][..k] == order[..k];
      if ps != [] {
        aggregate := aggregate + [AggregateRanking(m, AverageRank(Sum(ps), |ps|), |ps|)];
      }
    }
    assert order[..|order|] == order;
  }

  /** The first loop of `calculate_aggregate_rankings`: records the resolvable labels of every ranking. */
  method RecordRankings(results: seq<Stage3Result>, lm: LabelMap)
    returns (order: seq<string>, positions: map<string, seq<nat>>)
    ensures order == FirstSeen(ObservationsOf(lm, results)) && Tracks(ObservationsOf(lm, results), order, positions)
  {
    order, positions := [], map[];
    ghost var rankings := Reparsed(results);
    for i := 0 to |results|
      invariant order == FirstSeen(Observations(lm, rankings, i))
      invariant Tracks(Observations(lm, rankings, i), order, positions)
    {
      var parsed := ParseRanking(results[i].ranking);
      order, positions := RecordRanking(lm, parsed, Observations(lm, rankings, i), order, positions);
    }
  }

  /**
   * `calculate_aggregate_rankings`: records positions member by member in a map
   * that remembers the order in which members were first seen, builds one entry
   * per member, and sorts.
   */
  method CalculateAggregateRankings(results: seq<Stage3Result>, lm: LabelMap) returns (aggregate: seq<AggregateRanking>)
    ensures aggregate == AggregateRankings(results, lm)
  {
    var order, positions := RecordRankings(results, lm);
    aggregate := BuildEntries(ObservationsOf(lm, results), order, positions);
    aggregate := SortByRank(aggregate);
  }

  // ---------------------------------------------------------------------------
  // What the aggregate says

  /** The aggregate is ordered by average position, best first. */
  lemma AggregateSorted(results: seq<Stage3Result>, lm: LabelMap)
    ensures SortedByRank(AggregateRankings(results, lm))
  {
    var obs := ObservationsOf(lm, results);
    SortSorted(Entries(obs, FirstSeen(obs)));
  }

  /** Members with equal averages are listed in the order in which they were first ranked. */
  lemma AggregateTies(results: seq<Stage3Result>, lm: LabelMap, v: nat)
    ensures var obs := ObservationsOf(lm, results);
            WithRank(AggregateRankings(results, lm), v) == WithRank(Entries(obs, FirstSeen(obs)), v)
  {
    var obs := ObservationsOf(lm, results);
    SortStable(Entries(obs, FirstSeen(obs)), v);
  }

  /** Each entry of `Entries(obs, names)` is the entry of an observed name of `names`, and every observed name has one. */
  lemma {:induction false} EntriesMembers(obs: seq<Observation>, names: seq<string>)
    ensures forall e :: e in Entries(obs, names) ==>
      e.member in names && PositionsOf(obs, e.member) != [] && e == EntryOf(obs, e.member)
    ensures forall m :: m in names && PositionsOf(obs, m) != [] ==>
      exists e :: e in Entries(obs, names) && e.member == m
  {
    if names != [] {
      var prefix := names[..|names| - 1];
      EntriesMembers(obs, prefix);
      assert names == prefix + [names[|names| - 1]];
      forall m | m in names && PositionsOf(obs, m) != []
        ensures exists e :: e in Entries(obs, names) && e.member == m
      {
        if m in prefix {
          var e :| e in Entries(obs, prefix) && e.member == m;
          assert e in Entries(obs, names);
        } else {
          assert m == names[|names| - 1];
          assert EntryOf(obs, m) in Entries(obs, names);
        }
      }
    }
  }

  /** No two entries are for the same member. */
  predicate DistinctMembers(s: seq<AggregateRanking>) {
    forall a, b :: 0 <= a < b < |s| ==> s[a].member != s[b].member
  }

  /** Distinct names give entries for distinct members. */
  lemma {:induction false} EntriesDistinct(obs: seq<Observation>, names: seq<string>)
    requires Distinct(names)
    ensures DistinctMembers(Entries(obs, names))
  {
    if names != [] {
      var prefix := names[..|names| - 1];
      var last := names[|names| - 1];
      EntriesDistinct(obs, prefix);
      var before := Entries(obs, prefix);
      if PositionsOf(obs, last) != [] {
        EntriesMembers(obs, prefix);
        assert last !in prefix;
        var r := before + [EntryOf(obs, last)];
        assert forall a :: 0 <= a < |before| ==> before[a].member != last by {
          forall a | 0 <= a < |before| ensures before[a].member != last {
            assert before[a] in before;
          }
        }
        assert forall a, b :: 0 <= a < b < |r| ==> r[a].member != r[b].member by {
          forall a, b | 0 <= a < b < |r| ensures r[a].member != r[b].member {
            if b < |before| {
              assert r[a] == before[a] && r[b] == before[b];
            }
          }
        }
      }
    }
  }

  /** No entry is for member `m`. */
  predicate NoEntryFor(s: seq<AggregateRanking>, m: string) {
    forall k :: 0 <= k < |s| ==> s[k].member != m
  }

  lemma NoEntryForCons(e: AggregateRanking, rest: seq<AggregateRanking>, m: string)
    requires e.member != m && NoEntryFor(rest, m)
    ensures NoEntryFor([e] + rest, m)
  {
    var r := [e] + rest;
    forall k | 0 < k < |r| ensures r[k].member != m {
      assert r[k] == rest[k - 1];
    }
  }

  lemma {:induction false} InsertNoEntryFor(s: seq<AggregateRanking>, x: AggregateRanking, m: string)
    requires NoEntryFor(s, m) && x.member != m
    ensures NoEntryFor(Insert(s, x), m)
  {
    if s == [] {
      NoEntryForCons(x, [], m);
    } else if x.averageRank <= s[0].averageRank {
      NoEntryForCons(x, s, m);
    } else {
      InsertNoEntryFor(s[1..], x, m);
      NoEntryForCons(s[0], Insert(s[1..], x), m);
    }
  }

  lemma {:induction false} SortNoEntryFor(s: seq<AggregateRanking>, m: string)
    requires NoEntryFor(s, m)
    ensures NoEntryFor(SortByRank(s), m)
  {
    if s != [] {
      assert NoEntryFor(s[1..], m) by {
        forall k | 0 <= k < |s| - 1 ensures s[1..][k].member != m {
          assert s[1..][k] == s[k + 1];
        }
      }
      SortNoEntryFor(s[1..], m);
      InsertNoEntryFor(SortByRank(s[1..]), s[0], m);
    }
  }

  lemma DistinctCons(e: AggregateRanking, rest: seq<AggregateRanking>)
    requires DistinctMembers(rest) && NoEntryFor(rest, e.member)
    ensures DistinctMembers([e] + rest)
  {
    var r := [e] + rest;
    forall a, b | 0 <= a < b < |r| ensures r[a].member != r[b].member {
      assert r[b] == rest[b - 1];
      if a > 0 {
        assert r[a] == rest[a - 1];
      }
    }
  }

  /** The tail of a list with distinct members has distinct members, none of them the head's. */
  lemma DistinctTail(s: seq<AggregateRanking>)
    requires DistinctMembers(s) && s != []
    ensures DistinctMembers(s[1..]) && NoEntryFor(s[1..], s[0].member)
  {
    forall k | 0 <= k < |s| - 1 ensures s[1..][k].member != s[0].member {
      assert s[1..][k] == s[k + 1];
    }
  }

  /** Inserting a member that has no entry yet keeps the members distinct. */
  lemma {:induction false} InsertDistinct(s: seq<AggregateRanking>, x: AggregateRanking)
    requires DistinctMembers(s) && NoEntryFor(s, x.member)
    ensures DistinctMembers(Insert(s, x))
  {
    if s == [] {
      DistinctCons(x, []);
    } else if x.averageRank <= s[0].averageRank {
      DistinctCons(x, s);
    } else {
      DistinctTail(s);
      assert NoEntryFor(s[1..], x.member) by {
        forall k | 0 <= k < |s| - 1 ensures s[1..][k].member != x.member {
          assert s[1..][k] == s[k + 1];
        }
      }
      InsertDistinct(s[1..], x);
      InsertNoEntryFor(s[1..], x, s[0].member);
      DistinctCons(s[0], Insert(s[1..], x));
    }
  }

  /** Sorting keeps the members distinct. */
  lemma {:induction false} SortDistinct(s: seq<AggregateRanking>)
    requires DistinctMembers(s)
    ensures DistinctMembers(SortByRank(s))
  {
    if s != [] {
      DistinctTail(s);
      SortDistinct(s[1..]);
      SortNoEntryFor(s[1..], s[0].member);
      InsertDistinct(SortByRank(s[1..]), s[0]);
    }
  }

  /** Sorting neither adds nor drops an entry. */
  lemma SortSameEntries(s: seq<AggregateRanking>)
    ensures forall e :: e in SortByRank(s) <==> e in s
  {
    SortPerm(s);
    forall e ensures e in SortByRank(s) <==> e in s {
      assert e in SortByRank(s) <==> e in multiset(SortByRank(s));
      assert e in s <==> e in multiset(s);
    }
  }

  /** Each entry of the aggregate is its member's count of positions and their average. */
  lemma AggregateEntries(results: seq<Stage3Result>, lm: LabelMap)
    ensures var obs := ObservationsOf(lm, results);
            forall e :: e in AggregateRankings(results, lm) ==>
              PositionsOf(obs, e.member) != [] && e == EntryOf(obs, e.member)
  {
    var obs := ObservationsOf(lm, results);
    EntriesMembers(obs, FirstSeen(obs));
    SortSameEntries(Entries(obs, FirstSeen(obs)));
  }

  /** A member has an entry in the aggregate exactly when some ranking names it through a known label. */
  lemma AggregateHas(results: seq<Stage3Result>, lm: LabelMap, m: string)
    ensures var obs := ObservationsOf(lm, results);
            (exists e :: e in AggregateRankings(results, lm) && e.member == m) <==> Observed(obs, m)
  {
    var obs := ObservationsOf(lm, results);
    var entries := Entries(obs, FirstSeen(obs));
    FirstSeenSpec(obs);
    PositionsObserved(obs, m);
    EntriesMembers(obs, FirstSeen(obs));
    SortSameEntries(entries);
    if Observed(obs, m) {
      var e :| e in entries && e.member == m;
      assert e in AggregateRankings(results, lm);
    }
  }

  /** No member has two entries. */
  lemma AggregateDistinct(results: seq<Stage3Result>, lm: LabelMap)
    ensures DistinctMembers(AggregateRankings(results, lm))
  {
    var obs := ObservationsOf(lm, results);
    FirstSeenSpec(obs);
    EntriesDistinct(obs, FirstSeen(obs));
    SortDistinct(Entries(obs, FirstSeen(obs)));
  }

  lemma {:induction false} PositionsBounded(obs: seq<Observation>, m: string, hi: nat)
    requires forall k :: 0 <= k < |obs| ==> 1 <= obs[k].position <= hi
    ensures forall i :: 0 <= i < |PositionsOf(obs, m)| ==> 1 <= PositionsOf(obs, m)[i] <= hi
  {
    if obs != [] {
      PositionsBounded(obs[..|obs| - 1], m, hi);
    }
  }

  lemma {:induction false} SumBounds(ps: seq<nat>, hi: nat)
    requires forall i :: 0 <= i < |ps| ==> 1 <= ps[i] <= hi
    ensures |ps| <= Sum(ps) <= |ps| * hi
  {
    if ps != [] {
      var prefix := ps[..|ps| - 1];
      SumBounds(prefix, hi);
      assert |prefix| * hi + hi == |ps| * hi;
    }
  }

  lemma MulMonotone(a: nat, b: nat, c: nat)
    requires a <= b
    ensures a * c <= b * c
  {
    assert b * c == a * c + (b - a) * c;
  }

  lemma MulCancel(a: nat, b: nat, c: nat)
    requires a * c > b * c
    ensures a > b
  {
    if a <= b {
      MulMonotone(a, b, c);
    }
  }

  /** An average of positions between 1 and `hi` rounds to between 1.00 and `hi`.00. */
  lemma AverageBounds(sum: nat, count: nat, hi: nat)
    requires 0 < count <= sum <= hi * count
    ensures 100 <= AverageRank(sum, count) <= 100 * hi
  {
    var r := AverageRank(sum, count);
    var rc := r * count;
    var hc := hi * count;
    assert 2 * (100 * sum - rc) <= count && 2 * (rc - 100 * sum) <= count;
    assert rc > 99 * count;
    MulCancel(r, 99, count);
    assert (100 * hi + 1) * count == 100 * hc + count;
    assert (100 * hi + 1) * count > rc;
    MulCancel(100 * hi + 1, r, count);
  }

  /** The entry of a member with positions between 1 and `hi`: counted at least once, average between 1.00 and `hi`.00. */
  lemma EntryBounds(obs: seq<Observation>, m: string, hi: nat)
    requires forall k :: 0 <= k < |obs| ==> 1 <= obs[k].position <= hi
    requires PositionsOf(obs, m) != []
    ensures 1 <= EntryOf(obs, m).rankingsCount
    ensures 100 <= EntryOf(obs, m).averageRank <= 100 * hi
  {
    var ps := PositionsOf(obs, m);
    PositionsBounded(obs, m, hi);
    SumBounds(ps, hi);
    AverageBounds(Sum(ps), |ps|, hi);
  }

  /** Every position in `obs` lies between 1 and `hi`. */
  predicate PositionsWithin(obs: seq<Observation>, hi: nat) {
    forall k :: 0 <= k < |obs| ==> 1 <= obs[k].position <= hi
  }

  lemma WithinAppend(a: seq<Observation>, b: seq<Observation>, ha: nat, hb: nat, hi: nat)
    requires PositionsWithin(a, ha) && PositionsWithin(b, hb) && ha <= hi && hb <= hi
    ensures PositionsWithin(a + b, hi)
  {
    forall k | 0 <= k < |a + b| ensures 1 <= (a + b)[k].position <= hi {
      if k >= |a| {
        assert (a + b)[k] == b[k - |a|];
      }
    }
  }

  /** Every resolvable label's position lies between 1 and the length of the longest ranking. */
  lemma {:induction false} ObservationsBounded(lm: LabelMap, rankings: seq<seq<string>>, n: nat)
    requires n <= |rankings|
    ensures PositionsWithin(Observations(lm, rankings, n), LongestRanking(rankings, n))
  {
    if n > 0 {
      ObservationsBounded(lm, rankings, n - 1);
      var hi := LongestRanking(rankings, n);
      assert |rankings[n - 1]| <= hi;
      WithinAppend(Observations(lm, rankings, n - 1), Resolved(lm, rankings[n - 1], |rankings[n - 1]|),
                   LongestRanking(rankings, n - 1), |rankings[n - 1]|, hi);
    }
  }

  /**
   * Every member in the aggregate was ranked at least once, and its average
   * position lies between 1 and the length of the longest ranking.
   */
  lemma AggregateBounds(results: seq<Stage3Result>, lm: LabelMap)
    ensures forall e :: e in AggregateRankings(results, lm) ==>
      1 <= e.rankingsCount && 100 <= e.averageRank <= 100 * LongestRanking(Reparsed(results), |results|)
  {
    var obs := ObservationsOf(lm, results);
    var hi := LongestRanking(Reparsed(results), |results|);
    ObservationsBounded(lm, Reparsed(results), |results|);
    AggregateEntries(results, lm);
    forall e | e in AggregateRankings(results, lm)
      ensures 1 <= e.rankingsCount && 100 <= e.averageRank <= 100 * hi
    {
      EntryBounds(obs, e.member, hi);
    }
  }

  /** The sum of the entries' counts. */
  function TotalCount(s: seq<AggregateRanking>): nat {
    if s == [] then 0 else s[0].rankingsCount + TotalCount(s[1..])
  }

  lemma {:induction false} TotalCountAppend(a: seq<AggregateRanking>, b: seq<AggregateRanking>)
    ensures TotalCount(a + b) == TotalCount(a) + TotalCount(b)
  {
    if a != [] {
      TotalCountAppend(a[1..], b);
      assert (a + b)[1..] == a[1..] + b;
    } else {
      assert a + b == b;
    }
  }

  lemma {:induction false} SortTotal(s: seq<AggregateRanking>)
    ensures TotalCount(SortByRank(s)) == TotalCount(s)
  {
    if s != [] {
      SortTotal(s[1..]);
      InsertTotal(SortByRank(s[1..]), s[0]);
    }
  }

  lemma {:induction false} InsertTotal(s: seq<AggregateRanking>, x: AggregateRanking)
    ensures TotalCount(Insert(s, x)) == TotalCount(s) + x.rankingsCount
  {
    if s == [] {
      assert TotalCount([x]) == x.rankingsCount + TotalCount([x][1..]);
    } else if x.averageRank <= s[0].averageRank {
      assert ([x] + s)[1..] == s;
    } else {
      InsertTotal(s[1..], x);
      assert ([s[0]] + Insert(s[1..], x))[1..] == Insert(s[1..], x);
    }
  }

  /** How many times `m` occurs in `names`. */
  function Occurrences(names: seq<string>, m: string): nat {
    if names == [] then 0
    else Occurrences(names[..|names| - 1], m) + (if names[|names| - 1] == m then 1 else 0)
  }

  lemma {:induction false} OccurrencesDistinct(names: seq<string>, m: string)
    requires Distinct(names)
    ensures Occurrences(names, m) == if m in names then 1 else 0
  {
    if names != [] {
      var prefix := names[..|names| - 1];
      OccurrencesDistinct(prefix, m);
      assert names == prefix + [names[|names| - 1]];
    }
  }

  /** The counts an entry list gives: the positions of each of its names. */
  lemma {:induction false} EntriesTotalSnoc(obs: seq<Observation>, o: Observation, names: seq<string>)
    ensures TotalCount(Entries(obs + [o], names)) == TotalCount(Entries(obs, names)) + Occurrences(names, o.member)
  {
    if names != [] {
      var prefix := names[..|names| - 1];
      var m := names[|names| - 1];
      EntriesTotalSnoc(obs, o, prefix);
      PositionsSnoc(obs, o, m);
      var tail := if PositionsOf(obs, m) != [] then [EntryOf(obs, m)] else [];
      var tail' := if PositionsOf(obs + [o], m) != [] then [EntryOf(obs + [o], m)] else [];
      TotalCountAppend(Entries(obs, prefix), tail);
      TotalCountAppend(Entries(obs + [o], prefix), tail');
      assert TotalCount(tail) == |PositionsOf(obs, m)| by {
        if tail != [] { assert TotalCount(tail) == tail[0].rankingsCount + TotalCount(tail[1..]); }
      }
      assert TotalCount(tail') == |PositionsOf(obs + [o], m)| by {
        if tail' != [] { assert TotalCount(tail') == tail'[0].rankingsCount + TotalCount(tail'[1..]); }
      }
    }
  }

  /** Each resolvable label of each ranking is counted once, for one member. */
  lemma {:induction false} EntriesTotal(obs: seq<Observation>)
    ensures TotalCount(Entries(obs, FirstSeen(obs))) == |obs|
  {
    if obs != [] {
      var prefix := obs[..|obs| - 1];
      var o := obs[|obs| - 1];
      var m := o.member;
      assert obs == prefix + [o];
      EntriesTotal(prefix);
      FirstSeenSnoc(prefix, o);
      var fs := FirstSeen(prefix);
      EntriesTotalSnoc(prefix, o, fs);
      FirstSeenSpec(prefix);
      OccurrencesDistinct(fs, m);
      if m !in fs {
        PositionsObserved(prefix, m);
        var fs' := fs + [m];
        assert fs'[..|fs|] == fs;
        PositionsSnoc(prefix, o, m);
        assert PositionsOf(obs, m) == [o.position];
        assert Entries(obs, fs') == Entries(obs, fs) + [EntryOf(obs, m)];
        TotalCountAppend(Entries(obs, fs), [EntryOf(obs, m)]);
        assert TotalCount([EntryOf(obs, m)]) == 1 + TotalCount([EntryOf(obs, m)][1..]);
      }
    }
  }

  /** The counts of the aggregate add up to the number of resolvable labels in all rankings. */
  lemma AggregateTotal(results: seq<Stage3Result>, lm: LabelMap)
    ensures TotalCount(AggregateRankings(results, lm)) == |ObservationsOf(lm, results)|
  {
    var obs := ObservationsOf(lm, results);
    EntriesTotal(obs);
    SortTotal(Entries(obs, FirstSeen(obs)));
  }

  /** Some label of the label map stands for member `m`. */
  predicate Labelled(lm: LabelMap, m: string) {
    exists i :: 0 <= i < |lm| && lm[i].1 == m
  }

  /** Every observation is of a member some label stands for. */
  predicate AllLabelled(lm: LabelMap, obs: seq<Observation>) {
    forall k :: 0 <= k < |obs| ==> Labelled(lm, obs[k].member)
  }

  /** Every observed member is the name some label stands for. */
  lemma {:induction false} ResolvedLabelled(lm: LabelMap, parsed: seq<string>, n: nat)
    requires n <= |parsed|
    ensures AllLabelled(lm, Resolved(lm, parsed, n))
  {
    if n > 0 {
      ResolvedLabelled(lm, parsed, n - 1);
      match Lookup(lm, parsed[n - 1]) {
        case Some(m) =>
          var i :| 0 <= i < |lm| && lm[i] == (parsed[n - 1], m);
          assert Labelled(lm, m);
        case None =>
      }
    }
  }

  lemma LabelledAppend(lm: LabelMap, a: seq<Observation>, b: seq<Observation>)
    requires AllLabelled(lm, a) && AllLabelled(lm, b)
    ensures AllLabelled(lm, a + b)
  {
    forall k | 0 <= k < |a + b| ensures Labelled(lm, (a + b)[k].member) {
      if k >= |a| {
        assert (a + b)[k] == b[k - |a|];
      }
    }
  }

  lemma {:induction false} ObservationsLabelled(lm: LabelMap, rankings: seq<seq<string>>, n: nat)
    requires n <= |rankings|
    ensures AllLabelled(lm, Observations(lm, rankings, n))
  {
    if n > 0 {
      ObservationsLabelled(lm, rankings, n - 1);
      ResolvedLabelled(lm, rankings[n - 1], |rankings[n - 1]|);
      LabelledAppend(lm, Observations(lm, rankings, n - 1), Resolved(lm, rankings[n - 1], |rankings[n - 1]|));
    }
  }

  /** Only members some label stands for are ranked. */
  lemma AggregateLabelled(results: seq<Stage3Result>, lm: LabelMap)
    ensures forall e :: e in AggregateRankings(results, lm) ==> Labelled(lm, e.member)
  {
    var obs := ObservationsOf(lm, results);
    ObservationsLabelled(lm, Reparsed(results), |results|);
    forall e | e in AggregateRankings(results, lm) ensures Labelled(lm, e.member) {
      AggregateHas(results, lm, e.member);
      var k :| 0 <= k < |obs| && obs[k].member == e.member;
    }
  }
}
