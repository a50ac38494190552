/** What `scanForOpportunities` does with a scan's results in both dashboard
    components: it gathers the per-exchange lists, prepends them to a capped
    history, and folds them into the analytics record (per-pair and
    per-exchange tallies, the top entries by count, running totals).
    The components differ only in their caps, which are a parameter here. */
module ScanAnalytics {
  import opened Wrappers
  import opened Triangular

  /** The history length and the two top-list lengths of a component. */
  datatype Caps = Caps(history: nat, topPairs: nat, topExchanges: nat)

  function MinNat(a: nat, b: nat): nat { if a <= b then a else b }

  // ---------------------------------------------------------------------------
  // Gathering and history

  /** `results.forEach(opps => newOpportunities.push(...opps))`, as a value. */
  function Flatten(results: seq<seq<Opportunity>>): seq<Opportunity>
  {
    if |results| == 0 then [] else Flatten(results[..|results| - 1]) + results[|results| - 1]
  }

  lemma {:induction false} FlattenMembership(results: seq<seq<Opportunity>>, e: nat, o: Opportunity)
    requires e < |results| && o in results[e]
    ensures o in Flatten(results)
  {
    var n := |results| - 1;
    if e < n {
      FlattenMembership(results[..n], e, o);
    }
  }

  /** The loop that appends every exchange's list, in exchange order. */
  method CollectNewOpportunities(results: seq<seq<Opportunity>>) returns (newOpportunities: seq<Opportunity>)
    ensures newOpportunities == Flatten(results)
  {
    newOpportunities := [];
    var i := 0;
    while i < |results|
      invariant 0 <= i <= |results|
      invariant newOpportunities == Flatten(results[..i])
    {
      assert results[..i + 1][..i] == results[..i];
      newOpportunities := newOpportunities + results[i];
      i := i + 1;
    }
    assert results[..|results|] == results;
  }

  /** `[...newOpportunities, ...prev].slice(0, cap)`: the newest results first,
      then as much of the old history as still fits. */
  function CapHistory(incoming: seq<Opportunity>, prev: seq<Opportunity>, cap: nat): (h: seq<Opportunity>)
    ensures |h| == MinNat(|incoming| + |prev|, cap)
    ensures forall i :: 0 <= i < |h| && i < |incoming| ==> h[i] == incoming[i]
    ensures forall i :: |incoming| <= i < |h| ==> h[i] == prev[i - |incoming|]
  {
    var all := incoming + prev;
    all[..MinNat(|all|, cap)]
  }

  /** Two scans in a row leave the same history as one scan that found the
      later results followed by the earlier ones. */
  lemma HistoryOfTwoScans(first: seq<Opportunity>, second: seq<Opportunity>, prev: seq<Opportunity>, cap: nat)
    ensures CapHistory(second, CapHistory(first, prev, cap), cap) == CapHistory(second + first, prev, cap)
  {
    var lhs := CapHistory(second, CapHistory(first, prev, cap), cap);
    var rhs := CapHistory(second + first, prev, cap);
    assert |lhs| == |rhs|;
    forall i | 0 <= i < |lhs| ensures lhs[i] == rhs[i] {
      if i < |second| {
      } else if i < |second| + |first| {
        assert lhs[i] == CapHistory(first, prev, cap)[i - |second|];
      } else {
        assert lhs[i] == CapHistory(first, prev, cap)[i - |second|];
      }
    }
  }

  // ---------------------------------------------------------------------------
  // Per-key tallies (the `pairStats` and `exchangeStats` dictionaries)

  /** One dictionary entry: a key with its count and profit total. The
      dictionary itself is the sequence of its entries in insertion order,
      the order `Object.entries` hands them to the sort. */
  datatype Stat = Stat(key: string, count: nat, totalProfit: real)

  datatype StatKey = ByPair | ByExchange

  function KeyOf(o: Opportunity, grouping: StatKey): string
  {
    match grouping
    case ByPair => o.pairs
    case ByExchange => o.exchange
  }

  /** One step of the tally: create the key's entry with zero count and
      profit when it is missing (at the end), then add one and the profit. */
  function Record(t: seq<Stat>, key: string, profit: real): seq<Stat>
  {
    if |t| == 0 then [Stat(key, 0 + 1, 0.0 + profit)]
    else if t[0].key == key then [Stat(key, t[0].count + 1, t[0].totalProfit + profit)] + t[1..]
    else [t[0]] + Record(t[1..], key, profit)
  }

  /** The dictionary after tallying a list of opportunities left to right. */
  function StatsOf(opps: seq<Opportunity>, grouping: StatKey): seq<Stat>
  {
    if |opps| == 0 then []
    else
      var last := opps[|opps| - 1];
      Record(StatsOf(opps[..|opps| - 1], grouping), KeyOf(last, grouping), last.profit)
  }

  /** How many of the opportunities fall under a key. */
  function Occurrences(opps: seq<Opportunity>, grouping: StatKey, key: string): nat
  {
    if |opps| == 0 then 0
    else Occurrences(opps[..|opps| - 1], grouping, key) + (if KeyOf(opps[|opps| - 1], grouping) == key then 1 else 0)
  }

  /** The profit those opportunities add up to. */
  function ProfitUnder(opps: seq<Opportunity>, grouping: StatKey, key: string): real
  {
    if |opps| == 0 then 0.0
    else
      ProfitUnder(opps[..|opps| - 1], grouping, key)
      + (if KeyOf(opps[|opps| - 1], grouping) == key then opps[|opps| - 1].profit else 0.0)
  }

  /** The count a dictionary holds for a key, 0 when the key is absent. */
  function CountOf(t: seq<Stat>, key: string): nat
  {
    if |t| == 0 then 0 else if t[0].key == key then t[0].count else CountOf(t[1..], key)
  }

  function TotalOf(t: seq<Stat>, key: string): real
  {
    if |t| == 0 then 0.0 else if t[0].key == key then t[0].totalProfit else TotalOf(t[1..], key)
  }

  function Keys(t: seq<Stat>): set<string>
  {
    if |t| == 0 then {} else {t[0].key} + Keys(t[1..])
  }

  /** No key has two entries. */
  predicate DistinctKeys(t: seq<Stat>)
  {
    |t| == 0 || (t[0].key !in Keys(t[1..]) && DistinctKeys(t[1..]))
  }

  predicate PositiveCounts(t: seq<Stat>)
  {
    forall i :: 0 <= i < |t| ==> t[i].count >= 1
  }

  function SumCounts(t: seq<Stat>): nat
  {
    if |t| == 0 then 0 else t[0].count + SumCounts(t[1..])
  }

  lemma {:induction false} KeyOfEntry(t: seq<Stat>, s: Stat)
    requires s in t
    ensures s.key in Keys(t)
  {
    if t[0] != s {
      assert s in t[1..];
      KeyOfEntry(t[1..], s);
    }
  }

  /** One tally step keeps the dictionary a dictionary (distinct keys, every
      entry counted), adds the key if it was missing, and grows the total
      count by one. */
  lemma {:induction false} RecordShape(t: seq<Stat>, key: string, profit: real)
    requires DistinctKeys(t) && PositiveCounts(t)
    ensures DistinctKeys(Record(t, key, profit)) && PositiveCounts(Record(t, key, profit))
    ensures Keys(Record(t, key, profit)) == Keys(t) + {key}
    ensures SumCounts(Record(t, key, profit)) == SumCounts(t) + 1
  {
    var r := Record(t, key, profit);
    if |t| == 0 {
    } else if t[0].key == key {
      assert r[1..] == t[1..];
    } else {
      var tail := Record(t[1..], key, profit);
      assert PositiveCounts(t[1..]) by {
        forall i | 0 <= i < |t[1..]| ensures t[1..][i].count >= 1 { assert t[1..][i] == t[i + 1]; }
      }
      RecordShape(t[1..], key, profit);
      assert r == [t[0]] + tail;
      assert r[1..] == tail;
      forall i | 0 <= i < |r| ensures r[i].count >= 1 {
        if i > 0 { assert r[i] == tail[i - 1]; }
      }
    }
  }

  /** One tally step: the key gains one count and the profit, and every other
      key is untouched. */
  lemma {:induction false} RecordLookup(t: seq<Stat>, key: string, profit: real, k: string)
    requires DistinctKeys(t)
    ensures CountOf(Record(t, key, profit), k) == CountOf(t, k) + (if k == key then 1 else 0)
    ensures TotalOf(Record(t, key, profit), k) == TotalOf(t, k) + (if k == key then profit else 0.0)
  {
    var r := Record(t, key, profit);
    if |t| == 0 {
    } else if t[0].key == key {
      assert r[1..] == t[1..];
      if k != key {
        assert CountOf(r, k) == CountOf(t[1..], k);
        assert TotalOf(r, k) == TotalOf(t[1..], k);
      }
    } else {
      var tail := Record(t[1..], key, profit);
      RecordLookup(t[1..], key, profit, k);
      assert r[1..] == tail;
    }
  }

  /** What the tally of a list holds: one entry per distinct key, each
      counted at least once, the counts adding up to the length of the list. */
  lemma {:induction false} StatsOfShape(opps: seq<Opportunity>, grouping: StatKey)
    ensures DistinctKeys(StatsOf(opps, grouping)) && PositiveCounts(StatsOf(opps, grouping))
    ensures SumCounts(StatsOf(opps, grouping)) == |opps|
  {
    if |opps| > 0 {
      var n := |opps| - 1;
      var init := opps[..n];
      StatsOfShape(init, grouping);
      RecordShape(StatsOf(init, grouping), KeyOf(opps[n], grouping), opps[n].profit);
    }
  }

  /** The keys of the tally are exactly the keys of the listed opportunities. */
  lemma {:induction false} StatsOfKeys(opps: seq<Opportunity>, grouping: StatKey)
    ensures Keys(StatsOf(opps, grouping)) == set o | o in opps :: KeyOf(o, grouping)
  {
    if |opps| > 0 {
      var n := |opps| - 1;
      var init := opps[..n];
      StatsOfShape(init, grouping);
      StatsOfKeys(init, grouping);
      RecordShape(StatsOf(init, grouping), KeyOf(opps[n], grouping), opps[n].profit);
      KeySetSnoc(opps, grouping);
    }
  }

  lemma KeySetSnoc(opps: seq<Opportunity>, grouping: StatKey)
    requires |opps| > 0
    ensures (set o | o in opps :: KeyOf(o, grouping))
         == (set o | o in opps[..|opps| - 1] :: KeyOf(o, grouping)) + {KeyOf(opps[|opps| - 1], grouping)}
  {
    var n := |opps| - 1;
    assert opps == opps[..n] + [opps[n]];
  }

  /** Every key is counted exactly as often as it occurs in the list, with
      the sum of its profits. */
  lemma StatsOfLookup(opps: seq<Opportunity>, grouping: StatKey, key: string)
    ensures CountOf(StatsOf(opps, grouping), key) == Occurrences(opps, grouping, key)
    ensures TotalOf(StatsOf(opps, grouping), key) == ProfitUnder(opps, grouping, key)
  {
    StatsOfCount(opps, grouping, key);
    StatsOfTotal(opps, grouping, key);
  }

  lemma {:induction false} StatsOfCount(opps: seq<Opportunity>, grouping: StatKey, key: string)
    ensures CountOf(StatsOf(opps, grouping), key) == Occurrences(opps, grouping, key)
  {
    if |opps| > 0 {
      var n := |opps| - 1;
      var init := opps[..n];
      StatsOfShape(init, grouping);
      StatsOfCount(init, grouping, key);
      RecordLookup(StatsOf(init, grouping), KeyOf(opps[n], grouping), opps[n].profit, key);
    }
  }

  lemma {:induction false} StatsOfTotal(opps: seq<Opportunity>, grouping: StatKey, key: string)
    ensures TotalOf(StatsOf(opps, grouping), key) == ProfitUnder(opps, grouping, key)
  {
    if |opps| > 0 {
      var n := |opps| - 1;
      var init := opps[..n];
      StatsOfShape(init, grouping);
      StatsOfTotal(init, grouping, key);
      RecordLookup(StatsOf(init, grouping), KeyOf(opps[n], grouping), opps[n].profit, key);
    }
  }

  // ---------------------------------------------------------------------------
  // Ranking: a stable sort by non-increasing count, then the top entries

  /** Insert before the first entry whose count is not larger, so that an
      entry that came earlier stays ahead of later entries with its count. */
  function InsertByCount(x: Stat, s: seq<Stat>): seq<Stat>
  {
    if |s| == 0 || x.count >= s[0].count then [x] + s
    else [s[0]] + InsertByCount(x, s[1..])
  }

  /** `.sort(([,a], [,b]) => b.count - a.count)`: JavaScript's sort is stable. */
  function SortByCount(s: seq<Stat>): seq<Stat>
  {
    if |s| == 0 then [] else InsertByCount(s[0], SortByCount(s[1..]))
  }

  predicate NonIncreasing(s: seq<Stat>)
  {
    forall i, j :: 0 <= i < j < |s| ==> s[i].count >= s[j].count
  }

  /** The entries with a given count, in order. */
  function WithCount(s: seq<Stat>, c: nat): seq<Stat>
  {
    if |s| == 0 then [] else (if s[0].count == c then [s[0]] else []) + WithCount(s[1..], c)
  }

  lemma {:induction false} InsertByCountPermutes(x: Stat, s: seq<Stat>)
    ensures multiset(InsertByCount(x, s)) == multiset(s) + multiset{x}
  {
    if |s| > 0 && x.count < s[0].count {
      InsertByCountPermutes(x, s[1..]);
      assert s == [s[0]] + s[1..];
    }
  }

  lemma {:induction false} InsertByCountStable(x: Stat, s: seq<Stat>, c: nat)
    ensures WithCount(InsertByCount(x, s), c) == (if x.count == c then [x] else []) + WithCount(s, c)
  {
    var r := InsertByCount(x, s);
    if |s| == 0 || x.count >= s[0].count {
      assert r[1..] == s;
    } else {
      InsertByCountStable(x, s[1..], c);
      assert r[1..] == InsertByCount(x, s[1..]);
      if s[0].count == c {
        assert x.count != c;
      }
    }
  }

  lemma NonIncreasingTail(s: seq<Stat>)
    requires |s| > 0 && NonIncreasing(s)
    ensures NonIncreasing(s[1..])
  {
    forall i, j | 0 <= i < j < |s[1..]| ensures s[1..][i].count >= s[1..][j].count {
      assert s[1..][i] == s[i + 1] && s[1..][j] == s[j + 1];
    }
  }

  /** An entry in front of a non-increasing list, counted at least as much
      as every entry of it, keeps it non-increasing. */
  lemma ConsSorted(y: Stat, t: seq<Stat>)
    requires NonIncreasing(t)
    requires forall i :: 0 <= i < |t| ==> t[i].count <= y.count
    ensures NonIncreasing([y] + t)
  {
    var r := [y] + t;
    forall i, j | 0 <= i < j < |r| ensures r[i].count >= r[j].count {
      assert r[j] == t[j - 1];
      if i > 0 {
        assert r[i] == t[i - 1];
      }
    }
  }

  /** Inserting beneath a bound stays beneath it. */
  lemma {:induction false} InsertByCountBounded(x: Stat, s: seq<Stat>, b: nat)
    requires x.count <= b
    requires forall i :: 0 <= i < |s| ==> s[i].count <= b
    ensures |InsertByCount(x, s)| == |s| + 1
    ensures forall i :: 0 <= i < |InsertByCount(x, s)| ==> InsertByCount(x, s)[i].count <= b
  {
    var r := InsertByCount(x, s);
    if |s| == 0 || x.count >= s[0].count {
      assert r == [x] + s;
      forall i | 0 <= i < |r| ensures r[i].count <= b {
        if i > 0 { assert r[i] == s[i - 1]; }
      }
    } else {
      var tail := InsertByCount(x, s[1..]);
      assert forall i :: 0 <= i < |s[1..]| ==> s[1..][i].count <= b by {
        forall i | 0 <= i < |s[1..]| ensures s[1..][i].count <= b { assert s[1..][i] == s[i + 1]; }
      }
      InsertByCountBounded(x, s[1..], b);
      assert r == [s[0]] + tail;
      forall i | 0 <= i < |r| ensures r[i].count <= b {
        if i > 0 { assert r[i] == tail[i - 1]; }
      }
    }
  }

  lemma {:induction false} InsertByCountSorted(x: Stat, s: seq<Stat>)
    requires NonIncreasing(s)
    ensures NonIncreasing(InsertByCount(x, s))
  {
    if |s| == 0 || x.count >= s[0].count {
      assert forall i :: 0 <= i < |s| ==> s[i].count <= x.count by {
        forall i | 0 <= i < |s| ensures s[i].count <= x.count {
          if i > 0 { assert s[0].count >= s[i].count; }
        }
      }
      ConsSorted(x, s);
    } else {
      var tail := InsertByCount(x, s[1..]);
      NonIncreasingTail(s);
      InsertByCountSorted(x, s[1..]);
      assert forall i :: 0 <= i < |s[1..]| ==> s[1..][i].count <= s[0].count by {
        forall i | 0 <= i < |s[1..]| ensures s[1..][i].count <= s[0].count {
          assert s[1..][i] == s[i + 1];
        }
      }
      InsertByCountBounded(x, s[1..], s[0].count);
      ConsSorted(s[0], tail);
    }
  }

  /** The sort is a permutation, orders by non-increasing count, and keeps
      entries with equal counts in their original order (it is stable). */
  lemma SortByCountCorrect(s: seq<Stat>, c: nat)
    ensures multiset(SortByCount(s)) == multiset(s)
    ensures |SortByCount(s)| == |s|
    ensures NonIncreasing(SortByCount(s))
    ensures WithCount(SortByCount(s), c) == WithCount(s, c)
  {
    SortByCountPermutes(s);
    SortByCountSorted(s);
    SortByCountStable(s, c);
  }

  lemma SortByCountPermutes(s: seq<Stat>)
    ensures multiset(SortByCount(s)) == multiset(s)
    ensures |SortByCount(s)| == |s|
  {
    SortByCountMultiset(s);
    SortByCountLength(s);
  }

  lemma {:induction false} SortByCountMultiset(s: seq<Stat>)
    ensures multiset(SortByCount(s)) == multiset(s)
  {
    if |s| > 0 {
      var sorted := SortByCount(s[1..]);
      SortByCountMultiset(s[1..]);
      InsertByCountPermutes(s[0], sorted);
      assert s == [s[0]] + s[1..];
    }
  }

  lemma {:induction false} InsertByCountLength(x: Stat, s: seq<Stat>)
    ensures |InsertByCount(x, s)| == |s| + 1
  {
    if |s| > 0 && x.count < s[0].count {
      InsertByCountLength(x, s[1..]);
    }
  }

  lemma {:induction false} SortByCountLength(s: seq<Stat>)
    ensures |SortByCount(s)| == |s|
  {
    if |s| > 0 {
      SortByCountLength(s[1..]);
      InsertByCountLength(s[0], SortByCount(s[1..]));
    }
  }

  lemma {:induction false} SortByCountSorted(s: seq<Stat>)
    ensures NonIncreasing(SortByCount(s))
  {
    if |s| > 0 {
      SortByCountSorted(s[1..]);
      InsertByCountSorted(s[0], SortByCount(s[1..]));
    }
  }

  lemma {:induction false} SortByCountStable(s: seq<Stat>, c: nat)
    ensures WithCount(SortByCount(s), c) == WithCount(s, c)
  {
    if |s| > 0 {
      SortByCountStable(s[1..], c);
      InsertByCountStable(s[0], SortByCount(s[1..]), c);
    }
  }

  /** A published top-list entry: `{ pair | exchange, count, avgProfit }`. */
  datatype TopEntry = TopEntry(key: string, count: nat, avgProfit: real)

  function Summarise(s: Stat): TopEntry
  {
    TopEntry(s.key, s.count, if s.count > 0 then s.totalProfit / (s.count as real) else 0.0)
  }

  /** Sort, `.slice(0, k)`, then summarise each kept entry. */
  function TopEntries(stats: seq<Stat>, k: nat): seq<TopEntry>
  {
    var sorted := SortByCount(stats);
    var kept := sorted[..MinNat(|sorted|, k)];
    seq(|kept|, i requires 0 <= i < |kept| => Summarise(kept[i]))
  }

  /** The i-th listed entry summarises the i-th entry of the ranking, which
      is an entry of the dictionary. */
  lemma TopEntryAt(stats: seq<Stat>, k: nat, i: nat)
    requires i < |TopEntries(stats, k)|
    ensures i < |SortByCount(stats)|
    ensures TopEntries(stats, k)[i] == Summarise(SortByCount(stats)[i])
    ensures SortByCount(stats)[i] in stats
  {
    SortByCountCorrect(stats, 0);
    assert SortByCount(stats)[i] in multiset(SortByCount(stats));
  }

  lemma ListedKeys(stats: seq<Stat>, k: nat)
    ensures forall j :: 0 <= j < |TopEntries(stats, k)| ==>
              j < |SortByCount(stats)| && TopEntries(stats, k)[j].key == SortByCount(stats)[j].key
  {
    var sorted := SortByCount(stats);
    var kept := sorted[..MinNat(|sorted|, k)];
    var top := TopEntries(stats, k);
    assert |top| == |kept| <= |sorted|;
    forall j | 0 <= j < |top| ensures top[j].key == sorted[j].key {
      assert top[j] == Summarise(kept[j]);
    }
  }

  /** The top list has min(k, entries) entries, ranked by non-increasing count. */
  lemma TopEntriesRanked(stats: seq<Stat>, k: nat)
    ensures |TopEntries(stats, k)| == MinNat(|stats|, k)
    ensures forall i, j :: 0 <= i < j < |TopEntries(stats, k)| ==>
              TopEntries(stats, k)[i].count >= TopEntries(stats, k)[j].count
  {
    SortByCountCorrect(stats, 0);
    var top := TopEntries(stats, k);
    forall i, j | 0 <= i < j < |top| ensures top[i].count >= top[j].count {
      TopEntryAt(stats, k, i);
      TopEntryAt(stats, k, j);
    }
  }

  /** Nothing left off the top list outranks anything on it: an entry of the
      dictionary whose key is not listed has no larger count than any listed one. */
  lemma TopEntriesAreTop(stats: seq<Stat>, k: nat, e: Stat, i: nat)
    requires e in stats
    requires i < |TopEntries(stats, k)|
    requires forall j :: 0 <= j < |TopEntries(stats, k)| ==> TopEntries(stats, k)[j].key != e.key
    ensures e.count <= TopEntries(stats, k)[i].count
  {
    var sorted := SortByCount(stats);
    SortByCountCorrect(stats, 0);
    var top := TopEntries(stats, k);
    assert e in multiset(sorted);
    var m :| 0 <= m < |sorted| && sorted[m] == e;
    ListedKeys(stats, k);
    TopEntryAt(stats, k, i);
    assert sorted[i].count >= sorted[m].count;
  }

  // ---------------------------------------------------------------------------
  // The analytics record

  datatype Analytics = Analytics(
    totalOpportunities: nat,
    averageProfit: real,
    topPairs: seq<TopEntry>,
    topExchanges: seq<TopEntry>,
    totalVolume: real)

  /** The analytics a component starts (and restarts) with. */
  const EmptyAnalytics: Analytics := Analytics(0, 0.0, [], [], 0.0)

  /** `.filter(opp => opp.viable)`. */
  function Viables(opps: seq<Opportunity>): seq<Opportunity>
  {
    if |opps| == 0 then []
    else Viables(opps[..|opps| - 1]) + (if opps[|opps| - 1].viable then [opps[|opps| - 1]] else [])
  }

  function SumProfit(opps: seq<Opportunity>): real
  {
    if |opps| == 0 then 0.0 else SumProfit(opps[..|opps| - 1]) + opps[|opps| - 1].profit
  }

  function AverageProfit(viable: seq<Opportunity>): real
  {
    if |viable| > 0 then SumProfit(viable) / (|viable| as real) else 0.0
  }

  /** The smallest leg liquidity of an opportunity. */
  function LegMinimum(o: Opportunity): real
  {
    Min3(o.liquidity.pair1, o.liquidity.pair2, o.liquidity.pair3)
  }

  /** `newOpportunities.reduce((sum, opp) => sum + min(legs), 0)`. */
  function Volume(opps: seq<Opportunity>): real
  {
    if |opps| == 0 then 0.0 else Volume(opps[..|opps| - 1]) + LegMinimum(opps[|opps| - 1])
  }

  predicate NonNegativeLiquidity(o: Opportunity)
  {
    o.liquidity.pair1 >= 0.0 && o.liquidity.pair2 >= 0.0 && o.liquidity.pair3 >= 0.0
  }

  /** The `setAnalytics(prev => ...)` updater: the totals accumulate, the
      average and the top lists are recomputed from this scan's viable results. */
  function AnalyticsUpdate(prev: Analytics, newOpps: seq<Opportunity>, caps: Caps): Analytics
  {
    var viable := Viables(newOpps);
    Analytics(
      prev.totalOpportunities + |newOpps|,
      AverageProfit(viable),
      TopEntries(StatsOf(viable, ByPair), caps.topPairs),
      TopEntries(StatsOf(viable, ByExchange), caps.topExchanges),
      prev.totalVolume + Volume(newOpps))
  }

  /** The updater runs only when the scan found something. */
  function NextAnalytics(prev: Analytics, newOpps: seq<Opportunity>, caps: Caps): Analytics
  {
    if |newOpps| > 0 then AnalyticsUpdate(prev, newOpps, caps) else prev
  }

  /** The updater as the code runs it: one pass over the viable results
      updating both dictionaries, then the ranking and the totals. */
  method ReduceAnalytics(prev: Analytics, newOpps: seq<Opportunity>, caps: Caps) returns (next: Analytics)
    ensures next == AnalyticsUpdate(prev, newOpps, caps)
  {
    var viable := Viables(newOpps);
    var pairStats: seq<Stat> := [];
    var exchangeStats: seq<Stat> := [];
    var i := 0;
    while i < |viable|
      invariant 0 <= i <= |viable|
      invariant pairStats == StatsOf(viable[..i], ByPair)
      invariant exchangeStats == StatsOf(viable[..i], ByExchange)
    {
      assert viable[..i + 1][..i] == viable[..i];
      var opp := viable[i];
      pairStats := Record(pairStats, opp.pairs, opp.profit);
      exchangeStats := Record(exchangeStats, opp.exchange, opp.profit);
      i := i + 1;
    }
    assert viable[..|viable|] == viable;
    next := Analytics(
      prev.totalOpportunities + |newOpps|,
      AverageProfit(viable),
      TopEntries(pairStats, caps.topPairs),
      TopEntries(exchangeStats, caps.topExchanges),
      prev.totalVolume + Volume(newOpps));
  }

  lemma {:induction false} ViablesAreTheViableOnes(opps: seq<Opportunity>)
    ensures forall o :: o in Viables(opps) <==> o in opps && o.viable
    ensures |Viables(opps)| <= |opps|
  {
    if |opps| > 0 {
      var n := |opps| - 1;
      ViablesAreTheViableOnes(opps[..n]);
      assert opps == opps[..n] + [opps[n]];
    }
  }

  lemma {:induction false} VolumeNonNegative(opps: seq<Opportunity>)
    requires forall o :: o in opps ==> NonNegativeLiquidity(o)
    ensures Volume(opps) >= 0.0
  {
    if |opps| > 0 {
      var n := |opps| - 1;
      assert forall o :: o in opps[..n] ==> o in opps;
      VolumeNonNegative(opps[..n]);
      assert opps[n] in opps;
    }
  }

  /** A scan that found nothing leaves the analytics as they were. */
  lemma NothingFoundNothingChanges(prev: Analytics, newOpps: seq<Opportunity>, caps: Caps)
    requires |newOpps| == 0
    ensures NextAnalytics(prev, newOpps, caps) == prev
  {
  }

  /** After a scan that found something the opportunity count has grown by
      exactly the number found, and the average is that of this scan's
      viable results alone: it does not depend on earlier scans. */
  lemma AnalyticsTotals(prev: Analytics, other: Analytics, newOpps: seq<Opportunity>, caps: Caps)
    requires |newOpps| > 0
    ensures NextAnalytics(prev, newOpps, caps).totalOpportunities == prev.totalOpportunities + |newOpps|
    ensures NextAnalytics(prev, newOpps, caps).averageProfit == AverageProfit(Viables(newOpps))
    ensures NextAnalytics(prev, newOpps, caps).averageProfit == NextAnalytics(other, newOpps, caps).averageProfit
    ensures |Viables(newOpps)| == 0 ==> NextAnalytics(prev, newOpps, caps).averageProfit == 0.0
  {
    var viable := Viables(newOpps);
    assert NextAnalytics(prev, newOpps, caps).averageProfit == AverageProfit(viable);
    assert NextAnalytics(other, newOpps, caps).averageProfit == AverageProfit(viable);
  }

  /** The average times the number of results is their summed profit, and
      the average of no results is 0. */
  lemma AverageTimesCount(viable: seq<Opportunity>)
    ensures AverageProfit(viable) * (|viable| as real) == SumProfit(viable)
    ensures |viable| == 0 ==> AverageProfit(viable) == 0.0
  {
    if |viable| > 0 {
      QuotientTimesDivisor(SumProfit(viable), |viable| as real);
    }
  }

  lemma QuotientTimesDivisor(total: real, n: real)
    requires n > 0.0
    ensures total / n * n == total
  {
  }

  /** The top list of a grouping. */
  function TopOf(a: Analytics, grouping: StatKey): seq<TopEntry>
  {
    match grouping
    case ByPair => a.topPairs
    case ByExchange => a.topExchanges
  }

  function CapOf(caps: Caps, grouping: StatKey): nat
  {
    match grouping
    case ByPair => caps.topPairs
    case ByExchange => caps.topExchanges
  }

  /** After a scan that found something each top list stays within its cap
      and within the number of viable results, and is ranked by
      non-increasing count. */
  lemma TopListsRanked(prev: Analytics, newOpps: seq<Opportunity>, caps: Caps, grouping: StatKey)
    requires |newOpps| > 0
    ensures |TopOf(NextAnalytics(prev, newOpps, caps), grouping)| <= CapOf(caps, grouping)
    ensures |TopOf(NextAnalytics(prev, newOpps, caps), grouping)| <= |Viables(newOpps)|
    ensures var top := TopOf(NextAnalytics(prev, newOpps, caps), grouping);
            forall i, j :: 0 <= i < j < |top| ==> top[i].count >= top[j].count
  {
    var viable := Viables(newOpps);
    var stats := StatsOf(viable, grouping);
    StatsOfShape(viable, grouping);
    TopEntriesRanked(stats, CapOf(caps, grouping));
    DistinctKeysAtMost(stats);
    assert TopOf(NextAnalytics(prev, newOpps, caps), grouping) == TopEntries(stats, CapOf(caps, grouping));
  }

  /** A dictionary whose entries all count at least once has no more entries
      than its counts add up to. */
  lemma {:induction false} DistinctKeysAtMost(t: seq<Stat>)
    requires PositiveCounts(t)
    ensures |t| <= SumCounts(t)
  {
    if |t| > 0 {
      assert PositiveCounts(t[1..]) by {
        forall i | 0 <= i < |t[1..]| ensures t[1..][i].count >= 1 { assert t[1..][i] == t[i + 1]; }
      }
      DistinctKeysAtMost(t[1..]);
    }
  }

  /** Every entry of the top list of a tally is counted exactly as often as
      its key occurs in the tallied list, and its average is the profit
      those occurrences add up to divided by that count. */
  lemma {:induction false} TopEntryTally(viable: seq<Opportunity>, grouping: StatKey, cap: nat, i: nat)
    requires i < |TopEntries(StatsOf(viable, grouping), cap)|
    ensures var e := TopEntries(StatsOf(viable, grouping), cap)[i];
            && 1 <= e.count == Occurrences(viable, grouping, e.key)
            && e.avgProfit == ProfitUnder(viable, grouping, e.key) / (e.count as real)
  {
    var stats := StatsOf(viable, grouping);
    StatsOfShape(viable, grouping);
    TopEntryAt(stats, cap, i);
    var s := SortByCount(stats)[i];
    var e := TopEntries(stats, cap)[i];
    assert e == Summarise(s);
    var m :| 0 <= m < |stats| && stats[m] == s;
    assert s.count >= 1;
    StatEntryIsLookup(stats, s);
    StatsOfLookup(viable, grouping, s.key);
    assert e.key == s.key && e.count == s.count;
    assert s.totalProfit == ProfitUnder(viable, grouping, e.key);
  }

  /** Every listed pair or exchange is counted exactly as often as it occurs
      among this scan's viable results, and its average is the profit those
      results add up to divided by that count. */
  lemma TopEntriesAreTallies(prev: Analytics, newOpps: seq<Opportunity>, caps: Caps, grouping: StatKey, i: nat)
    requires |newOpps| > 0
    requires i < |TopOf(NextAnalytics(prev, newOpps, caps), grouping)|
    ensures var top := TopOf(NextAnalytics(prev, newOpps, caps), grouping);
            && 1 <= top[i].count == Occurrences(Viables(newOpps), grouping, top[i].key)
            && top[i].avgProfit == ProfitUnder(Viables(newOpps), grouping, top[i].key) / (top[i].count as real)
  {
    assert TopOf(NextAnalytics(prev, newOpps, caps), grouping)
        == TopEntries(StatsOf(Viables(newOpps), grouping), CapOf(caps, grouping));
    TopEntryTally(Viables(newOpps), grouping, CapOf(caps, grouping), i);
  }

  /** In a dictionary with distinct keys an entry is what the lookup finds. */
  lemma {:induction false} StatEntryIsLookup(t: seq<Stat>, s: Stat)
    requires DistinctKeys(t) && s in t
    ensures CountOf(t, s.key) == s.count && TotalOf(t, s.key) == s.totalProfit
  {
    if t[0] != s {
      assert s in t[1..];
      KeyOfEntry(t[1..], s);
      StatEntryIsLookup(t[1..], s);
    }
  }

  /** The running volume never decreases while leg liquidities are non-negative. */
  lemma TotalVolumeNeverDecreases(prev: Analytics, newOpps: seq<Opportunity>, caps: Caps)
    requires forall o :: o in newOpps ==> NonNegativeLiquidity(o)
    ensures NextAnalytics(prev, newOpps, caps).totalVolume >= prev.totalVolume
  {
    VolumeNonNegative(newOpps);
  }

  // ---------------------------------------------------------------------------
  // The dashboard state a scan updates

  datatype Dashboard = Dashboard(opportunities: seq<Opportunity>, analytics: Analytics)

  /** The two state updates at the end of a scan: the history keeps the new
      results in front, within its cap, and the analytics count them. */
  function AfterScan(d: Dashboard, newOpps: seq<Opportunity>, caps: Caps): (r: Dashboard)
    ensures |r.opportunities| == MinNat(|newOpps| + |d.opportunities|, caps.history)
    ensures forall i :: 0 <= i < |r.opportunities| && i < |newOpps| ==> r.opportunities[i] == newOpps[i]
    ensures r.analytics.totalOpportunities == d.analytics.totalOpportunities + |newOpps|
  {
    Dashboard(CapHistory(newOpps, d.opportunities, caps.history), NextAnalytics(d.analytics, newOpps, caps))
  }
}
