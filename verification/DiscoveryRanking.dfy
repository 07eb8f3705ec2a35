/**
 Ranking and source-balanced selection of research documents
 (backend/app/modules/discovery/service.py).

 The selection loop repeatedly scans what is left for the least tuple
 (times its source was chosen, -relevance, -quality, index) and pops it. On ranked input that is
 proved to be round-robin over the sources; on any input it is proved fair.
 */
module DiscoveryRanking {
  import opened Sequences
  import opened Wrappers

  /** The attributes `_source_balance_key` reads, in the order it tries them. */
  datatype Source = Source(id: Option<string>, key: Option<string>, name: Option<string>, providerType: Option<string>)

  predicate Truthy(value: Option<string>) {
    value.Some? && value.value != ""
  }

  function SourceBalanceKey(source: Source): (r: string)
    ensures r != ""
  {
    if Truthy(source.id) then source.id.value
    else if Truthy(source.key) then source.key.value
    else if Truthy(source.name) then source.name.value
    else if Truthy(source.providerType) then source.providerType.value
    else "unknown"
  }

  predicate Absent(value: Option<string>) {
    value == None || value == Some("")
  }

  predicate FirstPresent(attributes: seq<Option<string>>, i: int, value: string) {
    && 0 <= i < |attributes| && !Absent(attributes[i]) && attributes[i] == Some(value)
    && forall j | 0 <= j < i :: Absent(attributes[j])
  }

  /** The key is the first attribute that is there and not empty; without one it is "unknown". */
  lemma FirstAttributeNames(source: Source, i: int)
    ensures var attributes := [source.id, source.key, source.name, source.providerType];
            && (FirstPresent(attributes, i, SourceBalanceKey(source)) <==>
                  0 <= i < 4 && !Absent(attributes[i]) && forall j | 0 <= j < i :: Absent(attributes[j]))
            && ((forall j | 0 <= j < 4 :: Absent(attributes[j])) ==> SourceBalanceKey(source) == "unknown")
  {
    assert Truthy(source.id) <==> !Absent(source.id);
    assert Truthy(source.key) <==> !Absent(source.key);
    assert Truthy(source.name) <==> !Absent(source.name);
    assert Truthy(source.providerType) <==> !Absent(source.providerType);
    var attributes := [source.id, source.key, source.name, source.providerType];
    assert attributes[0] == source.id && attributes[1] == source.key && attributes[2] == source.name
           && attributes[3] == source.providerType;
  }

  /** A row of the ranking: a document with its scores and its source. */
  datatype Item = Item(dedupeKey: string, relevance: int, quality: int, source: Source, document: nat) {
    function BalanceKey(): string {
      SourceBalanceKey(source)
    }
  }

  // ----- positions, counts, and the selection key -----

  predicate Positions(items: seq<Item>, picks: seq<nat>) {
    forall k | 0 <= k < |picks| :: picks[k] < |items|
  }

  function ItemsAt(items: seq<Item>, picks: seq<nat>): (r: seq<Item>)
    requires Positions(items, picks)
    ensures |r| == |picks|
  {
    seq(|picks|, k requires 0 <= k < |picks| => items[picks[k]])
  }

  /** How many of the picked positions hold an item of `source`. */
  function Count(items: seq<Item>, picks: seq<nat>, source: string): nat
    requires Positions(items, picks)
  {
    if picks == [] then 0
    else
      Count(items, picks[..|picks| - 1], source) + if items[picks[|picks| - 1]].BalanceKey() == source then 1 else 0
  }

  predicate Unpicked(items: seq<Item>, picks: seq<nat>, i: nat) {
    i < |items| && i !in picks
  }

  /** The loop's strict tuple comparison between the items at positions i and j. */
  predicate Precedes(items: seq<Item>, picks: seq<nat>, i: nat, j: nat)
    requires Positions(items, picks) && i < |items| && j < |items|
  {
    var (ci, cj) := (Count(items, picks, items[i].BalanceKey()), Count(items, picks, items[j].BalanceKey()));
    ci < cj || (ci == cj && RankedBefore(items, i, j))
  }

  predicate RankedBefore(items: seq<Item>, i: nat, j: nat)
    requires i < |items| && j < |items|
  {
    || items[i].relevance > items[j].relevance
    || (items[i].relevance == items[j].relevance && items[i].quality > items[j].quality)
    || (items[i].relevance == items[j].relevance && items[i].quality == items[j].quality && i < j)
  }

  ghost predicate LeastUnpicked(items: seq<Item>, picks: seq<nat>, p: nat)
    requires Positions(items, picks)
  {
    && Unpicked(items, picks, p)
    && forall j: nat | Unpicked(items, picks, j) && j != p :: Precedes(items, picks, p, j)
  }

  /** Each pick is the least unpicked position at its time. This fixes `picks` for every input. */
  ghost predicate GreedyPicks(items: seq<Item>, picks: seq<nat>) {
    && Positions(items, picks)
    && forall m | 0 <= m < |picks| :: PrefixPositions(items, picks, m) && LeastUnpicked(items, picks[..m], picks[m])
  }

  predicate PrefixPositions(items: seq<Item>, picks: seq<nat>, m: nat)
    requires m <= |picks|
  {
    Positions(items, picks[..m])
  }

  lemma CountAppend(items: seq<Item>, picks: seq<nat>, p: nat, source: string)
    requires Positions(items, picks) && p < |items|
    ensures Positions(items, picks + [p])
    ensures Count(items, picks + [p], source) ==
            Count(items, picks, source) + if items[p].BalanceKey() == source then 1 else 0
  {
    assert (picks + [p])[..|picks|] == picks;
  }

  // ----- the selection loop -----

  function Limited(limit: int, n: nat): nat {
    if limit <= 0 then 0 else if limit <= n then limit else n
  }

  /** `remaining` is `ranked` without the picked positions, in order; `position` says where each item was. */
  ghost predicate Remaining(ranked: seq<Item>, picks: seq<nat>, remaining: seq<Item>, position: seq<nat>) {
    && GreedyPicks(ranked, picks)
    && |position| == |remaining| && |picks| + |remaining| == |ranked|
    && (forall k | 0 <= k < |position| :: position[k] < |ranked| && remaining[k] == ranked[position[k]])
    && (forall k, l | 0 <= k < l < |position| :: position[k] < position[l])
    && (forall i: nat | i < |ranked| :: i in position <==> i !in picks)
  }

  ghost predicate Tallied(ranked: seq<Item>, picks: seq<nat>, sourceCounts: map<string, nat>)
    requires Positions(ranked, picks)
  {
    forall s :: Tally(sourceCounts, s) == Count(ranked, picks, s)
  }

  function Tally(counts: map<string, nat>, source: string): nat {
    if source in counts then counts[source] else 0
  }

  /** `chosen` are the items at greedily picked positions. */
  ghost predicate Selects(ranked: seq<Item>, picks: seq<nat>, chosen: seq<Item>) {
    GreedyPicks(ranked, picks) && chosen == ItemsAt(ranked, picks)
  }

  method SourceBalancedSelection(ranked: seq<Item>, limit: int) returns (chosen: seq<Item>)
    ensures |chosen| == Limited(limit, |ranked|)
    ensures exists picks :: Selects(ranked, picks, chosen)
  {
    chosen := [];
    ghost var picks: seq<nat> := [];
    var remaining := ranked;
    var sourceCounts: map<string, nat> := map[];
    ghost var position: seq<nat> := seq(|ranked|, i => i);
    forall i: nat | i < |ranked| ensures i in position {
      assert position[i] == i;
    }
    while remaining != [] && |chosen| < limit
      invariant Remaining(ranked, picks, remaining, position)
      invariant |picks| <= Limited(limit, |ranked|)
      invariant chosen == ItemsAt(ranked, picks)
      invariant Tallied(ranked, picks, sourceCounts)
    {
      var bestIndex, bestKey := LeastRemaining(ranked, picks, remaining, position, sourceCounts);
      ghost var p := position[bestIndex];
      Popped(ranked, picks, remaining, position, bestIndex);
      forall s
        ensures Count(ranked, picks + [p], s) == Count(ranked, picks, s) + if ranked[p].BalanceKey() == s then 1 else 0
      {
        CountAppend(ranked, picks, p, s);
      }
      chosen := chosen + [remaining[bestIndex]];
      remaining := remaining[..bestIndex] + remaining[bestIndex + 1..];
      sourceCounts := sourceCounts[bestKey := Tally(sourceCounts, bestKey) + 1];
      picks := picks + [p];
      position := position[..bestIndex] + position[bestIndex + 1..];
    }
    assert Selects(ranked, picks, chosen);
  }

  /** The inner scan: the index in `remaining` of the least tuple, and its source. */
  method LeastRemaining(ghost ranked: seq<Item>, ghost picks: seq<nat>, remaining: seq<Item>,
                        ghost position: seq<nat>, sourceCounts: map<string, nat>)
    returns (bestIndex: nat, bestKey: string)
    requires remaining != []
    requires Remaining(ranked, picks, remaining, position) && Tallied(ranked, picks, sourceCounts)
    ensures bestIndex < |remaining| && bestKey == remaining[bestIndex].BalanceKey()
    ensures forall k | 0 <= k < |remaining| && k != bestIndex ::
              Precedes(ranked, picks, position[bestIndex], position[k])
  {
    bestIndex := 0;
    bestKey := remaining[0].BalanceKey();
    for index := 1 to |remaining|
      invariant 0 <= bestIndex < index && bestKey == remaining[bestIndex].BalanceKey()
      invariant forall k | 0 <= k < index && k != bestIndex ::
                  Precedes(ranked, picks, position[bestIndex], position[k])
    {
      var item, best := remaining[index], remaining[bestIndex];
      var count, bestCount := Tally(sourceCounts, item.BalanceKey()), Tally(sourceCounts, bestKey);
      // the tuples' last component, the index, never favours the later item
      if || count < bestCount
         || (count == bestCount && item.relevance > best.relevance)
         || (count == bestCount && item.relevance == best.relevance && item.quality > best.quality) {
        bestIndex := index;
        bestKey := item.BalanceKey();
      }
    }
  }

  lemma GreedyExtended(items: seq<Item>, picks: seq<nat>, p: nat)
    requires GreedyPicks(items, picks) && LeastUnpicked(items, picks, p)
    ensures GreedyPicks(items, picks + [p]) && ItemsAt(items, picks + [p]) == ItemsAt(items, picks) + [items[p]]
  {
    var longer := picks + [p];
    forall m | 0 <= m < |longer|
      ensures PrefixPositions(items, longer, m) && LeastUnpicked(items, longer[..m], longer[m])
    {
      if m < |picks| {
        assert longer[..m] == picks[..m];
        assert PrefixPositions(items, picks, m);
      } else {
        assert longer[..m] == picks;
      }
    }
  }

  lemma LeastRemains(ranked: seq<Item>, picks: seq<nat>, remaining: seq<Item>, position: seq<nat>, best: nat)
    requires Remaining(ranked, picks, remaining, position) && best < |remaining|
    requires forall k | 0 <= k < |position| && k != best :: Precedes(ranked, picks, position[best], position[k])
    ensures LeastUnpicked(ranked, picks, position[best])
  {
    assert position[best] in position;
    forall j: nat | Unpicked(ranked, picks, j) && j != position[best]
      ensures Precedes(ranked, picks, position[best], j)
    {
      var k :| 0 <= k < |position| && position[k] == j;
    }
  }

  /** Popping the least remaining item extends a greedy trace. */
  lemma Popped(ranked: seq<Item>, picks: seq<nat>, remaining: seq<Item>, position: seq<nat>, best: nat)
    requires Remaining(ranked, picks, remaining, position) && best < |remaining|
    requires forall k | 0 <= k < |position| && k != best :: Precedes(ranked, picks, position[best], position[k])
    ensures Remaining(ranked, picks + [position[best]],
                      remaining[..best] + remaining[best + 1..], position[..best] + position[best + 1..])
    ensures ItemsAt(ranked, picks + [position[best]]) == ItemsAt(ranked, picks) + [remaining[best]]
  {
    LeastRemains(ranked, picks, remaining, position, best);
    GreedyExtended(ranked, picks, position[best]);
    assert position == position[..best] + [position[best]] + position[best + 1..];
  }

  // ----- any input: the picks are determined and fair -----

  lemma {:induction false} GreedyPicksUnique(items: seq<Item>, a: seq<nat>, b: seq<nat>)
    requires GreedyPicks(items, a) && GreedyPicks(items, b) && |a| == |b|
    ensures a == b
  {
    if a != [] {
      var m := |a| - 1;
      GreedyPrefix(items, a, m);
      GreedyPrefix(items, b, m);
      GreedyPicksUnique(items, a[..m], b[..m]);
      assert LeastUnpicked(items, a[..m], a[m]) && LeastUnpicked(items, b[..m], b[m]);
      assert a == a[..m] + [a[m]] && b == b[..m] + [b[m]];
    }
  }

  lemma GreedyPrefix(items: seq<Item>, picks: seq<nat>, m: nat)
    requires GreedyPicks(items, picks) && m <= |picks|
    ensures GreedyPicks(items, picks[..m])
  {
    forall k | 0 <= k < m
      ensures PrefixPositions(items, picks[..m], k) && LeastUnpicked(items, picks[..m][..k], picks[..m][k])
    {
      assert picks[..m][..k] == picks[..k];
      assert PrefixPositions(items, picks, k);
    }
  }

  lemma DistinctPicks(items: seq<Item>, picks: seq<nat>)
    requires GreedyPicks(items, picks)
    ensures forall k, l | 0 <= k < l < |picks| :: picks[k] != picks[l]
  {
    forall k, l | 0 <= k < l < |picks| ensures picks[k] != picks[l] {
      assert PrefixPositions(items, picks, l);
      assert picks[k] == picks[..l][k];
    }
  }

  /**
   At every point of the loop, while source t still has an unchosen item, no source has been chosen
   more than one time more often than t.
   */
  lemma {:induction false} Fair(items: seq<Item>, picks: seq<nat>, m: nat, s: string, i: nat)
    requires GreedyPicks(items, picks) && m <= |picks|
    requires Unpicked(items, picks[..m], i)
    ensures PrefixPositions(items, picks, m)
    ensures Count(items, picks[..m], s) <= Count(items, picks[..m], items[i].BalanceKey()) + 1
  {
    if m > 0 {
      var before, p := picks[..m - 1], picks[m - 1];
      assert PrefixPositions(items, picks, m - 1) && LeastUnpicked(items, before, p);
      assert picks[..m] == before + [p];
      Fair(items, picks, m - 1, s, i);
      CountAppend(items, before, p, s);
      CountAppend(items, before, p, items[i].BalanceKey());
      assert Precedes(items, before, p, i);
    }
  }

  function Sources(items: seq<Item>): set<string> {
    set i | 0 <= i < |items| :: items[i].BalanceKey()
  }

  function PickedSources(items: seq<Item>, picks: seq<nat>): (r: set<string>)
    requires Positions(items, picks)
  {
    set k | 0 <= k < |picks| :: items[picks[k]].BalanceKey()
  }

  lemma {:induction false} PickedSourcesBound(items: seq<Item>, picks: seq<nat>)
    requires Positions(items, picks)
    ensures |PickedSources(items, picks)| <= |picks|
    ensures forall s :: s in PickedSources(items, picks) <==> Count(items, picks, s) > 0
  {
    if picks != [] {
      var before, p := picks[..|picks| - 1], picks[|picks| - 1];
      PickedSourcesBound(items, before);
      assert PickedSources(items, picks) == PickedSources(items, before) + {items[p].BalanceKey()};
    }
  }

  /** With d distinct sources in the input, the first d chosen items come from d different sources. */
  lemma FirstPicksCoverSources(items: seq<Item>, picks: seq<nat>, k: nat, l: nat)
    requires GreedyPicks(items, picks)
    requires k < l < |picks| && l < |Sources(items)|
    ensures items[picks[k]].BalanceKey() != items[picks[l]].BalanceKey()
  {
    var before := picks[..l];
    assert PrefixPositions(items, picks, l) && LeastUnpicked(items, before, picks[l]);
    PickedSourcesBound(items, before);
    if Sources(items) <= PickedSources(items, before) {
      Subset(Sources(items), PickedSources(items, before));
      assert false;
    }
    var t :| t in Sources(items) && t !in PickedSources(items, before);
    var i: nat :| i < |items| && items[i].BalanceKey() == t;
    assert i !in before;
    assert i != picks[l] ==> Precedes(items, before, picks[l], i);
    assert items[before[k]].BalanceKey() in PickedSources(items, before);
  }

  lemma Subset<T>(a: set<T>, b: set<T>)
    requires a <= b
    ensures |a| <= |b|
  {
    assert b == a + (b - a);
  }

  // ----- ranked input: the picks are round-robin over the sources -----

  /** What the caller's sort guarantees: (relevance, quality) descending. */
  ghost predicate Ranked(items: seq<Item>) {
    SortedBy(items, RanksNoLower)
  }

  predicate RanksNoLower(a: Item, b: Item) {
    a.relevance > b.relevance || (a.relevance == b.relevance && a.quality >= b.quality)
  }

  /** How many earlier items share the source of item i: 0 for a source's best item, 1 for its second. */
  function Occurrence(items: seq<Item>, i: nat): nat
    requires i < |items|
  {
    SourceSize(items[..i], items[i].BalanceKey())
  }

  function SourceSize(items: seq<Item>, source: string): nat {
    if items == [] then 0
    else SourceSize(items[..|items| - 1], source) + if items[|items| - 1].BalanceKey() == source then 1 else 0
  }

  /** The positions below `upto` that hold the round-th item of their source, in ranking order. */
  function Round(items: seq<Item>, round: nat, upto: nat): (r: seq<nat>)
    requires upto <= |items|
    ensures forall k | 0 <= k < |r| :: r[k] < upto && Occurrence(items, r[k]) == round
    ensures forall k, l | 0 <= k < l < |r| :: r[k] < r[l]
    ensures forall i: nat | i < upto && Occurrence(items, i) == round :: i in r
  {
    if upto == 0 then []
    else if Occurrence(items, upto - 1) == round then Round(items, round, upto - 1) + [upto - 1]
    else Round(items, round, upto - 1)
  }

  function Rounds(items: seq<Item>, rounds: nat): (r: seq<nat>)
    ensures Positions(items, r)
  {
    if rounds == 0 then [] else Rounds(items, rounds - 1) + Round(items, rounds - 1, |items|)
  }

  /** Every source's best item, then every source's second item, and so on. */
  function RoundRobin(items: seq<Item>): (r: seq<nat>)
    ensures Positions(items, r)
  {
    Rounds(items, |items|)
  }

  predicate DealtBefore(items: seq<Item>, i: nat, j: nat)
    requires i < |items| && j < |items|
  {
    Occurrence(items, i) < Occurrence(items, j) || (Occurrence(items, i) == Occurrence(items, j) && i < j)
  }

  lemma {:induction false} RoundsInOrder(items: seq<Item>, rounds: nat)
    ensures forall k, l | 0 <= k < l < |Rounds(items, rounds)| ::
              DealtBefore(items, Rounds(items, rounds)[k], Rounds(items, rounds)[l])
    ensures forall i: nat | i < |items| :: i in Rounds(items, rounds) <==> Occurrence(items, i) < rounds
  {
    if rounds > 0 {
      RoundsInOrder(items, rounds - 1);
    }
  }

  lemma {:induction false} SourceSizeBound(items: seq<Item>, source: string)
    ensures SourceSize(items, source) <= |items|
  {
    if items != [] {
      SourceSizeBound(items[..|items| - 1], source);
    }
  }

  /** `RoundRobin` lists every position exactly once, by (occurrence within its source, position). */
  lemma RoundRobinIsOrdering(items: seq<Item>)
    ensures forall k, l | 0 <= k < l < |RoundRobin(items)| ::
              DealtBefore(items, RoundRobin(items)[k], RoundRobin(items)[l])
    ensures forall i: nat | i < |items| :: i in RoundRobin(items)
    ensures |RoundRobin(items)| == |items|
  {
    var order := RoundRobin(items);
    RoundsInOrder(items, |items|);
    forall i: nat | i < |items| ensures i in order {
      SourceSizeBound(items[..i], items[i].BalanceKey());
    }
    AllListed(order, |items|);
  }

  lemma AllListed(order: seq<nat>, n: nat)
    requires forall k, l | 0 <= k < l < |order| :: order[k] != order[l]
    requires forall i: nat :: i in order <==> i < n
    ensures |order| == n
  {
    var listed := set k | 0 <= k < |order| :: order[k];
    forall i: nat ensures i in listed <==> i < n {
      assert i in listed <==> i in order;
    }
    assert Below(n) == listed;
    DistinctImageSize(order);
  }

  function Below(n: nat): (r: set<nat>)
    ensures |r| == n
    ensures forall i: nat :: i in r <==> i < n
  {
    if n == 0 then {} else Below(n - 1) + {n - 1}
  }

  lemma {:induction false} DistinctImageSize(s: seq<nat>)
    requires forall k, l | 0 <= k < l < |s| :: s[k] != s[l]
    ensures |set k | 0 <= k < |s| :: s[k]| == |s|
  {
    if s != [] {
      var init := s[..|s| - 1];
      DistinctImageSize(init);
      assert (set k | 0 <= k < |s| :: s[k]) == (set k | 0 <= k < |init| :: init[k]) + {s[|s| - 1]};
    }
  }

  lemma {:induction false} SourceSizeStep(items: seq<Item>, i: nat, j: nat, source: string)
    requires i <= j <= |items|
    ensures SourceSize(items[..i], source) <= SourceSize(items[..j], source)
    ensures i < j && items[i].BalanceKey() == source ==> SourceSize(items[..i], source) < SourceSize(items[..j], source)
  {
    if i < j {
      assert items[..j][..j - 1] == items[..j - 1];
      SourceSizeStep(items, i, j - 1, source);
    }
  }

  /** The c-th item of a source exists below position i whenever more than c of them do. */
  lemma {:induction false} OccurrenceBelow(items: seq<Item>, i: nat, source: string, c: nat) returns (q: nat)
    requires i <= |items| && c < SourceSize(items[..i], source)
    ensures q < i && items[q].BalanceKey() == source && Occurrence(items, q) == c
  {
    assert items[..i][..i - 1] == items[..i - 1];
    if items[i - 1].BalanceKey() == source && SourceSize(items[..i - 1], source) == c {
      q := i - 1;
    } else {
      q := OccurrenceBelow(items, i - 1, source, c);
    }
  }

  /** Each source has contributed exactly a prefix of its own ranking. */
  lemma {:induction false} SourcePrefix(items: seq<Item>, picks: seq<nat>)
    requires Ranked(items) && GreedyPicks(items, picks)
    ensures forall i: nat | i < |items| :: i in picks <==>
              Occurrence(items, i) < Count(items, picks, items[i].BalanceKey())
  {
    if picks != [] {
      var before, p := picks[..|picks| - 1], picks[|picks| - 1];
      assert picks == before + [p];
      GreedyPrefix(items, picks, |before|);
      SourcePrefix(items, before);
      PickedOccurrence(items, before, p);
      forall i: nat | i < |items|
        ensures i in picks <==> Occurrence(items, i) < Count(items, picks, items[i].BalanceKey())
      {
        CountAppend(items, before, p, items[i].BalanceKey());
        if items[i].BalanceKey() == items[p].BalanceKey() && i != p {
          SourceSizeStep(items, if i < p then i else p, if i < p then p else i, items[p].BalanceKey());
        }
      }
    }
  }

  /** The next pick is its source's best item not yet picked. */
  lemma PickedOccurrence(items: seq<Item>, picks: seq<nat>, p: nat)
    requires Ranked(items) && Positions(items, picks) && LeastUnpicked(items, picks, p)
    requires forall i: nat | i < |items| :: i in picks <==>
               Occurrence(items, i) < Count(items, picks, items[i].BalanceKey())
    ensures Occurrence(items, p) == Count(items, picks, items[p].BalanceKey())
  {
    var c := Count(items, picks, items[p].BalanceKey());
    if c < Occurrence(items, p) {
      var q := OccurrenceBelow(items, p, items[p].BalanceKey(), c);
      EarlierRanksNoLower(items, picks, q, p);
      assert false;
    }
  }

  lemma EarlierRanksNoLower(items: seq<Item>, picks: seq<nat>, q: nat, p: nat)
    requires Ranked(items) && Positions(items, picks)
    requires q < p < |items| && items[q].BalanceKey() == items[p].BalanceKey()
    ensures Precedes(items, picks, q, p) && !Precedes(items, picks, p, q)
  {
    assert RanksNoLower(items[q], items[p]);
  }

  /** On ranked input the selection is exactly the first `limit` items of the round-robin order. */
  lemma {:induction false} GreedyIsRoundRobin(items: seq<Item>, picks: seq<nat>)
    requires Ranked(items) && GreedyPicks(items, picks)
    ensures |picks| <= |RoundRobin(items)| && picks == RoundRobin(items)[..|picks|]
  {
    if picks != [] {
      var m := |picks| - 1;
      GreedyPrefix(items, picks, m);
      GreedyIsRoundRobin(items, picks[..m]);
      assert PrefixPositions(items, picks, m) && LeastUnpicked(items, picks[..m], picks[m]);
      NextInRoundRobin(items, picks[..m], picks[m]);
      assert picks == picks[..m] + [picks[m]];
    }
  }

  lemma NextInRoundRobin(items: seq<Item>, before: seq<nat>, p: nat)
    requires Ranked(items) && GreedyPicks(items, before) && LeastUnpicked(items, before, p)
    requires |before| <= |RoundRobin(items)| && before == RoundRobin(items)[..|before|]
    ensures |before| < |RoundRobin(items)| && RoundRobin(items)[|before|] == p
  {
    RoundRobinIsOrdering(items);
    NextDealt(items, before, p);
    FirstUndealt(items, RoundRobin(items), |before|, p);
  }

  /** In a listing by dealing order, the first position not among the first m entries is entry m. */
  lemma FirstUndealt(items: seq<Item>, order: seq<nat>, m: nat, p: nat)
    requires Positions(items, order) && m <= |order| && p in order && p !in order[..m]
    requires forall k, l | 0 <= k < l < |order| :: DealtBefore(items, order[k], order[l])
    requires forall q: nat | Unpicked(items, order[..m], q) && q != p :: DealtBefore(items, p, q)
    ensures m < |order| && order[m] == p
  {
    var k :| 0 <= k < |order| && order[k] == p;
    if k != m {
      var q := order[m];
      assert DealtBefore(items, q, p);
      forall l | 0 <= l < m ensures order[..m][l] != q {
        assert DealtBefore(items, order[l], order[m]);
      }
      assert Unpicked(items, order[..m], q);
    }
  }

  /** On ranked input the pick is the first in dealing order among the unpicked. */
  lemma NextDealt(items: seq<Item>, picks: seq<nat>, p: nat)
    requires Ranked(items) && GreedyPicks(items, picks) && LeastUnpicked(items, picks, p)
    ensures forall q: nat | Unpicked(items, picks, q) && q != p :: DealtBefore(items, p, q)
  {
    SourcePrefix(items, picks);
    PickedOccurrence(items, picks, p);
    forall q: nat | Unpicked(items, picks, q) && q != p ensures DealtBefore(items, p, q) {
      assert Precedes(items, picks, p, q);
      if q < p {
        assert RanksNoLower(items[q], items[p]);
      }
    }
  }

  // ----- the whole ranking -----

  const RELEVANT := 15
  const ENOUGH_RELEVANT := 3
  const FALLBACK_SIZE := 5
  const BALANCED_SIZE := 8

  function AtLeast(items: seq<Item>, relevance: int): (r: seq<Item>)
    ensures |r| <= |items|
    ensures forall item :: item in r <==> item in items && item.relevance >= relevance
  {
    if items == [] then []
    else
      assert items == [items[0]] + items[1..];
      if items[0].relevance >= relevance then [items[0]] + AtLeast(items[1..], relevance)
      else AtLeast(items[1..], relevance)
  }

  /** The relevance thresholds of the ranker. */
  function Shortlist(ranked: seq<Item>): (r: seq<Item>)
    ensures forall item <- r :: item in ranked
    ensures ranked != [] ==> r != []
  {
    var relevant := AtLeast(ranked, RELEVANT);
    var positive := AtLeast(ranked, 1);
    if |relevant| >= ENOUGH_RELEVANT then relevant
    else if positive != [] then positive
    else if |ranked| > FALLBACK_SIZE then ranked[..FALLBACK_SIZE] else ranked
  }

  function DedupeKey(item: Item): string {
    item.dedupeKey
  }

  lemma DedupeStep(rows: seq<Item>, row: Item)
    ensures DedupeBy(rows + [row], DedupeKey) ==
            if HasKey(rows, DedupeKey, row.dedupeKey) then DedupeBy(rows, DedupeKey)
            else DedupeBy(rows, DedupeKey) + [row]
    ensures forall k :: HasKey(rows + [row], DedupeKey, k) <==> HasKey(rows, DedupeKey, k) || row.dedupeKey == k
  {
    assert (rows + [row])[..|rows|] == rows;
    forall k ensures HasKey(rows + [row], DedupeKey, k) <==> HasKey(rows, DedupeKey, k) || row.dedupeKey == k {
      HasKeyAppend(rows, row, DedupeKey, k);
    }
  }

  /** The first loop: rows with a dedupe key not seen before. */
  method DedupeRows(rows: seq<Item>) returns (ranked: seq<Item>)
    ensures ranked == DedupeBy(rows, DedupeKey)
  {
    ranked := [];
    var seen: set<string> := {};
    for i := 0 to |rows|
      invariant ranked == DedupeBy(rows[..i], DedupeKey)
      invariant forall k :: k in seen <==> HasKey(rows[..i], DedupeKey, k)
    {
      assert rows[..i + 1] == rows[..i] + [rows[i]];
      DedupeStep(rows[..i], rows[i]);
      if rows[i].dedupeKey in seen {
        continue;
      }
      seen := seen + {rows[i].dedupeKey};
      ranked := ranked + [rows[i]];
    }
    assert rows[..|rows|] == rows;
  }

  method RankDocuments(rows: seq<Item>) returns (balanced: seq<Item>)
    ensures RankedResult(rows, balanced)
  {
    var deduped := DedupeRows(rows);
    var ranked := StableSort(deduped, RanksNoLower);
    StableSortSorts(deduped, RanksNoLower);
    var selected := Shortlist(ranked);
    ShortlistRanked(ranked);
    balanced := SourceBalancedSelection(selected, BALANCED_SIZE);
    ghost var picks :| Selects(selected, picks, balanced);
    GreedyIsRoundRobin(selected, picks);
    RoundRobinIsOrdering(selected);
  }

  lemma {:induction false} AtLeastRanked(items: seq<Item>, relevance: int)
    requires Ranked(items)
    ensures Ranked(AtLeast(items, relevance))
  {
    if items != [] {
      AtLeastRanked(items[1..], relevance);
      var rest := AtLeast(items[1..], relevance);
      forall j | 0 <= j < |rest| ensures RanksNoLower(items[0], rest[j]) {
        assert rest[j] in items[1..];
      }
    }
  }

  lemma ShortlistRanked(ranked: seq<Item>)
    requires Ranked(ranked)
    ensures Ranked(Shortlist(ranked))
  {
    AtLeastRanked(ranked, RELEVANT);
    AtLeastRanked(ranked, 1);
  }

  ghost predicate DistinctKeys(items: seq<Item>) {
    forall k, l | 0 <= k < l < |items| :: items[k].dedupeKey != items[l].dedupeKey
  }

  lemma {:induction false} InsertDistinct(x: Item, items: seq<Item>)
    requires DistinctKeys(items) && forall item <- items :: item.dedupeKey != x.dedupeKey
    ensures DistinctKeys(Insert(x, items, RanksNoLower))
  {
    if items != [] && !RanksNoLower(x, items[0]) {
      var rest := Insert(x, items[1..], RanksNoLower);
      InsertDistinct(x, items[1..]);
      InsertMultiset(x, items[1..], RanksNoLower);
      forall j | 0 <= j < |rest| ensures rest[j].dedupeKey != items[0].dedupeKey {
        assert rest[j] in multiset(rest);
        assert rest[j] == x || rest[j] in items[1..];
      }
    }
  }

  lemma {:induction false} SortDistinct(items: seq<Item>)
    requires DistinctKeys(items)
    ensures DistinctKeys(StableSort(items, RanksNoLower))
  {
    if items != [] {
      var rest := StableSort(items[1..], RanksNoLower);
      SortDistinct(items[1..]);
      StableSortSorts(items[1..], RanksNoLower);
      forall item <- rest ensures item.dedupeKey != items[0].dedupeKey {
        assert item in multiset(rest);
        assert item in items[1..];
      }
      InsertDistinct(items[0], rest);
    }
  }

  lemma {:induction false} AtLeastDistinct(items: seq<Item>, relevance: int)
    requires DistinctKeys(items)
    ensures DistinctKeys(AtLeast(items, relevance))
  {
    if items != [] {
      AtLeastDistinct(items[1..], relevance);
      var rest := AtLeast(items[1..], relevance);
      forall j | 0 <= j < |rest| ensures rest[j].dedupeKey != items[0].dedupeKey {
        assert rest[j] in items[1..];
      }
    }
  }

  /** The documented result of `RankDocuments`, as its contract states it. */
  ghost predicate RankedResult(rows: seq<Item>, balanced: seq<Item>) {
    var ranked := StableSort(DedupeBy(rows, DedupeKey), RanksNoLower);
    var selected := Shortlist(ranked);
    && |RoundRobin(selected)| == |selected|
    && balanced == ItemsAt(selected, RoundRobin(selected)[..Limited(BALANCED_SIZE, |selected|)])
  }

  /**
   What the ranking promises about its at most eight results: they come from the rows and are the
   first with their dedupe key, no two share a key, and weak documents appear only when fewer than
   three relevant ones exist (irrelevant ones only when nothing is relevant at all).
   */
  lemma RankingPromises(rows: seq<Item>, balanced: seq<Item>)
    requires RankedResult(rows, balanced)
    ensures |balanced| <= BALANCED_SIZE && (rows != [] ==> balanced != [])
    ensures forall item <- balanced :: item in DedupeBy(rows, DedupeKey)
    ensures DistinctKeys(balanced)
    ensures (exists item <- balanced :: item.relevance <= 0) ==>
              forall row <- DedupeBy(rows, DedupeKey) :: row.relevance <= 0
    ensures (exists item <- balanced :: item.relevance < RELEVANT) ==>
              |AtLeast(StableSort(DedupeBy(rows, DedupeKey), RanksNoLower), RELEVANT)| < ENOUGH_RELEVANT
  {
    var deduped := DedupeBy(rows, DedupeKey);
    var ranked := StableSort(deduped, RanksNoLower);
    if rows != [] {
      DedupeKeys(rows, DedupeKey);
      assert HasKey(rows, DedupeKey, DedupeKey(rows[0]));
      assert HasKey(deduped, DedupeKey, DedupeKey(rows[0]));
    }
    RankedMembers(rows);
    ShortlistPromises(ranked);
    DealtMembers(Shortlist(ranked), Limited(BALANCED_SIZE, |Shortlist(ranked)|));
  }

  lemma RankedMembers(rows: seq<Item>)
    ensures var ranked := StableSort(DedupeBy(rows, DedupeKey), RanksNoLower);
            DistinctKeys(ranked) && forall item :: item in ranked <==> item in DedupeBy(rows, DedupeKey)
  {
    var deduped := DedupeBy(rows, DedupeKey);
    var ranked := StableSort(deduped, RanksNoLower);
    DedupeKeys(rows, DedupeKey);
    SortDistinct(deduped);
    StableSortSorts(deduped, RanksNoLower);
    forall item ensures item in ranked <==> item in deduped {
      assert item in multiset(ranked) <==> item in multiset(deduped);
    }
  }

  lemma ShortlistPromises(ranked: seq<Item>)
    requires DistinctKeys(ranked)
    ensures DistinctKeys(Shortlist(ranked))
    ensures (exists item <- Shortlist(ranked) :: item.relevance <= 0) ==> forall row <- ranked :: row.relevance <= 0
    ensures (exists item <- Shortlist(ranked) :: item.relevance < RELEVANT) ==>
              |AtLeast(ranked, RELEVANT)| < ENOUGH_RELEVANT
  {
    AtLeastDistinct(ranked, RELEVANT);
    AtLeastDistinct(ranked, 1);
    forall row <- ranked ensures row.relevance <= 0 || row in AtLeast(ranked, 1) {
    }
  }

  lemma KeyAtPosition(selected: seq<Item>, positions: seq<nat>, k: nat)
    requires k < |positions| && Positions(selected, positions)
    ensures |ItemsAt(selected, positions)| == |positions| && ItemsAt(selected, positions)[k] == selected[positions[k]]
  {
  }

  lemma DealtMembers(selected: seq<Item>, n: nat)
    requires DistinctKeys(selected) && n <= |selected| == |RoundRobin(selected)|
    ensures forall item <- ItemsAt(selected, RoundRobin(selected)[..n]) :: item in selected
    ensures DistinctKeys(ItemsAt(selected, RoundRobin(selected)[..n]))
  {
    RoundRobinIsOrdering(selected);
    var dealt := RoundRobin(selected)[..n];
    var items := ItemsAt(selected, dealt);
    forall k, l | 0 <= k < l < |items| ensures items[k].dedupeKey != items[l].dedupeKey {
      KeyAtPosition(selected, dealt, k);
      KeyAtPosition(selected, dealt, l);
      assert DealtBefore(selected, RoundRobin(selected)[k], RoundRobin(selected)[l]);
    }
  }

  // ----- which rows are ranked, in terms of the rows alone -----

  ghost function AsSet(items: seq<Item>): (r: set<Item>)
    ensures forall item :: item in r <==> item in items
  {
    set item | item in items
  }

  /** Five rows, or all there are, that no other row beats. */
  ghost predicate BestFive(rows: set<Item>, chosen: set<Item>) {
    && chosen <= rows && |chosen| == (if |rows| < 5 then |rows| else 5)
    && forall kept, other | kept in chosen && other in rows - chosen ::
         kept.relevance > other.relevance || (kept.relevance == other.relevance && kept.quality >= other.quality)
  }

  /**
   Three rows of relevance 15 are enough to want no others; else any relevance will do; else the best five stand in.
   */
  ghost predicate Eligible(rows: set<Item>, chosen: set<Item>) {
    var relevant := set row | row in rows && row.relevance >= 15;
    var positive := set row | row in rows && row.relevance > 0;
    if |relevant| >= 3 then chosen == relevant
    else if positive != {} then chosen == positive
    else BestFive(rows, chosen)
  }

  /** The first eight in round-robin order of a ranking of the eligible rows. */
  ghost predicate DealtFrom(rows: set<Item>, selected: seq<Item>, balanced: seq<Item>) {
    && Ranked(selected) && DistinctKeys(selected) && Eligible(rows, AsSet(selected))
    && |RoundRobin(selected)| == |selected|
    && balanced == ItemsAt(selected, RoundRobin(selected)[..if |selected| < 8 then |selected| else 8])
  }

  lemma {:induction false} DistinctSize(items: seq<Item>)
    requires DistinctKeys(items)
    ensures |AsSet(items)| == |items|
  {
    if items != [] {
      var (init, last) := (items[..|items| - 1], items[|items| - 1]);
      assert items == init + [last];
      DistinctSize(init);
      assert last !in init;
      assert AsSet(items) == AsSet(init) + {last};
    }
  }

  lemma AtLeastIsSet(items: seq<Item>, relevance: int)
    requires DistinctKeys(items)
    ensures AsSet(AtLeast(items, relevance)) == set row | row in AsSet(items) && row.relevance >= relevance
    ensures |AsSet(AtLeast(items, relevance))| == |AtLeast(items, relevance)|
  {
    AtLeastDistinct(items, relevance);
    DistinctSize(AtLeast(items, relevance));
  }

  lemma ShortlistIsEligible(ranked: seq<Item>)
    requires Ranked(ranked) && DistinctKeys(ranked)
    ensures Eligible(AsSet(ranked), AsSet(Shortlist(ranked)))
  {
    var rows := AsSet(ranked);
    AtLeastIsSet(ranked, 15);
    AtLeastIsSet(ranked, 1);
    DistinctSize(ranked);
    assert (set row | row in rows && row.relevance > 0) == set row | row in rows && row.relevance >= 1;
    if |AtLeast(ranked, 15)| < 3 && AtLeast(ranked, 1) == [] {
      FirstFiveAreBest(ranked);
      assert (set row | row in rows && row.relevance > 0) == {};
    } else if |AtLeast(ranked, 15)| < 3 {
      assert AtLeast(ranked, 1)[0] in AsSet(AtLeast(ranked, 1));
    }
  }

  lemma FirstFiveAreBest(ranked: seq<Item>)
    requires Ranked(ranked) && DistinctKeys(ranked)
    ensures BestFive(AsSet(ranked), AsSet(if |ranked| > 5 then ranked[..5] else ranked))
  {
    DistinctSize(ranked);
    if |ranked| > 5 {
      DistinctSize(ranked[..5]);
      forall kept, other | kept in ranked[..5] && other in ranked && other !in ranked[..5]
        ensures RanksNoLower(kept, other)
      {
        var (i, j) := (PositionOf(ranked[..5], kept), PositionOf(ranked, other));
        assert ranked[..5] + ranked[5..] == ranked && ranked[i] == kept;
      }
    }
  }

  ghost function PositionOf(items: seq<Item>, item: Item): (i: nat)
    requires item in items
    ensures i < |items| && items[i] == item
  {
    var i: nat :| i < |items| && items[i] == item;
    i
  }

  /** What `RankDocuments` returns, for all rows: the first row of each key counts. */
  lemma RankedFromRows(rows: seq<Item>, balanced: seq<Item>)
    requires RankedResult(rows, balanced)
    ensures exists selected :: DealtFrom(AsSet(DedupeBy(rows, DedupeKey)), selected, balanced)
  {
    var deduped := DedupeBy(rows, DedupeKey);
    var ranked := StableSort(deduped, RanksNoLower);
    StableSortSorts(deduped, RanksNoLower);
    RankedMembers(rows);
    assert AsSet(ranked) == AsSet(deduped);
    ShortlistIsEligible(ranked);
    ShortlistRanked(ranked);
    ShortlistPromises(ranked);
    assert DealtFrom(AsSet(deduped), Shortlist(ranked), balanced);
  }

  ghost function Smaller(m: nat, n: nat): nat {
    if m < n then m else n
  }

  /** So with three relevant rows only relevant ones are returned, and one is missing only when eight are. */
  lemma HowManyAreRanked(rows: seq<Item>, balanced: seq<Item>)
    requires RankedResult(rows, balanced)
    ensures var first := AsSet(DedupeBy(rows, DedupeKey));
            var relevant := set row | row in first && row.relevance >= 15;
            var positive := set row | row in first && row.relevance > 0;
            if |relevant| >= 3 then
              |balanced| == Smaller(8, |relevant|) && AsSet(balanced) <= relevant
              && (|balanced| < 8 ==> AsSet(balanced) == relevant)
            else if positive != {} then
              |balanced| == Smaller(8, |positive|) && AsSet(balanced) <= positive
              && (|balanced| < 8 ==> AsSet(balanced) == positive)
            else
              |balanced| == Smaller(5, |first|) && BestFive(first, AsSet(balanced))
  {
    var first := AsSet(DedupeBy(rows, DedupeKey));
    RankedFromRows(rows, balanced);
    var selected :| DealtFrom(first, selected, balanced);
    DistinctSize(selected);
    DealtAll(selected, balanced, Smaller(8, |selected|));
    if |selected| < 8 {
      assert AsSet(balanced) == AsSet(selected);
    }
  }

  /** Dealing keeps the rows apart, and dealing all of them loses none. */
  lemma DealtAll(selected: seq<Item>, balanced: seq<Item>, n: nat)
    requires DistinctKeys(selected) && n <= |selected| == |RoundRobin(selected)|
    requires balanced == ItemsAt(selected, RoundRobin(selected)[..n])
    ensures |balanced| == n && AsSet(balanced) <= AsSet(selected)
    ensures n == |selected| ==> AsSet(balanced) == AsSet(selected)
  {
    if n == |selected| {
      assert RoundRobin(selected)[..n] == RoundRobin(selected);
      forall item <- selected ensures item in balanced {
        DealtAt(selected, PositionOf(selected, item));
      }
    }
  }

  lemma DealtAt(selected: seq<Item>, i: nat)
    requires i < |selected|
    ensures selected[i] in ItemsAt(selected, RoundRobin(selected))
  {
    RoundRobinIsOrdering(selected);
    assert i in RoundRobin(selected);
    var k :| 0 <= k < |RoundRobin(selected)| && RoundRobin(selected)[k] == i;
    assert ItemsAt(selected, RoundRobin(selected))[k] == selected[i];
  }
}
