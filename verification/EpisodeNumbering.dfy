/**
 Episode numbers under removal and reordering (backend/app/modules/episodes/service.py:228-264, 424-428).

 Numbers are written one row at a time and the table declares them unique, so besides the final
 numbering these results are about every state in between.
 */
module EpisodeNumbering {
  type Numbers = map<nat, int>

  const PARK_OFFSET := 1000

  ghost predicate Unlike(numbers: Numbers, e: nat, f: nat) {
    e in numbers && f in numbers && numbers[e] == numbers[f] ==> e == f
  }

  ghost predicate Distinct(numbers: Numbers) {
    forall e, f :: Unlike(numbers, e, f)
  }

  /** Exactly 1..n: distinct, and each between 1 and the number of episodes. */
  ghost predicate Numbered(numbers: Numbers) {
    Distinct(numbers) && forall e <- numbers :: 1 <= numbers[e] <= |numbers|
  }

  /** What the schema enforces: unique and positive numbers. */
  ghost predicate Lawful(numbers: Numbers) {
    Distinct(numbers) && forall e <- numbers :: 1 <= numbers[e]
  }

  /** The table once the rows in `done` have been rewritten from `before` to `after`. */
  ghost function Partial(before: Numbers, after: Numbers, done: set<nat>): Numbers
    requires after.Keys == before.Keys
  {
    map e | e in before :: if e in done then after[e] else before[e]
  }

  /** One more single-row write. */
  lemma PartialWrite(before: Numbers, after: Numbers, done: set<nat>, e: nat)
    requires after.Keys == before.Keys && e in before
    ensures Partial(before, after, done + {e}) == Partial(before, after, done)[e := after[e]]
  {
  }

  /** No write collides in any order: `done` ranges over the intermediate states of all of them. */
  ghost predicate CollisionFree(before: Numbers, after: Numbers)
    requires after.Keys == before.Keys
  {
    forall done: set<nat> :: Distinct(Partial(before, after, done))
  }

  /** Moving every number from at most `c` to above it cannot collide on the way. */
  lemma RaisedAbove(before: Numbers, after: Numbers, c: int)
    requires after.Keys == before.Keys && Distinct(before) && Distinct(after)
    requires forall e <- before :: before[e] <= c < after[e]
    ensures CollisionFree(before, after)
  {
    forall done: set<nat>, e, f ensures Unlike(Partial(before, after, done), e, f) {
      assert Unlike(before, e, f) && Unlike(after, e, f);
    }
  }

  /** Moving every number from above `c` to at most `c` cannot either. */
  lemma LoweredBelow(before: Numbers, after: Numbers, c: int)
    requires after.Keys == before.Keys && Distinct(before) && Distinct(after)
    requires forall e <- before :: after[e] <= c < before[e]
    ensures CollisionFree(before, after)
  {
    forall done: set<nat>, e, f ensures Unlike(Partial(before, after, done), e, f) {
      assert Unlike(before, e, f) && Unlike(after, e, f);
    }
  }

  /** Some order of the writes collides exactly when one row's new number is another's old one. */
  lemma CollisionFreeExactly(before: Numbers, after: Numbers)
    requires after.Keys == before.Keys && Distinct(before) && Distinct(after)
    ensures CollisionFree(before, after) <==>
            forall e, f :: e in before && f in before && after[e] == before[f] ==> e == f
  {
    if e, f :| e in before && f in before && after[e] == before[f] && e != f {
      Collides(before, after, e, f);
    } else {
      forall done: set<nat>, e, f ensures Unlike(Partial(before, after, done), e, f) {
        assert Unlike(before, e, f) && Unlike(after, e, f);
      }
    }
  }

  /** One write onto a number still held by another row collides. */
  lemma Collides(before: Numbers, after: Numbers, e: nat, f: nat)
    requires after.Keys == before.Keys && e in before && f in before && e != f && after[e] == before[f]
    ensures !CollisionFree(before, after)
  {
    assert !Unlike(Partial(before, after, {e}), e, f);
    assert !Distinct(Partial(before, after, {e}));
  }

  // ----- counting -----

  ghost function AtMost(numbers: Numbers, k: int): (r: set<nat>)
    ensures forall e :: e in r <==> e in numbers && numbers[e] <= k
  {
    set e | e in numbers && numbers[e] <= k
  }

  /** The position of an episode in ascending order of numbers, from 1. */
  ghost function Rank(numbers: Numbers, e: nat): nat
    requires e in numbers
  {
    |AtMost(numbers, numbers[e])|
  }

  lemma SubsetSize<T>(a: set<T>, b: set<T>)
    requires a <= b
    ensures |a| <= |b|
    ensures |a| == |b| ==> a == b
  {
    assert b == a + (b - a);
  }

  /** At most one episode is numbered k, so at most one more is numbered k or less than k - 1 or less. */
  lemma OneMoreAtMost(numbers: Numbers, k: int)
    requires Distinct(numbers)
    ensures |AtMost(numbers, k - 1)| <= |AtMost(numbers, k)| <= |AtMost(numbers, k - 1)| + 1
    ensures |AtMost(numbers, k)| > |AtMost(numbers, k - 1)| <==> exists e :: e in numbers && numbers[e] == k
  {
    var below := AtMost(numbers, k - 1);
    if e :| e in numbers && numbers[e] == k {
      forall f ensures f in AtMost(numbers, k) <==> f in below + {e} {
        assert Unlike(numbers, e, f);
      }
      assert AtMost(numbers, k) == below + {e};
    } else {
      assert AtMost(numbers, k) == below;
    }
  }

  lemma {:induction false} DistinctWithin(numbers: Numbers, k: nat)
    requires Lawful(numbers)
    ensures |AtMost(numbers, k)| <= k
  {
    if k == 0 {
      assert AtMost(numbers, 0) == {};
    } else {
      DistinctWithin(numbers, k - 1);
      OneMoreAtMost(numbers, k);
    }
  }

  /** A numbering 1..n has exactly k episodes numbered k or less, and one numbered k. */
  lemma {:induction false} NumberedCount(numbers: Numbers, k: nat)
    requires Numbered(numbers) && k <= |numbers|
    ensures |AtMost(numbers, k)| == k
    ensures k >= 1 ==> exists e :: e in numbers && numbers[e] == k
    decreases |numbers| - k
  {
    if k == |numbers| {
      assert AtMost(numbers, k) == numbers.Keys;
    } else {
      NumberedCount(numbers, k + 1);
      OneMoreAtMost(numbers, k + 1);
    }
    if k >= 1 {
      DistinctWithin(numbers, k - 1);
      OneMoreAtMost(numbers, k);
    }
    DistinctWithin(numbers, k);
  }

  lemma Holder(numbers: Numbers, k: nat) returns (e: nat)
    requires Numbered(numbers) && 1 <= k <= |numbers|
    ensures e in numbers && numbers[e] == k
  {
    NumberedCount(numbers, k);
    e :| e in numbers && numbers[e] == k;
  }

  // ----- renumbering -----

  ghost function Renumbered(numbers: Numbers): (r: Numbers)
    ensures r.Keys == numbers.Keys
  {
    map e | e in numbers :: Rank(numbers, e)
  }

  lemma RankOrder(numbers: Numbers, e: nat, f: nat)
    requires e in numbers && f in numbers
    ensures 1 <= Rank(numbers, e) <= |numbers|
    ensures numbers[e] < numbers[f] <==> Rank(numbers, e) < Rank(numbers, f)
  {
    var upToE, upToF := AtMost(numbers, numbers[e]), AtMost(numbers, numbers[f]);
    SubsetSize({e}, upToE);
    SubsetSize(upToE, numbers.Keys);
    if numbers[e] < numbers[f] {
      SubsetSize(upToE, upToF);
      assert f in upToF && f !in upToE;
    } else {
      SubsetSize(upToF, upToE);
    }
  }

  /** Renumbering any distinct numbers yields 1..n; `RankOrder` says the order is kept. */
  lemma RenumberingNumbers(numbers: Numbers)
    requires Distinct(numbers)
    ensures Numbered(Renumbered(numbers))
  {
    var ranks := Renumbered(numbers);
    assert |ranks.Keys| == |numbers.Keys|;
    forall e <- ranks ensures 1 <= ranks[e] <= |ranks| {
      RankOrder(numbers, e, e);
    }
    RanksDiffer(numbers);
  }

  lemma RanksDiffer(numbers: Numbers)
    requires Distinct(numbers)
    ensures Distinct(Renumbered(numbers))
  {
    var ranks := Renumbered(numbers);
    forall e, f ensures Unlike(ranks, e, f) {
      if e in ranks && f in ranks {
        RankOrder(numbers, e, f);
        RankOrder(numbers, f, e);
        assert Unlike(numbers, e, f);
      }
    }
  }

  ghost function Without(numbers: Numbers, x: nat): Numbers {
    map e | e in numbers && e != x :: numbers[e]
  }

  /** After removing x from 1..n, later episodes move up by one and earlier ones stay. */
  lemma RankAfterRemoval(numbers: Numbers, x: nat, e: nat)
    requires Numbered(numbers) && x in numbers && e in numbers && e != x
    ensures numbers[e] != numbers[x]
    ensures Renumbered(Without(numbers, x))[e] == if numbers[e] > numbers[x] then numbers[e] - 1 else numbers[e]
  {
    var all, rest := AtMost(numbers, numbers[e]), AtMost(Without(numbers, x), numbers[e]);
    NumberedCount(numbers, numbers[e]);
    assert Unlike(numbers, e, x);
    if numbers[e] > numbers[x] {
      assert all == rest + {x};
    } else {
      assert all == rest;
    }
  }

  lemma RanksOnlyLower(numbers: Numbers)
    requires Lawful(numbers)
    ensures forall e <- numbers :: Renumbered(numbers)[e] <= numbers[e]
  {
    forall e <- numbers ensures Renumbered(numbers)[e] <= numbers[e] {
      DistinctWithin(numbers, numbers[e]);
    }
  }

  /**
   In ascending order no write collides, whatever gaps there are, and every write lowers its number or
   leaves it.
   */
  lemma RenumberAscending(numbers: Numbers, k: int)
    requires Lawful(numbers)
    ensures Distinct(Partial(numbers, Renumbered(numbers), AtMost(numbers, k)))
    ensures forall e <- numbers :: Renumbered(numbers)[e] <= numbers[e]
  {
    RanksOnlyLower(numbers);
    forall e, f ensures Unlike(Partial(numbers, Renumbered(numbers), AtMost(numbers, k)), e, f) {
      assert Unlike(numbers, e, f);
      if e in numbers && f in numbers {
        RankOrder(numbers, e, f);
        RankOrder(numbers, f, e);
      }
    }
  }

  /**
   Rows may reach the database in another order than the loop's. No order collides exactly when at most
   one episode follows the removed one.
   */
  lemma RenumberAnyOrder(numbers: Numbers, x: nat)
    requires Numbered(numbers) && x in numbers
    ensures CollisionFree(Without(numbers, x), Renumbered(Without(numbers, x))) <==> numbers[x] >= |numbers| - 1
  {
    var rest := Without(numbers, x);
    if numbers[x] < |numbers| - 1 {
      var e := Holder(numbers, numbers[x] + 1);
      var f := Holder(numbers, numbers[x] + 2);
      RankAfterRemoval(numbers, x, f);
      Collides(rest, Renumbered(rest), f, e);
    } else {
      forall done: set<nat>, e, f ensures Unlike(Partial(rest, Renumbered(rest), done), e, f) {
        assert Unlike(numbers, e, f);
        if e in rest && f in rest {
          RankAfterRemoval(numbers, x, e);
          RankAfterRemoval(numbers, x, f);
        }
      }
    }
  }

  // ----- reordering -----

  ghost function Parked(numbers: Numbers): (r: Numbers)
    ensures r.Keys == numbers.Keys
  {
    map e | e in numbers :: PARK_OFFSET + Rank(numbers, e)
  }

  /** The position at which the loop last assigns to `e`, from 1. */
  function LastPosition(payload: seq<nat>, e: nat): (p: nat)
    requires e in payload
    ensures 1 <= p <= |payload| && payload[p - 1] == e
    ensures forall i | p <= i < |payload| :: payload[i] != e
  {
    if payload[|payload| - 1] == e then |payload|
    else
      assert payload == payload[..|payload| - 1] + [payload[|payload| - 1]];
      LastPosition(payload[..|payload| - 1], e)
  }

  ghost function Reordered(payload: seq<nat>): (r: Numbers)
    ensures forall e :: e in r <==> e in payload
  {
    map e | e in payload :: LastPosition(payload, e)
  }

  ghost predicate NoRepeats(payload: seq<nat>) {
    forall i, j | 0 <= i < j < |payload| :: payload[i] != payload[j]
  }

  lemma ParkedNumbers(numbers: Numbers)
    requires Numbered(numbers)
    ensures Distinct(Parked(numbers)) && forall e <- numbers :: Parked(numbers)[e] == PARK_OFFSET + numbers[e]
  {
    forall e <- numbers ensures Parked(numbers)[e] == PARK_OFFSET + numbers[e] {
      NumberedCount(numbers, numbers[e]);
    }
    forall e, f ensures Unlike(Parked(numbers), e, f) {
      assert Unlike(numbers, e, f);
    }
  }

  /** Parking is safe in every write order exactly for up to 1000 episodes. */
  lemma ParkingCollisionFree(numbers: Numbers)
    requires Numbered(numbers)
    ensures CollisionFree(numbers, Parked(numbers)) <==> |numbers| <= 1000
  {
    ParkedNumbers(numbers);
    if |numbers| <= PARK_OFFSET {
      RaisedAbove(numbers, Parked(numbers), PARK_OFFSET);
    } else {
      var e := Holder(numbers, 1);
      var f := Holder(numbers, PARK_OFFSET + 1);
      Collides(numbers, Parked(numbers), e, f);
    }
  }

  /** From the parked numbers, assigning the payload's positions is safe in every write order. */
  lemma AssigningCollisionFree(numbers: Numbers, payload: seq<nat>)
    requires Numbered(numbers) && |numbers| <= PARK_OFFSET
    requires Reordered(payload).Keys == numbers.Keys && NoRepeats(payload)
    ensures CollisionFree(Parked(numbers), Reordered(payload))
  {
    var after := Reordered(payload);
    ReorderNumbers(numbers.Keys, payload);
    ParkedNumbers(numbers);
    assert |after.Keys| == |numbers.Keys|;
    LoweredBelow(Parked(numbers), after, PARK_OFFSET);
  }

  lemma {:induction false} PayloadLength(ids: set<nat>, payload: seq<nat>)
    requires forall e :: e in payload <==> e in ids
    ensures |payload| >= |ids|
    ensures NoRepeats(payload) <==> |payload| == |ids|
  {
    if payload == [] {
      assert ids == {};
    } else {
      var init, last := payload[..|payload| - 1], payload[|payload| - 1];
      assert payload == init + [last];
      if last in init {
        PayloadLength(ids, init);
        var i :| 0 <= i < |init| && init[i] == last;
        assert payload[i] == payload[|payload| - 1];
      } else {
        PayloadLength(ids - {last}, init);
      }
    }
  }

  /** Whatever the payload repeats, each episode ends with a number of its own. */
  lemma ReorderedLawful(payload: seq<nat>)
    ensures Lawful(Reordered(payload))
  {
    var numbers := Reordered(payload);
    forall e, f ensures Unlike(numbers, e, f) {
    }
  }

  /** One more episode at n + 1: the numbers are 1..n + 1 exactly if they were 1..n. */
  lemma AppendedNumber(numbers: Numbers, e: nat)
    requires Lawful(numbers) && e !in numbers && forall f <- numbers :: numbers[f] != |numbers| + 1
    ensures Lawful(numbers[e := |numbers| + 1])
    ensures Numbered(numbers[e := |numbers| + 1]) <==> Numbered(numbers)
  {
    var after := numbers[e := |numbers| + 1];
    assert after.Keys == numbers.Keys + {e};
    forall f, g ensures Unlike(after, f, g) {
      assert Unlike(numbers, f, g);
    }
    forall f <- numbers ensures after[f] == numbers[f] && f in after {
    }
  }

  /**
   The set comparison lets repeated ids through. The reorder ends with the episodes numbered 1..n, in the
   payload's order, exactly when the payload names no episode twice.
   */
  lemma ReorderNumbers(ids: set<nat>, payload: seq<nat>)
    requires forall e :: e in payload <==> e in ids
    ensures Numbered(Reordered(payload)) <==> NoRepeats(payload)
    ensures NoRepeats(payload) ==> forall i | 0 <= i < |payload| :: Reordered(payload)[payload[i]] == i + 1
    ensures Reordered(payload).Keys == ids
  {
    var numbers := Reordered(payload);
    PayloadLength(ids, payload);
    assert numbers.Keys == ids;
    if NoRepeats(payload) {
      forall e, f ensures Unlike(numbers, e, f) {
      }
    } else {
      var last := payload[|payload| - 1];
      assert last in payload && numbers[last] == |payload| > |ids|;
    }
  }
}
