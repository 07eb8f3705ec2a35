/** Order-preserving deduplication and stable sorting, as Python's `seen` loops and `sorted` do them. */
module Sequences {

  // ----- deduplication by key: the first occurrence wins -----

  function DedupeBy<T(==), K(==)>(s: seq<T>, key: T -> K): (r: seq<T>)
    ensures |r| <= |s|
    ensures forall x <- r :: x in s
  {
    if s == [] then []
    else
      var init := DedupeBy(s[..|s| - 1], key);
      var last := s[|s| - 1];
      if HasKey(s[..|s| - 1], key, key(last)) then init else init + [last]
  }

  predicate HasKey<T(==), K(==)>(s: seq<T>, key: T -> K, k: K) {
    exists x <- s :: key(x) == k
  }

  lemma HasKeyAppend<T, K>(s: seq<T>, x: T, key: T -> K, k: K)
    ensures HasKey(s + [x], key, k) <==> HasKey(s, key, k) || key(x) == k
  {
    if HasKey(s, key, k) {
      var y :| y in s && key(y) == k;
      assert y in s + [x];
    }
    if key(x) == k {
      assert x in s + [x];
    }
  }

  /** Keys of the deduplicated list are pairwise distinct and no key of the input is lost. */
  lemma {:induction false} DedupeKeys<T, K>(s: seq<T>, key: T -> K)
    ensures forall i, j | 0 <= i < j < |DedupeBy(s, key)| ::
              key(DedupeBy(s, key)[i]) != key(DedupeBy(s, key)[j])
    ensures forall k :: HasKey(DedupeBy(s, key), key, k) <==> HasKey(s, key, k)
  {
    if s != [] {
      var init, last := s[..|s| - 1], s[|s| - 1];
      assert s == init + [last];
      DedupeKeys(init, key);
      var d := DedupeBy(init, key);
      forall k ensures HasKey(s, key, k) <==> HasKey(init, key, k) || key(last) == k {
        HasKeyAppend(init, last, key, k);
      }
      forall k ensures HasKey(d + [last], key, k) <==> HasKey(d, key, k) || key(last) == k {
        HasKeyAppend(d, last, key, k);
      }
      if HasKey(init, key, key(last)) {
        assert DedupeBy(s, key) == d;
      } else {
        assert DedupeBy(s, key) == d + [last];
        forall i | 0 <= i < |d| ensures key(d[i]) != key(last) {
          assert HasKey(d, key, key(d[i]));
        }
      }
    }
  }

  /** What is kept for a key is the earliest item of the input that carries it. */
  lemma {:induction false} DedupeKeepsFirst<T, K>(s: seq<T>, key: T -> K, i: nat)
    requires i < |s|
    requires !HasKey(s[..i], key, key(s[i]))
    ensures s[i] in DedupeBy(s, key)
  {
    var init := s[..|s| - 1];
    if i < |init| {
      assert init[..i] == s[..i];
      DedupeKeepsFirst(init, key, i);
    } else {
      assert s[..i] == init;
    }
  }

  // ----- stable sorting -----

  /** `leq` is a total preorder: what a Python sort key induces. */
  ghost predicate TotalPreorder<T(!new)>(leq: (T, T) -> bool) {
    && (forall x, y :: leq(x, y) || leq(y, x))
    && (forall x, y, z :: leq(x, y) && leq(y, z) ==> leq(x, z))
  }

  ghost predicate SortedBy<T>(s: seq<T>, leq: (T, T) -> bool) {
    forall i, j | 0 <= i < j < |s| :: leq(s[i], s[j])
  }

  function Insert<T>(x: T, s: seq<T>, leq: (T, T) -> bool): (r: seq<T>)
    ensures |r| == |s| + 1
  {
    if s == [] || leq(x, s[0]) then [x] + s else [s[0]] + Insert(x, s[1..], leq)
  }

  function StableSort<T>(s: seq<T>, leq: (T, T) -> bool): (r: seq<T>)
    ensures |r| == |s|
  {
    if s == [] then [] else Insert(s[0], StableSort(s[1..], leq), leq)
  }

  lemma {:induction false} InsertMultiset<T>(x: T, s: seq<T>, leq: (T, T) -> bool)
    ensures multiset(Insert(x, s, leq)) == multiset([x]) + multiset(s)
  {
    if !(s == [] || leq(x, s[0])) {
      InsertMultiset(x, s[1..], leq);
      assert s == [s[0]] + s[1..];
    }
  }

  lemma {:induction false} InsertSorted<T(!new)>(x: T, s: seq<T>, leq: (T, T) -> bool)
    requires TotalPreorder(leq) && SortedBy(s, leq)
    ensures SortedBy(Insert(x, s, leq), leq)
  {
    if s != [] && !leq(x, s[0]) {
      var r := Insert(x, s[1..], leq);
      InsertSorted(x, s[1..], leq);
      InsertMultiset(x, s[1..], leq);
      forall j | 0 <= j < |r| ensures leq(s[0], r[j]) {
        assert r[j] in multiset(r);
        if r[j] != x {
          assert r[j] in s[1..];
        }
      }
    }
  }

  /** `StableSort` sorts and neither loses nor invents an item. */
  lemma {:induction false} StableSortSorts<T(!new)>(s: seq<T>, leq: (T, T) -> bool)
    requires TotalPreorder(leq)
    ensures SortedBy(StableSort(s, leq), leq)
    ensures multiset(StableSort(s, leq)) == multiset(s)
  {
    if s != [] {
      StableSortSorts(s[1..], leq);
      InsertSorted(s[0], StableSort(s[1..], leq), leq);
      InsertMultiset(s[0], StableSort(s[1..], leq), leq);
      assert s == [s[0]] + s[1..];
    }
  }

  /** The items of `s` that tie with `k`, in their order. */
  function Ties<T>(s: seq<T>, k: T, leq: (T, T) -> bool): seq<T> {
    if s == [] then []
    else if leq(s[0], k) && leq(k, s[0]) then [s[0]] + Ties(s[1..], k, leq)
    else Ties(s[1..], k, leq)
  }

  lemma {:induction false} InsertTies<T(!new)>(x: T, s: seq<T>, k: T, leq: (T, T) -> bool)
    requires TotalPreorder(leq)
    ensures Ties(Insert(x, s, leq), k, leq) == Ties([x] + s, k, leq)
  {
    assert ([x] + s)[1..] == s;
    if s != [] && !leq(x, s[0]) {
      var rest := Insert(x, s[1..], leq);
      InsertTies(x, s[1..], k, leq);
      assert ([x] + s[1..])[1..] == s[1..];
      assert ([s[0]] + rest)[1..] == rest;
      // x and s[0] do not tie, so at most one of them ties with k
    }
  }

  /** Items that tie keep the order they came in. */
  lemma {:induction false} StableSortIsStable<T(!new)>(s: seq<T>, k: T, leq: (T, T) -> bool)
    requires TotalPreorder(leq)
    ensures Ties(StableSort(s, leq), k, leq) == Ties(s, k, leq)
  {
    if s != [] {
      StableSortIsStable(s[1..], k, leq);
      InsertTies(s[0], StableSort(s[1..], leq), k, leq);
      assert ([s[0]] + StableSort(s[1..], leq))[1..] == StableSort(s[1..], leq);
    }
  }

  // ----- text, compared character by character -----

  predicate TextLeq(a: string, b: string) {
    a == "" || (b != "" && (a[0] < b[0] || (a[0] == b[0] && TextLeq(a[1..], b[1..]))))
  }

  /** The texts agree up to character i, where `a` has the smaller one. */
  predicate SmallerAt(a: string, b: string, i: int) {
    0 <= i < |a| && i < |b| && a[..i] == b[..i] && a[i] < b[i]
  }

  /** The order of a dictionary: a prefix comes first, else the first different character decides. */
  lemma {:induction false} TextLeqMeans(a: string, b: string)
    ensures TextLeq(a, b) <==> a <= b || exists i :: SmallerAt(a, b, i)
  {
    if a != "" && b != "" {
      if a[0] < b[0] {
        assert SmallerAt(a, b, 0);
      } else if a[0] == b[0] {
        TextLeqMeans(a[1..], b[1..]);
        assert a == [a[0]] + a[1..] && b == [b[0]] + b[1..];
        if i :| SmallerAt(a[1..], b[1..], i) {
          assert a[..i + 1] == [a[0]] + a[1..][..i] && b[..i + 1] == [b[0]] + b[1..][..i];
          assert SmallerAt(a, b, i + 1);
        }
        if i :| SmallerAt(a, b, i) {
          assert a[1..][..i - 1] == a[..i][1..] && b[1..][..i - 1] == b[..i][1..];
          assert SmallerAt(a[1..], b[1..], i - 1);
        }
      } else {
        assert forall i | SmallerAt(a, b, i) :: i == 0 || a[..i][0] == b[..i][0];
      }
    }
  }

  lemma {:induction false} TextLeqTotal(a: string, b: string)
    ensures TextLeq(a, b) || TextLeq(b, a)
  {
    if a != "" && b != "" && a[0] == b[0] {
      TextLeqTotal(a[1..], b[1..]);
    }
  }

  lemma {:induction false} TextLeqTransitive(a: string, b: string, c: string)
    requires TextLeq(a, b) && TextLeq(b, c)
    ensures TextLeq(a, c)
  {
    if a != "" && b != "" && c != "" && a[0] == b[0] == c[0] {
      TextLeqTransitive(a[1..], b[1..], c[1..]);
    }
  }
}
