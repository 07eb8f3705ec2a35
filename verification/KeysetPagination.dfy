/**
 Keyset pagination: "(created_at, id) < cursor, newest first, take limit + 1", as the agent-run,
 tool-run and publishing-audit listings do it, with the cursor codec of
 backend/app/schemas/pagination.py.
 */
module KeysetPagination {
  import opened Wrappers
  import opened Base64Url

  datatype Key = Key(createdAt: int, id: nat)

  predicate Below(a: Key, b: Key) {
    a.createdAt < b.createdAt || (a.createdAt == b.createdAt && a.id < b.id)
  }

  /** A table: what is stored under each (created_at, id). */
  type Table<!P> = map<Key, P>

  predicate PastCursor(k: Key, after: Option<Key>) {
    after.Some? ==> Below(k, after.value)
  }

  function Matching<P>(table: Table<P>, keep: P -> bool, after: Option<Key>): set<Key> {
    set k | k in table && keep(table[k]) && PastCursor(k, after)
  }

  // ----- ORDER BY created_at DESC, id DESC -----

  predicate Newest(keys: set<Key>, k: Key) {
    k in keys && forall j <- keys :: j == k || Below(j, k)
  }

  lemma {:induction false} NewestExists(keys: set<Key>)
    requires keys != {}
    ensures exists k :: Newest(keys, k)
  {
    var k :| k in keys;
    if keys == {k} {
      assert Newest(keys, k);
    } else {
      NewestExists(keys - {k});
      var m :| Newest(keys - {k}, m);
      var best := if Below(k, m) then m else k;
      forall j <- keys ensures j == best || Below(j, best) {
        assert j == k || j in keys - {k};
      }
      assert Newest(keys, best);
    }
  }

  /** Each item of the listing is the newest of what remains. */
  ghost predicate IsListing(s: seq<Key>, keys: set<Key>) {
    if s == [] then keys == {} else Newest(keys, s[0]) && IsListing(s[1..], keys - {s[0]})
  }

  /** A listing holds each row of its set once, strictly descending. */
  lemma {:induction false} ListingFacts(s: seq<Key>, keys: set<Key>)
    requires IsListing(s, keys)
    ensures StrictlyDescending(s) && |s| == |keys| && forall k :: k in s <==> k in keys
  {
    if s != [] {
      var rest := s[1..];
      ListingFacts(rest, keys - {s[0]});
      assert s == [s[0]] + rest;
      forall i | 0 <= i < |rest| ensures Below(rest[i], s[0]) {
        assert rest[i] in rest;
      }
    }
  }

  /** Of the listed rows the newer come first, and of equally new ones those with the greater id. */
  lemma NewestFirst(keys: set<Key>, i: nat, j: nat)
    requires i < j < |Descending(keys)|
    ensures var (a, b) := (Descending(keys)[i], Descending(keys)[j]);
            a.createdAt >= b.createdAt && (a.createdAt == b.createdAt ==> a.id > b.id)
  {
    ListingFacts(Descending(keys), keys);
  }

  /** The rows past a cursor are the matching ones that are older, or as old with a smaller id. */
  lemma PastCursorRows<P>(table: Table<P>, keep: P -> bool, cursor: Key, k: Key)
    ensures k in Descending(Matching(table, keep, Some(cursor))) <==>
            && k in table && keep(table[k])
            && k.createdAt <= cursor.createdAt && (k.createdAt == cursor.createdAt ==> k.id < cursor.id)
    ensures k in Descending(Matching(table, keep, None)) <==> k in table && keep(table[k])
  {
    ListingFacts(Descending(Matching(table, keep, Some(cursor))), Matching(table, keep, Some(cursor)));
    ListingFacts(Descending(Matching(table, keep, None)), Matching(table, keep, None));
  }

  lemma ListingSize(s: seq<Key>, keys: set<Key>)
    requires IsListing(s, keys)
    ensures |s| == |keys|
  {
    ListingFacts(s, keys);
  }

  /** The rows of a set in descending order; `ListingUnique` says there is only one such listing. */
  ghost function Descending(keys: set<Key>): (r: seq<Key>)
    ensures IsListing(r, keys)
  {
    ListingExists(keys);
    var r :| IsListing(r, keys);
    r
  }

  lemma {:induction false} ListingExists(keys: set<Key>)
    ensures exists s :: IsListing(s, keys)
  {
    if keys == {} {
      assert IsListing([], keys);
    } else {
      NewestExists(keys);
      var k :| Newest(keys, k);
      ListingExists(keys - {k});
      var s :| IsListing(s, keys - {k});
      assert ([k] + s)[1..] == s;
      assert IsListing([k] + s, keys);
    }
  }

  predicate StrictlyDescending(s: seq<Key>) {
    forall i, j | 0 <= i < j < |s| :: Below(s[j], s[i])
  }

  // ----- one page -----

  datatype Page = Page(items: seq<Key>, hasNext: bool, next: Option<string>)
  datatype PageError = InvalidCursor

  function EncodeCursor(json: Json<Key>, k: Key): string {
    Encode(json.render(k))
  }

  /** A missing or empty cursor means the start; an undecodable one is refused. */
  function DecodeCursor(json: Json<Key>, cursor: Option<string>): Result<Option<Key>, PageError> {
    if cursor.None? || cursor.value == "" then Ok(None)
    else
      var bytes := Decode(cursor.value);
      if bytes.None? || json.parse(bytes.value).None? then Err(InvalidCursor)
      else Ok(json.parse(bytes.value))
  }

  lemma CursorRoundTrip(json: Json<Key>, k: Key)
    requires json.render(k) != [] && json.parse(json.render(k)) == Some(k)
    ensures DecodeCursor(json, Some(EncodeCursor(json, k))) == Ok(Some(k))
  {
    StripThenPad(json.render(k));
    RoundTrip(json.render(k));
  }

  /** What a listing needs of its cursors. */
  datatype Cursors = Cursors(encode: Key -> string, decode: Option<string> -> Result<Option<Key>, PageError>)

  ghost predicate Faithful(cursors: Cursors) {
    && cursors.decode(None) == Ok(None)
    && forall k :: cursors.decode(Some(cursors.encode(k))) == Ok(Some(k))
  }

  /** The cursors in use, over some rendering of a key as JSON. */
  function JsonCursors(json: Json<Key>): Cursors {
    Cursors(k => EncodeCursor(json, k), cursor => DecodeCursor(json, cursor))
  }

  /** They are faithful if the JSON text of a key, never empty, parses back. */
  lemma JsonCursorsFaithful(json: Json<Key>)
    requires forall k :: json.render(k) != [] && json.parse(json.render(k)) == Some(k)
    ensures Faithful(JsonCursors(json))
  {
    forall k ensures JsonCursors(json).decode(Some(JsonCursors(json).encode(k))) == Ok(Some(k)) {
      CursorRoundTrip(json, k);
    }
  }

  ghost function ListPage<P>(cursors: Cursors, table: Table<P>, keep: P -> bool, limit: nat, cursor: Option<string>)
    : Result<Page, PageError>
  {
    match cursors.decode(cursor)
    case Err(e) => Err(e)
    case Ok(after) => Ok(PageOf(cursors, Descending(Matching(table, keep, after)), limit))
  }

  /** `LIMIT limit + 1`; the row too many only tells that there is a next page. */
  function PageOf(cursors: Cursors, listing: seq<Key>, limit: nat): Page {
    var rows := Take(listing, limit + 1);
    var items := Take(rows, limit);
    var hasNext := |rows| > limit;
    Page(items, hasNext, if hasNext && items != [] then Some(cursors.encode(items[|items| - 1])) else None)
  }

  function Take<T>(s: seq<T>, n: nat): seq<T> {
    if |s| <= n then s else s[..n]
  }

  // ----- following next_cursor while the table changes -----

  /** Page i is served from tables[i]; the walk stops when next_cursor is null or no request is left. */
  ghost function Walk<P>(cursors: Cursors, tables: seq<Table<P>>, keep: P -> bool, limit: nat, cursor: Option<string>)
    : seq<Page>
  {
    if tables == [] then []
    else
      match ListPage(cursors, tables[0], keep, limit, cursor)
      case Err(_) => []
      case Ok(page) =>
        if page.next.None? then [page] else [page] + Walk(cursors, tables[1..], keep, limit, page.next)
  }

  function Items(pages: seq<Page>): seq<Key> {
    if pages == [] then [] else pages[0].items + Items(pages[1..])
  }

  /** The walk reached a page without a next cursor. */
  predicate Finished(pages: seq<Page>) {
    pages != [] && pages[|pages| - 1].next.None?
  }

  ghost predicate At(cursors: Cursors, cursor: Option<string>, after: Option<Key>) {
    cursors.decode(cursor) == Ok(after)
  }

  lemma PageRows(cursors: Cursors, listing: seq<Key>, limit: nat)
    requires limit >= 1
    ensures var page := PageOf(cursors, listing, limit);
            && page.hasNext == (|listing| > limit) && page.items == Take(listing, limit)
            && page.next == if |listing| > limit then Some(cursors.encode(listing[limit - 1])) else None
  {
    if |listing| > limit {
      assert Take(Take(listing, limit + 1), limit) == listing[..limit];
    }
  }

  /** What one page does: it lists the newest matching rows past the cursor and leaves exactly the rest. */
  lemma PageServes<P>(cursors: Cursors, table: Table<P>, keep: P -> bool, limit: nat, cursor: Option<string>,
                      after: Option<Key>)
    requires Faithful(cursors) && At(cursors, cursor, after) && limit >= 1
    ensures var page := ListPage(cursors, table, keep, limit, cursor).value;
            var all := Descending(Matching(table, keep, after));
            && page.hasNext == page.next.Some? == (|all| > limit)
            && page.items == Take(all, limit)
            && (page.next.Some? ==>
                  && At(cursors, page.next, Some(all[limit - 1]))
                  && Descending(Matching(table, keep, Some(all[limit - 1]))) == all[limit..])
  {
    var all := Descending(Matching(table, keep, after));
    PageRows(cursors, all, limit);
    if |all| > limit {
      RestBelow(table, keep, after, limit);
    }
  }

  lemma RestBelow<P>(table: Table<P>, keep: P -> bool, after: Option<Key>, limit: nat)
    requires 1 <= limit < |Descending(Matching(table, keep, after))|
    ensures var all := Descending(Matching(table, keep, after));
            Descending(Matching(table, keep, Some(all[limit - 1]))) == all[limit..]
  {
    var all := Descending(Matching(table, keep, after));
    var last := all[limit - 1];
    ListingFacts(all, Matching(table, keep, after));
    ListingFacts(Descending(Matching(table, keep, Some(last))), Matching(table, keep, Some(last)));
    assert last in all;
    forall k ensures k in Matching(table, keep, Some(last)) <==> k in all[limit..] {
      SuffixMembers(all, limit, k);
    }
    ListingUnique(Matching(table, keep, Some(last)), Descending(Matching(table, keep, Some(last))), all[limit..]);
  }

  lemma SuffixMembers(all: seq<Key>, n: nat, k: Key)
    requires StrictlyDescending(all) && 1 <= n < |all|
    ensures k in all[n..] <==> k in all && Below(k, all[n - 1])
  {
    if k in all {
      var i :| 0 <= i < |all| && all[i] == k;
      assert i >= n ==> all[n..][i - n] == k;
    }
  }

  lemma HasMember<T>(s: seq<T>)
    ensures s != [] ==> exists k :: k in s
  {
    if s != [] {
      assert s[0] in s;
    }
  }

  /** A set has one listing. */
  lemma {:induction false} ListingUnique(keys: set<Key>, s: seq<Key>, t: seq<Key>)
    requires StrictlyDescending(s) && forall k :: k in s <==> k in keys
    requires StrictlyDescending(t) && forall k :: k in t <==> k in keys
    ensures s == t
  {
    HasMember(s);
    HasMember(t);
    if keys != {} {
      assert s[0] in t && t[0] in s;
      assert s[0] == t[0];
      forall k ensures k in s[1..] <==> k in keys - {s[0]} {
        assert s == [s[0]] + s[1..];
        assert k in s[1..] ==> k != s[0];
      }
      forall k ensures k in t[1..] <==> k in keys - {s[0]} {
        assert t == [t[0]] + t[1..];
        assert k in t[1..] ==> k != s[0];
      }
      ListingUnique(keys - {s[0]}, s[1..], t[1..]);
      assert s == [s[0]] + s[1..] && t == [t[0]] + t[1..];
    }
  }

  /** One request of a walk, in terms of the rows it serves and the cursor it hands on. */
  lemma WalkStep<P>(cursors: Cursors, tables: seq<Table<P>>, keep: P -> bool, limit: nat,
                    cursor: Option<string>, after: Option<Key>) returns (next: Option<string>)
    requires Faithful(cursors) && At(cursors, cursor, after) && limit >= 1 && tables != []
    ensures var all := Descending(Matching(tables[0], keep, after));
            var pages := Walk(cursors, tables, keep, limit, cursor);
            if |all| <= limit then
              |pages| == 1 && Finished(pages) && Items(pages) == all
            else
              var rest := Walk(cursors, tables[1..], keep, limit, next);
              && At(cursors, next, Some(all[limit - 1]))
              && Descending(Matching(tables[0], keep, Some(all[limit - 1]))) == all[limit..]
              && |pages| == 1 + |rest| && (Finished(pages) <==> Finished(rest))
              && Items(pages) == all[..limit] + Items(rest)
  {
    var page := ListPage(cursors, tables[0], keep, limit, cursor).value;
    var pages := Walk(cursors, tables, keep, limit, cursor);
    PageServes(cursors, tables[0], keep, limit, cursor, after);
    next := page.next;
    if next.None? {
      assert pages == [page] && pages[1..] == [];
    } else {
      var rest := Walk(cursors, tables[1..], keep, limit, next);
      assert pages == [page] + rest && pages[1..] == rest;
      assert rest != [] ==> pages[|pages| - 1] == rest[|rest| - 1];
    }
  }

  // ----- a table that does not change -----

  /** Requests needed for n rows: one even for an empty listing. */
  function PagesNeeded(n: nat, limit: nat): nat
    requires limit >= 1
  {
    if n <= limit then 1 else 1 + PagesNeeded(n - limit, limit)
  }

  lemma {:induction false} PagesNeededIsCeiling(n: nat, limit: nat)
    requires limit >= 1
    ensures n == 0 ==> PagesNeeded(n, limit) == 1
    ensures n > 0 ==> (PagesNeeded(n, limit) - 1) * limit < n <= PagesNeeded(n, limit) * limit
  {
    if n > limit {
      PagesNeededIsCeiling(n - limit, limit);
      var p := PagesNeeded(n - limit, limit);
      assert (p + 1) * limit == p * limit + limit && (p + 1 - 1) * limit == (p - 1) * limit + limit;
    }
  }

  /** A walk that has ended, in ceil(n / limit) pages which concatenate to the whole listing. */
  ghost predicate Complete(pages: seq<Page>, listing: seq<Key>, limit: nat)
    requires limit >= 1
  {
    Finished(pages) && |pages| == PagesNeeded(|listing|, limit) && Items(pages) == listing
  }

  lemma OnePageMore(pages: seq<Page>, rest: seq<Page>, listing: seq<Key>, limit: nat)
    requires 1 <= limit < |listing| && Complete(rest, listing[limit..], limit)
    requires |pages| == 1 + |rest| && Finished(pages) && Items(pages) == listing[..limit] + Items(rest)
    ensures Complete(pages, listing, limit)
  {
    assert listing == listing[..limit] + listing[limit..];
  }

  lemma {:induction false} FixedWalkFrom<P>(cursors: Cursors, tables: seq<Table<P>>, table: Table<P>, keep: P -> bool,
                                            limit: nat, cursor: Option<string>, after: Option<Key>, listing: seq<Key>)
    requires Faithful(cursors) && At(cursors, cursor, after) && limit >= 1
    requires forall t <- tables :: t == table
    requires listing == Descending(Matching(table, keep, after)) && |tables| >= PagesNeeded(|listing|, limit)
    ensures Complete(Walk(cursors, tables, keep, limit, cursor), listing, limit)
    decreases |tables|
  {
    assert tables[0] in tables;
    var next := WalkStep(cursors, tables, keep, limit, cursor, after);
    if |listing| > limit {
      forall t <- tables[1..] ensures t == table {
        assert t in tables;
      }
      FixedWalkFrom(cursors, tables[1..], table, keep, limit, next, Some(listing[limit - 1]), listing[limit..]);
      OnePageMore(Walk(cursors, tables, keep, limit, cursor), Walk(cursors, tables[1..], keep, limit, next), listing,
                  limit);
    }
  }

  /**
   Over a table that is the same at every request the walk is complete: it ends after ceil(n / limit) pages
   (one when n is 0), and they concatenate to the whole filtered listing in descending (created_at, id) order.
   */
  lemma FixedTableWalk<P>(cursors: Cursors, tables: seq<Table<P>>, table: Table<P>, keep: P -> bool, limit: nat)
    requires Faithful(cursors) && limit >= 1
    requires forall t <- tables :: t == table
    requires |tables| >= PagesNeeded(|Matching(table, keep, None)|, limit)
    ensures Complete(Walk(cursors, tables, keep, limit, None), Descending(Matching(table, keep, None)), limit)
    ensures |Descending(Matching(table, keep, None))| == |Matching(table, keep, None)|
  {
    var listing := Descending(Matching(table, keep, None));
    ListingSize(listing, Matching(table, keep, None));
    FixedWalkFrom(cursors, tables, table, keep, limit, None, None, listing);
  }

  // ----- a table that changes between the requests -----

  /**
   Whatever is inserted or deleted between the requests, the rows served over the whole walk are
   strictly descending, so none is served twice.
   */
  lemma {:induction false} ChangingTableNoRepeat<P>(cursors: Cursors, tables: seq<Table<P>>, keep: P -> bool,
                                                    limit: nat, cursor: Option<string>, after: Option<Key>)
    requires Faithful(cursors) && At(cursors, cursor, after) && limit >= 1
    ensures StrictlyDescending(Items(Walk(cursors, tables, keep, limit, cursor)))
    ensures forall k <- Items(Walk(cursors, tables, keep, limit, cursor)) :: PastCursor(k, after)
  {
    if tables != [] {
      var all := Descending(Matching(tables[0], keep, after));
      var next := WalkStep(cursors, tables, keep, limit, cursor, after);
      ListingFacts(all, Matching(tables[0], keep, after));
      if |all| > limit {
        var rest := Items(Walk(cursors, tables[1..], keep, limit, next));
        ChangingTableNoRepeat(cursors, tables[1..], keep, limit, next, Some(all[limit - 1]));
        ServedPast(tables[0], keep, after, all, limit, rest);
      }
    }
  }

  /** The rows of one page and everything served past it. */
  lemma ServedPast<P>(table: Table<P>, keep: P -> bool, after: Option<Key>, all: seq<Key>, limit: nat, rest: seq<Key>)
    requires IsListing(all, Matching(table, keep, after)) && 1 <= limit < |all|
    requires StrictlyDescending(rest) && forall k <- rest :: PastCursor(k, Some(all[limit - 1]))
    ensures StrictlyDescending(all[..limit] + rest) && forall k <- all[..limit] + rest :: PastCursor(k, after)
  {
    ListingFacts(all, Matching(table, keep, after));
    AppendBelow(all[..limit], rest);
    assert all[limit - 1] in all;
    forall k <- all[..limit] + rest ensures PastCursor(k, after) {
      assert k in all || k in rest;
    }
  }

  lemma AppendBelow(a: seq<Key>, b: seq<Key>)
    requires StrictlyDescending(a) && StrictlyDescending(b) && a != []
    requires forall k <- b :: Below(k, a[|a| - 1])
    ensures StrictlyDescending(a + b)
  {
    forall i, j | 0 <= i < j < |a + b| ensures Below((a + b)[j], (a + b)[i]) {
      if i < |a| <= j {
        assert b[j - |a|] in b;
        assert i < |a| - 1 ==> Below(a[|a| - 1], a[i]);
      }
    }
  }

  /** A matching row is on the page or past its last row. */
  lemma OnPageOrPast(all: seq<Key>, keys: set<Key>, limit: nat, k: Key)
    requires IsListing(all, keys) && k in keys && limit >= 1
    ensures |all| <= limit ==> k in all
    ensures |all| > limit ==> k in all[..limit] || PastCursor(k, Some(all[limit - 1]))
  {
    ListingFacts(all, keys);
    if |all| > limit {
      SuffixMembers(all, limit, k);
      assert all == all[..limit] + all[limit..];
    }
  }

  /** A finished walk has served every row that was present and matching at every request. */
  lemma {:induction false} ChangingTableNoLoss<P>(cursors: Cursors, tables: seq<Table<P>>, keep: P -> bool, limit: nat,
                                                  cursor: Option<string>, after: Option<Key>, k: Key)
    requires Faithful(cursors) && At(cursors, cursor, after) && limit >= 1
    requires forall i | 0 <= i < |tables| :: k in tables[i] && keep(tables[i][k])
    requires PastCursor(k, after)
    requires Finished(Walk(cursors, tables, keep, limit, cursor))
    ensures k in Items(Walk(cursors, tables, keep, limit, cursor))
  {
    var all := Descending(Matching(tables[0], keep, after));
    var next := WalkStep(cursors, tables, keep, limit, cursor, after);
    OnPageOrPast(all, Matching(tables[0], keep, after), limit, k);
    if |all| > limit && k !in all[..limit] {
      ChangingTableNoLoss(cursors, tables[1..], keep, limit, next, Some(all[limit - 1]), k);
    }
  }

  /** From the start: the two guarantees together, for callers that begin without a cursor. */
  lemma ExactlyOnce<P>(cursors: Cursors, tables: seq<Table<P>>, keep: P -> bool, limit: nat, k: Key)
    requires Faithful(cursors) && limit >= 1
    requires forall i | 0 <= i < |tables| :: k in tables[i] && keep(tables[i][k])
    requires Finished(Walk(cursors, tables, keep, limit, None))
    ensures multiset(Items(Walk(cursors, tables, keep, limit, None)))[k] == 1
  {
    var items := Items(Walk(cursors, tables, keep, limit, None));
    ChangingTableNoRepeat(cursors, tables, keep, limit, None, None);
    ChangingTableNoLoss(cursors, tables, keep, limit, None, None, k);
    OnceInDescending(items, k);
  }

  lemma {:induction false} OnceInDescending(s: seq<Key>, k: Key)
    requires StrictlyDescending(s) && k in s
    ensures multiset(s)[k] == 1
  {
    assert s == [s[0]] + s[1..];
    if k in s[1..] {
      OnceInDescending(s[1..], k);
    } else {
      assert k !in multiset(s[1..]);
    }
  }

  /** What a walk over a changing table serves goes back in time, and within one moment down in ids. */
  lemma ServedNewestFirst<P>(cursors: Cursors, tables: seq<Table<P>>, keep: P -> bool, limit: nat, i: nat, j: nat)
    requires Faithful(cursors) && limit >= 1
    requires i < j < |Items(Walk(cursors, tables, keep, limit, None))|
    ensures var items := Items(Walk(cursors, tables, keep, limit, None));
            && items[i].createdAt >= items[j].createdAt
            && (items[i].createdAt == items[j].createdAt ==> items[i].id > items[j].id)
  {
    ChangingTableNoRepeat(cursors, tables, keep, limit, None, None);
  }
}
