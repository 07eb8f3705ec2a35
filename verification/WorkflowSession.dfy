/** The database session the services share: the tables of one series, and the queries that need more than a lookup. */
module WorkflowSession {
  import opened Wrappers
  import opened WorkflowRows
  import opened EpisodeNumbering
  import opened PlanSteps
  import opened BriefSteps
  import opened WorkflowInvariant
  import Sequences

  /** What an operation leaves: the specified tables, or on an error the ones it found. */
  ghost predicate Committed(before: State, after: State, r: Result<(), HttpError>, specified: Result<State, HttpError>)
  {
    match specified
    case Ok(s) => r.Ok? && after == s
    case Err(error) => r == Err(error) && after == before
  }

  function NumberAt(episodes: map<Id, Episode>, e: Id): int {
    if e in episodes then episodes[e].episodeNumber else 0
  }

  /** The rows of the episodes table, ascending by number. */
  ghost predicate Listing(episodes: map<Id, Episode>, ids: seq<Id>) {
    && (forall e :: e in ids <==> e in episodes)
    && NoRepeats(ids)
    && forall i, j | 0 <= i < j < |ids| :: NumberAt(episodes, ids[i]) <= NumberAt(episodes, ids[j])
  }

  lemma SameItems(rows: seq<Id>, sorted: seq<Id>)
    requires NoRepeats(rows) && multiset(sorted) == multiset(rows)
    ensures NoRepeats(sorted) && forall e :: e in sorted <==> e in rows
  {
    forall e ensures e in sorted <==> e in rows {
      assert e in sorted <==> e in multiset(sorted);
    }
    Once(rows);
    forall i, j | 0 <= i < j < |sorted| ensures sorted[i] != sorted[j] {
      assert sorted == sorted[..j] + [sorted[j]] + sorted[j + 1..];
      assert sorted[i] in sorted[..j];
      assert multiset(sorted)[sorted[j]] >= multiset(sorted[..j])[sorted[j]] + 1;
      assert multiset(rows)[sorted[j]] <= 1;
    }
  }

  lemma {:induction false} Once(rows: seq<Id>)
    requires NoRepeats(rows)
    ensures forall e :: multiset(rows)[e] <= 1
  {
    if rows != [] {
      var (init, last) := (rows[..|rows| - 1], rows[|rows| - 1]);
      assert rows == init + [last];
      Once(init);
      assert last !in init;
    }
  }

  class Session {
    var series: Series
    var ledger: nat
    var narratives: seq<Narrative>
    var episodes: map<Id, Episode>
    var outlines: map<Id, Outline>
    var briefs: map<(Id, BriefKind), Brief>
    var production: Production
    var nextId: Id

    constructor (s: State)
      ensures Db() == s
    {
      series, ledger, narratives, episodes := s.series, s.ledger, s.narratives, s.episodes;
      outlines, briefs, production, nextId := s.outlines, s.briefs, s.production, s.nextId;
    }

    /** The tables as one value. */
    ghost function Db(): State
      reads this
    {
      State(series, ledger, narratives, episodes, outlines, briefs, production, nextId)
    }

    /** What the schema enforces on episode numbers: unique within the series, and positive. */
    ghost predicate Valid()
      reads this
    {
      Lawful(NumbersOf(episodes))
    }

    /** Ends a failed operation: nothing it wrote is committed. */
    method Rollback(saved: State)
      modifies this
      ensures Db() == saved
    {
      series, ledger, narratives, episodes := saved.series, saved.ledger, saved.narratives, saved.episodes;
      outlines, briefs, production, nextId := saved.outlines, saved.briefs, saved.production, saved.nextId;
    }

    method Snapshot() returns (s: State)
      ensures s == Db()
    {
      s := State(series, ledger, narratives, episodes, outlines, briefs, production, nextId);
    }

    /** The listing behind every loop over episodes, `order_by(episode_number.asc())`. */
    method Episodes() returns (ids: seq<Id>)
      ensures Listing(episodes, ids)
    {
      var rows: seq<Id>, remaining := [], episodes.Keys;
      while remaining != {}
        invariant NoRepeats(rows)
        invariant forall e :: e in rows <==> e in episodes && e !in remaining
        invariant remaining <= episodes.Keys
      {
        var e :| e in remaining;
        rows, remaining := rows + [e], remaining - {e};
      }
      var table := episodes;
      var byNumber := (a: Id, b: Id) => NumberAt(table, a) <= NumberAt(table, b);
      ids := Sequences.StableSort(rows, byNumber);
      Sequences.StableSortSorts(rows, byNumber);
      SameItems(rows, ids);
    }

    /** Episodes with two approved briefs, by grouping and counting the brief rows. */
    method ApprovedEpisodeIds() returns (ids: set<Id>)
      ensures ids == ApprovedEpisodes(Db())
    {
      ids := set e | e in episodes && |ApprovedRows(briefs, e)| == 2;
      forall e | e in episodes ensures |ApprovedRows(briefs, e)| == 2 <==> PairApproved(RowsOf(Db(), e)) {
        CountTwoIsBothKinds(Db(), e);
      }
    }
  }

  /** Every reachable state has what the services ask of the session, so their calls in sequence are a run. */
  lemma ReachableIsValid(session: Session)
    requires Inv(session.Db())
    ensures session.Valid()
  {
  }

  // ----- listings -----

  lemma ListedRow(episodes: map<Id, Episode>, ids: seq<Id>, i: nat)
    requires Listing(episodes, ids) && i < |ids|
    ensures ids[i] in episodes && ids[i] !in ids[..i] && ids[..i + 1] == ids[..i] + [ids[i]]
  {
    assert ids[i] in ids;
  }

  ghost function Listed(ids: seq<Id>): (r: set<Id>)
    ensures forall e :: e in r <==> e in ids
  {
    set e | e in ids
  }

  lemma ListedStep(ids: seq<Id>, k: nat)
    requires k < |ids|
    ensures Listed(ids[..k + 1]) == Listed(ids[..k]) + {ids[k]}
  {
    assert ids[..k + 1] == ids[..k] + [ids[k]];
  }

  lemma {:induction false} ListedSize(ids: seq<Id>)
    requires NoRepeats(ids)
    ensures |Listed(ids)| == |ids|
  {
    if ids != [] {
      var k := |ids| - 1;
      ListedSize(ids[..k]);
      ListedStep(ids, k);
      assert ids[..k + 1] == ids;
      assert ids[k] !in ids[..k];
    }
  }

  /** Up to its k-th row a listing holds exactly the episodes numbered at most as that row. */
  lemma ListedUpTo(episodes: map<Id, Episode>, ids: seq<Id>, k: nat)
    requires Listing(episodes, ids) && Distinct(NumbersOf(episodes)) && k < |ids|
    ensures ids[k] in episodes
    ensures Listed(ids[..k + 1]) == AtMost(NumbersOf(episodes), episodes[ids[k]].episodeNumber)
  {
    assert ids[k] in ids;
    forall e
      ensures e in ids[..k + 1] <==> e in episodes && episodes[e].episodeNumber <= episodes[ids[k]].episodeNumber
    {
      if e in episodes {
        var i :| 0 <= i < |ids| && ids[i] == e;
        assert Unlike(NumbersOf(episodes), e, ids[k]);
      }
    }
  }

  /** A listing's k-th row, from 1, has rank k. */
  lemma RankIsPosition(episodes: map<Id, Episode>, ids: seq<Id>, k: nat)
    requires Listing(episodes, ids) && Distinct(NumbersOf(episodes)) && k < |ids|
    ensures ids[k] in episodes && Rank(NumbersOf(episodes), ids[k]) == k + 1
  {
    ListedUpTo(episodes, ids, k);
    ListedSize(ids[..k + 1]);
  }

  // ----- rewriting episodes one by one -----

  /** `table` while the loop has rewritten the rows in `done` to `after`. */
  ghost function Rewriting<V>(table: map<Id, V>, after: map<Id, V>, done: seq<Id>): map<Id, V>
    requires after.Keys == table.Keys
  {
    map e | e in table :: if e in done then after[e] else table[e]
  }

  lemma RewritingStep<V>(table: map<Id, V>, after: map<Id, V>, done: seq<Id>, e: Id)
    requires after.Keys == table.Keys && e in table
    ensures Rewriting(table, after, done + [e]) == Rewriting(table, after, done)[e := after[e]]
  {
  }

  lemma RewritingEnds<V>(table: map<Id, V>, after: map<Id, V>, ids: seq<Id>)
    requires after.Keys == table.Keys && forall e <- table :: e in ids
    ensures Rewriting(table, after, ids[..|ids|]) == after
  {
    assert ids[..|ids|] == ids;
  }
}
