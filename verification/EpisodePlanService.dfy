/** The episode plan service over the session's tables, operation by operation as in episodes/service.py. */
module EpisodePlanService {
  import opened Wrappers
  import opened WorkflowRows
  import opened EpisodeNumbering
  import opened PlanSteps
  import opened WorkflowSession
  import OutlineService
  import OutlineSteps

  // ----- numbers written row by row -----

  /** The episodes once the rows in `done` carry their numbers from `after`. */
  ghost function Renumbering(episodes: map<Id, Episode>, after: Numbers, done: set<Id>): map<Id, Episode>
    requires after.Keys == episodes.Keys
  {
    WithNumbers(episodes, Partial(NumbersOf(episodes), after, done))
  }

  lemma RenumberingStarts(episodes: map<Id, Episode>, after: Numbers)
    requires after.Keys == episodes.Keys
    ensures Renumbering(episodes, after, {}) == episodes
  {
  }

  lemma RenumberingStep(episodes: map<Id, Episode>, after: Numbers, done: set<Id>, e: Id)
    requires after.Keys == episodes.Keys && e in episodes && e !in done
    ensures Renumbering(episodes, after, done)[e] == episodes[e]
    ensures Renumbering(episodes, after, done + {e}) ==
            Renumbering(episodes, after, done)[e := episodes[e].(episodeNumber := after[e])]
  {
    PartialWrite(NumbersOf(episodes), after, done, e);
  }

  lemma RenumberingEnds(episodes: map<Id, Episode>, after: Numbers, ids: seq<Id>)
    requires after.Keys == episodes.Keys && Listing(episodes, ids)
    ensures Renumbering(episodes, after, Listed(ids[..|ids|])) == WithNumbers(episodes, after)
  {
    assert ids[..|ids|] == ids;
  }

  /** The i-th write of a loop over the listing. */
  lemma ListedWrite(episodes: map<Id, Episode>, after: Numbers, ids: seq<Id>, i: nat)
    requires Listing(episodes, ids) && i < |ids| && after.Keys == episodes.Keys
    ensures ids[i] in episodes
    ensures var (now, next) := (Renumbering(episodes, after, Listed(ids[..i])),
                                Renumbering(episodes, after, Listed(ids[..i + 1])));
            now[ids[i]] == episodes[ids[i]] && next == now[ids[i] := episodes[ids[i]].(episodeNumber := after[ids[i]])]
  {
    assert ids[i] in ids && ids[i] !in ids[..i];
    ListedStep(ids, i);
    RenumberingStep(episodes, after, Listed(ids[..i]), ids[i]);
  }

  lemma RenumberingNumbersOf(episodes: map<Id, Episode>, after: Numbers, done: set<Id>)
    requires after.Keys == episodes.Keys
    ensures NumbersOf(Renumbering(episodes, after, done)) == Partial(NumbersOf(episodes), after, done)
  {
  }

  /** The i-th row listed is given the number after `offset + i`. */
  ghost predicate WrittenAt(after: Numbers, ids: seq<Id>, i: nat, offset: int)
    requires i < |ids|
  {
    ids[i] in after && after[ids[i]] == offset + i + 1
  }

  ghost predicate WrittenDistinctly(episodes: map<Id, Episode>, after: Numbers, ids: seq<Id>, i: nat)
    requires i < |ids| && after.Keys == episodes.Keys
  {
    WrittenAt(after, ids, i, 0) && Distinct(NumbersOf(Renumbering(episodes, after, Listed(ids[..i + 1]))))
  }

  lemma AscendingWrite(episodes: map<Id, Episode>, ids: seq<Id>, i: nat)
    requires Listing(episodes, ids) && i < |ids| && Distinct(NumbersOf(episodes))
    requires forall e <- NumbersOf(episodes) :: 1 <= NumbersOf(episodes)[e]
    ensures WrittenDistinctly(episodes, Renumbered(NumbersOf(episodes)), ids, i)
  {
    RankIsPosition(episodes, ids, i);
    ListedUpTo(episodes, ids, i);
    RenumberAscending(NumbersOf(episodes), episodes[ids[i]].episodeNumber);
    RenumberingNumbersOf(episodes, Renumbered(NumbersOf(episodes)), Listed(ids[..i + 1]));
  }

  /** Every write of the ascending loop leaves the numbers distinct. */
  lemma AscendingWrites(episodes: map<Id, Episode>, ids: seq<Id>)
    requires Listing(episodes, ids) && Distinct(NumbersOf(episodes))
    requires forall e <- episodes :: 1 <= episodes[e].episodeNumber
    ensures forall i | 0 <= i < |ids| :: WrittenDistinctly(episodes, Renumbered(NumbersOf(episodes)), ids, i)
  {
    forall i | 0 <= i < |ids| ensures WrittenDistinctly(episodes, Renumbered(NumbersOf(episodes)), ids, i) {
      AscendingWrite(episodes, ids, i);
    }
  }

  lemma ParkedInOrder(episodes: map<Id, Episode>, ids: seq<Id>)
    requires Listing(episodes, ids) && Distinct(NumbersOf(episodes))
    ensures forall i | 0 <= i < |ids| :: WrittenAt(Parked(NumbersOf(episodes)), ids, i, PARK_OFFSET)
  {
    forall i | 0 <= i < |ids| ensures WrittenAt(Parked(NumbersOf(episodes)), ids, i, PARK_OFFSET) {
      RankIsPosition(episodes, ids, i);
    }
  }

  /** The episodes while the second loop of a reorder has been through `done`. */
  ghost function Assigning(parked: map<Id, Episode>, done: seq<Id>): map<Id, Episode> {
    map e | e in parked :: if e in done then parked[e].(episodeNumber := LastPosition(done, e)) else parked[e]
  }

  lemma AssigningStep(parked: map<Id, Episode>, done: seq<Id>, e: Id)
    requires e in parked
    ensures Assigning(parked, done + [e]) == Assigning(parked, done)[e := parked[e].(episodeNumber := |done| + 1)]
  {
    forall f <- parked | f != e && f in done ensures LastPosition(done + [e], f) == LastPosition(done, f) {
      assert (done + [e])[..|done|] == done;
    }
  }

  class EpisodePlanService {
    const session: Session
    const outlineService: OutlineService.OutlineService

    constructor (session: Session)
      ensures this.session == session && outlineService.session == session && fresh(outlineService)
    {
      this.session := session;
      this.outlineService := new OutlineService.OutlineService(session);
    }

    /** Selected narrative, then open plan. */
    method AssertPlanOpen() returns (r: Result<(), HttpError>)
      ensures r == OpenPlan(session.Db())
    {
      var _ :- Require(FindSelected(session.narratives, false).Some?, Conflict);
      var _ :- Require(session.series.planLockedAt.None?, Conflict);
      r := Ok(());
    }

    method GetEditable(e: Id) returns (r: Result<Episode, HttpError>)
      ensures r == EditableEpisode(session.Db(), e)
    {
      var _ :- AssertPlanOpen();
      var _ :- Require(e in session.episodes, NotFound);
      var _ :- Require(!RecordedOrLater(session.episodes[e].status), Conflict);
      r := Ok(session.episodes[e]);
    }

    // ----- generating -----

    method GetPlan(library: Library, planner: Planner, now: int) returns (r: Result<(), HttpError>)
      modifies session
      ensures Committed(old(session.Db()), session.Db(), r, PlanSteps.GetPlan(old(session.Db()), library, planner, now))
    {
      var _ :- Require(FindSelected(session.narratives, false).Some?, Conflict);
      var saved := session.Snapshot();
      r := EnsureGeneratedPlan(library, planner, now, false);
      if r.Err? {
        session.Rollback(saved);
      }
    }

    /** On an error the caller rolls back. */
    method EnsureGeneratedPlan(library: Library, planner: Planner, now: int, replace: bool)
      returns (r: Result<(), HttpError>)
      modifies session
      ensures var specified := PlanSteps.EnsureGeneratedPlan(old(session.Db()), library, planner, now, replace);
              if r.Ok? then specified == Ok(session.Db()) else specified == Err(r.error)
    {
      if session.series.planLockedAt.Some? {
        return Ok(());
      }
      var ids := session.Episodes();
      if session.episodes.Keys != {} && !replace {
        r := SuggestProfilesForUncuratedPlan(ids, library, planner);
        return;
      }
      if session.episodes.Keys != {} {
        var _ :- Require(!AnyRecorded(session.episodes), Conflict);
        session.outlines := session.outlines - session.episodes.Keys;
        session.briefs := Remaining(session.briefs, session.episodes.Keys);
        session.production := WithoutEpisodes(session.production, session.episodes.Keys);
        session.episodes := map[];
      }
      var _ :- Require(planner.plan.Some?, BadGateway);
      AddDrafts(planner.plan.value, library, planner);
      session.series := session.series.(episodePlanGeneratedAt := Some(now));
      NothingRemoved(old(session.Db()));
      r := Ok(());
    }

    method AddDrafts(drafts: seq<Draft>, library: Library, planner: Planner)
      requires session.episodes == map[]
      modifies session`episodes, session`nextId
      ensures session.episodes == DraftedEpisodes(old(session.nextId), drafts, library, planner)
      ensures session.nextId == old(session.nextId) + |drafts|
    {
      ghost var from := session.nextId;
      for i := 0 to |drafts|
        invariant session.nextId == from + i
        invariant session.episodes == DraftedEpisodes(from, drafts[..i], library, planner)
      {
        DraftedStep(from, drafts, library, planner, i);
        var draft := drafts[i];
        var host := ByName(library, HostProfile, draft.hostName, planner);
        var guest := ByName(library, GuestProfile, draft.guestName, planner);
        var episode := Episode(i + 1, draft.title, draft.premise, Planned, host, guest, None);
        session.episodes := session.episodes[session.nextId := episode];
        session.nextId := session.nextId + 1;
      }
      assert drafts[..|drafts|] == drafts;
    }

    method SuggestProfilesForUncuratedPlan(ids: seq<Id>, library: Library, planner: Planner)
      returns (r: Result<(), HttpError>)
      requires Listing(session.episodes, ids)
      modifies session`episodes
      ensures Committed(old(session.Db()), session.Db(), r, SuggestProfiles(old(session.Db()), library, planner))
    {
      if !Uncurated(session.episodes) {
        return Ok(());
      }
      var suggestions :- Casting(library, planner);
      CastEpisodes(ids, suggestions, library, planner);
      r := Ok(());
    }

    method CastEpisodes(ids: seq<Id>, suggestions: seq<Suggestion>, library: Library, planner: Planner)
      requires Listing(session.episodes, ids)
      modifies session`episodes
      ensures session.episodes == CastAll(old(session.episodes), suggestions, library, planner)
    {
      ghost var before := session.episodes;
      ghost var after := CastAll(before, suggestions, library, planner);
      for i := 0 to |ids|
        invariant session.episodes == Rewriting(before, after, ids[..i])
      {
        ListedRow(before, ids, i);
        RewritingStep(before, after, ids[..i], ids[i]);
        CastEpisode(ids[i], suggestions, library, planner);
      }
      RewritingEnds(before, after, ids);
    }

    method CastEpisode(e: Id, suggestions: seq<Suggestion>, library: Library, planner: Planner)
      requires e in session.episodes
      modifies session`episodes
      ensures session.episodes ==
              old(session.episodes)[e := Cast(old(session.episodes[e]), suggestions, library, planner)]
    {
      var episode := session.episodes[e];
      var suggestion := SuggestionFor(suggestions, episode.episodeNumber);
      if suggestion.None? {
        return;
      }
      var host := ProfileByName(library, HostProfile, suggestion.value.hostName, planner.nameKey);
      var guest := ProfileByName(library, GuestProfile, suggestion.value.guestName, planner.nameKey);
      session.episodes := session.episodes[e := episode.(hostProfileId := host, guestProfileId := guest)];
    }

    // ----- editing -----

    /** The insert of a number that is taken fails, and nothing is committed. */
    method AddEpisode(title: string, premise: string) returns (r: Result<(), HttpError>)
      modifies session
      ensures Committed(old(session.Db()), session.Db(), r, PlanSteps.AddEpisode(old(session.Db()), title, premise))
    {
      var _ :- AssertPlanOpen();
      var count := |session.episodes|;
      var _ :- Require(!NumberTaken(session.episodes, count + 1), ServerError);
      var episode := Episode(count + 1, title, premise, Planned, None, None, None);
      session.episodes := session.episodes[session.nextId := episode];
      session.nextId := session.nextId + 1;
      r := Ok(());
    }

    method UpdateEpisode(e: Id, title: Change<string>, premise: Change<string>) returns (r: Result<(), HttpError>)
      modifies session
      ensures Committed(old(session.Db()), session.Db(), r,
                        PlanSteps.UpdateEpisode(old(session.Db()), e, title, premise))
    {
      var episode :- GetEditable(e);
      if title.SetTo? {
        episode := episode.(title := title.value);
      }
      if premise.SetTo? {
        episode := episode.(premise := premise.value);
      }
      session.episodes := session.episodes[e := episode];
      r := Ok(());
    }

    method RemoveEpisode(e: Id) returns (r: Result<(), HttpError>)
      requires session.Valid()
      modifies session
      ensures Committed(old(session.Db()), session.Db(), r, PlanSteps.RemoveEpisode(old(session.Db()), e))
    {
      var _ :- GetEditable(e);
      StillValid(session.episodes, e);
      session.episodes := Deleted(session.episodes, e);
      session.outlines := session.outlines - {e};
      session.briefs := Remaining(session.briefs, {e});
      session.production := WithoutEpisodes(session.production, {e});
      RenumberEpisodes();
      r := Ok(());
    }

    /** The ascending renumbering loop: the numbers are distinct after every single write. */
    method RenumberEpisodes()
      requires session.Valid()
      modifies session`episodes
      ensures session.episodes == WithNumbers(old(session.episodes), Renumbered(NumbersOf(old(session.episodes))))
    {
      var ids := session.Episodes();
      ghost var before := session.episodes;
      ghost var after := Renumbered(NumbersOf(before));
      AscendingWrites(before, ids);
      RenumberingStarts(before, after);
      for i := 0 to |ids|
        invariant session.episodes == Renumbering(before, after, Listed(ids[..i]))
        invariant i > 0 ==> WrittenDistinctly(before, after, ids, i - 1)
      {
        assert WrittenDistinctly(before, after, ids, i);
        WriteNumber(before, after, ids, i, i + 1);
      }
      RenumberingEnds(before, after, ids);
    }

    /** One write of either numbering loop. */
    method WriteNumber(ghost before: map<Id, Episode>, ghost after: Numbers, ids: seq<Id>, i: nat, number: int)
      requires Listing(before, ids) && i < |ids| && after.Keys == before.Keys
      requires session.episodes == Renumbering(before, after, Listed(ids[..i]))
      requires ids[i] in after && number == after[ids[i]]
      modifies session`episodes
      ensures session.episodes == Renumbering(before, after, Listed(ids[..i + 1]))
    {
      ListedWrite(before, after, ids, i);
      session.episodes := session.episodes[ids[i] := session.episodes[ids[i]].(episodeNumber := number)];
    }

    method ReorderEpisodes(payload: seq<Id>) returns (r: Result<(), HttpError>)
      requires session.Valid()
      modifies session
      ensures Committed(old(session.Db()), session.Db(), r, PlanSteps.ReorderEpisodes(old(session.Db()), payload))
    {
      var _ :- AssertPlanOpen();
      var ids := session.Episodes();
      assert (set e <- ids) == session.episodes.Keys;
      var _ :- Require((set e <- payload) == (set e <- ids), BadRequest);
      var _ :- Require(!AnyRecorded(session.episodes), Conflict);
      ApplyOrder(ids, payload);
      r := Ok(());
    }

    /** Both loops of a reorder. */
    method ApplyOrder(ids: seq<Id>, payload: seq<Id>)
      requires session.Valid() && Listing(session.episodes, ids) && (set e <- payload) == session.episodes.Keys
      modifies session`episodes
      ensures Reordered(payload).Keys == old(session.episodes).Keys
      ensures session.episodes == WithNumbers(old(session.episodes), Reordered(payload))
    {
      ReorderedAfterParking(session.episodes, payload);
      Park(ids);
      assert forall e :: e in payload <==> e in (set f <- payload);
      AssignPositions(payload);
    }

    /** Every number moves above 1000. */
    method Park(ids: seq<Id>)
      requires session.Valid() && Listing(session.episodes, ids)
      modifies session`episodes
      ensures session.episodes == WithNumbers(old(session.episodes), Parked(NumbersOf(old(session.episodes))))
    {
      ghost var before := session.episodes;
      ParkedInOrder(before, ids);
      ParkRows(before, Parked(NumbersOf(before)), ids);
      RenumberingEnds(before, Parked(NumbersOf(before)), ids);
    }

    /** The first loop of a reorder. */
    method ParkRows(ghost before: map<Id, Episode>, ghost after: Numbers, ids: seq<Id>)
      requires session.episodes == before && Listing(before, ids) && after.Keys == before.Keys
      requires forall i | 0 <= i < |ids| :: WrittenAt(after, ids, i, PARK_OFFSET)
      modifies session`episodes
      ensures session.episodes == Renumbering(before, after, Listed(ids[..|ids|]))
    {
      RenumberingStarts(before, after);
      for i := 0 to |ids|
        invariant session.episodes == Renumbering(before, after, Listed(ids[..i]))
      {
        assert WrittenAt(after, ids, i, PARK_OFFSET);
        WriteNumber(before, after, ids, i, PARK_OFFSET + i + 1);
      }
    }

    /** The second loop of a reorder: positions in the payload, the last one counting. */
    method AssignPositions(payload: seq<Id>)
      requires forall e :: e in payload <==> e in session.episodes
      modifies session`episodes
      ensures session.episodes == Assigning(old(session.episodes), payload)
    {
      ghost var parked := session.episodes;
      for i := 0 to |payload|
        invariant session.episodes == Assigning(parked, payload[..i])
      {
        var e := payload[i];
        assert e in payload && payload[..i + 1] == payload[..i] + [e];
        AssigningStep(parked, payload[..i], e);
        session.episodes := session.episodes[e := session.episodes[e].(episodeNumber := i + 1)];
      }
      assert payload[..|payload|] == payload;
    }

    method AssignProfiles(e: Id, host: Change<Option<Id>>, guest: Change<Option<Id>>, override: Change<Option<string>>,
                          library: Library) returns (r: Result<(), HttpError>)
      modifies session
      ensures Committed(old(session.Db()), session.Db(), r,
                        PlanSteps.AssignProfiles(old(session.Db()), e, host, guest, override, library))
    {
      var episode :- GetEditable(e);
      if host.SetTo? && host.value.Some? {
        var _ :- ActiveProfile(library, host.value.value, HostProfile);
      }
      if guest.SetTo? && guest.value.Some? {
        var _ :- ActiveProfile(library, guest.value.value, GuestProfile);
      }
      var nextHost := Changed(host, episode.hostProfileId);
      var nextGuest := Changed(guest, episode.guestProfileId);
      var _ :- Require(nextHost.None? || nextHost != nextGuest, BadRequest);
      if host.SetTo? {
        episode := episode.(hostProfileId := host.value);
      }
      if guest.SetTo? {
        episode := episode.(guestProfileId := guest.value);
      }
      if override.SetTo? {
        var value := if override.value == Some("") then None else override.value;
        episode := episode.(guestNameOverride := value);
      }
      session.episodes := session.episodes[e := episode];
      r := Ok(());
    }

    // ----- locking -----

    method LockPlan(library: Library, texts: Id -> string, now: int) returns (r: Result<(), HttpError>)
      requires outlineService.session == session
      modifies session
      ensures Committed(old(session.Db()), session.Db(), r, PlanSteps.LockPlan(old(session.Db()), library, texts, now))
    {
      var _ :- AssertPlanOpen();
      var ids := session.Episodes();
      var _ :- Require(LockReady(session.episodes, library), Conflict);
      session.series := session.series.(planLockedAt := Some(now), currentStage := OutlinesStage,
                                        status := InProduction);
      OutlineEpisodes(ids, texts);
      r := Ok(());
    }

    /** The locking loop: planned episodes become outlined, and every episode gets an outline. */
    method OutlineEpisodes(ids: seq<Id>, texts: Id -> string)
      requires outlineService.session == session && Listing(session.episodes, ids)
      modifies session`episodes, session`outlines
      ensures session.episodes == LockedEpisodes(old(session.episodes))
      ensures session.outlines == OutlineSteps.WithMissing(old(session.outlines), old(session.episodes), texts)
    {
      ghost var before, after := session.episodes, LockedEpisodes(session.episodes);
      var outlined := session.outlines;
      for i := 0 to |ids|
        invariant session.episodes == Rewriting(before, after, ids[..i])
        invariant session.outlines == OutlineService.Ensuring(outlined, before, texts, ids[..i])
      {
        ListedRow(before, ids, i);
        RewritingStep(before, after, ids[..i], ids[i]);
        OutlineService.EnsureOneMore(outlined, before, texts, ids[..i], ids[i]);
        OutlineEpisode(ids[i], texts(ids[i]), ids[i] in outlined);
      }
      RewritingEnds(before, after, ids);
      OutlineService.EnsuringEnds(outlined, before, texts, ids);
    }

    method OutlineEpisode(e: Id, markdown: string, hasOutline: bool)
      requires outlineService.session == session && e in session.episodes
      modifies session`episodes, session`outlines
      ensures session.episodes == old(session.episodes)[e := OnLock(old(session.episodes[e]))]
      ensures session.outlines ==
              if hasOutline then old(session.outlines)
              else old(session.outlines)[e := OutlineSteps.NewOutline(old(session.episodes[e]), markdown)]
    {
      if session.episodes[e].status == Planned {
        session.episodes := session.episodes[e := session.episodes[e].(status := Outlined)];
      }
      if !hasOutline {
        outlineService.CreateOutlineForEpisode(e, markdown);
      }
    }
  }

  lemma {:induction false} AllSchedulesRemain(schedules: seq<Schedule>)
    ensures RemainingSchedules(schedules, {}) == schedules
  {
    if schedules != [] {
      AllSchedulesRemain(schedules[..|schedules| - 1]);
    }
  }

  lemma NothingProducedRemoved(production: Production)
    ensures WithoutEpisodes(production, {}) == production
  {
    AllSchedulesRemain(production.schedules);
    assert WithoutEpisodes(production, {}).clips == production.clips;
    assert WithoutEpisodes(production, {}).captions == production.captions;
  }

  lemma NothingRemoved(s: State)
    ensures s.episodes.Keys == {} ==>
              && s.outlines - s.episodes.Keys == s.outlines && Remaining(s.briefs, s.episodes.Keys) == s.briefs
              && WithoutEpisodes(s.production, s.episodes.Keys) == s.production
  {
    NothingProducedRemoved(s.production);
  }

  lemma StillValid(episodes: map<Id, Episode>, e: Id)
    requires Distinct(NumbersOf(episodes))
    ensures Distinct(NumbersOf(Deleted(episodes, e)))
  {
    forall f, g ensures Unlike(NumbersOf(Deleted(episodes, e)), f, g) {
      assert Unlike(NumbersOf(episodes), f, g);
    }
  }

  lemma ReorderedAfterParking(before: map<Id, Episode>, payload: seq<Id>)
    requires (set e <- payload) == before.Keys
    ensures Reordered(payload).Keys == before.Keys
    ensures Assigning(WithNumbers(before, Parked(NumbersOf(before))), payload) ==
              WithNumbers(before, Reordered(payload))
  {
    forall e ensures e in payload <==> e in before {
      assert e in payload <==> e in (set f <- payload);
    }
  }
}
