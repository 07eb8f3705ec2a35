/** Every step on the episode plan keeps the invariant; a lock freezes the plan. */
module PlanSafety {
  import opened Wrappers
  import opened WorkflowRows
  import opened EpisodeNumbering
  import opened PlanSteps
  import opened BriefSteps
  import opened OutlineSteps
  import opened LaterSteps
  import opened WorkflowInvariant

  ghost predicate DistinctCast(episode: Episode) {
    episode.hostProfileId.Some? ==> episode.hostProfileId != episode.guestProfileId
  }

  /** What a change to an open plan owes one episode. */
  ghost predicate OpenEpisode(t: State, e: Id) {
    e in t.episodes ==>
      e < t.nextId && DistinctCast(t.episodes[e]) && t.episodes[e].status in {Planned, Outlined, ProfilesSet}
  }

  /** The series' gates stay as they are; the stage may go back to the plan or to discovery. */
  ghost predicate GatesStay(before: Series, after: Series) {
    && after.planLockedAt == before.planLockedAt && after.briefsApprovedAt == before.briefsApprovedAt
    && after.captionsUnlockedAt == before.captionsUnlockedAt
    && after.schedulingUnlockedAt == before.schedulingUnlockedAt
    && after.currentStage in {before.currentStage, DiscoveryStage, PlanStage}
  }

  lemma StillOpen(s: State, e: Id)
    requires Inv(s) && !Locked(s)
    ensures OpenEpisode(s, e)
  {
    OpenPlanHasNothing(s, e);
    assert EpisodeInv(s, e);
  }

  lemma OpenRows(s: State, t: State, e: Id)
    requires !Locked(s) && t.outlines == map[] && t.briefs == map[] && OpenEpisode(t, e)
    ensures EpisodeInv(t, e) && e !in ApprovedEpisodes(t) && EpisodeAdvances(s, t, e) && EntryKeepsBriefs(s, t, e)
  {
    if e in t.episodes {
      assert RowsOf(t, e) == EpisodeRows(t.episodes[e], None, None, None);
    }
  }

  lemma AllOpenRows(s: State, t: State)
    requires !Locked(s) && t.outlines == map[] && t.briefs == map[] && forall e :: OpenEpisode(t, e)
    ensures forall e :: EpisodeInv(t, e) && EpisodeAdvances(s, t, e) && EntryKeepsBriefs(s, t, e)
    ensures ApprovedEpisodes(t) == {}
  {
    forall e
      ensures EpisodeInv(t, e) && e !in ApprovedEpisodes(t) && EpisodeAdvances(s, t, e) && EntryKeepsBriefs(s, t, e)
    {
      assert OpenEpisode(t, e);
      OpenRows(s, t, e);
    }
  }

  lemma OpenPlanStepIsSound(s: State, t: State)
    requires Inv(s) && !Locked(s) && GatesStay(s.series, t.series)
    requires t.outlines == map[] && t.briefs == map[] && t.production == NOTHING
    requires NarrativesInv(t.narratives) && NarrativesAdvance(s.narratives, t.narratives)
    requires Lawful(NumbersOf(t.episodes)) && forall e :: OpenEpisode(t, e)
    ensures Sound(s, t)
  {
    OpenPlanHasNothing(s, 0);
    AllOpenRows(s, t);
    assert !AnyRecordingReady(t);
  }

  /** With nothing produced, deleting episodes takes nothing along. */
  lemma NothingToDelete(deleted: set<Id>)
    ensures WithoutEpisodes(NOTHING, deleted) == NOTHING
  {
    var rest := WithoutEpisodes(NOTHING, deleted);
    assert rest.media == map[] && rest.clips == map[] && rest.captions == map[];
  }

  // ----- who is cast -----

  /** A name resolves to a profile of the kind asked for, so a host's and a guest's differ. */
  lemma NamesOfDifferentKinds(library: Library, host: string, guest: string, nameKey: string -> string)
    ensures var id := ProfileByName(library, HostProfile, host, nameKey);
            id.Some? ==> id != ProfileByName(library, GuestProfile, guest, nameKey)
  {
  }

  lemma DraftedCast(draft: Draft, number: int, library: Library, planner: Planner)
    ensures DistinctCast(Drafted(draft, number, library, planner))
  {
    if draft.hostName.Some? && draft.guestName.Some? {
      NamesOfDifferentKinds(library, draft.hostName.value, draft.guestName.value, planner.nameKey);
    }
  }

  lemma SuggestedCast(episode: Episode, suggestions: seq<Suggestion>, library: Library, planner: Planner)
    requires DistinctCast(episode)
    ensures DistinctCast(Cast(episode, suggestions, library, planner))
    ensures Cast(episode, suggestions, library, planner) ==
            episode.(hostProfileId := Cast(episode, suggestions, library, planner).hostProfileId,
                     guestProfileId := Cast(episode, suggestions, library, planner).guestProfileId)
  {
    var suggestion := SuggestionFor(suggestions, episode.episodeNumber);
    if suggestion.Some? {
      NamesOfDifferentKinds(library, suggestion.value.hostName, suggestion.value.guestName, planner.nameKey);
    }
  }

  // ----- generating -----

  lemma {:induction false} DraftedCount(from: Id, drafts: seq<Draft>, library: Library, planner: Planner)
    ensures |DraftedEpisodes(from, drafts, library, planner)| == |drafts|
  {
    if drafts != [] {
      var k := |drafts| - 1;
      DraftedCount(from, drafts[..k], library, planner);
      DraftedStep(from, drafts, library, planner, k);
      assert drafts[..k + 1] == drafts && from + k !in DraftedEpisodes(from, drafts[..k], library, planner);
    }
  }

  lemma DraftedNumbers(from: Id, drafts: seq<Draft>, library: Library, planner: Planner)
    ensures Numbered(NumbersOf(DraftedEpisodes(from, drafts, library, planner)))
  {
    var episodes := DraftedEpisodes(from, drafts, library, planner);
    var numbers := NumbersOf(episodes);
    DraftedCount(from, drafts, library, planner);
    assert |numbers.Keys| == |episodes.Keys| == |drafts|;
    forall e <- numbers ensures numbers[e] == e - from + 1 {
      assert e in episodes && episodes[e] == DraftedAt(from, drafts, library, planner, e);
    }
    forall e, f ensures Unlike(numbers, e, f) {
    }
  }

  /** Generating happens after a selection: the narratives and the series' stage may have changed already. */
  ghost predicate Reselected(s: State, t: State) {
    && t == s.(series := t.series, narratives := t.narratives)
    && GatesStay(s.series, t.series)
    && NarrativesInv(t.narratives) && NarrativesAdvance(s.narratives, t.narratives)
  }

  lemma SameNumbers(episodes: map<Id, Episode>, after: map<Id, Episode>)
    requires after.Keys == episodes.Keys
    requires forall e <- episodes :: after[e].episodeNumber == episodes[e].episodeNumber
    ensures NumbersOf(after) == NumbersOf(episodes)
  {
  }

  lemma GeneratePlanIsSound(s: State, chosen: State, library: Library, planner: Planner, now: int)
    requires Inv(s) && !Locked(s) && Reselected(s, chosen) && GeneratePlan(chosen, library, planner, now).Ok?
    ensures var t := GeneratePlan(chosen, library, planner, now).value;
            Sound(s, t) && PlanNumbered(t)
  {
    var t := GeneratePlan(chosen, library, planner, now).value;
    var drafts := planner.plan.value;
    DraftedNumbers(s.nextId, drafts, library, planner);
    NothingToDelete(s.episodes.Keys);
    forall e: Id ensures OpenEpisode(t, e) {
      if e in t.episodes {
        DraftedCast(drafts[e - s.nextId], e - s.nextId + 1, library, planner);
      }
    }
    OpenPlanStepIsSound(s, t);
  }

  lemma SuggestProfilesIsSound(s: State, chosen: State, library: Library, planner: Planner)
    requires Inv(s) && !Locked(s) && Reselected(s, chosen) && SuggestProfiles(chosen, library, planner).Ok?
    ensures var t := SuggestProfiles(chosen, library, planner).value;
            Sound(s, t) && NumberingKept(s, t)
  {
    var t := SuggestProfiles(chosen, library, planner).value;
    forall e ensures OpenEpisode(t, e) {
      StillOpen(s, e);
      if e in s.episodes && Uncurated(s.episodes) {
        SuggestedCast(s.episodes[e], Casting(library, planner).value, library, planner);
      }
    }
    SameNumbers(s.episodes, t.episodes);
    OpenPlanStepIsSound(s, t);
  }

  lemma EnsureGeneratedPlanIsSound(s: State, chosen: State, library: Library, planner: Planner, now: int, replace: bool)
    requires Inv(s) && !Locked(s) && Reselected(s, chosen)
    requires EnsureGeneratedPlan(chosen, library, planner, now, replace).Ok?
    ensures var t := EnsureGeneratedPlan(chosen, library, planner, now, replace).value;
            Sound(s, t) && NumberingKept(s, t)
  {
    if s.episodes.Keys != {} && !replace {
      SuggestProfilesIsSound(s, chosen, library, planner);
    } else {
      GeneratePlanIsSound(s, chosen, library, planner, now);
    }
  }

  lemma GetPlanIsSound(s: State, library: Library, planner: Planner, now: int)
    requires Inv(s) && GetPlan(s, library, planner, now).Ok?
    ensures var t := GetPlan(s, library, planner, now).value;
            Sound(s, t) && NumberingKept(s, t)
  {
    if Locked(s) {
      Stutter(s);
    } else {
      EnsureGeneratedPlanIsSound(s, s, library, planner, now, false);
    }
  }

  // ----- editing -----

  lemma AddedNumber(s: State, title: string, premise: string)
    requires Inv(s) && AddEpisode(s, title, premise).Ok?
    ensures var t := AddEpisode(s, title, premise).value;
            Lawful(NumbersOf(t.episodes)) && (PlanNumbered(t) <==> PlanNumbered(s))
  {
    var t := AddEpisode(s, title, premise).value;
    var (before, after) := (NumbersOf(s.episodes), NumbersOf(t.episodes));
    assert EpisodeInv(s, s.nextId);
    assert |before.Keys| == |s.episodes.Keys|;
    assert after == before[s.nextId := |s.episodes| + 1];
    AppendedNumber(before, s.nextId);
  }

  lemma AddEpisodeIsSound(s: State, title: string, premise: string)
    requires Inv(s) && AddEpisode(s, title, premise).Ok?
    ensures var t := AddEpisode(s, title, premise).value;
            Sound(s, t) && (PlanNumbered(t) <==> PlanNumbered(s))
  {
    var t := AddEpisode(s, title, premise).value;
    AddedNumber(s, title, premise);
    forall e ensures OpenEpisode(t, e) {
      StillOpen(s, e);
    }
    OpenPlanStepIsSound(s, t);
  }

  /** An addition fails for the number it would take exactly when a number was left out before. */
  lemma AdditionFits(s: State, title: string, premise: string)
    requires Inv(s) && PlanNumbered(s)
    ensures AddEpisode(s, title, premise) != Err(ServerError)
  {
    assert |NumbersOf(s.episodes).Keys| == |s.episodes.Keys|;
    forall e <- s.episodes ensures s.episodes[e].episodeNumber <= |s.episodes| {
      assert e in NumbersOf(s.episodes);
    }
  }

  lemma EpisodeWriteIsSound(s: State, e: Id, episode: Episode)
    requires Inv(s) && !Locked(s) && e in s.episodes && DistinctCast(episode)
    requires episode.episodeNumber == s.episodes[e].episodeNumber && episode.status == s.episodes[e].status
    ensures var t := s.(episodes := s.episodes[e := episode]);
            Sound(s, t) && NumberingKept(s, t)
  {
    var t := s.(episodes := s.episodes[e := episode]);
    forall f ensures OpenEpisode(t, f) {
      StillOpen(s, f);
    }
    SameNumbers(s.episodes, t.episodes);
    OpenPlanStepIsSound(s, t);
  }

  lemma UpdateEpisodeIsSound(s: State, e: Id, title: Change<string>, premise: Change<string>)
    requires Inv(s) && UpdateEpisode(s, e, title, premise).Ok?
    ensures var t := UpdateEpisode(s, e, title, premise).value;
            Sound(s, t) && NumberingKept(s, t)
  {
    assert EpisodeInv(s, e);
    EpisodeWriteIsSound(s, e, UpdateEpisode(s, e, title, premise).value.episodes[e]);
  }

  lemma AssignProfilesIsSound(s: State, e: Id, host: Change<Option<Id>>, guest: Change<Option<Id>>,
                              override: Change<Option<string>>, library: Library)
    requires Inv(s) && AssignProfiles(s, e, host, guest, override, library).Ok?
    ensures var t := AssignProfiles(s, e, host, guest, override, library).value;
            Sound(s, t) && NumberingKept(s, t)
  {
    EpisodeWriteIsSound(s, e, AssignProfiles(s, e, host, guest, override, library).value.episodes[e]);
  }

  /** The episodes in `kept` take new numbers, the others go. */
  lemma RenumberingIsSound(s: State, t: State, kept: map<Id, Episode>, numbers: Numbers)
    requires Inv(s) && !Locked(s) && numbers.Keys == kept.Keys && Lawful(numbers)
    requires t == s.(episodes := WithNumbers(kept, numbers))
    requires forall e <- kept :: e in s.episodes && kept[e] == s.episodes[e]
    ensures Sound(s, t) && (PlanNumbered(t) <==> Numbered(numbers))
  {
    assert NumbersOf(t.episodes) == numbers;
    forall e ensures OpenEpisode(t, e) {
      StillOpen(s, e);
    }
    OpenPlanStepIsSound(s, t);
  }

  ghost function RestRenumbered(episodes: map<Id, Episode>, e: Id): map<Id, Episode> {
    WithNumbers(Deleted(episodes, e), Renumbered(NumbersOf(Deleted(episodes, e))))
  }

  lemma DeletedNumbers(episodes: map<Id, Episode>, e: Id)
    ensures NumbersOf(Deleted(episodes, e)) == Without(NumbersOf(episodes), e)
  {
  }

  lemma RestNumbers(episodes: map<Id, Episode>, e: Id)
    requires Lawful(NumbersOf(episodes))
    ensures Numbered(Renumbered(NumbersOf(Deleted(episodes, e))))
  {
    DeletedNumbers(episodes, e);
    forall f, g ensures Unlike(NumbersOf(Deleted(episodes, e)), f, g) {
      assert Unlike(NumbersOf(episodes), f, g);
    }
    RenumberingNumbers(NumbersOf(Deleted(episodes, e)));
  }

  lemma RemovedTables(s: State, e: Id)
    requires LockInv(s) && RemoveEpisode(s, e).Ok?
    ensures RemoveEpisode(s, e).value == s.(episodes := RestRenumbered(s.episodes, e))
    ensures !Locked(s) && e in s.episodes
  {
    NothingToDelete({e});
  }

  /** Whatever the numbers were, a removal leaves 1..n. */
  lemma RemoveEpisodeIsSound(s: State, e: Id)
    requires Inv(s) && RemoveEpisode(s, e).Ok?
    ensures var t := RemoveEpisode(s, e).value;
            Sound(s, t) && PlanNumbered(t)
  {
    RemovedTables(s, e);
    RestNumbers(s.episodes, e);
    var rest := Deleted(s.episodes, e);
    RenumberingIsSound(s, s.(episodes := RestRenumbered(s.episodes, e)), rest, Renumbered(NumbersOf(rest)));
  }

  function MovedUp(episode: Episode, past: int): Episode {
    episode.(episodeNumber := if episode.episodeNumber > past then episode.episodeNumber - 1 else episode.episodeNumber)
  }

  lemma RestMovesUp(episodes: map<Id, Episode>, e: Id, f: Id)
    requires Numbered(NumbersOf(episodes)) && e in episodes && f in episodes && f != e
    ensures f in RestRenumbered(episodes, e)
    ensures RestRenumbered(episodes, e)[f] == MovedUp(episodes[f], episodes[e].episodeNumber)
  {
    DeletedNumbers(episodes, e);
    RankAfterRemoval(NumbersOf(episodes), e, f);
  }

  /** Removing an episode of a plan numbered 1..n moves those after it up by one and leaves those before it. */
  lemma RemovalKeepsOrder(s: State, e: Id, f: Id)
    requires Inv(s) && PlanNumbered(s) && RemoveEpisode(s, e).Ok? && f in s.episodes && f != e
    ensures var t := RemoveEpisode(s, e).value;
            f in t.episodes && e !in t.episodes && t.episodes[f] == MovedUp(s.episodes[f], s.episodes[e].episodeNumber)
  {
    RemovedTables(s, e);
    RestMovesUp(s.episodes, e, f);
  }

  lemma ReorderedTables(s: State, ids: seq<Id>)
    requires ReorderEpisodes(s, ids).Ok?
    ensures Reordered(ids).Keys == s.episodes.Keys && forall e :: e in ids <==> e in s.episodes
    ensures ReorderEpisodes(s, ids).value == s.(episodes := WithNumbers(s.episodes, Reordered(ids)))
    ensures Numbered(Reordered(ids)) <==> NoRepeats(ids)
  {
    assert forall e :: e in ids <==> e in (set e <- ids);
    ReorderNumbers(s.episodes.Keys, ids);
  }

  /** The comparison of sets lets repeated ids through, and exactly they leave a plan not numbered 1..n. */
  lemma ReorderNeedsDistinctIds(s: State, ids: seq<Id>)
    requires ReorderEpisodes(s, ids).Ok?
    ensures PlanNumbered(ReorderEpisodes(s, ids).value) <==> NoRepeats(ids)
  {
    ReorderedTables(s, ids);
    assert NumbersOf(ReorderEpisodes(s, ids).value.episodes) == Reordered(ids);
  }

  /** Everything else a reorder keeps, whatever its payload. */
  lemma ReorderIsSound(s: State, ids: seq<Id>)
    requires Inv(s) && ReorderEpisodes(s, ids).Ok?
    ensures Sound(s, ReorderEpisodes(s, ids).value)
  {
    ReorderedTables(s, ids);
    ReorderedLawful(ids);
    RenumberingIsSound(s, ReorderEpisodes(s, ids).value, s.episodes, Reordered(ids));
  }

  // ----- locking -----

  lemma NewOutlineInv(episode: Episode, markdown: string)
    ensures OutlineInv(NewOutline(episode, markdown))
  {
  }

  lemma LockedRows(s: State, t: State, e: Id, markdown: string)
    requires Inv(s) && !Locked(s) && e in s.episodes && e in t.episodes && t.nextId == s.nextId && t.briefs == map[]
    requires Row(t.outlines, e) == Some(NewOutline(s.episodes[e], markdown))
    requires t.episodes[e] == OnLock(s.episodes[e])
    ensures EpisodeInv(t, e) && e !in ApprovedEpisodes(t) && EpisodeAdvances(s, t, e) && EntryKeepsBriefs(s, t, e)
  {
    StillOpen(s, e);
    assert EpisodeInv(s, e);
    NewOutlineInv(s.episodes[e], markdown);
  }

  /** The tables right after a lock; only outlines have been added. */
  ghost predicate JustLocked(s: State, t: State, texts: Id -> string) {
    && !Locked(s) && Locked(t) && s.outlines == map[] && t.briefs == map[]
    && t == s.(series := t.series, episodes := LockedEpisodes(s.episodes),
               outlines := WithMissing(s.outlines, s.episodes, texts))
  }

  lemma AllLockedRows(s: State, t: State, texts: Id -> string)
    requires Inv(s) && JustLocked(s, t, texts)
    ensures forall e :: EpisodeInv(t, e) && EpisodeAdvances(s, t, e) && EntryKeepsBriefs(s, t, e)
    ensures ApprovedEpisodes(t) == {}
  {
    forall e
      ensures EpisodeInv(t, e) && e !in ApprovedEpisodes(t) && EpisodeAdvances(s, t, e) && EntryKeepsBriefs(s, t, e)
    {
      if e in s.episodes {
        LockedRows(s, t, e, texts(e));
      }
    }
  }

  lemma LockedTables(s: State, t: State, texts: Id -> string)
    requires JustLocked(s, t, texts)
    ensures t.outlines.Keys == t.episodes.Keys == s.episodes.Keys && NumbersOf(t.episodes) == NumbersOf(s.episodes)
    ensures t.narratives == s.narratives
  {
    SameNumbers(s.episodes, LockedEpisodes(s.episodes));
  }

  lemma LockIsSound(s: State, t: State)
    requires Inv(s) && !Locked(s) && Locked(t) && t.briefs == map[] && t.narratives == s.narratives
    requires FindSelected(s.narratives, false).Some? && ApprovedEpisodes(t) == {} && t.production == s.production
    requires t.outlines.Keys == t.episodes.Keys && NumbersOf(t.episodes) == NumbersOf(s.episodes)
    requires t.series.briefsApprovedAt == s.series.briefsApprovedAt && t.series.currentStage == OutlinesStage
    requires t.series.captionsUnlockedAt == s.series.captionsUnlockedAt
    requires t.series.schedulingUnlockedAt == s.series.schedulingUnlockedAt
    requires forall e :: EpisodeInv(t, e) && EpisodeAdvances(s, t, e) && EntryKeepsBriefs(s, t, e)
    ensures Sound(s, t)
  {
    OpenPlanHasNothing(s, 0);
    assert !AnyRecordingReady(t);
  }

  lemma LockPlanIsSound(s: State, library: Library, texts: Id -> string, now: int)
    requires Inv(s) && LockPlan(s, library, texts, now).Ok?
    ensures var t := LockPlan(s, library, texts, now).value;
            Sound(s, t) && NumberingKept(s, t)
  {
    var t := LockPlan(s, library, texts, now).value;
    AllLockedRows(s, t, texts);
    LockedTables(s, t, texts);
    LockIsSound(s, t);
  }

  /** A lock covers every episode: outlined from its own title, cast with a named host and guest. */
  lemma LockedPlanIsComplete(s: State, library: Library, texts: Id -> string, now: int, e: Id)
    requires Inv(s) && LockPlan(s, library, texts, now).Ok? && e in s.episodes
    ensures var t := LockPlan(s, library, texts, now).value;
            && Locked(t) && e in t.outlines && t.outlines[e] == NewOutline(s.episodes[e], texts(e))
            && SamePlan(s.episodes[e], t.episodes[e])
            && Named(library, t.episodes[e].hostProfileId) && Named(library, t.episodes[e].guestProfileId)
            && t.episodes[e].hostProfileId != t.episodes[e].guestProfileId
  {
    assert EpisodeInv(s, e);
  }
}
