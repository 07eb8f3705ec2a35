/**
 When each command on narratives and the episode plan succeeds, which error refuses it otherwise, and what it
 writes, said of the rows and the arguments alone.
 */
module PlanOutcomes {
  import opened Wrappers
  import opened WorkflowRows
  import opened PlanSteps
  import opened NarrativeSteps
  import opened WorkflowInvariant
  import OutlineSteps

  // ----- what the guards look at -----

  predicate WasSelected(s: State, n: Id) {
    n < |s.narratives| && s.narratives[n].isSelected
  }

  ghost predicate Open(s: State) {
    (exists n: Id :: WasSelected(s, n)) && s.series.planLockedAt.None?
  }

  predicate Frozen(episode: Episode) {
    episode.status in {Recorded, Captioning, Scheduled, PartiallyPublished, Published}
  }

  predicate AnyFrozen(s: State) {
    exists e <- s.episodes :: Frozen(s.episodes[e])
  }

  lemma OpenExactly(s: State)
    ensures OpenPlan(s) == if Open(s) then Ok(()) else Err(Conflict)
    ensures AnyRecorded(s.episodes) <==> AnyFrozen(s)
  {
    var found := FindSelected(s.narratives, false);
    if found.Some? {
      assert WasSelected(s, found.value);
    }
    if n: Id :| WasSelected(s, n) {
      assert IsSelected(s.narratives[n], false);
    }
  }

  // ----- names and profiles -----

  predicate Offers(profile: Profile, kind: ProfileKind, name: string, nameKey: string -> string) {
    profile.isActive && profile.kind == kind && nameKey(profile.name) == nameKey(name)
  }

  /** `id` is the last profile listed under that name, or there is none. */
  ghost predicate StandsFor(id: Option<Id>, profiles: seq<Profile>, kind: ProfileKind, name: string,
                            nameKey: string -> string)
  {
    match id
    case None => forall p <- profiles :: !Offers(p, kind, name, nameKey)
    case Some(p) =>
      exists i :: 0 <= i < |profiles| && profiles[i].id == p && Offers(profiles[i], kind, name, nameKey)
                  && forall j | i < j < |profiles| :: !Offers(profiles[j], kind, name, nameKey)
  }

  lemma {:induction false} NameStandsFor(profiles: seq<Profile>, kind: ProfileKind, name: string,
                                         nameKey: string -> string)
    ensures StandsFor(ProfileByName(profiles, kind, name, nameKey), profiles, kind, name, nameKey)
  {
    if profiles != [] {
      var (init, last) := (profiles[..|profiles| - 1], profiles[|profiles| - 1]);
      NameStandsFor(init, kind, name, nameKey);
      assert profiles == init + [last];
    }
  }

  ghost predicate CastAs(id: Option<Id>, library: Library, kind: ProfileKind, name: Option<string>, planner: Planner) {
    if name.None? then id.None? else StandsFor(id, library, kind, name.value, planner.nameKey)
  }

  lemma NameCastAs(library: Library, kind: ProfileKind, name: Option<string>, planner: Planner)
    ensures CastAs(ByName(library, kind, name, planner), library, kind, name, planner)
  {
    if name.Some? {
      NameStandsFor(library, kind, name.value, planner.nameKey);
    }
  }

  // ----- generating a plan -----

  ghost predicate FromDraft(episode: Episode, draft: Draft, number: int, library: Library, planner: Planner) {
    && episode.episodeNumber == number && episode.title == draft.title && episode.premise == draft.premise
    && episode.status == Planned && episode.guestNameOverride == None
    && CastAs(episode.hostProfileId, library, HostProfile, draft.hostName, planner)
    && CastAs(episode.guestProfileId, library, GuestProfile, draft.guestName, planner)
  }

  /** The rows of other tables go with the episodes they belong to, and no others go. */
  ghost predicate Cascaded(s: State, t: State, deleted: set<Id>) {
    && (forall e :: Row(t.outlines, e) == if e in deleted then None else Row(s.outlines, e))
    && (forall k :: Row(t.briefs, k) == if k.0 in deleted then None else Row(s.briefs, k))
    && (forall e :: Row(t.production.media, e) == if e in deleted then None else Row(s.production.media, e))
    && (forall k :: Row(t.production.clips, k) == if k.0 in deleted then None else Row(s.production.clips, k))
    && (forall k :: Row(t.production.captions, k) ==
                    if k.episode in deleted then None else Row(s.production.captions, k))
    && (forall x :: x in t.production.schedules <==>
                    x in s.production.schedules && x.caption.episode !in deleted)
  }

  lemma {:induction false} SchedulesLeft(schedules: seq<Schedule>, deleted: set<Id>, x: Schedule)
    ensures x in RemainingSchedules(schedules, deleted) <==> x in schedules && x.caption.episode !in deleted
  {
    if schedules != [] {
      var (init, last) := (schedules[..|schedules| - 1], schedules[|schedules| - 1]);
      SchedulesLeft(init, deleted, x);
      assert schedules == init + [last];
    }
  }

  lemma DeletionCascades(s: State, t: State, deleted: set<Id>)
    requires t.outlines == s.outlines - deleted && t.briefs == Remaining(s.briefs, deleted)
    requires t.production == WithoutEpisodes(s.production, deleted)
    ensures Cascaded(s, t, deleted)
  {
    forall x
      ensures x in t.production.schedules <==> x in s.production.schedules && x.caption.episode !in deleted
    {
      SchedulesLeft(s.production.schedules, deleted, x);
    }
  }

  /** The drafts have become the plan, with new ids, and everything of the old plan is gone. */
  ghost predicate Replanned(s: State, t: State, drafts: seq<Draft>, library: Library, planner: Planner, now: int) {
    && (forall e :: e in t.episodes <==> s.nextId <= e < s.nextId + |drafts|)
    && (forall i | 0 <= i < |drafts| :: FromDraft(t.episodes[s.nextId + i], drafts[i], i + 1, library, planner))
    && Cascaded(s, t, s.episodes.Keys)
    && t.nextId == s.nextId + |drafts|
    && t.series == s.series.(episodePlanGeneratedAt := Some(now))
    && t.narratives == s.narratives && t.ledger == s.ledger
  }

  lemma Generated(s: State, library: Library, planner: Planner, now: int)
    requires !AnyRecorded(s.episodes) && planner.plan.Some?
    ensures var r := GeneratePlan(s, library, planner, now);
            r.Ok? && Replanned(s, r.value, planner.plan.value, library, planner, now)
  {
    var (t, drafts) := (GeneratePlan(s, library, planner, now).value, planner.plan.value);
    forall i | 0 <= i < |drafts| ensures FromDraft(t.episodes[s.nextId + i], drafts[i], i + 1, library, planner) {
      assert t.episodes[s.nextId + i] == DraftedAt(s.nextId, drafts, library, planner, s.nextId + i);
      NameCastAs(library, HostProfile, drafts[i].hostName, planner);
      NameCastAs(library, GuestProfile, drafts[i].guestName, planner);
    }
    DeletionCascades(s, t, s.episodes.Keys);
  }

  // ----- casting a plan nobody has touched -----

  predicate Touched(episode: Episode) {
    || episode.hostProfileId.Some? || episode.guestProfileId.Some?
    || (episode.guestNameOverride.Some? && episode.guestNameOverride.value != "")
  }

  predicate Castable(library: Library) {
    && (exists p <- library :: p.isActive && p.kind == HostProfile)
    && (exists p <- library :: p.isActive && p.kind == GuestProfile)
  }

  predicate AwaitsCasting(s: State, library: Library) {
    (forall e <- s.episodes :: !Touched(s.episodes[e])) && Castable(library)
  }

  predicate LastFor(suggestions: seq<Suggestion>, number: int, i: nat) {
    && i < |suggestions| && suggestions[i].episodeNumber == number
    && forall j | i < j < |suggestions| :: suggestions[j].episodeNumber != number
  }

  /** The last suggestion for an episode's number casts it; without one it stays. */
  ghost predicate Suggested(before: Episode, after: Episode, suggestions: seq<Suggestion>, library: Library,
                            planner: Planner)
  {
    && after == before.(hostProfileId := after.hostProfileId, guestProfileId := after.guestProfileId)
    && ((forall i | 0 <= i < |suggestions| :: suggestions[i].episodeNumber != before.episodeNumber) ==> after == before)
    && forall i: nat | LastFor(suggestions, before.episodeNumber, i) ::
         && StandsFor(after.hostProfileId, library, HostProfile, suggestions[i].hostName, planner.nameKey)
         && StandsFor(after.guestProfileId, library, GuestProfile, suggestions[i].guestName, planner.nameKey)
  }

  lemma {:induction false} LastSuggestion(suggestions: seq<Suggestion>, number: int, i: nat)
    requires LastFor(suggestions, number, i)
    ensures SuggestionFor(suggestions, number) == Some(suggestions[i])
  {
    if i < |suggestions| - 1 {
      LastSuggestion(suggestions[..|suggestions| - 1], number, i);
    }
  }

  lemma {:induction false} NoSuggestion(suggestions: seq<Suggestion>, number: int)
    requires forall i | 0 <= i < |suggestions| :: suggestions[i].episodeNumber != number
    ensures SuggestionFor(suggestions, number).None?
  {
    if suggestions != [] {
      NoSuggestion(suggestions[..|suggestions| - 1], number);
    }
  }

  lemma CastBySuggestion(episode: Episode, suggestions: seq<Suggestion>, library: Library, planner: Planner)
    ensures Suggested(episode, Cast(episode, suggestions, library, planner), suggestions, library, planner)
  {
    var (number, key) := (episode.episodeNumber, planner.nameKey);
    if forall i | 0 <= i < |suggestions| :: suggestions[i].episodeNumber != number {
      NoSuggestion(suggestions, number);
    }
    forall i: nat | LastFor(suggestions, number, i)
      ensures SuggestionFor(suggestions, number) == Some(suggestions[i])
      ensures var (host, guest) := (suggestions[i].hostName, suggestions[i].guestName);
              && StandsFor(ProfileByName(library, HostProfile, host, key), library, HostProfile, host, key)
              && StandsFor(ProfileByName(library, GuestProfile, guest, key), library, GuestProfile, guest, key)
    {
      LastSuggestion(suggestions, number, i);
      NameStandsFor(library, HostProfile, suggestions[i].hostName, key);
      NameStandsFor(library, GuestProfile, suggestions[i].guestName, key);
    }
  }

  /** The episodes stay; only an untouched plan is cast. */
  ghost predicate PlanKept(s: State, t: State, library: Library, planner: Planner) {
    && t == s.(episodes := t.episodes) && t.episodes.Keys == s.episodes.Keys
    && if AwaitsCasting(s, library) then
         && planner.casting.Some?
         && forall e <- s.episodes :: Suggested(s.episodes[e], t.episodes[e], planner.casting.value, library, planner)
       else t.episodes == s.episodes
  }

  lemma UncuratedExactly(episodes: map<Id, Episode>)
    ensures Uncurated(episodes) <==> forall e <- episodes :: !Touched(episodes[e])
  {
  }

  lemma SuggestedProfiles(s: State, library: Library, planner: Planner)
    ensures var r := SuggestProfiles(s, library, planner);
            if AwaitsCasting(s, library) && planner.casting.None? then r == Err(BadGateway)
            else r.Ok? && PlanKept(s, r.value, library, planner)
  {
    UncuratedExactly(s.episodes);
    if AwaitsCasting(s, library) && planner.casting.Some? {
      var suggestions := planner.casting.value;
      forall e <- s.episodes
        ensures Suggested(s.episodes[e], CastAll(s.episodes, suggestions, library, planner)[e], suggestions, library,
                          planner)
      {
        CastBySuggestion(s.episodes[e], suggestions, library, planner);
      }
    } else if Uncurated(s.episodes) {
      assert CastAll(s.episodes, [], library, planner) == s.episodes;
    }
  }

  /** A locked plan is left alone, a missing or replaced one is generated, any other one kept. */
  ghost predicate PlanEnsured(s: State, library: Library, planner: Planner, now: int, replace: bool,
                              r: Result<State, HttpError>)
  {
    if s.series.planLockedAt.Some? then r == Ok(s)
    else if s.episodes == map[] || replace then
      if AnyFrozen(s) then r == Err(Conflict)
      else if planner.plan.None? then r == Err(BadGateway)
      else r.Ok? && Replanned(s, r.value, planner.plan.value, library, planner, now)
    else if AwaitsCasting(s, library) && planner.casting.None? then r == Err(BadGateway)
    else r.Ok? && PlanKept(s, r.value, library, planner)
  }

  lemma EnsuringOutcome(s: State, library: Library, planner: Planner, now: int, replace: bool)
    ensures PlanEnsured(s, library, planner, now, replace, EnsureGeneratedPlan(s, library, planner, now, replace))
  {
    OpenExactly(s);
    SuggestedProfiles(s, library, planner);
    assert s.episodes == map[] <==> s.episodes.Keys == {};
    if !AnyRecorded(s.episodes) && planner.plan.Some? {
      Generated(s, library, planner, now);
    }
  }

  lemma GetPlanOutcome(s: State, library: Library, planner: Planner, now: int)
    ensures var r := GetPlan(s, library, planner, now);
            if exists n: Id :: WasSelected(s, n) then PlanEnsured(s, library, planner, now, false, r)
            else r == Err(Conflict)
  {
    EnsuringOutcome(s, library, planner, now, false);
    var found := FindSelected(s.narratives, false);
    if found.Some? {
      assert WasSelected(s, found.value);
    }
    if n: Id :| WasSelected(s, n) {
      assert IsSelected(s.narratives[n], false);
    }
  }

  // ----- selecting a narrative -----

  /** The chosen narrative is selected, every other one that is not retired is a candidate again. */
  predicate ChosenFrom(s: State, c: State, n: Id, now: int) {
    && c == s.(series := s.series.(currentStage := PlanStage, status := Planning, discoveryStatus := DiscoveryComplete),
               narratives := c.narratives)
    && |c.narratives| == |s.narratives|
    && forall i | 0 <= i < |s.narratives| :: c.narratives[i] ==
         if i == n then Narrative(s.narratives[i].generation, Selected, true, Some(now))
         else if s.narratives[i].status == Retired then s.narratives[i]
         else Narrative(s.narratives[i].generation, Candidate, false, None)
  }

  ghost predicate OtherSelected(s: State, n: Id) {
    exists m: Id :: m != n && WasSelected(s, m)
  }

  lemma SelectionOutcome(s: State, n: Id, library: Library, planner: Planner, now: int)
    requires NarrativesInv(s.narratives)
    ensures var r := SelectNarrative(s, n, library, planner, now);
            if n >= |s.narratives| then r == Err(NotFound)
            else if s.series.planLockedAt.Some? && !s.narratives[n].isSelected then r == Err(Conflict)
            else exists c :: ChosenFrom(s, c, n, now) && PlanEnsured(c, library, planner, now, OtherSelected(s, n), r)
  {
    var previous := FindSelected(s.narratives, true);
    if previous.Some? {
      assert WasSelected(s, previous.value);
    }
    assert forall m: Id | WasSelected(s, m) :: IsSelected(s.narratives[m], true);
    if n < |s.narratives| {
      assert previous == Some(n) <==> s.narratives[n].isSelected;
      assert previous.Some? && previous != Some(n) <==> OtherSelected(s, n);
      var c := s.(series := s.series.(currentStage := PlanStage, status := Planning,
                                      discoveryStatus := DiscoveryComplete),
                  narratives := Choose(s.narratives, n, now));
      assert ChosenFrom(s, c, n, now);
      EnsuringOutcome(c, library, planner, now, OtherSelected(s, n));
    }
  }

  /** The plan consists of the drafts, in order, with new ids and the drafts' own texts. */
  ghost predicate NewPlan(t: State, from: Id, drafts: seq<Draft>) {
    && (forall e :: e in t.episodes <==> from <= e < from + |drafts|)
    && forall i | 0 <= i < |drafts| ::
         && t.episodes[from + i].episodeNumber == i + 1
         && t.episodes[from + i].title == drafts[i].title && t.episodes[from + i].premise == drafts[i].premise
  }

  lemma ReplannedIsNew(s: State, t: State, drafts: seq<Draft>, library: Library, planner: Planner, now: int)
    requires Replanned(s, t, drafts, library, planner, now)
    ensures NewPlan(t, s.nextId, drafts)
  {
    forall i | 0 <= i < |drafts| ensures FromDraft(t.episodes[s.nextId + i], drafts[i], i + 1, library, planner) {
    }
  }

  /** Selecting another narrative drops the abandoned one's plan and drafts a new one. */
  lemma SelectionReplacesPlan(s: State, n: Id, library: Library, planner: Planner, now: int)
    requires Inv(s) && s.series.planLockedAt.None? && OtherSelected(s, n)
    requires SelectNarrative(s, n, library, planner, now).Ok?
    ensures planner.plan.Some?
    ensures var t := SelectNarrative(s, n, library, planner, now).value;
            && NewPlan(t, s.nextId, planner.plan.value) && (forall e <- s.episodes :: e !in t.episodes)
            && t.nextId == s.nextId + |planner.plan.value| && t.series.episodePlanGeneratedAt == Some(now)
  {
    SelectionOutcome(s, n, library, planner, now);
    var t := SelectNarrative(s, n, library, planner, now).value;
    var c :| ChosenFrom(s, c, n, now) && Replanned(c, t, planner.plan.value, library, planner, now);
    ReplannedIsNew(c, t, planner.plan.value, library, planner, now);
    forall e <- s.episodes ensures e < s.nextId {
      assert EpisodeInv(s, e);
    }
  }

  /** Selecting the same narrative again, or the first one, keeps the episodes there are. */
  lemma SelectionKeepsPlan(s: State, n: Id, library: Library, planner: Planner, now: int)
    requires NarrativesInv(s.narratives) && s.episodes != map[] && !OtherSelected(s, n)
    requires SelectNarrative(s, n, library, planner, now).Ok?
    ensures var t := SelectNarrative(s, n, library, planner, now).value;
            && t.episodes.Keys == s.episodes.Keys
            && (forall e <- s.episodes ::
                  && t.episodes[e].episodeNumber == s.episodes[e].episodeNumber
                  && t.episodes[e].title == s.episodes[e].title && t.episodes[e].premise == s.episodes[e].premise
                  && t.episodes[e].status == s.episodes[e].status)
            && ((exists e <- s.episodes :: Touched(s.episodes[e])) ==> t.episodes == s.episodes)
            && t.outlines == s.outlines && t.briefs == s.briefs && t.production == s.production
            && t.nextId == s.nextId && t.series.episodePlanGeneratedAt == s.series.episodePlanGeneratedAt
  {
    SelectionOutcome(s, n, library, planner, now);
    var t := SelectNarrative(s, n, library, planner, now).value;
    var c :| ChosenFrom(s, c, n, now) && PlanEnsured(c, library, planner, now, false, Ok(t));
  }

  // ----- discovery -----

  /** Unselected candidates retire, and three candidates of the next generation join. */
  ghost predicate Regenerated(before: seq<Narrative>, after: seq<Narrative>) {
    && |after| == |before| + 3
    && (forall i | 0 <= i < |before| :: after[i] ==
          if before[i].status == Candidate && !before[i].isSelected
          then Narrative(before[i].generation, Retired, false, before[i].selectedAt) else before[i])
    && exists g :: && (forall j | |before| <= j < |after| :: after[j] == Narrative(g, Candidate, false, None))
                   && NextGeneration(before, g)
  }

  ghost predicate NextGeneration(before: seq<Narrative>, g: int) {
    && (forall i | 0 <= i < |before| :: before[i].generation < g)
    && (g == 1 || exists i | 0 <= i < |before| :: before[i].generation == g - 1)
  }

  lemma {:induction false} GreatestIsNext(narratives: seq<Narrative>)
    ensures NextGeneration(narratives, GreatestGeneration(narratives) + 1)
  {
    if narratives != [] {
      var (init, last) := (narratives[..|narratives| - 1], narratives[|narratives| - 1]);
      GreatestIsNext(init);
      assert narratives == init + [last];
      if GreatestGeneration(narratives) > 0 && last.generation <= GreatestGeneration(init) {
        var i :| 0 <= i < |init| && init[i].generation == GreatestGeneration(init);
        assert narratives[i].generation == GreatestGeneration(narratives);
      }
    }
  }

  lemma RegenerationOutcome(narratives: seq<Narrative>)
    ensures Regenerated(narratives, WithCandidates(RetireCandidates(narratives)))
  {
    var retired := RetireCandidates(narratives);
    GreatestIsNext(retired);
    var g := GreatestGeneration(retired) + 1;
    if g != 1 {
      var i :| 0 <= i < |retired| && retired[i].generation == g - 1;
      assert narratives[i].generation == g - 1;
    }
    forall i | 0 <= i < |narratives| ensures narratives[i].generation < g {
      assert retired[i].generation < g;
    }
    assert NextGeneration(narratives, g);
  }

  lemma DiscoveryOutcome(s: State, documents: nat)
    requires NarrativesInv(s.narratives)
    ensures var r := RunDiscovery(s, documents);
            if exists n: Id :: WasSelected(s, n) then r == Err(Conflict)
            else if documents == 0 then
              r == Ok(s.(series := s.series.(discoveryStatus := DiscoveryFailed, status := Researching)))
            else
              && r.Ok?
              && r.value == s.(series := r.value.series, ledger := r.value.ledger, narratives := r.value.narratives)
              && r.value.series == s.series.(discoveryStatus := DiscoveryComplete, currentStage := DiscoveryStage,
                                             status := Researching)
              && r.value.ledger == (if documents > 5 then 5 else documents)
              && Regenerated(s.narratives, r.value.narratives)
  {
    var found := FindSelected(s.narratives, true);
    if found.Some? {
      assert WasSelected(s, found.value);
    }
    assert forall m: Id | WasSelected(s, m) :: IsSelected(s.narratives[m], true);
    RegenerationOutcome(s.narratives);
  }

  lemma RegenerateOutcome(s: State)
    ensures var r := RegenerateNarratives(s);
            if s.ledger == 0 then r == Err(Conflict)
            else r.Ok? && r.value == s.(narratives := r.value.narratives)
                 && Regenerated(s.narratives, r.value.narratives)
  {
    RegenerationOutcome(s.narratives);
  }

  // ----- editing an open plan -----

  lemma AddOutcome(s: State, title: string, premise: string)
    ensures var r := AddEpisode(s, title, premise);
            if !Open(s) then r == Err(Conflict)
            else if exists e <- s.episodes :: s.episodes[e].episodeNumber == |s.episodes| + 1 then r == Err(ServerError)
            else
              && r.Ok? && r.value == s.(episodes := r.value.episodes, nextId := s.nextId + 1)
              && r.value.episodes == s.episodes[s.nextId :=
                                                Episode(|s.episodes| + 1, title, premise, Planned, None, None,
                                                                    None)]
  {
    OpenExactly(s);
  }

  /** Editing one episode is refused in this order, or else only that episode changes. */
  ghost predicate Edited(s: State, e: Id, r: Result<State, HttpError>) {
    if !Open(s) then r == Err(Conflict)
    else if e !in s.episodes then r == Err(NotFound)
    else if Frozen(s.episodes[e]) then r == Err(Conflict)
    else
      r.Ok? ==> && e in r.value.episodes
                && r.value == s.(episodes := s.episodes[e := r.value.episodes[e]])
                && r.value.episodes[e].episodeNumber == s.episodes[e].episodeNumber
                && r.value.episodes[e].status == s.episodes[e].status
  }

  ghost predicate Editable(s: State, e: Id) {
    Open(s) && e in s.episodes && !Frozen(s.episodes[e])
  }

  lemma UpdateOutcome(s: State, e: Id, title: Change<string>, premise: Change<string>)
    ensures var r := UpdateEpisode(s, e, title, premise);
            && Edited(s, e, r) && (Editable(s, e) ==> r.Ok?)
            && (r.Ok? ==>
                  var (before, after) := (s.episodes[e], r.value.episodes[e]);
                  && (title == Keep ==> after.title == before.title)
                  && (title.SetTo? ==> after.title == title.value)
                  && (premise == Keep ==> after.premise == before.premise)
                  && (premise.SetTo? ==> after.premise == premise.value)
                  && after.hostProfileId == before.hostProfileId && after.guestProfileId == before.guestProfileId
                  && after.guestNameOverride == before.guestNameOverride)
  {
    OpenExactly(s);
  }

  /** The change names a profile that is not there, or not active. */
  predicate Missing(change: Change<Option<Id>>, library: Library) {
    change.SetTo? && change.value.Some? && forall p <- library :: p.isActive ==> p.id != change.value.value
  }

  /** The change names a profile of the other kind. */
  predicate Misplaced(change: Change<Option<Id>>, kind: ProfileKind, library: Library) {
    change.SetTo? && change.value.Some? && exists p <- library :: p.id == change.value.value && p.kind != kind
  }

  predicate Follows<T(==)>(change: Change<T>, before: T, after: T) {
    match change
    case Keep => after == before
    case SetTo(value) => after == value
  }

  /** Who would be cast, were the changes made. */
  ghost predicate WouldClash(episode: Episode, host: Change<Option<Id>>, guest: Change<Option<Id>>) {
    exists id :: Follows(host, episode.hostProfileId, Some(id)) && Follows(guest, episode.guestProfileId, Some(id))
  }

  lemma AssignOutcome(s: State, e: Id, host: Change<Option<Id>>, guest: Change<Option<Id>>,
                      override: Change<Option<string>>, library: Library)
    ensures var r := AssignProfiles(s, e, host, guest, override, library);
            && Edited(s, e, r)
            && (Editable(s, e) ==>
                  if Missing(host, library) then r == Err(NotFound)
                  else if Misplaced(host, HostProfile, library) then r == Err(BadRequest)
                  else if Missing(guest, library) then r == Err(NotFound)
                  else if Misplaced(guest, GuestProfile, library) || WouldClash(s.episodes[e], host, guest)
                  then r == Err(BadRequest)
                  else r.Ok?)
            && (r.Ok? ==>
                  var (before, after) := (s.episodes[e], r.value.episodes[e]);
                  && Follows(host, before.hostProfileId, after.hostProfileId)
                  && Follows(guest, before.guestProfileId, after.guestProfileId)
                  && (override == SetTo(Some("")) ==> after.guestNameOverride == None)
                  && (override != SetTo(Some("")) ==>
                        Follows(override, before.guestNameOverride, after.guestNameOverride))
                  && after.title == before.title && after.premise == before.premise)
  {
    OpenExactly(s);
  }

  /** Removing an episode takes its rows along and changes nothing but numbers in the rest. */
  lemma RemoveOutcome(s: State, e: Id)
    ensures var r := RemoveEpisode(s, e);
            if !Open(s) then r == Err(Conflict)
            else if e !in s.episodes then r == Err(NotFound)
            else if Frozen(s.episodes[e]) then r == Err(Conflict)
            else
              && r.Ok? && r.value.episodes.Keys == s.episodes.Keys - {e} && Cascaded(s, r.value, {e})
              && (forall f <- r.value.episodes ::
                    r.value.episodes[f] == s.episodes[f].(episodeNumber := r.value.episodes[f].episodeNumber))
              && r.value == s.(episodes := r.value.episodes, outlines := r.value.outlines, briefs := r.value.briefs,
                               production := r.value.production)
  {
    OpenExactly(s);
    var r := RemoveEpisode(s, e);
    if r.Ok? {
      DeletionCascades(s, r.value, {e});
    }
  }

  /** A reorder takes any payload that names exactly the episodes there are; only numbers change. */
  lemma ReorderOutcome(s: State, ids: seq<Id>)
    ensures var r := ReorderEpisodes(s, ids);
            if !Open(s) then r == Err(Conflict)
            else if !(forall e :: e in ids <==> e in s.episodes) then r == Err(BadRequest)
            else if AnyFrozen(s) then r == Err(Conflict)
            else
              && r.Ok? && r.value == s.(episodes := r.value.episodes) && r.value.episodes.Keys == s.episodes.Keys
              && forall e <- s.episodes ::
                   && r.value.episodes[e] == s.episodes[e].(episodeNumber := r.value.episodes[e].episodeNumber)
                   && LastAt(ids, e, r.value.episodes[e].episodeNumber)
  {
    OpenExactly(s);
  }

  predicate LastAt(ids: seq<Id>, e: Id, position: int) {
    && 1 <= position <= |ids| && ids[position - 1] == e
    && forall j | position <= j < |ids| :: ids[j] != e
  }

  // ----- locking -----

  predicate HasName(library: Library, id: Option<Id>) {
    exists p <- library :: id == Some(p.id) && p.name != ""
  }

  predicate OnLocking(before: Episode, after: Episode) {
    after == if before.status == Planned then before.(status := Outlined) else before
  }

  predicate Unnamed(library: Library, episode: Episode) {
    !HasName(library, episode.hostProfileId) || !HasName(library, episode.guestProfileId)
  }

  predicate FirstOutline(outline: Outline, title: string, markdown: string) {
    && outline.title == title && outline.markdown == markdown && outline.status == OutlineGenerated
    && outline.current == Some(1) && outline.approved == None && outline.approvedAt == None
    && outline.versions == [OutlineVersion(1, title, markdown, LockGenerated)]
  }

  ghost predicate FirstOutlines(s: State, t: State, texts: Id -> string) {
    && t.outlines.Keys == s.outlines.Keys + s.episodes.Keys
    && (forall e <- s.outlines :: t.outlines[e] == s.outlines[e])
    && forall e <- s.episodes | e !in s.outlines ::
         FirstOutline(t.outlines[e], "Generated outline: " + s.episodes[e].title, texts(e))
  }

  lemma LockReadyExactly(s: State, library: Library)
    ensures LockReady(s.episodes, library) <==>
            s.episodes != map[] && forall e <- s.episodes :: !Unnamed(library, s.episodes[e])
  {
    assert s.episodes == map[] <==> s.episodes.Keys == {};
    forall e <- s.episodes
      ensures Unnamed(library, s.episodes[e]) <==>
              !(Named(library, s.episodes[e].hostProfileId) && Named(library, s.episodes[e].guestProfileId))
    {
    }
  }

  lemma MissingOutlines(s: State, t: State, texts: Id -> string)
    requires t.outlines == OutlineSteps.WithMissing(s.outlines, s.episodes, texts)
    ensures FirstOutlines(s, t, texts)
  {
  }

  lemma LockOutcome(s: State, library: Library, texts: Id -> string, now: int)
    ensures var r := LockPlan(s, library, texts, now);
            if !Open(s) || s.episodes == map[] || exists e <- s.episodes :: Unnamed(library, s.episodes[e])
            then r == Err(Conflict)
            else
              && r.Ok? && FirstOutlines(s, r.value, texts)
              && r.value == s.(series := s.series.(planLockedAt := Some(now), currentStage := OutlinesStage,
                                                   status := InProduction),
                               episodes := r.value.episodes, outlines := r.value.outlines)
              && r.value.episodes.Keys == s.episodes.Keys
              && forall e <- s.episodes :: OnLocking(s.episodes[e], r.value.episodes[e])
  {
    OpenExactly(s);
    LockReadyExactly(s, library);
    var r := LockPlan(s, library, texts, now);
    if r.Ok? {
      MissingOutlines(s, r.value, texts);
    }
  }
}
