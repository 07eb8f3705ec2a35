/**
 From the names a language model answers to the profiles an episode is cast with: what
 modules/episodes/generation.py accepts, modules/episodes/service.py can always resolve.

 The two files compare names by different keys; both appear here as parameters.
 */
module CastResolution {
  import opened Wrappers
  import opened WorkflowRows
  import opened PlanSteps
  import opened BriefSteps
  import PlanGeneration

  /** The names the generator accepts for a kind: among equal keys the last one listed. */
  function NamesOf(profiles: seq<Profile>, kind: ProfileKind, key: string -> string): (r: PlanGeneration.Names)
    ensures r != map[] <==> exists p <- profiles :: p.isActive && p.kind == kind
    ensures forall k <- r :: Offers(profiles, kind, r[k])
  {
    if profiles == [] then map[]
    else
      var (init, last) := (profiles[..|profiles| - 1], profiles[|profiles| - 1]);
      assert profiles == init + [last];
      if last.isActive && last.kind == kind then
        var names := NamesOf(init, kind, key)[key(last.name) := last.name];
        assert key(last.name) in names;
        names
      else NamesOf(init, kind, key)
  }

  predicate Offers(profiles: seq<Profile>, kind: ProfileKind, name: string) {
    exists p <- profiles :: p.isActive && p.kind == kind && p.name == name
  }

  lemma {:induction false} OfferedName(profiles: seq<Profile>, kind: ProfileKind, name: string,
                                       nameKey: string -> string)
    requires Offers(profiles, kind, name)
    ensures ProfileByName(profiles, kind, name, nameKey).Some?
  {
    var (init, last) := (profiles[..|profiles| - 1], profiles[|profiles| - 1]);
    assert profiles == init + [last];
    if !(last.isActive && last.kind == kind && nameKey(last.name) == nameKey(name)) {
      OfferedName(init, kind, name, nameKey);
    }
  }

  /** A name of the library resolves to an active profile of its kind, by whatever key names are compared. */
  lemma NameResolves(library: Library, kind: ProfileKind, name: string, nameKey: string -> string)
    requires Offers(library, kind, name)
    ensures Assigned(library, ProfileByName(library, kind, name, nameKey), kind)
  {
    OfferedName(library, kind, name, nameKey);
  }

  // ----- casting an existing plan -----

  function Numbers(episodes: map<Id, Episode>): set<int> {
    set e <- episodes :: episodes[e].episodeNumber
  }

  function Resolved(suggestions: seq<PlanGeneration.Suggestion>): (r: seq<Suggestion>)
    ensures |r| == |suggestions|
  {
    seq(|suggestions|, i requires 0 <= i < |suggestions| =>
      Suggestion(suggestions[i].number, suggestions[i].host, suggestions[i].guest))
  }

  lemma {:induction false} FindsSuggestion(suggestions: seq<Suggestion>, number: int)
    ensures (exists s <- suggestions :: s.episodeNumber == number) <==> SuggestionFor(suggestions, number).Some?
    ensures SuggestionFor(suggestions, number).Some? ==>
              SuggestionFor(suggestions, number).value in suggestions
              && SuggestionFor(suggestions, number).value.episodeNumber == number
  {
    if suggestions != [] {
      var (init, last) := (suggestions[..|suggestions| - 1], suggestions[|suggestions| - 1]);
      assert suggestions == init + [last];
      FindsSuggestion(init, number);
    }
  }

  /** Every suggestion of an accepted casting is the one its episode is cast by. */
  lemma SuggestionIsCast(items: seq<PlanGeneration.RawEpisode>, suggestions: seq<PlanGeneration.Suggestion>,
                         numbers: set<int>, hosts: PlanGeneration.Names, guests: PlanGeneration.Names, i: nat)
    requires PlanGeneration.Casts(items, suggestions, numbers, hosts, guests) && i < |suggestions|
    ensures PlanGeneration.CastFor(items, suggestions[i].number, hosts, guests) == Some(suggestions[i])
  {
    assert suggestions[i] in suggestions;
    var cast := PlanGeneration.CastFor(items, suggestions[i].number, hosts, guests).value;
    var j :| 0 <= j < |suggestions| && suggestions[j] == cast;
    if i < j {
      PlanGeneration.CastOnce(items, suggestions, numbers, hosts, guests, i, j);
    } else if j < i {
      PlanGeneration.CastOnce(items, suggestions, numbers, hosts, guests, j, i);
    }
  }

  /** The suggestion the service keeps for an episode offers two names of the library. */
  lemma SuggestionIsOffered(items: seq<PlanGeneration.RawEpisode>, suggestions: seq<PlanGeneration.Suggestion>,
                            numbers: set<int>, library: Library, key: string -> string, number: int)
    requires PlanGeneration.Casts(items, suggestions, numbers, NamesOf(library, HostProfile, key),
                                  NamesOf(library, GuestProfile, key))
    requires number in numbers
    ensures var found := SuggestionFor(Resolved(suggestions), number);
            && found.Some? && Offers(library, HostProfile, found.value.hostName)
            && Offers(library, GuestProfile, found.value.guestName)
  {
    var (hosts, guests) := (NamesOf(library, HostProfile, key), NamesOf(library, GuestProfile, key));
    var j :| 0 <= j < |suggestions| && suggestions[j] == PlanGeneration.CastFor(items, number, hosts, guests).value;
    assert Resolved(suggestions)[j] in Resolved(suggestions);
    FindsSuggestion(Resolved(suggestions), number);
    var i :| 0 <= i < |suggestions| && Resolved(suggestions)[i] == SuggestionFor(Resolved(suggestions), number).value;
    SuggestionIsCast(items, suggestions, numbers, hosts, guests, i);
  }

  lemma EpisodeIsCast(items: seq<PlanGeneration.RawEpisode>, suggestions: seq<PlanGeneration.Suggestion>,
                      numbers: set<int>, library: Library, key: string -> string, planner: Planner, episode: Episode)
    requires PlanGeneration.Casts(items, suggestions, numbers, NamesOf(library, HostProfile, key),
                                  NamesOf(library, GuestProfile, key))
    requires episode.episodeNumber in numbers
    ensures var cast := Cast(episode, Resolved(suggestions), library, planner);
            Assigned(library, cast.hostProfileId, HostProfile) && Assigned(library, cast.guestProfileId, GuestProfile)
  {
    SuggestionIsOffered(items, suggestions, numbers, library, key, episode.episodeNumber);
    var found := SuggestionFor(Resolved(suggestions), episode.episodeNumber).value;
    NameResolves(library, HostProfile, found.hostName, planner.nameKey);
    NameResolves(library, GuestProfile, found.guestName, planner.nameKey);
  }

  /** An accepted casting leaves every episode with an active host and an active guest. */
  lemma CastingIsComplete(s: State, library: Library, planner: Planner, items: seq<PlanGeneration.RawEpisode>,
                          suggestions: seq<PlanGeneration.Suggestion>, key: string -> string)
    requires Uncurated(s.episodes) && AnyActive(library, HostProfile) && AnyActive(library, GuestProfile)
    requires PlanGeneration.Casts(items, suggestions, Numbers(s.episodes), NamesOf(library, HostProfile, key),
                                  NamesOf(library, GuestProfile, key))
    requires planner.casting == Some(Resolved(suggestions))
    ensures SuggestProfiles(s, library, planner).Ok?
    ensures forall e <- s.episodes ::
              var episodes := SuggestProfiles(s, library, planner).value.episodes;
              && e in episodes && Assigned(library, episodes[e].hostProfileId, HostProfile)
              && Assigned(library, episodes[e].guestProfileId, GuestProfile)
  {
    forall e <- s.episodes
      ensures Assigned(library, Cast(s.episodes[e], Resolved(suggestions), library, planner).hostProfileId, HostProfile)
      ensures Assigned(library, Cast(s.episodes[e], Resolved(suggestions), library, planner).guestProfileId,
                       GuestProfile)
    {
      EpisodeIsCast(items, suggestions, Numbers(s.episodes), library, key, planner, s.episodes[e]);
    }
  }

  // ----- drafting a new one -----

  function Plan(drafts: seq<PlanGeneration.PlanDraft>): (r: seq<Draft>)
    ensures |r| == |drafts|
  {
    seq(|drafts|, i requires 0 <= i < |drafts| =>
      Draft(drafts[i].title, drafts[i].premise, drafts[i].host, drafts[i].guest))
  }

  predicate Offered(library: Library, draft: Draft) {
    && draft.hostName.Some? && Offers(library, HostProfile, draft.hostName.value)
    && draft.guestName.Some? && Offers(library, GuestProfile, draft.guestName.value)
  }

  lemma DraftResolves(draft: Draft, number: int, library: Library, planner: Planner)
    requires Offered(library, draft)
    ensures var episode := Drafted(draft, number, library, planner);
            && Assigned(library, episode.hostProfileId, HostProfile)
            && Assigned(library, episode.guestProfileId, GuestProfile)
  {
    NameResolves(library, HostProfile, draft.hostName.value, planner.nameKey);
    NameResolves(library, GuestProfile, draft.guestName.value, planner.nameKey);
  }

  /** An accepted item names a host and a guest of the library, where it has any. */
  lemma ItemIsOffered(item: PlanGeneration.RawEpisode, library: Library, key: string -> string)
    requires AnyActive(library, HostProfile) && AnyActive(library, GuestProfile) && item.RawEpisode?
    requires PlanGeneration.CastFromLibrary(item, NamesOf(library, HostProfile, key),
                                            NamesOf(library, GuestProfile, key))
    ensures var draft := PlanGeneration.DraftOf(item, NamesOf(library, HostProfile, key),
                                                NamesOf(library, GuestProfile, key));
            Offered(library, Draft(draft.title, draft.premise, draft.host, draft.guest))
  {
  }

  lemma DraftIsOffered(items: seq<PlanGeneration.RawEpisode>, drafts: seq<PlanGeneration.PlanDraft>, library: Library,
                       key: string -> string, i: nat)
    requires AnyActive(library, HostProfile) && AnyActive(library, GuestProfile)
    requires forall item <- items :: item.RawEpisode?
    requires PlanGeneration.Drafts(items, drafts, NamesOf(library, HostProfile, key),
                                   NamesOf(library, GuestProfile, key))
    requires i < |drafts|
    ensures Offered(library, Plan(drafts)[i])
  {
    assert items[i] in items;
    ItemIsOffered(items[i], library, key);
  }

  lemma OfferedEpisode(from: Id, plan: seq<Draft>, library: Library, planner: Planner, e: Id)
    requires e in DraftedEpisodes(from, plan, library, planner)
    requires forall i | 0 <= i < |plan| :: Offered(library, plan[i])
    ensures var episode := DraftedEpisodes(from, plan, library, planner)[e];
            && Assigned(library, episode.hostProfileId, HostProfile)
            && Assigned(library, episode.guestProfileId, GuestProfile)
  {
    DraftResolves(plan[e - from], e - from + 1, library, planner);
  }

  /** Where the library has hosts and guests, every episode of an accepted plan has one of each. */
  lemma DraftsAreCast(from: Id, items: seq<PlanGeneration.RawEpisode>, drafts: seq<PlanGeneration.PlanDraft>,
                      library: Library, planner: Planner, key: string -> string, e: Id)
    requires AnyActive(library, HostProfile) && AnyActive(library, GuestProfile)
    requires forall item <- items :: item.RawEpisode?
    requires PlanGeneration.Drafts(items, drafts, NamesOf(library, HostProfile, key),
                                   NamesOf(library, GuestProfile, key))
    requires e in DraftedEpisodes(from, Plan(drafts), library, planner)
    ensures var episode := DraftedEpisodes(from, Plan(drafts), library, planner)[e];
            && Assigned(library, episode.hostProfileId, HostProfile)
            && Assigned(library, episode.guestProfileId, GuestProfile)
  {
    forall i | 0 <= i < |drafts| ensures Offered(library, Plan(drafts)[i]) {
      DraftIsOffered(items, drafts, library, key, i);
    }
    OfferedEpisode(from, Plan(drafts), library, planner, e);
  }
}
