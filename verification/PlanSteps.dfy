/** The episode plan (episodes/service.py): generated, edited and reordered until it is locked. */
module PlanSteps {
  import opened Wrappers
  import opened WorkflowRows
  import OutlineSteps
  import EpisodeNumbering

  // ----- queries -----

  predicate IsSelected(narrative: Narrative, byStatus: bool) {
    narrative.isSelected && (byStatus ==> narrative.status == Selected)
  }

  /** The selected narrative; discovery's query also asks for its status. */
  function FindSelected(narratives: seq<Narrative>, byStatus: bool): (r: Option<Id>)
    ensures r.Some? ==> r.value < |narratives| && IsSelected(narratives[r.value], byStatus)
    ensures r.None? ==> forall i | 0 <= i < |narratives| :: !IsSelected(narratives[i], byStatus)
  {
    if narratives == [] then None
    else if IsSelected(narratives[|narratives| - 1], byStatus) then Some(|narratives| - 1)
    else FindSelected(narratives[..|narratives| - 1], byStatus)
  }

  ghost function NumbersOf(episodes: map<Id, Episode>): (r: EpisodeNumbering.Numbers)
    ensures r.Keys == episodes.Keys
  {
    map e | e in episodes :: episodes[e].episodeNumber
  }

  ghost function WithNumbers(episodes: map<Id, Episode>, numbers: EpisodeNumbering.Numbers): map<Id, Episode>
    requires numbers.Keys == episodes.Keys
  {
    map e | e in episodes :: episodes[e].(episodeNumber := numbers[e])
  }

  predicate AnyRecorded(episodes: map<Id, Episode>) {
    exists e <- episodes :: RecordedOrLater(episodes[e].status)
  }

  // ----- profiles -----

  /** The profile a name stands for: among equal keys the last one listed. */
  function ProfileByName(profiles: seq<Profile>, kind: ProfileKind, name: string,
                         nameKey: string -> string): (r: Option<Id>)
    ensures r.Some? ==> exists p <- profiles :: p.id == r.value && p.kind == kind && p.isActive
  {
    if profiles == [] then None
    else
      var (init, last) := (profiles[..|profiles| - 1], profiles[|profiles| - 1]);
      assert profiles == init + [last];
      if last.isActive && last.kind == kind && nameKey(last.name) == nameKey(name) then Some(last.id)
      else ProfileByName(init, kind, name, nameKey)
  }

  predicate AnyActive(library: Library, kind: ProfileKind) {
    exists p <- library :: p.isActive && p.kind == kind
  }

  function ActiveProfile(library: Library, id: Id, kind: ProfileKind): Result<(), HttpError> {
    if !exists p <- library :: p.id == id && p.isActive then Err(NotFound)
    else Require(exists p <- library :: p.id == id && p.kind == kind, BadRequest)
  }

  predicate Named(library: Library, id: Option<Id>) {
    id.Some? && exists p <- library :: p.id == id.value && p.name != ""
  }

  // ----- the planner -----

  datatype Draft = Draft(title: string, premise: string, hostName: Option<string>, guestName: Option<string>)
  datatype Suggestion = Suggestion(episodeNumber: int, hostName: string, guestName: string)

  /** What the language model answers, None when the answer is refused, and how names are compared. */
  datatype Planner = Planner(plan: Option<seq<Draft>>, casting: Option<seq<Suggestion>>, nameKey: string -> string)

  function ByName(library: Library, kind: ProfileKind, name: Option<string>, planner: Planner): Option<Id> {
    if name.Some? then ProfileByName(library, kind, name.value, planner.nameKey) else None
  }

  function Drafted(draft: Draft, number: int, library: Library, planner: Planner): Episode {
    Episode(number, draft.title, draft.premise, Planned, ByName(library, HostProfile, draft.hostName, planner),
            ByName(library, GuestProfile, draft.guestName, planner), None)
  }

  function DraftedAt(from: Id, drafts: seq<Draft>, library: Library, planner: Planner, e: Id): Episode
    requires from <= e < from + |drafts|
  {
    Drafted(drafts[e - from], e - from + 1, library, planner)
  }

  /** The drafts become episodes 1..n with ids `from` onwards. */
  function DraftedEpisodes(from: Id, drafts: seq<Draft>, library: Library, planner: Planner): (r: map<Id, Episode>)
    ensures forall e :: e in r <==> from <= e < from + |drafts|
  {
    map e: Id | from <= e < from + |drafts| :: DraftedAt(from, drafts, library, planner, e)
  }

  lemma DraftedStep(from: Id, drafts: seq<Draft>, library: Library, planner: Planner, k: nat)
    requires k < |drafts|
    ensures DraftedEpisodes(from, drafts[..k + 1], library, planner) ==
            DraftedEpisodes(from, drafts[..k], library, planner)[
              from + k := Drafted(drafts[k], k + 1, library, planner)]
  {
  }

  predicate Uncurated(episodes: map<Id, Episode>) {
    forall e <- episodes :: && episodes[e].hostProfileId.None? && episodes[e].guestProfileId.None?
                            && (episodes[e].guestNameOverride.None? || episodes[e].guestNameOverride.value == "")
  }

  /** Suggestions keyed by episode number; the last one for a number counts. */
  function SuggestionFor(suggestions: seq<Suggestion>, number: int): Option<Suggestion> {
    if suggestions == [] then None
    else if suggestions[|suggestions| - 1].episodeNumber == number then Some(suggestions[|suggestions| - 1])
    else SuggestionFor(suggestions[..|suggestions| - 1], number)
  }

  function Cast(episode: Episode, suggestions: seq<Suggestion>, library: Library, planner: Planner): Episode {
    var suggestion := SuggestionFor(suggestions, episode.episodeNumber);
    if suggestion.None? then episode
    else episode.(hostProfileId := ProfileByName(library, HostProfile, suggestion.value.hostName, planner.nameKey),
                  guestProfileId := ProfileByName(library, GuestProfile, suggestion.value.guestName, planner.nameKey))
  }

  function CastAll(episodes: map<Id, Episode>, suggestions: seq<Suggestion>, library: Library,
                   planner: Planner): (r: map<Id, Episode>)
    ensures r.Keys == episodes.Keys
  {
    map e | e in episodes :: Cast(episodes[e], suggestions, library, planner)
  }

  function Casting(library: Library, planner: Planner): Result<seq<Suggestion>, HttpError> {
    if !AnyActive(library, HostProfile) || !AnyActive(library, GuestProfile) then Ok([])
    else if planner.casting.None? then Err(BadGateway)
    else Ok(planner.casting.value)
  }

  function SuggestProfiles(s: State, library: Library, planner: Planner): Result<State, HttpError> {
    if !Uncurated(s.episodes) then Ok(s)
    else
      var suggestions :- Casting(library, planner);
      Ok(s.(episodes := CastAll(s.episodes, suggestions, library, planner)))
  }

  /** Briefs left when the episodes in `deleted` go. */
  function Remaining(briefs: map<(Id, BriefKind), Brief>, deleted: set<Id>): map<(Id, BriefKind), Brief> {
    map k | k in briefs && k.0 !in deleted :: briefs[k]
  }

  function RemainingSchedules(schedules: seq<Schedule>, deleted: set<Id>): seq<Schedule> {
    if schedules == [] then []
    else
      var (init, last) := (RemainingSchedules(schedules[..|schedules| - 1], deleted), schedules[|schedules| - 1]);
      if last.caption.episode in deleted then init else init + [last]
  }

  function WithoutEpisodes(production: Production, deleted: set<Id>): Production {
    Production(production.media - deleted,
               map k | k in production.clips && k.0 !in deleted :: production.clips[k],
               map k | k in production.captions && k.episode !in deleted :: production.captions[k],
               RemainingSchedules(production.schedules, deleted))
  }

  /** Replacing a plan deletes its episodes, and with them every row that belongs to them. */
  function GeneratePlan(s: State, library: Library, planner: Planner, now: int): Result<State, HttpError> {
    var _ :- Require(!AnyRecorded(s.episodes), Conflict);
    var _ :- Require(planner.plan.Some?, BadGateway);
    var drafts := planner.plan.value;
    Ok(s.(series := s.series.(episodePlanGeneratedAt := Some(now)),
          episodes := DraftedEpisodes(s.nextId, drafts, library, planner),
          outlines := s.outlines - s.episodes.Keys, briefs := Remaining(s.briefs, s.episodes.Keys),
          production := WithoutEpisodes(s.production, s.episodes.Keys),
          nextId := s.nextId + |drafts|))
  }

  function EnsureGeneratedPlan(s: State, library: Library, planner: Planner, now: int,
                               replace: bool): Result<State, HttpError>
  {
    if Locked(s) then Ok(s)
    else if s.episodes.Keys != {} && !replace then SuggestProfiles(s, library, planner)
    else GeneratePlan(s, library, planner, now)
  }

  // ----- steps -----

  function OpenPlan(s: State): Result<(), HttpError> {
    Require(FindSelected(s.narratives, false).Some? && !Locked(s), Conflict)
  }

  function EditableEpisode(s: State, e: Id): (r: Result<Episode, HttpError>)
    ensures r.Ok? ==> e in s.episodes && r.value == s.episodes[e] && !RecordedOrLater(r.value.status) && !Locked(s)
  {
    var _ :- OpenPlan(s);
    var _ :- Require(e in s.episodes, NotFound);
    var _ :- Require(!RecordedOrLater(s.episodes[e].status), Conflict);
    Ok(s.episodes[e])
  }

  function GetPlan(s: State, library: Library, planner: Planner, now: int): Result<State, HttpError> {
    var _ :- Require(FindSelected(s.narratives, false).Some?, Conflict);
    EnsureGeneratedPlan(s, library, planner, now, false)
  }

  predicate NumberTaken(episodes: map<Id, Episode>, number: int) {
    exists e <- episodes :: episodes[e].episodeNumber == number
  }

  /** The count plus one; the schema refuses it if a number was left out before. */
  function AddEpisode(s: State, title: string, premise: string): Result<State, HttpError> {
    var _ :- OpenPlan(s);
    var _ :- Require(!NumberTaken(s.episodes, |s.episodes| + 1), ServerError);
    var added := Episode(|s.episodes| + 1, title, premise, Planned, None, None, None);
    Ok(s.(episodes := s.episodes[s.nextId := added], nextId := s.nextId + 1))
  }

  datatype Change<+T> = Keep | SetTo(value: T)

  function Changed<T>(change: Change<T>, current: T): T {
    if change.SetTo? then change.value else current
  }

  function UpdateEpisode(s: State, e: Id, title: Change<string>, premise: Change<string>): Result<State, HttpError> {
    var episode :- EditableEpisode(s, e);
    var updated := episode.(title := Changed(title, episode.title), premise := Changed(premise, episode.premise));
    Ok(s.(episodes := s.episodes[e := updated]))
  }

  function Deleted(episodes: map<Id, Episode>, e: Id): (rest: map<Id, Episode>)
    ensures forall f :: f in rest <==> f in episodes && f != e
    ensures forall f <- rest :: rest[f] == episodes[f]
  {
    episodes - {e}
  }

  ghost function RemoveEpisode(s: State, e: Id): Result<State, HttpError> {
    var _ :- EditableEpisode(s, e);
    var rest := Deleted(s.episodes, e);
    Ok(s.(episodes := WithNumbers(rest, EpisodeNumbering.Renumbered(NumbersOf(rest))), outlines := s.outlines - {e},
          briefs := Remaining(s.briefs, {e}), production := WithoutEpisodes(s.production, {e})))
  }

  ghost function ReorderEpisodes(s: State, ids: seq<Id>): Result<State, HttpError> {
    var _ :- OpenPlan(s);
    var _ :- Require((set e <- ids) == s.episodes.Keys, BadRequest);
    var _ :- Require(!AnyRecorded(s.episodes), Conflict);
    var numbers := EpisodeNumbering.Reordered(ids);
    assert forall e :: e in (set e <- ids) <==> e in numbers;
    Ok(s.(episodes := WithNumbers(s.episodes, numbers)))
  }

  function AssignProfiles(s: State, e: Id, host: Change<Option<Id>>, guest: Change<Option<Id>>,
                          override: Change<Option<string>>, library: Library): Result<State, HttpError> {
    var episode :- EditableEpisode(s, e);
    var _ :- if host.SetTo? && host.value.Some? then ActiveProfile(library, host.value.value, HostProfile) else Ok(());
    var _ :- if guest.SetTo? && guest.value.Some? then ActiveProfile(library, guest.value.value, GuestProfile)
             else Ok(());
    var (nextHost, nextGuest) := (Changed(host, episode.hostProfileId), Changed(guest, episode.guestProfileId));
    var _ :- Require(nextHost.None? || nextHost != nextGuest, BadRequest);
    var name := Changed(override, episode.guestNameOverride);
    var nextName := if override.SetTo? && name == Some("") then None else name;
    Ok(s.(episodes := s.episodes[e := episode.(hostProfileId := nextHost, guestProfileId := nextGuest,
                                               guestNameOverride := nextName)]))
  }

  predicate LockReady(episodes: map<Id, Episode>, library: Library) {
    && episodes.Keys != {}
    && forall e <- episodes :: Named(library, episodes[e].hostProfileId) && Named(library, episodes[e].guestProfileId)
  }

  function OnLock(episode: Episode): Episode {
    if episode.status == Planned then episode.(status := Outlined) else episode
  }

  function LockedEpisodes(episodes: map<Id, Episode>): (r: map<Id, Episode>)
    ensures r.Keys == episodes.Keys
  {
    map e | e in episodes :: OnLock(episodes[e])
  }

  function LockPlan(s: State, library: Library, texts: Id -> string, now: int): Result<State, HttpError> {
    var _ :- OpenPlan(s);
    var _ :- Require(LockReady(s.episodes, library), Conflict);
    Ok(s.(series := s.series.(planLockedAt := Some(now), currentStage := OutlinesStage, status := InProduction),
          episodes := LockedEpisodes(s.episodes),
          outlines := OutlineSteps.WithMissing(s.outlines, s.episodes, texts)))
  }
}
