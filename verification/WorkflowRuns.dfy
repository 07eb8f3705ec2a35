/**
 Whole runs of the workflow: any interleaving of the public operations of the five services.

 An operation that raises changes nothing, because nothing is committed.
 */
module WorkflowRuns {
  import opened Wrappers
  import opened WorkflowRows
  import opened WorkflowInvariant
  import EpisodeNumbering
  import NarrativeSteps
  import PlanSteps
  import OutlineSteps
  import BriefSteps
  import LaterSteps
  import SelectionSafety
  import PlanSafety
  import OutlineSafety
  import BriefSafety
  import LaterSafety

  datatype Command =
    | RunDiscovery(documents: nat)
    | RegenerateNarratives
    | SelectNarrative(n: Id, library: Library, planner: PlanSteps.Planner, now: int)
    | GetPlan(library: Library, planner: PlanSteps.Planner, now: int)
    | AddEpisode(title: string, premise: string)
    | UpdateEpisode(e: Id, newTitle: PlanSteps.Change<string>, newPremise: PlanSteps.Change<string>)
    | RemoveEpisode(e: Id)
    | ReorderEpisodes(ids: seq<Id>)
    | AssignProfiles(e: Id, host: PlanSteps.Change<Option<Id>>, guest: PlanSteps.Change<Option<Id>>,
                     override: PlanSteps.Change<Option<string>>, library: Library)
    | LockPlan(library: Library, texts: Id -> string, now: int)
    | OpenOutlines(texts: Id -> string)
    | UpdateOutline(e: Id, givenTitle: Option<string>, markdown: string)
    | RegenerateOutline(e: Id, title: string, markdown: string)
    | ApproveOutline(e: Id, now: int)
    | GeneratePair(e: Id, library: Library, hostText: BriefSteps.Text, guestText: BriefSteps.Text, now: int)
    | UpdateBrief(e: Id, kind: BriefKind, givenTitle: Option<string>, markdown: string, now: int)
    | RegenerateBrief(e: Id, kind: BriefKind, library: Library, text: BriefSteps.Text, now: int)
    | ApprovePair(e: Id, now: int)
    | OpenRecordings(now: int)
    | UploadVideo(e: Id, now: int)
    | UploadTranscript(e: Id, now: int)
    | RequestClips(e: Id, now: int)
    | UploadClip(e: Id, slot: int, now: int)
    | LockRecording(e: Id, now: int)
    | OpenCaptions
    | AddPlatform(key: CaptionKey)
    | WriteCaption(key: CaptionKey, caption: string, now: int)
    | CreateSchedule(key: CaptionKey, outcome: ScheduleStatus)
    | BulkSchedule(keys: seq<CaptionKey>, outcomes: CaptionKey -> ScheduleStatus)
    | SettleSchedules(settled: Schedule -> Option<ScheduleStatus>)

  predicate IsSelecting(c: Command) {
    c.RunDiscovery? || c.RegenerateNarratives? || c.SelectNarrative?
  }

  ghost function SelectingOutcome(s: State, c: Command): Result<State, HttpError>
    requires IsSelecting(c)
  {
    match c
    case RunDiscovery(documents) => NarrativeSteps.RunDiscovery(s, documents)
    case RegenerateNarratives => NarrativeSteps.RegenerateNarratives(s)
    case SelectNarrative(n, library, planner, now) => NarrativeSteps.SelectNarrative(s, n, library, planner, now)
  }

  predicate IsPlanning(c: Command) {
    c.GetPlan? || c.AddEpisode? || c.UpdateEpisode? || c.RemoveEpisode? || c.ReorderEpisodes? ||
    c.AssignProfiles? || c.LockPlan?
  }

  ghost function PlanningOutcome(s: State, c: Command): Result<State, HttpError>
    requires IsPlanning(c)
  {
    match c
    case GetPlan(library, planner, now) => PlanSteps.GetPlan(s, library, planner, now)
    case AddEpisode(title, premise) => PlanSteps.AddEpisode(s, title, premise)
    case UpdateEpisode(e, title, premise) => PlanSteps.UpdateEpisode(s, e, title, premise)
    case RemoveEpisode(e) => PlanSteps.RemoveEpisode(s, e)
    case ReorderEpisodes(ids) => PlanSteps.ReorderEpisodes(s, ids)
    case AssignProfiles(e, host, guest, override, library) =>
      PlanSteps.AssignProfiles(s, e, host, guest, override, library)
    case LockPlan(library, texts, now) => PlanSteps.LockPlan(s, library, texts, now)
  }

  predicate IsDrafting(c: Command) {
    c.OpenOutlines? || c.UpdateOutline? || c.RegenerateOutline? || c.ApproveOutline? ||
    c.GeneratePair? || c.UpdateBrief? || c.RegenerateBrief? || c.ApprovePair?
  }

  ghost function DraftingOutcome(s: State, c: Command): Result<State, HttpError>
    requires IsDrafting(c)
  {
    match c
    case OpenOutlines(texts) => OutlineSteps.OpenOutlines(s, texts)
    case UpdateOutline(e, title, markdown) => OutlineSteps.UpdateOutline(s, e, title, markdown)
    case RegenerateOutline(e, title, markdown) => OutlineSteps.RegenerateOutline(s, e, title, markdown)
    case ApproveOutline(e, now) => OutlineSteps.ApproveOutline(s, e, now)
    case GeneratePair(e, library, host, guest, now) => BriefSteps.GeneratePair(s, e, library, host, guest, now)
    case UpdateBrief(e, kind, title, markdown, now) => BriefSteps.UpdateBrief(s, e, kind, title, markdown, now)
    case RegenerateBrief(e, kind, library, text, now) => BriefSteps.RegenerateBrief(s, e, kind, library, text, now)
    case ApprovePair(e, now) => BriefSteps.ApprovePair(s, e, now)
  }

  predicate IsRecording(c: Command) {
    c.OpenRecordings? || c.UploadVideo? || c.UploadTranscript? || c.RequestClips? || c.UploadClip?
    || c.LockRecording?
  }

  ghost function RecordingOutcome(s: State, c: Command): Result<State, HttpError>
    requires IsRecording(c)
  {
    match c
    case OpenRecordings(now) => LaterSteps.OpenRecordings(s, now)
    case UploadVideo(e, now) => LaterSteps.UploadVideo(s, e, now)
    case UploadTranscript(e, now) => LaterSteps.UploadTranscript(s, e, now)
    case RequestClips(e, now) => LaterSteps.RequestClips(s, e, now)
    case UploadClip(e, slot, now) => LaterSteps.UploadClip(s, e, slot, now)
    case LockRecording(e, now) => LaterSteps.LockRecording(s, e, now)
  }

  predicate IsPublishing(c: Command) {
    c.OpenCaptions? || c.AddPlatform? || c.WriteCaption? || c.CreateSchedule? || c.BulkSchedule? ||
    c.SettleSchedules?
  }

  ghost function PublishingOutcome(s: State, c: Command): Result<State, HttpError>
    requires IsPublishing(c)
  {
    match c
    case OpenCaptions => LaterSteps.OpenCaptions(s)
    case AddPlatform(key) => LaterSteps.AddPlatform(s, key)
    case WriteCaption(key, caption, now) => LaterSteps.WriteCaption(s, key, caption, now)
    case CreateSchedule(key, outcome) => LaterSteps.CreateSchedule(s, key, outcome)
    case BulkSchedule(keys, outcomes) => LaterSteps.BulkSchedule(s, keys, outcomes)
    case SettleSchedules(settled) => Ok(LaterSteps.SettleSchedules(s, settled))
  }

  ghost function Outcome(s: State, c: Command): Result<State, HttpError> {
    if IsSelecting(c) then SelectingOutcome(s, c)
    else if IsPlanning(c) then PlanningOutcome(s, c)
    else if IsDrafting(c) then DraftingOutcome(s, c)
    else if IsRecording(c) then RecordingOutcome(s, c)
    else PublishingOutcome(s, c)
  }

  ghost function Step(s: State, c: Command): State {
    var outcome := Outcome(s, c);
    if outcome.Ok? then outcome.value else s
  }

  // ----- one step -----

  /** The one step that leaves a plan which is not numbered 1..n: its check compares sets. */
  ghost predicate RepeatingReorder(s: State, c: Command) {
    c.ReorderEpisodes? && Outcome(s, c).Ok? && !EpisodeNumbering.NoRepeats(c.ids)
  }

  lemma SelectingIsSound(s: State, c: Command)
    requires Inv(s) && IsSelecting(c) && SelectingOutcome(s, c).Ok?
    ensures var t := SelectingOutcome(s, c).value;
            Sound(s, t) && NumberingKept(s, t)
  {
    match c
    case RunDiscovery(documents) => SelectionSafety.RunDiscoveryIsSound(s, documents);
    case RegenerateNarratives => SelectionSafety.RegenerateNarrativesIsSound(s);
    case SelectNarrative(n, library, planner, now) =>
      SelectionSafety.SelectNarrativeIsSound(s, n, library, planner, now);
  }

  lemma PlanningIsSound(s: State, c: Command)
    requires Inv(s) && IsPlanning(c) && PlanningOutcome(s, c).Ok?
    ensures var t := PlanningOutcome(s, c).value;
            && Sound(s, t) && (!c.ReorderEpisodes? ==> NumberingKept(s, t))
            && (c.ReorderEpisodes? ==> (PlanNumbered(t) <==> EpisodeNumbering.NoRepeats(c.ids)))
  {
    match c
    case GetPlan(library, planner, now) => PlanSafety.GetPlanIsSound(s, library, planner, now);
    case AddEpisode(title, premise) => PlanSafety.AddEpisodeIsSound(s, title, premise);
    case UpdateEpisode(e, title, premise) => PlanSafety.UpdateEpisodeIsSound(s, e, title, premise);
    case RemoveEpisode(e) => PlanSafety.RemoveEpisodeIsSound(s, e);
    case ReorderEpisodes(ids) =>
      PlanSafety.ReorderIsSound(s, ids);
      PlanSafety.ReorderNeedsDistinctIds(s, ids);
    case AssignProfiles(e, host, guest, override, library) =>
      PlanSafety.AssignProfilesIsSound(s, e, host, guest, override, library);
    case LockPlan(library, texts, now) => PlanSafety.LockPlanIsSound(s, library, texts, now);
  }

  lemma DraftingIsSound(s: State, c: Command)
    requires Inv(s) && IsDrafting(c) && DraftingOutcome(s, c).Ok?
    ensures var t := DraftingOutcome(s, c).value;
            Sound(s, t) && NumberingKept(s, t)
  {
    match c
    case OpenOutlines(texts) =>
      OutlineSafety.OpeningChangesNothing(s, texts);
      Stutter(s);
    case UpdateOutline(e, title, markdown) => OutlineSafety.UpdateOutlineIsSound(s, e, title, markdown);
    case RegenerateOutline(e, title, markdown) => OutlineSafety.RegenerateOutlineIsSound(s, e, title, markdown);
    case ApproveOutline(e, now) => OutlineSafety.ApproveOutlineIsSound(s, e, now);
    case GeneratePair(e, library, host, guest, now) => BriefSafety.GeneratePairIsSound(s, e, library, host, guest, now);
    case UpdateBrief(e, kind, title, markdown, now) => BriefSafety.UpdateBriefIsSound(s, e, kind, title, markdown, now);
    case RegenerateBrief(e, kind, library, text, now) =>
      BriefSafety.RegenerateBriefIsSound(s, e, kind, library, text, now);
    case ApprovePair(e, now) => BriefSafety.ApprovePairIsSound(s, e, now);
  }

  lemma RecordingIsSound(s: State, c: Command)
    requires Inv(s) && IsRecording(c) && RecordingOutcome(s, c).Ok?
    ensures var t := RecordingOutcome(s, c).value;
            Sound(s, t) && NumberingKept(s, t)
  {
    match c
    case OpenRecordings(now) => LaterSafety.OpenRecordingsIsSound(s, now);
    case UploadVideo(e, now) => LaterSafety.UploadVideoIsSound(s, e, now);
    case UploadTranscript(e, now) => LaterSafety.UploadTranscriptIsSound(s, e, now);
    case RequestClips(e, now) => LaterSafety.RequestClipsIsSound(s, e, now);
    case UploadClip(e, slot, now) => LaterSafety.UploadClipIsSound(s, e, slot, now);
    case LockRecording(e, now) => LaterSafety.LockRecordingIsSound(s, e, now);
  }

  lemma PublishingIsSound(s: State, c: Command)
    requires Inv(s) && IsPublishing(c) && PublishingOutcome(s, c).Ok?
    ensures var t := PublishingOutcome(s, c).value;
            Sound(s, t) && NumberingKept(s, t)
  {
    match c
    case OpenCaptions => LaterSafety.OpenCaptionsIsSound(s);
    case AddPlatform(key) => LaterSafety.AddPlatformIsSound(s, key);
    case WriteCaption(key, caption, now) => LaterSafety.WriteCaptionIsSound(s, key, caption, now);
    case CreateSchedule(key, outcome) => LaterSafety.CreateScheduleIsSound(s, key, outcome);
    case BulkSchedule(keys, outcomes) => LaterSafety.BulkScheduleIsSound(s, keys, outcomes);
    case SettleSchedules(settled) => LaterSafety.SettleSchedulesIsSound(s, settled);
  }

  lemma SuccessIsSound(s: State, c: Command)
    requires Inv(s) && Outcome(s, c).Ok?
    ensures var t := Outcome(s, c).value;
            && Sound(s, t) && (!c.ReorderEpisodes? ==> NumberingKept(s, t))
            && (c.ReorderEpisodes? ==> (PlanNumbered(t) <==> EpisodeNumbering.NoRepeats(c.ids)))
  {
    if IsSelecting(c) {
      SelectingIsSound(s, c);
    } else if IsPlanning(c) {
      PlanningIsSound(s, c);
    } else if IsDrafting(c) {
      DraftingIsSound(s, c);
    } else if IsRecording(c) {
      RecordingIsSound(s, c);
    } else {
      PublishingIsSound(s, c);
    }
  }

  /** Every operation keeps the invariant and what is settled; only a reorder that repeats an id loses the numbering. */
  lemma StepIsSound(s: State, c: Command)
    requires Inv(s)
    ensures Sound(s, Step(s, c))
    ensures PlanNumbered(s) ==> (PlanNumbered(Step(s, c)) <==> !RepeatingReorder(s, c))
    ensures RepeatingReorder(s, c) ==> !PlanNumbered(Step(s, c))
  {
    if Outcome(s, c).Err? {
      Stutter(s);
    } else {
      SuccessIsSound(s, c);
    }
  }

  // ----- runs -----

  /**
   A new series: created empty, or converted from a strategy idea with its narrative selected and its plan drafted.
   */
  ghost predicate Initial(s: State) {
    && !Locked(s) && s.outlines == map[] && s.briefs == map[] && s.production == NOTHING
    && s.series.briefsApprovedAt.None? && s.series.captionsUnlockedAt.None? && s.series.schedulingUnlockedAt.None?
    && s.series.currentStage in {DiscoveryStage, PlanStage}
    && (|| (s.narratives == [] && s.episodes == map[])
        || (&& |s.narratives| == 1 && s.narratives[0].isSelected && s.narratives[0].status == Selected
            && PlanNumbered(s)
            && forall e <- s.episodes :: e < s.nextId && Unstarted(s.episodes[e])))
  }

  ghost predicate Unstarted(episode: Episode) {
    episode.status == Planned && episode.hostProfileId.None? && episode.guestProfileId.None?
  }

  lemma InitialNumbers(s: State)
    requires Initial(s)
    ensures PlanNumbered(s)
  {
    if s.episodes == map[] {
      assert PlanSteps.NumbersOf(s.episodes) == map[];
      forall e, f ensures EpisodeNumbering.Unlike(PlanSteps.NumbersOf(s.episodes), e, f) {
      }
    }
  }

  lemma InitialInv(s: State)
    requires Initial(s)
    ensures Inv(s)
  {
    InitialNumbers(s);
    forall e ensures EpisodeInv(s, e) && e !in BriefSteps.ApprovedEpisodes(s) {
      if e in s.episodes {
        assert RowsOf(s, e) == EpisodeRows(s.episodes[e], None, None, None);
      }
    }
    assert BriefSteps.ApprovedEpisodes(s) == {};
    assert !LaterSteps.AnyRecordingReady(s);
  }

  /** The i-th operation takes the i-th state to the next. */
  ghost predicate Stepped(states: seq<State>, commands: seq<Command>, i: nat)
    requires |states| == |commands| + 1 && i < |commands|
  {
    states[i + 1] == Step(states[i], commands[i])
  }

  ghost predicate IsRun(states: seq<State>, commands: seq<Command>) {
    && |states| == |commands| + 1 && Initial(states[0])
    && forall i: nat | i < |commands| :: Stepped(states, commands, i)
  }

  lemma SteppedIsSound(states: seq<State>, commands: seq<Command>, i: nat)
    requires |states| == |commands| + 1 && i < |commands| && Stepped(states, commands, i) && Inv(states[i])
    ensures Sound(states[i], states[i + 1])
  {
    StepIsSound(states[i], commands[i]);
  }

  /** The invariant holds in every reachable state. */
  lemma {:induction false} ReachableInv(states: seq<State>, commands: seq<Command>, i: nat)
    requires IsRun(states, commands) && i < |states|
    ensures Inv(states[i])
  {
    if i == 0 {
      InitialInv(states[0]);
    } else {
      ReachableInv(states, commands, i - 1);
      SteppedIsSound(states, commands, i - 1);
    }
  }

  lemma RunStep(states: seq<State>, commands: seq<Command>, i: nat)
    requires IsRun(states, commands) && i < |commands|
    ensures Inv(states[i]) && Inv(states[i + 1]) && Advances(states[i], states[i + 1])
  {
    ReachableInv(states, commands, i);
    SteppedIsSound(states, commands, i);
  }

  lemma RunKeepsGate(states: seq<State>, commands: seq<Command>, i: nat)
    requires IsRun(states, commands) && i < |commands|
    ensures GateKept(states[i], states[i + 1])
  {
    ReachableInv(states, commands, i);
    SteppedIsSound(states, commands, i);
  }

  lemma RunEntry(states: seq<State>, commands: seq<Command>, i: nat, e: Id)
    requires IsRun(states, commands) && i < |commands|
    ensures EntryKeepsBriefs(states[i], states[i + 1], e)
  {
    ReachableInv(states, commands, i);
    SteppedIsSound(states, commands, i);
  }

  lemma NoStep(states: seq<State>, commands: seq<Command>, i: nat)
    requires IsRun(states, commands) && i < |states|
    ensures Inv(states[i]) && Advances(states[i], states[i])
  {
    ReachableInv(states, commands, i);
    Stutter(states[i]);
  }

  /** What one state has settled, every later state of the run keeps. */
  lemma {:induction false} RunAdvances(states: seq<State>, commands: seq<Command>, i: nat, j: nat)
    requires IsRun(states, commands) && i <= j < |states|
    ensures Inv(states[i]) && Inv(states[j]) && Advances(states[i], states[j])
    decreases j
  {
    if i == j {
      NoStep(states, commands, i);
    } else {
      RunAdvances(states, commands, i, j - 1);
      OneMoreStep(states, commands, states[i], j - 1);
    }
  }

  lemma OneMoreStep(states: seq<State>, commands: seq<Command>, s: State, j: nat)
    requires IsRun(states, commands) && j < |commands| && Inv(s) && Advances(s, states[j])
    ensures Inv(states[j + 1]) && Advances(s, states[j + 1])
  {
    RunStep(states, commands, j);
    AdvancesTransitive(s, states[j], states[j + 1]);
  }

  /** The recordings gate keeps its first value for as long as it stays open. */
  lemma {:induction false} GateKeepsFirstValue(states: seq<State>, commands: seq<Command>, i: nat, j: nat)
    requires IsRun(states, commands) && i <= j < |states|
    requires forall k | i <= k <= j :: states[k].series.briefsApprovedAt.Some?
    ensures states[j].series.briefsApprovedAt == states[i].series.briefsApprovedAt
    decreases j
  {
    if i < j {
      GateKeepsFirstValue(states, commands, i, j - 1);
      RunKeepsGate(states, commands, j - 1);
    }
  }

  // ----- what a reader can rely on, in every reachable state -----

  ghost predicate Repeating(states: seq<State>, commands: seq<Command>, i: nat)
    requires |states| == |commands| + 1 && i < |commands|
  {
    RepeatingReorder(states[i], commands[i])
  }

  lemma RunNumbering(states: seq<State>, commands: seq<Command>, i: nat)
    requires IsRun(states, commands) && i < |commands|
    ensures Repeating(states, commands, i) ==> !PlanNumbered(states[i + 1])
    ensures !Repeating(states, commands, i) && PlanNumbered(states[i]) ==> PlanNumbered(states[i + 1])
  {
    ReachableInv(states, commands, i);
    assert Stepped(states, commands, i);
    StepIsSound(states[i], commands[i]);
  }

  lemma {:induction false} NumberedUntil(states: seq<State>, commands: seq<Command>, i: nat)
    requires IsRun(states, commands) && i < |states|
    requires forall k: nat | k < i :: !Repeating(states, commands, k)
    ensures PlanNumbered(states[i])
  {
    if i == 0 {
      InitialNumbers(states[0]);
    } else {
      NumberedUntil(states, commands, i - 1);
      RunNumbering(states, commands, i - 1);
    }
  }

  /** The plan is numbered 1..n throughout a run exactly when no reorder of the run repeats an id. */
  lemma NumberedExactly(states: seq<State>, commands: seq<Command>)
    requires IsRun(states, commands)
    ensures (forall i | 0 <= i < |states| :: PlanNumbered(states[i])) <==>
            (forall i: nat | i < |commands| :: !Repeating(states, commands, i))
  {
    if k: nat :| k < |commands| && Repeating(states, commands, k) {
      RunNumbering(states, commands, k);
      assert !PlanNumbered(states[k + 1]);
    } else {
      forall i | 0 <= i < |states| ensures PlanNumbered(states[i]) {
        NumberedUntil(states, commands, i);
      }
    }
  }

  /** Whatever was reordered, episode numbers are positive and no two are equal. */
  lemma NumbersDiffer(states: seq<State>, commands: seq<Command>, i: nat, e: Id, f: Id)
    requires IsRun(states, commands) && i < |states| && e in states[i].episodes && f in states[i].episodes
    ensures 1 <= states[i].episodes[e].episodeNumber
    ensures states[i].episodes[e].episodeNumber == states[i].episodes[f].episodeNumber ==> e == f
  {
    ReachableInv(states, commands, i);
    var numbers := PlanSteps.NumbersOf(states[i].episodes);
    assert EpisodeNumbering.Unlike(numbers, e, f) && e in numbers;
  }

  /** Until a reorder repeats an id, the numbers are exactly 1..n. */
  lemma PlanIsNumbered(states: seq<State>, commands: seq<Command>, i: nat, e: Id, number: int)
    requires IsRun(states, commands) && i < |states|
    requires forall k: nat | k < i :: !Repeating(states, commands, k)
    ensures var episodes := states[i].episodes;
            && (e in episodes ==> 1 <= episodes[e].episodeNumber <= |episodes|)
            && (1 <= number <= |episodes| ==> exists g <- episodes :: episodes[g].episodeNumber == number)
  {
    NumberedUntil(states, commands, i);
    var (episodes, numbers) := (states[i].episodes, PlanSteps.NumbersOf(states[i].episodes));
    assert |numbers.Keys| == |episodes.Keys|;
    assert e in episodes ==> e in numbers;
    if 1 <= number <= |episodes| {
      var g := EpisodeNumbering.Holder(numbers, number);
      assert g in episodes;
    }
  }

  lemma HostIsNotGuest(states: seq<State>, commands: seq<Command>, i: nat, e: Id)
    requires IsRun(states, commands) && i < |states| && e in states[i].episodes
    ensures states[i].episodes[e].hostProfileId.Some? ==>
              states[i].episodes[e].hostProfileId != states[i].episodes[e].guestProfileId
  {
    ReachableInv(states, commands, i);
    assert EpisodeInv(states[i], e);
  }

  /** From the lock on, for the rest of the run: the same episodes and narrative, and one outline an episode. */
  lemma LockFreezesPlan(states: seq<State>, commands: seq<Command>, i: nat, j: nat)
    requires IsRun(states, commands) && i <= j < |states| && Locked(states[i])
    ensures states[j].series.planLockedAt == states[i].series.planLockedAt
    ensures states[j].episodes.Keys == states[i].episodes.Keys == states[j].outlines.Keys
    ensures PlanSteps.FindSelected(states[j].narratives, false) == PlanSteps.FindSelected(states[i].narratives, false)
    ensures PlanSteps.FindSelected(states[i].narratives, false).Some?
  {
    RunAdvances(states, commands, i, j);
  }

  /** And each episode keeps its number, texts and casting. */
  lemma LockFreezesEpisodes(states: seq<State>, commands: seq<Command>, i: nat, j: nat, e: Id)
    requires IsRun(states, commands) && i <= j < |states| && Locked(states[i]) && e in states[i].episodes
    ensures e in states[j].episodes && SamePlan(states[i].episodes[e], states[j].episodes[e])
  {
    RunAdvances(states, commands, i, j);
    assert EpisodeAdvances(states[i], states[j], e);
  }

  /**
   An outline freezes when its episode's first briefs appear: later it is the same row, approved at its current
   version, and every brief version ever written cites that version.
   */
  lemma BriefsPinOutline(states: seq<State>, commands: seq<Command>, i: nat, j: nat, e: Id, kind: BriefKind)
    requires IsRun(states, commands) && i <= j < |states| && (e, kind) in states[i].briefs
    ensures e in states[i].outlines && e in states[j].outlines && states[j].outlines[e] == states[i].outlines[e]
    ensures states[j].outlines[e].status == OutlineApproved
    ensures states[j].outlines[e].approved == states[j].outlines[e].current && states[j].outlines[e].current.Some?
    ensures (e, kind) in states[j].briefs
    ensures forall v <- states[j].briefs[(e, kind)].versions ::
              v.outlineEpisode == e && Some(v.outlineVersion) == states[i].outlines[e].approved
  {
    RunAdvances(states, commands, i, j);
    var (s, t) := (states[i], states[j]);
    assert EpisodeInv(s, e) && EpisodeInv(t, e) && EpisodeAdvances(s, t, e);
    var (before, after) := (RowsOf(s, e), RowsOf(t, e));
    assert before.Brief(kind).Some? && after.Brief(kind) == Row(t.briefs, (e, kind));
  }

  /** Both briefs exist or neither does; they are approved together, at one time, or neither is. */
  lemma BriefsComeInPairs(states: seq<State>, commands: seq<Command>, i: nat, e: Id)
    requires IsRun(states, commands) && i < |states|
    ensures (e, Host) in states[i].briefs <==> (e, Guest) in states[i].briefs
    ensures (e, Host) in states[i].briefs ==>
              var (host, guest) := (states[i].briefs[(e, Host)], states[i].briefs[(e, Guest)]);
              if host.status == BriefApproved || guest.status == BriefApproved then
                && host.status == guest.status && host.approvedAt == guest.approvedAt && host.approvedAt.Some?
                && host.approved == host.current && host.current.Some?
                && guest.approved == guest.current && guest.current.Some?
              else
                host.approved.None? && host.approvedAt.None? && guest.approved.None? && guest.approvedAt.None?
  {
    ReachableInv(states, commands, i);
    assert EpisodeInv(states[i], e);
  }

  /** The gate is open exactly while some episode's pair is approved. */
  lemma GateTracksApprovals(states: seq<State>, commands: seq<Command>, i: nat)
    requires IsRun(states, commands) && i < |states|
    ensures var s := states[i];
            && (s.series.briefsApprovedAt.Some? <==>
                  exists e :: e in s.episodes && |BriefSteps.ApprovedRows(s.briefs, e)| == 2)
            && (s.series.currentStage == RecordingsStage ==> s.series.briefsApprovedAt.Some?)
  {
    ReachableInv(states, commands, i);
    var s := states[i];
    forall e | e in s.episodes
      ensures e in BriefSteps.ApprovedEpisodes(s) <==> |BriefSteps.ApprovedRows(s.briefs, e)| == 2
    {
      BriefSteps.CountTwoIsBothKinds(s, e);
    }
    if s.series.briefsApprovedAt.Some? {
      var e :| e in BriefSteps.ApprovedEpisodes(s);
      assert |BriefSteps.ApprovedRows(s.briefs, e)| == 2;
    }
  }

  lemma RecordedIsLocked(s: State, e: Id)
    requires Inv(s) && RecordedIn(s, e)
    ensures Locked(s) && (e, Host) in s.briefs
  {
    RowsHold(s, e);
  }

  /** From recording on an episode's briefs never change, and it never leaves the recorded statuses. */
  lemma RecordingFreezesBriefs(states: seq<State>, commands: seq<Command>, i: nat, j: nat, e: Id)
    requires IsRun(states, commands) && i <= j < |states|
    requires e in states[i].episodes && RecordedOrLater(states[i].episodes[e].status)
    ensures e in states[j].episodes && RecordedOrLater(states[j].episodes[e].status)
    ensures Row(states[j].briefs, (e, Host)) == Row(states[i].briefs, (e, Host))
    ensures Row(states[j].briefs, (e, Guest)) == Row(states[i].briefs, (e, Guest))
  {
    RunAdvances(states, commands, i, j);
    RecordedIsLocked(states[i], e);
    assert EpisodeAdvances(states[i], states[j], e);
  }

  /** Outline histories are numbered 1..k and only grow; the row holds the newest version. */
  lemma OutlineHistoryGrows(states: seq<State>, commands: seq<Command>, i: nat, j: nat, e: Id)
    requires IsRun(states, commands) && i <= j < |states| && e in states[i].outlines
    ensures e in states[j].outlines && states[i].outlines[e].versions <= states[j].outlines[e].versions
    ensures OutlineHistory(states[j].outlines[e])
  {
    RunAdvances(states, commands, i, j);
    assert EpisodeInv(states[i], e) && EpisodeInv(states[j], e) && EpisodeAdvances(states[i], states[j], e);
  }

  lemma BriefHistoryGrows(states: seq<State>, commands: seq<Command>, i: nat, j: nat, e: Id, kind: BriefKind)
    requires IsRun(states, commands) && i <= j < |states| && (e, kind) in states[i].briefs
    ensures (e, kind) in states[j].briefs
    ensures states[i].briefs[(e, kind)].versions <= states[j].briefs[(e, kind)].versions
    ensures e in states[j].outlines && states[j].outlines[e].current.Some?
    ensures BriefHistory(states[j].briefs[(e, kind)], e, states[j].outlines[e].current.value)
  {
    RunAdvances(states, commands, i, j);
    var (s, t) := (states[i], states[j]);
    assert EpisodeInv(s, e) && EpisodeInv(t, e) && EpisodeAdvances(s, t, e);
    assert RowsOf(s, e).Brief(kind) == Row(s.briefs, (e, kind)) && RowsOf(t, e).Brief(kind) == Row(t.briefs, (e, kind));
  }

  /** At most one narrative is selected, `is_selected` mirrors the status, and generations never fall. */
  lemma OneNarrativeSelected(states: seq<State>, commands: seq<Command>, i: nat, j: nat)
    requires IsRun(states, commands) && i <= j < |states|
    ensures NarrativesInv(states[i].narratives) && NarrativesAdvance(states[i].narratives, states[j].narratives)
  {
    RunAdvances(states, commands, i, j);
  }

  // ----- from approval to publication -----

  /** Captions are unlocked exactly while a recording is ready, scheduling exactly while a caption is. */
  lemma UnlockedExactly(states: seq<State>, commands: seq<Command>, i: nat)
    requires IsRun(states, commands) && i < |states|
    ensures var s := states[i];
            && (s.series.captionsUnlockedAt.Some? <==>
                  exists e :: e in s.episodes && LaterSteps.RecordingReady(LaterSteps.MediaOf(s, e)))
            && (s.series.schedulingUnlockedAt.Some? <==>
                  exists k :: k in s.production.captions && s.production.captions[k].status == CaptionReady)
  {
    ReachableInv(states, commands, i);
  }

  /** Neither is ever locked again, and both keep their first time. */
  lemma UnlocksStay(states: seq<State>, commands: seq<Command>, i: nat, j: nat)
    requires IsRun(states, commands) && i <= j < |states|
    ensures UnlocksKept(states[i].series, states[j].series)
  {
    RunAdvances(states, commands, i, j);
  }

  /** Whatever is scheduled or published has a ready caption, a ready recording, both briefs and an approved outline. */
  lemma SchedulesAreBacked(states: seq<State>, commands: seq<Command>, i: nat, x: Schedule)
    requires IsRun(states, commands) && i < |states| && x in states[i].production.schedules
    ensures var (s, e) := (states[i], x.caption.episode);
            && x.caption in s.production.captions && s.production.captions[x.caption].status == CaptionReady
            && e in s.production.media && LaterSteps.RecordingReady(s.production.media[e])
            && (e, Host) in s.briefs && (e, Guest) in s.briefs
            && e in s.outlines && s.outlines[e].status == OutlineApproved && Locked(s)
  {
    ReachableInv(states, commands, i);
    assert CaptionInv(states[i].production, x.caption);
    assert EpisodeInv(states[i], x.caption.episode);
  }

  lemma NotAtFirst(states: seq<State>, commands: seq<Command>, j: nat, e: Id)
    requires IsRun(states, commands) && j < |states| && RecordedIn(states[j], e)
    ensures j > 0
  {
    ReachableInv(states, commands, j);
    RecordedIsLocked(states[j], e);
  }

  /** Every recorded episode became recorded at some step of the run. */
  lemma {:induction false} RecordedEntered(states: seq<State>, commands: seq<Command>, j: nat, e: Id) returns (i: nat)
    requires IsRun(states, commands) && j < |states| && RecordedIn(states[j], e)
    ensures i < j && e in states[i].episodes && !RecordedIn(states[i], e) && RecordedIn(states[i + 1], e)
  {
    NotAtFirst(states, commands, j, e);
    i := j - 1;
    if RecordedIn(states[i], e) {
      i := RecordedEntered(states, commands, i, e);
    } else {
      RunEntry(states, commands, i, e);
    }
  }

  lemma ApprovedBeforeRecording(s: State, e: Id)
    requires Inv(s) && e in s.episodes && !RecordedIn(s, e)
    ensures BriefSteps.PairApproved(RowsOf(s, e)) <==> s.episodes[e].status == Approved
  {
    assert EpisodeInv(s, e);
  }

  /**
   From then on its pair is approved, at every later moment, exactly when the episode was APPROVED at that step:
   what the check before it has to look at.
   */
  lemma ApprovedFromRecordingOn(states: seq<State>, commands: seq<Command>, i: nat, j: nat, e: Id)
    requires IsRun(states, commands) && i < j < |states|
    requires e in states[i].episodes && !RecordedIn(states[i], e) && RecordedIn(states[i + 1], e)
    ensures RecordedIn(states[j], e)
    ensures BriefSteps.PairApproved(RowsOf(states[j], e)) <==> states[i].episodes[e].status == Approved
  {
    ReachableInv(states, commands, i);
    RunEntry(states, commands, i, e);
    ApprovedBeforeRecording(states[i], e);
    RecordingFreezesBriefs(states, commands, i + 1, j, e);
  }
}
