/**
 What follows approval: recordings (recordings/service.py), captions (captions/service.py) and schedules
 (schedules/service.py). What Buffer makes of a post is an input and may be anything.
 */
module LaterSteps {
  import opened Wrappers
  import opened WorkflowRows
  import opened BriefSteps
  import opened PublishState

  // ----- recordings -----

  function MediaOf(s: State, e: Id): Media {
    if e in s.production.media then s.production.media[e] else NO_MEDIA
  }

  predicate TranscriptReady(media: Media) {
    media.transcript.Some? && media.transcript.value != TranscriptFailed
  }

  /** A video and a usable transcript: what unlocks captions. */
  predicate RecordingReady(media: Media) {
    media.hasFile && TranscriptReady(media)
  }

  predicate AnyRecordingReady(s: State) {
    exists e <- s.episodes :: RecordingReady(MediaOf(s, e))
  }

  function SyncCaptionUnlock(s: State, now: int): State {
    var series := s.series;
    if AnyRecordingReady(s) then
      var first := if series.captionsUnlockedAt.Some? then series.captionsUnlockedAt else Some(now);
      var stage := if series.currentStage == RecordingsStage then CaptionsStage else series.currentStage;
      s.(series := series.(captionsUnlockedAt := first, currentStage := stage))
    else
      var stage := if series.currentStage == CaptionsStage then RecordingsStage else series.currentStage;
      s.(series := series.(captionsUnlockedAt := None, currentStage := stage))
  }

  function Recordable(s: State, e: Id): (r: Result<(), HttpError>)
    ensures r.Ok? ==> s.series.briefsApprovedAt.Some? && e in s.episodes && PairApproved(RowsOf(s, e))
  {
    var _ :- Require(s.series.briefsApprovedAt.Some?, Conflict);
    var _ :- Require(e in s.episodes, NotFound);
    Require(PairApproved(RowsOf(s, e)), Conflict)
  }

  predicate SlotOpen(media: Media) {
    media.lockedAt.None? && media.status != VideoLocked
  }

  function Refreshed(media: Media): Media {
    media.(status := if media.lockedAt.Some? then VideoLocked
                     else if media.hasFile && media.transcript.Some? then VideoComplete
                     else if media.hasFile then VideoUploaded else VideoMissing)
  }

  function WithMedia(s: State, e: Id, media: Media): State {
    s.(production := s.production.(media := s.production.media[e := media]))
  }

  function Producing(s: State): State {
    s.(series := s.series.(status := InProduction))
  }

  function MediaUploaded(s: State, e: Id, media: Media, now: int): State {
    Producing(SyncCaptionUnlock(WithMedia(s, e, Refreshed(media)), now))
  }

  /** Opening the workspace. */
  function OpenRecordings(s: State, now: int): Result<State, HttpError> {
    var _ :- Require(s.series.briefsApprovedAt.Some?, Conflict);
    Ok(SyncCaptionUnlock(s, now))
  }

  function UploadVideo(s: State, e: Id, now: int): Result<State, HttpError> {
    var _ :- Recordable(s, e);
    var media := MediaOf(s, e);
    var _ :- Require(SlotOpen(media), Conflict);
    Ok(MediaUploaded(s, e, media.(hasFile := true), now))
  }

  function UploadTranscript(s: State, e: Id, now: int): Result<State, HttpError> {
    var _ :- Recordable(s, e);
    var media := MediaOf(s, e);
    var _ :- Require(SlotOpen(media), Conflict);
    Ok(MediaUploaded(s, e, media.(transcript := Some(Processed)), now))
  }

  const CLIP_SLOTS := {1, 2, 3}

  /** Three slots are suggested; a slot suggested again keeps its uploaded video. */
  function WithClips(clips: map<(Id, int), bool>, e: Id): map<(Id, int), bool> {
    map k | k in clips.Keys + (set slot | slot in CLIP_SLOTS :: (e, slot)) :: k in clips && clips[k]
  }

  function ClipsWritten(s: State, clips: map<(Id, int), bool>, now: int): State {
    SyncCaptionUnlock(s.(production := s.production.(clips := clips)), now)
  }

  function RequestClips(s: State, e: Id, now: int): Result<State, HttpError> {
    var _ :- Recordable(s, e);
    var _ :- Require(TranscriptReady(MediaOf(s, e)), Conflict);
    Ok(ClipsWritten(s, WithClips(s.production.clips, e), now))
  }

  function UploadClip(s: State, e: Id, slot: int, now: int): Result<State, HttpError> {
    var _ :- Recordable(s, e);
    var _ :- Require(SlotOpen(MediaOf(s, e)), Conflict);
    var _ :- Require((e, slot) in s.production.clips, NotFound);
    Ok(ClipsWritten(s, s.production.clips[(e, slot) := true], now))
  }

  function LockedMedia(media: Media, now: int): Media {
    media.(status := VideoLocked, lockedAt := if media.lockedAt.Some? then media.lockedAt else Some(now))
  }

  function RecordingLocked(s: State, e: Id, media: Media): State
    requires e in s.episodes
  {
    Producing(WithMedia(s, e, media).(episodes := s.episodes[e := s.episodes[e].(status := Recorded)]))
  }

  function LockRecording(s: State, e: Id, now: int): Result<State, HttpError> {
    var _ :- Recordable(s, e);
    var media := MediaOf(s, e);
    var _ :- Require(RecordingReady(media), Conflict);
    Ok(SyncCaptionUnlock(RecordingLocked(s, e, LockedMedia(media, now)), now))
  }

  // ----- captions -----

  const FULL_EPISODE_PLATFORMS := {LinkedIn, Facebook, YouTube}

  predicate CaptionsUnlocked(series: Series) {
    || series.captionsUnlockedAt.Some? || series.schedulingUnlockedAt.Some?
    || series.currentStage in {CaptionsStage, ScheduleStage}
  }

  predicate Captionable(media: Media) {
    media.status != VideoMissing && RecordingReady(media)
  }

  /** The full-episode rows the workspace adds for every episode with a usable transcript. */
  function FullEpisodeKeys(s: State): set<CaptionKey> {
    set e, p | e in s.episodes && p in FULL_EPISODE_PLATFORMS && TranscriptReady(MediaOf(s, e)) ::
      CaptionKey(e, None, p)
  }

  function WithCaptions(captions: map<CaptionKey, Caption>, keys: set<CaptionKey>): (r: map<CaptionKey, Caption>)
    ensures r.Keys == captions.Keys + keys
  {
    map k | k in captions.Keys + keys :: if k in captions then captions[k] else Caption(NotStarted, "")
  }

  function CaptionsAdded(s: State, keys: set<CaptionKey>): State {
    s.(production := s.production.(captions := WithCaptions(s.production.captions, keys)))
  }

  function OpenCaptions(s: State): Result<State, HttpError> {
    var _ :- Require(CaptionsUnlocked(s.series), Conflict);
    Ok(CaptionsAdded(s, FullEpisodeKeys(s)))
  }

  function AddPlatform(s: State, key: CaptionKey): Result<State, HttpError> {
    var _ :- Require(CaptionsUnlocked(s.series), Conflict);
    var _ :- Require(key.episode in s.episodes, NotFound);
    var _ :- Require(Captionable(MediaOf(s, key.episode)), Conflict);
    var _ :- Require(key.clip.Some? || key.platform in FULL_EPISODE_PLATFORMS, BadRequest);
    var _ :- Require(key.clip.None? || (key.episode, key.clip.value) in s.production.clips, NotFound);
    var _ :- Require(key !in s.production.captions, Conflict);
    Ok(CaptionsAdded(s, {key}))
  }

  /** Generating, regenerating or editing a caption; the one just written is ready, so scheduling unlocks. */
  function WriteCaption(s: State, key: CaptionKey, text: string, now: int): Result<State, HttpError> {
    var _ :- Require(key in s.production.captions && key.episode in s.episodes, NotFound);
    var _ :- Require(Captionable(MediaOf(s, key.episode)), Conflict);
    var episode := s.episodes[key.episode];
    var status := if episode.status in {Approved, Recorded} then Captioning else episode.status;
    var first := if s.series.schedulingUnlockedAt.Some? then s.series.schedulingUnlockedAt else Some(now);
    var captions := s.production.captions[key := Caption(CaptionReady, text)];
    Ok(s.(series := s.series.(schedulingUnlockedAt := first, currentStage := ScheduleStage, status := InProduction),
          episodes := s.episodes[key.episode := episode.(status := status)],
          production := s.production.(captions := captions)))
  }

  // ----- schedules -----

  /** A ready caption with a text, of an uploaded clip if it is a clip's. */
  predicate Schedulable(production: Production, key: CaptionKey) {
    && key in production.captions
    && production.captions[key].status == CaptionReady && production.captions[key].text != ""
    && (key.clip.Some? ==>
          (key.episode, key.clip.value) in production.clips && production.clips[(key.episode, key.clip.value)])
  }

  predicate HasSchedule(schedules: seq<Schedule>, key: CaptionKey) {
    exists x <- schedules :: x.caption == key
  }

  /** Already scheduled or published. */
  predicate Taken(schedules: seq<Schedule>, key: CaptionKey) {
    exists x <- schedules :: x.caption == key && x.status !in {PostFailed, PostCancelled}
  }

  /** The caption's schedule with its new status, in place, or a new one. */
  function Upserted(schedules: seq<Schedule>, key: CaptionKey, outcome: ScheduleStatus): seq<Schedule> {
    if !HasSchedule(schedules, key) then schedules + [Schedule(key, outcome)]
    else
      seq(|schedules|, i requires 0 <= i < |schedules| =>
        if schedules[i].caption == key then Schedule(key, outcome) else schedules[i])
  }

  function RefreshPublish(s: State): State {
    var schedules := s.production.schedules;
    s.(series := s.series.(status := SeriesAfter(s.series.status, schedules)),
       episodes := EpisodesAfter(s.episodes, schedules))
  }

  function WithSchedules(s: State, schedules: seq<Schedule>): State {
    RefreshPublish(s.(production := s.production.(schedules := schedules)))
  }

  function CreateSchedule(s: State, key: CaptionKey, outcome: ScheduleStatus): Result<State, HttpError> {
    var _ :- Require(s.series.schedulingUnlockedAt.Some?, Conflict);
    var _ :- Require(key in s.production.captions, NotFound);
    var _ :- Require(Schedulable(s.production, key), Conflict);
    var _ :- Require(!Taken(s.production.schedules, key), Conflict);
    Ok(WithSchedules(s, Upserted(s.production.schedules, key, outcome)))
  }

  /** Captions that are not ready or already scheduled are skipped. */
  function UpsertAll(production: Production, keys: seq<CaptionKey>,
                     outcome: CaptionKey -> ScheduleStatus): seq<Schedule>
  {
    if keys == [] then production.schedules
    else
      var (schedules, key) := (UpsertAll(production, keys[..|keys| - 1], outcome), keys[|keys| - 1]);
      if Schedulable(production, key) && !Taken(schedules, key) then Upserted(schedules, key, outcome(key))
      else schedules
  }

  function BulkSchedule(s: State, keys: seq<CaptionKey>,
                        outcome: CaptionKey -> ScheduleStatus): Result<State, HttpError>
  {
    var _ :- Require(s.series.schedulingUnlockedAt.Some?, Conflict);
    Ok(WithSchedules(s, UpsertAll(s.production, keys, outcome)))
  }

  /**
   Editing, rescheduling, cancelling and synchronising: any schedule may get any status (None deletes it), and
   none appears.
   */
  function Settled(schedules: seq<Schedule>, outcome: Schedule -> Option<ScheduleStatus>): (r: seq<Schedule>)
    ensures forall x <- r :: HasSchedule(schedules, x.caption)
  {
    if schedules == [] then []
    else
      var (init, last) := (schedules[..|schedules| - 1], schedules[|schedules| - 1]);
      assert schedules == init + [last];
      assert last in schedules;
      var rest := Settled(init, outcome);
      assert forall x <- rest :: HasSchedule(schedules, x.caption) by {
        forall x <- rest ensures HasSchedule(schedules, x.caption) {
          var y :| y in init && y.caption == x.caption;
          assert y in schedules;
        }
      }
      if outcome(last).None? then rest else rest + [Schedule(last.caption, outcome(last).value)]
  }

  function SettleSchedules(s: State, outcome: Schedule -> Option<ScheduleStatus>): State {
    WithSchedules(s, Settled(s.production.schedules, outcome))
  }
}
