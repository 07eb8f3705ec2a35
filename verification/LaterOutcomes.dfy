/**
 When each command on recordings, captions and schedules succeeds, which error refuses it otherwise, and what it
 writes, said of the rows and the arguments alone.
 */
module LaterOutcomes {
  import opened Wrappers
  import opened WorkflowRows
  import opened LaterSteps
  import opened DraftOutcomes
  import PublishState

  // ----- recordings -----

  /** The episode's slot and transcript, or that it has none. */
  function Slot(s: State, e: Id): Media {
    if e in s.production.media then s.production.media[e] else Media(false, VideoMissing, None, None)
  }

  predicate UsableTranscript(media: Media) {
    media.transcript == Some(TranscriptUploaded) || media.transcript == Some(Processed)
  }

  predicate Complete(media: Media) {
    media.hasFile && UsableTranscript(media)
  }

  /** Captions open with the first complete recording and keep that time; the stage follows. */
  predicate CaptionGate(before: Series, t: State, now: int) {
    if exists e <- t.episodes :: Complete(Slot(t, e)) then
      t.series == before.(captionsUnlockedAt :=
                            if before.captionsUnlockedAt.Some? then before.captionsUnlockedAt else Some(now),
                          currentStage := if before.currentStage == RecordingsStage then CaptionsStage
                                          else before.currentStage)
    else
      t.series == before.(captionsUnlockedAt := None,
                          currentStage := if before.currentStage == CaptionsStage then RecordingsStage
                                          else before.currentStage)
  }

  lemma CaptionGateFollows(s: State, now: int)
    ensures var t := SyncCaptionUnlock(s, now);
            t == s.(series := t.series) && CaptionGate(s.series, t, now)
  {
    var t := SyncCaptionUnlock(s, now);
    forall e <- s.episodes ensures RecordingReady(MediaOf(s, e)) <==> Complete(Slot(t, e)) {
      var transcript := MediaOf(s, e).transcript;
      assert transcript.Some? && transcript.value != TranscriptFailed <==> UsableTranscript(Slot(t, e));
    }
  }

  ghost predicate RecordingRefused(s: State, e: Id, error: HttpError) {
    match error
    case Conflict => s.series.briefsApprovedAt.None? || (e in s.episodes && !BothApproved(s, e))
    case NotFound => s.series.briefsApprovedAt.Some? && e !in s.episodes
    case _ => false
  }

  predicate RecordingOpen(s: State, e: Id) {
    s.series.briefsApprovedAt.Some? && e in s.episodes && BothApproved(s, e)
  }

  lemma GuardsRecording(s: State, e: Id)
    ensures LaterSteps.Recordable(s, e).Ok? <==> RecordingOpen(s, e)
    ensures forall error :: LaterSteps.Recordable(s, e) == Err(error) <==> RecordingRefused(s, e, error)
  {
    if e in s.episodes {
      assert RowsOf(s, e).host == Row(s.briefs, (e, Host)) && RowsOf(s, e).guest == Row(s.briefs, (e, Guest));
    }
  }

  predicate Unlocked(media: Media) {
    media.status != VideoLocked && media.lockedAt.None?
  }

  /** Episode e's slot is written, and the gate follows. */
  predicate SlotWritten(s: State, e: Id, t: State, media: Media, now: int) {
    && t == s.(series := t.series, production := s.production.(media := s.production.media[e := media]))
    && CaptionGate(s.series.(status := InProduction), t, now)
  }

  lemma WritesSlot(s: State, e: Id, media: Media, now: int)
    ensures SlotWritten(s, e, MediaUploaded(s, e, media, now), Refreshed(media), now)
  {
    var written := WithMedia(s, e, Refreshed(media));
    CaptionGateFollows(written, now);
    var t := MediaUploaded(s, e, media, now);
    var u := SyncCaptionUnlock(written, now);
    forall f <- s.episodes ensures Complete(Slot(t, f)) <==> Complete(Slot(u, f)) {
    }
  }

  lemma UploadVideoOutcome(s: State, e: Id, now: int)
    ensures var r := UploadVideo(s, e, now);
            if !RecordingOpen(s, e) then r.Err? && RecordingRefused(s, e, r.error)
            else if !Unlocked(Slot(s, e)) then r == Err(Conflict)
            else
              && r.Ok?
              && var status := if Slot(s, e).transcript.Some? then VideoComplete else VideoUploaded;
              SlotWritten(s, e, r.value, Media(true, status, None, Slot(s, e).transcript), now)
  {
    GuardsRecording(s, e);
    WritesSlot(s, e, MediaOf(s, e).(hasFile := true), now);
  }

  lemma UploadTranscriptOutcome(s: State, e: Id, now: int)
    ensures var r := UploadTranscript(s, e, now);
            if !RecordingOpen(s, e) then r.Err? && RecordingRefused(s, e, r.error)
            else if !Unlocked(Slot(s, e)) then r == Err(Conflict)
            else
              && r.Ok?
              && var status := if Slot(s, e).hasFile then VideoComplete else VideoMissing;
              SlotWritten(s, e, r.value, Media(Slot(s, e).hasFile, status, None, Some(Processed)), now)
  {
    GuardsRecording(s, e);
    WritesSlot(s, e, MediaOf(s, e).(transcript := Some(Processed)), now);
  }

  lemma OpenRecordingsOutcome(s: State, now: int)
    ensures var r := OpenRecordings(s, now);
            if s.series.briefsApprovedAt.None? then r == Err(Conflict)
            else r.Ok? && r.value == s.(series := r.value.series) && CaptionGate(s.series, r.value, now)
  {
    CaptionGateFollows(s, now);
  }

  /** Only the clips are written, and the gate follows. */
  predicate ClipsOnly(s: State, t: State, now: int) {
    && t == s.(series := t.series, production := s.production.(clips := t.production.clips))
    && CaptionGate(s.series, t, now)
  }

  lemma WritesClips(s: State, clips: map<(Id, int), bool>, now: int)
    ensures var t := ClipsWritten(s, clips, now);
            ClipsOnly(s, t, now) && t.production.clips == clips
  {
    CaptionGateFollows(s.(production := s.production.(clips := clips)), now);
  }

  /** Three slots without a video appear where there were none; every clip there was stays as it was. */
  ghost predicate ThreeSlots(s: State, e: Id, t: State) {
    && (forall slot: int :: (e, slot) in t.production.clips <==>
                            slot == 1 || slot == 2 || slot == 3 || (e, slot) in s.production.clips)
    && (forall slot: int | (e, slot) in t.production.clips && (e, slot) !in s.production.clips ::
          !t.production.clips[(e, slot)])
    && (forall k <- s.production.clips :: k in t.production.clips && t.production.clips[k] == s.production.clips[k])
    && (forall k <- t.production.clips :: k.0 == e || k in s.production.clips)
  }

  lemma RequestClipsOutcome(s: State, e: Id, now: int)
    ensures var r := RequestClips(s, e, now);
            if !RecordingOpen(s, e) then r.Err? && RecordingRefused(s, e, r.error)
            else if !UsableTranscript(Slot(s, e)) then r == Err(Conflict)
            else r.Ok? && ClipsOnly(s, r.value, now) && ThreeSlots(s, e, r.value)
  {
    GuardsRecording(s, e);
    WritesClips(s, WithClips(s.production.clips, e), now);
    var transcript := MediaOf(s, e).transcript;
    assert transcript.Some? && transcript.value != TranscriptFailed <==> UsableTranscript(Slot(s, e));
  }

  lemma UploadClipOutcome(s: State, e: Id, slot: int, now: int)
    ensures var r := UploadClip(s, e, slot, now);
            if !RecordingOpen(s, e) then r.Err? && RecordingRefused(s, e, r.error)
            else if !Unlocked(Slot(s, e)) then r == Err(Conflict)
            else if (e, slot) !in s.production.clips then r == Err(NotFound)
            else r.Ok? && ClipsOnly(s, r.value, now)
                 && r.value.production.clips == s.production.clips[(e, slot) := true]
  {
    GuardsRecording(s, e);
    WritesClips(s, s.production.clips[(e, slot) := true], now);
  }

  /** A lock keeps the files and an earlier lock's time, and the episode is recorded. */
  predicate RecordingClosed(s: State, e: Id, t: State, now: int)
    requires e in s.episodes
  {
    && e in t.production.media
    && var (before, after) := (Slot(s, e), t.production.media[e]);
    && after.hasFile && after.transcript == before.transcript && after.status == VideoLocked
    && after.lockedAt == (if before.lockedAt.Some? then before.lockedAt else Some(now))
    && t == s.(series := t.series, episodes := s.episodes[e := s.episodes[e].(status := Recorded)],
               production := s.production.(media := s.production.media[e := after]))
    && CaptionGate(s.series.(status := InProduction), t, now)
  }

  lemma LockRecordingOutcome(s: State, e: Id, now: int)
    ensures var r := LockRecording(s, e, now);
            if !RecordingOpen(s, e) then r.Err? && RecordingRefused(s, e, r.error)
            else if !Complete(Slot(s, e)) then r == Err(Conflict)
            else r.Ok? && RecordingClosed(s, e, r.value, now)
  {
    GuardsRecording(s, e);
    var media := MediaOf(s, e);
    assert media.transcript.Some? && media.transcript.value != TranscriptFailed <==> UsableTranscript(Slot(s, e));
    if e in s.episodes {
      CaptionGateFollows(RecordingLocked(s, e, LockedMedia(media, now)), now);
    }
  }

  // ----- captions -----

  predicate CaptionsOpen(series: Series) {
    || series.captionsUnlockedAt.Some? || series.schedulingUnlockedAt.Some?
    || series.currentStage == CaptionsStage || series.currentStage == ScheduleStage
  }

  predicate FullEpisodePlatform(platform: Platform) {
    platform == LinkedIn || platform == Facebook || platform == YouTube
  }

  /** Empty rows join; every caption there was stays. */
  ghost predicate CaptionsJoin(s: State, t: State, joins: CaptionKey -> bool) {
    && t == s.(production := s.production.(captions := t.production.captions))
    && forall k :: Row(t.production.captions, k) ==
         if k in s.production.captions then Some(s.production.captions[k])
         else if joins(k) then Some(Caption(NotStarted, "")) else None
  }

  lemma OpenCaptionsOutcome(s: State)
    ensures var r := OpenCaptions(s);
            if !CaptionsOpen(s.series) then r == Err(Conflict)
            else r.Ok? && CaptionsJoin(s, r.value, (k: CaptionKey) =>
                   && k.clip.None? && FullEpisodePlatform(k.platform) && k.episode in s.episodes
                   && UsableTranscript(Slot(s, k.episode)))
  {
    forall k: CaptionKey
      ensures k in FullEpisodeKeys(s) <==>
              && k.clip.None? && FullEpisodePlatform(k.platform) && k.episode in s.episodes
              && UsableTranscript(Slot(s, k.episode))
    {
      var transcript := MediaOf(s, k.episode).transcript;
      assert transcript.Some? && transcript.value != TranscriptFailed <==> UsableTranscript(Slot(s, k.episode));
      assert k == CaptionKey(k.episode, k.clip, k.platform);
    }
  }

  /** A caption can be written for a complete recording whose slot says there is a video. */
  predicate Captioned(media: Media) {
    Complete(media) && media.status != VideoMissing
  }

  lemma CaptionedExactly(s: State, e: Id)
    ensures Captionable(MediaOf(s, e)) <==> Captioned(Slot(s, e))
  {
    var transcript := MediaOf(s, e).transcript;
    assert transcript.Some? && transcript.value != TranscriptFailed <==> UsableTranscript(Slot(s, e));
  }

  lemma AddPlatformOutcome(s: State, key: CaptionKey)
    ensures var (r, clip) := (AddPlatform(s, key), key.clip);
            if !CaptionsOpen(s.series) then r == Err(Conflict)
            else if key.episode !in s.episodes then r == Err(NotFound)
            else if !Captioned(Slot(s, key.episode)) then r == Err(Conflict)
            else if clip.None? && !FullEpisodePlatform(key.platform) then r == Err(BadRequest)
            else if clip.Some? && (key.episode, clip.value) !in s.production.clips then r == Err(NotFound)
            else if key in s.production.captions then r == Err(Conflict)
            else r.Ok? && CaptionsJoin(s, r.value, k => k == key)
  {
    CaptionedExactly(s, key.episode);
  }

  function CaptionedEpisode(before: Episode): Episode {
    if before.status == Approved || before.status == Recorded then before.(status := Captioning) else before
  }

  lemma WriteCaptionOutcome(s: State, key: CaptionKey, text: string, now: int)
    ensures var r := WriteCaption(s, key, text, now);
            if key !in s.production.captions || key.episode !in s.episodes then r == Err(NotFound)
            else if !Captioned(Slot(s, key.episode)) then r == Err(Conflict)
            else
              && r.Ok? && r.value == s.(series := r.value.series, episodes := r.value.episodes,
                                        production := r.value.production)
              && r.value.production == s.production.(captions :=
                                                     s.production.captions[key := Caption(CaptionReady, text)])
              && (s.series.schedulingUnlockedAt.Some? ==>
                    r.value.series == s.series.(currentStage := ScheduleStage, status := InProduction))
              && (s.series.schedulingUnlockedAt.None? ==>
                    r.value.series == s.series.(schedulingUnlockedAt := Some(now), currentStage := ScheduleStage,
                                                status := InProduction))
              && var before := s.episodes[key.episode];
              r.value.episodes == s.episodes[key.episode := CaptionedEpisode(before)]
  {
    CaptionedExactly(s, key.episode);
  }

  // ----- what schedules make of the statuses -----

  /** Episode e has a schedule with that status. */
  predicate Has(t: State, e: Id, status: ScheduleStatus) {
    exists x <- t.production.schedules :: x.caption.episode == e && x.status == status
  }

  predicate AllPosted(t: State, e: Id) {
    forall x <- t.production.schedules :: x.caption.episode == e ==> x.status == Posted
  }

  predicate StatusFollows(t: State, e: Id, before: EpisodeStatus, after: EpisodeStatus) {
    if Has(t, e, Posted) then after == if AllPosted(t, e) then Published else PartiallyPublished
    else if Has(t, e, Queued) then after == Scheduled
    else if before == Scheduled || before == PartiallyPublished || before == Published then after == Captioning
    else after == before
  }

  predicate AnySchedule(t: State, status: ScheduleStatus) {
    exists x <- t.production.schedules :: x.status == status
  }

  predicate SeriesFollows(t: State, before: Series) {
    && t.series == before.(status := t.series.status)
    && if AnySchedule(t, Posted) then t.series.status == SeriesPartiallyPublished
       else if AnySchedule(t, Queued) || before.status == SeriesPartiallyPublished || before.status == SeriesComplete
       then t.series.status == InProduction
       else t.series.status == before.status
  }

  /** Only schedules are written, and the statuses follow them. */
  ghost predicate Rescheduled(s: State, t: State) {
    && t == s.(series := t.series, episodes := t.episodes,
               production := s.production.(schedules := t.production.schedules))
    && SeriesFollows(t, s.series) && t.episodes.Keys == s.episodes.Keys
    && forall e <- s.episodes ::
         && t.episodes[e] == s.episodes[e].(status := t.episodes[e].status)
         && StatusFollows(t, e, s.episodes[e].status, t.episodes[e].status)
  }

  lemma StatusesFollow(s: State, schedules: seq<Schedule>)
    ensures Rescheduled(s, WithSchedules(s, schedules)) && WithSchedules(s, schedules).production.schedules == schedules
  {
    var t := WithSchedules(s, schedules);
    forall e <- s.episodes ensures StatusFollows(t, e, s.episodes[e].status, t.episodes[e].status) {
      OwnStatuses(t, e);
    }
  }

  lemma OwnStatuses(t: State, e: Id)
    ensures var own := PublishState.Own(t.production.schedules, e);
            && (forall status :: PublishState.AnyStatus(own, status) <==> Has(t, e, status))
            && (PublishState.AllStatus(own, Posted) <==> AllPosted(t, e))
  {
  }

  // ----- which schedules are written -----

  predicate ReadyToPost(p: Production, key: CaptionKey) {
    && key in p.captions && p.captions[key].status == CaptionReady && |p.captions[key].text| > 0
    && match key.clip
       case None => true
       case Some(slot) => (key.episode, slot) in p.clips && p.clips[(key.episode, slot)]
  }

  predicate OnItsWay(schedules: seq<Schedule>, key: CaptionKey) {
    Schedule(key, Queued) in schedules || Schedule(key, Posted) in schedules
  }

  lemma TakenExactly(p: Production, schedules: seq<Schedule>, key: CaptionKey)
    ensures Taken(schedules, key) <==> OnItsWay(schedules, key)
    ensures Schedulable(p, key) <==> ReadyToPost(p, key)
  {
    if x :| x in schedules && x.caption == key && x.status !in {PostFailed, PostCancelled} {
      assert x == Schedule(key, x.status) && (x.status == Queued || x.status == Posted);
    }
  }

  /** The caption's schedule has its new status; every other row stays. */
  lemma UpsertedRows(schedules: seq<Schedule>, key: CaptionKey, outcome: ScheduleStatus, x: Schedule)
    ensures x in Upserted(schedules, key, outcome) <==>
            x == Schedule(key, outcome) || (x in schedules && x.caption != key)
  {
    var after := Upserted(schedules, key, outcome);
    if HasSchedule(schedules, key) {
      if x in schedules && x.caption != key {
        var i :| 0 <= i < |schedules| && schedules[i] == x;
        assert after[i] == x;
      }
      var y :| y in schedules && y.caption == key;
      var j :| 0 <= j < |schedules| && schedules[j] == y;
      assert after[j] == Schedule(key, outcome);
    }
  }

  lemma CreateScheduleOutcome(s: State, key: CaptionKey, outcome: ScheduleStatus)
    ensures var r := CreateSchedule(s, key, outcome);
            if s.series.schedulingUnlockedAt.None? then r == Err(Conflict)
            else if key !in s.production.captions then r == Err(NotFound)
            else if !ReadyToPost(s.production, key) || OnItsWay(s.production.schedules, key) then r == Err(Conflict)
            else
              && r.Ok? && Rescheduled(s, r.value)
              && forall x :: x in r.value.production.schedules <==>
                             x == Schedule(key, outcome) || (x in s.production.schedules && x.caption != key)
  {
    TakenExactly(s.production, s.production.schedules, key);
    var schedules := Upserted(s.production.schedules, key, outcome);
    StatusesFollow(s, schedules);
    forall x ensures x in schedules <==>
                     x == Schedule(key, outcome) || (x in s.production.schedules && x.caption != key) {
      UpsertedRows(s.production.schedules, key, outcome, x);
    }
  }

  /** The captions of a bulk request that are written: asked for, ready, and not on their way. */
  predicate Picked(p: Production, keys: seq<CaptionKey>, key: CaptionKey) {
    key in keys && ReadyToPost(p, key) && !OnItsWay(p.schedules, key)
  }

  /** After a bulk request the picked captions have the answers they got; every other row stays. */
  predicate BulkRow(p: Production, keys: seq<CaptionKey>, outcome: CaptionKey -> ScheduleStatus, x: Schedule) {
    if Picked(p, keys, x.caption) then x.status == outcome(x.caption) else x in p.schedules
  }

  lemma {:induction false} BulkRows(p: Production, keys: seq<CaptionKey>, outcome: CaptionKey -> ScheduleStatus)
    ensures forall x :: x in UpsertAll(p, keys, outcome) <==> BulkRow(p, keys, outcome, x)
  {
    if keys != [] {
      var (init, key) := (keys[..|keys| - 1], keys[|keys| - 1]);
      assert keys == init + [key];
      BulkRows(p, init, outcome);
      var before := UpsertAll(p, init, outcome);
      TakenExactly(p, before, key);
      forall x ensures x in UpsertAll(p, keys, outcome) <==> BulkRow(p, keys, outcome, x) {
        assert x in before <==> BulkRow(p, init, outcome, x);
        OneMoreKey(p, init, key, outcome, before, x);
      }
    }
  }

  lemma OneMoreKey(p: Production, init: seq<CaptionKey>, key: CaptionKey, outcome: CaptionKey -> ScheduleStatus,
                   before: seq<Schedule>, x: Schedule)
    requires forall y :: y in before <==> BulkRow(p, init, outcome, y)
    ensures var after := if ReadyToPost(p, key) && !OnItsWay(before, key) then Upserted(before, key, outcome(key))
                         else before;
            x in after <==> BulkRow(p, init + [key], outcome, x)
  {
    UpsertedRows(before, key, outcome(key), x);
    assert forall k :: k in init + [key] <==> k in init || k == key;
    assert forall status :: Schedule(key, status) in before <==> BulkRow(p, init, outcome, Schedule(key, status));
    assert x == Schedule(x.caption, x.status);
  }

  lemma BulkScheduleOutcome(s: State, keys: seq<CaptionKey>, outcome: CaptionKey -> ScheduleStatus)
    ensures var r := BulkSchedule(s, keys, outcome);
            if s.series.schedulingUnlockedAt.None? then r == Err(Conflict)
            else
              && r.Ok? && Rescheduled(s, r.value)
              && forall x :: x in r.value.production.schedules <==> BulkRow(s.production, keys, outcome, x)
  {
    StatusesFollow(s, UpsertAll(s.production, keys, outcome));
    BulkRows(s.production, keys, outcome);
  }

  /** Some schedule there was has become x. */
  ghost predicate Became(schedules: seq<Schedule>, outcome: Schedule -> Option<ScheduleStatus>, x: Schedule) {
    exists y <- schedules :: y.caption == x.caption && outcome(y) == Some(x.status)
  }

  lemma {:induction false} SettledRows(schedules: seq<Schedule>, outcome: Schedule -> Option<ScheduleStatus>,
                                       x: Schedule)
    ensures x in Settled(schedules, outcome) <==> Became(schedules, outcome, x)
  {
    if schedules != [] {
      var (init, last) := (schedules[..|schedules| - 1], schedules[|schedules| - 1]);
      SettledRows(init, outcome, x);
      assert schedules == init + [last];
      assert Became(schedules, outcome, x) <==>
             Became(init, outcome, x) || (last.caption == x.caption && outcome(last) == Some(x.status));
    }
  }

  lemma SettleOutcome(s: State, outcome: Schedule -> Option<ScheduleStatus>)
    ensures var t := SettleSchedules(s, outcome);
            && Rescheduled(s, t)
            && forall x :: x in t.production.schedules <==> Became(s.production.schedules, outcome, x)
  {
    StatusesFollow(s, Settled(s.production.schedules, outcome));
    forall x ensures x in Settled(s.production.schedules, outcome) <==> Became(s.production.schedules, outcome, x) {
      SettledRows(s.production.schedules, outcome, x);
    }
  }
}
