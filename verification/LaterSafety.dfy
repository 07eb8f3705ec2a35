/**
 Recording, captioning and scheduling keep the invariant: statuses move forward, and nothing is produced that
 lacks what it is made from.
 */
module LaterSafety {
  import opened Wrappers
  import opened WorkflowRows
  import opened PlanSteps
  import opened BriefSteps
  import opened LaterSteps
  import opened PublishState
  import opened WorkflowInvariant

  // ----- what all these steps have in common -----

  /** Only an episode with briefs enters the recorded statuses. */
  ghost predicate StatusMoved(before: Episode, after: Episode, briefed: bool) {
    && SamePlan(before, after)
    && (after.status == before.status || (briefed && RecordedOrLater(after.status)))
    && (RecordedOrLater(before.status) ==> RecordedOrLater(after.status))
  }

  lemma MovedRows(s: State, t: State, e: Id)
    requires t == s.(series := t.series, episodes := t.episodes, production := t.production)
    requires EpisodeInv(s, e) && e in s.episodes && e in t.episodes
    requires StatusMoved(s.episodes[e], t.episodes[e], (e, Host) in s.briefs)
    ensures EpisodeInv(t, e) && EpisodeAdvances(s, t, e) && EntryKeepsBriefs(s, t, e)
    ensures e in ApprovedEpisodes(t) <==> e in ApprovedEpisodes(s)
  {
    assert RowsOf(t, e) == RowsOf(s, e).(episode := t.episodes[e]);
  }

  /** Statuses may move to a recorded one; everything else about the plan, the outlines and the briefs stays. */
  ghost predicate StatusesMoved(s: State, t: State) {
    && t == s.(series := t.series, episodes := t.episodes, production := t.production)
    && t.episodes.Keys == s.episodes.Keys
    && forall e <- s.episodes :: StatusMoved(s.episodes[e], t.episodes[e], (e, Host) in s.briefs)
  }

  lemma AllMovedRows(s: State, t: State)
    requires (forall e :: EpisodeInv(s, e)) && StatusesMoved(s, t)
    ensures forall e :: EpisodeInv(t, e) && EpisodeAdvances(s, t, e) && EntryKeepsBriefs(s, t, e)
    ensures ApprovedEpisodes(t) == ApprovedEpisodes(s)
  {
    forall e
      ensures EpisodeInv(t, e) && EpisodeAdvances(s, t, e) && EntryKeepsBriefs(s, t, e)
      ensures e in ApprovedEpisodes(t) <==> e in ApprovedEpisodes(s)
    {
      assert EpisodeInv(s, e);
      if e in s.episodes {
        MovedRows(s, t, e);
      }
    }
  }

  lemma MovedNumbers(s: State, t: State)
    requires StatusesMoved(s, t)
    ensures NumbersOf(t.episodes) == NumbersOf(s.episodes)
  {
    forall e <- s.episodes ensures t.episodes[e].episodeNumber == s.episodes[e].episodeNumber {
      assert StatusMoved(s.episodes[e], t.episodes[e], (e, Host) in s.briefs);
    }
  }

  /** The earlier gates stay as they are. */
  ghost predicate GatesMoved(before: Series, after: Series) {
    && after.planLockedAt == before.planLockedAt && after.briefsApprovedAt == before.briefsApprovedAt
    && (after.currentStage == RecordingsStage ==> before.briefsApprovedAt.Some?)
    && UnlocksKept(before, after)
  }

  lemma LaterStepIsSound(s: State, t: State)
    requires Inv(s) && StatusesMoved(s, t) && GatesMoved(s.series, t.series)
    requires Locked(s) || t.production == s.production
    requires ProductionInv(t.production, t.briefs.Keys) && UnlockInv(t)
    requires ProductionAdvances(s.production, t.production)
    ensures Sound(s, t) && NumberingKept(s, t)
  {
    AllMovedRows(s, t);
    MovedNumbers(s, t);
  }

  lemma StatusesStay(s: State, t: State)
    requires t == s.(series := t.series, production := t.production)
    ensures StatusesMoved(s, t)
  {
  }

  // ----- recordings -----

  /** Media come from approved pairs only, and captions only from ready media. */
  lemma MediaWritten(s: State, e: Id, media: Media)
    requires ProductionInv(s.production, s.briefs.Keys) && (e, Host) in s.briefs && MediaAdvances(MediaOf(s, e), media)
    ensures var t := WithMedia(s, e, media);
            ProductionInv(t.production, s.briefs.Keys) && ProductionAdvances(s.production, t.production)
  {
    var (p, q) := (s.production, WithMedia(s, e, media).production);
    forall k <- q.captions ensures CaptionInv(q, k) {
      assert CaptionInv(p, k);
    }
  }

  /** A ready recording stays ready while media only advance. */
  lemma ReadinessKept(s: State, t: State)
    requires t.episodes.Keys == s.episodes.Keys && ProductionAdvances(s.production, t.production)
    ensures AnyRecordingReady(s) ==> AnyRecordingReady(t)
  {
    if AnyRecordingReady(s) {
      var e :| e in s.episodes && RecordingReady(MediaOf(s, e));
      assert e in t.episodes && RecordingReady(MediaOf(t, e));
    }
  }

  /** `u` is `s` with its statuses and production written, before captions are unlocked or locked again. */
  lemma SyncedStepIsSound(s: State, u: State, now: int)
    requires Inv(s) && s.series.briefsApprovedAt.Some? && StatusesMoved(s, u)
    requires u.series == s.series.(status := u.series.status) && u.production.captions == s.production.captions
    requires ProductionInv(u.production, s.briefs.Keys) && ProductionAdvances(s.production, u.production)
    ensures Sound(s, SyncCaptionUnlock(u, now)) && NumberingKept(s, SyncCaptionUnlock(u, now))
  {
    var t := SyncCaptionUnlock(u, now);
    ReadinessKept(s, u);
    SameReadiness(u, t);
    OpenPlanIsUnbriefed(s);
    LaterStepIsSound(s, t);
  }

  lemma OpenPlanIsUnbriefed(s: State)
    requires Inv(s)
    ensures s.series.briefsApprovedAt.Some? || s.briefs != map[] || s.production != NOTHING ==> Locked(s)
    ensures s.series.schedulingUnlockedAt.Some? ==> Locked(s)
  {
    if !Locked(s) {
      OpenPlanHasNothing(s, 0);
    }
  }

  lemma ProducingAfterwards(s: State, now: int)
    ensures Producing(SyncCaptionUnlock(s, now)) == SyncCaptionUnlock(Producing(s), now)
  {
    SameReadiness(s, Producing(s));
  }

  lemma OpenRecordingsIsSound(s: State, now: int)
    requires Inv(s) && OpenRecordings(s, now).Ok?
    ensures var t := OpenRecordings(s, now).value;
            Sound(s, t) && NumberingKept(s, t)
  {
    StatusesStay(s, s);
    ProductionStays(s.production);
    SyncedStepIsSound(s, s, now);
  }

  lemma MediaUploadIsSound(s: State, e: Id, media: Media, now: int)
    requires Inv(s) && Recordable(s, e).Ok? && MediaAdvances(MediaOf(s, e), media)
    ensures Sound(s, MediaUploaded(s, e, media, now)) && NumberingKept(s, MediaUploaded(s, e, media, now))
  {
    MediaWritten(s, e, Refreshed(media));
    var u := Producing(WithMedia(s, e, Refreshed(media)));
    StatusesStay(s, u);
    SyncedStepIsSound(s, u, now);
    ProducingAfterwards(WithMedia(s, e, Refreshed(media)), now);
  }

  lemma UploadedVideo(s: State, e: Id, now: int)
    requires UploadVideo(s, e, now).Ok?
    ensures Recordable(s, e).Ok?
    ensures UploadVideo(s, e, now).value == MediaUploaded(s, e, MediaOf(s, e).(hasFile := true), now)
  {
  }

  lemma UploadVideoIsSound(s: State, e: Id, now: int)
    requires Inv(s) && UploadVideo(s, e, now).Ok?
    ensures var t := UploadVideo(s, e, now).value;
            Sound(s, t) && NumberingKept(s, t)
  {
    UploadedVideo(s, e, now);
    MediaUploadIsSound(s, e, MediaOf(s, e).(hasFile := true), now);
  }

  lemma UploadedTranscript(s: State, e: Id, now: int)
    requires UploadTranscript(s, e, now).Ok?
    ensures Recordable(s, e).Ok?
    ensures UploadTranscript(s, e, now).value ==
            MediaUploaded(s, e, MediaOf(s, e).(transcript := Some(Processed)), now)
  {
  }

  lemma UploadTranscriptIsSound(s: State, e: Id, now: int)
    requires Inv(s) && UploadTranscript(s, e, now).Ok?
    ensures var t := UploadTranscript(s, e, now).value;
            Sound(s, t) && NumberingKept(s, t)
  {
    UploadedTranscript(s, e, now);
    MediaUploadIsSound(s, e, MediaOf(s, e).(transcript := Some(Processed)), now);
  }

  lemma RewrittenClips(p: Production, briefs: set<(Id, BriefKind)>, clips: map<(Id, int), bool>)
    requires ProductionInv(p, briefs) && forall k <- clips :: k.0 in p.media
    ensures ProductionInv(p.(clips := clips), briefs) && ProductionAdvances(p, p.(clips := clips))
  {
    forall k <- p.captions ensures CaptionInv(p.(clips := clips), k) {
      assert CaptionInv(p, k);
    }
  }

  lemma ClipWriteIsSound(s: State, clips: map<(Id, int), bool>, now: int)
    requires Inv(s) && s.series.briefsApprovedAt.Some? && forall k <- clips :: k.0 in s.production.media
    ensures Sound(s, ClipsWritten(s, clips, now)) && NumberingKept(s, ClipsWritten(s, clips, now))
  {
    var u := s.(production := s.production.(clips := clips));
    RewrittenClips(s.production, s.briefs.Keys, clips);
    StatusesStay(s, u);
    SyncedStepIsSound(s, u, now);
  }

  lemma SuggestedClips(s: State, e: Id, now: int)
    requires RequestClips(s, e, now).Ok?
    ensures s.series.briefsApprovedAt.Some? && e in s.production.media
    ensures RequestClips(s, e, now).value == ClipsWritten(s, WithClips(s.production.clips, e), now)
  {
  }

  lemma RequestClipsIsSound(s: State, e: Id, now: int)
    requires Inv(s) && RequestClips(s, e, now).Ok?
    ensures var t := RequestClips(s, e, now).value;
            Sound(s, t) && NumberingKept(s, t)
  {
    SuggestedClips(s, e, now);
    ClipWriteIsSound(s, WithClips(s.production.clips, e), now);
  }

  lemma UploadClipIsSound(s: State, e: Id, slot: int, now: int)
    requires Inv(s) && UploadClip(s, e, slot, now).Ok?
    ensures var t := UploadClip(s, e, slot, now).value;
            Sound(s, t) && NumberingKept(s, t)
  {
    ClipWriteIsSound(s, s.production.clips[(e, slot) := true], now);
  }

  lemma RecordedStatuses(s: State, e: Id, media: Media)
    requires e in s.episodes && (e, Host) in s.briefs
    ensures StatusesMoved(s, RecordingLocked(s, e, media))
  {
  }

  lemma RecordedStepIsSound(s: State, e: Id, media: Media, now: int)
    requires Inv(s) && Recordable(s, e).Ok? && MediaAdvances(MediaOf(s, e), media)
    ensures var t := SyncCaptionUnlock(RecordingLocked(s, e, media), now);
            Sound(s, t) && NumberingKept(s, t)
  {
    MediaWritten(s, e, media);
    RecordedStatuses(s, e, media);
    SyncedStepIsSound(s, RecordingLocked(s, e, media), now);
  }

  lemma LockRecordingIsSound(s: State, e: Id, now: int)
    requires Inv(s) && LockRecording(s, e, now).Ok?
    ensures var t := LockRecording(s, e, now).value;
            Sound(s, t) && NumberingKept(s, t)
  {
    RecordedStepIsSound(s, e, LockedMedia(MediaOf(s, e), now), now);
  }

  /** A recording is locked only for an episode whose briefs are approved, and then their approval is final. */
  lemma LockingNeedsApproval(s: State, e: Id, now: int)
    requires Inv(s) && LockRecording(s, e, now).Ok?
    ensures var t := LockRecording(s, e, now).value;
            && PairApproved(RowsOf(s, e)) && Locked(s) && t.episodes[e].status == Recorded
            && t.briefs == s.briefs && EditableBriefs(t, e) == Err(Conflict)
  {
    OpenPlanIsUnbriefed(s);
  }

  // ----- captions -----

  lemma AddedCaptions(p: Production, briefs: set<(Id, BriefKind)>, keys: set<CaptionKey>)
    requires ProductionInv(p, briefs) && forall k <- keys :: k.episode in p.media
    ensures var q := p.(captions := WithCaptions(p.captions, keys));
            && ProductionInv(q, briefs) && ProductionAdvances(p, q)
            && (HasReadyCaption(q.captions) <==> HasReadyCaption(p.captions))
  {
    var q := p.(captions := WithCaptions(p.captions, keys));
    forall k <- q.captions ensures CaptionInv(q, k) {
      assert k in p.captions ==> CaptionInv(p, k);
    }
    if k :| k in p.captions && p.captions[k].status == CaptionReady {
      assert q.captions[k].status == CaptionReady;
    }
  }

  lemma NoneAdded(p: Production)
    ensures p.(captions := WithCaptions(p.captions, {})) == p
  {
    assert WithCaptions(p.captions, {}) == p.captions;
  }

  /** Rows are added without a text, for media that exist. */
  lemma CaptionsAddedIsSound(s: State, keys: set<CaptionKey>)
    requires Inv(s) && forall k <- keys :: k.episode in s.production.media
    ensures Sound(s, CaptionsAdded(s, keys)) && NumberingKept(s, CaptionsAdded(s, keys))
  {
    var t := CaptionsAdded(s, keys);
    AddedCaptions(s.production, s.briefs.Keys, keys);
    NoneAdded(s.production);
    if !Locked(s) {
      assert keys == {};
    }
    SameReadiness(s, t);
    StatusesStay(s, t);
    LaterStepIsSound(s, t);
  }

  lemma OpenCaptionsIsSound(s: State)
    requires Inv(s) && OpenCaptions(s).Ok?
    ensures var t := OpenCaptions(s).value;
            Sound(s, t) && NumberingKept(s, t)
  {
    CaptionsAddedIsSound(s, FullEpisodeKeys(s));
  }

  lemma AddPlatformIsSound(s: State, key: CaptionKey)
    requires Inv(s) && AddPlatform(s, key).Ok?
    ensures var t := AddPlatform(s, key).value;
            Sound(s, t) && NumberingKept(s, t)
  {
    CaptionsAddedIsSound(s, {key});
  }

  lemma CaptionWritten(p: Production, briefs: set<(Id, BriefKind)>, key: CaptionKey, text: string)
    requires ProductionInv(p, briefs) && key in p.captions
    requires key.episode in p.media && RecordingReady(p.media[key.episode])
    ensures var q := p.(captions := p.captions[key := Caption(CaptionReady, text)]);
            ProductionInv(q, briefs) && ProductionAdvances(p, q) && HasReadyCaption(q.captions)
  {
    var q := p.(captions := p.captions[key := Caption(CaptionReady, text)]);
    forall k <- q.captions ensures CaptionInv(q, k) {
      assert CaptionInv(p, k);
    }
    assert q.captions[key].status == CaptionReady;
  }

  /** Only a captioned episode's status moves, and its media come from briefs. */
  lemma CaptionedStatuses(s: State, key: CaptionKey, text: string, now: int)
    requires ProductionInv(s.production, s.briefs.Keys) && WriteCaption(s, key, text, now).Ok?
    ensures key.episode in s.production.media && RecordingReady(s.production.media[key.episode])
    ensures StatusesMoved(s, WriteCaption(s, key, text, now).value)
  {
    assert CaptionInv(s.production, key);
  }

  lemma WriteCaptionIsSound(s: State, key: CaptionKey, text: string, now: int)
    requires Inv(s) && WriteCaption(s, key, text, now).Ok?
    ensures var t := WriteCaption(s, key, text, now).value;
            Sound(s, t) && NumberingKept(s, t)
  {
    var t := WriteCaption(s, key, text, now).value;
    CaptionedStatuses(s, key, text, now);
    CaptionWritten(s.production, s.briefs.Keys, key, text);
    OpenPlanIsUnbriefed(s);
    SameReadiness(s, t);
    LaterStepIsSound(s, t);
  }

  // ----- schedules -----

  /** What may be scheduled: captions that are ready. */
  ghost predicate ReadySchedules(captions: map<CaptionKey, Caption>, schedules: seq<Schedule>) {
    forall x <- schedules :: x.caption in captions && captions[x.caption].status == CaptionReady
  }

  lemma UpsertedReady(captions: map<CaptionKey, Caption>, schedules: seq<Schedule>, key: CaptionKey,
                      outcome: ScheduleStatus)
    requires ReadySchedules(captions, schedules) && key in captions && captions[key].status == CaptionReady
    ensures ReadySchedules(captions, Upserted(schedules, key, outcome))
  {
  }

  lemma {:induction false} AllUpsertedReady(p: Production, keys: seq<CaptionKey>, outcome: CaptionKey -> ScheduleStatus)
    requires ReadySchedules(p.captions, p.schedules)
    ensures ReadySchedules(p.captions, UpsertAll(p, keys, outcome))
  {
    if keys != [] {
      var (init, key) := (keys[..|keys| - 1], keys[|keys| - 1]);
      AllUpsertedReady(p, init, outcome);
      if Schedulable(p, key) {
        UpsertedReady(p.captions, UpsertAll(p, init, outcome), key, outcome(key));
      }
    }
  }

  lemma SettledReady(captions: map<CaptionKey, Caption>, schedules: seq<Schedule>,
                     outcome: Schedule -> Option<ScheduleStatus>)
    requires ReadySchedules(captions, schedules)
    ensures ReadySchedules(captions, Settled(schedules, outcome))
  {
  }

  /** A schedule takes its episode through ready media to briefs. */
  lemma ScheduledIsBriefed(s: State, schedules: seq<Schedule>, e: Id)
    requires ProductionInv(s.production, s.briefs.Keys) && ReadySchedules(s.production.captions, schedules)
    requires Own(schedules, e) != []
    ensures (e, Host) in s.briefs
  {
    var x := Own(schedules, e)[0];
    assert x in Own(schedules, e);
    assert CaptionInv(s.production, x.caption);
  }

  lemma RefreshMovesStatus(s: State, schedules: seq<Schedule>, e: Id)
    requires ProductionInv(s.production, s.briefs.Keys) && ReadySchedules(s.production.captions, schedules)
    requires EpisodeInv(s, e) && e in s.episodes
    ensures StatusMoved(s.episodes[e], EpisodesAfter(s.episodes, schedules)[e], (e, Host) in s.briefs)
  {
    RefreshKeepsRecorded(s.episodes, schedules, e);
    if Own(schedules, e) != [] {
      ScheduledIsBriefed(s, schedules, e);
    }
  }

  lemma RefreshMovesStatuses(s: State, schedules: seq<Schedule>)
    requires ProductionInv(s.production, s.briefs.Keys) && ReadySchedules(s.production.captions, schedules)
    requires forall e :: EpisodeInv(s, e)
    ensures StatusesMoved(s, WithSchedules(s, schedules))
  {
    forall e <- s.episodes
      ensures StatusMoved(s.episodes[e], EpisodesAfter(s.episodes, schedules)[e], (e, Host) in s.briefs)
    {
      assert EpisodeInv(s, e);
      RefreshMovesStatus(s, schedules, e);
    }
  }

  lemma RescheduledProduction(p: Production, briefs: set<(Id, BriefKind)>, schedules: seq<Schedule>)
    requires ProductionInv(p, briefs) && ReadySchedules(p.captions, schedules)
    ensures var q := p.(schedules := schedules);
            ProductionInv(q, briefs) && ProductionAdvances(p, q)
  {
    forall k <- p.captions ensures CaptionInv(p.(schedules := schedules), k) {
      assert CaptionInv(p, k);
    }
  }

  lemma SchedulesWritten(s: State, schedules: seq<Schedule>)
    requires Inv(s) && ReadySchedules(s.production.captions, schedules)
    requires Locked(s) || schedules == s.production.schedules
    ensures Sound(s, WithSchedules(s, schedules)) && NumberingKept(s, WithSchedules(s, schedules))
  {
    var t := WithSchedules(s, schedules);
    RefreshMovesStatuses(s, schedules);
    RescheduledProduction(s.production, s.briefs.Keys, schedules);
    SameReadiness(s, t);
    LaterStepIsSound(s, t);
  }

  lemma CreateScheduleIsSound(s: State, key: CaptionKey, outcome: ScheduleStatus)
    requires Inv(s) && CreateSchedule(s, key, outcome).Ok?
    ensures var t := CreateSchedule(s, key, outcome).value;
            Sound(s, t) && NumberingKept(s, t)
  {
    OpenPlanIsUnbriefed(s);
    UpsertedReady(s.production.captions, s.production.schedules, key, outcome);
    SchedulesWritten(s, Upserted(s.production.schedules, key, outcome));
  }

  lemma BulkScheduleIsSound(s: State, keys: seq<CaptionKey>, outcome: CaptionKey -> ScheduleStatus)
    requires Inv(s) && BulkSchedule(s, keys, outcome).Ok?
    ensures var t := BulkSchedule(s, keys, outcome).value;
            Sound(s, t) && NumberingKept(s, t)
  {
    OpenPlanIsUnbriefed(s);
    AllUpsertedReady(s.production, keys, outcome);
    SchedulesWritten(s, UpsertAll(s.production, keys, outcome));
  }

  lemma SettleSchedulesIsSound(s: State, outcome: Schedule -> Option<ScheduleStatus>)
    requires Inv(s)
    ensures Sound(s, SettleSchedules(s, outcome)) && NumberingKept(s, SettleSchedules(s, outcome))
  {
    SettledReady(s.production.captions, s.production.schedules, outcome);
    SchedulesWritten(s, Settled(s.production.schedules, outcome));
  }
}
