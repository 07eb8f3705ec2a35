/**
 What the code does not guarantee: that a scheduled episode's briefs are approved.

 `WorkflowRuns.ApprovedFromRecordingOn` says exactly when they are.
 */
module ApprovalGap {
  import opened Wrappers
  import opened WorkflowRows
  import opened WorkflowInvariant
  import opened BriefSteps
  import opened LaterSteps
  import opened PublishState
  import WorkflowRuns
  import BriefSafety
  import LaterSafety

  const FILMED := Media(true, VideoUploaded, None, None)
  const COMPLETE := Media(true, VideoComplete, None, Some(Processed))

  function FullCaption(e: Id): CaptionKey {
    CaptionKey(e, None, LinkedIn)
  }

  /** An approved episode of which nothing is scheduled, with its media as given. */
  ghost predicate ApprovedWith(s: State, e: Id, media: Media) {
    && BriefSafety.Editable(s, e, Host) && s.episodes[e].status == Approved
    && Recordable(s, e).Ok? && MediaOf(s, e) == media && Unscheduled(s, e)
  }

  ghost predicate Unscheduled(s: State, e: Id) {
    forall x <- s.production.schedules :: x.caption.episode != e
  }

  lemma ApprovedAtFirst(s: State, e: Id)
    requires Inv(s) && e in s.episodes && s.episodes[e].status == Approved && e !in s.production.media
    ensures ApprovedWith(s, e, NO_MEDIA)
  {
    RowsHold(s, e);
    assert e in ApprovedEpisodes(s);
    BriefSafety.BriefedEpisode(s, e, Host);
    forall x <- s.production.schedules ensures x.caption.episode != e {
      assert CaptionInv(s.production, x.caption);
    }
  }

  // ----- step by step -----

  /** An upload writes one episode's media and may unlock captions. */
  ghost predicate Uploaded(s: State, e: Id, media: Media, t: State) {
    && t == s.(series := t.series, production := s.production.(media := s.production.media[e := media]))
    && t.series.planLockedAt == s.series.planLockedAt && t.series.briefsApprovedAt == s.series.briefsApprovedAt
    && (RecordingReady(media) ==> t.series.captionsUnlockedAt.Some?)
  }

  lemma Uploading(s: State, e: Id, media: Media, now: int)
    requires e in s.episodes
    ensures Uploaded(s, e, Refreshed(media), MediaUploaded(s, e, media, now))
  {
    var t := WithMedia(s, e, Refreshed(media));
    assert MediaOf(t, e) == Refreshed(media) && e in t.episodes;
  }

  lemma StillApproved(s: State, e: Id, before: Media, after: Media, t: State)
    requires ApprovedWith(s, e, before) && Uploaded(s, e, after, t)
    ensures ApprovedWith(t, e, after)
  {
    assert RowsOf(t, e) == RowsOf(s, e);
  }

  lemma UploadOutcomes(s: State, e: Id, now: int)
    ensures WorkflowRuns.Outcome(s, WorkflowRuns.UploadVideo(e, now)) == UploadVideo(s, e, now)
    ensures WorkflowRuns.Outcome(s, WorkflowRuns.UploadTranscript(e, now)) == UploadTranscript(s, e, now)
  {
  }

  lemma VideoFirst(s: State, e: Id, now: int) returns (t: State)
    requires ApprovedWith(s, e, NO_MEDIA)
    ensures WorkflowRuns.Outcome(s, WorkflowRuns.UploadVideo(e, now)) == Ok(t) && ApprovedWith(t, e, FILMED)
  {
    t := UploadVideo(s, e, now).value;
    LaterSafety.UploadedVideo(s, e, now);
    UploadOutcomes(s, e, now);
    Uploading(s, e, NO_MEDIA.(hasFile := true), now);
    StillApproved(s, e, NO_MEDIA, FILMED, t);
  }

  lemma TranscriptNext(s: State, e: Id, now: int) returns (t: State)
    requires ApprovedWith(s, e, FILMED)
    ensures WorkflowRuns.Outcome(s, WorkflowRuns.UploadTranscript(e, now)) == Ok(t)
    ensures ApprovedWith(t, e, COMPLETE) && t.series.captionsUnlockedAt.Some?
  {
    t := UploadTranscript(s, e, now).value;
    LaterSafety.UploadedTranscript(s, e, now);
    UploadOutcomes(s, e, now);
    Uploading(s, e, FILMED.(transcript := Some(Processed)), now);
    StillApproved(s, e, FILMED, COMPLETE, t);
  }

  lemma CaptionsOpened(s: State, e: Id) returns (t: State)
    requires ApprovedWith(s, e, COMPLETE) && s.series.captionsUnlockedAt.Some?
    ensures WorkflowRuns.Outcome(s, WorkflowRuns.OpenCaptions) == Ok(t)
    ensures BriefSafety.Editable(t, e, Host) && MediaOf(t, e) == COMPLETE && Unscheduled(t, e)
    ensures FullCaption(e) in t.production.captions
  {
    t := OpenCaptions(s).value;
    assert FullCaption(e) in FullEpisodeKeys(s);
  }

  lemma EditedAfterRecording(s: State, e: Id, text: string, now: int) returns (t: State)
    requires BriefSafety.Editable(s, e, Host)
    ensures WorkflowRuns.Outcome(s, WorkflowRuns.UpdateBrief(e, Host, None, text, now)) == Ok(t)
    ensures e in t.episodes && t.episodes[e].status == BriefReady && !PairApproved(RowsOf(t, e))
    ensures t.production == s.production
  {
    BriefSafety.EditSucceeds(s, e, Host, None, text, now);
    t := UpdateBrief(s, e, Host, None, text, now).value;
  }

  lemma CaptionedAnyway(s: State, e: Id, text: string, now: int) returns (t: State)
    requires e in s.episodes && s.episodes[e].status == BriefReady && FullCaption(e) in s.production.captions
    requires MediaOf(s, e) == COMPLETE && Unscheduled(s, e) && text != ""
    ensures WorkflowRuns.Outcome(s, WorkflowRuns.WriteCaption(FullCaption(e), text, now)) == Ok(t)
    ensures t.briefs == s.briefs && ReadyToSchedule(t, e)
  {
    t := WriteCaption(s, FullCaption(e), text, now).value;
  }

  lemma FirstSchedule(schedules: seq<Schedule>, status: EpisodeStatus, key: CaptionKey)
    requires forall x <- schedules :: x.caption.episode != key.episode
    ensures !Taken(schedules, key)
    ensures EpisodeAfter(status, Own(Upserted(schedules, key, Queued), key.episode)) == Scheduled
  {
    assert Upserted(schedules, key, Queued) == schedules + [Schedule(key, Queued)];
    var own := Own(Upserted(schedules, key, Queued), key.episode);
    assert Schedule(key, Queued) in own;
    assert !AnyStatus(own, Posted);
  }

  ghost predicate ReadyToSchedule(s: State, e: Id) {
    && e in s.episodes && s.series.schedulingUnlockedAt.Some? && Unscheduled(s, e)
    && Schedulable(s.production, FullCaption(e))
  }

  lemma ScheduleCreated(s: State, e: Id)
    requires ReadyToSchedule(s, e)
    ensures var r := CreateSchedule(s, FullCaption(e), Queued);
            r.Ok? && e in r.value.episodes && r.value.episodes[e].status == Scheduled && r.value.briefs == s.briefs
  {
    FirstSchedule(s.production.schedules, s.episodes[e].status, FullCaption(e));
  }

  lemma SchedulingOutcome(s: State, key: CaptionKey, outcome: ScheduleStatus)
    ensures WorkflowRuns.Outcome(s, WorkflowRuns.CreateSchedule(key, outcome)) == CreateSchedule(s, key, outcome)
  {
  }

  lemma ScheduledAnyway(s: State, e: Id) returns (t: State)
    requires ReadyToSchedule(s, e)
    ensures WorkflowRuns.Outcome(s, WorkflowRuns.CreateSchedule(FullCaption(e), Queued)) == Ok(t)
    ensures e in t.episodes && t.episodes[e].status == Scheduled && t.briefs == s.briefs
  {
    ScheduleCreated(s, e);
    SchedulingOutcome(s, FullCaption(e), Queued);
    t := CreateSchedule(s, FullCaption(e), Queued).value;
  }

  // ----- the trace -----

  /**
   An approved episode can be scheduled without its approval: once it is recorded, editing a brief withdraws the
   approval, and neither captions nor schedules ask for it again. It enters the recorded statuses as BRIEF_READY.
   */
  lemma ScheduledWithoutApproval(s: State, e: Id, text: string, now: int)
    returns (filmed: State, complete: State, listed: State, edited: State, captioned: State, scheduled: State)
    requires Inv(s) && e in s.episodes && s.episodes[e].status == Approved && e !in s.production.media && text != ""
    ensures WorkflowRuns.Outcome(s, WorkflowRuns.UploadVideo(e, now)) == Ok(filmed)
    ensures WorkflowRuns.Outcome(filmed, WorkflowRuns.UploadTranscript(e, now)) == Ok(complete)
    ensures WorkflowRuns.Outcome(complete, WorkflowRuns.OpenCaptions) == Ok(listed)
    ensures WorkflowRuns.Outcome(listed, WorkflowRuns.UpdateBrief(e, Host, None, text, now)) == Ok(edited)
    ensures WorkflowRuns.Outcome(edited, WorkflowRuns.WriteCaption(FullCaption(e), text, now)) == Ok(captioned)
    ensures WorkflowRuns.Outcome(captioned, WorkflowRuns.CreateSchedule(FullCaption(e), Queued)) == Ok(scheduled)
    ensures e in scheduled.episodes && scheduled.episodes[e].status == Scheduled
    ensures !PairApproved(RowsOf(scheduled, e))
  {
    ApprovedAtFirst(s, e);
    filmed := VideoFirst(s, e, now);
    complete := TranscriptNext(filmed, e, now);
    listed := CaptionsOpened(complete, e);
    edited := EditedAfterRecording(listed, e, text, now);
    captioned := CaptionedAnyway(edited, e, text, now);
    scheduled := ScheduledAnyway(captioned, e);
  }
}
