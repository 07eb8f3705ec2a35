/**
 What every reachable state of a series' workflow satisfies, and what no step takes back.

 The invariant is mostly about the rows of one episode; the lemmas here lift it from there to the tables.
 */
module WorkflowInvariant {
  import opened Wrappers
  import opened WorkflowRows
  import opened EpisodeNumbering
  import opened PlanSteps
  import opened BriefSteps
  import opened LaterSteps

  // ----- the rows of one episode -----

  /** Versions are numbered 1..k, the newest is current, and the row holds its text. */
  ghost predicate OutlineHistory(outline: Outline) {
    && outline.versions != [] && OutlineVersionsNumbered(outline.versions)
    && outline.current == Some(|outline.versions|)
    && outline.title == outline.versions[|outline.versions| - 1].title
    && outline.markdown == outline.versions[|outline.versions| - 1].markdown
  }

  ghost predicate OutlineApproval(outline: Outline) {
    if outline.status == OutlineApproved then outline.approved == outline.current && outline.approvedAt.Some?
    else outline.approved.None? && outline.approvedAt.None?
  }

  ghost predicate OutlineInv(outline: Outline) {
    OutlineHistory(outline) && OutlineApproval(outline)
  }

  ghost predicate Cites(versions: seq<BriefVersion>, e: Id, outlineVersion: int) {
    forall v <- versions :: v.outlineEpisode == e && v.outlineVersion == outlineVersion
  }

  /** As for outlines, and every version ever written cites one outline version. */
  ghost predicate BriefHistory(brief: Brief, e: Id, outlineVersion: int) {
    && brief.versions != [] && BriefVersionsNumbered(brief.versions) && Cites(brief.versions, e, outlineVersion)
    && brief.current == Some(|brief.versions|)
    && brief.title == brief.versions[|brief.versions| - 1].title
    && brief.markdown == brief.versions[|brief.versions| - 1].markdown
  }

  ghost predicate BriefApproval(brief: Brief) {
    if brief.status == BriefApproved then brief.approved == brief.current && brief.approvedAt.Some?
    else brief.approved.None? && brief.approvedAt.None?
  }

  ghost predicate BriefInv(brief: Brief, e: Id, outlineVersion: int) {
    BriefHistory(brief, e, outlineVersion) && BriefApproval(brief)
  }

  /**
   Briefs come and are approved in pairs, at one time, and exist only downstream of an approved outline,
   whose current version is the one they cite.
   */
  ghost predicate PairInv(rows: EpisodeRows, e: Id)
    requires rows.outline.Some? && rows.host.Some? && rows.guest.Some?
  {
    var (outline, host, guest) := (rows.outline.value, rows.host.value, rows.guest.value);
    && HasDownstream(rows.episode.status) && outline.status == OutlineApproved && outline.current.Some?
    && BriefInv(host, e, outline.current.value) && BriefInv(guest, e, outline.current.value)
    && (host.status == BriefApproved <==> guest.status == BriefApproved)
    && host.approvedAt == guest.approvedAt
  }

  ghost predicate RowsInv(rows: EpisodeRows, e: Id) {
    && (rows.episode.hostProfileId.Some? ==> rows.episode.hostProfileId != rows.episode.guestProfileId)
    && (rows.outline.Some? ==> OutlineInv(rows.outline.value))
    && (rows.host.Some? <==> rows.guest.Some?)
    && (rows.host.Some? ==> rows.outline.Some? && PairInv(rows, e))
    && (rows.episode.status == Approved ==> PairApproved(rows))
    && (rows.episode.status == BriefReady ==> rows.host.Some? && !PairApproved(rows))
    && (RecordedOrLater(rows.episode.status) ==> rows.host.Some?)
  }

  // ----- the tables -----

  /** `is_selected` mirrors the status, at most one row is selected, and generations never decrease. */
  ghost predicate NarrativesInv(narratives: seq<Narrative>) {
    && (forall i | 0 <= i < |narratives| :: narratives[i].isSelected <==> narratives[i].status == Selected)
    && (forall i, j | 0 <= i < j < |narratives| :: !(narratives[i].isSelected && narratives[j].isSelected))
    && (forall i, j | 0 <= i <= j < |narratives| :: narratives[i].generation <= narratives[j].generation)
  }

  ghost predicate EpisodeInv(s: State, e: Id) {
    e in s.episodes ==> e < s.nextId && RowsInv(RowsOf(s, e), e)
  }

  /** A locked plan has a selected narrative and one outline an episode; an open one has nothing after the plan. */
  ghost predicate LockInv(s: State) {
    if Locked(s) then FindSelected(s.narratives, false).Some? && s.outlines.Keys == s.episodes.Keys
    else s.outlines == map[] && s.briefs == map[] && s.production == NOTHING
  }

  ghost predicate HasReadyCaption(captions: map<CaptionKey, Caption>) {
    exists k <- captions :: captions[k].status == CaptionReady
  }

  /** Media hang on briefs, clips and captions on media, ready captions on ready media, schedules on ready captions. */
  ghost predicate ProductionInv(p: Production, briefs: set<(Id, BriefKind)>) {
    && (forall e <- p.media :: (e, Host) in briefs)
    && (forall k <- p.clips :: k.0 in p.media)
    && (forall k <- p.captions :: CaptionInv(p, k))
    && (forall x <- p.schedules :: x.caption in p.captions && p.captions[x.caption].status == CaptionReady)
  }

  ghost predicate CaptionInv(p: Production, k: CaptionKey)
    requires k in p.captions
  {
    k.episode in p.media && (p.captions[k].status == CaptionReady ==> RecordingReady(p.media[k.episode]))
  }

  /** Captions are unlocked exactly while a recording is ready, scheduling exactly while a caption is. */
  ghost predicate UnlockInv(s: State) {
    && (s.series.captionsUnlockedAt.Some? <==> AnyRecordingReady(s))
    && (s.series.schedulingUnlockedAt.Some? <==> HasReadyCaption(s.production.captions))
  }

  ghost predicate GateInv(s: State) {
    && (s.series.briefsApprovedAt.Some? <==> ApprovedEpisodes(s) != {})
    && (s.series.currentStage == RecordingsStage ==> s.series.briefsApprovedAt.Some?)
  }

  ghost predicate Owned(s: State) {
    (forall e <- s.outlines :: e in s.episodes) && (forall k <- s.briefs :: k.0 in s.episodes)
  }

  ghost predicate Inv(s: State) {
    && NarrativesInv(s.narratives)
    && Lawful(NumbersOf(s.episodes))
    && (forall e :: EpisodeInv(s, e))
    && Owned(s) && LockInv(s) && GateInv(s)
    && ProductionInv(s.production, s.briefs.Keys) && UnlockInv(s)
  }

  /** The episode numbers are exactly 1..n; every step keeps this except a reorder that repeats an id. */
  ghost predicate PlanNumbered(s: State) {
    Numbered(NumbersOf(s.episodes))
  }

  // ----- what no step takes back -----

  ghost predicate SamePlan(before: Episode, after: Episode) {
    before.(status := after.status) == after
  }

  ghost predicate BriefAdvances(before: Option<Brief>, after: Option<Brief>) {
    before.Some? ==> after.Some? && before.value.versions <= after.value.versions
  }

  /**
   Once the plan is locked its fields stay and histories only grow; from the first briefs on, the outline stays;
   from recording on, the briefs stay.
   */
  ghost predicate RowsAdvance(before: EpisodeRows, after: EpisodeRows) {
    && SamePlan(before.episode, after.episode)
    && (before.outline.Some? ==> after.outline.Some? && before.outline.value.versions <= after.outline.value.versions)
    && BriefAdvances(before.host, after.host) && BriefAdvances(before.guest, after.guest)
    && (before.host.Some? ==> after.outline == before.outline)
    && (RecordedOrLater(before.episode.status) ==>
          RecordedOrLater(after.episode.status) && after.host == before.host && after.guest == before.guest)
  }

  ghost predicate EpisodeAdvances(s: State, t: State, e: Id) {
    e in s.episodes && Locked(s) ==> e in t.episodes && RowsAdvance(RowsOf(s, e), RowsOf(t, e))
  }

  /** A ready recording stays ready, a locked one keeps its time, and ready captions stay ready. */
  ghost predicate ProductionAdvances(p: Production, q: Production) {
    && (forall e <- p.media :: e in q.media && MediaAdvances(p.media[e], q.media[e]))
    && (forall k <- p.captions :: k in q.captions && CaptionAdvances(p.captions[k], q.captions[k]))
  }

  ghost predicate CaptionAdvances(before: Caption, after: Caption) {
    before.status == CaptionReady ==> after.status == CaptionReady
  }

  ghost predicate MediaAdvances(m: Media, n: Media) {
    (RecordingReady(m) ==> RecordingReady(n)) && (m.lockedAt.Some? ==> n.lockedAt == m.lockedAt)
  }

  ghost predicate NarrativesAdvance(before: seq<Narrative>, after: seq<Narrative>) {
    |before| <= |after| && forall i | 0 <= i < |before| :: after[i].generation == before[i].generation
  }

  /** A lock pins the episodes and the selected narrative. */
  ghost predicate LockAdvances(s: State, t: State) {
    Locked(s) ==>
      && t.series.planLockedAt == s.series.planLockedAt && t.episodes.Keys == s.episodes.Keys
      && FindSelected(t.narratives, false) == FindSelected(s.narratives, false)
  }

  ghost predicate Advances(s: State, t: State) {
    && LockAdvances(s, t)
    && (forall e :: EpisodeAdvances(s, t, e))
    && NarrativesAdvance(s.narratives, t.narratives)
    && ProductionAdvances(s.production, t.production)
    && UnlocksKept(s.series, t.series)
  }

  ghost predicate UnlocksKept(before: Series, after: Series) {
    && (before.captionsUnlockedAt.Some? ==> after.captionsUnlockedAt == before.captionsUnlockedAt)
    && (before.schedulingUnlockedAt.Some? ==> after.schedulingUnlockedAt == before.schedulingUnlockedAt)
  }

  /** Unlike the rest, this holds of single steps only: the gate may close and open again with a new time. */
  ghost predicate GateKept(s: State, t: State) {
    s.series.briefsApprovedAt.Some? && t.series.briefsApprovedAt.Some? ==>
      t.series.briefsApprovedAt == s.series.briefsApprovedAt
  }

  ghost predicate RecordedIn(s: State, e: Id) {
    e in s.episodes && RecordedOrLater(s.episodes[e].status)
  }

  /** The step that takes an episode into the recorded statuses finds it there and leaves its briefs alone. */
  ghost predicate EntryKeepsBriefs(s: State, t: State, e: Id) {
    RecordedIn(t, e) && !RecordedIn(s, e) ==>
      e in s.episodes && RowsOf(t, e).host == RowsOf(s, e).host && RowsOf(t, e).guest == RowsOf(s, e).guest
  }

  /** A step from a state satisfying the invariant. */
  ghost predicate Sound(s: State, t: State) {
    Inv(t) && Advances(s, t) && GateKept(s, t) && forall e :: EntryKeepsBriefs(s, t, e)
  }

  ghost predicate NumberingKept(s: State, t: State) {
    PlanNumbered(s) ==> PlanNumbered(t)
  }

  lemma RowsHold(s: State, e: Id)
    requires Inv(s) && e in s.episodes
    ensures RowsInv(RowsOf(s, e), e)
  {
    assert EpisodeInv(s, e);
  }

  lemma Stutter(s: State)
    requires Inv(s)
    ensures Sound(s, s)
  {
    forall e ensures EpisodeAdvances(s, s, e) {
      assert EpisodeInv(s, e);
    }
  }

  lemma RowsAdvanceTransitive(u: EpisodeRows, v: EpisodeRows, w: EpisodeRows, e: Id)
    requires RowsInv(u, e) && RowsAdvance(u, v) && RowsAdvance(v, w)
    ensures RowsAdvance(u, w)
  {
  }

  lemma EpisodeAdvancesTransitive(s: State, t: State, u: State, e: Id)
    requires EpisodeInv(s, e) && (Locked(s) ==> Locked(t)) && EpisodeAdvances(s, t, e) && EpisodeAdvances(t, u, e)
    ensures EpisodeAdvances(s, u, e)
  {
    if e in s.episodes && Locked(s) {
      RowsAdvanceTransitive(RowsOf(s, e), RowsOf(t, e), RowsOf(u, e), e);
    }
  }

  lemma ProductionStays(p: Production)
    ensures ProductionAdvances(p, p)
  {
  }

  lemma ProductionAdvancesTransitive(p: Production, q: Production, r: Production)
    requires ProductionAdvances(p, q) && ProductionAdvances(q, r)
    ensures ProductionAdvances(p, r)
  {
  }

  lemma AdvancesTransitive(s: State, t: State, u: State)
    requires Inv(s) && Advances(s, t) && Advances(t, u)
    ensures Advances(s, u)
  {
    forall e ensures EpisodeAdvances(s, u, e) {
      assert EpisodeInv(s, e) && EpisodeAdvances(s, t, e) && EpisodeAdvances(t, u, e);
      EpisodeAdvancesTransitive(s, t, u, e);
    }
    ProductionAdvancesTransitive(s.production, t.production, u.production);
  }

  lemma SameReadiness(s: State, t: State)
    requires t.episodes.Keys == s.episodes.Keys && t.production.media == s.production.media
    ensures AnyRecordingReady(t) <==> AnyRecordingReady(s)
  {
    assert forall e :: MediaOf(t, e) == MediaOf(s, e);
    assert forall e :: e in t.episodes <==> e in s.episodes;
  }

  /** An open plan's episodes have not begun: nothing after the plan exists. */
  lemma OpenPlanHasNothing(s: State, e: Id)
    requires Inv(s) && !Locked(s)
    ensures e in s.episodes ==> s.episodes[e].status in {Planned, Outlined, ProfilesSet}
    ensures ApprovedEpisodes(s) == {} && s.series.briefsApprovedAt.None? && s.series.currentStage != RecordingsStage
    ensures s.series.captionsUnlockedAt.None? && s.series.schedulingUnlockedAt.None?
  {
    assert EpisodeInv(s, e);
    forall f ensures f !in ApprovedEpisodes(s) {
    }
  }

  // ----- writing one episode's rows -----

  /** `t` is `s` with one episode's rows and some of the series' fields rewritten. */
  ghost predicate Wrote(s: State, e: Id, rows: EpisodeRows, t: State) {
    && e in s.episodes
    && t == WithRows(s, e, rows).(series := t.series)
    && t.series.planLockedAt == s.series.planLockedAt
    && rows.episode.episodeNumber == s.episodes[e].episodeNumber
    && (rows.outline.Some? <==> e in s.outlines)
  }

  lemma WroteElsewhere(s: State, e: Id, rows: EpisodeRows, t: State, f: Id)
    requires Wrote(s, e, rows, t) && f in s.episodes
    ensures t.episodes.Keys == s.episodes.Keys
    ensures RowsOf(t, f) == if f == e then rows else RowsOf(s, f)
  {
    RowsAfter(s, e, rows, f);
    assert RowsOf(t, f) == RowsOf(WithRows(s, e, rows), f);
  }

  lemma WroteTables(s: State, e: Id, rows: EpisodeRows, t: State)
    requires Wrote(s, e, rows, t) && Owned(s) && LockInv(s) && Locked(s)
    ensures Owned(t) && LockInv(t) && NumbersOf(t.episodes) == NumbersOf(s.episodes)
    ensures t.episodes.Keys == s.episodes.Keys
  {
    assert t.episodes.Keys == s.episodes.Keys;
    assert t.outlines.Keys == s.outlines.Keys;
  }

  /** Briefs are not deleted, so what hangs on them stays in place. */
  lemma WroteProduction(s: State, e: Id, rows: EpisodeRows, t: State)
    requires Wrote(s, e, rows, t) && RowsAdvance(RowsOf(s, e), rows)
    requires ProductionInv(s.production, s.briefs.Keys) && UnlockInv(s)
    requires t.series.captionsUnlockedAt == s.series.captionsUnlockedAt
    requires t.series.schedulingUnlockedAt == s.series.schedulingUnlockedAt
    ensures ProductionInv(t.production, t.briefs.Keys) && UnlockInv(t)
  {
    assert s.briefs.Keys <= t.briefs.Keys by {
      forall k <- s.briefs ensures k in t.briefs {
        assert k == (k.0, k.1) && (k.1 == Host || k.1 == Guest);
      }
    }
    assert t.episodes.Keys == s.episodes.Keys;
    SameReadiness(s, t);
  }

  lemma WroteRows(s: State, e: Id, rows: EpisodeRows, t: State, f: Id)
    requires Wrote(s, e, rows, t) && EpisodeInv(s, e) && EpisodeInv(s, f)
    requires RowsInv(rows, e) && RowsAdvance(RowsOf(s, e), rows)
    requires RecordedOrLater(rows.episode.status) ==> RecordedOrLater(s.episodes[e].status)
    ensures EpisodeInv(t, f) && EntryKeepsBriefs(s, t, f) && EpisodeAdvances(s, t, f)
  {
    if f in s.episodes {
      WroteElsewhere(s, e, rows, t, f);
    }
  }

  lemma AllWroteRows(s: State, e: Id, rows: EpisodeRows, t: State)
    requires Wrote(s, e, rows, t) && (forall f :: EpisodeInv(s, f))
    requires RowsInv(rows, e) && RowsAdvance(RowsOf(s, e), rows)
    requires RecordedOrLater(rows.episode.status) ==> RecordedOrLater(s.episodes[e].status)
    ensures forall f :: EpisodeInv(t, f) && EntryKeepsBriefs(s, t, f) && EpisodeAdvances(s, t, f)
  {
    forall f ensures EpisodeInv(t, f) && EntryKeepsBriefs(s, t, f) && EpisodeAdvances(s, t, f) {
      assert EpisodeInv(s, e) && EpisodeInv(s, f);
      WroteRows(s, e, rows, t, f);
    }
  }

  /** Rows that keep their own invariant and advance do so in their table. */
  lemma WritingIsSound(s: State, e: Id, rows: EpisodeRows, t: State)
    requires Inv(s) && Locked(s) && Wrote(s, e, rows, t) && RowsInv(rows, e) && RowsAdvance(RowsOf(s, e), rows)
    requires RecordedOrLater(rows.episode.status) ==> RecordedOrLater(s.episodes[e].status)
    requires GateInv(t) && GateKept(s, t)
    requires t.series.captionsUnlockedAt == s.series.captionsUnlockedAt
    requires t.series.schedulingUnlockedAt == s.series.schedulingUnlockedAt
    ensures Sound(s, t) && NumberingKept(s, t)
  {
    WroteTables(s, e, rows, t);
    WroteProduction(s, e, rows, t);
    AllWroteRows(s, e, rows, t);
    ProductionStays(s.production);
  }

  /** Approvals that do not change leave the gate as it was. */
  lemma SameApprovals(s: State, e: Id, rows: EpisodeRows, t: State)
    requires Wrote(s, e, rows, t) && (PairApproved(rows) <==> PairApproved(RowsOf(s, e)))
    ensures ApprovedEpisodes(t) == ApprovedEpisodes(s)
  {
    forall f ensures f in ApprovedEpisodes(t) <==> f in ApprovedEpisodes(s) {
      if f in s.episodes {
        WroteElsewhere(s, e, rows, t, f);
      }
    }
  }
}
