/** Every brief step keeps the invariant and takes nothing back. */
module BriefSafety {
  import opened Wrappers
  import opened WorkflowRows
  import opened BriefSteps
  import opened WorkflowInvariant

  lemma RefreshedGate(s: State, approvedAt: Option<int>, now: int)
    ensures GateInv(RefreshBriefGate(s, approvedAt, now))
    ensures GateKept(s, RefreshBriefGate(s, approvedAt, now))
  {
    var t := RefreshBriefGate(s, approvedAt, now);
    assert ApprovedEpisodes(t) == ApprovedEpisodes(s) by {
      forall e | e in s.episodes ensures RowsOf(t, e) == RowsOf(s, e) {
      }
    }
  }

  /** The gates that come later stay as they are. */
  ghost predicate LaterGatesStay(before: Series, after: Series) {
    && after.planLockedAt == before.planLockedAt && after.briefsApprovedAt == before.briefsApprovedAt
    && after.captionsUnlockedAt == before.captionsUnlockedAt
    && after.schedulingUnlockedAt == before.schedulingUnlockedAt
  }

  lemma RefreshedTables(s: State, e: Id, rows: EpisodeRows, series: Series, approvedAt: Option<int>, now: int)
    requires e in s.episodes && LaterGatesStay(s.series, series)
    requires (rows.outline.Some? <==> e in s.outlines) && rows.episode.episodeNumber == s.episodes[e].episodeNumber
    ensures var t := RefreshBriefGate(WithRows(s, e, rows).(series := series), approvedAt, now);
            && Wrote(s, e, rows, t) && GateInv(t) && GateKept(s, t)
            && t.series.captionsUnlockedAt == s.series.captionsUnlockedAt
            && t.series.schedulingUnlockedAt == s.series.schedulingUnlockedAt
  {
    RefreshedGate(WithRows(s, e, rows).(series := series), approvedAt, now);
  }

  /** A brief step on an episode that is not yet recorded. */
  lemma BriefWriteIsSound(s: State, e: Id, rows: EpisodeRows, series: Series, approvedAt: Option<int>, now: int)
    requires Inv(s) && Locked(s) && e in s.episodes && RowsInv(rows, e) && RowsAdvance(RowsOf(s, e), rows)
    requires rows.outline == RowsOf(s, e).outline && !RecordedOrLater(rows.episode.status)
    requires LaterGatesStay(s.series, series)
    ensures var t := RefreshBriefGate(WithRows(s, e, rows).(series := series), approvedAt, now);
            Sound(s, t) && NumberingKept(s, t)
  {
    RefreshedTables(s, e, rows, series, approvedAt, now);
    WritingIsSound(s, e, rows, RefreshBriefGate(WithRows(s, e, rows).(series := series), approvedAt, now));
  }

  lemma BriefRowsAreSound(s: State, e: Id, rows: EpisodeRows, approvedAt: Option<int>, now: int)
    requires Inv(s) && Locked(s) && e in s.episodes && RowsInv(rows, e) && RowsAdvance(RowsOf(s, e), rows)
    requires rows.outline == RowsOf(s, e).outline && !RecordedOrLater(rows.episode.status)
    ensures var t := RefreshBriefGate(WithRows(s, e, rows), approvedAt, now);
            Sound(s, t) && NumberingKept(s, t)
  {
    assert WithRows(s, e, rows).(series := s.series) == WithRows(s, e, rows);
    BriefWriteIsSound(s, e, rows, s.series, approvedAt, now);
  }

  ghost function Generated(rows: EpisodeRows, e: Id, cited: int, host: Text, guest: Text): EpisodeRows {
    rows.(episode := rows.episode.(status := BriefReady), host := Some(NewBrief(host, e, cited)),
          guest := Some(NewBrief(guest, e, cited)))
  }

  lemma NewPair(rows: EpisodeRows, e: Id, cited: int, host: Text, guest: Text)
    requires RowsInv(rows, e) && rows.host.None? && !RecordedOrLater(rows.episode.status)
    requires rows.outline.Some? && rows.outline.value.status == OutlineApproved
    requires rows.outline.value.current == Some(cited)
    ensures var pair := Generated(rows, e, cited, host, guest);
            RowsInv(pair, e) && RowsAdvance(rows, pair)
  {
  }

  /** What generation writes: a pair citing the approved outline version, where there was none. */
  lemma GeneratedTables(s: State, e: Id, library: Library, host: Text, guest: Text, now: int)
    requires GeneratePair(s, e, library, host, guest, now).Ok?
    ensures e in s.episodes && Locked(s) && !RecordedOrLater(s.episodes[e].status) && RowsOf(s, e).host.None?
    ensures RowsOf(s, e).outline.Some? && RowsOf(s, e).outline.value.status == OutlineApproved
    ensures RowsOf(s, e).outline.value.current.Some?
    ensures var rows := Generated(RowsOf(s, e), e, RowsOf(s, e).outline.value.current.value, host, guest);
            var series := s.series.(currentStage := BriefsStage, status := InProduction);
            GeneratePair(s, e, library, host, guest, now).value ==
              RefreshBriefGate(WithRows(s, e, rows).(series := series), None, now)
  {
  }

  lemma GeneratePairIsSound(s: State, e: Id, library: Library, host: Text, guest: Text, now: int)
    requires Inv(s) && GeneratePair(s, e, library, host, guest, now).Ok?
    ensures var t := GeneratePair(s, e, library, host, guest, now).value;
            Sound(s, t) && NumberingKept(s, t)
  {
    GeneratedTables(s, e, library, host, guest, now);
    RowsHold(s, e);
    var cited := RowsOf(s, e).outline.value.current.value;
    NewPair(RowsOf(s, e), e, cited, host, guest);
    BriefWriteIsSound(s, e, Generated(RowsOf(s, e), e, cited, host, guest),
                      s.series.(currentStage := BriefsStage, status := InProduction), None, now);
  }

  lemma RewrittenHistory(brief: Brief, text: Text, source: BriefSource, e: Id, outlineVersion: int, status: BriefStatus)
    requires BriefHistory(brief, e, outlineVersion)
    ensures var after := Rewritten(brief, text, source, e, outlineVersion, status);
            BriefHistory(after, e, outlineVersion) && brief.versions <= after.versions
  {
    NextBriefVersion(brief.versions);
  }

  /** A brief of a pair that has lost its approval. */
  lemma InvalidatedHistory(brief: Brief, e: Id, outlineVersion: int, edited: bool, now: int)
    requires BriefHistory(brief, e, outlineVersion) && (edited ==> brief.status != BriefApproved)
    ensures var after := InvalidatedBrief(brief, edited, now);
            BriefInv(after, e, outlineVersion) && after.status != BriefApproved && after.approvedAt.None?
  {
  }

  /** After a rewrite of either brief the pair is unapproved, and still a pair. */
  lemma InvalidatedPair(rows: EpisodeRows, e: Id, kind: BriefKind, rewritten: Brief, edited: Option<BriefKind>,
                        now: int)
    requires RowsInv(rows, e) && rows.host.Some? && !RecordedOrLater(rows.episode.status)
    requires BriefHistory(rewritten, e, rows.outline.value.current.value) && rewritten.status != BriefApproved
    requires rows.Brief(kind).value.versions <= rewritten.versions
    requires edited.None? || edited == Some(kind)
    ensures var after := Invalidated(rows.WithBrief(kind, rewritten), edited, now);
            RowsInv(after, e) && RowsAdvance(rows, after) && after.episode.status == BriefReady
  {
    var cited := rows.outline.value.current.value;
    var written := rows.WithBrief(kind, rewritten);
    InvalidatedHistory(written.host.value, e, cited, edited == Some(Host), now);
    InvalidatedHistory(written.guest.value, e, cited, edited == Some(Guest), now);
    UnapprovedPair(rows, Invalidated(written, edited, now), e);
  }

  lemma UnapprovedPair(rows: EpisodeRows, after: EpisodeRows, e: Id)
    requires RowsInv(rows, e) && rows.host.Some? && !RecordedOrLater(rows.episode.status)
    requires after.host.Some? && after.guest.Some? && after.outline == rows.outline
    requires after.episode == rows.episode.(status := BriefReady)
    requires BriefInv(after.host.value, e, rows.outline.value.current.value)
    requires BriefInv(after.guest.value, e, rows.outline.value.current.value)
    requires after.host.value.status != BriefApproved && after.guest.value.status != BriefApproved
    requires rows.host.value.versions <= after.host.value.versions
    requires rows.guest.value.versions <= after.guest.value.versions
    ensures RowsInv(after, e) && RowsAdvance(rows, after)
  {
  }

  /** Writing a brief without approval withdraws the pair's. */
  lemma InvalidatingIsSound(s: State, e: Id, kind: BriefKind, rewritten: Brief, edited: Option<BriefKind>, now: int)
    requires Inv(s) && Locked(s) && e in s.episodes && !RecordedOrLater(s.episodes[e].status)
    requires RowsOf(s, e).Brief(kind).Some? && RowsOf(s, e).outline.Some? && RowsOf(s, e).outline.value.current.Some?
    requires BriefHistory(rewritten, e, RowsOf(s, e).outline.value.current.value) && rewritten.status != BriefApproved
    requires RowsOf(s, e).Brief(kind).value.versions <= rewritten.versions
    requires edited.None? || edited == Some(kind)
    ensures var after := Invalidated(RowsOf(s, e).WithBrief(kind, rewritten), edited, now);
            var t := RefreshBriefGate(WithRows(s, e, after), None, now);
            Sound(s, t) && NumberingKept(s, t)
  {
    RowsHold(s, e);
    InvalidatedPair(RowsOf(s, e), e, kind, rewritten, edited, now);
    BriefRowsAreSound(s, e, Invalidated(RowsOf(s, e).WithBrief(kind, rewritten), edited, now), None, now);
  }

  /** The version of a brief that follows it, citing what it cites. */
  ghost function EditedBrief(brief: Brief, title: Option<string>, markdown: string, e: Id, cited: int): Brief {
    Rewritten(brief, Text(Given(title, brief.title), markdown), BriefEdit, e, cited, BriefDraft)
  }

  /** What an edit writes: a version citing what the current one cites. */
  lemma EditedTables(s: State, e: Id, kind: BriefKind, title: Option<string>, markdown: string, now: int)
    requires Inv(s) && UpdateBrief(s, e, kind, title, markdown, now).Ok?
    ensures e in s.episodes && RowsOf(s, e).Brief(kind).Some? && RowsOf(s, e).outline.Some?
    ensures Locked(s) && !RecordedOrLater(s.episodes[e].status) && RowsOf(s, e).outline.value.current.Some?
    ensures var rows := RowsOf(s, e);
            var edited := EditedBrief(rows.Brief(kind).value, title, markdown, e, rows.outline.value.current.value);
            UpdateBrief(s, e, kind, title, markdown, now).value ==
              RefreshBriefGate(WithRows(s, e, Invalidated(rows.WithBrief(kind, edited), Some(kind), now)), None, now)
  {
    assert EpisodeInv(s, e);
    NextBriefVersion(RowsOf(s, e).Brief(kind).value.versions);
  }

  lemma UpdateBriefIsSound(s: State, e: Id, kind: BriefKind, title: Option<string>, markdown: string, now: int)
    requires Inv(s) && UpdateBrief(s, e, kind, title, markdown, now).Ok?
    ensures var t := UpdateBrief(s, e, kind, title, markdown, now).value;
            Sound(s, t) && NumberingKept(s, t)
  {
    EditedTables(s, e, kind, title, markdown, now);
    RowsHold(s, e);
    var (brief, cited) := (RowsOf(s, e).Brief(kind).value, RowsOf(s, e).outline.value.current.value);
    RewrittenHistory(brief, Text(Given(title, brief.title), markdown), BriefEdit, e, cited, BriefDraft);
    InvalidatingIsSound(s, e, kind, EditedBrief(brief, title, markdown, e, cited), Some(kind), now);
  }

  /** Where briefs are, the plan is locked, and before recording the episode has only its pair. */
  lemma BriefedEpisode(s: State, e: Id, kind: BriefKind)
    requires Inv(s) && (e, kind) in s.briefs
    ensures e in s.episodes && Locked(s) && RowsOf(s, e).Brief(kind) == Some(s.briefs[(e, kind)])
    ensures BriefVersionsNumbered(s.briefs[(e, kind)].versions) && s.briefs[(e, kind)].versions != []
    ensures s.briefs[(e, kind)].current == Some(|s.briefs[(e, kind)].versions|)
    ensures !RecordedOrLater(s.episodes[e].status) ==> s.episodes[e].status in {BriefReady, Approved}
  {
    assert EpisodeInv(s, e);
    assert RowsOf(s, e).Brief(kind) == Row(s.briefs, (e, kind));
  }

  ghost predicate Editable(s: State, e: Id, kind: BriefKind) {
    && Locked(s) && e in s.episodes && s.episodes[e].status in {BriefReady, Approved} && (e, kind) in s.briefs
    && s.briefs[(e, kind)].versions != [] && BriefVersionsNumbered(s.briefs[(e, kind)].versions)
    && s.briefs[(e, kind)].current == Some(|s.briefs[(e, kind)].versions|)
  }

  lemma EditAccepted(s: State, e: Id, kind: BriefKind, title: Option<string>, markdown: string, now: int)
    requires Editable(s, e, kind)
    ensures UpdateBrief(s, e, kind, title, markdown, now).Ok?
  {
    NextBriefVersion(s.briefs[(e, kind)].versions);
    assert RowsOf(s, e).Brief(kind) == Some(s.briefs[(e, kind)]);
  }

  /** An edit leaves the pair unapproved and the production as it was. */
  lemma EditSucceeds(s: State, e: Id, kind: BriefKind, title: Option<string>, markdown: string, now: int)
    requires Editable(s, e, kind)
    ensures UpdateBrief(s, e, kind, title, markdown, now).Ok?
    ensures var t := UpdateBrief(s, e, kind, title, markdown, now).value;
            && e in t.episodes && t.episodes[e].status == BriefReady && !PairApproved(RowsOf(t, e))
            && t.production == s.production
  {
    EditAccepted(s, e, kind, title, markdown, now);
  }

  /** Until recording every brief can be edited, and an edit withdraws the pair's approval. */
  lemma EditingWithdrawsApproval(s: State, e: Id, kind: BriefKind, title: Option<string>, markdown: string, now: int)
    requires Inv(s) && (e, kind) in s.briefs && !RecordedOrLater(s.episodes[e].status)
    ensures UpdateBrief(s, e, kind, title, markdown, now).Ok?
    ensures var t := UpdateBrief(s, e, kind, title, markdown, now).value;
            e in t.episodes && t.episodes[e].status == BriefReady && !PairApproved(RowsOf(t, e))
  {
    BriefedEpisode(s, e, kind);
    EditSucceeds(s, e, kind, title, markdown, now);
  }

  /** What a regeneration writes: a version citing the approved outline version, as the earlier ones do. */
  lemma RegeneratedTables(s: State, e: Id, kind: BriefKind, library: Library, text: Text, now: int)
    requires RegenerateBrief(s, e, kind, library, text, now).Ok?
    ensures e in s.episodes && RowsOf(s, e).Brief(kind).Some? && RowsOf(s, e).outline.Some?
    ensures Locked(s) && !RecordedOrLater(s.episodes[e].status) && RowsOf(s, e).outline.value.current.Some?
    ensures var rows := RowsOf(s, e);
            var regenerated := Rewritten(rows.Brief(kind).value, text, BriefRegeneration, e,
                                         rows.outline.value.current.value, BriefGenerated);
            RegenerateBrief(s, e, kind, library, text, now).value ==
              RefreshBriefGate(WithRows(s, e, Invalidated(rows.WithBrief(kind, regenerated), None, now)), None, now)
  {
  }

  lemma RegenerateBriefIsSound(s: State, e: Id, kind: BriefKind, library: Library, text: Text, now: int)
    requires Inv(s) && RegenerateBrief(s, e, kind, library, text, now).Ok?
    ensures var t := RegenerateBrief(s, e, kind, library, text, now).value;
            Sound(s, t) && NumberingKept(s, t)
  {
    RegeneratedTables(s, e, kind, library, text, now);
    RowsHold(s, e);
    var (brief, cited) := (RowsOf(s, e).Brief(kind).value, RowsOf(s, e).outline.value.current.value);
    RewrittenHistory(brief, text, BriefRegeneration, e, cited, BriefGenerated);
    InvalidatingIsSound(s, e, kind, Rewritten(brief, text, BriefRegeneration, e, cited, BriefGenerated), None, now);
  }

  lemma ApprovePairIsSound(s: State, e: Id, now: int)
    requires Inv(s) && ApprovePair(s, e, now).Ok?
    ensures var t := ApprovePair(s, e, now).value;
            Sound(s, t) && NumberingKept(s, t)
  {
    assert EpisodeInv(s, e);
    var rows := RowsOf(s, e);
    var approved := rows.(episode := rows.episode.(status := Approved),
                          host := Some(ApprovedBrief(rows.host.value, now)),
                          guest := Some(ApprovedBrief(rows.guest.value, now)));
    assert RowsInv(approved, e);
    BriefRowsAreSound(s, e, approved, Some(now), now);
  }

  // ----- when a pair can be made and approved -----

  /** Of everything the generation checks, only casting, outline approval and a missing pair can decide. */
  lemma GeneratableExactly(s: State, e: Id, library: Library, host: Text, guest: Text, now: int)
    requires Inv(s) && Locked(s) && e in s.episodes && !RecordedOrLater(s.episodes[e].status)
    ensures GeneratePair(s, e, library, host, guest, now).Ok? <==>
              && Assigned(library, s.episodes[e].hostProfileId, HostProfile)
              && Assigned(library, s.episodes[e].guestProfileId, GuestProfile)
              && s.outlines[e].status == OutlineApproved && (e, Host) !in s.briefs
  {
    assert EpisodeInv(s, e);
    var outline := s.outlines[e];
    assert outline.versions[|outline.versions| - 1] in outline.versions;
  }

  /** A pair can be approved exactly when it exists, again and again, until recording. */
  lemma ApprovableExactly(s: State, e: Id, now: int)
    requires Inv(s) && Locked(s) && e in s.episodes
    ensures ApprovePair(s, e, now).Ok? <==> (e, Host) in s.briefs && !RecordedOrLater(s.episodes[e].status)
  {
    assert EpisodeInv(s, e);
  }
}
