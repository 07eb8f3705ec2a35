/**
 When each command on outlines and briefs succeeds, which error refuses it otherwise, and what it writes, said of
 the rows and the arguments alone.
 */
module DraftOutcomes {
  import opened Wrappers
  import opened WorkflowRows
  import opened WorkflowInvariant
  import opened OutlineSteps
  import opened BriefSteps
  import PlanOutcomes

  // ----- outlines -----

  predicate AllOutlinesApproved(t: State) {
    t.outlines != map[] && forall e <- t.outlines :: t.outlines[e].status == OutlineApproved
  }

  /** The stage follows the approvals: forward to the briefs, or back from them. */
  predicate OutlineGate(before: Series, t: State) {
    && t.series == before.(currentStage := t.series.currentStage)
    && (AllOutlinesApproved(t) ==> t.series.currentStage == BriefsStage)
    && (!AllOutlinesApproved(t) ==>
          t.series.currentStage == if before.currentStage == BriefsStage then OutlinesStage else before.currentStage)
  }

  predicate PastOutlines(episode: Episode) {
    episode.status !in {Planned, Outlined, ProfilesSet}
  }

  /** Only outline e and the stage are written. */
  predicate OutlineOnly(s: State, e: Id, t: State) {
    && e in t.outlines && t == s.(series := t.series, outlines := s.outlines[e := t.outlines[e]])
    && OutlineGate(s.series, t)
  }

  predicate OutlineRefused(s: State, e: Id, error: HttpError) {
    match error
    case Conflict => s.series.planLockedAt.None? || (e in s.episodes && e in s.outlines && PastOutlines(s.episodes[e]))
    case NotFound => s.series.planLockedAt.Some? && !(e in s.episodes && e in s.outlines)
    case _ => false
  }

  predicate OutlineOpen(s: State, e: Id) {
    s.series.planLockedAt.Some? && e in s.episodes && e in s.outlines && !PastOutlines(s.episodes[e])
  }

  lemma GuardsOutline(s: State, e: Id)
    ensures EditableOutline(s, e).Ok? <==> OutlineOpen(s, e)
    ensures forall error :: EditableOutline(s, e) == Err(error) <==> OutlineRefused(s, e, error)
  {
    if e in s.episodes {
      var status := s.episodes[e].status;
      assert HasDownstream(status) || status.Planned? || status.Outlined? || status.ProfilesSet?;
    }
  }

  /** The outline has one version more, and the row holds that version's text without an approval. */
  predicate OneMoreVersion(before: Outline, after: Outline, title: string, markdown: string, source: OutlineSource,
                           status: OutlineStatus)
  {
    && after.versions == before.versions + [OutlineVersion(|before.versions| + 1, title, markdown, source)]
    && after.current == Some(|before.versions| + 1) && after.title == title && after.markdown == markdown
    && after.status == status && after.approved == None && after.approvedAt == None
  }

  predicate TitleGiven(title: Option<string>) {
    title.Some? && |title.value| > 0
  }

  lemma WritesOutline(s: State, e: Id, outline: Outline)
    requires OutlineOpen(s, e)
    ensures var t := RefreshOutlineGate(WithRows(s, e, RowsOf(s, e).(outline := Some(outline))));
            OutlineOnly(s, e, t) && t.outlines[e] == outline
  {
    OutlineWritten(s, e, outline);
    var t := s.(outlines := s.outlines[e := outline]);
    assert t.outlines != map[] <==> t.outlines.Keys != {};
  }

  lemma NumberedOutline(s: State, e: Id)
    requires Inv(s) && OutlineOpen(s, e)
    ensures GreatestOutlineVersion(s.outlines[e].versions) == |s.outlines[e].versions|
    ensures s.outlines[e].current.Some?
  {
    assert EpisodeInv(s, e);
    assert OutlineInv(RowsOf(s, e).outline.value);
    NextOutlineVersion(s.outlines[e].versions);
  }

  lemma UpdateOutlineOutcome(s: State, e: Id, title: Option<string>, markdown: string)
    requires Inv(s)
    ensures var r := UpdateOutline(s, e, title, markdown);
            if !OutlineOpen(s, e) then r.Err? && OutlineRefused(s, e, r.error)
            else if s.outlines[e].status == OutlineApproved then r == Err(Conflict)
            else
              && r.Ok? && OutlineOnly(s, e, r.value)
              && var (before, after) := (s.outlines[e], r.value.outlines[e]);
              var newTitle := if TitleGiven(title) then title.value else before.title;
              OneMoreVersion(before, after, newTitle, markdown, OutlineEdit, OutlineDraft)
  {
    GuardsOutline(s, e);
    if OutlineOpen(s, e) {
      NumberedOutline(s, e);
      var before := s.outlines[e];
      WritesOutline(s, e, Revised(before, Given(title, before.title), markdown, OutlineEdit, OutlineDraft));
    }
  }

  lemma RegenerateOutlineOutcome(s: State, e: Id, title: string, markdown: string)
    requires Inv(s)
    ensures var r := RegenerateOutline(s, e, title, markdown);
            if !OutlineOpen(s, e) then r.Err? && OutlineRefused(s, e, r.error)
            else && r.Ok? && OutlineOnly(s, e, r.value)
                 && OneMoreVersion(s.outlines[e], r.value.outlines[e], title, markdown, OutlineRegeneration,
                                   OutlineGenerated)
  {
    GuardsOutline(s, e);
    if OutlineOpen(s, e) {
      NumberedOutline(s, e);
      WritesOutline(s, e, Revised(s.outlines[e], title, markdown, OutlineRegeneration, OutlineGenerated));
    }
  }

  /** An approval names the version approved and its time, and leaves text and history. */
  lemma ApproveOutlineOutcome(s: State, e: Id, now: int)
    requires Inv(s)
    ensures var r := ApproveOutline(s, e, now);
            if !OutlineOpen(s, e) then r.Err? && OutlineRefused(s, e, r.error)
            else
              && r.Ok? && OutlineOnly(s, e, r.value)
              && var (before, after) := (s.outlines[e], r.value.outlines[e]);
              && after.status == OutlineApproved && after.approvedAt == Some(now)
              && after.approved == Some(|before.versions|) && after.current == before.current
              && after.versions == before.versions && after.title == before.title && after.markdown == before.markdown
  {
    GuardsOutline(s, e);
    if OutlineOpen(s, e) {
      NumberedOutline(s, e);
      var before := s.outlines[e];
      assert OutlineHistory(before) by {
        assert EpisodeInv(s, e);
        assert OutlineInv(RowsOf(s, e).outline.value);
      }
      WritesOutline(s, e, before.(status := OutlineApproved, approved := before.current, approvedAt := Some(now)));
    }
  }

  /** An outline without a version gets its own text as version 1. */
  predicate GivenVersion(before: Outline, after: Outline) {
    if before.versions != [] then after == before
    else
      && after.versions == [OutlineVersion(1, before.title, before.markdown, LockGenerated)]
      && after == before.(current := Some(1), versions := after.versions)
  }

  /** Opening the workspace of a locked plan adds exactly the missing outlines and versions. */
  lemma OpenOutlinesOutcome(s: State, texts: Id -> string)
    ensures var r := OpenOutlines(s, texts);
            if s.series.planLockedAt.None? then r == Err(Conflict)
            else
              && r.Ok? && r.value == s.(outlines := r.value.outlines)
              && r.value.outlines.Keys == s.outlines.Keys + s.episodes.Keys
              && (forall e <- s.outlines :: GivenVersion(s.outlines[e], r.value.outlines[e]))
              && forall e <- s.episodes | e !in s.outlines ::
                   PlanOutcomes.FirstOutline(r.value.outlines[e], "Generated outline: " + s.episodes[e].title, texts(e))
  {
  }

  // ----- briefs -----

  predicate BothApproved(t: State, e: Id) {
    && (e, Host) in t.briefs && t.briefs[(e, Host)].status == BriefApproved
    && (e, Guest) in t.briefs && t.briefs[(e, Guest)].status == BriefApproved
  }

  /** The gate opens at the approval, keeps its first time, and closes with the last approved pair. */
  predicate BriefGate(before: Series, t: State, opensAt: int) {
    if exists e <- t.episodes :: BothApproved(t, e) then
      t.series == before.(briefsApprovedAt :=
                            if before.briefsApprovedAt.Some? then before.briefsApprovedAt else Some(opensAt),
                          currentStage := RecordingsStage, status := InProduction)
    else
      t.series == before.(briefsApprovedAt := None,
                          currentStage := if before.currentStage == RecordingsStage then BriefsStage
                                          else before.currentStage)
  }

  lemma GateFollows(s: State, approvedAt: Option<int>, now: int)
    ensures var t := RefreshBriefGate(s, approvedAt, now);
            var opensAt := if approvedAt.Some? then approvedAt.value else now;
            t == s.(series := t.series) && BriefGate(s.series, t, opensAt)
  {
    forall e <- s.episodes ensures e in ApprovedEpisodes(s) <==> BothApproved(s, e) {
      assert RowsOf(s, e).host == Row(s.briefs, (e, Host));
    }
    var t := RefreshBriefGate(s, approvedAt, now);
    forall e <- s.episodes ensures BothApproved(s, e) <==> BothApproved(t, e) {
    }
  }

  /** Episode e has its new status and its two briefs, and every other row stays. */
  predicate PairOnly(s: State, e: Id, t: State, status: EpisodeStatus, host: Brief, guest: Brief) {
    && e in s.episodes
    && t == s.(series := t.series, episodes := s.episodes[e := s.episodes[e].(status := status)],
               briefs := s.briefs[(e, Host) := host][(e, Guest) := guest])
  }

  lemma WritesPair(s: State, e: Id, rows: EpisodeRows, status: EpisodeStatus)
    requires e in s.episodes && rows.host.Some? && rows.guest.Some?
    requires rows.episode == s.episodes[e].(status := status) && rows.outline == Row(s.outlines, e)
    ensures PairOnly(s, e, WithRows(s, e, rows), status, rows.host.value, rows.guest.value)
  {
    assert WithRows(s, e, rows).outlines == s.outlines;
  }

  predicate Serves(library: Library, id: Option<Id>, kind: ProfileKind) {
    exists p <- library :: id == Some(p.id) && p.kind == kind && p.isActive
  }

  /** What the texts are made from: two active profiles and the approved outline's current version. */
  predicate Prepared(s: State, e: Id, library: Library)
    requires e in s.episodes
  {
    && Serves(library, s.episodes[e].hostProfileId, HostProfile)
    && Serves(library, s.episodes[e].guestProfileId, GuestProfile)
    && e in s.outlines && s.outlines[e].status == OutlineApproved
  }

  lemma PreparedCites(s: State, e: Id, library: Library)
    requires Inv(s) && e in s.episodes
    ensures CitedVersion(RowsOf(s, e), library) ==
            if Prepared(s, e, library) then Ok(|s.outlines[e].versions|) else Err(Conflict)
  {
    assert EpisodeInv(s, e);
    if e in s.outlines {
      var outline := s.outlines[e];
      assert OutlineInv(RowsOf(s, e).outline.value);
      assert outline.versions[|outline.versions| - 1] in outline.versions;
    }
  }

  predicate Recordable(s: State, e: Id)
    requires e in s.episodes
  {
    s.episodes[e].status !in {Recorded, Captioning, Scheduled, PartiallyPublished, Published}
  }

  predicate FirstBrief(brief: Brief, text: Text, e: Id, outlineVersion: int) {
    && brief.title == text.title && brief.markdown == text.markdown && brief.status == BriefGenerated
    && brief.current == Some(1) && brief.approved == None && brief.approvedAt == None
    && brief.approvalInvalidatedAt == None
    && brief.versions == [BriefVersion(1, text.title, text.markdown, Generation, e, outlineVersion)]
  }

  predicate BothPresent(s: State, e: Id) {
    (e, Host) in s.briefs && (e, Guest) in s.briefs
  }

  predicate Generatable(s: State, e: Id, library: Library)
    requires e in s.episodes
  {
    Recordable(s, e) && Prepared(s, e, library) && (e, Host) !in s.briefs && (e, Guest) !in s.briefs
  }

  predicate PairGenerated(s: State, e: Id, t: State, host: Text, guest: Text, outlineVersion: int, now: int) {
    && BothPresent(t, e) && PairOnly(s, e, t, BriefReady, t.briefs[(e, Host)], t.briefs[(e, Guest)])
    && FirstBrief(t.briefs[(e, Host)], host, e, outlineVersion)
    && FirstBrief(t.briefs[(e, Guest)], guest, e, outlineVersion)
    && BriefGate(s.series.(currentStage := BriefsStage, status := InProduction), t, now)
  }

  lemma GeneratesPair(s: State, e: Id, host: Text, guest: Text, outlineVersion: int, now: int)
    requires e in s.episodes
    ensures var rows := RowsOf(s, e);
            var pair := rows.(episode := rows.episode.(status := BriefReady),
                              host := Some(NewBrief(host, e, outlineVersion)),
                              guest := Some(NewBrief(guest, e, outlineVersion)));
            var written := WithRows(s, e, pair).(series := s.series.(currentStage := BriefsStage,
                                                                     status := InProduction));
            PairGenerated(s, e, RefreshBriefGate(written, None, now), host, guest, outlineVersion, now)
  {
    var rows := RowsOf(s, e);
    var pair := rows.(episode := rows.episode.(status := BriefReady), host := Some(NewBrief(host, e, outlineVersion)),
                      guest := Some(NewBrief(guest, e, outlineVersion)));
    WritesPair(s, e, pair, BriefReady);
    GateFollows(WithRows(s, e, pair).(series := s.series.(currentStage := BriefsStage, status := InProduction)),
                None, now);
  }

  lemma GeneratePairOutcome(s: State, e: Id, library: Library, host: Text, guest: Text, now: int)
    requires Inv(s)
    ensures var r := GeneratePair(s, e, library, host, guest, now);
            if s.series.planLockedAt.None? then r == Err(Conflict)
            else if e !in s.episodes then r == Err(NotFound)
            else if !Generatable(s, e, library) then r == Err(Conflict)
            else r.Ok? && PairGenerated(s, e, r.value, host, guest, |s.outlines[e].versions|, now)
  {
    if e in s.episodes {
      PreparedCites(s, e, library);
      if Generatable(s, e, library) {
        GeneratesPair(s, e, host, guest, |s.outlines[e].versions|, now);
      }
    }
  }

  predicate BriefOpen(s: State, e: Id, kind: BriefKind) {
    s.series.planLockedAt.Some? && e in s.episodes && (e, kind) in s.briefs && Recordable(s, e)
  }

  predicate BriefRefused(s: State, e: Id, kind: BriefKind, error: HttpError) {
    match error
    case Conflict => s.series.planLockedAt.None? || (e in s.episodes && (e, kind) in s.briefs && !Recordable(s, e))
    case NotFound => s.series.planLockedAt.Some? && !(e in s.episodes && (e, kind) in s.briefs)
    case _ => false
  }

  lemma GuardsBrief(s: State, e: Id, kind: BriefKind)
    ensures EditableBrief(s, e, kind).Ok? <==> BriefOpen(s, e, kind)
    ensures forall error :: EditableBrief(s, e, kind) == Err(error) <==> BriefRefused(s, e, kind, error)
  {
  }

  predicate ApprovalWithdrawn(before: Brief, after: Brief, now: int) {
    && after.approved == None && after.approvedAt == None
    && (before.status == BriefApproved ==> after.approvalInvalidatedAt == Some(now))
    && (before.status != BriefApproved ==> after.approvalInvalidatedAt == before.approvalInvalidatedAt)
  }

  /** The rewritten brief: one version more, and the row holds that version's text. */
  predicate BriefRewritten(before: Brief, after: Brief, text: Text, source: BriefSource, status: BriefStatus, e: Id,
                           outlineVersion: int, now: int)
  {
    && after.versions == before.versions + [BriefVersion(|before.versions| + 1, text.title, text.markdown, source, e,
                                                         outlineVersion)]
    && after.current == Some(|before.versions| + 1) && after.title == text.title && after.markdown == text.markdown
    && after.status == status && ApprovalWithdrawn(before, after, now)
  }

  /** The other brief keeps its text and history and loses only an approval. */
  predicate OnlyUnapproved(before: Brief, after: Brief, now: int) {
    && after.versions == before.versions && after.current == before.current
    && after.title == before.title && after.markdown == before.markdown
    && after.status == (if before.status == BriefApproved then BriefGenerated else before.status)
    && ApprovalWithdrawn(before, after, now)
  }

  function Other(kind: BriefKind): BriefKind {
    match kind
    case Host => Guest
    case Guest => Host
  }

  /** One brief is rewritten; the pair and the episode are no longer approved. */
  predicate PairRewritten(s: State, e: Id, kind: BriefKind, t: State, text: Text, source: BriefSource,
                          status: BriefStatus, now: int)
  {
    RowsRewritten(s, e, kind, t, text, source, status, now) && BriefGate(s.series, t, now)
  }

  predicate RowsRewritten(s: State, e: Id, kind: BriefKind, t: State, text: Text, source: BriefSource,
                          status: BriefStatus, now: int)
  {
    && BriefOpen(s, e, kind) && e in s.outlines && BothPresent(s, e) && BothPresent(t, e)
    && PairOnly(s, e, t, if s.episodes[e].status == Approved then BriefReady else s.episodes[e].status,
                t.briefs[(e, Host)], t.briefs[(e, Guest)])
    && BriefRewritten(s.briefs[(e, kind)], t.briefs[(e, kind)], text, source, status, e, |s.outlines[e].versions|, now)
    && OnlyUnapproved(s.briefs[(e, Other(kind))], t.briefs[(e, Other(kind))], now)
  }

  /** What the invariant says of an open brief. */
  lemma OpenBrief(s: State, e: Id, kind: BriefKind)
    requires Inv(s) && BriefOpen(s, e, kind)
    ensures BothPresent(s, e) && e in s.outlines && RowsOf(s, e).Brief(kind) == Some(s.briefs[(e, kind)])
    ensures s.outlines[e].status == OutlineApproved && s.outlines[e].current == Some(|s.outlines[e].versions|)
    ensures BriefInv(s.briefs[(e, Host)], e, |s.outlines[e].versions|)
    ensures BriefInv(s.briefs[(e, Guest)], e, |s.outlines[e].versions|)
  {
    assert EpisodeInv(s, e);
    var rows := RowsOf(s, e);
    assert rows.host == Row(s.briefs, (e, Host)) && rows.guest == Row(s.briefs, (e, Guest));
    assert PairInv(rows, e) && OutlineInv(rows.outline.value);
  }

  lemma OneBriefRewritten(before: Brief, text: Text, source: BriefSource, status: BriefStatus, e: Id,
                          outlineVersion: int, edited: bool, now: int)
    requires BriefInv(before, e, outlineVersion)
    requires status == if edited then BriefDraft else BriefGenerated
    ensures BriefRewritten(before, InvalidatedBrief(Rewritten(before, text, source, e, outlineVersion, status), edited,
                                                    now),
                           text, source, status, e, outlineVersion, now)
    ensures OnlyUnapproved(before, InvalidatedBrief(before, false, now), now)
  {
    NextBriefVersion(before.versions);
  }

  lemma InvalidatedRows(rows: EpisodeRows, kind: BriefKind, rewritten: Brief, edited: bool, now: int)
    requires rows.host.Some? && rows.guest.Some?
    ensures var after := Invalidated(rows.WithBrief(kind, rewritten), if edited then Some(kind) else None, now);
            && after.Brief(kind) == Some(InvalidatedBrief(rewritten, edited, now))
            && after.Brief(Other(kind)) == Some(InvalidatedBrief(rows.Brief(Other(kind)).value, false, now))
            && after.outline == rows.outline
            && after.episode == rows.episode.(status := if rows.episode.status == Approved then BriefReady
                                                        else rows.episode.status)
  {
  }

  lemma RewritesRows(s: State, e: Id, kind: BriefKind, text: Text, source: BriefSource, edited: bool, now: int,
                     t: State)
    requires BriefOpen(s, e, kind) && e in s.outlines && BothPresent(s, e)
    requires BriefInv(s.briefs[(e, kind)], e, |s.outlines[e].versions|)
    requires BriefInv(s.briefs[(e, Other(kind))], e, |s.outlines[e].versions|)
    requires var status := if edited then BriefDraft else BriefGenerated;
             var rewritten := Rewritten(s.briefs[(e, kind)], text, source, e, |s.outlines[e].versions|, status);
             t == WithRows(s, e, Invalidated(RowsOf(s, e).WithBrief(kind, rewritten),
                                             if edited then Some(kind) else None, now))
    ensures RowsRewritten(s, e, kind, t, text, source, if edited then BriefDraft else BriefGenerated, now)
  {
    var (status, version) := (if edited then BriefDraft else BriefGenerated, |s.outlines[e].versions|);
    OneBriefRewritten(s.briefs[(e, kind)], text, source, status, e, version, edited, now);
    OneBriefRewritten(s.briefs[(e, Other(kind))], text, source, status, e, version, edited, now);
    var rewritten := Rewritten(s.briefs[(e, kind)], text, source, e, version, status);
    InvalidatedRows(RowsOf(s, e), kind, rewritten, edited, now);
    var rows := Invalidated(RowsOf(s, e).WithBrief(kind, rewritten), if edited then Some(kind) else None, now);
    WritesPair(s, e, rows, if s.episodes[e].status == Approved then BriefReady else s.episodes[e].status);
  }

  lemma RewritesPair(s: State, e: Id, kind: BriefKind, text: Text, source: BriefSource, edited: bool, now: int)
    requires Inv(s) && BriefOpen(s, e, kind) && e in s.outlines && BothPresent(s, e)
    ensures var status := if edited then BriefDraft else BriefGenerated;
            var rewritten := Rewritten(s.briefs[(e, kind)], text, source, e, |s.outlines[e].versions|, status);
            var rows := Invalidated(RowsOf(s, e).WithBrief(kind, rewritten), if edited then Some(kind) else None, now);
            PairRewritten(s, e, kind, RefreshBriefGate(WithRows(s, e, rows), None, now), text, source, status, now)
  {
    var (status, version) := (if edited then BriefDraft else BriefGenerated, |s.outlines[e].versions|);
    var rewritten := Rewritten(s.briefs[(e, kind)], text, source, e, version, status);
    var rows := Invalidated(RowsOf(s, e).WithBrief(kind, rewritten), if edited then Some(kind) else None, now);
    var written := WithRows(s, e, rows);
    OpenBrief(s, e, kind);
    RewritesRows(s, e, kind, text, source, edited, now, written);
    GateFollows(written, None, now);
  }

  lemma CurrentCites(brief: Brief, e: Id, outlineVersion: int)
    requires BriefInv(brief, e, outlineVersion)
    ensures brief.current.Some?
    ensures var v := FindBriefVersion(brief.versions, brief.current.value);
            v.Some? && v.value.outlineEpisode == e && v.value.outlineVersion == outlineVersion
  {
    NextBriefVersion(brief.versions);
  }

  /** An edited brief is a draft that cites the outline version its predecessor cited. */
  lemma UpdateBriefOutcome(s: State, e: Id, kind: BriefKind, title: Option<string>, markdown: string, now: int)
    requires Inv(s)
    ensures var r := UpdateBrief(s, e, kind, title, markdown, now);
            if !BriefOpen(s, e, kind) then r.Err? && BriefRefused(s, e, kind, r.error)
            else
              && r.Ok?
              && var text := Text(if TitleGiven(title) then title.value else s.briefs[(e, kind)].title, markdown);
              PairRewritten(s, e, kind, r.value, text, BriefEdit, BriefDraft, now)
  {
    GuardsBrief(s, e, kind);
    if BriefOpen(s, e, kind) {
      OpenBrief(s, e, kind);
      CurrentCites(s.briefs[(e, kind)], e, |s.outlines[e].versions|);
      RewritesPair(s, e, kind, Text(Given(title, s.briefs[(e, kind)].title), markdown), BriefEdit, true, now);
    }
  }

  lemma RegenerateBriefOutcome(s: State, e: Id, kind: BriefKind, library: Library, text: Text, now: int)
    requires Inv(s)
    ensures var r := RegenerateBrief(s, e, kind, library, text, now);
            if !BriefOpen(s, e, kind) then r.Err? && BriefRefused(s, e, kind, r.error)
            else if !Prepared(s, e, library) then r == Err(Conflict)
            else r.Ok? && PairRewritten(s, e, kind, r.value, text, BriefRegeneration, BriefGenerated, now)
  {
    GuardsBrief(s, e, kind);
    if BriefOpen(s, e, kind) {
      OpenBrief(s, e, kind);
      PreparedCites(s, e, library);
      RewritesPair(s, e, kind, text, BriefRegeneration, false, now);
    }
  }

  /** The approval marks both current versions with one time and leaves texts and histories. */
  predicate BriefSigned(before: Brief, after: Brief, now: int) {
    && after.versions == before.versions && after.current == before.current
    && after.title == before.title && after.markdown == before.markdown
    && after.status == BriefApproved && after.approved == Some(|before.versions|) && after.approvedAt == Some(now)
    && after.approvalInvalidatedAt == None
  }

  predicate PairSigned(s: State, e: Id, t: State, now: int) {
    && BothPresent(s, e) && BothPresent(t, e)
    && PairOnly(s, e, t, Approved, t.briefs[(e, Host)], t.briefs[(e, Guest)])
    && BriefSigned(s.briefs[(e, Host)], t.briefs[(e, Host)], now)
    && BriefSigned(s.briefs[(e, Guest)], t.briefs[(e, Guest)], now)
    && BriefGate(s.series, t, now)
  }

  lemma SignsPair(s: State, e: Id, now: int)
    requires e in s.episodes && BothPresent(s, e)
    requires s.briefs[(e, Host)].current == Some(|s.briefs[(e, Host)].versions|)
    requires s.briefs[(e, Guest)].current == Some(|s.briefs[(e, Guest)].versions|)
    ensures var rows := RowsOf(s, e);
            var approved := rows.(episode := rows.episode.(status := Approved),
                                  host := Some(ApprovedBrief(rows.host.value, now)),
                                  guest := Some(ApprovedBrief(rows.guest.value, now)));
            PairSigned(s, e, RefreshBriefGate(WithRows(s, e, approved), Some(now), now), now)
  {
    var rows := RowsOf(s, e);
    var approved := rows.(episode := rows.episode.(status := Approved),
                          host := Some(ApprovedBrief(rows.host.value, now)),
                          guest := Some(ApprovedBrief(rows.guest.value, now)));
    WritesPair(s, e, approved, Approved);
    GateFollows(WithRows(s, e, approved), Some(now), now);
  }

  lemma CurrentBriefs(s: State, e: Id)
    requires Inv(s) && BriefOpen(s, e, Host)
    ensures BothPresent(s, e)
    ensures s.briefs[(e, Host)].current == Some(|s.briefs[(e, Host)].versions|)
    ensures s.briefs[(e, Guest)].current == Some(|s.briefs[(e, Guest)].versions|)
  {
    OpenBrief(s, e, Host);
  }

  lemma ApprovePairOutcome(s: State, e: Id, now: int)
    requires Inv(s)
    ensures var r := ApprovePair(s, e, now);
            if s.series.planLockedAt.None? then r == Err(Conflict)
            else if e !in s.episodes then r == Err(NotFound)
            else if !Recordable(s, e) || !BothPresent(s, e) then r == Err(Conflict)
            else r.Ok? && PairSigned(s, e, r.value, now)
  {
    if e in s.episodes && s.series.planLockedAt.Some? && Recordable(s, e) && BothPresent(s, e) {
      CurrentBriefs(s, e);
      SignsPair(s, e, now);
    }
  }
}
