/** Host and guest briefs (briefs/service.py): generated in pairs, approved in pairs, citing one outline version. */
module BriefSteps {
  import opened Wrappers
  import opened WorkflowRows

  // ----- the recordings gate -----

  /** The approved briefs the query groups under one episode. */
  function ApprovedRows(briefs: map<(Id, BriefKind), Brief>, e: Id): set<(Id, BriefKind)> {
    set k | k in briefs && k.0 == e && briefs[k].status == BriefApproved
  }

  predicate PairApproved(rows: EpisodeRows) {
    && rows.host.Some? && rows.host.value.status == BriefApproved
    && rows.guest.Some? && rows.guest.value.status == BriefApproved
  }

  function ApprovedEpisodes(s: State): set<Id> {
    set e | e in s.episodes && PairApproved(RowsOf(s, e))
  }

  /** The group-by keeps an episode exactly when both kinds are approved, as (episode, kind) is unique. */
  lemma CountTwoIsBothKinds(s: State, e: Id)
    requires e in s.episodes
    ensures |ApprovedRows(s.briefs, e)| == 2 <==> PairApproved(RowsOf(s, e))
  {
    var rows := ApprovedRows(s.briefs, e);
    var host := if (e, Host) in rows then {(e, Host)} else {};
    var guest := if (e, Guest) in rows then {(e, Guest)} else {};
    forall k ensures k in rows <==> k in host + guest {
      assert k == (k.0, k.1) && (k.1 == Host || k.1 == Guest);
    }
    assert rows == host + guest;
  }

  function RefreshBriefGate(s: State, approvedAt: Option<int>, now: int): State {
    if ApprovedEpisodes(s) != {} then
      var first := if s.series.briefsApprovedAt.Some? then s.series.briefsApprovedAt
                   else if approvedAt.Some? then approvedAt else Some(now);
      s.(series := s.series.(briefsApprovedAt := first, currentStage := RecordingsStage, status := InProduction))
    else
      var stage := if s.series.currentStage == RecordingsStage then BriefsStage else s.series.currentStage;
      s.(series := s.series.(briefsApprovedAt := None, currentStage := stage))
  }

  // ----- what a generated brief needs -----

  predicate Assigned(library: Library, id: Option<Id>, kind: ProfileKind) {
    id.Some? && exists p <- library :: p.id == id.value && p.isActive && p.kind == kind
  }

  /** The outline version a generated brief cites. */
  function CitedVersion(rows: EpisodeRows, library: Library): Result<int, HttpError> {
    var _ :- Require(Assigned(library, rows.episode.hostProfileId, HostProfile), Conflict);
    var _ :- Require(Assigned(library, rows.episode.guestProfileId, GuestProfile), Conflict);
    var _ :- Require(rows.outline.Some? && rows.outline.value.current.Some?, Conflict);
    var outline := rows.outline.value;
    var _ :- Require(outline.status == OutlineApproved, Conflict);
    var _ :- Require(HasOutlineVersion(outline.versions, outline.current.value), Conflict);
    Ok(outline.current.value)
  }

  // ----- rows -----

  datatype Text = Text(title: string, markdown: string)

  function NewBrief(text: Text, e: Id, outlineVersion: int): Brief {
    Brief(text.title, text.markdown, BriefGenerated, Some(1), None, None, None,
          [BriefVersion(1, text.title, text.markdown, Generation, e, outlineVersion)])
  }

  /** The newest version of a brief, written into its row; approval fields are left to `Invalidated`. */
  function Rewritten(brief: Brief, text: Text, source: BriefSource, e: Id, outlineVersion: int,
                     status: BriefStatus): Brief
  {
    var number := GreatestBriefVersion(brief.versions) + 1;
    brief.(title := text.title, markdown := text.markdown, status := status, current := Some(number),
           versions := brief.versions + [BriefVersion(number, text.title, text.markdown, source, e, outlineVersion)])
  }

  function InvalidatedBrief(brief: Brief, edited: bool, now: int): Brief {
    var hadApproval := brief.status == BriefApproved || brief.approved.Some? || brief.approvedAt.Some?;
    brief.(approved := None, approvedAt := None,
           approvalInvalidatedAt := if hadApproval then Some(now) else brief.approvalInvalidatedAt,
           status := if !edited && brief.status == BriefApproved then BriefGenerated else brief.status)
  }

  /** Both briefs lose their approval, and an approved episode goes back to brief-ready. */
  function Invalidated(rows: EpisodeRows, edited: Option<BriefKind>, now: int): EpisodeRows {
    var host := if rows.host.Some? then Some(InvalidatedBrief(rows.host.value, edited == Some(Host), now)) else None;
    var guest := if rows.guest.Some? then Some(InvalidatedBrief(rows.guest.value, edited == Some(Guest), now))
                 else None;
    var status := if rows.episode.status == Approved then BriefReady else rows.episode.status;
    rows.(host := host, guest := guest, episode := rows.episode.(status := status))
  }

  function ApprovedBrief(brief: Brief, now: int): Brief {
    brief.(status := BriefApproved, approved := brief.current, approvedAt := Some(now), approvalInvalidatedAt := None)
  }

  // ----- steps -----

  function EditableBriefs(s: State, e: Id): (r: Result<EpisodeRows, HttpError>)
    ensures r.Ok? ==> e in s.episodes && r.value == RowsOf(s, e)
    ensures r.Ok? ==> Locked(s) && !RecordedOrLater(r.value.episode.status)
  {
    var _ :- Require(Locked(s), Conflict);
    var _ :- Require(e in s.episodes, NotFound);
    var _ :- Require(!RecordedOrLater(s.episodes[e].status), Conflict);
    Ok(RowsOf(s, e))
  }

  function EditableBrief(s: State, e: Id, kind: BriefKind): (r: Result<EpisodeRows, HttpError>)
    ensures r.Ok? ==> e in s.episodes && r.value == RowsOf(s, e) && r.value.Brief(kind).Some?
    ensures r.Ok? ==> Locked(s) && !RecordedOrLater(r.value.episode.status)
  {
    var _ :- Require(Locked(s), Conflict);
    var _ :- Require(e in s.episodes && (e, kind) in s.briefs, NotFound);
    EditableBriefs(s, e)
  }

  function GeneratePair(s: State, e: Id, library: Library, host: Text, guest: Text, now: int): Result<State, HttpError>
  {
    var rows :- EditableBriefs(s, e);
    var cited :- CitedVersion(rows, library);
    var _ :- Require(rows.host.None? && rows.guest.None?, Conflict);
    var episode := rows.episode.(status := BriefReady);
    var pair := rows.(episode := episode, host := Some(NewBrief(host, e, cited)),
                      guest := Some(NewBrief(guest, e, cited)));
    var written := WithRows(s, e, pair);
    Ok(RefreshBriefGate(written.(series := s.series.(currentStage := BriefsStage, status := InProduction)), None, now))
  }

  function UpdateBrief(s: State, e: Id, kind: BriefKind, title: Option<string>, markdown: string,
                       now: int): Result<State, HttpError>
  {
    var rows :- EditableBrief(s, e, kind);
    var brief := rows.Brief(kind).value;
    var _ :- Require(brief.current.Some? && FindBriefVersion(brief.versions, brief.current.value).Some?, Conflict);
    var current := FindBriefVersion(brief.versions, brief.current.value).value;
    var text := Text(Given(title, brief.title), markdown);
    var edited := Rewritten(brief, text, BriefEdit, current.outlineEpisode, current.outlineVersion, BriefDraft);
    Ok(RefreshBriefGate(WithRows(s, e, Invalidated(rows.WithBrief(kind, edited), Some(kind), now)), None, now))
  }

  function RegenerateBrief(s: State, e: Id, kind: BriefKind, library: Library, text: Text,
                           now: int): Result<State, HttpError>
  {
    var rows :- EditableBrief(s, e, kind);
    var cited :- CitedVersion(rows, library);
    var regenerated := Rewritten(rows.Brief(kind).value, text, BriefRegeneration, e, cited, BriefGenerated);
    Ok(RefreshBriefGate(WithRows(s, e, Invalidated(rows.WithBrief(kind, regenerated), None, now)), None, now))
  }

  function ApprovePair(s: State, e: Id, now: int): Result<State, HttpError> {
    var rows :- EditableBriefs(s, e);
    var _ :- Require(rows.host.Some? && rows.guest.Some?, Conflict);
    var _ :- Require(rows.host.value.current.Some? && rows.guest.value.current.Some?, Conflict);
    var approved := rows.(episode := rows.episode.(status := Approved),
                          host := Some(ApprovedBrief(rows.host.value, now)),
                          guest := Some(ApprovedBrief(rows.guest.value, now)));
    Ok(RefreshBriefGate(WithRows(s, e, approved), Some(now), now))
  }
}
