/** The brief service over the session's tables, operation by operation as in briefs/service.py. */
module BriefService {
  import opened Wrappers
  import opened WorkflowRows
  import opened BriefSteps
  import opened WorkflowSession

  class BriefService {
    const session: Session

    constructor (session: Session)
      ensures this.session == session
    {
      this.session := session;
    }

    method RefreshSeriesBriefGate(approvedAt: Option<int>, now: int)
      modifies session`series
      ensures session.Db() == RefreshBriefGate(old(session.Db()), approvedAt, now)
    {
      var approved := session.ApprovedEpisodeIds();
      if approved != {} {
        var first := session.series.briefsApprovedAt;
        if first.None? {
          first := if approvedAt.Some? then approvedAt else Some(now);
        }
        session.series := session.series.(briefsApprovedAt := first, currentStage := RecordingsStage,
                                          status := InProduction);
        return;
      }
      session.series := session.series.(briefsApprovedAt := None);
      if session.series.currentStage == RecordingsStage {
        session.series := session.series.(currentStage := BriefsStage);
      }
    }

    method CreateVersion(e: Id, kind: BriefKind, text: Text, outlineEpisode: Id, outlineVersion: int,
                         source: BriefSource)
      returns (number: int)
      requires (e, kind) in session.briefs
      modifies session`briefs
      ensures var brief := old(session.briefs[(e, kind)]);
              && number == GreatestBriefVersion(brief.versions) + 1
              && session.briefs == old(session.briefs)[(e, kind) := brief.(versions := brief.versions +
                   [BriefVersion(number, text.title, text.markdown, source, outlineEpisode, outlineVersion)])]
    {
      var brief := session.briefs[(e, kind)];
      number := GreatestBriefVersion(brief.versions) + 1;
      var version := BriefVersion(number, text.title, text.markdown, source, outlineEpisode, outlineVersion);
      session.briefs := session.briefs[(e, kind) := brief.(versions := brief.versions + [version])];
    }

    /** A new version of a brief, also written into its row. */
    method Rewrite(e: Id, kind: BriefKind, text: Text, outlineEpisode: Id, outlineVersion: int, source: BriefSource,
                   status: BriefStatus)
      requires (e, kind) in session.briefs
      modifies session`briefs
      ensures session.briefs == old(session.briefs)[(e, kind) :=
                Rewritten(old(session.briefs[(e, kind)]), text, source, outlineEpisode, outlineVersion, status)]
    {
      var number := CreateVersion(e, kind, text, outlineEpisode, outlineVersion, source);
      var brief := session.briefs[(e, kind)].(title := text.title, markdown := text.markdown, status := status,
                                              current := Some(number));
      session.briefs := session.briefs[(e, kind) := brief];
    }

    /** A new brief row and its first version. */
    method CreateBrief(e: Id, kind: BriefKind, text: Text, outlineVersion: int)
      modifies session`briefs
      ensures session.briefs == old(session.briefs)[(e, kind) := NewBrief(text, e, outlineVersion)]
    {
      var brief := Brief(text.title, text.markdown, BriefGenerated, None, None, None, None, []);
      session.briefs := session.briefs[(e, kind) := brief];
      var number := CreateVersion(e, kind, text, e, outlineVersion, Generation);
      assert session.briefs[(e, kind)].versions ==
               [BriefVersion(1, text.title, text.markdown, Generation, e, outlineVersion)];
      session.briefs := session.briefs[(e, kind) := session.briefs[(e, kind)].(current := Some(number))];
    }

    method GeneratePair(e: Id, library: Library, host: Text, guest: Text, now: int) returns (r: Result<(), HttpError>)
      modifies session
      ensures Committed(old(session.Db()), session.Db(), r,
                        BriefSteps.GeneratePair(old(session.Db()), e, library, host, guest, now))
    {
      var _ :- Require(session.series.planLockedAt.Some?, Conflict);
      var _ :- Require(e in session.episodes, NotFound);
      var _ :- Require(!RecordedOrLater(session.episodes[e].status), Conflict);
      var rows := RowsOf(State(session.series, session.ledger, session.narratives, session.episodes, session.outlines,
                               session.briefs, session.production, session.nextId), e);
      var cited :- CitedVersion(rows, library);
      var _ :- Require((e, Host) !in session.briefs && (e, Guest) !in session.briefs, Conflict);
      CreateBrief(e, Host, host, cited);
      CreateBrief(e, Guest, guest, cited);
      session.episodes := session.episodes[e := session.episodes[e].(status := BriefReady)];
      session.series := session.series.(currentStage := BriefsStage, status := InProduction);
      assert session.Db() == WithRows(old(session.Db()), e,
          rows.(episode := rows.episode.(status := BriefReady), host := Some(NewBrief(host, e, cited)),
                guest := Some(NewBrief(guest, e, cited)))).(series := session.series);
      RefreshSeriesBriefGate(None, now);
      r := Ok(());
    }

    method InvalidatePairApproval(e: Id, edited: Option<BriefKind>, now: int)
      requires e in session.episodes
      modifies session
      ensures session.Db() == RefreshBriefGate(WithRows(old(session.Db()), e,
                                Invalidated(RowsOf(old(session.Db()), e), edited, now)), None, now)
    {
      AllInvalidated(session.Db(), e, edited, now);
      InvalidateBriefs(e, edited, now);
      if session.episodes[e].status == Approved {
        session.episodes := session.episodes[e := session.episodes[e].(status := BriefReady)];
      }
      ghost var rows := Invalidated(RowsOf(old(session.Db()), e), edited, now);
      assert session.episodes == old(session.episodes)[e := rows.episode];
      assert session.Db() == WithRows(old(session.Db()), e, rows);
      RefreshSeriesBriefGate(None, now);
    }

    /** The loop over an episode's briefs. */
    method InvalidateBriefs(e: Id, edited: Option<BriefKind>, now: int)
      modifies session`briefs
      ensures session.briefs == InvalidatedBriefs(old(session.briefs), e, {Host, Guest}, edited, now)
    {
      var kinds := [Host, Guest];
      for i := 0 to 2
        invariant session.briefs == InvalidatedBriefs(old(session.briefs), e, Kinds(i), edited, now)
      {
        InvalidateOneMore(old(session.briefs), e, Kinds(i), kinds[i], edited, now);
        if (e, kinds[i]) in session.briefs {
          InvalidateBrief((e, kinds[i]), edited == Some(kinds[i]), now);
        }
      }
    }

    method InvalidateBrief(key: (Id, BriefKind), edited: bool, now: int)
      requires key in session.briefs
      modifies session`briefs
      ensures session.briefs == old(session.briefs)[key := InvalidatedBrief(old(session.briefs[key]), edited, now)]
    {
      var brief := session.briefs[key];
      var hadApproval := brief.status == BriefApproved || brief.approved.Some? || brief.approvedAt.Some?;
      brief := brief.(approved := None, approvedAt := None);
      if hadApproval {
        brief := brief.(approvalInvalidatedAt := Some(now));
      }
      if !edited && brief.status == BriefApproved {
        brief := brief.(status := BriefGenerated);
      }
      session.briefs := session.briefs[key := brief];
    }

    method UpdateBrief(e: Id, kind: BriefKind, title: Option<string>, markdown: string, now: int)
      returns (r: Result<(), HttpError>)
      modifies session
      ensures Committed(old(session.Db()), session.Db(), r,
                        BriefSteps.UpdateBrief(old(session.Db()), e, kind, title, markdown, now))
    {
      var _ :- Require(session.series.planLockedAt.Some?, Conflict);
      var _ :- Require(e in session.episodes && (e, kind) in session.briefs, NotFound);
      var _ :- Require(!RecordedOrLater(session.episodes[e].status), Conflict);
      var brief := session.briefs[(e, kind)];
      var _ :- Require(brief.current.Some? && FindBriefVersion(brief.versions, brief.current.value).Some?, Conflict);
      var current := FindBriefVersion(brief.versions, brief.current.value).value;
      var text := Text(Given(title, brief.title), markdown);
      Rewrite(e, kind, text, current.outlineEpisode, current.outlineVersion, BriefEdit, BriefDraft);
      InvalidatingWrites(old(session.Db()), e, kind, session.briefs[(e, kind)], Some(kind), now);
      InvalidatePairApproval(e, Some(kind), now);
      r := Ok(());
    }

    method RegenerateBrief(e: Id, kind: BriefKind, library: Library, text: Text, now: int)
      returns (r: Result<(), HttpError>)
      modifies session
      ensures Committed(old(session.Db()), session.Db(), r,
                        BriefSteps.RegenerateBrief(old(session.Db()), e, kind, library, text, now))
    {
      var _ :- Require(session.series.planLockedAt.Some?, Conflict);
      var _ :- Require(e in session.episodes && (e, kind) in session.briefs, NotFound);
      var _ :- Require(!RecordedOrLater(session.episodes[e].status), Conflict);
      var rows := RowsOf(State(session.series, session.ledger, session.narratives, session.episodes, session.outlines,
                               session.briefs, session.production, session.nextId), e);
      var cited :- CitedVersion(rows, library);
      Rewrite(e, kind, text, e, cited, BriefRegeneration, BriefGenerated);
      InvalidatingWrites(old(session.Db()), e, kind, session.briefs[(e, kind)], None, now);
      InvalidatePairApproval(e, None, now);
      r := Ok(());
    }

    method ApprovePair(e: Id, now: int) returns (r: Result<(), HttpError>)
      modifies session
      ensures Committed(old(session.Db()), session.Db(), r, BriefSteps.ApprovePair(old(session.Db()), e, now))
    {
      var _ :- Require(session.series.planLockedAt.Some?, Conflict);
      var _ :- Require(e in session.episodes, NotFound);
      var _ :- Require(!RecordedOrLater(session.episodes[e].status), Conflict);
      var _ :- Require((e, Host) in session.briefs && (e, Guest) in session.briefs, Conflict);
      var _ :- Require(session.briefs[(e, Host)].current.Some? && session.briefs[(e, Guest)].current.Some?, Conflict);
      AllApproved(session.Db(), e, now);
      ApproveBriefs(e, now);
      session.episodes := session.episodes[e := session.episodes[e].(status := Approved)];
      RefreshSeriesBriefGate(Some(now), now);
      r := Ok(());
    }

    method ApproveBriefs(e: Id, now: int)
      requires (e, Host) in session.briefs && (e, Guest) in session.briefs
      modifies session`briefs
      ensures session.briefs == ApprovedBriefs(old(session.briefs), e, {Host, Guest}, now)
    {
      var kinds := [Host, Guest];
      for i := 0 to 2
        invariant session.briefs == ApprovedBriefs(old(session.briefs), e, Kinds(i), now)
      {
        ApproveOneMore(old(session.briefs), e, Kinds(i), kinds[i], now);
        var brief := session.briefs[(e, kinds[i])];
        brief := brief.(status := BriefApproved, approved := brief.current, approvedAt := Some(now),
                        approvalInvalidatedAt := None);
        session.briefs := session.briefs[(e, kinds[i]) := brief];
      }
    }
  }

  // ----- the loops over both kinds -----

  /** The kinds among the first `n` of host and guest. */
  ghost function Kinds(n: nat): set<BriefKind> {
    if n == 0 then {} else if n == 1 then {Host} else {Host, Guest}
  }

  ghost function InvalidatedBriefs(briefs: map<(Id, BriefKind), Brief>, e: Id, done: set<BriefKind>,
                                   edited: Option<BriefKind>, now: int): map<(Id, BriefKind), Brief>
  {
    map k | k in briefs ::
      if k.0 == e && k.1 in done then InvalidatedBrief(briefs[k], edited == Some(k.1), now) else briefs[k]
  }

  lemma InvalidateOneMore(briefs: map<(Id, BriefKind), Brief>, e: Id, done: set<BriefKind>, kind: BriefKind,
                          edited: Option<BriefKind>, now: int)
    requires kind !in done
    ensures var (before, after) := (InvalidatedBriefs(briefs, e, done, edited, now),
                                    InvalidatedBriefs(briefs, e, done + {kind}, edited, now));
            if (e, kind) in before then
              after == before[(e, kind) := InvalidatedBrief(before[(e, kind)], edited == Some(kind), now)]
            else after == before
  {
  }

  ghost function ApprovedBriefs(briefs: map<(Id, BriefKind), Brief>, e: Id, done: set<BriefKind>, now: int)
    : map<(Id, BriefKind), Brief>
  {
    map k | k in briefs :: if k.0 == e && k.1 in done then ApprovedBrief(briefs[k], now) else briefs[k]
  }

  lemma ApproveOneMore(briefs: map<(Id, BriefKind), Brief>, e: Id, done: set<BriefKind>, kind: BriefKind, now: int)
    requires kind !in done && (e, kind) in briefs
    ensures var before := ApprovedBriefs(briefs, e, done, now);
            ApprovedBriefs(briefs, e, done + {kind}, now) == before[(e, kind) := ApprovedBrief(before[(e, kind)], now)]
  {
  }

  lemma AllInvalidated(s: State, e: Id, edited: Option<BriefKind>, now: int)
    requires e in s.episodes
    ensures var t := WithRows(s, e, Invalidated(RowsOf(s, e), edited, now));
            && t.briefs == InvalidatedBriefs(s.briefs, e, {Host, Guest}, edited, now)
            && t.outlines == s.outlines
  {
  }

  lemma AllApproved(s: State, e: Id, now: int)
    requires e in s.episodes && (e, Host) in s.briefs && (e, Guest) in s.briefs
    ensures var rows := RowsOf(s, e);
            var t := WithRows(s, e, rows.(episode := rows.episode.(status := Approved),
                                          host := Some(ApprovedBrief(rows.host.value, now)),
                                          guest := Some(ApprovedBrief(rows.guest.value, now))));
            t.briefs == ApprovedBriefs(s.briefs, e, {Host, Guest}, now) && t.outlines == s.outlines
  {
  }

  /** Writing a brief and then invalidating its pair is one write of the episode's rows. */
  lemma InvalidatingWrites(s: State, e: Id, kind: BriefKind, brief: Brief, edited: Option<BriefKind>, now: int)
    requires e in s.episodes
    ensures var written := s.(briefs := s.briefs[(e, kind) := brief]);
            && RowsOf(written, e) == RowsOf(s, e).WithBrief(kind, brief)
            && WithRows(written, e, Invalidated(RowsOf(written, e), edited, now)) ==
               WithRows(s, e, Invalidated(RowsOf(s, e).WithBrief(kind, brief), edited, now))
  {
    BriefWritten(s, e, kind, brief);
    var rows := RowsOf(s, e).WithBrief(kind, brief);
    RowsAfter(s, e, rows, e);
    WrittenTwice(s, e, rows, Invalidated(rows, edited, now));
  }
}
