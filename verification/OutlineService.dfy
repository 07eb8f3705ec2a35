/** The outline service over the session's tables, operation by operation as in outlines/service.py. */
module OutlineService {
  import opened Wrappers
  import opened WorkflowRows
  import opened OutlineSteps
  import opened WorkflowSession

  class OutlineService {
    const session: Session

    constructor (session: Session)
      ensures this.session == session
    {
      this.session := session;
    }

    /** Appends the next version of an outline that already has a row. */
    method CreateVersion(e: Id, title: string, markdown: string, source: OutlineSource) returns (number: int)
      requires e in session.outlines
      modifies session`outlines
      ensures number == GreatestOutlineVersion(old(session.outlines[e].versions)) + 1
      ensures session.outlines == old(session.outlines)[e := old(session.outlines[e]).(
                versions := old(session.outlines[e].versions) + [OutlineVersion(number, title, markdown, source)])]
    {
      var outline := session.outlines[e];
      number := GreatestOutlineVersion(outline.versions) + 1;
      var version := OutlineVersion(number, title, markdown, source);
      session.outlines := session.outlines[e := outline.(versions := outline.versions + [version])];
    }

    method RefreshSeriesOutlineGate()
      modifies session`series
      ensures session.Db() == RefreshOutlineGate(old(session.Db()))
    {
      if AllApproved(session.outlines) {
        session.series := session.series.(currentStage := BriefsStage);
        return;
      }
      if session.series.currentStage == BriefsStage {
        session.series := session.series.(currentStage := OutlinesStage);
      }
    }

    /** The checks before every change: plan locked, outline and episode found, nothing downstream. */
    method GetEditable(e: Id) returns (r: Result<(), HttpError>)
      ensures r.Ok? <==> EditableOutline(session.Db(), e).Ok?
      ensures r.Err? ==> EditableOutline(session.Db(), e) == Err(r.error)
    {
      var _ :- Require(session.series.planLockedAt.Some?, Conflict);
      var _ :- Require(e in session.episodes && e in session.outlines, NotFound);
      var _ :- Require(!HasDownstream(session.episodes[e].status), Conflict);
      r := Ok(());
    }

    method UpdateOutline(e: Id, title: Option<string>, markdown: string) returns (r: Result<(), HttpError>)
      modifies session
      ensures Committed(old(session.Db()), session.Db(), r,
                        OutlineSteps.UpdateOutline(old(session.Db()), e, title, markdown))
    {
      var _ :- GetEditable(e);
      var outline := session.outlines[e];
      var _ :- Require(outline.status != OutlineApproved, Conflict);
      var newTitle := Given(title, outline.title);
      var number := CreateVersion(e, newTitle, markdown, OutlineEdit);
      var updated := session.outlines[e].(title := newTitle, markdown := markdown, status := OutlineDraft,
                                          current := Some(number), approved := None, approvedAt := None);
      session.outlines := session.outlines[e := updated];
      assert session.outlines == old(session.outlines)[e := updated];
      OutlineWritten(old(session.Db()), e, updated);
      RefreshSeriesOutlineGate();
      r := Ok(());
    }

    method RegenerateOutline(e: Id, title: string, markdown: string) returns (r: Result<(), HttpError>)
      modifies session
      ensures Committed(old(session.Db()), session.Db(), r,
                        OutlineSteps.RegenerateOutline(old(session.Db()), e, title, markdown))
    {
      var _ :- GetEditable(e);
      var number := CreateVersion(e, title, markdown, OutlineRegeneration);
      var updated := session.outlines[e].(title := title, markdown := markdown, status := OutlineGenerated,
                                          current := Some(number), approved := None, approvedAt := None);
      session.outlines := session.outlines[e := updated];
      assert session.outlines == old(session.outlines)[e := updated];
      OutlineWritten(old(session.Db()), e, updated);
      RefreshSeriesOutlineGate();
      r := Ok(());
    }

    method ApproveOutline(e: Id, now: int) returns (r: Result<(), HttpError>)
      modifies session
      ensures Committed(old(session.Db()), session.Db(), r, OutlineSteps.ApproveOutline(old(session.Db()), e, now))
    {
      var _ :- GetEditable(e);
      var outline := session.outlines[e];
      var _ :- Require(outline.current.Some?, Conflict);
      var approved := outline.(status := OutlineApproved, approved := outline.current, approvedAt := Some(now));
      session.outlines := session.outlines[e := approved];
      OutlineWritten(old(session.Db()), e, approved);
      RefreshSeriesOutlineGate();
      r := Ok(());
    }

    /** A new outline row and its first version. */
    method CreateOutlineForEpisode(e: Id, markdown: string)
      requires e in session.episodes
      modifies session`outlines
      ensures session.outlines == old(session.outlines)[e := NewOutline(session.episodes[e], markdown)]
    {
      var title := "Generated outline: " + session.episodes[e].title;
      session.outlines := session.outlines[e := Outline(title, markdown, OutlineGenerated, None, None, None, [])];
      var number := CreateVersion(e, title, markdown, LockGenerated);
      assert number == 1 && session.outlines[e].versions == [OutlineVersion(1, title, markdown, LockGenerated)];
      session.outlines := session.outlines[e := session.outlines[e].(current := Some(number))];
      assert session.outlines[e] == NewOutline(session.episodes[e], markdown);
    }

    /** Opening the workspace, with its two loops: missing outlines, then outlines without a version. */
    method GetWorkspace(texts: Id -> string) returns (r: Result<(), HttpError>)
      modifies session
      ensures Committed(old(session.Db()), session.Db(), r, OpenOutlines(old(session.Db()), texts))
    {
      var _ :- Require(session.series.planLockedAt.Some?, Conflict);
      var episodes := session.Episodes();
      var existing := session.outlines.Keys;
      CreateMissing(episodes, texts);
      RepairExisting(existing);
      r := Ok(());
    }

    method CreateMissing(ids: seq<Id>, texts: Id -> string)
      requires Listing(session.episodes, ids)
      modifies session`outlines
      ensures session.outlines == WithMissing(old(session.outlines), session.episodes, texts)
    {
      var existing := session.outlines;
      for i := 0 to |ids|
        invariant session.outlines == Ensuring(existing, session.episodes, texts, ids[..i])
      {
        assert ids[i] in ids && ids[..i + 1] == ids[..i] + [ids[i]];
        EnsureOneMore(existing, session.episodes, texts, ids[..i], ids[i]);
        if ids[i] !in existing {
          CreateOutlineForEpisode(ids[i], texts(ids[i]));
        }
      }
      EnsuringEnds(existing, session.episodes, texts, ids);
    }

    method RepairExisting(existing: set<Id>)
      requires existing <= session.outlines.Keys
      modifies session`outlines
      ensures session.outlines == RepairedAll(old(session.outlines), existing)
    {
      ghost var before := session.outlines;
      var remaining := existing;
      while remaining != {}
        invariant remaining <= existing && session.outlines == RepairedAll(before, existing - remaining)
      {
        var e :| e in remaining;
        ghost var done := existing - remaining;
        RepairOne(e);
        RepairOneMore(before, done, e);
        remaining := remaining - {e};
        assert existing - remaining == done + {e};
      }
      assert existing - remaining == existing;
    }

    method RepairOne(e: Id)
      requires e in session.outlines
      modifies session`outlines
      ensures session.outlines == old(session.outlines)[e := Repaired(old(session.outlines[e]))]
    {
      var outline := session.outlines[e];
      if outline.versions == [] {
        var number := CreateVersion(e, outline.title, outline.markdown, LockGenerated);
        assert session.outlines[e].versions == [OutlineVersion(1, outline.title, outline.markdown, LockGenerated)];
        session.outlines := session.outlines[e := session.outlines[e].(current := Some(number))];
      }
    }
  }

  /** The outlines once the loop has been through the episodes in `done`. */
  ghost function Ensuring(outlines: map<Id, Outline>, episodes: map<Id, Episode>, texts: Id -> string,
                          done: seq<Id>): map<Id, Outline>
  {
    map e | e in outlines.Keys + episodes.Keys && (e in outlines || e in done) :: Ensured(outlines, episodes, texts, e)
  }

  lemma EnsuringEnds(outlines: map<Id, Outline>, episodes: map<Id, Episode>, texts: Id -> string, ids: seq<Id>)
    requires Listing(episodes, ids)
    ensures Ensuring(outlines, episodes, texts, ids[..|ids|]) == WithMissing(outlines, episodes, texts)
  {
    assert ids[..|ids|] == ids;
  }

  lemma EnsureOneMore(outlines: map<Id, Outline>, episodes: map<Id, Episode>, texts: Id -> string, done: seq<Id>, e: Id)
    requires e in episodes
    ensures var (before, after) := (Ensuring(outlines, episodes, texts, done),
                                    Ensuring(outlines, episodes, texts, done + [e]));
            if e in outlines then after == before else after == before[e := NewOutline(episodes[e], texts(e))]
  {
  }

  lemma RepairOneMore(outlines: map<Id, Outline>, done: set<Id>, e: Id)
    requires e in outlines && e !in done
    ensures RepairedAll(outlines, done + {e}) ==
              RepairedAll(outlines, done)[e := Repaired(RepairedAll(outlines, done)[e])]
  {
  }
}
