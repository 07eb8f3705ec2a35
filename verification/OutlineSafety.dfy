/** Every outline step keeps the invariant and takes nothing back. */
module OutlineSafety {
  import opened Wrappers
  import opened WorkflowRows
  import opened OutlineSteps
  import opened WorkflowInvariant

  lemma RevisedKeeps(outline: Outline, title: string, markdown: string, source: OutlineSource, status: OutlineStatus)
    requires OutlineHistory(outline) && status != OutlineApproved
    ensures var after := Revised(outline, title, markdown, source, status);
            OutlineInv(after) && outline.versions <= after.versions && |after.versions| == |outline.versions| + 1
  {
    NextOutlineVersion(outline.versions);
  }

  /** A step on an outline whose episode has nothing downstream. */
  lemma OutlineWriteIsSound(s: State, e: Id, outline: Outline)
    requires Inv(s) && EditableOutline(s, e).Ok? && OutlineInv(outline)
    requires s.outlines[e].versions <= outline.versions
    ensures var t := RefreshOutlineGate(WithRows(s, e, RowsOf(s, e).(outline := Some(outline))));
            Sound(s, t) && NumberingKept(s, t)
  {
    assert EpisodeInv(s, e);
    var rows := RowsOf(s, e).(outline := Some(outline));
    var t := RefreshOutlineGate(WithRows(s, e, rows));
    assert Wrote(s, e, rows, t);
    SameApprovals(s, e, rows, t);
    WritingIsSound(s, e, rows, t);
  }

  lemma UpdateOutlineIsSound(s: State, e: Id, title: Option<string>, markdown: string)
    requires Inv(s) && UpdateOutline(s, e, title, markdown).Ok?
    ensures var t := UpdateOutline(s, e, title, markdown).value;
            Sound(s, t) && NumberingKept(s, t)
  {
    assert EpisodeInv(s, e);
    var outline := s.outlines[e];
    RevisedKeeps(outline, Given(title, outline.title), markdown, OutlineEdit, OutlineDraft);
    OutlineWriteIsSound(s, e, Revised(outline, Given(title, outline.title), markdown, OutlineEdit, OutlineDraft));
  }

  lemma RegenerateOutlineIsSound(s: State, e: Id, title: string, markdown: string)
    requires Inv(s) && RegenerateOutline(s, e, title, markdown).Ok?
    ensures var t := RegenerateOutline(s, e, title, markdown).value;
            Sound(s, t) && NumberingKept(s, t)
  {
    assert EpisodeInv(s, e);
    var outline := s.outlines[e];
    RevisedKeeps(outline, title, markdown, OutlineRegeneration, OutlineGenerated);
    OutlineWriteIsSound(s, e, Revised(outline, title, markdown, OutlineRegeneration, OutlineGenerated));
  }

  lemma ApproveOutlineIsSound(s: State, e: Id, now: int)
    requires Inv(s) && ApproveOutline(s, e, now).Ok?
    ensures var t := ApproveOutline(s, e, now).value;
            Sound(s, t) && NumberingKept(s, t)
  {
    assert EpisodeInv(s, e);
    var outline := s.outlines[e];
    OutlineWriteIsSound(s, e, outline.(status := OutlineApproved, approved := outline.current,
                                       approvedAt := Some(now)));
  }

  /** The workspace has nothing to repair: opening it changes nothing. */
  lemma OpeningChangesNothing(s: State, texts: Id -> string)
    requires Inv(s) && Locked(s)
    ensures OpenOutlines(s, texts) == Ok(s)
  {
    var ensured := WithMissing(s.outlines, s.episodes, texts);
    assert ensured == s.outlines;
    forall e <- s.outlines ensures Repaired(s.outlines[e]) == s.outlines[e] {
      assert EpisodeInv(s, e);
    }
    assert RepairedAll(ensured, s.outlines.Keys) == s.outlines;
  }

  /** An outline is editable exactly until its episode's briefs exist. */
  lemma EditableUntilBriefs(s: State, e: Id)
    requires Inv(s) && Locked(s) && e in s.episodes
    ensures (e, Host) in s.briefs ==> EditableOutline(s, e) == Err(Conflict)
    ensures s.episodes[e].status in {Planned, Outlined, ProfilesSet} ==>
              EditableOutline(s, e).Ok? && (e, Host) !in s.briefs
  {
    assert EpisodeInv(s, e);
  }
}
