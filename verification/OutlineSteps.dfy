/** Outlines of a locked plan (outlines/service.py): drafting, approval and the series' outline gate. */
module OutlineSteps {
  import opened Wrappers
  import opened WorkflowRows

  /** The newest version of an outline, written into its row and not approved. */
  function Revised(outline: Outline, title: string, markdown: string, source: OutlineSource,
                   status: OutlineStatus): Outline
  {
    var version := OutlineVersion(GreatestOutlineVersion(outline.versions) + 1, title, markdown, source);
    Outline(title, markdown, status, Some(version.number), None, None, outline.versions + [version])
  }

  function NewOutline(episode: Episode, markdown: string): Outline {
    var title := "Generated outline: " + episode.title;
    Outline(title, markdown, OutlineGenerated, Some(1), None, None, [OutlineVersion(1, title, markdown, LockGenerated)])
  }

  /** An outline row left without a version is given one; every other row stays. */
  function Repaired(outline: Outline): Outline {
    if outline.versions != [] then outline
    else outline.(current := Some(1),
                  versions := [OutlineVersion(1, outline.title, outline.markdown, LockGenerated)])
  }

  predicate AllApproved(outlines: map<Id, Outline>) {
    outlines.Keys != {} && forall e <- outlines :: outlines[e].status == OutlineApproved
  }

  function RefreshOutlineGate(s: State): State {
    var stage := if AllApproved(s.outlines) then BriefsStage
                 else if s.series.currentStage == BriefsStage then OutlinesStage
                 else s.series.currentStage;
    s.(series := s.series.(currentStage := stage))
  }

  function EditableOutline(s: State, e: Id): (r: Result<EpisodeRows, HttpError>)
    ensures r.Ok? ==> e in s.episodes && r.value == RowsOf(s, e) && r.value.outline.Some?
    ensures r.Ok? ==> Locked(s) && !HasDownstream(r.value.episode.status)
  {
    var _ :- Require(Locked(s), Conflict);
    var _ :- Require(e in s.episodes && e in s.outlines, NotFound);
    var _ :- Require(!HasDownstream(s.episodes[e].status), Conflict);
    Ok(RowsOf(s, e))
  }

  function UpdateOutline(s: State, e: Id, title: Option<string>, markdown: string): Result<State, HttpError> {
    var rows :- EditableOutline(s, e);
    var outline := rows.outline.value;
    var _ :- Require(outline.status != OutlineApproved, Conflict);
    var revised := Revised(outline, Given(title, outline.title), markdown, OutlineEdit, OutlineDraft);
    Ok(RefreshOutlineGate(WithRows(s, e, rows.(outline := Some(revised)))))
  }

  function RegenerateOutline(s: State, e: Id, title: string, markdown: string): Result<State, HttpError> {
    var rows :- EditableOutline(s, e);
    var revised := Revised(rows.outline.value, title, markdown, OutlineRegeneration, OutlineGenerated);
    Ok(RefreshOutlineGate(WithRows(s, e, rows.(outline := Some(revised)))))
  }

  function ApproveOutline(s: State, e: Id, now: int): Result<State, HttpError> {
    var rows :- EditableOutline(s, e);
    var outline := rows.outline.value;
    var _ :- Require(outline.current.Some?, Conflict);
    var approved := outline.(status := OutlineApproved, approved := outline.current, approvedAt := Some(now));
    Ok(RefreshOutlineGate(WithRows(s, e, rows.(outline := Some(approved)))))
  }

  /** The outline an episode has, or else gets. */
  function Ensured(outlines: map<Id, Outline>, episodes: map<Id, Episode>, texts: Id -> string, e: Id): Outline
    requires e in outlines || e in episodes
  {
    if e in outlines then outlines[e] else NewOutline(episodes[e], texts(e))
  }

  /** Every episode without an outline gets one. */
  function WithMissing(outlines: map<Id, Outline>, episodes: map<Id, Episode>,
                       texts: Id -> string): (r: map<Id, Outline>)
    ensures r.Keys == outlines.Keys + episodes.Keys
  {
    map e | e in outlines.Keys + episodes.Keys :: Ensured(outlines, episodes, texts, e)
  }

  function RepairedAll(outlines: map<Id, Outline>, existing: set<Id>): (r: map<Id, Outline>)
    ensures r.Keys == outlines.Keys
  {
    map e | e in outlines :: if e in existing then Repaired(outlines[e]) else outlines[e]
  }

  /** Opening the workspace gives every episode an outline, and every outline there was before a version. */
  function OpenOutlines(s: State, texts: Id -> string): Result<State, HttpError> {
    var _ :- Require(Locked(s), Conflict);
    Ok(s.(outlines := RepairedAll(WithMissing(s.outlines, s.episodes, texts), s.outlines.Keys)))
  }
}
