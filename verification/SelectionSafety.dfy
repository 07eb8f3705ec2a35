/** Discovery, regeneration and selection keep the invariant; none of them retires the selected narrative. */
module SelectionSafety {
  import opened Wrappers
  import opened WorkflowRows
  import opened PlanSteps
  import opened NarrativeSteps
  import opened BriefSteps
  import opened WorkflowInvariant
  import PlanSafety

  /** Both queries find the one selected row. */
  lemma FindsTheSelected(narratives: seq<Narrative>, i: Id, byStatus: bool)
    requires NarrativesInv(narratives) && i < |narratives| && narratives[i].isSelected
    ensures FindSelected(narratives, byStatus) == Some(i)
  {
    var found := FindSelected(narratives, byStatus);
    assert IsSelected(narratives[i], byStatus);
    assert narratives[found.value].isSelected;
  }

  lemma QueriesAgree(narratives: seq<Narrative>)
    requires NarrativesInv(narratives)
    ensures FindSelected(narratives, true) == FindSelected(narratives, false)
  {
    var found := FindSelected(narratives, false);
    if found.Some? {
      FindsTheSelected(narratives, found.value, true);
    }
  }

  lemma {:induction false} AtMostGreatest(narratives: seq<Narrative>, i: nat)
    requires i < |narratives|
    ensures narratives[i].generation <= GreatestGeneration(narratives)
  {
    if i < |narratives| - 1 {
      AtMostGreatest(narratives[..|narratives| - 1], i);
    }
  }

  /** A new generation is above every earlier one, and the selected row is left as it was. */
  lemma RegenerationKeeps(narratives: seq<Narrative>)
    requires NarrativesInv(narratives)
    ensures var after := WithCandidates(RetireCandidates(narratives));
            && NarrativesInv(after) && NarrativesAdvance(narratives, after)
            && FindSelected(after, false) == FindSelected(narratives, false)
  {
    var after := WithCandidates(RetireCandidates(narratives));
    forall i | 0 <= i < |narratives|
      ensures after[i].generation < GreatestGeneration(RetireCandidates(narratives)) + 1
    {
      AtMostGreatest(RetireCandidates(narratives), i);
    }
    SelectedKept(narratives, after);
  }

  /** The selected row stays the one found when no other row becomes selected. */
  lemma SelectedKept(before: seq<Narrative>, after: seq<Narrative>)
    requires NarrativesInv(after) && |before| <= |after|
    requires forall i | 0 <= i < |before| :: after[i].isSelected == before[i].isSelected
    requires forall i | |before| <= i < |after| :: !after[i].isSelected
    ensures FindSelected(after, false) == FindSelected(before, false)
  {
    var found := FindSelected(before, false);
    if found.Some? {
      FindsTheSelected(after, found.value, false);
    }
  }

  /**
   What one regeneration does to each row: unselected candidates retire, three candidates of a new generation join.
   */
  lemma RegenerationRows(s: State, i: nat)
    requires Inv(s) && RegenerateNarratives(s).Ok? && i < |s.narratives|
    ensures var t := RegenerateNarratives(s).value;
            && |t.narratives| == |s.narratives| + CANDIDATES
            && (t.narratives[i] == if s.narratives[i].status == Candidate then s.narratives[i].(status := Retired)
                                   else s.narratives[i])
            && (forall j | |s.narratives| <= j < |t.narratives| ::
                  t.narratives[j].status == Candidate && t.narratives[j].generation > s.narratives[i].generation)
  {
    AtMostGreatest(RetireCandidates(s.narratives), i);
  }

  /** Only narratives, the ledger and the series have been written. */
  ghost predicate NarrativesWritten(s: State, t: State) {
    t == s.(series := t.series, ledger := t.ledger, narratives := t.narratives)
    && t.series.planLockedAt == s.series.planLockedAt
  }

  lemma EpisodesUntouched(s: State, t: State)
    requires Inv(s) && NarrativesWritten(s, t)
    ensures forall e :: EpisodeInv(t, e) && EpisodeAdvances(s, t, e) && EntryKeepsBriefs(s, t, e)
    ensures ApprovedEpisodes(t) == ApprovedEpisodes(s)
  {
    forall e
      ensures EpisodeInv(t, e) && EpisodeAdvances(s, t, e) && EntryKeepsBriefs(s, t, e)
      ensures e in ApprovedEpisodes(t) <==> e in ApprovedEpisodes(s)
    {
      assert EpisodeInv(s, e);
      if e in s.episodes {
        assert RowsOf(t, e) == RowsOf(s, e);
      }
    }
  }

  lemma NarrativeWriteIsSound(s: State, t: State)
    requires Inv(s) && NarrativesWritten(s, t) && PlanSafety.GatesStay(s.series, t.series)
    requires NarrativesInv(t.narratives) && NarrativesAdvance(s.narratives, t.narratives)
    requires Locked(s) ==> FindSelected(t.narratives, false) == FindSelected(s.narratives, false)
    ensures Sound(s, t) && NumberingKept(s, t)
  {
    EpisodesUntouched(s, t);
    SameReadiness(s, t);
    ProductionStays(s.production);
  }

  lemma RunDiscoveryIsSound(s: State, documents: nat)
    requires Inv(s) && RunDiscovery(s, documents).Ok?
    ensures var t := RunDiscovery(s, documents).value;
            Sound(s, t) && NumberingKept(s, t)
  {
    RegenerationKeeps(s.narratives);
    NarrativeWriteIsSound(s, RunDiscovery(s, documents).value);
  }

  lemma RegenerateNarrativesIsSound(s: State)
    requires Inv(s) && RegenerateNarratives(s).Ok?
    ensures var t := RegenerateNarratives(s).value;
            Sound(s, t) && NumberingKept(s, t)
  {
    RegenerationKeeps(s.narratives);
    NarrativeWriteIsSound(s, RegenerateNarratives(s).value);
  }

  lemma ChoosingKeeps(narratives: seq<Narrative>, n: Id, now: int)
    requires NarrativesInv(narratives) && n < |narratives|
    ensures var after := Choose(narratives, n, now);
            NarrativesInv(after) && NarrativesAdvance(narratives, after) && FindSelected(after, false) == Some(n)
  {
    FindsTheSelected(Choose(narratives, n, now), n, false);
  }

  /** The series and the narratives right after a choice, before the plan is looked at. */
  ghost function Chosen(s: State, n: Id, now: int): State {
    s.(series := s.series.(currentStage := PlanStage, status := Planning, discoveryStatus := DiscoveryComplete),
       narratives := Choose(s.narratives, n, now))
  }

  lemma ChosenIsReselected(s: State, n: Id, now: int)
    requires Inv(s) && n < |s.narratives|
    ensures PlanSafety.Reselected(s, Chosen(s, n, now)) && FindSelected(Chosen(s, n, now).narratives, false) == Some(n)
    ensures Locked(s) && FindSelected(s.narratives, true) == Some(n) ==>
              Sound(s, Chosen(s, n, now)) && NumberingKept(s, Chosen(s, n, now))
  {
    ChoosingKeeps(s.narratives, n, now);
    QueriesAgree(s.narratives);
    if Locked(s) && FindSelected(s.narratives, true) == Some(n) {
      NarrativeWriteIsSound(s, Chosen(s, n, now));
    }
  }

  lemma SelectingIsChoosing(s: State, n: Id, library: Library, planner: Planner, now: int)
    requires SelectNarrative(s, n, library, planner, now).Ok?
    ensures n < |s.narratives| && (Locked(s) ==> FindSelected(s.narratives, true) == Some(n))
    ensures var previous := FindSelected(s.narratives, true);
            SelectNarrative(s, n, library, planner, now) ==
              EnsureGeneratedPlan(Chosen(s, n, now), library, planner, now, previous.Some? && previous != Some(n))
  {
  }

  lemma SelectNarrativeIsSound(s: State, n: Id, library: Library, planner: Planner, now: int)
    requires Inv(s) && SelectNarrative(s, n, library, planner, now).Ok?
    ensures var t := SelectNarrative(s, n, library, planner, now).value;
            Sound(s, t) && NumberingKept(s, t)
  {
    SelectingIsChoosing(s, n, library, planner, now);
    ChosenIsReselected(s, n, now);
    if !Locked(s) {
      var previous := FindSelected(s.narratives, true);
      var replace := previous.Some? && previous != Some(n);
      PlanSafety.EnsureGeneratedPlanIsSound(s, Chosen(s, n, now), library, planner, now, replace);
    }
  }

  /** Afterwards the chosen narrative is the selected one. */
  lemma SelectingSelects(s: State, n: Id, library: Library, planner: Planner, now: int)
    requires Inv(s) && SelectNarrative(s, n, library, planner, now).Ok?
    ensures FindSelected(SelectNarrative(s, n, library, planner, now).value.narratives, false) == Some(n)
  {
    SelectingIsChoosing(s, n, library, planner, now);
    ChoosingKeeps(s.narratives, n, now);
  }

  /** A discovery run is refused exactly while a narrative is selected; a lock keeps it selected. */
  lemma DiscoveryBlockedBySelection(s: State, documents: nat)
    requires Inv(s)
    ensures RunDiscovery(s, documents).Err? <==> exists i | 0 <= i < |s.narratives| :: s.narratives[i].isSelected
    ensures Locked(s) ==> RunDiscovery(s, documents) == Err(Conflict)
  {
    QueriesAgree(s.narratives);
  }

  /**
   After a lock only the selected narrative can be selected, and doing so sends the series' stage back to PLAN
   while the plan, the outlines and the briefs stay: the stage says nothing about how far a series is.
   */
  lemma ReselectingAfterLock(s: State, n: Id, library: Library, planner: Planner, now: int)
    requires Inv(s) && Locked(s) && n < |s.narratives|
    ensures SelectNarrative(s, n, library, planner, now).Ok? <==> s.narratives[n].isSelected
    ensures SelectNarrative(s, n, library, planner, now).Ok? ==>
              var t := SelectNarrative(s, n, library, planner, now).value;
              && t.series == s.series.(currentStage := PlanStage, status := Planning,
                                       discoveryStatus := DiscoveryComplete)
              && t == s.(series := t.series, narratives := t.narratives)
  {
    if s.narratives[n].isSelected {
      FindsTheSelected(s.narratives, n, true);
    }
  }
}
