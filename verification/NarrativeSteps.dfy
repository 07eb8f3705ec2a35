/** Discovery and narrative selection (discovery/service.py). */
module NarrativeSteps {
  import opened Wrappers
  import opened WorkflowRows
  import opened PlanSteps

  const CANDIDATES := 3
  const LEDGER_LIMIT := 5

  function RetireCandidates(narratives: seq<Narrative>): seq<Narrative> {
    seq(|narratives|, i requires 0 <= i < |narratives| =>
      if narratives[i].status == Candidate && !narratives[i].isSelected then narratives[i].(status := Retired)
      else narratives[i])
  }

  function GreatestGeneration(narratives: seq<Narrative>): (r: int)
    ensures r >= 0
  {
    if narratives == [] then 0
    else
      var init := GreatestGeneration(narratives[..|narratives| - 1]);
      var last := narratives[|narratives| - 1].generation;
      if last > init then last else init
  }

  function WithCandidates(narratives: seq<Narrative>): seq<Narrative> {
    var candidate := Narrative(GreatestGeneration(narratives) + 1, Candidate, false, None);
    narratives + seq(CANDIDATES, _ => candidate)
  }

  function RunDiscovery(s: State, documents: nat): Result<State, HttpError> {
    var _ :- Require(FindSelected(s.narratives, true).None?, Conflict);
    if documents == 0 then
      Ok(s.(series := s.series.(discoveryStatus := DiscoveryFailed, status := Researching)))
    else
      Ok(s.(series := s.series.(discoveryStatus := DiscoveryComplete, currentStage := DiscoveryStage,
                                status := Researching),
            ledger := if documents < LEDGER_LIMIT then documents else LEDGER_LIMIT,
            narratives := WithCandidates(RetireCandidates(s.narratives))))
  }

  function RegenerateNarratives(s: State): Result<State, HttpError> {
    var _ :- Require(s.ledger > 0, Conflict);
    Ok(s.(narratives := WithCandidates(RetireCandidates(s.narratives))))
  }

  function Choose(narratives: seq<Narrative>, n: Id, now: int): seq<Narrative> {
    seq(|narratives|, i requires 0 <= i < |narratives| =>
      if i == n then narratives[i].(isSelected := true, status := Selected, selectedAt := Some(now))
      else if narratives[i].status != Retired then
        narratives[i].(isSelected := false, status := Candidate, selectedAt := None)
      else narratives[i])
  }

  function SelectNarrative(s: State, n: Id, library: Library, planner: Planner, now: int): Result<State, HttpError> {
    var _ :- Require(n < |s.narratives|, NotFound);
    var previous := FindSelected(s.narratives, true);
    var _ :- Require(!Locked(s) || previous == Some(n), Conflict);
    var series := s.series.(currentStage := PlanStage, status := Planning, discoveryStatus := DiscoveryComplete);
    EnsureGeneratedPlan(s.(series := series, narratives := Choose(s.narratives, n, now)), library, planner, now,
                        previous.Some? && previous != Some(n))
  }
}
