/** The discovery service over the session's tables, operation by operation as in discovery/service.py. */
module DiscoveryService {
  import opened Wrappers
  import opened WorkflowRows
  import opened PlanSteps
  import opened NarrativeSteps
  import opened WorkflowSession
  import EpisodePlanService

  class DiscoveryService {
    const session: Session
    const planService: EpisodePlanService.EpisodePlanService

    constructor (session: Session)
      ensures this.session == session && planService.session == session && fresh(planService)
    {
      this.session := session;
      this.planService := new EpisodePlanService.EpisodePlanService(session);
    }

    /** Discovery over the documents a research run found; none at all is a failed run. */
    method RunDiscovery(documents: nat) returns (r: Result<(), HttpError>)
      modifies session
      ensures Committed(old(session.Db()), session.Db(), r, NarrativeSteps.RunDiscovery(old(session.Db()), documents))
    {
      var _ :- Require(FindSelected(session.narratives, true).None?, Conflict);
      session.series := session.series.(discoveryStatus := DiscoveryRunning);
      if documents == 0 {
        session.series := session.series.(discoveryStatus := DiscoveryFailed, status := Researching);
        return Ok(());
      }
      ClearUnselectedDiscovery();
      CreateLedgerFromDocuments(documents);
      CreateNarrativesFromLedger();
      session.series := session.series.(discoveryStatus := DiscoveryComplete, currentStage := DiscoveryStage,
                                        status := Researching);
      r := Ok(());
    }

    method ClearUnselectedDiscovery()
      modifies session`ledger, session`narratives
      ensures session.ledger == 0 && session.narratives == RetireCandidates(old(session.narratives))
    {
      session.ledger := 0;
      session.narratives := RetireCandidates(session.narratives);
    }

    method CreateLedgerFromDocuments(documents: nat)
      modifies session`ledger
      ensures session.ledger == if old(session.ledger) > 0 then old(session.ledger)
                                else if documents < LEDGER_LIMIT then documents else LEDGER_LIMIT
    {
      if session.ledger > 0 {
        return;
      }
      session.ledger := if documents < LEDGER_LIMIT then documents else LEDGER_LIMIT;
    }

    method CreateNarrativesFromLedger()
      modifies session`narratives
      ensures session.narratives == if session.ledger > 0 then WithCandidates(old(session.narratives))
                                    else old(session.narratives)
    {
      if session.ledger == 0 {
        return;
      }
      ghost var before := session.narratives;
      var generation := GreatestGeneration(session.narratives) + 1;
      for offset := 0 to CANDIDATES
        invariant session.narratives == before + seq(offset, _ => Narrative(generation, Candidate, false, None))
      {
        session.narratives := session.narratives + [Narrative(generation, Candidate, false, None)];
      }
    }

    method RegenerateNarratives() returns (r: Result<(), HttpError>)
      modifies session
      ensures Committed(old(session.Db()), session.Db(), r, NarrativeSteps.RegenerateNarratives(old(session.Db())))
    {
      var _ :- Require(session.ledger > 0, Conflict);
      session.narratives := RetireCandidates(session.narratives);
      CreateNarrativesFromLedger();
      r := Ok(());
    }

    /** Selecting writes first and may still fail on the plan; then nothing is committed. */
    method SelectNarrative(n: Id, library: Library, planner: Planner, now: int) returns (r: Result<(), HttpError>)
      requires planService.session == session
      modifies session
      ensures Committed(old(session.Db()), session.Db(), r,
                        NarrativeSteps.SelectNarrative(old(session.Db()), n, library, planner, now))
    {
      var _ :- Require(n < |session.narratives|, NotFound);
      var previous := FindSelected(session.narratives, true);
      var _ :- Require(session.series.planLockedAt.None? || previous == Some(n), Conflict);
      var saved := session.Snapshot();
      UnselectAll();
      var chosen := session.narratives[n].(isSelected := true, status := Selected, selectedAt := Some(now));
      session.narratives := session.narratives[n := chosen];
      assert session.narratives == Choose(old(session.narratives), n, now);
      session.series := session.series.(currentStage := PlanStage, status := Planning,
                                        discoveryStatus := DiscoveryComplete);
      r := planService.EnsureGeneratedPlan(library, planner, now, previous.Some? && previous != Some(n));
      if r.Err? {
        session.Rollback(saved);
      }
    }

    /** The bulk update of every narrative that is not retired. */
    method UnselectAll()
      modifies session`narratives
      ensures |session.narratives| == |old(session.narratives)|
      ensures forall i | 0 <= i < |session.narratives| :: session.narratives[i] ==
                if old(session.narratives)[i].status == Retired then old(session.narratives)[i]
                else old(session.narratives)[i].(isSelected := false, status := Candidate, selectedAt := None)
    {
      var table := session.narratives;
      session.narratives := seq(|table|, i requires 0 <= i < |table| =>
        if table[i].status == Retired then table[i]
        else table[i].(isSelected := false, status := Candidate, selectedAt := None));
    }
  }
}
