/** The scheduler as it runs: loops that push, a running maximum, and sorts in place. */
module DefaultScheduler {
  import opened Types
  import opened Sorting
  import opened Scheduler
  import opened SchedulerLaws
  import opened AgentRegistry

  /** The analysis loop over the registry's list, then the sort by agent id. */
  method AnalyzeCandidates(registry: SqliteAgentRegistry, q: Request, rank: AgentId -> int) returns (results: seq<Analysis>)
    requires registry.Valid()
    modifies registry`entries
    ensures registry.Valid() && SameBut(old(registry.entries), registry.entries) && registry.Listed() == old(registry.Listed())
    ensures results == Analyses(q, registry.Listed(), rank)
  {
    var all := registry.List();
    results := AnalyzeAll(all, q);
    results := Sort(results, ById(rank));
  }

  method AnalyzeAll(all: seq<AgentEntry>, q: Request) returns (results: seq<Analysis>)
    ensures results == Map((e: AgentEntry) => Analyze(q, e), all)
  {
    ghost var f := (e: AgentEntry) => Analyze(q, e);
    var excludeSet := q.ExcludeSet();
    var pool := q.Pool();
    results := [];
    for i := 0 to |all|
      invariant results == Map(f, all[..i])
    {
      var entry := all[i];
      var capabilityMatch := SubsetOf(q.order.required, entry.profile.kinds);
      var roleMatch := q.role in entry.profile.roles;
      var quotaExhausted := entry.health.Depleted?;
      var inRolePool := pool == [] || entry.profile.id in pool;
      var excluded := None;
      if entry.profile.id in excludeSet {
        excluded := Some(ExcludedAgent);
      } else if !capabilityMatch {
        excluded := Some(CapabilityMismatch);
      } else if !roleMatch {
        excluded := Some(RoleMismatch);
      } else if !inRolePool {
        excluded := Some(OutsideRolePool);
      } else if quotaExhausted {
        excluded := Some(QuotaExhausted);
      }
      assert all[..i + 1] == all[..i] + [entry];
      MapSplit(f, all[..i], [entry]);
      assert Map(f, [entry]) == [f(entry)];
      results := results + [Analysis(entry, capabilityMatch, roleMatch, excluded, quotaExhausted)];
    }
    assert all[..|all|] == all;
  }

  /** The running maximum of the eligible agents' estimated costs. */
  method MaxCostOf(eligible: seq<Analysis>) returns (maxCost: real)
    ensures maxCost == MaxCost(eligible)
  {
    maxCost := 0.0;
    for i := 0 to |eligible|
      invariant maxCost == MaxCost(eligible[..i])
    {
      assert eligible[..i + 1][..i] == eligible[..i];
      var c := eligible[i].entry.profile.EstimatedCost();
      if c > maxCost {
        maxCost := c;
      }
    }
    assert eligible[..|eligible|] == eligible;
  }

  method BuildDecision(q: Request, reason: Refusal, analyses: seq<Analysis>, rank: AgentId -> int) returns (d: Decision)
    ensures d == Decision(q.role, None, Some(reason), CandidateRows(analyses, [], rank))
  {
    d := Decision(q.role, None, Some(reason), CandidateRows(analyses, [], rank));
  }

  /** Where the refusal checks let the request through, some agent is ranked, so `scored[0]` exists. */
  lemma SomeoneRanked(q: Request, registry: seq<AgentEntry>, rank: AgentId -> int)
    requires RefusalFor(q.status, Analyses(q, registry, rank)).None?
    ensures Ranking(Eligible(Analyses(q, registry, rank)), rank) != []
  {
    RefusalExact(q, registry, rank);
    RankingFacts(q, registry, rank);
    var e :| e in registry && IsEligible(q, e);
    var el := Eligible(Analyses(q, registry, rank));
    assert Score(Analyze(q, e), MaxCost(el), |el|) in Ranking(el, rank);
  }

  /** `decide`: the refusal checks in order, then scoring, sorting and picking the first. */
  method Decide(registry: SqliteAgentRegistry, q: Request, rank: AgentId -> int) returns (d: Decision)
    requires registry.Valid()
    modifies registry`entries
    ensures registry.Valid() && SameBut(old(registry.entries), registry.entries) && registry.Listed() == old(registry.Listed())
    ensures d == Scheduler.Decide(q, registry.Listed(), rank)
  {
    hide Analyses, Ranking, CandidateRows;
    var analyses := AnalyzeCandidates(registry, q, rank);
    if q.status.Exhausted? {
      d := BuildDecision(q, TaskBudgetExhausted, analyses, rank);
      return;
    }
    if !exists a :: a in analyses && a.capabilityMatch {
      d := BuildDecision(q, NoAgentMatchesCapability, analyses, rank);
      return;
    }
    if !exists a :: a in analyses && a.capabilityMatch && a.roleMatch {
      d := BuildDecision(q, NoAgentMatchesCapability, analyses, rank);
      return;
    }
    var beforeQuota := Filter(MatchesBeforeQuota, analyses);
    if beforeQuota == [] {
      d := BuildDecision(q, AllCandidatesExcluded, analyses, rank);
      return;
    }
    if Filter((a: Analysis) => !a.quotaExhausted, beforeQuota) == [] {
      d := BuildDecision(q, AllCandidatesQuotaExhausted, analyses, rank);
      return;
    }
    SomeoneRanked(q, registry.Listed(), rank);
    d := PickBest(q, analyses, rank);
  }

  /** Scoring and picking. */
  method PickBest(q: Request, analyses: seq<Analysis>, rank: AgentId -> int) returns (d: Decision)
    requires Ranking(Eligible(analyses), rank) != []
    ensures var scored := Ranking(Eligible(analyses), rank);
            d == Decision(q.role, Some(scored[0].entry.profile.id), None, CandidateRows(analyses, scored, rank))
  {
    var eligible := Eligible(analyses);
    var maxCost := MaxCostOf(eligible);
    var scored := Map((a: Analysis) => Score(a, maxCost, |eligible|), eligible);
    scored := Sort(scored, ByScore(rank));
    var best := scored[0];
    d := Decision(q.role, Some(best.entry.profile.id), None, CandidateRows(analyses, scored, rank));
  }
}
