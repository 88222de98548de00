/**
 The allocator: it filters the registry, refuses for one of four reasons, or scores the eligible
 agents and picks the best. `rank` is the position of an agent id in the collation order.
 */
module Scheduler {
  import opened Types
  import opened Sorting

  datatype Exclusion =
    | ExcludedAgent
    | CapabilityMismatch
    | RoleMismatch
    | OutsideRolePool
    | QuotaExhausted

  datatype Refusal =
    | NoAgentMatchesCapability
    | AllCandidatesExcluded
    | AllCandidatesQuotaExhausted
    | TaskBudgetExhausted

  datatype Request = Request(
    order: WorkOrder,
    role: Role,
    excludes: seq<AgentId>,
    mostRecent: Option<AgentId>,
    status: BudgetStatus)
  {
    /** The exclude list, plus the latest implementer when a reviewer is sought. */
    function ExcludeSet(): set<AgentId> {
      (set a | a in excludes)
      + (if role.Reviewer? && mostRecent.Some? && mostRecent.value != "" then {mostRecent.value} else {})
    }

    function Pool(): seq<AgentId> {
      if role.Implementer? then order.implementerPool else order.reviewerPool
    }

    predicate InPool(a: AgentId) {
      Pool() == [] || a in Pool()
    }
  }

  datatype Analysis = Analysis(
    entry: AgentEntry,
    capabilityMatch: bool,
    roleMatch: bool,
    excluded: Option<Exclusion>,
    quotaExhausted: bool)

  datatype Breakdown = Breakdown(capability: real, cost: real, quota: real, reliability: real, latency: real)

  datatype Scored = Scored(entry: AgentEntry, score: real, breakdown: Breakdown)

  datatype CandidateScore = CandidateScore(
    agent: AgentId,
    score: real,
    breakdown: Breakdown,
    excluded: Option<Exclusion>)

  datatype Decision = Decision(
    role: Role,
    picked: Option<AgentId>,
    refusal: Option<Refusal>,
    scores: seq<CandidateScore>)

  function Map<A, B>(f: A -> B, xs: seq<A>): seq<B> {
    if xs == [] then [] else [f(xs[0])] + Map(f, xs[1..])
  }

  function Filter<A>(p: A -> bool, xs: seq<A>): seq<A> {
    if xs == [] then []
    else (if p(xs[0]) then [xs[0]] else []) + Filter(p, xs[1..])
  }

  // ---- One candidate ----

  predicate Capable(q: Request, e: AgentEntry) {
    forall c :: c in q.order.required ==> c in e.profile.kinds
  }

  function Analyze(q: Request, e: AgentEntry): Analysis {
    var cap := Capable(q, e);
    var roleOk := q.role in e.profile.roles;
    var exhausted := e.health.Depleted?;
    Analysis(e, cap, roleOk,
             if e.profile.id in q.ExcludeSet() then Some(ExcludedAgent)
             else if !cap then Some(CapabilityMismatch)
             else if !roleOk then Some(RoleMismatch)
             else if !q.InPool(e.profile.id) then Some(OutsideRolePool)
             else if exhausted then Some(QuotaExhausted)
             else None,
             exhausted)
  }

  // ---- Scores ----

  function Clamp(v: real, lo: real, hi: real): real {
    var m := if hi <= v then hi else v;
    if lo >= m then lo else m
  }

  function CostEfficiency(e: AgentEntry, maxCost: real, candidates: nat): real {
    if candidates <= 1 then 1.0
    else if maxCost <= 0.0 then 1.0
    else Clamp(1.0 - e.profile.EstimatedCost() / maxCost, 0.0, 1.0)
  }

  function LatencyScore(e: AgentEntry): real {
    if e.metrics.avgLatency <= 0.0 then 0.5
    else Clamp(1.0 - e.metrics.avgLatency / 600000.0, 0.0, 1.0)
  }

  function Reliability(e: AgentEntry): real {
    if e.metrics.runsObserved >= 5 then e.metrics.successRate else e.profile.initialSuccess
  }

  function HealthScore(h: Health): real {
    match h
    case Healthy => 1.0
    case Low => 0.5
    case Depleted => 0.0
  }

  function BreakdownOf(a: Analysis, maxCost: real, candidates: nat): Breakdown {
    Breakdown(if a.capabilityMatch then 1.0 else 0.0,
              CostEfficiency(a.entry, maxCost, candidates),
              HealthScore(a.entry.health),
              Reliability(a.entry),
              LatencyScore(a.entry))
  }

  function Total(b: Breakdown): real {
    b.capability * 0.40 + b.cost * 0.20 + b.quota * 0.20 + b.reliability * 0.10 + b.latency * 0.10
  }

  function Score(a: Analysis, maxCost: real, candidates: nat): Scored {
    var b := BreakdownOf(a, maxCost, candidates);
    Scored(a.entry, Total(b), b)
  }

  function MaxCost(eligible: seq<Analysis>): real {
    if eligible == [] then 0.0
    else
      var rest := MaxCost(eligible[..|eligible| - 1]);
      var c := eligible[|eligible| - 1].entry.profile.EstimatedCost();
      if c > rest then c else rest
  }

  // ---- The orders used by the sorts ----

  function ById(rank: AgentId -> int): (Analysis, Analysis) -> bool {
    (a: Analysis, b: Analysis) => rank(a.entry.profile.id) <= rank(b.entry.profile.id)
  }

  function ByScore(rank: AgentId -> int): (Scored, Scored) -> bool {
    (a: Scored, b: Scored) =>
      b.score < a.score || (b.score == a.score && rank(a.entry.profile.id) <= rank(b.entry.profile.id))
  }

  function ByAgent(rank: AgentId -> int): (CandidateScore, CandidateScore) -> bool {
    (a: CandidateScore, b: CandidateScore) => rank(a.agent) <= rank(b.agent)
  }

  // ---- The decision ----

  function Analyses(q: Request, registry: seq<AgentEntry>, rank: AgentId -> int): seq<Analysis> {
    Sort(Map((e: AgentEntry) => Analyze(q, e), registry), ById(rank))
  }

  function Eligible(analyses: seq<Analysis>): seq<Analysis> {
    Filter((a: Analysis) => a.excluded.None?, analyses)
  }

  predicate MatchesBeforeQuota(a: Analysis) {
    a.capabilityMatch && a.roleMatch && (a.excluded.None? || a.excluded == Some(QuotaExhausted))
  }

  function RefusalFor(status: BudgetStatus, analyses: seq<Analysis>): Option<Refusal> {
    if status.Exhausted? then Some(TaskBudgetExhausted)
    else if !exists a :: a in analyses && a.capabilityMatch then Some(NoAgentMatchesCapability)
    else if !exists a :: a in analyses && a.capabilityMatch && a.roleMatch then Some(NoAgentMatchesCapability)
    else if Filter(MatchesBeforeQuota, analyses) == [] then Some(AllCandidatesExcluded)
    else if Filter((a: Analysis) => !a.quotaExhausted, Filter(MatchesBeforeQuota, analyses)) == []
    then Some(AllCandidatesQuotaExhausted)
    else None
  }

  function FindScored(scored: seq<Scored>, id: AgentId): Option<Scored> {
    if scored == [] then None
    else if scored[0].entry.profile.id == id then Some(scored[0])
    else FindScored(scored[1..], id)
  }

  function CandidateRow(a: Analysis, scored: seq<Scored>): CandidateScore {
    var s := FindScored(scored, a.entry.profile.id);
    if s.Some? then CandidateScore(a.entry.profile.id, s.value.score, s.value.breakdown, a.excluded)
    else CandidateScore(a.entry.profile.id, 0.0, BreakdownOf(a, 0.0, 0).(cost := 0.0), a.excluded)
  }

  function CandidateRows(analyses: seq<Analysis>, scored: seq<Scored>, rank: AgentId -> int): seq<CandidateScore> {
    Sort(Map((a: Analysis) => CandidateRow(a, scored), analyses), ByAgent(rank))
  }

  function Ranking(eligible: seq<Analysis>, rank: AgentId -> int): seq<Scored> {
    var maxCost := MaxCost(eligible);
    Sort(Map((a: Analysis) => Score(a, maxCost, |eligible|), eligible), ByScore(rank))
  }

  /** The decision as a function of the analyses alone. */
  function DecideOn(q: Request, analyses: seq<Analysis>, rank: AgentId -> int): Decision {
    var refusal := RefusalFor(q.status, analyses);
    if refusal.Some? then
      Decision(q.role, None, refusal, CandidateRows(analyses, [], rank))
    else
      var ranking := Ranking(Eligible(analyses), rank);
      if ranking == [] then Decision(q.role, None, None, [])  // not reached: see SchedulerLaws.PickOrRefusal
      else Decision(q.role, Some(ranking[0].entry.profile.id), None, CandidateRows(analyses, ranking, rank))
  }

  function Decide(q: Request, registry: seq<AgentEntry>, rank: AgentId -> int): Decision {
    DecideOn(q, Analyses(q, registry, rank), rank)
  }

  /** The registry's own filter, used outside the scheduler. */
  function CandidatesFor(required: seq<string>, role: Role, excludes: set<AgentId>,
                         registry: seq<AgentEntry>, rank: AgentId -> int): seq<AgentEntry> {
    Sort(Filter((e: AgentEntry) =>
                  && !e.health.Depleted?
                  && e.profile.id !in excludes
                  && role in e.profile.roles
                  && (forall c :: c in required ==> c in e.profile.kinds), registry),
         (a: AgentEntry, b: AgentEntry) => rank(a.profile.id) <= rank(b.profile.id))
  }
}
