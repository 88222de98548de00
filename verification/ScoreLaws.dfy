/** What moves a score, and by how much, in terms of what the registry lists of an agent. */
module ScoreLaws {
  import opened Types
  import opened Scheduler
  import opened SchedulerLaws

  /** The agent's estimated cost per run, nothing if its profile gives none. */
  predicate Costs(e: AgentEntry, units: real) {
    match e.profile.cost
    case Some(c) => units == c
    case None => units == 0.0
  }

  /** The largest estimated cost of an eligible agent. */
  ghost predicate TopCost(q: Request, registry: seq<AgentEntry>, top: real) {
    && (forall e, c :: e in registry && IsEligible(q, e) && Costs(e, c) ==> c <= top)
    && exists e :: e in registry && IsEligible(q, e) && Costs(e, top)
  }

  ghost predicate Rivals(q: Request, registry: seq<AgentEntry>, e: AgentEntry, e': AgentEntry) {
    && e in registry && e' in registry && e != e' && IsEligible(q, e) && IsEligible(q, e')
    && DistinctIds(registry) && forall x :: x in registry ==> Bounded(x)
  }

  // ---- The parts of a score ----

  lemma TopIsMax(q: Request, registry: seq<AgentEntry>, rank: AgentId -> int, top: real)
    requires TopCost(q, registry, top) && forall x :: x in registry ==> Bounded(x)
    ensures MaxCost(Eligible(Analyses(q, registry, rank))) == top
  {
    hide Analyses, Eligible, MaxCost, IsEligible, Analyze;
    var el := Eligible(Analyses(q, registry, rank));
    EligibleMembers(q, registry, rank);
    MaxCostIsMax(el);
    var e :| e in registry && IsEligible(q, e) && Costs(e, top);
    AnalyzedEntry(q, e);
    assert Analyze(q, e) in el && Analyze(q, e).entry == e;
    if MaxCost(el) != 0.0 {
      var a :| a in el && a.entry.profile.EstimatedCost() == MaxCost(el);
      assert Costs(a.entry, MaxCost(el));
    }
  }

  lemma TwoEligible(q: Request, registry: seq<AgentEntry>, rank: AgentId -> int, e: AgentEntry, e': AgentEntry)
    requires Rivals(q, registry, e, e')
    ensures |Eligible(Analyses(q, registry, rank))| > 1
  {
    hide Analyses, Eligible, IsEligible, Analyze;
    var el := Eligible(Analyses(q, registry, rank));
    EligibleMembers(q, registry, rank);
    AnalyzedEntry(q, e);
    AnalyzedEntry(q, e');
    assert Analyze(q, e) in el && Analyze(q, e') in el;
  }

  lemma Within(v: real)
    requires 0.0 <= v <= 1.0
    ensures Clamp(v, 0.0, 1.0) == v
  {
  }

  lemma Fraction(part: real, whole: real)
    requires 0.0 <= part <= whole && whole > 0.0
    ensures 0.0 <= part / whole <= 1.0
  {
    var x := part / whole;
    assert x * whole == part;
    assert x < 0.0 ==> x * whole < 0.0;
    assert x > 1.0 ==> (x - 1.0) * whole > 0.0;
  }

  /** With a rival, the cost part is what the agent saves against the dearest eligible one. */
  lemma CostPart(q: Request, registry: seq<AgentEntry>, rank: AgentId -> int, e: AgentEntry, e': AgentEntry, c: real, top: real)
    requires Rivals(q, registry, e, e') && TopCost(q, registry, top) && Costs(e, c)
    ensures top >= 0.0
    ensures var el := Eligible(Analyses(q, registry, rank));
            CostEfficiency(e, MaxCost(el), |el|) == if top > 0.0 then 1.0 - c / top else 1.0
  {
    hide Analyses, Eligible, MaxCost, IsEligible;
    TopIsMax(q, registry, rank, top);
    TwoEligible(q, registry, rank, e, e');
    MaxCostIsMax(Eligible(Analyses(q, registry, rank)));
    if top > 0.0 {
      Fraction(c, top);
      Within(1.0 - c / top);
    }
  }

  /** The success figure that counts: the recorded rate from five runs on, before that the profile's. */
  function SuccessFigure(e: AgentEntry): real {
    if e.metrics.runsObserved >= 5 then e.metrics.successRate else e.profile.initialSuccess
  }

  /** The latency that counts: ten minutes at most, and half of that while none is known. */
  function LatencyFigure(e: AgentEntry): real {
    if e.metrics.avgLatency <= 0.0 then 300000.0
    else if e.metrics.avgLatency > 600000.0 then 600000.0
    else e.metrics.avgLatency
  }

  lemma LatencyPart(e: AgentEntry)
    ensures LatencyScore(e) == 1.0 - LatencyFigure(e) / 600000.0
  {
  }

  lemma ScoreParts(q: Request, registry: seq<AgentEntry>, rank: AgentId -> int, e: AgentEntry)
    requires IsEligible(q, e)
    ensures var el := Eligible(Analyses(q, registry, rank));
            PoolScore(q, registry, rank, e)
            == 0.40 + 0.20 * CostEfficiency(e, MaxCost(el), |el|) + 0.20 * HealthScore(e.health)
               + 0.10 * Reliability(e) + 0.10 * LatencyScore(e)
  {
    hide Analyses, Eligible, MaxCost, CostEfficiency, Reliability, LatencyScore;
  }

  // ---- Differences ----

  /** Whoever is outscored by another eligible agent is not picked. */
  lemma OutscoredNotPicked(q: Request, registry: seq<AgentEntry>, rank: AgentId -> int, e: AgentEntry, e': AgentEntry)
    requires Rivals(q, registry, e, e') && PoolScore(q, registry, rank, e') < PoolScore(q, registry, rank, e)
    ensures Decide(q, registry, rank).picked != Some(e'.profile.id)
  {
    hide Decide, PoolScore, IsEligible;
    if Decide(q, registry, rank).picked == Some(e'.profile.id) {
      var best := PickOptimal(q, registry, rank);
      SameId(registry, best, e');
      assert false;
    }
  }

  /** Of two agents alike but for their health, the healthy one scores a tenth more, so the other is never picked. */
  lemma HealthWeighs(q: Request, registry: seq<AgentEntry>, rank: AgentId -> int, e: AgentEntry, e': AgentEntry, top: real)
    requires Rivals(q, registry, e, e') && e.health.Healthy? && e'.health.Low? && TopCost(q, registry, top)
    requires e'.metrics == e.metrics && e'.profile.cost == e.profile.cost && e'.profile.initialSuccess == e.profile.initialSuccess
    ensures PoolScore(q, registry, rank, e) == PoolScore(q, registry, rank, e') + 0.1
    ensures Decide(q, registry, rank).picked != Some(e'.profile.id)
  {
    hide Analyses, Eligible, MaxCost, CostEfficiency, PoolScore, Decide, IsEligible;
    var c := e.profile.EstimatedCost();
    CostPart(q, registry, rank, e, e', c, top);
    CostPart(q, registry, rank, e', e, c, top);
    ScoreParts(q, registry, rank, e);
    ScoreParts(q, registry, rank, e');
    OutscoredNotPicked(q, registry, rank, e, e');
  }

  /** Cost counts a fifth, as a share of the dearest eligible agent's; nothing where all are free. */
  lemma CostWeighs(q: Request, registry: seq<AgentEntry>, rank: AgentId -> int, e: AgentEntry, e': AgentEntry, c: real, c': real, top: real)
    requires Rivals(q, registry, e, e') && TopCost(q, registry, top) && Costs(e, c) && Costs(e', c')
    requires e'.metrics == e.metrics && e'.health == e.health && e'.profile.initialSuccess == e.profile.initialSuccess
    ensures PoolScore(q, registry, rank, e) - PoolScore(q, registry, rank, e')
            == if top > 0.0 then 0.20 * (c' / top - c / top) else 0.0
    ensures c < c' ==> Decide(q, registry, rank).picked != Some(e'.profile.id)
  {
    hide Analyses, Eligible, MaxCost, CostEfficiency, PoolScore, Decide, IsEligible;
    CostPart(q, registry, rank, e, e', c, top);
    CostPart(q, registry, rank, e', e, c', top);
    ScoreParts(q, registry, rank, e);
    ScoreParts(q, registry, rank, e');
    if c < c' {
      assert c >= 0.0 && c' <= top by {
        assert Bounded(e);
      }
      Smaller(c, c', top);
      OutscoredNotPicked(q, registry, rank, e, e');
    }
  }

  lemma Smaller(a: real, b: real, top: real)
    requires a < b && top > 0.0
    ensures a / top < b / top
  {
    var x, y := a / top, b / top;
    assert (y - x) * top == b - a;
    assert y <= x ==> (y - x) * top <= 0.0;
  }

  /** The success figure counts a tenth: the recorded rate from five runs on, before that the profile's. */
  lemma ReliabilityWeighs(q: Request, registry: seq<AgentEntry>, rank: AgentId -> int, e: AgentEntry, e': AgentEntry, top: real)
    requires Rivals(q, registry, e, e') && TopCost(q, registry, top)
    requires e'.health == e.health && e'.profile.cost == e.profile.cost && e'.metrics.avgLatency == e.metrics.avgLatency
    ensures PoolScore(q, registry, rank, e) - PoolScore(q, registry, rank, e') == 0.10 * (SuccessFigure(e) - SuccessFigure(e'))
    ensures SuccessFigure(e) > SuccessFigure(e') ==> Decide(q, registry, rank).picked != Some(e'.profile.id)
  {
    hide Analyses, Eligible, MaxCost, CostEfficiency, PoolScore, Decide, IsEligible;
    var c := e.profile.EstimatedCost();
    CostPart(q, registry, rank, e, e', c, top);
    CostPart(q, registry, rank, e', e, c, top);
    ScoreParts(q, registry, rank, e);
    ScoreParts(q, registry, rank, e');
    if SuccessFigure(e) > SuccessFigure(e') {
      OutscoredNotPicked(q, registry, rank, e, e');
    }
  }

  /** Latency counts a tenth, as a share of ten minutes, and no known latency as five. */
  lemma LatencyWeighs(q: Request, registry: seq<AgentEntry>, rank: AgentId -> int, e: AgentEntry, e': AgentEntry, top: real)
    requires Rivals(q, registry, e, e') && TopCost(q, registry, top)
    requires e'.health == e.health && e'.profile.cost == e.profile.cost && e'.profile.initialSuccess == e.profile.initialSuccess
    requires e'.metrics.successRate == e.metrics.successRate && e'.metrics.runsObserved == e.metrics.runsObserved
    ensures PoolScore(q, registry, rank, e) - PoolScore(q, registry, rank, e')
            == 0.10 * (LatencyFigure(e') - LatencyFigure(e)) / 600000.0
    ensures LatencyFigure(e) < LatencyFigure(e') ==> Decide(q, registry, rank).picked != Some(e'.profile.id)
  {
    hide Analyses, Eligible, MaxCost, CostEfficiency, PoolScore, Decide, IsEligible, LatencyScore, LatencyFigure;
    var c := e.profile.EstimatedCost();
    CostPart(q, registry, rank, e, e', c, top);
    CostPart(q, registry, rank, e', e, c, top);
    ScoreParts(q, registry, rank, e);
    ScoreParts(q, registry, rank, e');
    LatencyPart(e);
    LatencyPart(e');
    if LatencyFigure(e) < LatencyFigure(e') {
      OutscoredNotPicked(q, registry, rank, e, e');
    }
  }

  /** A lone eligible agent is not charged for its cost, and the capability that made it eligible counts two fifths. */
  lemma LoneScore(q: Request, registry: seq<AgentEntry>, rank: AgentId -> int, e: AgentEntry)
    requires e in registry && IsEligible(q, e)
    requires |Eligible(Analyses(q, registry, rank))| == 1
    ensures PoolScore(q, registry, rank, e)
            == 0.60 + (if e.health.Healthy? then 0.20 else 0.10) + 0.10 * SuccessFigure(e) + 0.10 * (1.0 - LatencyFigure(e) / 600000.0)
  {
    hide Analyses, Eligible, MaxCost, PoolScore;
    ScoreParts(q, registry, rank, e);
    LatencyPart(e);
  }
}
