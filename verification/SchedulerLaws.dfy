/** What the scheduler promises: exact refusals, an optimal pick, and independence of the registry's order. */
module SchedulerLaws {
  import opened Types
  import opened Sorting
  import opened Scheduler

  // ---- Members of the derived lists ----

  lemma {:induction false} MapMembers<A, B>(f: A -> B, xs: seq<A>)
    ensures forall x :: x in xs ==> f(x) in Map(f, xs)
    ensures forall y :: y in Map(f, xs) ==> exists x :: x in xs && f(x) == y
    ensures |Map(f, xs)| == |xs|
  {
    if xs != [] {
      MapMembers(f, xs[1..]);
      assert xs == [xs[0]] + xs[1..];
    }
  }

  lemma {:induction false} FilterMembers<A>(p: A -> bool, xs: seq<A>)
    ensures forall x :: x in Filter(p, xs) <==> x in xs && p(x)
  {
    if xs != [] {
      FilterMembers(p, xs[1..]);
      assert xs == [xs[0]] + xs[1..];
    }
  }

  lemma {:induction false} MapSplit<A, B>(f: A -> B, xs: seq<A>, ys: seq<A>)
    ensures Map(f, xs + ys) == Map(f, xs) + Map(f, ys)
  {
    if xs == [] {
      assert xs + ys == ys;
    } else {
      var all, rest := xs + ys, xs[1..];
      assert all[0] == xs[0] && all[1..] == rest + ys;
      MapSplit(f, rest, ys);
      assert Map(f, all) == [f(all[0])] + Map(f, all[1..]);
    }
  }

  /** Moving one element to the front permutes the image. */
  lemma MapExtract<A, B>(f: A -> B, ys: seq<A>, k: nat)
    requires k < |ys|
    ensures multiset(Map(f, ys)) == multiset{f(ys[k])} + multiset(Map(f, ys[..k] + ys[k + 1..]))
  {
    var front, back := ys[..k], ys[k + 1..];
    assert ys == front + ([ys[k]] + back);
    MapSplit(f, front, [ys[k]] + back);
    MapSplit(f, [ys[k]], back);
    MapSplit(f, front, back);
    assert Map(f, [ys[k]]) == [f(ys[k])];
  }

  lemma {:induction false} MapPermutes<A, B>(f: A -> B, xs: seq<A>, ys: seq<A>)
    requires multiset(xs) == multiset(ys)
    ensures multiset(Map(f, xs)) == multiset(Map(f, ys))
  {
    if xs == [] {
      assert |multiset(ys)| == 0;
    } else {
      Members(xs, ys);
      assert xs[0] in ys;
      var k :| 0 <= k < |ys| && ys[k] == xs[0];
      RemoveBoth(xs, ys, k);
      MapPermutes(f, xs[1..], ys[..k] + ys[k + 1..]);
      MapExtract(f, ys, k);
      MapExtract(f, xs, 0);
      assert xs[..0] + xs[1..] == xs[1..];
    }
  }

  lemma RemoveBoth<A>(xs: seq<A>, ys: seq<A>, k: nat)
    requires xs != [] && k < |ys| && ys[k] == xs[0] && multiset(xs) == multiset(ys)
    ensures multiset(xs[1..]) == multiset(ys[..k] + ys[k + 1..])
  {
    assert ys == ys[..k] + [ys[k]] + ys[k + 1..];
    assert xs == [xs[0]] + xs[1..];
    assert multiset(ys[..k] + ys[k + 1..]) == multiset(ys) - multiset{ys[k]};
    assert multiset(xs[1..]) == multiset(xs) - multiset{xs[0]};
  }

  lemma AnalysesMembers(q: Request, registry: seq<AgentEntry>, rank: AgentId -> int)
    ensures forall e :: e in registry ==> Analyze(q, e) in Analyses(q, registry, rank)
    ensures forall a :: a in Analyses(q, registry, rank) ==> a.entry in registry && a == Analyze(q, a.entry)
  {
    var f := (e: AgentEntry) => Analyze(q, e);
    MapMembers(f, registry);
    SortPermutes(Map(f, registry), ById(rank));
    Members(Sort(Map(f, registry), ById(rank)), Map(f, registry));
  }

  // ---- The four refusals and the pick, each by its exact condition ----

  /** Capability and role fit, and neither the exclude set nor the role pool rules the agent out. */
  predicate Allowed(q: Request, e: AgentEntry) {
    Capable(q, e) && q.role in e.profile.roles && e.profile.id !in q.ExcludeSet() && q.InPool(e.profile.id)
  }

  predicate IsEligible(q: Request, e: AgentEntry) {
    Allowed(q, e) && !e.health.Depleted?
  }

  predicate Fits(q: Request, e: AgentEntry) {
    Capable(q, e) && q.role in e.profile.roles
  }

  lemma EligibleExactly(q: Request, e: AgentEntry)
    ensures Analyze(q, e).excluded.None? <==> IsEligible(q, e)
    ensures MatchesBeforeQuota(Analyze(q, e)) <==> Allowed(q, e)
  {
  }

  /** Why an agent is not eligible: the first filter that it fails, in this order. */
  lemma ReasonExact(q: Request, e: AgentEntry)
    ensures var why := Analyze(q, e).excluded;
            var named := e.profile.id in q.excludes
                         || (q.role.Reviewer? && q.mostRecent == Some(e.profile.id) && e.profile.id != "");
            var capable := forall c :: c in q.order.required ==> c in e.profile.kinds;
            var fits := capable && q.role in e.profile.roles;
            var pool := if q.role.Implementer? then q.order.implementerPool else q.order.reviewerPool;
            && (why == Some(ExcludedAgent) <==> named)
            && (why == Some(CapabilityMismatch) <==> !named && !capable)
            && (why == Some(RoleMismatch) <==> !named && capable && q.role !in e.profile.roles)
            && (why == Some(OutsideRolePool) <==> !named && fits && pool != [] && e.profile.id !in pool)
            && (why == Some(QuotaExhausted) <==> !named && fits && (pool == [] || e.profile.id in pool) && e.health.Depleted?)
  {
  }

  lemma EligibleMembers(q: Request, registry: seq<AgentEntry>, rank: AgentId -> int)
    ensures forall e :: e in registry && IsEligible(q, e) ==> Analyze(q, e) in Eligible(Analyses(q, registry, rank))
    ensures forall a :: a in Eligible(Analyses(q, registry, rank)) ==>
              a.entry in registry && a == Analyze(q, a.entry) && IsEligible(q, a.entry)
  {
    AnalysesMembers(q, registry, rank);
    FilterMembers((a: Analysis) => a.excluded.None?, Analyses(q, registry, rank));
    forall e | e in registry ensures Analyze(q, e).excluded.None? <==> IsEligible(q, e) {
      EligibleExactly(q, e);
    }
  }

  /** The lists that the refusal looks at are empty exactly when no registered agent qualifies. */
  lemma Refusals(q: Request, registry: seq<AgentEntry>, rank: AgentId -> int)
    ensures var all := Analyses(q, registry, rank); var before := Filter(MatchesBeforeQuota, all);
            && ((exists a :: a in all && a.capabilityMatch && a.roleMatch) <==> exists e :: e in registry && Fits(q, e))
            && (before == [] <==> forall e :: e in registry ==> !Allowed(q, e))
            && (Filter((a: Analysis) => !a.quotaExhausted, before) == [] <==> forall e :: e in registry ==> !IsEligible(q, e))
  {
    var all := Analyses(q, registry, rank);
    AnalysesMembers(q, registry, rank);
    var before := Filter(MatchesBeforeQuota, all);
    var rest := Filter((a: Analysis) => !a.quotaExhausted, before);
    FilterMembers(MatchesBeforeQuota, all);
    FilterMembers((a: Analysis) => !a.quotaExhausted, before);
    NonEmpty(before);
    NonEmpty(rest);
    forall e | e in registry
      ensures (Analyze(q, e).capabilityMatch && Analyze(q, e).roleMatch) <==> Fits(q, e)
      ensures Analyze(q, e) in before <==> Allowed(q, e)
      ensures Analyze(q, e) in rest <==> IsEligible(q, e)
    {
      EligibleExactly(q, e);
    }
    hide Analyze, Fits, Allowed, IsEligible, Filter, Analyses;
    assert forall a :: a in before ==> a in all;
    assert forall a :: a in rest ==> a in all;
  }

  lemma RefusalExact(q: Request, registry: seq<AgentEntry>, rank: AgentId -> int)
    ensures var r := RefusalFor(q.status, Analyses(q, registry, rank));
            && (r == Some(TaskBudgetExhausted) <==> q.status.Exhausted?)
            && (r == Some(NoAgentMatchesCapability) <==>
                  !q.status.Exhausted? && forall e :: e in registry ==> !Fits(q, e))
            && (r == Some(AllCandidatesExcluded) <==>
                  && !q.status.Exhausted?
                  && (exists e :: e in registry && Fits(q, e))
                  && forall e :: e in registry ==> !Allowed(q, e))
            && (r == Some(AllCandidatesQuotaExhausted) <==>
                  && !q.status.Exhausted?
                  && (exists e :: e in registry && Allowed(q, e))
                  && forall e :: e in registry ==> !IsEligible(q, e))
            && (r.None? <==> !q.status.Exhausted? && exists e :: e in registry && IsEligible(q, e))
  {
    hide Analyses, Analyze, Filter;
    Refusals(q, registry, rank);
  }

  lemma NonEmpty<A>(xs: seq<A>)
    ensures xs == [] <==> forall x :: x !in xs
  {
    if xs != [] {
      assert xs[0] in xs;
    }
  }

  // ---- The pick ----

  lemma RankingFacts(q: Request, registry: seq<AgentEntry>, rank: AgentId -> int)
    ensures var el := Eligible(Analyses(q, registry, rank)); var r := Ranking(el, rank);
            && |r| == |el|
            && (forall s :: s in r ==> IsEligible(q, s.entry) && s.entry in registry
                                       && s == Score(Analyze(q, s.entry), MaxCost(el), |el|))
            && (forall e :: e in registry && IsEligible(q, e) ==> Score(Analyze(q, e), MaxCost(el), |el|) in r)
            && SortedBy(r, ByScore(rank))
  {
    var el := Eligible(Analyses(q, registry, rank));
    var f := (a: Analysis) => Score(a, MaxCost(el), |el|);
    EligibleMembers(q, registry, rank);
    MapMembers(f, el);
    SortPermutes(Map(f, el), ByScore(rank));
    Members(Sort(Map(f, el), ByScore(rank)), Map(f, el));
    SortSorts(Map(f, el), ByScore(rank));
    assert forall e :: e in registry && IsEligible(q, e) ==> f(Analyze(q, e)) in Map(f, el);
  }

  /** `scored[0]` exists whenever the code reaches it: a decision is a pick or a refusal, never neither. */
  lemma PickOrRefusal(q: Request, registry: seq<AgentEntry>, rank: AgentId -> int)
    ensures var d := Decide(q, registry, rank);
            && (d.picked.Some? <==> d.refusal.None?)
            && (d.picked.Some? <==> !q.status.Exhausted? && exists e :: e in registry && IsEligible(q, e))
            && d.refusal == RefusalFor(q.status, Analyses(q, registry, rank))
            && d.role == q.role
  {
    RefusalExact(q, registry, rank);
    RankingFacts(q, registry, rank);
    if RefusalFor(q.status, Analyses(q, registry, rank)).None? {
      var e :| e in registry && IsEligible(q, e);
      var el := Eligible(Analyses(q, registry, rank));
      assert Score(Analyze(q, e), MaxCost(el), |el|) in Ranking(el, rank);
    }
  }

  /** Score of a registered agent within the pool of agents eligible for this request. */
  function PoolScore(q: Request, registry: seq<AgentEntry>, rank: AgentId -> int, e: AgentEntry): real {
    var el := Eligible(Analyses(q, registry, rank));
    Score(Analyze(q, e), MaxCost(el), |el|).score
  }

  ghost predicate DistinctIds(registry: seq<AgentEntry>) {
    forall i, j :: 0 <= i < j < |registry| ==> registry[i].profile.id != registry[j].profile.id
  }

  /** The collation order separates the registered ids. */
  ghost predicate Collates(rank: AgentId -> int, registry: seq<AgentEntry>) {
    forall e, e' :: e in registry && e' in registry && rank(e.profile.id) == rank(e'.profile.id) ==>
      e.profile.id == e'.profile.id
  }

  ghost predicate Beats(q: Request, registry: seq<AgentEntry>, rank: AgentId -> int, e: AgentEntry, e': AgentEntry) {
    || PoolScore(q, registry, rank, e') < PoolScore(q, registry, rank, e)
    || (PoolScore(q, registry, rank, e') == PoolScore(q, registry, rank, e) && rank(e.profile.id) <= rank(e'.profile.id))
  }

  /** The pick is an eligible agent that no eligible agent outscores, ties going to the smallest id; it is unique. */
  lemma PickOptimal(q: Request, registry: seq<AgentEntry>, rank: AgentId -> int) returns (best: AgentEntry)
    requires Decide(q, registry, rank).picked.Some?
    ensures best in registry && IsEligible(q, best) && Decide(q, registry, rank).picked == Some(best.profile.id)
    ensures forall e :: e in registry && IsEligible(q, e) ==> Beats(q, registry, rank, best, e)
    ensures Collates(rank, registry) ==>
              forall e :: e in registry && IsEligible(q, e) && Beats(q, registry, rank, e, best) ==> e.profile.id == best.profile.id
  {
    PickOrRefusal(q, registry, rank);
    RankingFacts(q, registry, rank);
    var el := Eligible(Analyses(q, registry, rank));
    var r := Ranking(el, rank);
    best := r[0].entry;
    assert r[0] in r;
    forall e | e in registry && IsEligible(q, e)
      ensures Beats(q, registry, rank, best, e)
      ensures Collates(rank, registry) && Beats(q, registry, rank, e, best) ==> e.profile.id == best.profile.id
    {
      var s := Score(Analyze(q, e), MaxCost(el), |el|);
      assert s in r;
      var k :| 0 <= k < |r| && r[k] == s;
      assert k == 0 || ByScore(rank)(r[0], r[k]);
    }
  }

  /** `maxCost` is the largest estimated cost among the eligible agents, or zero. */
  lemma {:induction false} MaxCostIsMax(el: seq<Analysis>)
    ensures forall a :: a in el ==> a.entry.profile.EstimatedCost() <= MaxCost(el)
    ensures MaxCost(el) >= 0.0
    ensures MaxCost(el) == 0.0 || exists a :: a in el && a.entry.profile.EstimatedCost() == MaxCost(el)
  {
    if el != [] {
      var n := |el| - 1;
      MaxCostIsMax(el[..n]);
      assert el == el[..n] + [el[n]];
      assert el[n] in el;
    }
  }

  // ---- The listed scores ----

  /** A row of the decision for `e`: why it was excluded, and its score in the pool with its parts, or zero if it was not ranked. */
  ghost predicate Lists(q: Request, registry: seq<AgentEntry>, rank: AgentId -> int, e: AgentEntry, c: CandidateScore) {
    && c.agent == e.profile.id && (c.excluded.None? <==> IsEligible(q, e)) && c.excluded == Analyze(q, e).excluded
    && (var el := Eligible(Analyses(q, registry, rank));
        if Decide(q, registry, rank).picked.Some? && IsEligible(q, e) then
          c.score == PoolScore(q, registry, rank, e) && c.breakdown == BreakdownOf(Analyze(q, e), MaxCost(el), |el|)
        else
          && c.score == 0.0
          && c.breakdown == Breakdown(if Capable(q, e) then 1.0 else 0.0, 0.0, HealthScore(e.health), Reliability(e), LatencyScore(e)))
  }

  lemma {:induction false} FindScoredFacts(scored: seq<Scored>, id: AgentId)
    ensures var s := FindScored(scored, id);
            if s.Some? then s.value in scored && s.value.entry.profile.id == id
            else forall x :: x in scored ==> x.entry.profile.id != id
  {
    if scored != [] {
      FindScoredFacts(scored[1..], id);
    }
  }

  /** The candidates of a decision, when its analyses and its ranking are known. */
  function Ranked(q: Request, registry: seq<AgentEntry>, rank: AgentId -> int): seq<Scored> {
    if Decide(q, registry, rank).picked.Some? then Ranking(Eligible(Analyses(q, registry, rank)), rank) else []
  }

  lemma RowLists(q: Request, registry: seq<AgentEntry>, rank: AgentId -> int, e: AgentEntry)
    requires DistinctIds(registry) && e in registry
    ensures Lists(q, registry, rank, e, CandidateRow(Analyze(q, e), Ranked(q, registry, rank)))
  {
    hide Decide, Analyze, Score;
    var scored := Ranked(q, registry, rank);
    FindScoredFacts(scored, e.profile.id);
    RankingFacts(q, registry, rank);
    EligibleExactly(q, e);
    var s := FindScored(scored, e.profile.id);
    AnalyzedEntry(q, e);
    if s.Some? {
      AnalyzedEntry(q, s.value.entry);
      assert s.value.entry in registry;
      var el := Eligible(Analyses(q, registry, rank));
      ScoredEntry(Analyze(q, e), MaxCost(el), |el|);
      SameId(registry, s.value.entry, e);
    } else if Decide(q, registry, rank).picked.Some? && IsEligible(q, e) {
      var el := Eligible(Analyses(q, registry, rank));
      assert Score(Analyze(q, e), MaxCost(el), |el|) in scored;
      ScoredEntry(Analyze(q, e), MaxCost(el), |el|);
      assert false;
    }
  }

  lemma AnalyzedEntry(q: Request, e: AgentEntry)
    ensures Analyze(q, e).entry == e && (Analyze(q, e).capabilityMatch <==> Capable(q, e))
  {
  }

  lemma ScoredEntry(a: Analysis, maxCost: real, n: nat)
    ensures Score(a, maxCost, n).entry == a.entry && Score(a, maxCost, n).breakdown == BreakdownOf(a, maxCost, n)
  {
  }

  lemma SameId(registry: seq<AgentEntry>, e: AgentEntry, e': AgentEntry)
    requires DistinctIds(registry) && e in registry && e' in registry && e.profile.id == e'.profile.id
    ensures e == e'
  {
    var i :| 0 <= i < |registry| && registry[i] == e;
    var j :| 0 <= j < |registry| && registry[j] == e';
    assert i == j;
  }

  /** Picked or refused, a decision lists every registered agent once, by rising id. */
  lemma ScoresListed(q: Request, registry: seq<AgentEntry>, rank: AgentId -> int)
    requires DistinctIds(registry)
    ensures var scores := Decide(q, registry, rank).scores;
            && |scores| == |registry|
            && (forall i, j :: 0 <= i < j < |scores| ==> rank(scores[i].agent) <= rank(scores[j].agent))
            && (forall e :: e in registry ==> exists c :: c in scores && Lists(q, registry, rank, e, c))
            && (forall c :: c in scores ==> exists e :: e in registry && Lists(q, registry, rank, e, c))
  {
    hide Analyze, CandidateRow, Lists, Decide, Ranked, CandidateRows, Analyses, DistinctIds;
    var analyses, scored := Analyses(q, registry, rank), Ranked(q, registry, rank);
    DecisionRows(q, registry, rank);
    RowFacts(analyses, scored, rank);
    AnalysesMembers(q, registry, rank);
    AnalysesLength(q, registry, rank);
    var scores := CandidateRows(analyses, scored, rank);
    forall e | e in registry ensures exists c :: c in scores && Lists(q, registry, rank, e, c) {
      RowLists(q, registry, rank, e);
    }
    forall c | c in scores ensures exists e :: e in registry && Lists(q, registry, rank, e, c) {
      var a :| a in analyses && CandidateRow(a, scored) == c;
      RowLists(q, registry, rank, a.entry);
    }
  }

  lemma DecisionRows(q: Request, registry: seq<AgentEntry>, rank: AgentId -> int)
    ensures Decide(q, registry, rank).scores == CandidateRows(Analyses(q, registry, rank), Ranked(q, registry, rank), rank)
  {
    hide RefusalFor, CandidateRows, Analyses, Ranking;
    PickOrRefusal(q, registry, rank);
  }

  lemma RowFacts(analyses: seq<Analysis>, scored: seq<Scored>, rank: AgentId -> int)
    ensures var rows := CandidateRows(analyses, scored, rank);
            && |rows| == |analyses|
            && (forall i, j :: 0 <= i < j < |rows| ==> rank(rows[i].agent) <= rank(rows[j].agent))
            && (forall a :: a in analyses ==> CandidateRow(a, scored) in rows)
            && (forall c :: c in rows ==> exists a :: a in analyses && CandidateRow(a, scored) == c)
  {
    hide CandidateRow, Sort;
    var f := (a: Analysis) => CandidateRow(a, scored);
    var mapped := Map(f, analyses);
    var rows := Sort(mapped, ByAgent(rank));
    MapMembers(f, analyses);
    SortPermutes(mapped, ByAgent(rank));
    Members(rows, mapped);
    SortSorts(mapped, ByAgent(rank));
    forall i, j | 0 <= i < j < |rows| ensures rank(rows[i].agent) <= rank(rows[j].agent) {
      assert ByAgent(rank)(rows[i], rows[j]);
    }
    assert forall a :: a in analyses ==> f(a) in rows;
  }

  lemma AnalysesLength(q: Request, registry: seq<AgentEntry>, rank: AgentId -> int)
    ensures |Analyses(q, registry, rank)| == |registry|
  {
    var f := (e: AgentEntry) => Analyze(q, e);
    MapMembers(f, registry);
    SortPermutes(Map(f, registry), ById(rank));
  }

  // ---- Order independence ----

  lemma TotalById(rank: AgentId -> int)
    ensures TotalPreorder(ById(rank))
  {
  }

  /** The pick, the refusal and the sorted candidate scores do not depend on the registry's order. */
  lemma OrderIndependent(q: Request, registry: seq<AgentEntry>, permuted: seq<AgentEntry>, rank: AgentId -> int)
    requires multiset(registry) == multiset(permuted)
    requires DistinctIds(registry) && Collates(rank, registry)
    ensures Decide(q, registry, rank) == Decide(q, permuted, rank)
  {
    var f := (e: AgentEntry) => Analyze(q, e);
    MapPermutes(f, registry, permuted);
    MapMembers(f, registry);
    TotalById(rank);
    forall a, b | a in multiset(Map(f, registry)) && b in multiset(Map(f, registry))
                  && ById(rank)(a, b) && ById(rank)(b, a)
      ensures a == b
    {
      assert a in Map(f, registry) && b in Map(f, registry);
      var e :| e in registry && f(e) == a;
      var e' :| e' in registry && f(e') == b;
      assert e.profile.id == e'.profile.id;
      var i :| 0 <= i < |registry| && registry[i] == e;
      var j :| 0 <= j < |registry| && registry[j] == e';
      assert i == j;
    }
    SortCanonical(Map(f, registry), Map(f, permuted), ById(rank));
  }

  // ---- The second filter ----

  // ---- The registry's own candidates ----

  lemma {:induction false} MapInsert<A, B>(f: A -> B, x: A, xs: seq<A>, le: (A, A) -> bool, le': (B, B) -> bool)
    requires forall a, b :: le(a, b) <==> le'(f(a), f(b))
    ensures Map(f, Insert(x, xs, le)) == Insert(f(x), Map(f, xs), le')
  {
    if xs != [] {
      MapInsert(f, x, xs[1..], le, le');
      MapSplit(f, [x], xs);
      MapSplit(f, [xs[0]], Insert(x, xs[1..], le));
      MapOne(f, x);
      MapOne(f, xs[0]);
    }
  }

  lemma MapOne<A, B>(f: A -> B, x: A)
    ensures Map(f, [x]) == [f(x)]
  {
  }

  lemma {:induction false} MapSort<A, B>(f: A -> B, xs: seq<A>, le: (A, A) -> bool, le': (B, B) -> bool)
    requires forall a, b :: le(a, b) <==> le'(f(a), f(b))
    ensures Map(f, Sort(xs, le)) == Sort(Map(f, xs), le')
  {
    if xs != [] {
      MapSort(f, xs[1..], le, le');
      MapInsert(f, xs[0], Sort(xs[1..], le), le, le');
    }
  }

  lemma {:induction false} MapBack<A, B>(f: A -> B, g: B -> A, xs: seq<A>)
    requires forall a :: g(f(a)) == a
    ensures Map(g, Map(f, xs)) == xs
  {
    if xs != [] {
      MapBack(f, g, xs[1..]);
      MapSplit(g, [f(xs[0])], Map(f, xs[1..]));
      MapOne(g, f(xs[0]));
      assert xs == [xs[0]] + xs[1..];
    }
  }

  lemma {:induction false} MapFilter<A, B>(f: A -> B, p: A -> bool, p': B -> bool, xs: seq<A>)
    requires forall a :: a in xs ==> p(a) == p'(f(a))
    ensures Map(f, Filter(p, xs)) == Filter(p', Map(f, xs))
  {
    if xs != [] {
      assert xs[0] in xs && forall a :: a in xs[1..] ==> a in xs;
      MapFilter(f, p, p', xs[1..]);
      MapSplit(f, if p(xs[0]) then [xs[0]] else [], Filter(p, xs[1..]));
      MapOne(f, xs[0]);
      assert Map(f, xs) == [f(xs[0])] + Map(f, xs[1..]);
    }
  }

  lemma FilterHead<A>(p: A -> bool, xs: seq<A>)
    requires xs != []
    ensures Filter(p, xs) == if p(xs[0]) then [xs[0]] + Filter(p, xs[1..]) else Filter(p, xs[1..])
  {
    assert [] + Filter(p, xs[1..]) == Filter(p, xs[1..]);
  }

  /** Inserting into a sorted list and filtering commute: what is kept keeps its place. */
  lemma {:induction false} FilterInsert<A(!new)>(p: A -> bool, x: A, xs: seq<A>, le: (A, A) -> bool)
    requires TotalPreorder(le) && SortedBy(xs, le)
    ensures Filter(p, Insert(x, xs, le)) == if p(x) then Insert(x, Filter(p, xs), le) else Filter(p, xs)
  {
    FilterHead(p, Insert(x, xs, le));
    if xs != [] {
      FilterHead(p, xs);
      if le(x, xs[0]) {
        assert ([x] + xs)[1..] == xs;
        KeptAbove(p, x, xs, le);
      } else {
        assert SortedBy(xs[1..], le);
        FilterInsert(p, x, xs[1..], le);
        assert ([xs[0]] + Insert(x, xs[1..], le))[1..] == Insert(x, xs[1..], le);
        var kept := Filter(p, xs[1..]);
        assert ([xs[0]] + kept)[1..] == kept;
      }
    }
  }

  lemma KeptAbove<A(!new)>(p: A -> bool, x: A, xs: seq<A>, le: (A, A) -> bool)
    requires TotalPreorder(le) && SortedBy(xs, le) && xs != [] && le(x, xs[0])
    ensures Insert(x, Filter(p, xs), le) == [x] + Filter(p, xs)
  {
    var kept := Filter(p, xs);
    FilterMembers(p, xs);
    if kept != [] {
      assert kept[0] in kept;
      var k :| 0 <= k < |xs| && xs[k] == kept[0];
      assert k == 0 || le(xs[0], xs[k]);
    }
  }

  lemma {:induction false} FilterSort<A(!new)>(p: A -> bool, xs: seq<A>, le: (A, A) -> bool)
    requires TotalPreorder(le)
    ensures Filter(p, Sort(xs, le)) == Sort(Filter(p, xs), le)
  {
    if xs != [] {
      FilterSort(p, xs[1..], le);
      SortSorts(xs[1..], le);
      FilterInsert(p, xs[0], Sort(xs[1..], le), le);
      FilterHead(p, xs);
      var kept := Filter(p, xs[1..]);
      assert ([xs[0]] + kept)[1..] == kept;
    }
  }

  lemma {:induction false} FilterTwice<A>(p: A -> bool, p': A -> bool, both: A -> bool, xs: seq<A>)
    requires forall a :: both(a) == (p(a) && p'(a))
    ensures Filter(p', Filter(p, xs)) == Filter(both, xs)
  {
    if xs != [] {
      FilterTwice(p, p', both, xs[1..]);
      FilterHead(p, xs);
      FilterHead(both, xs);
      if p(xs[0]) {
        FilterHead(p', Filter(p, xs));
        assert ([xs[0]] + Filter(p, xs[1..]))[1..] == Filter(p, xs[1..]);
      }
    }
  }

  lemma {:induction false} FilterAll<A>(p: A -> bool, xs: seq<A>)
    requires forall a :: p(a)
    ensures Filter(p, xs) == xs
  {
    if xs != [] {
      FilterAll(p, xs[1..]);
      assert xs == [xs[0]] + xs[1..];
    }
  }

  function EntryOf(): Analysis -> AgentEntry {
    (a: Analysis) => a.entry
  }

  function EntriesById(rank: AgentId -> int): (AgentEntry, AgentEntry) -> bool {
    (a: AgentEntry, b: AgentEntry) => rank(a.profile.id) <= rank(b.profile.id)
  }

  /** The eligible list holds the entries that pass every filter, sorted by id, ties in registry order. */
  lemma EligibleEntries(q: Request, registry: seq<AgentEntry>, rank: AgentId -> int)
    ensures Map(EntryOf(), Eligible(Analyses(q, registry, rank)))
            == Sort(Filter((e: AgentEntry) => IsEligible(q, e), registry), EntriesById(rank))
  {
    hide Analyze, IsEligible, Sort, Filter, Map;
    var analyze := (e: AgentEntry) => Analyze(q, e);
    var ok := (e: AgentEntry) => IsEligible(q, e);
    var picked := (a: Analysis) => a.excluded.None?;
    var analyses := Analyses(q, registry, rank);
    AnalysesMembers(q, registry, rank);
    forall a | a in analyses ensures picked(a) == ok(a.entry) {
      EligibleExactly(q, a.entry);
    }
    MapFilter(EntryOf(), picked, ok, analyses);
    MapSort(EntryOf(), Map(analyze, registry), ById(rank), EntriesById(rank));
    forall e ensures EntryOf()(analyze(e)) == e {
      AnalyzedEntry(q, e);
    }
    MapBack(analyze, EntryOf(), registry);
    FilterSort(ok, registry, EntriesById(rank));
  }

  /** What `candidatesFor` asks of an entry. */
  function Candidate(q: Request): AgentEntry -> bool {
    (e: AgentEntry) =>
      && !e.health.Depleted?
      && e.profile.id !in q.ExcludeSet()
      && q.role in e.profile.roles
      && (forall c :: c in q.order.required ==> c in e.profile.kinds)
  }

  lemma CandidatesSorted(q: Request, registry: seq<AgentEntry>, rank: AgentId -> int)
    ensures CandidatesFor(q.order.required, q.role, q.ExcludeSet(), registry, rank)
            == Sort(Filter(Candidate(q), registry), EntriesById(rank))
  {
    var required, role, excludes := q.order.required, q.role, q.ExcludeSet();
    var p := (e: AgentEntry) =>
      && !e.health.Depleted?
      && e.profile.id !in excludes
      && role in e.profile.roles
      && (forall c :: c in required ==> c in e.profile.kinds);
    SameFilter(p, Candidate(q), registry);
    SameSort(Filter(p, registry), (a: AgentEntry, b: AgentEntry) => rank(a.profile.id) <= rank(b.profile.id), EntriesById(rank));
  }

  lemma {:induction false} SameFilter<A>(p: A -> bool, p': A -> bool, xs: seq<A>)
    requires forall a :: p(a) == p'(a)
    ensures Filter(p, xs) == Filter(p', xs)
  {
    if xs != [] {
      SameFilter(p, p', xs[1..]);
    }
  }

  lemma {:induction false} SameInsert<A>(x: A, xs: seq<A>, le: (A, A) -> bool, le': (A, A) -> bool)
    requires forall a, b :: le(a, b) == le'(a, b)
    ensures Insert(x, xs, le) == Insert(x, xs, le')
  {
    if xs != [] {
      SameInsert(x, xs[1..], le, le');
    }
  }

  lemma {:induction false} SameSort<A>(xs: seq<A>, le: (A, A) -> bool, le': (A, A) -> bool)
    requires forall a, b :: le(a, b) == le'(a, b)
    ensures Sort(xs, le) == Sort(xs, le')
  {
    if xs != [] {
      SameSort(xs[1..], le, le');
      SameInsert(xs[0], Sort(xs[1..], le), le, le');
    }
  }

  /**
   The scheduler's eligible list is, entry by entry and in the same order, the registry's own list of candidates
   for the same excludes, less those outside the role pool; without a pool the two lists are equal.
   */
  lemma EligibleAreCandidates(q: Request, registry: seq<AgentEntry>, rank: AgentId -> int)
    ensures var candidates := CandidatesFor(q.order.required, q.role, q.ExcludeSet(), registry, rank);
            var eligible := Map(EntryOf(), Eligible(Analyses(q, registry, rank)));
            && eligible == Filter((e: AgentEntry) => q.InPool(e.profile.id), candidates)
            && (q.Pool() == [] ==> eligible == candidates)
  {
    hide Eligible, Analyses, Filter, Map, Sort, CandidatesFor;
    var pool := (e: AgentEntry) => q.InPool(e.profile.id);
    var ok := (e: AgentEntry) => IsEligible(q, e);
    var candidates := CandidatesFor(q.order.required, q.role, q.ExcludeSet(), registry, rank);
    EligibleEntries(q, registry, rank);
    CandidatesSorted(q, registry, rank);
    TotalEntries(rank);
    FilterSort(pool, Filter(Candidate(q), registry), EntriesById(rank));
    FilterTwice(Candidate(q), pool, ok, registry);
    if q.Pool() == [] {
      FilterAll(pool, candidates);
    }
  }

  lemma TotalEntries(rank: AgentId -> int)
    ensures TotalPreorder(EntriesById(rank))
  {
  }

  // ---- Score bounds ----

  /** Metrics of any recorded history keep the success rate a rate. */
  predicate Bounded(e: AgentEntry) {
    e.profile.Valid() && 0.0 <= e.metrics.successRate <= 1.0
  }

  lemma ClampBounds(v: real)
    ensures 0.0 <= Clamp(v, 0.0, 1.0) <= 1.0
  {
  }

  lemma ScoreBounds(q: Request, registry: seq<AgentEntry>, rank: AgentId -> int, e: AgentEntry)
    requires e in registry && Bounded(e) && IsEligible(q, e)
    ensures 0.5 <= PoolScore(q, registry, rank, e) <= 1.0
  {
    var el := Eligible(Analyses(q, registry, rank));
    var b := BreakdownOf(Analyze(q, e), MaxCost(el), |el|);
    if |el| > 1 && MaxCost(el) > 0.0 {
      ClampBounds(1.0 - e.profile.EstimatedCost() / MaxCost(el));
    }
    ClampBounds(1.0 - e.metrics.avgLatency / 600000.0);
    assert 0.0 <= b.cost <= 1.0 && 0.0 <= b.latency <= 1.0 && 0.0 <= b.reliability <= 1.0;
    assert b.capability == 1.0 && 0.5 <= b.quota <= 1.0;
  }

  /** What the protocol relies on: a picked agent is registered, not depleted, not excluded, and not the reviewed one. */
  lemma PickSafe(q: Request, registry: seq<AgentEntry>, rank: AgentId -> int) returns (e: AgentEntry)
    requires Decide(q, registry, rank).picked.Some?
    ensures e in registry && Decide(q, registry, rank).picked == Some(e.profile.id)
    ensures !q.status.Exhausted? && !e.health.Depleted? && e.profile.id !in q.ExcludeSet()
    ensures Fits(q, e) && q.InPool(e.profile.id)
    ensures e.profile.id !in q.excludes && q.role in e.profile.roles
    ensures forall c :: c in q.order.required ==> c in e.profile.kinds
    ensures q.role.Reviewer? && q.mostRecent.Some? && q.mostRecent.value != "" ==> e.profile.id != q.mostRecent.value
    ensures q.role.Implementer? && q.order.implementerPool != [] ==> e.profile.id in q.order.implementerPool
    ensures q.role.Reviewer? && q.order.reviewerPool != [] ==> e.profile.id in q.order.reviewerPool
  {
    e := PickOptimal(q, registry, rank);
    PickOrRefusal(q, registry, rank);
  }
}
