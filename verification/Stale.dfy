/**
 With two claiming workers an agent can implement the same task twice: a worker that cached the order before
 the other worker's attempt does not see the exclusion that attempt added.
 */
module Stale {
  import opened Types
  import opened Js
  import opened Budgets
  import opened Scheduler
  import opened SchedulerLaws
  import opened Events
  import opened Runs
  import opened Handoffs
  import opened Protocol
  import opened Shape
  import opened Traces
  import opened Picks
  import opened Walks
  import BudgetManager

  const TASK: TaskId := "t"
  const AGENT := Profile("x", [], [Implementer], None, 0.5, 1.0)
  const FAILING := ImplementerEnv(false, false, Exited(Some(1), false, false, false, false), None, false, VerifierPassed)

  function Order(excludes: seq<AgentId>): WorkOrder {
    WorkOrder(10, 10.0, 10.0, false, [], [], [], [], excludes)
  }

  function OneAgent(): Config {
    Config([AGENT], (a: AgentId) => 0, true)
  }

  /** A budget that has seen at most one launch and no time or cost. */
  predicate Early(b: Budget) {
    b.runs <= 1 && b.wallMs == 0.0 && b.cost == 0.0 && b.caps == Order([]).BudgetCaps() && b.status.Ok?
  }

  /** The worker has claimed the task and will read an order without excludes. */
  predicate Poised(v: View) {
    && v.worker.phase.Begin? && v.worker.phase.task == TASK
    && v.worker.phase.snap.role.Implementer? && v.worker.phase.snap.handoff == v.rec.row.handoff
    && (if TASK in v.worker.cache then v.worker.cache[TASK] else v.rec.row.order) == Order([])
    && (v.rec.budget.Some? ==> Early(v.rec.budget.value))
    && v.health == map[]
  }

  function JobAt(v: View): Job
    requires v.worker.phase.Begin?
  {
    Job(TASK, v.worker.phase.snap, Order([]), None, v.rec.row.handoff)
  }

  /** What the walk up to the decision leaves alone. */
  predicate Same(v: View, v': View) {
    && v'.rec.row == v.rec.row && v'.rec.attempts == v.rec.attempts && v'.health == v.health && v'.used == v.used
    && v'.rec.budget.Some? && Early(v'.rec.budget.value)
    && (if v.rec.budget.Some? then v'.rec.budget == v.rec.budget else v'.rec.budget.value.runs == 0)
  }

  lemma ToDecision(v0: View) returns (cs: seq<Choice>, v: View)
    requires Poised(v0)
    ensures Walk(OneAgent(), TASK, v0, cs, v) && Same(v0, v)
    ensures v.worker.phase == Choosing(JobAt(v0), v.rec.budget.value)
  {
    hide Walk, SyncEmitted, ComputeStatus;
    cs, v := LoadWalk(OneAgent(), TASK, v0, v0.worker.phase.snap);
    cs, v := BudgetWalk(OneAgent(), TASK, v0, cs, v, JobAt(v0));
  }

  /** The only agent is eligible, so it is picked. */
  lemma PicksAgent(v: View, p: Phase)
    requires p.Choosing? && p.job.order == Order([]) && p.job.snap.role.Implementer? && p.job.context.None?
    requires Early(p.budget) && v.health == map[]
    ensures DecisionAt(OneAgent(), v, p, map[]).picked == Some("x")
  {
    hide Decide, PoolScore;
    var registry := Listing(OneAgent(), map[], v.health);
    var q := Request0(p.job, p.budget);
    var e := ListEntry(AGENT, map[], v.health);
    assert registry == [e] by {
      OneListing(v.health);
    }
    assert e in registry && IsEligible(q, e);
    PickOrRefusal(q, registry, OneAgent().rank);
    var best := PickSafe(q, registry, OneAgent().rank);
  }

  lemma OneListing(health: map<AgentId, Health>)
    ensures Listing(OneAgent(), map[], health) == [ListEntry(AGENT, map[], health)]
  {
    var f := (p: Profile) => ListEntry(p, map[], health);
    assert OneAgent().profiles == [AGENT] && [AGENT][1..] == [];
    assert Map(f, [AGENT]) == [f(AGENT)] + Map(f, []);
  }

  lemma ToLaunch(v0: View, cs0: seq<Choice>, v1: View, job: Job) returns (cs: seq<Choice>, v: View)
    requires Walk(OneAgent(), TASK, v0, cs0, v1) && v1.health == map[] && job.task == TASK
    requires v1.rec.budget.Some? && Early(v1.rec.budget.value) && v1.worker.phase == Choosing(job, v1.rec.budget.value)
    requires job.order == Order([]) && job.snap.role.Implementer? && job.context.None?
    ensures Walk(OneAgent(), TASK, v0, cs, v) && v.health == map[] && v.used == v1.used && v.rec.row == v1.rec.row
    ensures v.worker.phase == Launching(job, "x")
    ensures v.rec.attempts == v1.rec.attempts + [Attempt(Implementer, "x", NoRun, InFlight)]
    ensures v.rec.budget == Some(v1.rec.budget.value.(runs := v1.rec.budget.value.runs + 1))
  {
    hide Walk, DecisionAt, DispatchedEvent, BudgetManager.AlarmFor, BudgetManager.AlarmEvents, BudgetManager.AlarmSet, Early;
    PicksAgent(v1, v1.worker.phase);
    LaunchCounts(v1.rec.budget.value);
    cs, v := ChooseWalk(OneAgent(), TASK, v0, cs0, v1, map[]);
    cs, v := ChargeWalk(OneAgent(), TASK, v0, cs, v, job, "x");
  }

  lemma LaunchCounts(b: Budget)
    requires Early(b)
    ensures PreLaunched(b) == b.(runs := b.runs + 1)
  {
  }

  /** The outcome of the failing run, and the packet it is handed over with. */
  function Failure(r: RunId): Outcome {
    ImplementerFailed(r, AgentNonzeroExit, Some(Artifact(TASK, r, "diff.patch")), None)
  }

  lemma ToOutcome(v0: View, cs0: seq<Choice>, v1: View, r: RunId, job: Job) returns (cs: seq<Choice>, v: View)
    requires Walk(OneAgent(), TASK, v0, cs0, v1) && job.task == TASK
    requires v1.worker.phase == Launching(job, "x") && v1.rec.attempts != []
    requires job.order == Order([]) && job.snap.role.Implementer? && job.context.None?
    requires r !in v1.used && !Blank(r)
    ensures Walk(OneAgent(), TASK, v0, cs, v) && v.health == v1.health && v.used == v1.used + {r}
    ensures v.rec.row == v1.rec.row && v.rec.budget == v1.rec.budget
    ensures v.worker.phase == Finished(job, "x", Failure(r))
    ensures var n := |v1.rec.attempts| - 1;
            v.rec.attempts == v1.rec.attempts[..n]
              + [v1.rec.attempts[n].(run := RunRow(r, RunFailed), fate := Done(Failure(r), Some(ForImplementer(FAILING)), None))]
  {
    hide LocalStep, Walk, CreationEvents, StartEvents, Blank, Execute;
    hide OnBegin, OnReading, OnInserting, OnSyncing, OnConsulting, OnChoosing, OnCleared, OnCharging, OnChargeRead,
         OnCharged, OnFinished, OnBilling, OnBillRead, OnBillWrite, OnBilled, OnRecording, Settle, OnContexting,
         OnPackaging, OnExcluding, OnAddressing, OnReleasing, OnReporting, OnFailing;
    var cfg := OneAgent();
    cs, v := cs0, v1;
    Dispatch(cfg, v, Launch(r));
    cs, v := Advance(cfg, TASK, v0, cs, v, Launch(r));
    Dispatch(cfg, v, Create(true));
    cs, v := Advance(cfg, TASK, v0, cs, v, Create(true));
    var c := Happen(ForImplementer(FAILING));
    FailingRun(Context(TASK, r, "x"));
    Dispatch(cfg, v, c);
    cs, v := Advance(cfg, TASK, v0, cs, v, c);
  }

  lemma FailingRun(c: Context)
    requires c.task == TASK
    ensures var f := Execute(c, Order([]), ForImplementer(FAILING));
            f.result == Returned(Failure(c.run)) && f.status.RunFailed?
  {
  }

  /** A budget with at most two launches and nothing else charged. */
  predicate Light(b: Budget) {
    b.runs <= 2 && b == Budget(b.runs, 0.0, 0.0, Order([]).BudgetCaps(), Ok)
  }

  lemma LightCharge(b: Budget)
    requires Light(b)
    ensures PostRan(b, 0.0, CostOf(OneAgent().profiles, "x")) == b
  {
  }

  lemma ToBill(v0: View, cs0: seq<Choice>, v1: View, r: RunId, job: Job) returns (cs: seq<Choice>, v: View)
    requires Walk(OneAgent(), TASK, v0, cs0, v1) && job.task == TASK
    requires v1.worker.phase == Finished(job, "x", Failure(r)) && v1.rec.budget.Some?
    ensures Walk(OneAgent(), TASK, v0, cs, v) && v.health == v1.health && v.used == v1.used && v.rec.attempts == v1.rec.attempts
    ensures v.rec.budget == v1.rec.budget && v.worker.phase == Billing(job, "x", Failure(r))
  {
    hide LocalStep, Walk;
    hide OnBegin, OnReading, OnInserting, OnSyncing, OnConsulting, OnChoosing, OnCleared, OnCharging, OnChargeRead,
         OnCharged, OnLaunching, OnStarting, OnExecuting, OnBilling, OnBillRead, OnBillWrite, OnBilled, OnRecording, Settle,
         OnContexting, OnPackaging, OnExcluding, OnAddressing, OnReleasing, OnReporting, OnFailing;
    Dispatch(OneAgent(), v1, Go);
    cs, v := Advance(OneAgent(), TASK, v0, cs0, v1, Go);
  }

  /** A failed run that cost nothing leaves the budget as it is and is handed to another implementer. */
  lemma ToRelease(v0: View, cs0: seq<Choice>, v1: View, r: RunId, job: Job) returns (cs: seq<Choice>, v: View)
    requires Walk(OneAgent(), TASK, v0, cs0, v1) && job.task == TASK
    requires v1.rec.budget.Some? && Light(v1.rec.budget.value) && v1.worker.phase == Billing(job, "x", Failure(r))
    ensures Walk(OneAgent(), TASK, v0, cs, v) && v.health == v1.health && v.used == v1.used && v.rec.attempts == v1.rec.attempts
    ensures v.rec.budget == v1.rec.budget && v.worker.phase.Idle?
    ensures v.rec.row.status.Queued? && v.rec.row.owner.None? && v.rec.row.role.Implementer?
  {
    hide Walk, BudgetManager.AlarmFor, BudgetManager.AlarmEvents, BudgetManager.AlarmSet, PostRan, CostOf, Merged, PacketExcludes, HandoffEvent, HealthOf;
    var cfg, b := OneAgent(), v1.rec.budget.value;
    LightCharge(b);
    cs, v := BillWalk(cfg, TASK, v0, cs0, v1, job, "x", Failure(r), 0.0);
    cs, v := RecordWalk(cfg, TASK, v0, cs, v, job, "x", Failure(r), b);
    cs, v := SettleWalk(cfg, TASK, v0, cs, v);
    var p := v.worker.phase;
    cs, v := HandWalk(cfg, TASK, v0, cs, v, job, "x", r, p.packet, p.plan);
    cs, v := ReleaseWalk(cfg, TASK, v0, cs, v, p.plan);
  }

  /** The whole handle: the agent fails, and the task is queued again. */
  lemma FailingHandle(v0: View, r: RunId) returns (cs: seq<Choice>, v: View)
    requires Poised(v0) && r !in v0.used && !Blank(r)
    ensures Walk(OneAgent(), TASK, v0, cs, v) && v.worker.phase.Idle? && v.health == map[] && v.used == v0.used + {r}
    ensures v.rec.row.status.Queued? && v.rec.row.owner.None? && v.rec.row.role.Implementer?
    ensures v.rec.attempts == v0.rec.attempts
              + [Attempt(Implementer, "x", RunRow(r, RunFailed), Done(Failure(r), Some(ForImplementer(FAILING)), None))]
    ensures v.rec.budget.Some? && v.rec.budget.value == Budget(v.rec.budget.value.runs, 0.0, 0.0, Order([]).BudgetCaps(), Ok)
    ensures v.rec.budget.value.runs == 1 + if v0.rec.budget.Some? then v0.rec.budget.value.runs else 0
  {
    hide Walk, Failure;
    var job := JobAt(v0);
    cs, v := ToDecision(v0);
    cs, v := ToLaunch(v0, cs, v, job);
    cs, v := ToOutcome(v0, cs, v, r, job);
    cs, v := ToBill(v0, cs, v, r, job);
    cs, v := ToRelease(v0, cs, v, r, job);
  }

  // ---- The run of the whole system ----

  const IDLE := Worker(Idle, map[], {}, false)

  function Start(): Sys {
    Sys(map[], map["a" := IDLE, "b" := IDLE], map[], [], {})
  }

  /** Worker "a" enqueues, "b" computes a lease and so caches the order, and "a" claims. */
  function FirstClaim(): seq<Action> {
    [Enqueue("a", TASK, Order([]), 0), Scan("b", TASK, 0), Select("a", TASK, 0), Update("a", 0, 1)]
  }

  function SecondClaim(): seq<Action> {
    [Select("b", TASK, 0), Update("b", 0, 1)]
  }

  lemma AfterFirstClaim() returns (s: Sys)
    ensures s == Run(OneAgent(), Start(), FirstClaim())
    ensures s.tasks.Keys == {TASK} && s.workers.Keys == {"a", "b"}
    ensures Poised(ViewOf(s, "a", TASK)) && s.tasks[TASK].attempts == [] && s.tasks[TASK].budget.None? && s.used == {}
    ensures s.workers["b"] == IDLE.(cache := map[TASK := Order([])])
  {
    hide LocalStep, Run;
    Visible(TASK);
    var cfg := OneAgent();
    var acts := FirstClaim();
    var s1 := Next(cfg, Start(), acts[0]);
    assert s1.tasks == map[TASK := FreshRec(Order([]), 0, [Enqueued(TASK)])];
    var s2 := Next(cfg, s1, acts[1]);
    var s3 := Next(cfg, s2, acts[2]);
    s := Next(cfg, s3, acts[3]);
    assert s == Run(cfg, Start(), acts) by {
      RunFour(cfg, Start(), acts[0], acts[1], acts[2], acts[3]);
    }
  }

  lemma RunTwo(cfg: Config, s: Sys, a: Action, b: Action)
    ensures Run(cfg, s, [a, b]) == Next(cfg, Next(cfg, s, a), b)
  {
    hide Next;
    var one := [a];
    assert [a, b][..1] == one && one[..0] == [];
    assert Run(cfg, s, one) == Next(cfg, s, a);
  }

  lemma RunFour(cfg: Config, s: Sys, a: Action, b: Action, c: Action, d: Action)
    ensures Run(cfg, s, [a, b, c, d]) == Next(cfg, Next(cfg, Next(cfg, Next(cfg, s, a), b), c), d)
  {
    hide Next;
    RunTwo(cfg, s, a, b);
    assert [a, b, c, d][..3] == [a, b, c] && [a, b, c][..2] == [a, b];
  }

  lemma AfterSecondClaim(s: Sys) returns (s': Sys)
    requires TASK in s.tasks && s.tasks.Keys == {TASK} && "b" in s.workers && s.workers["b"] == IDLE.(cache := map[TASK := Order([])])
    requires var rec := s.tasks[TASK];
             rec.row.status.Queued? && rec.row.owner.None? && rec.row.role.Implementer? && rec.budget.Some? && Early(rec.budget.value)
    requires s.health == map[]
    ensures s' == Run(OneAgent(), s, SecondClaim())
    ensures TASK in s'.tasks && "b" in s'.workers && Poised(ViewOf(s', "b", TASK))
    ensures s'.tasks[TASK].attempts == s.tasks[TASK].attempts && s'.used == s.used
  {
    hide LocalStep, Run;
    var cfg := OneAgent();
    RunTwo(cfg, s, Select("b", TASK, 0), Update("b", 0, 1));
    s' := Next(cfg, Next(cfg, s, Select("b", TASK, 0)), Update("b", 0, 1));
  }

  /** One task, one agent, two workers: the agent implements the task twice, although it failed the first time. */
  lemma StaleCacheRepeats() returns (s0: Sys, acts: seq<Action>)
    ensures Initial(s0) && ValidConfig(OneAgent()) && OneAgent().isolated
    ensures var s := Run(OneAgent(), s0, acts);
            TASK in s.tasks && Implementers(s.tasks[TASK].attempts) == ["x", "x"] && |OneAgent().profiles| == 1
  {
    hide LocalStep, Run, Walk, Poised, Early;
    Visible("x");
    Visible("r1");
    Visible("r2");
    var cfg := OneAgent();
    s0 := Start();
    var s1 := AfterFirstClaim();
    var cs1, v1 := FailingHandle(ViewOf(s1, "a", TASK), "r1");
    var s2 := Put(s1, "a", TASK, v1);
    OneWalk(s1, "a", cs1, v1);
    EarlyAgain(v1.rec.budget.value);
    var s3 := AfterSecondClaim(s2);
    var cs2, v2 := FailingHandle(ViewOf(s3, "b", TASK), "r2");
    OneWalk(s3, "b", cs2, v2);
    acts := FirstClaim() + Works("a", cs1) + (SecondClaim() + Works("b", cs2));
    RunAppend(cfg, s0, FirstClaim() + Works("a", cs1), SecondClaim() + Works("b", cs2));
    RunAppend(cfg, s0, FirstClaim(), Works("a", cs1));
    RunAppend(cfg, s2, SecondClaim(), Works("b", cs2));
    TwoImplementers(v2.rec.attempts);
  }

  lemma OneWalk(s: Sys, w: WorkerId, cs: seq<Choice>, v: View)
    requires w in s.workers && TASK in s.tasks && Walk(OneAgent(), TASK, ViewOf(s, w, TASK), cs, v)
    ensures Run(OneAgent(), s, Works(w, cs)) == Put(s, w, TASK, v)
  {
    hide LocalStep, Run;
    WorksRun(OneAgent(), s, w, TASK, cs);
  }

  lemma EarlyAgain(b: Budget)
    requires b == Budget(1, 0.0, 0.0, Order([]).BudgetCaps(), Ok)
    ensures Early(b)
  {
  }

  lemma TwoImplementers(attempts: seq<Attempt>)
    requires |attempts| == 2
    requires forall k :: 0 <= k < 2 ==> attempts[k].role.Implementer? && attempts[k].fate.Done? && attempts[k].agent == "x"
    ensures Implementers(attempts) == ["x", "x"]
  {
    var one := attempts[..1];
    assert one[..0] == [] && one[0] == attempts[0];
    assert Implementers(one) == ["x"];
  }
}
