/**
 The task handler as it runs, method by method. Beside the real tables a ghost view walks through the protocol's
 phases: every method says which steps of the protocol its writes are, so `Handle` is one run of a worker.
 */
module Handler {
  import opened Types
  import opened Js
  import opened Budgets
  import opened Scheduler
  import opened Events
  import opened Runs
  import opened Handoffs
  import opened Protocol
  import opened Shape
  import opened Ledger
  import opened Traces
  import opened Tables
  import opened QueueStore
  import opened TaskQueue
  import opened Stores
  import opened BudgetManager
  import opened AgentRegistry
  import DefaultScheduler
  import SchedulerLaws
  import opened Orchestrator
  import opened Walks
  import opened Dispositions

  class V1WorkerTaskHandler {
    const db: Database
    const queue: DefaultTaskQueue
    const budgets: DefaultBudgetManager
    const registry: SqliteAgentRegistry
    const runner: Runner
    const log: SqliteEventLog
    const rank: AgentId -> int
    ghost const cfg: Config

    constructor (db: Database, queue: DefaultTaskQueue, budgets: DefaultBudgetManager, registry: SqliteAgentRegistry,
                 runner: Runner, log: SqliteEventLog, rank: AgentId -> int)
      requires queue.store.db == db && budgets.store.db == db && budgets.log.db == db && log.db == db
      requires registry.log.db == db && registry.metrics.db == db && runner.runs.db == db && runner.log.db == db
      requires registry.Valid()
      ensures Valid() && this.db == db && this.queue == queue && this.budgets == budgets && this.registry == registry
      ensures cfg == Config(ProfilesOf(registry.ids, registry.entries), rank, true)
    {
      this.db, this.queue, this.budgets, this.registry := db, queue, budgets, registry;
      this.runner, this.log, this.rank := runner, log, rank;
      cfg := Config(ProfilesOf(registry.ids, registry.entries), rank, true);
    }

    ghost predicate Valid()
      reads this, registry, registry.shared
    {
      && queue.store.db == db && budgets.store.db == db && budgets.log.db == db && log.db == db
      && registry.log.db == db && registry.metrics.db == db && runner.runs.db == db && runner.log.db == db
      && registry.Valid() && ProfilesOf(registry.ids, registry.entries) == cfg.profiles && cfg.rank == rank
    }

    /** The tables and the worker's own state are what the view says; other tasks are as they were. */
    ghost predicate Matches(t: TaskId, v: View, base: Base)
      reads this, db, queue, budgets, registry.shared
    {
      && db.rows == base.rows[t := v.rec.row]
      && db.budgets == (if v.rec.budget.Some? then base.budgets[t := v.rec.budget.value] else base.budgets)
      && (v.rec.budget.None? ==> t !in base.budgets)
      && EventsOf(db.events, Some(t)) == v.rec.log
      && EventsOf(db.events, None) == v.agentAlarms
      && Foreign(db.events, t) == Foreign(base.events, t)
      && KeepsRuns(base, db.runs)
      && queue.workOrders == v.worker.cache
      && budgets.emitted == v.worker.emitted
      && registry.shared.levels == v.health
      && db.runs.Keys == v.used
      && RunMatches(v.rec.attempts, db.runs)
    }

    /** Moving the program counter alone keeps the tables matched. */
    lemma MatchesTo(t: TaskId, v: View, p: Phase, base: Base)
      requires Matches(t, v, base)
      ensures Matches(t, v.To(p), base)
    {
      hide EventsOf, Foreign, KeepsRuns, RunMatches;
    }

    /** Settling decides the rest of the handle and changes no table. */
    lemma SettleMatched(t: TaskId, job: Job, a: AgentId, o: Outcome, after: Budget, base: Base, v0: View, cs0: seq<Choice>, v1: View)
      returns (cs: seq<Choice>, v: View)
      requires Matches(t, v1, base) && Walk(cfg, t, v0, cs0, v1) && v1.worker.phase == Settling(job, a, o, after) && job.task == t
      ensures Matches(t, v, base) && Walk(cfg, t, v0, cs, v) && v.worker.phase == Settle(job, a, o, after)
    {
      hide Matches, Walk, Settle;
      cs, v := SettleWalk(cfg, t, v0, cs0, v1);
      MatchesTo(t, v1, Settle(job, a, o, after), base);
    }

    /** Appends an event of the task. */
    method AppendEvent(t: TaskId, e: Event)
      requires Valid() && Accepts(e) && e.task == Some(t)
      modifies db`events
      ensures db.events == old(db.events) + [e]
      ensures EventsOf(db.events, Some(t)) == EventsOf(old(db.events), Some(t)) + [e]
      ensures EventsOf(db.events, None) == EventsOf(old(db.events), None)
      ensures Foreign(db.events, t) == Foreign(old(db.events), t)
    {
      ForeignSame(db.events, [e], t);
      EventsOfAppend(db.events, e, Some(t));
      EventsOfAppend(db.events, e, None);
      var ok := log.Append(e);
    }

    /** `release` and the event after it, as every path that ends a handle does. */
    method ReleaseAndReport(t: TaskId, plan: Plan, ghost base: Base, ghost v0: View, ghost cs0: seq<Choice>, ghost v1: View)
      returns (ghost cs: seq<Choice>, ghost v: View)
      requires Valid() && Matches(t, v1, base) && Walk(cfg, t, v0, cs0, v1) && !Blank(t)
      requires v1.worker.phase == Releasing(t, plan) && plan.kind == KindFor(plan.status)
      modifies db`rows, db`events
      ensures Valid() && Matches(t, v, base) && Walk(cfg, t, v0, cs, v) && v.worker.phase.Idle?
      ensures t in db.rows && db.rows[t].status == plan.status && db.rows[t].role == plan.role
      ensures db.rows[t].attempts == plan.attempts && db.rows[t].owner.None? && db.rows[t].lease.None?
      ensures db.events == old(db.events) + [TaskEvent(plan.kind, t, plan.run)]
    {
      hide EventsOf, Foreign, KeepsRuns, Walk, Accepts, Blank, RunMatches, KindFor, Kept;
      Overwrite(base.rows, t, v1.rec.row, ReleasedRow(v1.rec.row, plan.status, plan.role, plan.attempts));
      var ok := queue.Release(t, Closing(plan.status, plan.role, plan.attempts));
      PatchesAreReleases(v1.rec.row, plan.status, plan.role, plan.attempts);
      PlanAccepted(t, plan);
      AppendEvent(t, TaskEvent(plan.kind, t, plan.run));
      cs, v := ReleaseWalk(cfg, t, v0, cs0, v1, plan);
    }

    // ---- Reading the task ----

    method LoadTask(t: TaskId, role: Role, attempts: nat, ghost snap: Row, ghost base: Base, ghost v0: View)
      returns (order: WorkOrder, context: Option<ReviewContext>, handoff: Option<Uri>, ghost cs: seq<Choice>, ghost v: View)
      requires Valid() && Matches(t, v0, base) && v0.worker.phase == Begin(t, snap)
      requires snap.role == role && snap.attempts == attempts
      modifies queue`workOrders
      ensures Valid() && Matches(t, v, base) && Walk(cfg, t, v0, cs, v)
      ensures context.Some? ==> role.Reviewer?
      ensures handoff.Some? ==> role.Implementer?
      ensures v.worker.phase ==
                if role.Reviewer? && context.None? then Releasing(t, Plan(Failed, role, attempts, TaskFailed, None))
                else Budgeting(Job(t, snap, order, context, handoff))
    {
      hide EventsOf, Foreign, KeepsRuns, Walk, RunMatches;
      Overwrite(base.rows, t, v0.rec.row, v0.rec.row);
      cs, v := LoadWalk(cfg, t, v0, snap);
      var found := queue.GetWorkOrder(t);
      order := found.value;
      context, handoff := None, None;
      if role.Reviewer? {
        context := queue.GetReviewContext(t);
      } else {
        handoff := queue.GetHandoffPacketUri(t);
      }
    }

    method PrepareBudget(t: TaskId, order: WorkOrder, ghost job: Job, ghost base: Base, ghost v0: View, ghost cs0: seq<Choice>, ghost v1: View)
      returns (current: Budget, ghost cs: seq<Choice>, ghost v: View)
      requires Valid() && Matches(t, v1, base) && Walk(cfg, t, v0, cs0, v1)
      requires v1.worker.phase == Budgeting(job) && job.task == t && job.order == order
      modifies db`budgets, budgets`emitted
      ensures Valid() && Matches(t, v, base) && Walk(cfg, t, v0, cs, v)
      ensures v.worker.phase == Choosing(job, current) && v.rec.budget == Some(current)
    {
      hide EventsOf, Foreign, KeepsRuns, Walk, RunMatches, SyncEmitted;
      cs, v := BudgetWalk(cfg, t, v0, cs0, v1, job);
      var b := budgets.Init(t, order);
      var again := budgets.Current(t);
      current := again.value;
    }

    // ---- Deciding ----

    /** Asks the scheduler and logs the decision. */
    method Choose(t: TaskId, role: Role, order: WorkOrder, context: Option<ReviewContext>, budget: Budget,
                  ghost job: Job, ghost base: Base, ghost v0: View, ghost cs0: seq<Choice>, ghost v1: View)
      returns (d: Decision, ghost cs: seq<Choice>, ghost v: View)
      requires Valid() && Matches(t, v1, base) && Walk(cfg, t, v0, cs0, v1) && !Blank(t) && ValidConfig(cfg)
      requires v1.worker.phase == Choosing(job, budget) && v1.rec.budget == Some(budget)
      requires job.task == t && job.order == order && job.context == context && job.snap.role == role
      modifies db`events, registry`entries
      ensures Valid() && Matches(t, v, base) && Walk(cfg, t, v0, cs, v) && v.rec.budget == Some(budget)
      ensures v.worker.phase == if d.picked.Some? then Cleared(job, d.picked.value) else RefusalPhase(job, d)
      ensures d.picked.Some? <==> d.refusal.None?
      ensures d.picked.Some? ==> !Blank(d.picked.value) && d.picked.value in registry.entries
    {
      hide EventsOf, Foreign, KeepsRuns, Walk, RunMatches, Blank, Accepts, RefusalPhase, DecisionAt, DispatchedEvent, Kept,
           Scheduler.Decide, ValidConfig;
      var mostRecent := if context.Some? then Some(context.value.agentId) else None;
      ghost var before := registry.entries;
      KeptIds(registry.ids, before, registry.shared.levels);
      d := DefaultScheduler.Decide(registry, Request(order, role, order.excludes, mostRecent, budget.status), rank);
      DecidedByRegistry(job, budget, v1, before, d);
      AppendEvent(t, DispatchedEvent(t, d));
      cs, v := ChooseWalk(cfg, t, v0, cs0, v1, RollingsOf(registry.entries));
    }

    /** The decision of the registry's listing is the protocol's, for the metrics the registry holds. */
    ghost method DecidedByRegistry(job: Job, budget: Budget, v: View, before: map<AgentId, Internal>, d: Decision)
      requires registry.Valid() && SameBut(before, registry.entries) && cfg.rank == rank && ValidConfig(cfg)
      requires (forall a :: a in registry.ids ==> a in before) && ProfilesOf(registry.ids, before) == cfg.profiles
      requires v.worker.phase == Choosing(job, budget) && registry.shared.levels == v.health && !Blank(job.task)
      requires d == Scheduler.Decide(Request0(job, budget), registry.Listed(), rank)
      ensures ProfilesOf(registry.ids, registry.entries) == cfg.profiles
      ensures d == DecisionAt(cfg, v, v.worker.phase, RollingsOf(registry.entries))
      ensures Accepts(DispatchedEvent(job.task, d)) && DispatchedEvent(job.task, d).task == Some(job.task)
      ensures d.picked.Some? <==> d.refusal.None?
      ensures d.picked.Some? ==> !Blank(d.picked.value) && d.picked.value in registry.entries
    {
      hide Scheduler.Decide, Accepts, Blank;
      SameProfiles(registry.ids, before, registry.entries);
      DecisionFine(cfg, job.task, v, v.worker.phase, RollingsOf(registry.entries));
      SchedulerLaws.PickOrRefusal(Request0(job, budget), registry.Listed(), rank);
      if d.picked.Some? {
        PickedIsListed(d, Request0(job, budget));
      }
    }

    lemma PickedIsListed(d: Decision, q: Request)
      requires registry.Valid() && d == Scheduler.Decide(q, registry.Listed(), rank) && d.picked.Some?
      ensures d.picked.value in registry.entries
    {
      hide Scheduler.Decide;
      var e := SchedulerLaws.PickSafe(q, registry.Listed(), rank);
      ListedMember(registry.ids, registry.entries, registry.shared.levels, e);
    }

    // ---- Charging the launch ----

    /** Reads the pending packet, checks the signal, and charges the launch. */
    method Charge(t: TaskId, agent: AgentId, handoff: Option<Uri>, world: World, ghost job: Job,
                  ghost base: Base, ghost v0: View, ghost cs0: seq<Choice>, ghost v1: View)
      returns (gate: Gate, ghost cs: seq<Choice>, ghost v: View)
      requires Valid() && Matches(t, v1, base) && Walk(cfg, t, v0, cs0, v1) && !Blank(t)
      requires v1.worker.phase == Cleared(job, agent) && v1.rec.budget.Some? && job.task == t && job.handoff == handoff
      modifies db`budgets, db`events, budgets`emitted
      ensures Valid() && Matches(t, v, base) && Walk(cfg, t, v0, cs, v)
      ensures gate.Stop? <==> v.worker.phase == Failing(t, job.snap)
      ensures gate.Close? <==> v.worker.phase == Fail(job, job.snap.attempts, None)
      ensures gate.Proceed? <==> v.worker.phase == Launching(job, agent)
      ensures gate.Proceed? ==> v.rec.attempts != [] && v.rec.budget.Some?
    {
      hide EventsOf, Foreign, KeepsRuns, LocalStep, Walk, Blank, PreLaunched, Transition, PickAxis, AlarmEvents, OnBegin, OnReading,
           OnInserting, OnSyncing, OnConsulting, OnChoosing, OnCharging, OnChargeRead, OnCharged, OnLaunching,
           OnStarting, OnExecuting, OnFinished, OnBilling, OnBillRead, OnBillWrite, OnBilled, OnRecording, Settle,
           OnContexting, OnPackaging, OnExcluding, OnAddressing, OnReleasing, OnReporting, OnFailing;
      cs, v := cs0, v1;
      if handoff.Some? && world.packetUnreadable {
        Dispatch(cfg, v, Fault(false));
        cs, v := Advance(cfg, t, v0, cs, v, Fault(false));
        return Close, cs, v;
      }
      if world.abortedBeforeCharge {
        Dispatch(cfg, v, Abort);
        cs, v := Advance(cfg, t, v0, cs, v, Abort);
        return Stop, cs, v;
      }
      ghost var before := db.budgets[t];
      AlarmLogged(t, v1, before.status, PreLaunched(before), db.events);
      Overwrite(base.budgets, t, before, PreLaunched(before));
      var r := budgets.PreLaunch(t);
      cs, v := ChargeWalk(cfg, t, v0, cs0, v1, job, agent);
      gate := Proceed;
    }

    // ---- The run ----

    /** Checks the signal, reads a reviewer's artifacts, and runs the task once. */
    method LaunchRun(t: TaskId, agent: AgentId, role: Role, order: WorkOrder, context: Option<ReviewContext>, world: World, ghost job: Job,
                  ghost base: Base, ghost v0: View, ghost cs0: seq<Choice>, ghost v1: View)
      returns (gate: Gate, outcome: Option<Outcome>, ghost cs: seq<Choice>, ghost v: View)
      requires Valid() && Matches(t, v1, base) && Walk(cfg, t, v0, cs0, v1) && !Blank(t) && !Blank(agent)
      requires v1.worker.phase == Launching(job, agent) && v1.rec.attempts != []
      requires job.task == t && job.order == order && job.context == context && job.snap.role == role
      requires world.newRun == base.newRun && world.newRun !in db.runs && !Blank(world.newRun) && world.env.ForRole(role)
      modifies db`runs, db`events
      ensures Valid() && Matches(t, v, base) && Walk(cfg, t, v0, cs, v) && v.rec.budget == v1.rec.budget
      ensures gate.Stop? <==> v.worker.phase == Failing(t, job.snap)
      ensures gate.Close? <==> v.worker.phase == Fail(job, job.snap.attempts, None)
      ensures gate.Proceed? <==> outcome.Some? && v.worker.phase == Finished(job, agent, outcome.value)
      ensures outcome.Some? ==> !Blank(outcome.value.run) && outcome.value.ForRole(role)
    {
      hide EventsOf, Foreign, KeepsRuns, LocalStep, Walk, Blank, CreationEvents, OnBegin, OnReading, OnInserting, OnSyncing,
           OnConsulting, OnChoosing, OnCleared, OnCharging, OnChargeRead, OnCharged, OnStarting, OnExecuting,
           OnFinished, OnBilling, OnBillRead, OnBillWrite, OnBilled, OnRecording, Settle, OnContexting, OnPackaging,
           OnExcluding, OnAddressing, OnReleasing, OnReporting, OnFailing;
      cs, v, outcome := cs0, v1, None;
      if world.abortedAfterCharge {
        Dispatch(cfg, v, Abort);
        cs, v := Advance(cfg, t, v0, cs, v, Abort);
        return Stop, None, cs, v;
      }
      if context.Some? && world.contextUnreadable {
        ghost var c := Fault(world.signalled);
        Dispatch(cfg, v, c);
        cs, v := Advance(cfg, t, v0, cs, v, c);
        return if world.signalled then Stop else Close, None, cs, v;
      }
      if world.abortedAtLaunch {
        Dispatch(cfg, v, Abort);
        cs, v := Advance(cfg, t, v0, cs, v, Abort);
        return Stop, None, cs, v;
      }
      var r;
      r, cs, v := RunOnce(t, agent, role, order, world, job, base, v0, cs, v);
      match r {
        case Returned(o) => gate, outcome := Proceed, Some(o);
        case Aborted => gate := Stop;
        case Threw => gate := Close;
      }
    }

    method RunOnce(t: TaskId, agent: AgentId, role: Role, order: WorkOrder, world: World, ghost job: Job,
                   ghost base: Base, ghost v0: View, ghost cs0: seq<Choice>, ghost v1: View)
      returns (r: Result, ghost cs: seq<Choice>, ghost v: View)
      requires Valid() && Matches(t, v1, base) && Walk(cfg, t, v0, cs0, v1) && !Blank(t) && !Blank(agent)
      requires v1.worker.phase == Launching(job, agent) && v1.rec.attempts != []
      requires job.task == t && job.order == order && job.snap.role == role
      requires world.newRun == base.newRun && world.newRun !in db.runs && !Blank(world.newRun) && world.env.ForRole(role)
      modifies db`runs, db`events
      ensures Valid() && Matches(t, v, base) && Walk(cfg, t, v0, cs, v) && v.rec.budget == v1.rec.budget
      ensures match r
              case Returned(o) => v.worker.phase == Finished(job, agent, o) && o.run == world.newRun && o.ForRole(role)
              case Aborted => v.worker.phase == Failing(t, job.snap)
              case Threw => v.worker.phase == Fail(job, job.snap.attempts, None)
    {
      hide EventsOf, Foreign, Walk, Blank, CreationEvents, StartEvents, Execute, KeepsRuns, RunMatches, Kept, Fail;
      var c := Context(t, world.newRun, agent);
      r := runner.RunTaskOnce(c, order, role, world.prepared, world.env);
      OutcomeFitsRole(c, order, world.env, role);
      RunLogged(c, order, role, world.prepared, world.env, old(db.events));
      cs, v := RunWalk(cfg, t, v0, cs0, v1, c, order, role, world, job);
      RunStored(base, old(db.runs), RunRecord(t, agent, role, RunEffect(c, order, role, world).status),
                v1.rec.attempts, v.rec.attempts);
    }

    // ---- After the run ----

    /** The packet an implementer was given is used up once its run has an outcome. */
    method ClearPacket(t: TaskId, role: Role, handoff: Option<Uri>, ghost job: Job, ghost agent: AgentId, ghost outcome: Outcome,
                       ghost base: Base, ghost v0: View, ghost cs0: seq<Choice>, ghost v1: View)
      returns (ghost cs: seq<Choice>, ghost v: View)
      requires Valid() && Matches(t, v1, base) && Walk(cfg, t, v0, cs0, v1)
      requires v1.worker.phase == Finished(job, agent, outcome) && job.task == t
      requires job.handoff == handoff && (handoff.Some? ==> role.Implementer?)
      modifies db`rows
      ensures Valid() && Matches(t, v, base) && Walk(cfg, t, v0, cs, v)
      ensures v.worker.phase == Billing(job, agent, outcome) && v.rec.budget == v1.rec.budget
    {
      hide EventsOf, Foreign, KeepsRuns, LocalStep, Walk, RunMatches, OnBegin, OnReading, OnInserting, OnSyncing, OnConsulting,
           OnChoosing, OnCleared, OnCharging, OnChargeRead, OnCharged, OnLaunching, OnStarting, OnExecuting,
           OnBilling, OnBillRead, OnBillWrite, OnBilled, OnRecording, Settle, OnContexting, OnPackaging, OnExcluding,
           OnAddressing, OnReleasing, OnReporting, OnFailing;
      cs, v := cs0, v1;
      Overwrite(base.rows, t, v.rec.row, v.rec.row.(handoff := None));
      if role.Implementer? && handoff.Some? {
        var ok := queue.SetHandoffPacketUri(t, None);
      }
      Dispatch(cfg, v, Go);
      cs, v := Advance(cfg, t, v0, cs, v, Go);
    }

    /** Charges the run and records its outcome. */
    method Bill(t: TaskId, agent: AgentEntry, outcome: Outcome, wallMs: real, ghost job: Job,
                ghost base: Base, ghost v0: View, ghost cs0: seq<Choice>, ghost v1: View)
      returns (after: Budget, ghost cs: seq<Choice>, ghost v: View)
      requires Valid() && Matches(t, v1, base) && Walk(cfg, t, v0, cs0, v1) && !Blank(t)
      requires v1.worker.phase == Billing(job, agent.profile.id, outcome) && v1.rec.budget.Some? && job.task == t
      requires agent.profile.id in registry.entries && agent.profile == registry.entries[agent.profile.id].profile
      modifies db`budgets, db`events, db`metrics, budgets`emitted, registry`entries, registry.shared`levels
      ensures Valid() && Matches(t, v, base) && Walk(cfg, t, v0, cs, v)
      ensures v.worker.phase == Settling(job, agent.profile.id, outcome, after)
      ensures after.wallMs == v1.rec.budget.value.wallMs + (if wallMs >= 0.0 then wallMs else 0.0)
      ensures after.cost == v1.rec.budget.value.cost + (if agent.profile.cost.Some? then agent.profile.cost.value else 0.0)
    {
      hide EventsOf, Foreign, KeepsRuns, Walk, RunMatches, PostRan, AlarmEvents, AlarmFor, AlarmSet, Kept, HealthOf;
      var wall := if wallMs >= 0.0 then wallMs else 0.0;
      var cost := agent.profile.EstimatedCost();
      RegisteredCost(registry.ids, registry.entries, registry.shared.levels, agent.profile.id);
      ghost var before := v1.rec.budget.value;
      AlarmLogged(t, v1, before.status, PostRan(before, wall, cost), db.events);
      Overwrite(base.budgets, t, before, PostRan(before, wall, cost));
      var r := budgets.PostRun(t, wall, cost);
      after := r.value;
      cs, v := BillWalk(cfg, t, v0, cs0, v1, job, agent.profile.id, outcome, wallMs);
      cs, v := RecordAgentOutcome(t, agent.profile.id, outcome, wall, job, after, base, v0, cs, v);
    }

    /** Some failures are not the agent's; any other outcome is recorded, with the reason of a failure. */
    method RecordAgentOutcome(t: TaskId, agent: AgentId, outcome: Outcome, wall: real, ghost job: Job, ghost after: Budget,
                              ghost base: Base, ghost v0: View, ghost cs0: seq<Choice>, ghost v1: View)
      returns (ghost cs: seq<Choice>, ghost v: View)
      requires Valid() && Matches(t, v1, base) && Walk(cfg, t, v0, cs0, v1) && agent in registry.entries
      requires v1.worker.phase == Recording(job, agent, outcome, after) && job.task == t
      modifies db`events, db`metrics, registry`entries, registry.shared`levels
      ensures Valid() && Matches(t, v, base) && Walk(cfg, t, v0, cs, v)
      ensures var blameless := match outcome
                case ImplementerFailed(_, r, _, _) => r.InternalError?
                case ReviewerFailed(_, r, _) => r.DiffApplyFailed? || r.InternalError?
                case _ => false;
              db.metrics == if blameless then old(db.metrics)
                            else old(db.metrics) + [MetricsRow(agent, outcome.ImplementerSucceeded? || outcome.ReviewerReturned?, wall)]
      ensures v.worker.phase == Settling(job, agent, outcome, after)
    {
      hide EventsOf, Foreign, KeepsRuns, Walk, RunMatches, HealthAfter, ProviderFailure, WorseHealth, Kept, AgentAlarm,
           FailureReasonOf, SameBut, ProfilesOf, Refreshed;
      KeptIds(registry.ids, registry.entries, registry.shared.levels);
      RecordAgrees(outcome, HealthOf(registry.shared.levels, agent));
      cs, v := RecordWalk(cfg, t, v0, cs0, v1, job, agent, outcome, after);
      if outcome.ImplementerFailed? && outcome.reason.InternalError? {
        return;
      }
      if outcome.ReviewerFailed? && (outcome.reason.DiffApplyFailed? || outcome.reason.InternalError?) {
        return;
      }
      ghost var before := registry.entries;
      ghost var events := db.events;
      var ok := registry.RecordOutcome(agent, outcome.ImplementerSucceeded? || outcome.ReviewerReturned?, wall, outcome.run,
                                       FailureReasonOf(outcome));
      OutcomeKeepsProfiles(registry.ids, before, registry.entries, agent,
                           Refreshed(before[agent].profile, db.metrics, registry.window));
      AgentAlarmLogged(events, AlarmKind(HealthOf(registry.shared.levels, agent)), agent, outcome.run, t);
    }

    // ---- Settling the outcome ----

    method HandleImplementerSuccess(t: TaskId, role: Role, attempts: nat, order: WorkOrder, agent: AgentId, outcome: Outcome, after: Budget,
                                    ghost job: Job, ghost base: Base, ghost v0: View, ghost cs0: seq<Choice>, ghost v1: View)
      returns (ghost cs: seq<Choice>, ghost v: View)
      requires Valid() && Matches(t, v1, base) && Walk(cfg, t, v0, cs0, v1) && !Blank(t) && !Blank(agent) && !Blank(outcome.run)
      requires v1.worker.phase == Settling(job, agent, outcome, after) && outcome.ImplementerSucceeded?
      requires job.task == t && job.order == order && job.snap.role == role && job.snap.attempts == attempts
      modifies db`rows, db`events
      ensures Valid() && Matches(t, v, base) && Walk(cfg, t, v0, cs, v) && v.worker.phase.Idle?
      ensures t in db.rows && Concludes(order.reviewEnabled, !after.status.Exhausted?, outcome, db.rows[t].status, db.rows[t].role)
    {
      hide Matches, Valid, Kept, Walk, RunMatches, Accepts, Blank;
      cs, v := SettleMatched(t, job, agent, outcome, after, base, v0, cs0, v1);
      if order.reviewEnabled {
        if after.status.Exhausted? {
          cs, v := ReleaseAndReport(t, Plan(Failed, role, attempts + 1, TaskFailed, Some(outcome.run)), base, v0, cs, v);
          return;
        }
        var context := ReviewContext(outcome.run, agent, outcome.diff, outcome.finalReport, outcome.verification);
        cs, v := StoreContext(t, context, base, v0, cs, v);
        cs, v := ReleaseAndReport(t, Plan(Queued, Reviewer, attempts + 1, TaskRequeued, Some(outcome.run)), base, v0, cs, v);
        return;
      }
      cs, v := ReleaseAndReport(t, Plan(Accepted, role, attempts + 1, TaskCompleted, Some(outcome.run)), base, v0, cs, v);
    }

    method StoreContext(t: TaskId, context: ReviewContext, ghost base: Base, ghost v0: View, ghost cs0: seq<Choice>, ghost v1: View)
      returns (ghost cs: seq<Choice>, ghost v: View)
      requires Valid() && Matches(t, v1, base) && Walk(cfg, t, v0, cs0, v1) && Storable(context)
      requires v1.worker.phase.Contexting? && v1.worker.phase.job.task == t && v1.worker.phase.setContext == context
      modifies db`rows
      ensures Valid() && Matches(t, v, base) && Walk(cfg, t, v0, cs, v) && v.worker.phase == Releasing(t, v1.worker.phase.plan)
    {
      hide EventsOf, Foreign, KeepsRuns, Walk, RunMatches, Storable;
      Overwrite(base.rows, t, v1.rec.row, v1.rec.row.(context := Some(context)));
      var ok := queue.SetReviewContext(t, context);
      cs, v := ContextWalk(cfg, t, v0, cs0, v1);
    }

    method HandleImplementerFailure(t: TaskId, role: Role, attempts: nat, order: WorkOrder, agent: AgentId, outcome: Outcome, after: Budget,
                                    ghost job: Job, ghost base: Base, ghost v0: View, ghost cs0: seq<Choice>, ghost v1: View)
      returns (ghost cs: seq<Choice>, ghost v: View)
      requires Valid() && Matches(t, v1, base) && Walk(cfg, t, v0, cs0, v1) && !Blank(t) && !Blank(outcome.run)
      requires v1.worker.phase == Settling(job, agent, outcome, after) && outcome.ImplementerFailed?
      requires job.task == t && job.order == order && job.snap.role == role && job.snap.attempts == attempts
      modifies db`rows, db`events, queue`workOrders
      ensures Valid() && Matches(t, v, base) && Walk(cfg, t, v0, cs, v) && v.worker.phase.Idle?
      ensures t in db.rows && Concludes(order.reviewEnabled, !after.status.Exhausted?, outcome, db.rows[t].status, db.rows[t].role)
    {
      hide Matches, Valid, Kept, Walk, RunMatches, Accepts, Blank, PacketExcludes;
      cs, v := SettleMatched(t, job, agent, outcome, after, base, v0, cs0, v1);
      var why := HandoffReasonFor(outcome.reason);
      if why.None? {
        cs, v := ReleaseAndReport(t, Plan(Failed, role, attempts + 1, TaskFailed, Some(outcome.run)), base, v0, cs, v);
        return;
      }
      var packet := Build(t, outcome.run, agent, why.value, outcome.diffUri, outcome.verificationUri, None, order.excludes);
      var plan := if after.status.Exhausted? then Plan(Failed, role, attempts + 1, TaskFailed, Some(outcome.run))
                  else Plan(Queued, Implementer, attempts + 1, TaskRequeued, Some(outcome.run));
      cs, v := HandOver(t, agent, outcome.run, packet, plan, job, base, v0, cs, v);
    }

    /** A reviewer's outcome for a task that was read without a review context. */
    method FailWithoutContext(t: TaskId, role: Role, attempts: nat, agent: AgentId, outcome: Outcome, after: Budget,
                              ghost job: Job, ghost base: Base, ghost v0: View, ghost cs0: seq<Choice>, ghost v1: View)
      returns (ghost cs: seq<Choice>, ghost v: View)
      requires Valid() && Matches(t, v1, base) && Walk(cfg, t, v0, cs0, v1) && !Blank(t)
      requires v1.worker.phase == Settling(job, agent, outcome, after) && (outcome.ReviewerReturned? || outcome.ReviewerFailed?)
      requires job.task == t && job.snap.role == role && job.snap.attempts == attempts && job.context.None?
      modifies db`rows, db`events
      ensures Valid() && Matches(t, v, base) && Walk(cfg, t, v0, cs, v) && v.worker.phase.Idle?
    {
      hide Matches, Valid, Walk, Blank, Settle;
      ReviewerSettles(job, agent, outcome, after);
      cs, v := SettleMatched(t, job, agent, outcome, after, base, v0, cs0, v1);
      cs, v := ReleaseAndReport(t, Plan(Failed, role, attempts + 1, TaskFailed, None), base, v0, cs, v);
    }

    /** What becomes of a task after a reviewer's outcome. */
    lemma ReviewerSettles(job: Job, a: AgentId, o: Outcome, after: Budget)
      requires o.ReviewerReturned? || o.ReviewerFailed?
      ensures var p := Settle(job, a, o, after); p.Releasing? ==> p.plan.kind == KindFor(p.plan.status)
      ensures var p, n := Settle(job, a, o, after), job.snap.attempts + 1;
              if job.context.None? then p == Releasing(job.task, Plan(Failed, job.snap.role, n, TaskFailed, None))
              else if o.ReviewerReturned? && o.verdict.Approved? then
                p == Releasing(job.task, Plan(Accepted, job.snap.role, n, TaskCompleted, Some(o.run)))
              else if o.ReviewerReturned? && o.verdict.Rejected? then
                p == Releasing(job.task, Plan(AwaitingHuman, job.snap.role, n, TaskAwaitingHuman, Some(o.run)))
              else if (o.ReviewerFailed? && !o.reason.DiffApplyFailed?) || after.status.Exhausted? then
                p == Releasing(job.task, Plan(Failed, job.snap.role, n, TaskFailed, Some(o.run)))
              else
                var ctx := job.context.value;
                p == Packaging(job, a, o.run,
                               Packet(job.task, ctx.runId, ctx.agentId,
                                      if o.ReviewerReturned? then HReviewChangesRequested else HDiffApplyFailed, Some(ctx.diff),
                                      ctx.verification, if o.ReviewerReturned? then Some(o.verdictUri) else None,
                                      PacketExcludes(job.order.excludes, ctx.agentId)),
                               Plan(Queued, Implementer, n, TaskRequeued, Some(o.run)))
    {
      hide PacketExcludes;
    }

    method HandleReviewerOutcome(t: TaskId, role: Role, attempts: nat, order: WorkOrder, agent: AgentId, context: ReviewContext,
                                 outcome: Outcome, after: Budget,
                                 ghost job: Job, ghost base: Base, ghost v0: View, ghost cs0: seq<Choice>, ghost v1: View)
      returns (ghost cs: seq<Choice>, ghost v: View)
      requires Valid() && Matches(t, v1, base) && Walk(cfg, t, v0, cs0, v1) && !Blank(t) && !Blank(outcome.run)
      requires v1.worker.phase == Settling(job, agent, outcome, after) && (outcome.ReviewerReturned? || outcome.ReviewerFailed?)
      requires job.task == t && job.order == order && job.snap.role == role && job.snap.attempts == attempts && job.context == Some(context)
      modifies db`rows, db`events, queue`workOrders
      ensures Valid() && Matches(t, v, base) && Walk(cfg, t, v0, cs, v) && v.worker.phase.Idle?
      ensures t in db.rows && Concludes(order.reviewEnabled, !after.status.Exhausted?, outcome, db.rows[t].status, db.rows[t].role)
    {
      hide Matches, Valid, Kept, Walk, RunMatches, Accepts, Blank, PacketExcludes, Settle, KeepsRuns, EventsOf, Foreign, KindFor;
      ReviewerSettles(job, agent, outcome, after);
      cs, v := SettleMatched(t, job, agent, outcome, after, base, v0, cs0, v1);
      var run := Some(outcome.run);
      var approved := outcome.ReviewerReturned? && outcome.verdict.Approved?;
      var rejected := outcome.ReviewerReturned? && outcome.verdict.Rejected?;
      if approved || rejected || (outcome.ReviewerFailed? && !outcome.reason.DiffApplyFailed?) || after.status.Exhausted? {
        var plan := if approved then Plan(Accepted, role, attempts + 1, TaskCompleted, run)
                    else if rejected then Plan(AwaitingHuman, role, attempts + 1, TaskAwaitingHuman, run)
                    else Plan(Failed, role, attempts + 1, TaskFailed, run);
        cs, v := ReleaseAndReport(t, plan, base, v0, cs, v);
      } else {
        var reason := if outcome.ReviewerReturned? then HReviewChangesRequested else HDiffApplyFailed;
        var verdictUri := if outcome.ReviewerReturned? then Some(outcome.verdictUri) else None;
        cs, v := RequeueImplementerAfterReview(t, attempts, order, agent, context, outcome.run, reason, verdictUri, job, base, v0, cs, v);
      }
    }

    method RequeueImplementerAfterReview(t: TaskId, attempts: nat, order: WorkOrder, agent: AgentId, context: ReviewContext,
                                         run: RunId, reason: HandoffReason, verdictUri: Option<Uri>,
                                         ghost job: Job, ghost base: Base, ghost v0: View, ghost cs0: seq<Choice>, ghost v1: View)
      returns (ghost cs: seq<Choice>, ghost v: View)
      requires Valid() && Matches(t, v1, base) && Walk(cfg, t, v0, cs0, v1) && !Blank(t) && !Blank(run) && job.task == t
      requires v1.worker.phase == Packaging(job, agent, run,
                                            Packet(t, context.runId, context.agentId, reason, Some(context.diff), context.verification,
                                                   verdictUri, PacketExcludes(order.excludes, context.agentId)),
                                            Plan(Queued, Implementer, attempts + 1, TaskRequeued, Some(run)))
      modifies db`rows, db`events, queue`workOrders
      ensures Valid() && Matches(t, v, base) && Walk(cfg, t, v0, cs, v) && v.worker.phase.Idle?
      ensures t in db.rows && db.rows[t].status.Queued? && db.rows[t].role.Implementer?
    {
      hide Matches, Valid, Walk, Blank, PacketExcludes;
      var packet := Build(t, context.runId, context.agentId, reason, Some(context.diff), context.verification, verdictUri, order.excludes);
      cs, v := HandOver(t, agent, run, packet, Plan(Queued, Implementer, attempts + 1, TaskRequeued, Some(run)), job, base, v0, cs0, v1);
    }

    /** Logs the handover, merges the excludes into the stored order, points the row at the packet, and releases. */
    method HandOver(t: TaskId, agent: AgentId, run: RunId, packet: Packet, plan: Plan,
                    ghost job: Job, ghost base: Base, ghost v0: View, ghost cs0: seq<Choice>, ghost v1: View)
      returns (ghost cs: seq<Choice>, ghost v: View)
      requires Valid() && Matches(t, v1, base) && Walk(cfg, t, v0, cs0, v1) && !Blank(t) && !Blank(run)
      requires v1.worker.phase == Packaging(job, agent, run, packet, plan) && job.task == t && plan.kind == KindFor(plan.status)
      modifies db`rows, db`events, queue`workOrders
      ensures Valid() && Matches(t, v, base) && Walk(cfg, t, v0, cs, v) && v.worker.phase.Idle?
      ensures t in db.rows && db.rows[t].status == plan.status && db.rows[t].role == plan.role
    {
      hide EventsOf, Foreign, KeepsRuns, Walk, RunMatches, Accepts, Blank, Merged, KindFor, HandoffEvent, Kept, ProfilesOf;
      PackagingAccepted(v1.worker.phase);
      AppendEvent(t, HandoffEvent(t, run, agent, packet.Address(), packet.reason));
      ghost var row := v1.rec.row;
      ghost var merged := row.(order := row.order.(excludes := Merged(row.order.excludes, packet.excludes)));
      Overwrite(base.rows, t, row, merged);
      var order := queue.AddWorkOrderExcludeAgentIds(t, packet.excludes);
      Overwrite(base.rows, t, merged, merged.(handoff := Some(packet.Address())));
      var ok := queue.SetHandoffPacketUri(t, Some(packet.Address()));
      cs, v := HandWalk(cfg, t, v0, cs0, v1, job, agent, run, packet, plan);
      cs, v := ReleaseAndReport(t, plan, base, v0, cs, v);
    }

    // ---- The handle ----

    /** A refusal ends the task: only "all candidates excluded" waits for a human. */
    method HandleSchedulerRefusal(t: TaskId, role: Role, attempts: nat, d: Decision, ghost job: Job,
                                  ghost base: Base, ghost v0: View, ghost cs0: seq<Choice>, ghost v1: View)
      returns (ghost cs: seq<Choice>, ghost v: View)
      requires Valid() && Matches(t, v1, base) && Walk(cfg, t, v0, cs0, v1) && !Blank(t)
      requires v1.worker.phase == RefusalPhase(job, d) && job.task == t && job.snap.role == role && job.snap.attempts == attempts
      modifies db`rows, db`events
      ensures Valid() && Matches(t, v, base) && Walk(cfg, t, v0, cs, v) && v.worker.phase.Idle?
      ensures t in db.rows && db.rows[t].status == if d.refusal == Some(AllCandidatesExcluded) then AwaitingHuman else Failed
    {
      hide Matches, Valid, Walk, Blank;
      var plan := if d.refusal == Some(AllCandidatesExcluded) then Plan(AwaitingHuman, role, attempts, TaskAwaitingHuman, None)
                  else Plan(Failed, role, attempts, TaskFailed, None);
      cs, v := ReleaseAndReport(t, plan, base, v0, cs0, v1);
    }

    /** From the picked agent to the end of the task's handle. */
    method Carry(t: TaskId, role: Role, attempts: nat, order: WorkOrder, context: Option<ReviewContext>, handoff: Option<Uri>,
                   agent: AgentEntry, world: World, ghost job: Job, ghost base: Base, ghost v0: View, ghost cs0: seq<Choice>, ghost v1: View)
      returns (threw: bool, ghost cs: seq<Choice>, ghost v: View)
      requires Valid() && Matches(t, v1, base) && Walk(cfg, t, v0, cs0, v1) && !Blank(t) && !Blank(agent.profile.id)
      requires v1.worker.phase == Cleared(job, agent.profile.id) && v1.rec.budget.Some?
      requires job == Job(t, job.snap, order, context, handoff) && job.snap.role == role && job.snap.attempts == attempts
      requires handoff.Some? ==> role.Implementer?
      requires agent.profile.id in registry.entries && agent.profile == registry.entries[agent.profile.id].profile
      requires world.newRun == base.newRun && world.newRun !in db.runs && !Blank(world.newRun) && world.env.ForRole(role)
      modifies db`rows, db`budgets, db`runs, db`events, db`metrics, queue`workOrders, budgets`emitted, registry`entries, registry.shared`levels
      ensures Valid() && Matches(t, v, base) && Walk(cfg, t, v0, cs, v)
      ensures if threw then v.worker.phase == Failing(t, job.snap) else v.worker.phase.Idle?
    {
      hide Matches, Valid, Walk, Blank;
      var id := agent.profile.id;
      var gate;
      gate, cs, v := Charge(t, id, handoff, world, job, base, v0, cs0, v1);
      if gate.Stop? {
        return true, cs, v;
      }
      if gate.Close? {
        cs, v := ReleaseAndReport(t, Plan(Failed, role, attempts, TaskFailed, None), base, v0, cs, v);
        return false, cs, v;
      }
      var outcome;
      gate, outcome, cs, v := LaunchRun(t, id, role, order, context, world, job, base, v0, cs, v);
      if gate.Stop? {
        return true, cs, v;
      }
      if gate.Close? {
        cs, v := ReleaseAndReport(t, Plan(Failed, role, attempts, TaskFailed, None), base, v0, cs, v);
        return false, cs, v;
      }
      cs, v := Conclude(t, role, attempts, order, context, handoff, agent, outcome.value, world.wallMs, job, base, v0, cs, v);
      threw := false;
    }

    /** From the outcome to the end of the handle. */
    method Conclude(t: TaskId, role: Role, attempts: nat, order: WorkOrder, context: Option<ReviewContext>, handoff: Option<Uri>,
                  agent: AgentEntry, outcome: Outcome, wallMs: real, ghost job: Job,
                  ghost base: Base, ghost v0: View, ghost cs0: seq<Choice>, ghost v1: View)
      returns (ghost cs: seq<Choice>, ghost v: View)
      requires Valid() && Matches(t, v1, base) && Walk(cfg, t, v0, cs0, v1) && !Blank(t) && !Blank(agent.profile.id) && !Blank(outcome.run)
      requires v1.worker.phase == Finished(job, agent.profile.id, outcome) && v1.rec.budget.Some?
      requires job == Job(t, job.snap, order, context, handoff) && job.snap.role == role && job.snap.attempts == attempts
      requires handoff.Some? ==> role.Implementer?
      requires agent.profile.id in registry.entries && agent.profile == registry.entries[agent.profile.id].profile
      modifies db`rows, db`budgets, db`events, db`metrics, queue`workOrders, budgets`emitted, registry`entries, registry.shared`levels
      ensures Valid() && Matches(t, v, base) && Walk(cfg, t, v0, cs, v) && v.worker.phase.Idle?
    {
      hide Matches, Valid, Walk, Blank;
      var id := agent.profile.id;
      cs, v := ClearPacket(t, role, handoff, job, id, outcome, base, v0, cs0, v1);
      var after;
      after, cs, v := Bill(t, agent, outcome, wallMs, job, base, v0, cs, v);
      if outcome.ImplementerSucceeded? {
        cs, v := HandleImplementerSuccess(t, role, attempts, order, id, outcome, after, job, base, v0, cs, v);
      } else if outcome.ImplementerFailed? {
        cs, v := HandleImplementerFailure(t, role, attempts, order, id, outcome, after, job, base, v0, cs, v);
      } else if context.None? {
        cs, v := FailWithoutContext(t, role, attempts, id, outcome, after, job, base, v0, cs, v);
      } else {
        cs, v := HandleReviewerOutcome(t, role, attempts, order, id, context.value, outcome, after, job, base, v0, cs, v);
      }
    }

    /**
     `handle`: from a claimed entry to its release, or to the abort it throws. Whatever the world does, the tables
     end where the protocol's steps from the claim lead, with the worker idle, or due to requeue after an abort.
     */
    method Handle(t: TaskId, entry: Row, world: World, ghost snap: Row, ghost base: Base, ghost v0: View)
      returns (threw: bool, ghost cs: seq<Choice>, ghost v: View)
      requires Valid() && ValidConfig(cfg) && Matches(t, v0, base) && !Blank(t)
      requires v0.worker.phase == Begin(t, snap) && entry.role == snap.role && entry.attempts == snap.attempts
      requires world.newRun == base.newRun && world.newRun !in db.runs && !Blank(world.newRun) && world.env.ForRole(entry.role)
      modifies db`rows, db`budgets, db`runs, db`events, db`metrics, queue`workOrders, budgets`emitted, registry`entries, registry.shared`levels
      ensures Valid() && Matches(t, v, base) && Walk(cfg, t, v0, cs, v)
      ensures if threw then v.worker.phase == Failing(t, snap) else v.worker.phase.Idle?
    {
      hide Matches, Valid, Walk, Blank, RefusalPhase, ValidConfig;
      if world.abortedAtStart {
        cs, v := AbortAtStart(t, snap, base, v0);
        return true, cs, v;
      }
      var order, context, handoff;
      order, context, handoff, cs, v := LoadTask(t, entry.role, entry.attempts, snap, base, v0);
      if entry.role.Reviewer? && context.None? {
        cs, v := ReleaseAndReport(t, Plan(Failed, entry.role, entry.attempts, TaskFailed, None), base, v0, cs, v);
        return false, cs, v;
      }
      ghost var job := Job(t, snap, order, context, handoff);
      threw, cs, v := Serve(t, entry.role, entry.attempts, order, context, handoff, world, job, base, v0, cs, v);
    }

    /** From the inputs read to the end of the handle. */
    method Serve(t: TaskId, role: Role, attempts: nat, order: WorkOrder, context: Option<ReviewContext>, handoff: Option<Uri>,
                 world: World, ghost job: Job, ghost base: Base, ghost v0: View, ghost cs0: seq<Choice>, ghost v1: View)
      returns (threw: bool, ghost cs: seq<Choice>, ghost v: View)
      requires Valid() && ValidConfig(cfg) && Matches(t, v1, base) && Walk(cfg, t, v0, cs0, v1) && !Blank(t)
      requires v1.worker.phase == Budgeting(job)
      requires job == Job(t, job.snap, order, context, handoff) && job.snap.role == role && job.snap.attempts == attempts
      requires handoff.Some? ==> role.Implementer?
      requires world.newRun == base.newRun && world.newRun !in db.runs && !Blank(world.newRun) && world.env.ForRole(role)
      modifies db`rows, db`budgets, db`runs, db`events, db`metrics, queue`workOrders, budgets`emitted, registry`entries, registry.shared`levels
      ensures Valid() && Matches(t, v, base) && Walk(cfg, t, v0, cs, v)
      ensures if threw then v.worker.phase == Failing(t, job.snap) else v.worker.phase.Idle?
    {
      hide Matches, Valid, Walk, Blank, RefusalPhase, ValidConfig, Kept, Fail;
      var budget;
      budget, cs, v := PrepareBudget(t, order, job, base, v0, cs0, v1);
      var d;
      d, cs, v := Choose(t, role, order, context, budget, job, base, v0, cs, v);
      if d.picked.None? {
        cs, v := HandleSchedulerRefusal(t, role, attempts, d, job, base, v0, cs, v);
        return false, cs, v;
      }
      var agent := Lookup(d.picked.value);
      threw, cs, v := Carry(t, role, attempts, order, context, handoff, agent, world, job, base, v0, cs, v);
    }

    method AbortAtStart(t: TaskId, ghost snap: Row, ghost base: Base, ghost v0: View) returns (ghost cs: seq<Choice>, ghost v: View)
      requires Valid() && Matches(t, v0, base) && v0.worker.phase == Begin(t, snap)
      ensures Valid() && Matches(t, v, base) && Walk(cfg, t, v0, cs, v) && v.worker.phase == Failing(t, snap)
    {
      hide EventsOf, Foreign, KeepsRuns, LocalStep, Walk, RunMatches, OnReading, OnInserting, OnSyncing, OnConsulting, OnChoosing,
           OnCleared, OnCharging, OnChargeRead, OnCharged, OnLaunching, OnStarting, OnExecuting, OnFinished,
           OnBilling, OnBillRead, OnBillWrite, OnBilled, OnRecording, Settle, OnContexting, OnPackaging, OnExcluding,
           OnAddressing, OnReleasing, OnReporting, OnFailing;
      WalkFrom(cfg, t, v0);
      cs, v := [], v0;
      Dispatch(cfg, v, Abort);
      cs, v := Advance(cfg, t, v0, cs, v, Abort);
    }

    /** The registry entry of the picked agent: the scheduler only picks registered ones. */
    method Lookup(a: AgentId) returns (agent: AgentEntry)
      requires Valid() && a in registry.entries
      modifies registry`entries
      ensures Valid() && agent.profile.id == a && a in registry.entries && agent.profile == registry.entries[a].profile
      ensures registry.shared.levels == old(registry.shared.levels)
    {
      ghost var before := registry.entries;
      KeptIds(registry.ids, before, registry.shared.levels);
      var found := registry.Get(a);
      SameProfiles(registry.ids, before, registry.entries);
      agent := found.value;
    }
  }
}
