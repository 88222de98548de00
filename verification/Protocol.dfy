/**
 The v1 task lifecycle as an N-worker protocol over one shared store. Each worker has a program counter
 (`Phase`) and its own work-order cache; each action is one store call, and the environment picks clock
 readings, run outcomes, faults and aborts. The four tables keyed by task are joined into one `TaskRec`.
 */
module Protocol {
  import opened Types
  import opened Js
  import opened Budgets
  import opened Scheduler
  import opened Events
  import opened Runs
  import opened Handoffs

  /**
   `isolated` says whether the claim's SELECT and UPDATE see the same row, as the enclosing transaction
   promises. The properties that need it say so.
   */
  datatype Config = Config(profiles: seq<Profile>, rank: AgentId -> int, isolated: bool)

  // ---- Shared state ----

  datatype RunRow = NoRun | RunRow(id: RunId, status: RunStatus)

  /** How a charged launch ended. `Done` keeps the evidence: what happened outside, and the diff reviewed. */
  datatype Fate =
    | InFlight
    | WasAborted
    | DidThrow
    | Done(outcome: Outcome, env: Option<Env>, reviewed: Option<ReviewContext>)

  /** One launch charged to the task: a history record together with its row of the runs table. */
  datatype Attempt = Attempt(role: Role, agent: AgentId, run: RunRow, fate: Fate)

  /**
   Queue row, budget row, log and run rows of a task. Three history counters: claims so far, handles
   aborted before their launch was charged, and the number of attempts when the task was last claimed.
   */
  datatype TaskRec = TaskRec(
    row: Row,
    budget: Option<Budget>,
    log: seq<Event>,
    attempts: seq<Attempt>,
    claims: nat,
    early: nat,
    mark: nat)

  datatype Alarm = Alarm(task: TaskId, exhausted: bool)

  // ---- Workers ----

  /** What `handle` has read of its task: the row selected by claim, and the columns read since. */
  datatype Job = Job(task: TaskId, snap: Row, order: WorkOrder, context: Option<ReviewContext>, handoff: Option<Uri>)

  /** The release a handler is about to make and the event it then appends. */
  datatype Plan = Plan(status: Status, role: Role, attempts: nat, kind: Kind, run: Option<RunId>)

  datatype Phase =
    | Idle
    | Halted
    | Selected(task: TaskId, snap: Row)
    | Begin(task: TaskId, snap: Row)
    | Reading(task: TaskId, snap: Row, order: WorkOrder)
    | Budgeting(job: Job)
    | Inserting(job: Job)
    | Syncing(job: Job)
    | Consulting(job: Job)
    | Choosing(job: Job, budget: Budget)
    | Cleared(job: Job, agent: AgentId)
    | Charging(job: Job, agent: AgentId, before: Budget)
    | ChargeRead(job: Job, agent: AgentId, before: Budget, read: Budget)
    | Charged(job: Job, agent: AgentId, before: Budget, after: Budget)
    | Launching(job: Job, agent: AgentId)
    | Starting(job: Job, agent: AgentId, run: RunId)
    | Executing(job: Job, agent: AgentId, run: RunId)
    | Finished(job: Job, agent: AgentId, outcome: Outcome)
    | Billing(job: Job, agent: AgentId, outcome: Outcome)
    | BillRead(job: Job, agent: AgentId, outcome: Outcome, before: Budget)
    | BillWrite(job: Job, agent: AgentId, outcome: Outcome, before: Budget, read: Budget)
    | Billed(job: Job, agent: AgentId, outcome: Outcome, before: Budget, after: Budget)
    | Recording(job: Job, agent: AgentId, outcome: Outcome, after: Budget)
    | Settling(job: Job, agent: AgentId, outcome: Outcome, after: Budget)
    | Contexting(job: Job, setContext: ReviewContext, plan: Plan)
    | Packaging(job: Job, agent: AgentId, run: RunId, packet: Packet, plan: Plan)
    | Excluding(job: Job, packet: Packet, plan: Plan)
    | Addressing(job: Job, packet: Packet, plan: Plan)
    | Releasing(task: TaskId, plan: Plan)
    | Reporting(task: TaskId, event: Event)
    | Failing(task: TaskId, snap: Row)

  /** The task whose row this phase owns: from the conditional UPDATE to the release. */
  function Holds(p: Phase): Option<TaskId> {
    match p
    case Idle | Halted | Selected(_, _) | Reporting(_, _) => None
    case Begin(t, _) => Some(t)
    case Reading(t, _, _) => Some(t)
    case Releasing(t, _) => Some(t)
    case Failing(t, _) => Some(t)
    case _ => Some(p.job.task)
  }

  datatype Worker = Worker(phase: Phase, cache: map<TaskId, WorkOrder>, emitted: set<Alarm>, stop: bool)

  datatype Sys = Sys(
    tasks: map<TaskId, TaskRec>,
    workers: map<WorkerId, Worker>,
    health: map<AgentId, Health>,
    agentAlarms: seq<Event>,
    used: set<RunId>)

  /** What one step of a worker on its task can see and change. */
  datatype View = View(
    rec: TaskRec,
    worker: Worker,
    health: map<AgentId, Health>,
    agentAlarms: seq<Event>,
    used: set<RunId>)
  {
    function To(p: Phase): View {
      this.(worker := worker.(phase := p))
    }

    function WithRow(row: Row): View {
      this.(rec := rec.(row := row))
    }

    function Logging(es: seq<Event>): View {
      this.(rec := rec.(log := rec.log + es))
    }

    /** Replaces the launch in flight, which is the last attempt. */
    function Resolve(run: RunRow, fate: Fate): View {
      if rec.attempts == [] then this
      else
        var n := |rec.attempts| - 1;
        this.(rec := rec.(attempts := rec.attempts[..n] + [rec.attempts[n].(run := run, fate := fate)]))
    }
  }

  // ---- Row operations, shared with the queue store ----

  predicate Claimable(row: Row, now: int) {
    row.status.Queued? && (row.owner.None? || (row.lease.Some? && row.lease.value < now))
  }

  function ClaimedRow(row: Row, w: WorkerId, lease: int): Row {
    row.(status := Dispatched, owner := Some(w), lease := Some(lease))
  }

  function ReleasedRow(row: Row, status: Status, role: Role, attempts: nat): Row {
    row.(status := status, role := role, owner := None, lease := None, attempts := attempts)
  }

  /** The worker's release after its handler threw. */
  function RequeuedRow(row: Row): Row {
    row.(status := Queued, owner := None, lease := None)
  }

  function FreshRec(order: WorkOrder, now: int, log: seq<Event>): TaskRec {
    TaskRec(Row(Queued, Implementer, None, None, 0, now, order, None, None), None, log, [], 0, 0, 0)
  }

  // ---- Environment choices ----

  datatype Choice =
    | Go
    | Abort
    | Fault(signalled: bool)
    | Observe(metrics: map<AgentId, Metrics>)
    | Launch(newRun: RunId)
    | Create(ok: bool)
    | Happen(env: Env)
    | Elapse(wallMs: real)

  // ---- Pure pieces of the handler ----

  function HealthOf(health: map<AgentId, Health>, a: AgentId): Health {
    if a in health then health[a] else Healthy
  }

  function ListEntry(p: Profile, metrics: map<AgentId, Metrics>, health: map<AgentId, Health>): AgentEntry {
    AgentEntry(p, if p.id in metrics then metrics[p.id] else Metrics(p.initialSuccess, p.initialLatency, 0),
               HealthOf(health, p.id))
  }

  function ListingOf(profiles: seq<Profile>, metrics: map<AgentId, Metrics>, health: map<AgentId, Health>): seq<AgentEntry> {
    Map((p: Profile) => ListEntry(p, metrics, health), profiles)
  }

  function Listing(cfg: Config, metrics: map<AgentId, Metrics>, health: map<AgentId, Health>): seq<AgentEntry> {
    ListingOf(cfg.profiles, metrics, health)
  }

  function CostOf(profiles: seq<Profile>, a: AgentId): real {
    if profiles == [] then 0.0
    else if profiles[0].id == a then profiles[0].EstimatedCost()
    else CostOf(profiles[1..], a)
  }

  function HandoffReasonFor(r: FailReason): Option<HandoffReason> {
    match r
    case VerificationFailed => Some(HVerificationFailed)
    case AgentNonzeroExit => Some(HAgentNonzeroExit)
    case AgentTimedOut => Some(HAgentTimedOut)
    case ProviderQuotaExhausted | ProviderRateLimited | ProviderAuthFailed => Some(HQuotaExhausted)
    case _ => None
  }

  /** The failure reason passed to the registry, or nothing when the outcome is not recorded or succeeded. */
  function ProviderFailure(o: Outcome): Option<FailReason> {
    match o
    case ImplementerFailed(_, r, _, _) => if r.InternalError? then None else Some(r)
    case ReviewerFailed(_, r, _) =>
      if r.DiffApplyFailed? || r.InternalError? || r.ReviewerUnusable? then None else Some(r)
    case _ => None
  }

  function WorseHealth(h: Health, r: FailReason): Health {
    match r
    case ProviderRateLimited => if h.Healthy? then Low else h
    case ProviderQuotaExhausted | ProviderAuthFailed => Depleted
    case _ => h
  }

  function AlarmKind(h: Health): Kind {
    if h.Low? then QuotaLow else QuotaExhaustedAlarm
  }

  function Request0(job: Job, b: Budget): Request {
    Request(job.order, job.snap.role, job.order.excludes,
            if job.context.Some? then Some(job.context.value.agentId) else None, b.status)
  }

  function Fail(job: Job, attempts: nat, run: Option<RunId>): Phase {
    Releasing(job.task, Plan(Failed, job.snap.role, attempts, TaskFailed, run))
  }

  /** After a scheduler refusal only "all candidates excluded" waits for a human. */
  function RefusalPhase(job: Job, d: Decision): Phase {
    if d.refusal == Some(AllCandidatesExcluded) then
      Releasing(job.task, Plan(AwaitingHuman, job.snap.role, job.snap.attempts, TaskAwaitingHuman, None))
    else Fail(job, job.snap.attempts, None)
  }

  function ContextOf(o: Outcome, a: AgentId): ReviewContext
    requires o.ImplementerSucceeded?
  {
    ReviewContext(o.run, a, o.diff, o.finalReport, o.verification)
  }

  function FailurePacket(job: Job, a: AgentId, o: Outcome, reason: HandoffReason): Packet
    requires o.ImplementerFailed?
  {
    Packet(job.task, o.run, a, reason, o.diffUri, o.verificationUri, None, PacketExcludes(job.order.excludes, a))
  }

  function ReviewPacket(job: Job, ctx: ReviewContext, reason: HandoffReason, verdict: Option<Uri>): Packet {
    Packet(job.task, ctx.runId, ctx.agentId, reason, Some(ctx.diff), ctx.verification, verdict,
           PacketExcludes(job.order.excludes, ctx.agentId))
  }

  function Requeue(job: Job, role: Role, run: RunId): Plan {
    Plan(Queued, role, job.snap.attempts + 1, TaskRequeued, Some(run))
  }

  function Finish(job: Job, status: Status, kind: Kind, run: RunId): Phase {
    Releasing(job.task, Plan(status, job.snap.role, job.snap.attempts + 1, kind, Some(run)))
  }

  function Exhaust(job: Job, run: RunId): Plan {
    Plan(Failed, job.snap.role, job.snap.attempts + 1, TaskFailed, Some(run))
  }

  /** The handler's case split on the outcome, with the budget read back after the post-run charge. */
  function Settle(job: Job, a: AgentId, o: Outcome, after: Budget): Phase {
    var spent := after.status.Exhausted?;
    match o
    case ImplementerSucceeded(run, _, _, _) =>
      if !job.order.reviewEnabled then Finish(job, Accepted, TaskCompleted, run)
      else if spent then Releasing(job.task, Exhaust(job, run))
      else Contexting(job, ContextOf(o, a), Requeue(job, Reviewer, run))
    case ImplementerFailed(run, reason, _, _) =>
      var why := HandoffReasonFor(reason);
      if why.None? then Finish(job, Failed, TaskFailed, run)
      else Packaging(job, a, run, FailurePacket(job, a, o, why.value),
                     if spent then Exhaust(job, run) else Requeue(job, Implementer, run))
    case ReviewerReturned(run, verdict, uri) =>
      if job.context.None? then Fail(job, job.snap.attempts + 1, None)
      else if verdict.Approved? then Finish(job, Accepted, TaskCompleted, run)
      else if verdict.Rejected? then Finish(job, AwaitingHuman, TaskAwaitingHuman, run)
      else if spent then Releasing(job.task, Exhaust(job, run))
      else Packaging(job, a, run, ReviewPacket(job, job.context.value, HReviewChangesRequested, Some(uri)),
                     Requeue(job, Implementer, run))
    case ReviewerFailed(run, reason, _) =>
      if job.context.None? then Fail(job, job.snap.attempts + 1, None)
      else if !reason.DiffApplyFailed? then Finish(job, Failed, TaskFailed, run)
      else if spent then Releasing(job.task, Exhaust(job, run))
      else Packaging(job, a, run, ReviewPacket(job, job.context.value, HDiffApplyFailed, None),
                     Requeue(job, Implementer, run))
  }

  /** `emitTransitionEvents`: logs the alarm of a status change unless this manager already did. */
  function Transition(v: View, t: TaskId, before: BudgetStatus, after: Budget): View {
    var low, exhausted := Alarm(t, false), Alarm(t, true);
    if before == after.status then v
    else if before.Ok? && after.status.SoftWarning? then
      if low in v.worker.emitted then v
      else v.Logging([TaskAlarm(QuotaLow, t, PickAxis(after).1)]).(worker := v.worker.(emitted := v.worker.emitted + {low}))
    else if !before.Exhausted? && after.status.Exhausted? then
      if exhausted in v.worker.emitted then v
      else v.Logging([TaskAlarm(QuotaExhaustedAlarm, t, PickAxis(after).1)]).(worker := v.worker.(emitted := v.worker.emitted + {exhausted}))
    else v
  }

  function SyncEmitted(emitted: set<Alarm>, t: TaskId, s: BudgetStatus): set<Alarm> {
    emitted
    + (if s.SoftWarning? || s.Exhausted? then {Alarm(t, false)} else {})
    + (if s.Exhausted? then {Alarm(t, true)} else {})
  }

  // ---- One step of each phase ----

  /** Abort before the launch was charged. */
  function AbortEarly(v: View, t: TaskId, snap: Row): View {
    v.(rec := v.rec.(early := v.rec.early + 1)).To(Failing(t, snap))
  }

  /** Abort after the launch was charged. */
  function AbortLate(v: View, job: Job, run: RunRow): View {
    v.Resolve(run, WasAborted).To(Failing(job.task, job.snap))
  }

  function OnBegin(v: View, p: Phase, c: Choice): View
    requires p.Begin?
  {
    if c.Abort? then AbortEarly(v, p.task, p.snap)
    else
      var order := if p.task in v.worker.cache then v.worker.cache[p.task] else v.rec.row.order;
      v.(worker := v.worker.(cache := v.worker.cache[p.task := order], phase := Reading(p.task, p.snap, order)))
  }

  function OnReading(v: View, p: Phase): View
    requires p.Reading?
  {
    var reviewer := p.snap.role.Reviewer?;
    var job := Job(p.task, p.snap, p.order,
                   if reviewer then v.rec.row.context else None,
                   if reviewer then None else v.rec.row.handoff);
    if reviewer && job.context.None? then v.To(Fail(job, p.snap.attempts, None))
    else v.To(Budgeting(job))
  }

  function OnInserting(v: View, p: Phase): View
    requires p.Inserting?
  {
    v.(rec := v.rec.(budget := Some(Fresh(p.job.order.BudgetCaps())))).To(Syncing(p.job))
  }

  function OnSyncing(v: View, p: Phase): View
    requires p.Syncing?
  {
    if v.rec.budget.None? then v.To(Failing(p.job.task, p.job.snap))
    else
      v.(worker := v.worker.(emitted := SyncEmitted(v.worker.emitted, p.job.task, v.rec.budget.value.status),
                             phase := Consulting(p.job)))
  }

  function OnConsulting(v: View, p: Phase): View
    requires p.Consulting?
  {
    if v.rec.budget.None? then v.To(Failing(p.job.task, p.job.snap)) else v.To(Choosing(p.job, v.rec.budget.value))
  }

  function DecisionAt(cfg: Config, v: View, p: Phase, metrics: map<AgentId, Metrics>): Decision
    requires p.Choosing?
  {
    Decide(Request0(p.job, p.budget), Listing(cfg, metrics, v.health), cfg.rank)
  }

  function OnChoosing(cfg: Config, v: View, p: Phase, c: Choice): View
    requires p.Choosing?
  {
    if !c.Observe? then v
    else
      var d := DecisionAt(cfg, v, p, c.metrics);
      v.Logging([DispatchedEvent(p.job.task, d)]).To(
        if d.picked.Some? then Cleared(p.job, d.picked.value) else RefusalPhase(p.job, d))
  }

  function OnCleared(v: View, p: Phase, c: Choice): View
    requires p.Cleared?
  {
    if c.Abort? then AbortEarly(v, p.job.task, p.job.snap)
    else if c.Fault? && p.job.handoff.Some? then v.To(Fail(p.job, p.job.snap.attempts, None))
    else if v.rec.budget.None? then v.To(Failing(p.job.task, p.job.snap))
    else v.To(Charging(p.job, p.agent, v.rec.budget.value))
  }

  function OnCharging(v: View, p: Phase): View
    requires p.Charging?
  {
    if v.rec.budget.None? then v.To(Failing(p.job.task, p.job.snap))
    else v.To(ChargeRead(p.job, p.agent, p.before, v.rec.budget.value))
  }

  function OnChargeRead(v: View, p: Phase): View
    requires p.ChargeRead?
  {
    var after := PreLaunched(p.read);
    v.(rec := v.rec.(budget := Some(after),
                     attempts := v.rec.attempts + [Attempt(p.job.snap.role, p.agent, NoRun, InFlight)]))
     .To(Charged(p.job, p.agent, p.before, after))
  }

  function OnCharged(v: View, p: Phase): View
    requires p.Charged?
  {
    Transition(v, p.job.task, p.before.status, p.after).To(Launching(p.job, p.agent))
  }

  /** The signal is checked, a reviewer's artifacts are read, and the run row is created under a fresh id. */
  function OnLaunching(v: View, p: Phase, c: Choice): View
    requires p.Launching?
  {
    match c
    case Abort => AbortLate(v, p.job, NoRun)
    case Fault(signalled) =>
      if p.job.context.None? then v
      else if signalled then AbortLate(v, p.job, NoRun)
      else v.Resolve(NoRun, DidThrow).To(Fail(p.job, p.job.snap.attempts, None))
    case Launch(r) =>
      if r in v.used || Blank(r) then v
      else
        v.(used := v.used + {r})
         .Resolve(RunRow(r, Preparing), InFlight)
         .Logging(CreationEvents(Context(p.job.task, r, p.agent), p.job.snap.role))
         .To(Starting(p.job, p.agent, r))
    case _ => v
  }

  function OnStarting(v: View, p: Phase, c: Choice): View
    requires p.Starting?
  {
    var ctx := Context(p.job.task, p.run, p.agent);
    if !c.Create? then v
    else if c.ok then
      v.Resolve(RunRow(p.run, Running), InFlight).Logging(StartEvents(ctx)).To(Executing(p.job, p.agent, p.run))
    else
      var f := CreationFailure(ctx, p.job.snap.role);
      v.Resolve(RunRow(p.run, f.status), Done(f.result.outcome, None, p.job.context))
       .Logging(f.events).To(Finished(p.job, p.agent, f.result.outcome))
  }

  function OnExecuting(v: View, p: Phase, c: Choice): View
    requires p.Executing?
  {
    if !c.Happen? || !c.env.ForRole(p.job.snap.role) then v
    else
      var f := Execute(Context(p.job.task, p.run, p.agent), p.job.order, c.env);
      var row := RunRow(p.run, f.status);
      match f.result
      case Aborted => AbortLate(v.Logging(f.events), p.job, row)
      case Threw => v.Resolve(row, DidThrow).Logging(f.events).To(Fail(p.job, p.job.snap.attempts, None))
      case Returned(o) =>
        v.Resolve(row, Done(o, Some(c.env), p.job.context)).Logging(f.events).To(Finished(p.job, p.agent, o))
  }

  function OnFinished(v: View, p: Phase): View
    requires p.Finished?
  {
    (if p.job.handoff.Some? then v.WithRow(v.rec.row.(handoff := None)) else v)
    .To(Billing(p.job, p.agent, p.outcome))
  }

  function OnBilling(v: View, p: Phase): View
    requires p.Billing?
  {
    if v.rec.budget.None? then v.To(Failing(p.job.task, p.job.snap))
    else v.To(BillRead(p.job, p.agent, p.outcome, v.rec.budget.value))
  }

  function OnBillRead(v: View, p: Phase): View
    requires p.BillRead?
  {
    if v.rec.budget.None? then v.To(Failing(p.job.task, p.job.snap))
    else v.To(BillWrite(p.job, p.agent, p.outcome, p.before, v.rec.budget.value))
  }

  function OnBillWrite(cfg: Config, v: View, p: Phase, c: Choice): View
    requires p.BillWrite?
  {
    if !c.Elapse? then v
    else
      var wall := if c.wallMs >= 0.0 then c.wallMs else 0.0;
      var after := PostRan(p.read, wall, CostOf(cfg.profiles, p.agent));
      v.(rec := v.rec.(budget := Some(after))).To(Billed(p.job, p.agent, p.outcome, p.before, after))
  }

  function OnBilled(v: View, p: Phase): View
    requires p.Billed?
  {
    Transition(v, p.job.task, p.before.status, p.after).To(Recording(p.job, p.agent, p.outcome, p.after))
  }

  /** A provider failure worsens the agent's health in the map all workers share, and rings once. */
  function OnRecording(v: View, p: Phase): View
    requires p.Recording?
  {
    var next := v.To(Settling(p.job, p.agent, p.outcome, p.after));
    var r := ProviderFailure(p.outcome);
    if r.None? then next
    else
      var h := HealthOf(v.health, p.agent);
      var h' := WorseHealth(h, r.value);
      if h' == h then next
      else
        next.(health := v.health[p.agent := h'],
              agentAlarms := v.agentAlarms + [AgentAlarm(AlarmKind(h'), p.agent, p.outcome.run)])
  }

  function OnContexting(v: View, p: Phase): View
    requires p.Contexting?
  {
    v.WithRow(v.rec.row.(context := Some(p.setContext))).To(Releasing(p.job.task, p.plan))
  }

  function OnPackaging(v: View, p: Phase): View
    requires p.Packaging?
  {
    v.Logging([HandoffEvent(p.job.task, p.run, p.agent, p.packet.Address(), p.packet.reason)])
     .To(Excluding(p.job, p.packet, p.plan))
  }

  function OnExcluding(v: View, p: Phase): View
    requires p.Excluding?
  {
    var order := v.rec.row.order.(excludes := Merged(v.rec.row.order.excludes, p.packet.excludes));
    var v' := v.WithRow(v.rec.row.(order := order));
    v'.(worker := v.worker.(cache := v.worker.cache[p.job.task := order], phase := Addressing(p.job, p.packet, p.plan)))
  }

  function OnAddressing(v: View, p: Phase): View
    requires p.Addressing?
  {
    v.WithRow(v.rec.row.(handoff := Some(p.packet.Address()))).To(Releasing(p.job.task, p.plan))
  }

  function OnReleasing(v: View, p: Phase): View
    requires p.Releasing?
  {
    v.WithRow(ReleasedRow(v.rec.row, p.plan.status, p.plan.role, p.plan.attempts))
     .To(Reporting(p.task, TaskEvent(p.plan.kind, p.task, p.plan.run)))
  }

  function OnReporting(v: View, p: Phase): View
    requires p.Reporting?
  {
    v.Logging([p.event]).To(Idle)
  }

  function OnFailing(v: View, p: Phase): View
    requires p.Failing?
  {
    v.WithRow(RequeuedRow(v.rec.row)).To(Idle)
  }

  /** One step of a busy worker on its task; a choice that does not fit the phase changes nothing. */
  function LocalStep(cfg: Config, v: View, c: Choice): View {
    var p := v.worker.phase;
    match p
    case Idle | Halted | Selected(_, _) => v
    case Begin(_, _) => OnBegin(v, p, c)
    case Reading(_, _, _) => OnReading(v, p)
    case Budgeting(job) => v.To(if v.rec.budget.Some? then Syncing(job) else Inserting(job))
    case Inserting(_) => OnInserting(v, p)
    case Syncing(_) => OnSyncing(v, p)
    case Consulting(_) => OnConsulting(v, p)
    case Choosing(_, _) => OnChoosing(cfg, v, p, c)
    case Cleared(_, _) => OnCleared(v, p, c)
    case Charging(_, _, _) => OnCharging(v, p)
    case ChargeRead(_, _, _, _) => OnChargeRead(v, p)
    case Charged(_, _, _, _) => OnCharged(v, p)
    case Launching(_, _) => OnLaunching(v, p, c)
    case Starting(_, _, _) => OnStarting(v, p, c)
    case Executing(_, _, _) => OnExecuting(v, p, c)
    case Finished(_, _, _) => OnFinished(v, p)
    case Billing(_, _, _) => OnBilling(v, p)
    case BillRead(_, _, _, _) => OnBillRead(v, p)
    case BillWrite(_, _, _, _, _) => OnBillWrite(cfg, v, p, c)
    case Billed(_, _, _, _, _) => OnBilled(v, p)
    case Recording(_, _, _, _) => OnRecording(v, p)
    case Settling(_, _, _, _) => v.To(Settle(p.job, p.agent, p.outcome, p.after))
    case Contexting(_, _, _) => OnContexting(v, p)
    case Packaging(_, _, _, _, _) => OnPackaging(v, p)
    case Excluding(_, _, _) => OnExcluding(v, p)
    case Addressing(_, _, _) => OnAddressing(v, p)
    case Releasing(_, _) => OnReleasing(v, p)
    case Reporting(_, _) => OnReporting(v, p)
    case Failing(_, _) => OnFailing(v, p)
  }

  // ---- Actions of the whole system ----

  /** The task a phase works on, held or not. */
  function Subject(p: Phase): Option<TaskId> {
    match p
    case Idle | Halted => None
    case Selected(t, _) => Some(t)
    case Reporting(t, _) => Some(t)
    case _ => Holds(p)
  }

  datatype Action =
    | Enqueue(w: WorkerId, newTask: TaskId, order: WorkOrder, at: int)
    | Scan(w: WorkerId, task: TaskId, now: int)
    | Select(w: WorkerId, task: TaskId, now: int)
    | Update(w: WorkerId, now: int, lease: int)
    | Work(w: WorkerId, choice: Choice)
    | RequestStop(w: WorkerId)
    | Halt(w: WorkerId)

  /** `order by enqueued_at limit 1`; among equals the store may return any. */
  predicate FirstClaimable(tasks: map<TaskId, TaskRec>, t: TaskId, now: int) {
    && t in tasks && Claimable(tasks[t].row, now)
    && forall u :: u in tasks && Claimable(tasks[u].row, now) ==> tasks[t].row.enqueuedAt <= tasks[u].row.enqueuedAt
  }

  function ViewOf(s: Sys, w: WorkerId, t: TaskId): View
    requires w in s.workers && t in s.tasks
  {
    View(s.tasks[t], s.workers[w], s.health, s.agentAlarms, s.used)
  }

  function Put(s: Sys, w: WorkerId, t: TaskId, v: View): Sys {
    Sys(s.tasks[t := v.rec], s.workers[w := v.worker], v.health, v.agentAlarms, v.used)
  }

  function SetWorker(s: Sys, w: WorkerId, k: Worker): Sys {
    s.(workers := s.workers[w := k])
  }

  /** The lease computation caches the order of the row it expects to claim. */
  function OnScan(s: Sys, w: WorkerId, t: TaskId): Sys
    requires w in s.workers && t in s.tasks
  {
    var k := s.workers[w];
    if t in k.cache then s else SetWorker(s, w, k.(cache := k.cache[t := s.tasks[t].row.order]))
  }

  function OnUpdate(cfg: Config, s: Sys, w: WorkerId, now: int, lease: int): Sys
    requires w in s.workers && s.workers[w].phase.Selected? && s.workers[w].phase.task in s.tasks
  {
    var k := s.workers[w];
    var t := k.phase.task;
    var rec := s.tasks[t];
    if !Claimable(rec.row, now) || (cfg.isolated && rec.row != k.phase.snap) then SetWorker(s, w, k.(phase := Idle))
    else
      SetWorker(s.(tasks := s.tasks[t := rec.(row := ClaimedRow(rec.row, w, lease), claims := rec.claims + 1, mark := |rec.attempts|)]), w,
                k.(phase := Begin(t, k.phase.snap)))
  }

  /** The environment is free to ask for any action; one that is not enabled changes nothing. */
  ghost predicate Enabled(cfg: Config, s: Sys, a: Action) {
    match a
    case Enqueue(w, t, order, _) => w in s.workers && t !in s.tasks && order.Valid() && !Blank(t)
    case Scan(w, t, now) =>
      w in s.workers && s.workers[w].phase.Idle? && !s.workers[w].stop && FirstClaimable(s.tasks, t, now)
    case Select(w, t, now) =>
      w in s.workers && s.workers[w].phase.Idle? && !s.workers[w].stop && FirstClaimable(s.tasks, t, now)
    case Update(w, _, _) => w in s.workers && s.workers[w].phase.Selected? && s.workers[w].phase.task in s.tasks
    case Work(w, _) =>
      && w in s.workers && Subject(s.workers[w].phase).Some? && Subject(s.workers[w].phase).value in s.tasks
    case RequestStop(w) => w in s.workers
    case Halt(w) => w in s.workers && s.workers[w].phase.Idle? && s.workers[w].stop
  }

  ghost function Apply(cfg: Config, s: Sys, a: Action): Sys
    requires Enabled(cfg, s, a)
  {
    match a
    case Enqueue(w, t, order, now) =>
      var k := s.workers[w];
      SetWorker(s.(tasks := s.tasks[t := FreshRec(order, now, [Enqueued(t)])]), w, k.(cache := k.cache[t := order]))
    case Scan(w, t, _) => OnScan(s, w, t)
    case Select(w, t, _) => SetWorker(s, w, s.workers[w].(phase := Selected(t, s.tasks[t].row)))
    case Update(w, now, lease) => OnUpdate(cfg, s, w, now, lease)
    case Work(w, c) =>
      var t := Subject(s.workers[w].phase).value;
      Put(s, w, t, LocalStep(cfg, ViewOf(s, w, t), c))
    case RequestStop(w) => SetWorker(s, w, s.workers[w].(stop := true))
    case Halt(w) => SetWorker(s, w, s.workers[w].(phase := Halted))
  }

  ghost function Next(cfg: Config, s: Sys, a: Action): Sys {
    if Enabled(cfg, s, a) then Apply(cfg, s, a) else s
  }

  ghost predicate Initial(s: Sys) {
    && s.tasks == map[]
    && s.health == map[]
    && s.agentAlarms == []
    && forall w :: w in s.workers ==> s.workers[w].phase == Idle && s.workers[w].cache == map[] && s.workers[w].emitted == {}
  }

  /** The state after a sequence of actions. */
  ghost function Run(cfg: Config, s: Sys, acts: seq<Action>): Sys {
    if acts == [] then s
    else Next(cfg, Run(cfg, s, acts[..|acts| - 1]), acts[|acts| - 1])
  }
}
