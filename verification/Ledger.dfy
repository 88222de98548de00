/**
 The event log: every event the engine emits passes validation, and the task events that announce an end
 agree with the row.
 */
module Ledger {
  import opened Types
  import opened Js
  import opened Budgets
  import opened Scheduler
  import opened SchedulerLaws
  import opened Events
  import opened Runs
  import opened Handoffs
  import opened Protocol
  import opened Shape
  import opened Story
  import opened StorySteps

  /** Neither an alarm nor an announcement that a task ended. */
  predicate Routine(k: Kind) {
    !k.QuotaLow? && !k.QuotaExhaustedAlarm? && !k.TaskCompleted? && !k.TaskFailed? && !k.TaskAwaitingHuman?
  }

  predicate Fine(e: Event) {
    Accepts(e) && Routine(e.kind)
  }

  predicate AllFine(es: seq<Event>) {
    forall i :: 0 <= i < |es| ==> Fine(es[i])
  }

  // ---- The events of one run ----

  predicate NamedContext(c: Context) {
    !Blank(c.task) && !Blank(c.run) && !Blank(c.agent)
  }

  lemma RunEventFine(c: Context, k: Kind)
    requires NamedContext(c)
    requires k.ArtifactPublished? || k.VerificationStarted? || k.VerificationPassed? || k.VerificationDidFail?
             || k.RunCompleted? || k.ReviewRequested? || k.RunCreated? || k.RunStarted?
    ensures Fine(c.Happened(k))
  {
    hide Blank;
  }

  lemma PublishedFine(c: Context, n: nat)
    requires NamedContext(c)
    ensures AllFine(c.Published(n))
  {
    hide Blank;
    RunEventFine(c, ArtifactPublished);
  }

  lemma SpawnedFine(c: Context)
    requires NamedContext(c)
    ensures Fine(Spawned(c.task, c.run, c.agent))
  {
    Visible("unknown");
    hide Blank;
  }

  lemma FailureFine(c: Context, r: FailReason)
    requires NamedContext(c) && RunFailedReason(r)
    ensures Fine(RunFailure(c.task, c.run, c.agent, r))
  {
    hide Blank;
  }

  lemma EdgeFine(c: Context, source: string, target: string, reason: string)
    requires NamedContext(c) && source != "" && target != "" && reason != ""
    requires !IsSpace(source[0]) && !IsSpace(target[0]) && !IsSpace(reason[0])
    ensures Fine(EdgeSelected(c.task, c.run, c.agent, source, target, reason))
  {
    Visible(source);
    Visible(target);
    Visible(reason);
    hide Blank;
  }

  lemma ReviewedFine(c: Context, v: Verdict)
    requires NamedContext(c)
    ensures Fine(Reviewed(c.task, c.run, c.agent, v, c.File("review_verdict.json")))
  {
    hide Blank;
  }

  lemma FineAppend(xs: seq<Event>, ys: seq<Event>)
    requires AllFine(xs) && AllFine(ys)
    ensures AllFine(xs + ys)
  {
    hide Fine;
  }

  lemma ImplementerFailsFine(c: Context, es: seq<Event>, r: FailReason, d: Option<Uri>, x: Option<Uri>)
    requires NamedContext(c) && AllFine(es) && RunFailedReason(r)
    ensures AllFine(ImplementerFails(c, es, r, d, x).events)
  {
    hide Fine;
    FailureFine(c, r);
  }

  lemma ImplementerSucceedsFine(c: Context, o: WorkOrder, env: ImplementerEnv, es: seq<Event>, x: Option<Uri>)
    requires NamedContext(c) && AllFine(es)
    ensures AllFine(ImplementerSucceeds(c, o, env, es, x).events)
  {
    hide Fine, NamedContext;
    RunEventFine(c, RunCompleted);
    EdgeFine(c, "verifying", "reviewing", "review_required");
    EdgeFine(c, "verifying", "accepted", "review_disabled");
  }

  lemma AfterAgentFine(c: Context, o: WorkOrder, env: ImplementerEnv, es: seq<Event>, failure: Option<FailReason>)
    requires NamedContext(c) && AllFine(es) && (failure.Some? ==> RunFailedReason(failure.value))
    ensures AllFine(AfterAgent(c, o, env, es, failure).events)
  {
    hide Fine, NamedContext;
    var diff := Some(c.File("diff.patch"));
    var started := es + [c.Happened(VerificationStarted)];
    RunEventFine(c, VerificationStarted);
    RunEventFine(c, VerificationPassed);
    RunEventFine(c, VerificationDidFail);
    PublishedFine(c, 1);
    if failure.Some? {
      ImplementerFailsFine(c, es, failure.value, diff, None);
    } else if o.commands == [] {
      ImplementerSucceedsFine(c, o, env, es, None);
    } else {
      var output := Some(c.File("verification.txt"));
      ImplementerFailsFine(c, started, InternalError, diff, None);
      ImplementerSucceedsFine(c, o, env, started + c.Published(1) + [c.Happened(VerificationPassed)], output);
      ImplementerFailsFine(c, started + c.Published(1) + [c.Happened(VerificationDidFail)], VerificationFailed, diff, output);
    }
  }

  lemma ImplementerFine(c: Context, o: WorkOrder, env: ImplementerEnv)
    requires NamedContext(c)
    ensures AllFine(RunImplementer(c, o, env).events)
  {
    hide Fine, NamedContext;
    var spawned := [Spawned(c.task, c.run, c.agent)];
    SpawnedFine(c);
    ImplementerFailsFine(c, [], InternalError, None, None);
    ImplementerFailsFine(c, spawned, SpawnFailed, None, None);
    if env.cli.Exited? {
      var n := AgentSaves(env.hasReport);
      PublishedFine(c, n);
      FineAppend(spawned, c.Published(n));
      AfterAgentFine(c, o, env, spawned + c.Published(n), Classify(env.cli));
      if env.failAt.Some? && env.failAt.value < n {
        PublishedFine(c, env.failAt.value);
        FineAppend(spawned, c.Published(env.failAt.value));
        ImplementerFailsFine(c, spawned + c.Published(env.failAt.value), InternalError,
                             if env.failAt.value >= 3 then Some(c.File("diff.patch")) else None, None);
      }
    }
  }

  lemma ReviewerFailsFine(c: Context, es: seq<Event>, recorded: FailReason, returned: FailReason, x: Option<Uri>)
    requires NamedContext(c) && AllFine(es) && RunFailedReason(recorded)
    ensures AllFine(ReviewerFails(c, es, recorded, returned, x).events)
  {
    hide Fine;
    FailureFine(c, recorded);
  }

  lemma AfterReviewFine(c: Context, env: ReviewerEnv, es: seq<Event>, failure: Option<FailReason>)
    requires NamedContext(c) && AllFine(es) && (failure.Some? ==> RunFailedReason(failure.value))
    ensures AllFine(AfterReview(c, env, es, failure).events)
  {
    hide Fine, NamedContext;
    PublishedFine(c, 1);
    PublishedFine(c, 2);
    if failure.Some? {
      ReviewerFailsFine(c, es, failure.value, failure.value, None);
    } else if env.failAt == Some(4) {
      ReviewerFailsFine(c, es, InternalError, InternalError, None);
    } else if env.reading.Unusable? {
      ReviewerFailsFine(c, es + c.Published(1), InternalError, InternalError, None);
      ReviewerFailsFine(c, es + c.Published(if env.reading.rawText then 2 else 1), InternalError, ReviewerUnusable,
                        Some(c.File("review_verdict.json")));
    } else {
      var v := env.reading.verdict;
      RunEventFine(c, RunCompleted);
      ReviewedFine(c, v);
      EdgeFine(c, "reviewing", EdgeTarget(v), EdgeReason(v));
    }
  }

  lemma ReviewerFine(c: Context, env: ReviewerEnv)
    requires NamedContext(c)
    ensures AllFine(RunReviewer(c, env).events)
  {
    hide Fine, NamedContext;
    if env.failAt.Some? {
      PublishedFine(c, env.failAt.value);
      ReviewerFailsFine(c, c.Published(env.failAt.value), InternalError, InternalError, None);
    }
    PublishedFine(c, 3);
    PublishedFine(c, 2);
    ReviewerFailsFine(c, c.Published(3), DiffApplyFailed, DiffApplyFailed, None);
    EdgeFine(c, "reviewing", "requeued", "diff_apply_failed");
    ReviewerFailsFine(c, [], InternalError, InternalError, None);
    var spawned := c.Published(2) + [c.Happened(ReviewRequested), Spawned(c.task, c.run, c.agent)];
    RunEventFine(c, ReviewRequested);
    SpawnedFine(c);
    ReviewerFailsFine(c, spawned, SpawnFailed, SpawnFailed, None);
    if env.failAt.Some? && env.failAt.value >= 2 {
      PublishedFine(c, env.failAt.value - 2);
      FineAppend(spawned, c.Published(env.failAt.value - 2));
      ReviewerFailsFine(c, spawned + c.Published(env.failAt.value - 2), InternalError, InternalError, None);
    }
    if env.cli.Exited? {
      FineAppend(spawned, c.Published(2));
      AfterReviewFine(c, env, spawned + c.Published(2), Classify(env.cli));
    }
  }

  /** Every event of a run, whatever the environment does, is one the log accepts. */
  lemma RunEventsFine(c: Context, o: WorkOrder, env: Env)
    requires NamedContext(c)
    ensures AllFine(Execute(c, o, env).events)
  {
    hide AllFine, NamedContext;
    if env.ForImplementer? {
      ImplementerFine(c, o, env.implementer);
    } else {
      ReviewerFine(c, env.reviewer);
    }
  }

  lemma CreationFine(c: Context, role: Role)
    requires NamedContext(c)
    ensures AllFine(CreationEvents(c, role)) && AllFine(StartEvents(c)) && AllFine(CreationFailure(c, role).events)
  {
    hide Blank;
    RunEventFine(c, RunCreated);
    RunEventFine(c, ArtifactPublished);
    RunEventFine(c, RunStarted);
    FailureFine(c, InternalError);
  }

  // ---- The events of one step ----

  /** The event that announces a status written by a release. */
  function KindFor(s: Status): Kind {
    match s
    case Accepted => TaskCompleted
    case Failed => TaskFailed
    case AwaitingHuman => TaskAwaitingHuman
    case _ => TaskRequeued
  }

  /** The agent and run ids a phase carries are visible, and its plan announces the status it will write. */
  predicate Named(p: Phase) {
    && (Chosen(p) || Open(p) || AfterRun(p) || p.Packaging? ==> !Blank(p.agent))
    && (p.Starting? || p.Executing? || p.Packaging? ==> !Blank(p.run))
    && (AfterRun(p) ==> !Blank(p.outcome.run))
    && (HasPlan(p) ==> p.plan.kind == KindFor(p.plan.status))
  }

  /** Accepted alarms of a task's budget. */
  predicate AllAlarms(es: seq<Event>) {
    forall i :: 0 <= i < |es| ==> Accepts(es[i]) && (es[i].kind.QuotaLow? || es[i].kind.QuotaExhaustedAlarm?)
  }

  lemma TaskAlarmAccepted(k: Kind, t: TaskId, ratio: real)
    requires !Blank(t) && (k.QuotaLow? || k.QuotaExhaustedAlarm?)
    ensures Accepts(TaskAlarm(k, t, ratio)) && TaskAlarm(k, t, ratio).kind == k
  {
    hide Blank;
  }

  /** What a holder's step appends to its task's log. */
  predicate LogMoves(t: TaskId, v: View, v': View) {
    var p, p' := v.worker.phase, v'.worker.phase;
    && v.rec.log <= v'.rec.log
    && (if p.Charged? || p.Billed? then AllAlarms(v'.rec.log[|v.rec.log|..]) else AllFine(v'.rec.log[|v.rec.log|..]))
    && (p'.Reporting? ==> p.Releasing? && p' == Reporting(t, TaskEvent(p.plan.kind, t, p.plan.run)))
    && (p.Releasing? ==> p'.Reporting? && v'.rec.log == v.rec.log)
    && Named(p')
  }

  predicate Named0(t: TaskId, v: View, p: Phase) {
    p == v.worker.phase && Holds(p) == Some(t) && !Blank(t) && Named(p)
  }

  lemma Appended(log: seq<Event>, es: seq<Event>)
    ensures log <= log + es && (log + es)[|log|..] == es
  {
  }

  lemma Appending(t: TaskId, v: View, v': View, es: seq<Event>)
    requires v'.rec.log == v.rec.log + es && AllFine(es) && Named(v'.worker.phase)
    requires var p := v.worker.phase; !p.Charged? && !p.Billed? && !p.Releasing? && !v'.worker.phase.Reporting?
    ensures LogMoves(t, v, v')
  {
    hide Named, Fine;
    Appended(v.rec.log, es);
  }

  /** Phases that carry no agent, and the plan of a failed task, name what they must. */
  lemma NamedPlain(p: Phase)
    requires p.Reading? || p.Budgeting? || p.Failing? || (p.Releasing? && p.plan.status.Failed? && p.plan.kind.TaskFailed?)
    ensures Named(p)
  {
    hide Blank;
  }

  lemma LogRead(cfg: Config, t: TaskId, v: View, p: Phase, c: Choice)
    requires Named0(t, v, p)
    requires p.Begin? || p.Reading?
    ensures LogMoves(t, v, LocalStep(cfg, v, c))
  {
    hide Named, OnInserting, OnSyncing, OnConsulting, LogMoves, AllAlarms, Blank, Fine, Fresh, SyncEmitted, Settle, OnChoosing, OnExecuting, OnStarting, OnLaunching,
         Transition, OnCleared, OnCharging, OnChargeRead, OnCharged, OnFinished, OnBilling, OnBillRead, OnBillWrite,
         OnBilled, OnRecording, OnContexting, OnPackaging, OnExcluding, OnAddressing, OnReleasing, OnReporting,
         OnFailing;
    NamedPlain(LocalStep(cfg, v, c).worker.phase);
    Appending(t, v, LocalStep(cfg, v, c), []);
  }

  lemma LogBudget(cfg: Config, t: TaskId, v: View, p: Phase, c: Choice)
    requires Named0(t, v, p)
    requires p.Budgeting? || p.Inserting? || p.Syncing? || p.Consulting?
    ensures LogMoves(t, v, LocalStep(cfg, v, c))
  {
    hide OnBegin, OnReading, LogMoves, AllAlarms, Blank, Fine, Fresh, SyncEmitted, Settle, OnChoosing, OnExecuting, OnStarting, OnLaunching,
         Transition, OnCleared, OnCharging, OnChargeRead, OnCharged, OnFinished, OnBilling, OnBillRead, OnBillWrite,
         OnBilled, OnRecording, OnContexting, OnPackaging, OnExcluding, OnAddressing, OnReleasing, OnReporting,
         OnFailing;
    Appending(t, v, LocalStep(cfg, v, c), []);
  }

  lemma RefusalNamed(job: Job, d: Decision)
    ensures var p := RefusalPhase(job, d);
            p.Releasing? && p.task == job.task && p.plan.kind == KindFor(p.plan.status)
  {
  }

  lemma LogChoose(cfg: Config, t: TaskId, v: View, p: Phase, c: Choice)
    requires ValidConfig(cfg) && Named0(t, v, p) && p.Choosing?
    ensures LogMoves(t, v, OnChoosing(cfg, v, p, c))
  {
    hide Blank, Fine, DecisionAt, DispatchedEvent, ValidConfig, RefusalPhase, AllAlarms;
    RefusalNamed(p.job, DecisionAt(cfg, v, p, if c.Observe? then c.metrics else map[]));
    if c.Observe? {
      DecisionFine(cfg, t, v, p, c.metrics);
      Appended(v.rec.log, [DispatchedEvent(t, DecisionAt(cfg, v, p, c.metrics))]);
    }
  }

  /** The scheduler always yields a pick or a reason, so its dispatch event is accepted. */
  lemma DecisionFine(cfg: Config, t: TaskId, v: View, p: Phase, metrics: map<AgentId, Metrics>)
    requires ValidConfig(cfg) && !Blank(t) && p.Choosing?
    ensures var d := DecisionAt(cfg, v, p, metrics);
            Fine(DispatchedEvent(t, d)) && (d.picked.Some? ==> !Blank(d.picked.value))
  {
    hide Blank, Accepts, Decide, Listing, DecisionAt, DispatchedEvent, Request0, ValidConfig, RefusalFor, IsEligible, HealthOf;
    var d := DecisionAt(cfg, v, p, metrics);
    PickOrRefusal(Request0(p.job, p.budget), Listing(cfg, metrics, v.health), cfg.rank);
    DecisionIsDecide(cfg, v, p, metrics);
    if d.picked.Some? {
      ChosenAgent(cfg, v, p, metrics);
    }
    DispatchAccepted(t, d);
    DispatchKind(t, d);
  }

  lemma DecisionIsDecide(cfg: Config, v: View, p: Phase, metrics: map<AgentId, Metrics>)
    requires p.Choosing?
    ensures DecisionAt(cfg, v, p, metrics) == Decide(Request0(p.job, p.budget), Listing(cfg, metrics, v.health), cfg.rank)
  {
    hide Decide, Listing;
  }

  lemma DispatchKind(t: TaskId, d: Decision)
    ensures DispatchedEvent(t, d).kind == TaskDispatched
  {
  }

  lemma LogCleared(cfg: Config, t: TaskId, v: View, p: Phase, c: Choice)
    requires Named0(t, v, p)
    requires p.Cleared?
    ensures LogMoves(t, v, LocalStep(cfg, v, c))
  {
    hide OnCharging, OnChargeRead, LogMoves, AllAlarms, Blank, Fine, PreLaunched, Settle, OnChoosing, OnExecuting, OnStarting, OnLaunching, Transition,
         OnBegin, OnReading, OnInserting, OnSyncing, OnConsulting, OnCharged, OnFinished, OnBilling, OnBillRead,
         OnBillWrite, OnBilled, OnRecording, OnContexting, OnPackaging, OnExcluding, OnAddressing, OnReleasing,
         OnReporting, OnFailing, SyncEmitted, DecisionAt;
    Appending(t, v, LocalStep(cfg, v, c), []);
  }

  lemma LogCharge(cfg: Config, t: TaskId, v: View, p: Phase, c: Choice)
    requires Named0(t, v, p)
    requires p.Charging? || p.ChargeRead?
    ensures LogMoves(t, v, LocalStep(cfg, v, c))
  {
    hide OnCleared, LogMoves, AllAlarms, Blank, Fine, PreLaunched, Settle, OnChoosing, OnExecuting, OnStarting, OnLaunching, Transition,
         OnBegin, OnReading, OnInserting, OnSyncing, OnConsulting, OnCharged, OnFinished, OnBilling, OnBillRead,
         OnBillWrite, OnBilled, OnRecording, OnContexting, OnPackaging, OnExcluding, OnAddressing, OnReleasing,
         OnReporting, OnFailing, SyncEmitted, DecisionAt;
    Appending(t, v, LocalStep(cfg, v, c), []);
  }

  lemma LogTransition(cfg: Config, t: TaskId, v: View, p: Phase, c: Choice)
    requires Named0(t, v, p) && (p.Charged? || p.Billed?)
    ensures LogMoves(t, v, LocalStep(cfg, v, c))
  {
    hide Blank, Accepts, PickAxis, TaskAlarm, OnBegin, OnReading, OnInserting, OnSyncing, OnConsulting, OnChoosing,
         OnCleared, OnCharging, OnChargeRead, OnLaunching, OnStarting, OnExecuting, OnFinished, OnBilling, OnBillRead,
         OnBillWrite, OnRecording, Settle, OnContexting, OnPackaging, OnExcluding, OnAddressing, OnReleasing,
         OnReporting, OnFailing;
    TaskAlarmAccepted(QuotaLow, t, PickAxis(p.after).1);
    TaskAlarmAccepted(QuotaExhaustedAlarm, t, PickAxis(p.after).1);
  }

  lemma LogLaunch(t: TaskId, v: View, p: Phase, c: Choice)
    requires Named0(t, v, p) && p.Launching?
    ensures LogMoves(t, v, OnLaunching(v, p, c))
  {
    hide AllAlarms, Blank, Fine, CreationEvents, StartEvents, CacheOk;
    hide LogMoves;
    var v' := OnLaunching(v, p, c);
    if v'.worker.phase.Starting? {
      var ctx := Context(p.job.task, c.newRun, p.agent);
      CreationFine(ctx, p.job.snap.role);
      Appending(t, v, v', CreationEvents(ctx, p.job.snap.role));
    } else {
      Appending(t, v, v', []);
    }
  }

  lemma LogStart(t: TaskId, v: View, p: Phase, c: Choice)
    requires Named0(t, v, p) && p.Starting?
    ensures LogMoves(t, v, OnStarting(v, p, c))
  {
    hide AllAlarms, Blank, Fine, CreationEvents, StartEvents;
    var ctx := Context(p.job.task, p.run, p.agent);
    CreationFine(ctx, p.job.snap.role);
    Appended(v.rec.log, StartEvents(ctx));
    Appended(v.rec.log, CreationFailure(ctx, p.job.snap.role).events);
  }

  lemma ExecutedFine(c: Context, o: WorkOrder, env: Env)
    requires !Blank(c.task) && !Blank(c.run) && !Blank(c.agent)
    ensures AllFine(Execute(c, o, env).events)
  {
    hide Blank, AllFine, Execute;
    RunEventsFine(c, o, env);
  }

  lemma NothingFine()
    ensures AllFine([])
  {
  }

  lemma ExecutingNamed(t: TaskId, v: View, p: Phase, c: Choice)
    requires Named0(t, v, p) && p.Executing?
    ensures var v' := OnExecuting(v, p, c); var p' := v'.worker.phase;
            && Named(p') && !p'.Reporting?
            && v'.rec.log == v.rec.log + (if c.Happen? && c.env.ForRole(p.job.snap.role)
                                          then Execute(Context(p.job.task, p.run, p.agent), p.job.order, c.env).events else [])
  {
    hide Blank, Execute;
    if c.Happen? && c.env.ForRole(p.job.snap.role) {
      OutcomeFitsRole(Context(p.job.task, p.run, p.agent), p.job.order, c.env, p.job.snap.role);
    }
  }

  lemma LogExecute(t: TaskId, v: View, p: Phase, c: Choice)
    requires Named0(t, v, p) && p.Executing?
    ensures LogMoves(t, v, OnExecuting(v, p, c))
  {
    hide LogMoves, AllAlarms, Blank, Execute, OnExecuting, AllFine;
    var v' := OnExecuting(v, p, c);
    ExecutingNamed(t, v, p, c);
    if c.Happen? && c.env.ForRole(p.job.snap.role) {
      var ctx := Context(p.job.task, p.run, p.agent);
      ExecutedFine(ctx, p.job.order, c.env);
      Appending(t, v, v', Execute(ctx, p.job.order, c.env).events);
    } else {
      assert AllFine([]) by {
        NothingFine();
      }
      Appending(t, v, v', []);
    }
  }

  lemma LogBill(cfg: Config, t: TaskId, v: View, p: Phase, c: Choice)
    requires Named0(t, v, p)
    requires p.Finished? || p.Billing? || p.BillRead? || p.BillWrite? || p.Recording?
    ensures LogMoves(t, v, LocalStep(cfg, v, c))
  {
    hide AllAlarms, Blank, Fine, PostRan, CostOf, WorseHealth, HealthOf, AgentAlarm, OnBegin, OnReading, OnInserting,
         OnSyncing, OnConsulting, OnChoosing, OnCleared, OnCharging, OnChargeRead, OnCharged, OnLaunching, OnStarting,
         OnExecuting, OnBilled, Settle, OnContexting, OnPackaging, OnExcluding, OnAddressing, OnReleasing, OnReporting,
         OnFailing;
  }

  lemma LogSettle(cfg: Config, t: TaskId, v: View, p: Phase, c: Choice)
    requires Named0(t, v, p) && p.Settling?
    ensures LogMoves(t, v, LocalStep(cfg, v, c))
  {
    hide LogMoves, AllAlarms, Blank, Fine, PacketExcludes, OnChoosing, OnExecuting, OnStarting, OnLaunching, Transition,
         OnBegin, OnReading, OnInserting, OnSyncing, OnConsulting, OnCleared, OnCharging, OnChargeRead, OnCharged,
         OnFinished, OnBilling, OnBillRead, OnBillWrite, OnBilled, OnRecording, OnContexting, OnPackaging, OnExcluding,
         OnAddressing, OnReleasing, OnReporting, OnFailing;
    Appending(t, v, LocalStep(cfg, v, c), []);
  }

  lemma HandoffFine(p: Phase)
    requires p.Packaging? && !Blank(p.job.task) && !Blank(p.run)
    ensures Fine(HandoffEvent(p.job.task, p.run, p.agent, p.packet.Address(), p.packet.reason))
  {
    hide Blank;
  }

  lemma LogClose(cfg: Config, t: TaskId, v: View, p: Phase, c: Choice)
    requires Named0(t, v, p) && (HasPlan(p) || p.Failing?)
    ensures LogMoves(t, v, LocalStep(cfg, v, c))
  {
    hide AllAlarms, Blank, Fine, Merged, Settle, OnChoosing, OnExecuting, OnStarting, OnLaunching, Transition, OnBegin,
         OnReading, OnInserting, OnSyncing, OnConsulting, OnCleared, OnCharging, OnChargeRead, OnCharged, OnFinished,
         OnBilling, OnBillRead, OnBillWrite, OnBilled, OnRecording, OnReporting;
    if p.Packaging? {
      HandoffFine(p);
      Appended(v.rec.log, [HandoffEvent(p.job.task, p.run, p.agent, p.packet.Address(), p.packet.reason)]);
    }
  }

  /** A holder only appends routine events to its task's log, apart from the alarm of a budget transition. */
  lemma LogStep(cfg: Config, t: TaskId, v: View, c: Choice)
    requires ValidConfig(cfg) && Named0(t, v, v.worker.phase)
    ensures LogMoves(t, v, LocalStep(cfg, v, c))
  {
    hide LogMoves, Named, Blank, OnBegin, OnReading, OnInserting, OnSyncing, OnConsulting, OnChoosing, OnCleared,
         OnCharging, OnChargeRead, OnCharged, OnLaunching, OnStarting, OnExecuting, OnFinished, OnBilling, OnBillRead,
         OnBillWrite, OnBilled, OnRecording, Settle, OnContexting, OnPackaging, OnExcluding, OnAddressing,
         OnReleasing, OnFailing;
    var p := v.worker.phase;
    match p
    case Begin(_, _) | Reading(_, _, _) => LogRead(cfg, t, v, p, c);
    case Budgeting(_) | Inserting(_) | Syncing(_) | Consulting(_) => LogBudget(cfg, t, v, p, c);
    case Choosing(_, _) => LogChoose(cfg, t, v, p, c);
    case Cleared(_, _) => LogCleared(cfg, t, v, p, c);
    case Charging(_, _, _) | ChargeRead(_, _, _, _) => LogCharge(cfg, t, v, p, c);
    case Charged(_, _, _, _) | Billed(_, _, _, _, _) => LogTransition(cfg, t, v, p, c);
    case Launching(_, _) => LogLaunch(t, v, p, c);
    case Starting(_, _, _) => LogStart(t, v, p, c);
    case Executing(_, _, _) => LogExecute(t, v, p, c);
    case Finished(_, _, _) | Billing(_, _, _) | BillRead(_, _, _, _) | BillWrite(_, _, _, _, _) | Recording(_, _, _, _) =>
      LogBill(cfg, t, v, p, c);
    case Settling(_, _, _, _) => LogSettle(cfg, t, v, p, c);
    case _ => LogClose(cfg, t, v, p, c);
  }
}
