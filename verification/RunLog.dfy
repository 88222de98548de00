/** The run events of a task's log: every launch has the endings that its run row has, and there are no others. */
module RunLog {
  import opened Types
  import opened Js
  import opened Budgets
  import opened Handoffs
  import opened Events
  import opened Runs
  import opened Protocol
  import opened Shape
  import opened System
  import opened Story
  import opened Ledger
  import opened Counts
  import opened Announcements

  /** Number of events of this kind that name the run. */
  function Ended(log: seq<Event>, k: Kind, r: RunId): nat {
    if log == [] then 0
    else Ended(log[..|log| - 1], k, r) + if log[|log| - 1].kind == k && log[|log| - 1].run == Some(r) then 1 else 0
  }

  /** The status of the run under this id, if a launch on record has it. */
  function StatusOf(attempts: seq<Attempt>, r: RunId): Option<RunStatus> {
    if attempts == [] then None
    else if Last(attempts).run.RunRow? && Last(attempts).run.id == r then Some(Last(attempts).run.status)
    else StatusOf(Front(attempts), r)
  }

  predicate TellsOf(attempts: seq<Attempt>, log: seq<Event>, r: RunId) {
    && Ended(log, RunCompleted, r) == (if StatusOf(attempts, r) == Some(RunSucceeded) then 1 else 0)
    && Ended(log, RunDidFail, r) == (if StatusOf(attempts, r) == Some(RunFailed) then 1 else 0)
  }

  ghost predicate Tells(attempts: seq<Attempt>, log: seq<Event>) {
    forall r: RunId :: TellsOf(attempts, log, r)
  }

  ghost predicate AllTell(s: Sys) {
    forall t :: t in s.tasks ==> Tells(s.tasks[t].attempts, s.tasks[t].log)
  }

  // ---- Counting ----

  lemma {:induction false} EndedAppend(xs: seq<Event>, ys: seq<Event>, k: Kind, r: RunId)
    ensures Ended(xs + ys, k, r) == Ended(xs, k, r) + Ended(ys, k, r)
  {
    if ys == [] {
      assert xs + ys == xs;
    } else {
      var n := |ys| - 1;
      EndedAppend(xs, ys[..n], k, r);
      assert (xs + ys)[..|xs| + n] == xs + ys[..n];
      assert (xs + ys)[|xs| + n] == ys[n];
    }
  }

  lemma {:induction false} QuietEnds(es: seq<Event>, r: RunId)
    requires Quiet(es)
    ensures Ended(es, RunCompleted, r) == 0 && Ended(es, RunDidFail, r) == 0
  {
    if es != [] {
      QuietEnds(es[..|es| - 1], r);
    }
  }

  /** Every event names this run. */
  predicate OfRun(es: seq<Event>, r: RunId) {
    forall i :: 0 <= i < |es| ==> es[i].run == Some(r)
  }

  lemma {:induction false} OwnEnds(es: seq<Event>, own: RunId, k: Kind, r: RunId)
    requires OfRun(es, own)
    ensures Ended(es, k, r) == if r == own then Endings(es, k) else 0
  {
    if es != [] {
      OwnEnds(es[..|es| - 1], own, k, r);
    }
  }

  // ---- The events of one run ----

  lemma AfterAgentOwn(c: Context, o: WorkOrder, env: ImplementerEnv, es: seq<Event>, failure: Option<FailReason>)
    requires OfRun(es, c.run)
    ensures OfRun(AfterAgent(c, o, env, es, failure).events, c.run)
  {
  }

  lemma ImplementerOwn(c: Context, o: WorkOrder, env: ImplementerEnv)
    ensures OfRun(RunImplementer(c, o, env).events, c.run)
  {
    hide AfterAgent;
    if env.cli.Exited? {
      AfterAgentOwn(c, o, env, [Spawned(c.task, c.run, c.agent)] + c.Published(AgentSaves(env.hasReport)), Classify(env.cli));
    }
  }

  lemma AfterReviewOwn(c: Context, env: ReviewerEnv, es: seq<Event>, failure: Option<FailReason>)
    requires OfRun(es, c.run)
    ensures OfRun(AfterReview(c, env, es, failure).events, c.run)
  {
  }

  lemma ReviewerOwn(c: Context, env: ReviewerEnv)
    ensures OfRun(RunReviewer(c, env).events, c.run)
  {
    hide AfterReview;
    if env.cli.Exited? {
      var spawned := c.Published(2) + [c.Happened(ReviewRequested), Spawned(c.task, c.run, c.agent)];
      AfterReviewOwn(c, env, spawned + c.Published(2), Classify(env.cli));
    }
  }

  lemma ExecutedOwn(c: Context, o: WorkOrder, env: Env)
    ensures OfRun(Execute(c, o, env).events, c.run)
  {
    hide RunImplementer, RunReviewer;
    match env
    case ForImplementer(e) => ImplementerOwn(c, o, e);
    case ForReviewer(e) => ReviewerOwn(c, e);
  }

  // ---- Steps ----

  lemma TellsQuietly(attempts: seq<Attempt>, log: seq<Event>, es: seq<Event>)
    requires Tells(attempts, log) && Quiet(es)
    ensures Tells(attempts, log + es)
  {
    forall r: RunId ensures TellsOf(attempts, log + es, r) {
      assert TellsOf(attempts, log, r);
      QuietEnds(es, r);
      EndedAppend(log, es, RunCompleted, r);
      EndedAppend(log, es, RunDidFail, r);
    }
  }

  lemma StatusAppend(front: seq<Attempt>, a: Attempt, r: RunId)
    ensures StatusOf(front + [a], r) == if a.run.RunRow? && a.run.id == r then Some(a.run.status) else StatusOf(front, r)
  {
    assert Front(front + [a]) == front;
  }

  /** A launch without a run row yet. */
  lemma TellsCharged(attempts: seq<Attempt>, log: seq<Event>, a: Attempt)
    requires Tells(attempts, log) && a.run.NoRun?
    ensures Tells(attempts + [a], log)
  {
    forall r: RunId ensures TellsOf(attempts + [a], log, r) {
      assert TellsOf(attempts, log, r);
      StatusAppend(attempts, a, r);
    }
  }

  /** The events that a run appends are its own, and end it as its row says. */
  predicate Closing(es: seq<Event>, run: RunRow) {
    if run.RunRow? then
      && OfRun(es, run.id)
      && Endings(es, RunCompleted) == (if run.status.RunSucceeded? then 1 else 0)
      && Endings(es, RunDidFail) == (if run.status.RunFailed? then 1 else 0)
    else es == []
  }

  /** The last launch gets its run row, or a new status in it. */
  lemma TellsResolved(attempts: seq<Attempt>, log: seq<Event>, a: Attempt, es: seq<Event>)
    requires attempts != [] && Tells(attempts, log) && Closing(es, a.run)
    requires var was := Last(attempts).run;
             if was.RunRow? then
               && a.run.RunRow? && a.run.id == was.id && !was.status.RunSucceeded? && !was.status.RunFailed?
             else a.run.RunRow? ==> StatusOf(Front(attempts), a.run.id).None?
    ensures Tells(Front(attempts) + [a], log + es)
  {
    var front := Front(attempts);
    assert attempts == front + [Last(attempts)];
    forall r: RunId ensures TellsOf(front + [a], log + es, r) {
      assert TellsOf(attempts, log, r);
      StatusAppend(front, Last(attempts), r);
      StatusAppend(front, a, r);
      EndedAppend(log, es, RunCompleted, r);
      EndedAppend(log, es, RunDidFail, r);
      if a.run.RunRow? {
        OwnEnds(es, a.run.id, RunCompleted, r);
        OwnEnds(es, a.run.id, RunDidFail, r);
      }
    }
  }

  lemma {:induction false} UnusedStatus(attempts: seq<Attempt>, used: set<RunId>, r: RunId)
    requires r !in used && forall k :: 0 <= k < |attempts| && attempts[k].run.RunRow? ==> attempts[k].run.id in used
    ensures StatusOf(attempts, r).None?
  {
    if attempts != [] {
      UnusedStatus(Front(attempts), used, r);
    }
  }

  /** A step outside a run appends no ending and leaves the run rows alone. */
  ghost predicate Hushed(v: View, v': View) {
    && v.rec.log <= v'.rec.log && Quiet(v'.rec.log[|v.rec.log|..])
    && (v'.rec.attempts == v.rec.attempts
        || exists a: Attempt :: a.run.NoRun? && v'.rec.attempts == v.rec.attempts + [a])
  }

  lemma HushedTells(v: View, v': View)
    requires Hushed(v, v') && Tells(v.rec.attempts, v.rec.log)
    ensures Tells(v'.rec.attempts, v'.rec.log)
  {
    var es := v'.rec.log[|v.rec.log|..];
    assert v'.rec.log == v.rec.log + es;
    TellsQuietly(v.rec.attempts, v.rec.log, es);
    if v'.rec.attempts != v.rec.attempts {
      var a: Attempt :| a.run.NoRun? && v'.rec.attempts == v.rec.attempts + [a];
      TellsCharged(v.rec.attempts, v'.rec.log, a);
    }
  }

  /** Steps that log nothing, or one event that ends no run. */
  lemma HushedBy(v: View, v': View, es: seq<Event>)
    requires v'.rec.log == v.rec.log + es && Quiet(es) && v'.rec.attempts == v.rec.attempts
    ensures Hushed(v, v')
  {
    assert (v.rec.log + es)[|v.rec.log|..] == es;
  }

  lemma HushedRead(cfg: Config, v: View, p: Phase, c: Choice)
    requires p == v.worker.phase && (p.Begin? || p.Reading? || p.Budgeting? || p.Inserting? || p.Syncing? || p.Consulting?)
    ensures Hushed(v, LocalStep(cfg, v, c))
  {
    hide Fresh, SyncEmitted, Hushed, OnChoosing, OnCleared, OnCharging, OnChargeRead, OnCharged, OnLaunching,
         OnStarting, OnExecuting, OnFinished, OnBilling, OnBillRead, OnBillWrite, OnBilled, OnRecording, Settle,
         OnContexting, OnPackaging, OnExcluding, OnAddressing, OnReleasing, OnReporting, OnFailing;
    HushedBy(v, LocalStep(cfg, v, c), []);
  }

  lemma HushedChoose(cfg: Config, v: View, p: Phase, c: Choice)
    requires p == v.worker.phase && p.Choosing?
    ensures Hushed(v, OnChoosing(cfg, v, p, c))
  {
    hide DecisionAt, RefusalPhase, Hushed;
    if c.Observe? {
      HushedBy(v, OnChoosing(cfg, v, p, c), [DispatchedEvent(p.job.task, DecisionAt(cfg, v, p, c.metrics))]);
    } else {
      HushedBy(v, v, []);
    }
  }

  lemma HushedCharge(cfg: Config, v: View, p: Phase, c: Choice)
    requires p == v.worker.phase && (p.Cleared? || p.Charging?)
    ensures Hushed(v, LocalStep(cfg, v, c))
  {
    hide Hushed, OnBegin, OnReading, OnInserting, OnSyncing, OnConsulting, OnChoosing, OnChargeRead, OnCharged,
         OnLaunching, OnStarting, OnExecuting, OnFinished, OnBilling, OnBillRead, OnBillWrite, OnBilled, OnRecording,
         Settle, OnContexting, OnPackaging, OnExcluding, OnAddressing, OnReleasing, OnReporting, OnFailing;
    HushedBy(v, LocalStep(cfg, v, c), []);
  }

  lemma HushedLaunchRead(v: View, p: Phase)
    requires p == v.worker.phase && p.ChargeRead?
    ensures Hushed(v, OnChargeRead(v, p))
  {
    hide PreLaunched;
    var a := Attempt(p.job.snap.role, p.agent, NoRun, InFlight);
    assert a.run.NoRun? && OnChargeRead(v, p).rec.attempts == v.rec.attempts + [a];
  }

  lemma HushedTransition(v: View, p: Phase)
    requires p == v.worker.phase
    ensures p.Charged? ==> Hushed(v, OnCharged(v, p))
    ensures p.Billed? ==> Hushed(v, OnBilled(v, p))
  {
    hide PickAxis;
  }

  lemma HushedBill(cfg: Config, v: View, p: Phase, c: Choice)
    requires p == v.worker.phase && (p.Finished? || p.Billing? || p.BillRead? || p.BillWrite? || p.Recording?)
    ensures Hushed(v, LocalStep(cfg, v, c))
  {
    hide PostRan, CostOf, HealthOf, WorseHealth, Hushed, OnBegin, OnReading, OnInserting, OnSyncing, OnConsulting,
         OnChoosing, OnCleared, OnCharging, OnChargeRead, OnCharged, OnLaunching, OnStarting, OnExecuting, OnBilled,
         Settle, OnContexting, OnPackaging, OnExcluding, OnAddressing, OnReleasing, OnReporting, OnFailing;
    HushedBy(v, LocalStep(cfg, v, c), []);
  }

  lemma HushedClose(cfg: Config, v: View, p: Phase, c: Choice)
    requires p == v.worker.phase && (p.Settling? || HasPlan(p) || p.Failing?)
    ensures Hushed(v, LocalStep(cfg, v, c))
  {
    hide Merged, Hushed, OnBegin, OnReading, OnInserting, OnSyncing, OnConsulting, OnChoosing, OnCleared, OnCharging,
         OnChargeRead, OnCharged, OnLaunching, OnStarting, OnExecuting, OnFinished, OnBilling, OnBillRead, OnBillWrite,
         OnBilled, OnRecording;
    HushedBy(v, LocalStep(cfg, v, c),
             if p.Packaging? then [HandoffEvent(p.job.task, p.run, p.agent, p.packet.Address(), p.packet.reason)] else []);
  }

  /** A launch gets its run row, or is aborted or thrown out before it has one. */
  lemma LaunchTells(t: TaskId, v: View, p: Phase, c: Choice)
    requires p == v.worker.phase && p.Launching? && PhaseShape(v.rec, p) && Tells(v.rec.attempts, v.rec.log)
    requires IdsOk(v.rec.attempts, v.used)
    ensures var v' := OnLaunching(v, p, c); Tells(v'.rec.attempts, v'.rec.log)
  {
    hide CacheOk, Tells, Blank;
    var attempts := v.rec.attempts;
    var a := Last(attempts);
    assert v.rec.log + [] == v.rec.log;
    match c
    case Launch(r) =>
      if r !in v.used && !Blank(r) {
        var es := CreationEvents(Context(p.job.task, r, p.agent), p.job.snap.role);
        UnusedStatus(Front(attempts), v.used, r);
        NoEndings(es);
        TellsResolved(attempts, v.rec.log, a.(run := RunRow(r, Preparing)), es);
      }
    case Abort => TellsResolved(attempts, v.rec.log, a.(fate := WasAborted), []);
    case Fault(signalled) =>
      TellsResolved(attempts, v.rec.log, a.(fate := if signalled then WasAborted else DidThrow), []);
    case _ =>
  }

  lemma StartTells(t: TaskId, v: View, p: Phase, c: Choice)
    requires p == v.worker.phase && p.Starting? && PhaseShape(v.rec, p) && Tells(v.rec.attempts, v.rec.log)
    ensures var v' := OnStarting(v, p, c); Tells(v'.rec.attempts, v'.rec.log)
  {
    hide CacheOk, Tells;
    var ctx := Context(p.job.task, p.run, p.agent);
    var a := Last(v.rec.attempts);
    if c.Create? {
      if c.ok {
        NoEndings(StartEvents(ctx));
        TellsResolved(v.rec.attempts, v.rec.log, a.(run := RunRow(p.run, Running)), StartEvents(ctx));
      } else {
        var f := CreationFailure(ctx, p.job.snap.role);
        OneEnding([], f.events[0]);
        assert [] + [f.events[0]] == f.events;
        TellsResolved(v.rec.attempts, v.rec.log, a.(run := RunRow(p.run, f.status), fate := Done(f.result.outcome, None, p.job.context)),
                      f.events);
      }
    }
  }

  lemma ExecuteTells(t: TaskId, v: View, p: Phase, c: Choice)
    requires p == v.worker.phase && p.Executing? && PhaseShape(v.rec, p) && Tells(v.rec.attempts, v.rec.log)
    ensures var v' := OnExecuting(v, p, c); Tells(v'.rec.attempts, v'.rec.log)
  {
    hide CacheOk, Tells, Execute;
    if c.Happen? && c.env.ForRole(p.job.snap.role) {
      var ctx := Context(p.job.task, p.run, p.agent);
      var f := Execute(ctx, p.job.order, c.env);
      var fate := match f.result
        case Aborted => WasAborted
        case Threw => DidThrow
        case Returned(o) => Done(o, Some(c.env), p.job.context);
      ExecutedOwn(ctx, p.job.order, c.env);
      ExecutedAgreeing(ctx, p.job.order, c.env);
      TellsResolved(v.rec.attempts, v.rec.log, Last(v.rec.attempts).(run := RunRow(p.run, f.status), fate := fate), f.events);
    }
  }

  lemma TellsStep(cfg: Config, t: TaskId, v: View, c: Choice)
    requires Holds(v.worker.phase) == Some(t) && PhaseShape(v.rec, v.worker.phase) && IdsOk(v.rec.attempts, v.used)
    requires Tells(v.rec.attempts, v.rec.log)
    ensures var v' := LocalStep(cfg, v, c); Tells(v'.rec.attempts, v'.rec.log)
  {
    hide PhaseShape, Tells, Hushed, IdsOk, OnBegin, OnReading, OnInserting, OnSyncing, OnConsulting, OnChoosing, OnCleared,
         OnCharging, OnChargeRead, OnCharged, OnLaunching, OnStarting, OnExecuting, OnFinished, OnBilling, OnBillRead,
         OnBillWrite, OnBilled, OnRecording, Settle, OnContexting, OnPackaging, OnExcluding, OnAddressing, OnReleasing, OnFailing;
    var p := v.worker.phase;
    match p
    case Launching(_, _) => LaunchTells(t, v, p, c);
    case Starting(_, _, _) => StartTells(t, v, p, c);
    case Executing(_, _, _) => ExecuteTells(t, v, p, c);
    case _ =>
      HushedStep(cfg, t, v, c);
      HushedTells(v, LocalStep(cfg, v, c));
  }

  lemma HushedStep(cfg: Config, t: TaskId, v: View, c: Choice)
    requires Holds(v.worker.phase) == Some(t)
    requires !v.worker.phase.Launching? && !v.worker.phase.Starting? && !v.worker.phase.Executing?
    ensures Hushed(v, LocalStep(cfg, v, c))
  {
    hide Hushed, OnBegin, OnReading, OnInserting, OnSyncing, OnConsulting, OnChoosing, OnCleared, OnCharging, OnChargeRead,
         OnCharged, OnLaunching, OnStarting, OnExecuting, OnFinished, OnBilling, OnBillRead, OnBillWrite, OnBilled,
         OnRecording, Settle, OnContexting, OnPackaging, OnExcluding, OnAddressing, OnReleasing, OnFailing;
    var p := v.worker.phase;
    match p
    case Begin(_, _) | Reading(_, _, _) | Budgeting(_) | Inserting(_) | Syncing(_) | Consulting(_) => HushedRead(cfg, v, p, c);
    case Choosing(_, _) => HushedChoose(cfg, v, p, c);
    case Cleared(_, _) | Charging(_, _, _) => HushedCharge(cfg, v, p, c);
    case ChargeRead(_, _, _, _) => HushedLaunchRead(v, p);
    case Charged(_, _, _, _) | Billed(_, _, _, _, _) => HushedTransition(v, p);
    case Finished(_, _, _) | Billing(_, _, _) | BillRead(_, _, _, _) | BillWrite(_, _, _, _, _) | Recording(_, _, _, _) =>
      HushedBill(cfg, v, p, c);
    case _ => HushedClose(cfg, v, p, c);
  }

  // ---- Every reachable state ----

  lemma TellsTask(cfg: Config, s: Sys, a: Action, t: TaskId)
    requires ValidConfig(cfg) && Structured(s) && Spoken(s) && Counted(s) && AllTell(s) && t in Next(cfg, s, a).tasks
    ensures var s' := Next(cfg, s, a); Tells(s'.tasks[t].attempts, s'.tasks[t].log)
  {
    hide LocalStep, CacheOk, Blank, Next, PhaseShape, Tells, TaskCount, IdsOk, Announced, Structured, Holder;
    ExplainedHere(cfg, s, a, t);
    match Cause(cfg, s, a, t)
    case Unmoved =>
    case Entered(o, at) => TellsFresh(o, at, t);
    case Taken(w, now, lease, snap) =>
    case Stepped(w, c) =>
      HeldShape(s, w, t);
      TellsStep(cfg, t, ViewOf(s, w, t), c);
    case Reported(w) =>
      PendingQuiet(s, w);
      TellsQuietly(s.tasks[t].attempts, s.tasks[t].log, [s.workers[w].phase.event]);
  }

  lemma TellsFresh(o: WorkOrder, at: int, t: TaskId)
    ensures var rec := FreshRec(o, at, [Enqueued(t)]); Tells(rec.attempts, rec.log)
  {
    forall r: RunId ensures TellsOf([], [Enqueued(t)], r) {
      QuietEnds([Enqueued(t)], r);
    }
  }

  lemma PendingQuiet(s: Sys, w: WorkerId)
    requires Spoken(s) && w in s.workers && s.workers[w].phase.Reporting?
    ensures Quiet([s.workers[w].phase.event])
  {
    hide Accepts, Announced, Named;
  }

  lemma {:induction false} TellsAlways(cfg: Config, s0: Sys, acts: seq<Action>)
    requires ValidConfig(cfg) && Initial(s0)
    ensures AllTell(Run(cfg, s0, acts))
  {
    hide Structured, Spoken, Counted, Next, Tells;
    if acts != [] {
      var before := acts[..|acts| - 1];
      var s := Run(cfg, s0, before);
      TellsAlways(cfg, s0, before);
      SpokenAlways(cfg, s0, before);
      CountedAlways(cfg, s0, before);
      forall t | t in Run(cfg, s0, acts).tasks ensures Tells(Run(cfg, s0, acts).tasks[t].attempts, Run(cfg, s0, acts).tasks[t].log) {
        TellsTask(cfg, s, acts[|acts| - 1], t);
      }
    }
  }

  lemma {:induction false} StatusOfLaunch(attempts: seq<Attempt>, used: set<RunId>, k: nat)
    requires IdsOk(attempts, used) && k < |attempts| && attempts[k].run.RunRow?
    ensures StatusOf(attempts, attempts[k].run.id) == Some(attempts[k].run.status)
  {
    if k < |attempts| - 1 {
      assert Front(attempts)[k] == attempts[k];
      StatusOfLaunch(Front(attempts), used, k);
    }
  }

  /**
   In the log of a task, in any run of any number of workers, the run of every launch has ended exactly as its run
   row says: one `run.completed` if it succeeded, one `run.failed` if it failed, and neither if it was cancelled or
   is still open; and no run without a launch on record has ended at all.
   */
  lemma RunsEndOnce(cfg: Config, s0: Sys, acts: seq<Action>, t: TaskId)
    requires ValidConfig(cfg) && Initial(s0) && t in Run(cfg, s0, acts).tasks
    ensures var rec := Run(cfg, s0, acts).tasks[t];
            && (forall k :: 0 <= k < |rec.attempts| && rec.attempts[k].run.RunRow? ==>
                  var run := rec.attempts[k].run;
                  && Ended(rec.log, RunCompleted, run.id) == (if run.status.RunSucceeded? then 1 else 0)
                  && Ended(rec.log, RunDidFail, run.id) == (if run.status.RunFailed? then 1 else 0))
            && (forall r: RunId :: (forall k :: 0 <= k < |rec.attempts| ==>
                                                !(rec.attempts[k].run.RunRow? && rec.attempts[k].run.id == r)) ==>
                  Ended(rec.log, RunCompleted, r) == 0 && Ended(rec.log, RunDidFail, r) == 0)
  {
    hide Structured, Run, TaskCount, IdsOk;
    TellsAlways(cfg, s0, acts);
    CountedAlways(cfg, s0, acts);
    var s := Run(cfg, s0, acts);
    var attempts, log := s.tasks[t].attempts, s.tasks[t].log;
    forall k | 0 <= k < |attempts| && attempts[k].run.RunRow?
      ensures Ended(log, RunCompleted, attempts[k].run.id) == (if attempts[k].run.status.RunSucceeded? then 1 else 0)
      ensures Ended(log, RunDidFail, attempts[k].run.id) == (if attempts[k].run.status.RunFailed? then 1 else 0)
    {
      StatusOfLaunch(attempts, s.used, k);
      assert TellsOf(attempts, log, attempts[k].run.id);
    }
    forall r: RunId | forall k :: 0 <= k < |attempts| ==> !(attempts[k].run.RunRow? && attempts[k].run.id == r)
      ensures Ended(log, RunCompleted, r) == 0 && Ended(log, RunDidFail, r) == 0
    {
      StatusOfNone(attempts, r);
      assert TellsOf(attempts, log, r);
    }
  }

  lemma {:induction false} StatusOfNone(attempts: seq<Attempt>, r: RunId)
    requires forall k :: 0 <= k < |attempts| ==> !(attempts[k].run.RunRow? && attempts[k].run.id == r)
    ensures StatusOf(attempts, r).None?
  {
    if attempts != [] {
      StatusOfNone(Front(attempts), r);
    }
  }
}
