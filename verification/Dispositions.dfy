/**
 Where a task goes: what its row is after the run of its latest handle, by the outcome of that run and the budget
 left, and that a task is accepted exactly when its history has earned it.
 */
module Dispositions {
  import opened Types
  import opened Js
  import opened Budgets
  import opened Scheduler
  import opened SchedulerLaws
  import opened Events
  import opened Runs
  import opened Handoffs
  import opened Protocol
  import opened Shape
  import opened System
  import opened Story
  import opened StorySteps
  import opened Footprint
  import opened Safety
  import opened Counts
  import opened Effects
  import opened Picks

  /** A failure that is handed over to another implementer while budget is left. */
  predicate HandsOver(r: FailReason) {
    || r.VerificationFailed? || r.AgentNonzeroExit? || r.AgentTimedOut?
    || r.ProviderQuotaExhausted? || r.ProviderRateLimited? || r.ProviderAuthFailed?
  }

  /** What a run's outcome makes of its task: `reviewed` if the order asks for review, `left` if budget is left. */
  predicate Concludes(reviewed: bool, left: bool, o: Outcome, status: Status, role: Role) {
    match o
    case ImplementerSucceeded(_, _, _, _) =>
      if !reviewed then status.Accepted? else if left then status.Queued? && role.Reviewer? else status.Failed?
    case ImplementerFailed(_, r, _, _) =>
      if HandsOver(r) && left then status.Queued? && role.Implementer? else status.Failed?
    case ReviewerReturned(_, v, _) => (
      match v
      case Approved => status.Accepted?
      case Rejected => status.AwaitingHuman?
      case ChangesRequested => if left then status.Queued? && role.Implementer? else status.Failed?)
    case ReviewerFailed(_, r, _) =>
      if r.DiffApplyFailed? && left then status.Queued? && role.Implementer? else status.Failed?
  }

  /** What the launch of this handle, if there was one, makes of the task. */
  predicate Decides(rec: TaskRec, status: Status, role: Role) {
    rec.attempts != [] &&
    match Last(rec.attempts).fate
    case Done(o, _, _) =>
      rec.budget.Some? && Concludes(rec.row.order.reviewEnabled, !rec.budget.value.status.Exhausted?, o, status, role)
    case DidThrow => status.Failed?
    case WasAborted => status.Queued?
    case InFlight => false
  }

  /** The release that is due: refused without a launch, or what the launch decided. */
  predicate Planned(rec: TaskRec, plan: Plan) {
    if |rec.attempts| == rec.mark then
      (plan.status.Failed? || plan.status.AwaitingHuman?) && AllContinue(rec.row.order.Core(), rec.attempts)
    else
      |rec.attempts| == rec.mark + 1 && Decides(rec, plan.status, plan.role) && !Last(rec.attempts).fate.WasAborted?
  }

  /** A row at rest: its latest handle launched nothing and did not accept it, or left it as its launch decided. */
  predicate Rests(rec: TaskRec) {
    if |rec.attempts| == rec.mark then
      && (rec.row.status.Queued? || rec.row.status.Failed? || rec.row.status.AwaitingHuman?)
      && AllContinue(rec.row.order.Core(), rec.attempts)
    else |rec.attempts| == rec.mark + 1 && Decides(rec, rec.row.status, rec.row.role)
  }

  predicate Standing(rec: TaskRec, hold: Option<Phase>) {
    match hold
    case None => Rests(rec)
    case Some(p) => HasPlan(p) ==> Planned(rec, p.plan)
  }

  // ---- How plans arise and are carried out ----

  predicate PlanMoves(v: View, v': View) {
    var p, p' := v.worker.phase, v'.worker.phase;
    && (Pre(p) && HasPlan(p') ==> p'.Releasing? && (p'.plan.status.Failed? || p'.plan.status.AwaitingHuman?))
    && (Open(p) && HasPlan(p') ==>
          p'.plan.status.Failed? && v'.rec.attempts != [] && Last(v'.rec.attempts).fate.DidThrow?)
    && (AfterRun(p) && !p.Settling? ==> !HasPlan(p'))
    && (p.Settling? ==> p' == Settle(p.job, p.agent, p.outcome, p.after))
    && (HasPlan(p) && !p.Releasing? ==> HasPlan(p') && p'.plan == p.plan)
    && (p.Releasing? ==>
          v'.rec.row.status == p.plan.status && v'.rec.row.role == p.plan.role && Holds(p').None?)
    && (p.Failing? ==> v'.rec.row.status.Queued? && Holds(p').None?)
  }

  lemma PlanEarly(cfg: Config, v: View, p: Phase, c: Choice)
    requires p == v.worker.phase && Pre(p) && !p.Choosing?
    ensures PlanMoves(v, LocalStep(cfg, v, c))
  {
    hide Fresh, SyncEmitted, PreLaunched, OnChoosing, OnCharged, OnLaunching, OnStarting, OnExecuting, OnFinished,
         OnBilling, OnBillRead, OnBillWrite, OnBilled, OnRecording, Settle, OnContexting, OnPackaging, OnExcluding,
         OnAddressing, OnReleasing, OnReporting, OnFailing;
  }

  lemma PlanChoose(cfg: Config, v: View, p: Phase, c: Choice)
    requires p == v.worker.phase && p.Choosing?
    ensures PlanMoves(v, OnChoosing(cfg, v, p, c))
  {
    hide DecisionAt, DispatchedEvent;
  }

  lemma PlanOpen(cfg: Config, v: View, p: Phase, c: Choice)
    requires p == v.worker.phase && PhaseShape(v.rec, p) && Open(p)
    ensures PlanMoves(v, LocalStep(cfg, v, c))
  {
    hide Execute, Transition, CreationEvents, StartEvents, CacheOk, OnBegin, OnReading, OnInserting, OnSyncing,
         OnConsulting, OnChoosing, OnCleared, OnCharging, OnChargeRead, OnFinished, OnBilling, OnBillRead, OnBillWrite,
         OnBilled, OnRecording, Settle, OnContexting, OnPackaging, OnExcluding, OnAddressing, OnReleasing, OnReporting,
         OnFailing;
    if p.Charged? {
      TransitionKeeps(v, p);
    }
  }

  lemma PlanBill(cfg: Config, v: View, p: Phase, c: Choice)
    requires p == v.worker.phase && AfterRun(p)
    ensures PlanMoves(v, LocalStep(cfg, v, c))
  {
    hide Transition, PostRan, CostOf, WorseHealth, HealthOf, Settle, OnBegin, OnReading, OnInserting, OnSyncing,
         OnConsulting, OnChoosing, OnCleared, OnCharging, OnChargeRead, OnCharged, OnLaunching, OnStarting, OnExecuting,
         OnContexting, OnPackaging, OnExcluding, OnAddressing, OnReleasing, OnReporting, OnFailing;
    if p.Billed? {
      TransitionKeeps(v, p);
    }
  }

  lemma PlanClose(cfg: Config, v: View, p: Phase, c: Choice)
    requires p == v.worker.phase && (HasPlan(p) || p.Failing?)
    ensures PlanMoves(v, LocalStep(cfg, v, c))
  {
    hide Merged, OnBegin, OnReading, OnInserting, OnSyncing, OnConsulting, OnChoosing, OnCleared, OnCharging,
         OnChargeRead, OnCharged, OnLaunching, OnStarting, OnExecuting, OnFinished, OnBilling, OnBillRead, OnBillWrite,
         OnBilled, OnRecording, Settle;
  }

  lemma PlanStep(cfg: Config, v: View, c: Choice)
    requires Holds(v.worker.phase).Some? && PhaseShape(v.rec, v.worker.phase)
    ensures PlanMoves(v, LocalStep(cfg, v, c))
  {
    hide LocalStep, PlanMoves, PhaseShape;
    var p := v.worker.phase;
    if p.Choosing? {
      ChoosingStep(cfg, v, c);
      PlanChoose(cfg, v, p, c);
    } else if Pre(p) {
      PlanEarly(cfg, v, p, c);
    } else if Open(p) {
      PlanOpen(cfg, v, p, c);
    } else if AfterRun(p) {
      PlanBill(cfg, v, p, c);
    } else {
      PlanClose(cfg, v, p, c);
    }
  }

  lemma ChoosingStep(cfg: Config, v: View, c: Choice)
    requires v.worker.phase.Choosing?
    ensures LocalStep(cfg, v, c) == OnChoosing(cfg, v, v.worker.phase, c)
  {
    hide OnChoosing;
  }

  /** Settling decides as the outcome and the budget say. */
  lemma SettleDecides(t: TaskId, v: View, p: Phase)
    requires Telling(t, v, p) && p.Settling? && |v.rec.attempts| == v.rec.mark + 1
    ensures var p' := Settle(p.job, p.agent, p.outcome, p.after); HasPlan(p') && Planned(v.rec, p'.plan)
  {
    hide AllGenuine, AllContinue, HandedIn, PacketExcludes, CacheOk, Pending, Review, LastDone, Dones, SameColumns;
    Landing(t, v, p);
  }

  // ---- One step of the holder ----

  lemma SamePlan(rec: TaskRec, rec': TaskRec, plan: Plan)
    requires Planned(rec, plan) && rec'.attempts == rec.attempts && rec'.budget == rec.budget && rec'.mark == rec.mark
    requires rec'.row.order.Core() == rec.row.order.Core()
    ensures Planned(rec', plan)
    ensures rec'.row.status == plan.status && rec'.row.role == plan.role ==> Rests(rec')
  {
    hide Concludes, AllContinue;
    assert rec'.row.order.reviewEnabled == rec.row.order.Core().reviewEnabled;
  }

  lemma StandingStep(cfg: Config, t: TaskId, v: View, v': View, c: Choice)
    requires Telling(t, v, v.worker.phase) && Holds(v.worker.phase) == Some(t)
    requires PhaseCount(v.rec, v.worker.phase) && Standing(v.rec, Some(v.worker.phase))
    requires PlanMoves(v, v') && BudgetMoves(cfg, v, v', c) && HistoryMoves(v, v') && OrderMoves(t, v, v')
    ensures Standing(v'.rec, Held(v'.worker.phase))
  {
    hide PhaseShape, TaskStory, CacheOk, AttemptsMove, Settle, Concludes, AllContinue, Counts.Bounded, Room, Telling, OrderMoves,
         BudgetMoves, RunMoves;
    var p, p' := v.worker.phase, v'.worker.phase;
    StandingFacts(cfg, t, v, v', c);
    if p.Settling? {
      SettleDecides(t, v, p);
      SamePlan(v.rec, v'.rec, p'.plan);
    } else if HasPlan(p) {
      SamePlan(v.rec, v'.rec, p.plan);
    }
  }

  /** What does not change while a plan is carried out, and what the story says where a plan begins. */
  lemma StandingFacts(cfg: Config, t: TaskId, v: View, v': View, c: Choice)
    requires Telling(t, v, v.worker.phase) && PhaseCount(v.rec, v.worker.phase)
    requires PlanMoves(v, v') && BudgetMoves(cfg, v, v', c) && HistoryMoves(v, v') && OrderMoves(t, v, v')
    ensures v'.rec.mark == v.rec.mark && v'.rec.row.order.Core() == v.rec.row.order.Core()
    ensures var p, p' := v.worker.phase, v'.worker.phase;
            && ((Pre(p) && HasPlan(p')) || p.Failing? || HasPlan(p) || AfterRun(p) ==> v'.rec.attempts == v.rec.attempts)
            && (HasPlan(p) || p.Settling? ==> v'.rec.budget == v.rec.budget)
            && (Pre(p) || p.Failing? ==> AllContinue(v.rec.row.order.Core(), v.rec.attempts))
            && (Open(p) ==> |v'.rec.attempts| == |v.rec.attempts|)
  {
  }

  // ---- Every reachable state ----

  ghost predicate AllStanding(s: Sys) {
    forall t :: t in s.tasks ==> Standing(s.tasks[t], Holder(s, t))
  }

  lemma StandingFresh(o: WorkOrder, at: int, log: seq<Event>)
    ensures Standing(FreshRec(o, at, log), None)
  {
  }

  lemma StandingLogged(rec: TaskRec, log: seq<Event>, hold: Option<Phase>)
    requires Standing(rec, hold)
    ensures Standing(rec.(log := log), hold)
  {
    hide Concludes, AllContinue;
  }

  lemma StandingStepped(cfg: Config, s: Sys, a: Action, t: TaskId)
    requires Structured(s) && Storied(s) && Counted(s) && AllStanding(s) && t in Next(cfg, s, a).tasks
    requires Cause(cfg, s, a, t).Stepped? && Explains(cfg, s, Next(cfg, s, a), t, Cause(cfg, s, a, t))
    ensures var s' := Next(cfg, s, a); Standing(s'.tasks[t], Holder(s', t))
  {
    hide LocalStep, CacheOk, Next, PhaseShape, Telling, Standing, HistoryMoves, PlanMoves, BudgetMoves, OrderMoves, IdsOk, PhaseCount, Structured;
    var Stepped(w, c) := Cause(cfg, s, a, t);
    var v := ViewOf(s, w, t);
    var v' := LocalStep(cfg, v, c);
    HolderTells(s, w, t);
    HolderOf(s, w, t);
    PlanStep(cfg, v, c);
    EffectStep(cfg, t, v, c);
    HistoryStep(cfg, v, c);
    OrderStep(cfg, v, c, t);
    assert BudgetMoves(cfg, v, v', c) by {
      hide EndingMoves;
    }
    StandingStep(cfg, t, v, v', c);
  }

  lemma HolderOf(s: Sys, w: WorkerId, t: TaskId)
    requires Structured(s) && Counted(s) && AllStanding(s) && w in s.workers && t in s.tasks && Holds(s.workers[w].phase) == Some(t)
    ensures Holder(s, t) == Some(s.workers[w].phase) && PhaseShape(s.tasks[t], s.workers[w].phase)
    ensures PhaseCount(s.tasks[t], s.workers[w].phase) && Standing(s.tasks[t], Some(s.workers[w].phase))
  {
    hide CacheOk, PhaseShape, PhaseCount, Standing, BudgetMatches, Blank, IdsOk;
    HolderShape(s, w, t);
  }

  lemma StandingTask(cfg: Config, s: Sys, a: Action, t: TaskId)
    requires Structured(s) && Storied(s) && Counted(s) && AllStanding(s) && t in Next(cfg, s, a).tasks
    ensures var s' := Next(cfg, s, a); Standing(s'.tasks[t], Holder(s', t))
  {
    hide LocalStep, CacheOk, Blank, TaskShape, Next, FreshRec, Storied, Counted, Rests, Planned;
    Explained(cfg, s, a, t);
    match Cause(cfg, s, a, t)
    case Unmoved =>
    case Entered(o, at) => StandingFresh(o, at, [Enqueued(t)]);
    case Taken(w, now, lease, snap) =>
    case Stepped(w, c) => StandingStepped(cfg, s, a, t);
    case Reported(w) => StandingLogged(s.tasks[t], s.tasks[t].log + [s.workers[w].phase.event], Holder(s, t));
  }

  lemma {:induction false} StandingAlways(cfg: Config, s0: Sys, acts: seq<Action>)
    requires ValidConfig(cfg) && cfg.isolated && Initial(s0)
    ensures AllStanding(Run(cfg, s0, acts)) && Structured(Run(cfg, s0, acts)) && Storied(Run(cfg, s0, acts))
  {
    hide Structured, Storied, Counted, Next, Standing;
    StoriedAlways(cfg, s0, acts);
    if acts != [] {
      var before := acts[..|acts| - 1];
      var s, s' := Run(cfg, s0, before), Run(cfg, s0, acts);
      StandingAlways(cfg, s0, before);
      CountedAlways(cfg, s0, before);
      forall t | t in s'.tasks ensures Standing(s'.tasks[t], Holder(s', t)) {
        StandingTask(cfg, s, acts[|acts| - 1], t);
      }
    }
  }

  // ---- Where a task goes ----

  /**
   What the row of a task that no worker holds is, in any run of any number of workers with isolated claims. If the
   latest handle launched a run, the run's outcome and the budget left decide it: see `Concludes`; a run that threw
   fails the task, and an aborted one leaves it queued. A task queued for review carries the context of the
   implementation just made, and one handed over the packet of its latest implementation.
   */
  lemma RowAfterRun(cfg: Config, s0: Sys, acts: seq<Action>, t: TaskId)
    requires ValidConfig(cfg) && cfg.isolated && Initial(s0)
    requires t in Run(cfg, s0, acts).tasks && Holder(Run(cfg, s0, acts), t).None?
    ensures var rec := Run(cfg, s0, acts).tasks[t]; var row := rec.row;
            && rec.mark <= |rec.attempts| <= rec.mark + 1
            && (|rec.attempts| == rec.mark + 1 ==>
                  var last := rec.attempts[rec.mark];
                  && (last.fate.Done? ==>
                        && rec.budget.Some?
                        && Concludes(row.order.reviewEnabled, !rec.budget.value.status.Exhausted?, last.fate.outcome, row.status, row.role)
                        && (row.status.Queued? && row.role.Reviewer? ==>
                              var o := last.fate.outcome;
                              row.context == Some(ReviewContext(o.run, last.agent, o.diff, o.finalReport, o.verification)))
                        && (row.status.Queued? && last.fate.outcome.ImplementerFailed? ==>
                              row.handoff == Some(Artifact(t, last.fate.outcome.run, "handoff_packet.json"))))
                  && (last.fate.DidThrow? ==> row.status.Failed?)
                  && (last.fate.WasAborted? ==> row.status.Queued?))
            && (|rec.attempts| == rec.mark ==> row.status.Queued? || row.status.Failed? || row.status.AwaitingHuman?)
  {
    hide Structured, Storied, Run, Concludes, AllContinue;
    StandingAlways(cfg, s0, acts);
    var s := Run(cfg, s0, acts);
    assert Standing(s.tasks[t], None);
    RestingColumns(s, t);
  }

  lemma RestingColumns(s: Sys, t: TaskId)
    requires Storied(s) && t in s.tasks && Holder(s, t).None?
    ensures var rec := s.tasks[t];
            rec.row.status.Queued? && rec.attempts != [] && Last(rec.attempts).fate.Done? ==>
              var last := Last(rec.attempts); var o := last.fate.outcome;
              && (rec.row.role.Reviewer? ==>
                    && o.ImplementerSucceeded?
                    && rec.row.context == Some(ReviewContext(o.run, last.agent, o.diff, o.finalReport, o.verification)))
              && (o.ImplementerFailed? ==> rec.row.handoff == Some(Artifact(t, o.run, "handoff_packet.json")))
  {
    hide AllGenuine, AllContinue, HandedIn, Dones;
  }

  lemma ContinuesNotEarned(core: WorkOrder, attempts: seq<Attempt>)
    requires AllContinue(core, attempts)
    ensures !Earned(core, attempts)
  {
    if attempts != [] {
      assert Continues(core, Last(attempts));
    }
  }

  lemma RestsExactly(t: TaskId, rec: TaskRec)
    requires Rests(rec) && AllGenuine(t, rec.row.order.Core(), rec.attempts)
    ensures Earned(rec.row.order.Core(), rec.attempts) ==> rec.row.status.Accepted?
  {
    hide AllContinue, Genuine;
    if |rec.attempts| == rec.mark {
      ContinuesNotEarned(rec.row.order.Core(), rec.attempts);
    }
  }

  /** A task that no worker holds is accepted if and only if its attempts have earned it. */
  lemma AcceptedExactly(cfg: Config, s0: Sys, acts: seq<Action>, t: TaskId)
    requires ValidConfig(cfg) && cfg.isolated && Initial(s0)
    requires t in Run(cfg, s0, acts).tasks && Holder(Run(cfg, s0, acts), t).None?
    ensures var rec := Run(cfg, s0, acts).tasks[t]; rec.row.status.Accepted? <==> Earned(rec.row.order.Core(), rec.attempts)
  {
    hide Structured, Run, Rests, Earned, AllGenuine;
    StandingAlways(cfg, s0, acts);
    var s := Run(cfg, s0, acts);
    assert Standing(s.tasks[t], None) && TaskStory(t, s.tasks[t], None);
    RestsExactly(t, s.tasks[t]);
  }

  // ---- Packets ----

  /** The packet of a handover names the failed attempt, or the reviewed one, and why it is handed over. */
  lemma PacketExact(cfg: Config, v: View, c: Choice)
    requires v.worker.phase.Settling? && LocalStep(cfg, v, c).worker.phase.Packaging?
    ensures var p := v.worker.phase; var packet := LocalStep(cfg, v, c).worker.phase.packet; var o := p.outcome;
            && packet.task == p.job.task
            && (forall a :: a in packet.excludes <==> a in p.job.order.excludes || a == packet.fromAgent)
            && (o.ImplementerFailed? ==>
                  && packet.fromRun == o.run && packet.fromAgent == p.agent
                  && packet.diff == o.diffUri && packet.verification == o.verificationUri && packet.verdict.None?
                  && (packet.reason.HVerificationFailed? <==> o.reason.VerificationFailed?)
                  && (packet.reason.HAgentTimedOut? <==> o.reason.AgentTimedOut?)
                  && (packet.reason.HAgentNonzeroExit? <==> o.reason.AgentNonzeroExit?)
                  && (packet.reason.HQuotaExhausted?
                      <==> o.reason.ProviderQuotaExhausted? || o.reason.ProviderRateLimited? || o.reason.ProviderAuthFailed?))
            && (!o.ImplementerFailed? ==>
                  p.job.context.Some?
                  && (var ctx := p.job.context.value;
                      && packet.fromRun == ctx.runId && packet.fromAgent == ctx.agentId
                      && packet.diff == Some(ctx.diff) && packet.verification == ctx.verification
                      && (if o.ReviewerReturned? then packet.reason.HReviewChangesRequested? && packet.verdict == Some(o.verdictUri)
                          else packet.reason.HDiffApplyFailed? && packet.verdict.None?)))
  {
    hide PacketExcludes, LocalStep;
    var p := v.worker.phase;
    SettlingStep(cfg, v, c);
    PacketFromCopy(p.job, p.agent, p.outcome, p.after);
    PacketMembers(p.job.order.excludes, Settle(p.job, p.agent, p.outcome, p.after).packet.fromAgent);
  }

  lemma SettlingStep(cfg: Config, v: View, c: Choice)
    requires v.worker.phase.Settling?
    ensures var p := v.worker.phase; LocalStep(cfg, v, c) == v.To(Settle(p.job, p.agent, p.outcome, p.after))
  {
    hide Settle;
  }

  // ---- Refusals ----

  /**
   A decision without a pick ends the task: it waits for a human if and only if the budget lasts and some agent has
   the capabilities and the role, but every such agent is excluded or outside the pool; otherwise it has failed.
   */
  lemma RefusalEnds(cfg: Config, v: View, metrics: map<AgentId, Metrics>)
    requires v.worker.phase.Choosing? && DecisionAt(cfg, v, v.worker.phase, metrics).picked.None?
    ensures var p := v.worker.phase; var p' := LocalStep(cfg, v, Observe(metrics)).worker.phase;
            var q := Request0(p.job, p.budget); var registry := Listing(cfg, metrics, v.health);
            && p'.Releasing? && p'.plan.attempts == p.job.snap.attempts && p'.plan.role == p.job.snap.role
            && (p'.plan.status.AwaitingHuman? || p'.plan.status.Failed?)
            && (p'.plan.status.AwaitingHuman? <==>
                  && !p.budget.status.Exhausted?
                  && (exists e :: e in registry && Fits(q, e))
                  && forall e :: e in registry ==> !Allowed(q, e))
  {
    hide Decide, Listing, Fits, Allowed, LocalStep, DispatchedEvent;
    var p := v.worker.phase;
    ChoosingStep(cfg, v, Observe(metrics));
    PickOrRefusal(Request0(p.job, p.budget), Listing(cfg, metrics, v.health), cfg.rank);
    RefusalExact(Request0(p.job, p.budget), Listing(cfg, metrics, v.health), cfg.rank);
  }
}
