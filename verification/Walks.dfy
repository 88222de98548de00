/**
 The protocol's steps that each stretch of the task handler makes, as walks of one worker, and what those steps
 leave in the log.
 */
module Walks {
  import opened Types
  import opened Js
  import opened Budgets
  import opened Events
  import opened Runs
  import opened Handoffs
  import opened Protocol
  import opened Shape
  import opened Story
  import opened Ledger
  import opened Traces
  import opened Tables
  import opened BudgetManager
  import opened AgentRegistry

  /** What the world does to one handle: aborts where the signal is checked, unreadable artifacts, and the run itself. */
  datatype World = World(
    abortedAtStart: bool,
    packetUnreadable: bool,
    abortedBeforeCharge: bool,
    abortedAfterCharge: bool,
    contextUnreadable: bool,
    signalled: bool,
    abortedAtLaunch: bool,
    newRun: RunId,
    prepared: bool,
    env: Env,
    wallMs: real)

  /** Whether a handle goes on, is thrown out of by an abort, or fails its task. */
  datatype Gate = Proceed | Stop | Close

  /** The tables as they were when the handle began. */
  datatype Base = Base(rows: map<TaskId, Row>, budgets: map<TaskId, Budget>, events: seq<Event>, runs: map<RunId, RunRecord>, newRun: RunId)

  /** The rows of earlier runs are left alone, and no run is added but the one under the fresh id. */
  predicate KeepsRuns(base: Base, runs: map<RunId, RunRecord>) {
    && (forall r :: r in base.runs ==> r in runs && runs[r] == base.runs[r])
    && (forall r :: r in runs ==> r in base.runs || r == base.newRun)
  }

  /** The events of other tasks. */
  function Foreign(events: seq<Event>, t: TaskId): seq<Event> {
    if events == [] then []
    else
      var e := events[|events| - 1];
      Foreign(events[..|events| - 1], t) + if e.task.Some? && e.task != Some(t) then [e] else []
  }

  lemma {:induction false} ForeignSame(events: seq<Event>, es: seq<Event>, t: TaskId)
    requires forall i :: 0 <= i < |es| ==> es[i].task == Some(t) || es[i].task.None?
    ensures Foreign(events + es, t) == Foreign(events, t)
  {
    if es == [] {
      assert events + es == events;
    } else {
      var n := |es| - 1;
      ForeignSame(events, es[..n], t);
      assert (events + es)[..|events| + n] == events + es[..n];
    }
  }

  /** What another task sees of the log is a matter of the foreign events alone. */
  lemma {:induction false} ForeignDecides(events: seq<Event>, t: TaskId, u: TaskId)
    requires u != t
    ensures EventsOf(Foreign(events, t), Some(u)) == EventsOf(events, Some(u))
  {
    if events != [] {
      var n := |events| - 1;
      ForeignDecides(events[..n], t, u);
      var others := Foreign(events[..n], t);
      if events[n].task.Some? && events[n].task != Some(t) {
        EventsOfAppend(others, events[n], Some(u));
      } else {
        assert Foreign(events, t) == others;
        assert EventsOf(events, Some(u)) == EventsOf(events[..n], Some(u));
      }
    }
  }

  /** The runs table has the row of every launch in the history, with the status recorded there. */
  predicate RunMatches(attempts: seq<Attempt>, runs: map<RunId, RunRecord>) {
    forall k :: 0 <= k < |attempts| && attempts[k].run.RunRow? ==>
      attempts[k].run.id in runs && runs[attempts[k].run.id].status == attempts[k].run.status
  }

  lemma Overwrite<K, V>(m: map<K, V>, k: K, x: V, y: V)
    ensures m[k := x][k := y] == m[k := y]
  {
  }

  /** The tables still agree once the launched run has its row. */
  lemma RunStored(base: Base, runs: map<RunId, RunRecord>, row: RunRecord, before: seq<Attempt>, attempts: seq<Attempt>)
    requires KeepsRuns(base, runs) && base.newRun !in runs && before != [] && attempts != []
    requires RunMatches(before, runs) && Front(attempts) == Front(before) && Last(attempts).run == RunRow(base.newRun, row.status)
    ensures KeepsRuns(base, runs[base.newRun := row]) && RunMatches(attempts, runs[base.newRun := row])
  {
    forall k | 0 <= k < |attempts| - 1 ensures attempts[k] == before[k] {
      assert |Front(attempts)| == |Front(before)| && Front(attempts)[k] == Front(before)[k];
    }
  }

  predicate About(es: seq<Event>, t: Option<TaskId>) {
    forall i :: 0 <= i < |es| ==> es[i].task == t
  }

  lemma {:induction false} EventsOfSame(events: seq<Event>, es: seq<Event>, t: Option<TaskId>, u: Option<TaskId>)
    requires About(es, t)
    ensures EventsOf(events + es, u) == EventsOf(events, u) + if t == u then es else []
  {
    if es == [] {
      assert events + es == events;
    } else {
      var n := |es| - 1;
      EventsOfSame(events, es[..n], t, u);
      assert events + es == (events + es[..n]) + [es[n]];
      EventsOfAppend(events + es[..n], es[n], u);
    }
  }

  /** The failure reason passed to the registry: none for a success or an unusable verdict. */
  function FailureReasonOf(o: Outcome): Option<FailReason> {
    if o.ImplementerFailed? then Some(o.reason)
    else if o.ReviewerFailed? && !o.reason.ReviewerUnusable? then Some(o.reason)
    else None
  }

  /** What is recorded worsens health exactly as the protocol's recording step does. */
  lemma RecordAgrees(o: Outcome, h: Health)
    ensures var skipped := (o.ImplementerFailed? && o.reason.InternalError?)
                           || (o.ReviewerFailed? && (o.reason.DiffApplyFailed? || o.reason.InternalError?));
            var h' := HealthAfter(h, o.ImplementerSucceeded? || o.ReviewerReturned?, FailureReasonOf(o));
            && (skipped ==> ProviderFailure(o).None?)
            && (!skipped ==> h' == if ProviderFailure(o).Some? then WorseHealth(h, ProviderFailure(o).value) else h)
  {
  }

  lemma AgentAlarmLogged(events: seq<Event>, k: Kind, a: AgentId, r: RunId, t: TaskId)
    ensures EventsOf(events + [AgentAlarm(k, a, r)], None) == EventsOf(events, None) + [AgentAlarm(k, a, r)]
    ensures EventsOf(events + [AgentAlarm(k, a, r)], Some(t)) == EventsOf(events, Some(t))
    ensures Foreign(events + [AgentAlarm(k, a, r)], t) == Foreign(events, t)
  {
    ForeignSame(events, [AgentAlarm(k, a, r)], t);
    EventsOfAppend(events, AgentAlarm(k, a, r), None);
    EventsOfAppend(events, AgentAlarm(k, a, r), Some(t));
  }

  /** The handler's cost estimate is the one the protocol looks up by id. */
  lemma RegisteredCost(ids: seq<AgentId>, entries: map<AgentId, Internal>, levels: map<AgentId, Health>, a: AgentId)
    requires Kept(ids, entries, levels) && a in entries
    ensures CostOf(ProfilesOf(ids, entries), a) == entries[a].profile.EstimatedCost()
  {
    var ps := ProfilesOf(ids, entries);
    var i :| 0 <= i < |ids| && ids[i] == a;
    assert forall k :: 0 <= k < |ps| ==> ids[k] in entries && ps[k].id == ids[k];
    CostAt(ps, i);
  }

  lemma {:induction false} CostAt(ps: seq<Profile>, i: nat)
    requires i < |ps| && forall j, k :: 0 <= j < k < |ps| ==> ps[j].id != ps[k].id
    ensures CostOf(ps, ps[i].id) == ps[i].EstimatedCost()
  {
    if i > 0 {
      CostAt(ps[1..], i - 1);
    }
  }

  lemma PackagingAccepted(p: Phase)
    requires p.Packaging? && !Blank(p.job.task) && !Blank(p.run)
    ensures var e := HandoffEvent(p.job.task, p.run, p.agent, p.packet.Address(), p.packet.reason);
            Accepts(e) && e.task == Some(p.job.task)
  {
    hide Blank;
    HandoffFine(p);
  }

  /** The protocol's two reads before a charge is written. */
  lemma BillReads(cfg: Config, t: TaskId, v0: View, cs0: seq<Choice>, v1: View, job: Job, agent: AgentId, outcome: Outcome)
    returns (cs: seq<Choice>, v: View)
    requires Walk(cfg, t, v0, cs0, v1) && v1.worker.phase == Billing(job, agent, outcome) && v1.rec.budget.Some? && job.task == t
    ensures Walk(cfg, t, v0, cs, v)
    ensures var before := v1.rec.budget.value; v == v1.To(BillWrite(job, agent, outcome, before, before))
  {
    hide LocalStep, Walk, OnBegin, OnReading, OnInserting, OnSyncing, OnConsulting, OnChoosing, OnCleared,
         OnCharging, OnChargeRead, OnCharged, OnLaunching, OnStarting, OnExecuting, OnFinished, OnBillWrite,
         OnBilled, OnRecording, Settle, OnContexting, OnPackaging, OnExcluding, OnAddressing, OnReleasing,
         OnReporting, OnFailing;
    cs, v := cs0, v1;
    Dispatch(cfg, v, Go);
    cs, v := Advance(cfg, t, v0, cs, v, Go);
    Dispatch(cfg, v, Go);
    cs, v := Advance(cfg, t, v0, cs, v, Go);
  }

  /** The protocol's steps that charge a run and ring its alarm. */
  lemma BillWalk(cfg: Config, t: TaskId, v0: View, cs0: seq<Choice>, v1: View, job: Job, agent: AgentId, outcome: Outcome, wallMs: real)
    returns (cs: seq<Choice>, v: View)
    requires Walk(cfg, t, v0, cs0, v1) && v1.worker.phase == Billing(job, agent, outcome) && v1.rec.budget.Some? && job.task == t
    ensures Walk(cfg, t, v0, cs, v)
    ensures var before := v1.rec.budget.value;
            var after := PostRan(before, if wallMs >= 0.0 then wallMs else 0.0, CostOf(cfg.profiles, agent));
            var a := AlarmFor(v1.worker.emitted, t, before.status, after.status);
            && v.rec == v1.rec.(budget := Some(after), log := v1.rec.log + AlarmEvents(a, after))
            && v.worker == v1.worker.(phase := Recording(job, agent, outcome, after), emitted := v1.worker.emitted + AlarmSet(a))
            && v == v1.(rec := v.rec, worker := v.worker)
  {
    hide LocalStep, Walk, PostRan, CostOf, Transition, AlarmEvents, AlarmFor, AlarmSet, OnBegin, OnReading,
         OnInserting, OnSyncing, OnConsulting, OnChoosing, OnCleared, OnCharging, OnChargeRead, OnCharged,
         OnLaunching, OnStarting, OnExecuting, OnFinished, OnBilling, OnBillRead, OnRecording, Settle, OnContexting,
         OnPackaging, OnExcluding, OnAddressing, OnReleasing, OnReporting, OnFailing;
    cs, v := BillReads(cfg, t, v0, cs0, v1, job, agent, outcome);
    Dispatch(cfg, v, Elapse(wallMs));
    cs, v := Advance(cfg, t, v0, cs, v, Elapse(wallMs));
    TransitionIs(v, t, v1.rec.budget.value.status, v.rec.budget.value);
    Dispatch(cfg, v, Go);
    cs, v := Advance(cfg, t, v0, cs, v, Go);
  }

  lemma ChooseWalk(cfg: Config, t: TaskId, v0: View, cs0: seq<Choice>, v1: View, metrics: map<AgentId, Metrics>)
    returns (cs: seq<Choice>, v: View)
    requires Walk(cfg, t, v0, cs0, v1) && v1.worker.phase.Choosing? && v1.worker.phase.job.task == t
    ensures Walk(cfg, t, v0, cs, v)
    ensures var p := v1.worker.phase; var d := DecisionAt(cfg, v1, p, metrics);
            v == v1.Logging([DispatchedEvent(t, d)]).To(if d.picked.Some? then Cleared(p.job, d.picked.value) else RefusalPhase(p.job, d))
  {
    hide LocalStep, Walk, DecisionAt, DispatchedEvent, RefusalPhase, OnBegin, OnReading, OnInserting, OnSyncing,
         OnConsulting, OnCleared, OnCharging, OnChargeRead, OnCharged, OnLaunching, OnStarting, OnExecuting,
         OnFinished, OnBilling, OnBillRead, OnBillWrite, OnBilled, OnRecording, Settle, OnContexting, OnPackaging,
         OnExcluding, OnAddressing, OnReleasing, OnReporting, OnFailing;
    cs, v := cs0, v1;
    Dispatch(cfg, v, Observe(metrics));
    cs, v := Advance(cfg, t, v0, cs, v, Observe(metrics));
  }

  /** The protocol's steps for a release and the event after it. */
  lemma ReleaseWalk(cfg: Config, t: TaskId, v0: View, cs0: seq<Choice>, v1: View, plan: Plan) returns (cs: seq<Choice>, v: View)
    requires Walk(cfg, t, v0, cs0, v1) && v1.worker.phase == Releasing(t, plan)
    ensures Walk(cfg, t, v0, cs, v)
    ensures v == v1.WithRow(ReleasedRow(v1.rec.row, plan.status, plan.role, plan.attempts))
                   .Logging([TaskEvent(plan.kind, t, plan.run)]).To(Idle)
  {
    hide LocalStep, Walk, ReleasedRow, OnBegin, OnReading, OnInserting, OnSyncing, OnConsulting, OnChoosing, OnCleared,
         OnCharging, OnChargeRead, OnCharged, OnLaunching, OnStarting, OnExecuting, OnFinished, OnBilling,
         OnBillRead, OnBillWrite, OnBilled, OnRecording, Settle, OnContexting, OnPackaging, OnExcluding,
         OnAddressing, OnFailing;
    cs, v := cs0, v1;
    Dispatch(cfg, v, Go);
    cs, v := Advance(cfg, t, v0, cs, v, Go);
    Dispatch(cfg, v, Go);
    cs, v := Advance(cfg, t, v0, cs, v, Go);
  }

  lemma SettleWalk(cfg: Config, t: TaskId, v0: View, cs0: seq<Choice>, v1: View) returns (cs: seq<Choice>, v: View)
    requires Walk(cfg, t, v0, cs0, v1) && v1.worker.phase.Settling? && v1.worker.phase.job.task == t
    ensures Walk(cfg, t, v0, cs, v)
    ensures var p := v1.worker.phase; v == v1.To(Settle(p.job, p.agent, p.outcome, p.after))
  {
    hide LocalStep, Walk, OnBegin, OnReading, OnInserting, OnSyncing, OnConsulting, OnChoosing, OnCleared,
         OnCharging, OnChargeRead, OnCharged, OnLaunching, OnStarting, OnExecuting, OnFinished, OnBilling,
         OnBillRead, OnBillWrite, OnBilled, OnRecording, Settle, OnContexting, OnPackaging, OnExcluding,
         OnAddressing, OnReleasing, OnReporting, OnFailing;
    cs, v := cs0, v1;
    Dispatch(cfg, v, Go);
    cs, v := Advance(cfg, t, v0, cs, v, Go);
  }

  lemma ContextWalk(cfg: Config, t: TaskId, v0: View, cs0: seq<Choice>, v1: View) returns (cs: seq<Choice>, v: View)
    requires Walk(cfg, t, v0, cs0, v1) && v1.worker.phase.Contexting? && v1.worker.phase.job.task == t
    ensures Walk(cfg, t, v0, cs, v)
    ensures var p := v1.worker.phase; v == v1.WithRow(v1.rec.row.(context := Some(p.setContext))).To(Releasing(t, p.plan))
  {
    hide LocalStep, Walk, OnBegin, OnReading, OnInserting, OnSyncing, OnConsulting, OnChoosing, OnCleared,
         OnCharging, OnChargeRead, OnCharged, OnLaunching, OnStarting, OnExecuting, OnFinished, OnBilling,
         OnBillRead, OnBillWrite, OnBilled, OnRecording, Settle, OnPackaging, OnExcluding, OnAddressing, OnReleasing,
         OnReporting, OnFailing;
    cs, v := cs0, v1;
    Dispatch(cfg, v, Go);
    cs, v := Advance(cfg, t, v0, cs, v, Go);
  }

  lemma RecordWalk(cfg: Config, t: TaskId, v0: View, cs0: seq<Choice>, v1: View, job: Job, agent: AgentId, outcome: Outcome, after: Budget)
    returns (cs: seq<Choice>, v: View)
    requires Walk(cfg, t, v0, cs0, v1) && v1.worker.phase == Recording(job, agent, outcome, after) && job.task == t
    ensures Walk(cfg, t, v0, cs, v)
    ensures var h := HealthOf(v1.health, agent);
            var h' := if ProviderFailure(outcome).Some? then WorseHealth(h, ProviderFailure(outcome).value) else h;
            && v.worker == v1.worker.(phase := Settling(job, agent, outcome, after)) && v.rec == v1.rec && v.used == v1.used
            && (if h' == h then v.health == v1.health && v.agentAlarms == v1.agentAlarms
                else
                  && v.health == v1.health[agent := h']
                  && v.agentAlarms == v1.agentAlarms + [AgentAlarm(AlarmKind(h'), agent, outcome.run)])
  {
    hide LocalStep, Walk, WorseHealth, ProviderFailure, HealthOf, AgentAlarm, OnBegin, OnReading, OnInserting,
         OnSyncing, OnConsulting, OnChoosing, OnCleared, OnCharging, OnChargeRead, OnCharged, OnLaunching,
         OnStarting, OnExecuting, OnFinished, OnBilling, OnBillRead, OnBillWrite, OnBilled, Settle, OnContexting,
         OnPackaging, OnExcluding, OnAddressing, OnReleasing, OnReporting, OnFailing;
    cs, v := cs0, v1;
    Dispatch(cfg, v, Go);
    cs, v := Advance(cfg, t, v0, cs, v, Go);
  }

  /** The protocol's steps of a handover, up to the release. */
  lemma HandWalk(cfg: Config, t: TaskId, v0: View, cs0: seq<Choice>, v1: View, job: Job, agent: AgentId, run: RunId, packet: Packet, plan: Plan)
    returns (cs: seq<Choice>, v: View)
    requires Walk(cfg, t, v0, cs0, v1) && v1.worker.phase == Packaging(job, agent, run, packet, plan) && job.task == t
    ensures Walk(cfg, t, v0, cs, v)
    ensures var order := v1.rec.row.order.(excludes := Merged(v1.rec.row.order.excludes, packet.excludes));
            && v.rec == v1.rec.(row := v1.rec.row.(order := order, handoff := Some(packet.Address())),
                                log := v1.rec.log + [HandoffEvent(t, run, agent, packet.Address(), packet.reason)])
            && v.worker == v1.worker.(cache := v1.worker.cache[t := order], phase := Releasing(t, plan))
            && v == v1.(rec := v.rec, worker := v.worker)
  {
    hide LocalStep, Walk, Merged, HandoffEvent, OnBegin, OnReading, OnInserting, OnSyncing, OnConsulting, OnChoosing,
         OnCleared, OnCharging, OnChargeRead, OnCharged, OnLaunching, OnStarting, OnExecuting, OnFinished, OnBilling,
         OnBillRead, OnBillWrite, OnBilled, OnRecording, Settle, OnContexting, OnReleasing, OnReporting, OnFailing;
    cs, v := cs0, v1;
    Dispatch(cfg, v, Go);
    cs, v := Advance(cfg, t, v0, cs, v, Go);
    Dispatch(cfg, v, Go);
    cs, v := Advance(cfg, t, v0, cs, v, Go);
    Dispatch(cfg, v, Go);
    cs, v := Advance(cfg, t, v0, cs, v, Go);
  }

  /** The protocol's steps for one charge: two reads, the write, and the alarm. */
  lemma ChargeWalk(cfg: Config, t: TaskId, v0: View, cs0: seq<Choice>, v1: View, job: Job, agent: AgentId)
    returns (cs: seq<Choice>, v: View)
    requires Walk(cfg, t, v0, cs0, v1) && v1.worker.phase == Cleared(job, agent) && v1.rec.budget.Some? && job.task == t
    ensures Walk(cfg, t, v0, cs, v)
    ensures var before := v1.rec.budget.value; var after := PreLaunched(before);
            var a := AlarmFor(v1.worker.emitted, t, before.status, after.status);
            && v.rec == v1.rec.(budget := Some(after), log := v1.rec.log + AlarmEvents(a, after), attempts := v.rec.attempts)
            && v.worker == v1.worker.(phase := Launching(job, agent), emitted := v1.worker.emitted + AlarmSet(a))
            && v == v1.(rec := v.rec, worker := v.worker)
    ensures v.rec.attempts == v1.rec.attempts + [Attempt(job.snap.role, agent, NoRun, InFlight)]
  {
    hide LocalStep, Walk, PreLaunched, Transition, AlarmEvents, AlarmFor, AlarmSet, OnBegin, OnReading, OnInserting,
         OnSyncing, OnConsulting, OnChoosing, OnLaunching, OnStarting, OnExecuting, OnFinished, OnBilling,
         OnBillRead, OnBillWrite, OnBilled, OnRecording, Settle, OnContexting, OnPackaging, OnExcluding,
         OnAddressing, OnReleasing, OnReporting, OnFailing;
    cs, v := cs0, v1;
    Dispatch(cfg, v, Go);
    cs, v := Advance(cfg, t, v0, cs, v, Go);
    Dispatch(cfg, v, Go);
    cs, v := Advance(cfg, t, v0, cs, v, Go);
    Dispatch(cfg, v, Go);
    cs, v := Advance(cfg, t, v0, cs, v, Go);
    TransitionIs(v, t, v1.rec.budget.value.status, PreLaunched(v1.rec.budget.value));
    Dispatch(cfg, v, Go);
    cs, v := Advance(cfg, t, v0, cs, v, Go);
  }

  function RunEvents(c: Context, o: WorkOrder, role: Role, world: World): seq<Event> {
    CreationEvents(c, role) + (if world.prepared then StartEvents(c) else []) + RunEffect(c, o, role, world).events
  }

  function RunEffect(c: Context, o: WorkOrder, role: Role, world: World): Effect {
    if world.prepared then Execute(c, o, world.env) else CreationFailure(c, role)
  }

  /** The protocol's step that creates the run row. */
  lemma CreateWalk(cfg: Config, t: TaskId, v0: View, cs0: seq<Choice>, v1: View, c: Context, job: Job)
    returns (cs: seq<Choice>, v: View)
    requires Walk(cfg, t, v0, cs0, v1) && v1.worker.phase == Launching(job, c.agent) && v1.rec.attempts != []
    requires job.task == t == c.task && c.run !in v1.used && !Blank(c.run)
    ensures Walk(cfg, t, v0, cs, v)
    ensures v == v1.(rec := v.rec, worker := v1.worker.(phase := Starting(job, c.agent, c.run)), used := v1.used + {c.run})
    ensures v.rec == v1.rec.(log := v1.rec.log + CreationEvents(c, job.snap.role), attempts := v.rec.attempts)
    ensures v.rec.attempts != [] && Front(v.rec.attempts) == Front(v1.rec.attempts)
  {
    hide LocalStep, Walk, Blank, CreationEvents, OnBegin, OnReading, OnInserting, OnSyncing, OnConsulting,
         OnChoosing, OnCleared, OnCharging, OnChargeRead, OnCharged, OnStarting, OnExecuting, OnFinished, OnBilling,
         OnBillRead, OnBillWrite, OnBilled, OnRecording, Settle, OnContexting, OnPackaging, OnExcluding,
         OnAddressing, OnReleasing, OnReporting, OnFailing;
    cs, v := cs0, v1;
    Dispatch(cfg, v, Protocol.Launch(c.run));
    cs, v := Advance(cfg, t, v0, cs, v, Protocol.Launch(c.run));
  }

  /** The protocol's step that prepares the run, or ends it. */
  lemma StartWalk(cfg: Config, t: TaskId, v0: View, cs0: seq<Choice>, v1: View, c: Context, prepared: bool, job: Job)
    returns (cs: seq<Choice>, v: View)
    requires Walk(cfg, t, v0, cs0, v1) && v1.worker.phase == Starting(job, c.agent, c.run) && v1.rec.attempts != []
    requires job.task == t == c.task
    ensures Walk(cfg, t, v0, cs, v)
    ensures v == v1.(rec := v.rec, worker := v1.worker.(phase := v.worker.phase))
    ensures var f := CreationFailure(c, job.snap.role);
            && v.rec == v1.rec.(log := v1.rec.log + (if prepared then StartEvents(c) else f.events), attempts := v.rec.attempts)
            && v.worker.phase == (if prepared then Executing(job, c.agent, c.run) else Finished(job, c.agent, f.result.outcome))
            && v.rec.attempts != [] && Last(v.rec.attempts).run == RunRow(c.run, if prepared then Running else RunFailed)
            && Front(v.rec.attempts) == Front(v1.rec.attempts)
  {
    hide LocalStep, Walk, Blank, StartEvents, OnBegin, OnReading, OnInserting, OnSyncing, OnConsulting, OnChoosing,
         OnCleared, OnCharging, OnChargeRead, OnCharged, OnLaunching, OnExecuting, OnFinished, OnBilling, OnBillRead,
         OnBillWrite, OnBilled, OnRecording, Settle, OnContexting, OnPackaging, OnExcluding, OnAddressing,
         OnReleasing, OnReporting, OnFailing;
    cs, v := cs0, v1;
    Dispatch(cfg, v, Create(prepared));
    cs, v := Advance(cfg, t, v0, cs, v, Create(prepared));
  }

  /** The protocol's steps for one run: created, started, executed. */
  lemma RunWalk(cfg: Config, t: TaskId, v0: View, cs0: seq<Choice>, v1: View, c: Context, order: WorkOrder, role: Role, world: World, job: Job)
    returns (cs: seq<Choice>, v: View)
    requires Walk(cfg, t, v0, cs0, v1) && v1.worker.phase == Launching(job, c.agent) && v1.rec.attempts != []
    requires job.task == t == c.task && job.order == order && job.snap.role == role && c.run == world.newRun
    requires c.run !in v1.used && !Blank(c.run) && world.env.ForRole(role)
    ensures Walk(cfg, t, v0, cs, v)
    ensures v == v1.(rec := v.rec, worker := v1.worker.(phase := v.worker.phase), used := v1.used + {c.run})
    ensures v.rec == v1.rec.(log := v1.rec.log + RunEvents(c, order, role, world), attempts := v.rec.attempts)
    ensures v.rec.attempts != [] && Last(v.rec.attempts).run == RunRow(c.run, RunEffect(c, order, role, world).status)
    ensures Front(v.rec.attempts) == Front(v1.rec.attempts)
    ensures match RunEffect(c, order, role, world).result
            case Returned(o) => v.worker.phase == Finished(job, c.agent, o)
            case Aborted => v.worker.phase == Failing(t, job.snap)
            case Threw => v.worker.phase == Fail(job, job.snap.attempts, None)
  {
    hide LocalStep, Walk, Blank, CreationEvents, StartEvents, Execute, Fail, OnBegin, OnReading, OnInserting,
         OnSyncing, OnConsulting, OnChoosing, OnCleared, OnCharging, OnChargeRead, OnCharged, OnLaunching,
         OnStarting, OnFinished, OnBilling, OnBillRead, OnBillWrite, OnBilled, OnRecording, Settle, OnContexting,
         OnPackaging, OnExcluding, OnAddressing, OnReleasing, OnReporting, OnFailing;
    cs, v := CreateWalk(cfg, t, v0, cs0, v1, c, job);
    cs, v := StartWalk(cfg, t, v0, cs, v, c, world.prepared, job);
    if world.prepared {
      Dispatch(cfg, v, Happen(world.env));
      cs, v := Advance(cfg, t, v0, cs, v, Happen(world.env));
    }
    assert v.rec.log == v1.rec.log + RunEvents(c, order, role, world);
  }

  /** The protocol's steps for reading the task. */
  lemma LoadWalk(cfg: Config, t: TaskId, v0: View, snap: Row) returns (cs: seq<Choice>, v: View)
    requires v0.worker.phase == Begin(t, snap)
    ensures Walk(cfg, t, v0, cs, v)
    ensures var order := if t in v0.worker.cache then v0.worker.cache[t] else v0.rec.row.order;
            var context := if snap.role.Reviewer? then v0.rec.row.context else None;
            var handoff := if snap.role.Reviewer? then None else v0.rec.row.handoff;
            v == v0.(worker := v0.worker.(cache := v0.worker.cache[t := order],
                     phase := if snap.role.Reviewer? && context.None?
                              then Releasing(t, Plan(Failed, snap.role, snap.attempts, TaskFailed, None))
                              else Budgeting(Job(t, snap, order, context, handoff))))
  {
    hide LocalStep, Walk, OnInserting, OnSyncing, OnConsulting, OnChoosing, OnCleared, OnCharging, OnChargeRead,
         OnCharged, OnLaunching, OnStarting, OnExecuting, OnFinished, OnBilling, OnBillRead, OnBillWrite, OnBilled,
         OnRecording, Settle, OnContexting, OnPackaging, OnExcluding, OnAddressing, OnReleasing, OnReporting,
         OnFailing;
    WalkFrom(cfg, t, v0);
    cs, v := [], v0;
    Dispatch(cfg, v, Go);
    cs, v := Advance(cfg, t, v0, cs, v, Go);
    Dispatch(cfg, v, Go);
    cs, v := Advance(cfg, t, v0, cs, v, Go);
  }

  /** The protocol's steps for preparing the budget. */
  lemma BudgetWalk(cfg: Config, t: TaskId, v0: View, cs0: seq<Choice>, v1: View, job: Job) returns (cs: seq<Choice>, v: View)
    requires Walk(cfg, t, v0, cs0, v1) && v1.worker.phase == Budgeting(job) && job.task == t
    ensures Walk(cfg, t, v0, cs, v)
    ensures var b := if v1.rec.budget.Some? then v1.rec.budget.value else Fresh(job.order.BudgetCaps());
            v == v1.(rec := v1.rec.(budget := Some(b)),
                     worker := v1.worker.(emitted := SyncEmitted(v1.worker.emitted, t, b.status), phase := Choosing(job, b)))
  {
    hide LocalStep, Walk, SyncEmitted, OnBegin, OnReading, OnChoosing, OnCleared, OnCharging, OnChargeRead,
         OnCharged, OnLaunching, OnStarting, OnExecuting, OnFinished, OnBilling, OnBillRead, OnBillWrite, OnBilled,
         OnRecording, Settle, OnContexting, OnPackaging, OnExcluding, OnAddressing, OnReleasing, OnReporting,
         OnFailing;
    cs, v := cs0, v1;
    Dispatch(cfg, v, Go);
    cs, v := Advance(cfg, t, v0, cs, v, Go);
    if v.worker.phase.Inserting? {
      Dispatch(cfg, v, Go);
      cs, v := Advance(cfg, t, v0, cs, v, Go);
    }
    Dispatch(cfg, v, Go);
    cs, v := Advance(cfg, t, v0, cs, v, Go);
    Dispatch(cfg, v, Go);
    cs, v := Advance(cfg, t, v0, cs, v, Go);
  }

  /** The alarm of a charge, as the log and the protocol's transition record it. */
  lemma AlarmLogged(t: TaskId, v: View, before: BudgetStatus, after: Budget, events: seq<Event>)
    ensures var a := AlarmFor(v.worker.emitted, t, before, after.status);
            && EventsOf(events + AlarmEvents(a, after), Some(t)) == EventsOf(events, Some(t)) + AlarmEvents(a, after)
            && EventsOf(events + AlarmEvents(a, after), None) == EventsOf(events, None)
            && Foreign(events + AlarmEvents(a, after), t) == Foreign(events, t)
            && Transition(v, t, before, after)
               == v.Logging(AlarmEvents(a, after)).(worker := v.worker.(emitted := v.worker.emitted + AlarmSet(a)))
  {
    hide EventsOf, Foreign, Transition, PickAxis;
    var a := AlarmFor(v.worker.emitted, t, before, after.status);
    TransitionIs(v, t, before, after);
    EventsOfSame(events, AlarmEvents(a, after), Some(t), Some(t));
    EventsOfSame(events, AlarmEvents(a, after), Some(t), None);
    ForeignSame(events, AlarmEvents(a, after), t);
    assert EventsOf(events, None) + [] == EventsOf(events, None);
  }

  lemma AfterAgentAbout(c: Context, o: WorkOrder, env: ImplementerEnv, es: seq<Event>, failure: Option<FailReason>)
    requires About(es, Some(c.task))
    ensures About(AfterAgent(c, o, env, es, failure).events, Some(c.task))
  {
  }

  lemma ImplementerAbout(c: Context, o: WorkOrder, env: ImplementerEnv)
    ensures About(RunImplementer(c, o, env).events, Some(c.task))
  {
    hide AfterAgent;
    if env.cli.Exited? {
      AfterAgentAbout(c, o, env, [Spawned(c.task, c.run, c.agent)] + c.Published(AgentSaves(env.hasReport)), Classify(env.cli));
    }
  }

  lemma AfterReviewAbout(c: Context, env: ReviewerEnv, es: seq<Event>, failure: Option<FailReason>)
    requires About(es, Some(c.task))
    ensures About(AfterReview(c, env, es, failure).events, Some(c.task))
  {
  }

  lemma ReviewerAbout(c: Context, env: ReviewerEnv)
    ensures About(RunReviewer(c, env).events, Some(c.task))
  {
    hide AfterReview;
    if env.cli.Exited? {
      var spawned := c.Published(2) + [c.Happened(ReviewRequested), Spawned(c.task, c.run, c.agent)];
      AfterReviewAbout(c, env, spawned + c.Published(2), Classify(env.cli));
    }
  }

  /** Every event of a run is filed under its task. */
  lemma RunLogged(c: Context, o: WorkOrder, role: Role, prepared: bool, env: Env, events: seq<Event>)
    ensures var f := if prepared then Execute(c, o, env) else CreationFailure(c, role);
            var es := CreationEvents(c, role) + (if prepared then StartEvents(c) else []) + f.events;
            && EventsOf(events + es, Some(c.task)) == EventsOf(events, Some(c.task)) + es
            && EventsOf(events + es, None) == EventsOf(events, None)
            && Foreign(events + es, c.task) == Foreign(events, c.task)
            && events + CreationEvents(c, role) + (if prepared then StartEvents(c) else []) + f.events == events + es
  {
    hide EventsOf, Foreign, RunImplementer, RunReviewer;
    var f := if prepared then Execute(c, o, env) else CreationFailure(c, role);
    var es := CreationEvents(c, role) + (if prepared then StartEvents(c) else []) + f.events;
    if env.ForImplementer? {
      ImplementerAbout(c, o, env.implementer);
    } else {
      ReviewerAbout(c, env.reviewer);
    }
    EventsOfSame(events, es, Some(c.task), Some(c.task));
    EventsOfSame(events, es, Some(c.task), None);
    ForeignSame(events, es, c.task);
    assert EventsOf(events, None) + [] == EventsOf(events, None);
  }

  lemma PlanAccepted(t: TaskId, plan: Plan)
    requires !Blank(t) && plan.kind == KindFor(plan.status)
    ensures Accepts(TaskEvent(plan.kind, t, plan.run)) && TaskEvent(plan.kind, t, plan.run).task == Some(t)
  {
    hide Blank;
  }
}
