/** Budget alarms: whatever the interleaving, each level of a task's budget rings once, in order, and none is lost. */
module Alarms {
  import opened Types
  import opened Js
  import opened Budgets
  import opened Events
  import opened Runs
  import opened Handoffs
  import opened Protocol
  import opened Shape
  import opened System
  import opened Ledger
  import opened Announcements

  predicate IsAlarm(e: Event) {
    e.kind.QuotaLow? || e.kind.QuotaExhaustedAlarm?
  }

  /** The alarms of a log, in order. */
  function Rings(log: seq<Event>): seq<Event> {
    if log == [] then []
    else Rings(log[..|log| - 1]) + if IsAlarm(log[|log| - 1]) then [log[|log| - 1]] else []
  }

  /** The budget status up to which the alarms have rung: a charge rings one step after it is written. */
  function RungAt(budget: Option<Budget>, hold: Option<Phase>): BudgetStatus {
    if hold.Some? && (hold.value.Charged? || hold.value.Billed?) then hold.value.before.status
    else if budget.Some? then budget.value.status
    else Ok
  }

  /** The alarm that a change of status calls for. */
  function Due(t: TaskId, before: BudgetStatus, after: Budget): seq<Event> {
    if before.Ok? && after.status.SoftWarning? then [TaskAlarm(QuotaLow, t, PickAxis(after).1)]
    else if !before.Exhausted? && after.status.Exhausted? then [TaskAlarm(QuotaExhaustedAlarm, t, PickAxis(after).1)]
    else []
  }

  /** A logged alarm names the task and reports a ratio that explains its level. */
  predicate Truthful(t: TaskId, e: Event) {
    && (e.kind.QuotaLow? || e.kind.QuotaExhaustedAlarm?)
    && KTaskId in e.payload && e.payload[KTaskId] == Text(t)
    && KRatio in e.payload && e.payload[KRatio].Number?
    && (e.kind.QuotaLow? ==> 0.8 <= e.payload[KRatio].n < 1.0)
    && (e.kind.QuotaExhaustedAlarm? ==> e.payload[KRatio].n >= 1.0)
  }

  /** `[]`, `[low]`, `[exhausted]` or `[low, exhausted]`, as the status demands. */
  predicate RingsMatch(rings: seq<Event>, st: BudgetStatus) {
    match st
    case Ok => rings == []
    case SoftWarning => |rings| == 1 && rings[0].kind.QuotaLow?
    case Exhausted =>
      || (|rings| == 1 && rings[0].kind.QuotaExhaustedAlarm?)
      || (|rings| == 2 && rings[0].kind.QuotaLow? && rings[1].kind.QuotaExhaustedAlarm?)
  }

  /** What a manager believes to have rung is not ahead of the status. */
  predicate NotAhead(emitted: set<Alarm>, t: TaskId, st: BudgetStatus) {
    && (Alarm(t, false) in emitted ==> !st.Ok?)
    && (Alarm(t, true) in emitted ==> st.Exhausted?)
  }

  predicate TaskAlarms(t: TaskId, rec: TaskRec, hold: Option<Phase>) {
    && RingsMatch(Rings(rec.log), RungAt(rec.budget, hold))
    && forall e :: e in Rings(rec.log) ==> Truthful(t, e)
  }

  lemma {:induction false} RingsAppend(xs: seq<Event>, ys: seq<Event>)
    ensures Rings(xs + ys) == Rings(xs) + Rings(ys)
  {
    if ys == [] {
      assert xs + ys == xs;
    } else {
      var n := |ys| - 1;
      RingsAppend(xs, ys[..n]);
      assert (xs + ys)[..|xs| + n] == xs + ys[..n];
    }
  }

  lemma {:induction false} FineRingsNot(es: seq<Event>)
    requires AllFine(es)
    ensures Rings(es) == []
  {
    hide Accepts;
    if es != [] {
      assert Fine(es[|es| - 1]);
      FineRingsNot(es[..|es| - 1]);
    }
  }

  // ---- One step of the holder ----

  /** What a step does to the alarms rung and to the manager's memory of them. */
  predicate RingMoves(t: TaskId, v: View, v': View) {
    var p := v.worker.phase;
    var st, st' := RungAt(v.rec.budget, Some(p)), RungAt(v'.rec.budget, Held(v'.worker.phase));
    if p.Charged? || p.Billed? then
      && st' == p.after.status
      && v'.rec.log == v.rec.log + Due(t, st, p.after)
      && v'.worker.emitted <= SyncEmitted(v.worker.emitted, t, st')
    else
      && st' == st
      && v'.worker.emitted <= SyncEmitted(v.worker.emitted, t, st)
  }

  predicate Ringing(t: TaskId, v: View, p: Phase) {
    p == v.worker.phase && Holds(p) == Some(t) && PhaseShape(v.rec, p) && NotAhead(v.worker.emitted, t, RungAt(v.rec.budget, Some(p)))
  }

  lemma RingRead(cfg: Config, t: TaskId, v: View, p: Phase, c: Choice)
    requires Ringing(t, v, p) && (p.Begin? || p.Reading? || p.Budgeting? || p.Inserting?)
    ensures RingMoves(t, v, LocalStep(cfg, v, c))
  {
    hide CacheOk, Settle, OnChoosing, OnExecuting, OnStarting, OnLaunching, Transition, NotAhead;
  }

  lemma RingConsult(cfg: Config, t: TaskId, v: View, p: Phase, c: Choice)
    requires Ringing(t, v, p) && (p.Syncing? || p.Consulting? || p.Cleared? || p.Charging? || p.ChargeRead?)
    ensures RingMoves(t, v, LocalStep(cfg, v, c))
  {
    hide CacheOk, Settle, OnChoosing, OnExecuting, OnStarting, OnLaunching, Transition, PreLaunched, NotAhead;
  }

  /** Nothing the manager remembers hides a real change of status. */
  lemma RingTransition(cfg: Config, t: TaskId, v: View, p: Phase, c: Choice)
    requires Ringing(t, v, p) && (p.Charged? || p.Billed?)
    ensures RingMoves(t, v, LocalStep(cfg, v, c))
  {
    hide CacheOk, Settle, OnChoosing, OnExecuting, OnStarting, OnLaunching, PickAxis, TaskAlarm;
  }

  lemma RingChoose(cfg: Config, t: TaskId, v: View, p: Phase, c: Choice)
    requires Ringing(t, v, p) && p.Choosing?
    ensures RingMoves(t, v, OnChoosing(cfg, v, p, c))
  {
    hide CacheOk, DecisionAt, NotAhead, DispatchedEvent;
  }

  lemma RingRun(t: TaskId, v: View, p: Phase, c: Choice)
    requires Ringing(t, v, p) && (p.Launching? || p.Starting? || p.Executing?)
    ensures p.Launching? ==> RingMoves(t, v, OnLaunching(v, p, c))
    ensures p.Starting? ==> RingMoves(t, v, OnStarting(v, p, c))
    ensures p.Executing? ==> RingMoves(t, v, OnExecuting(v, p, c))
  {
    hide CacheOk, NotAhead, CreationEvents, StartEvents, CreationFailure, Execute;
  }

  lemma RingBill(cfg: Config, t: TaskId, v: View, p: Phase, c: Choice)
    requires Ringing(t, v, p) && (p.Finished? || p.Billing? || p.BillRead? || p.BillWrite? || p.Recording?)
    ensures RingMoves(t, v, LocalStep(cfg, v, c))
  {
    hide CacheOk, Settle, OnChoosing, OnExecuting, OnStarting, OnLaunching, Transition, PostRan, CostOf, WorseHealth, NotAhead;
  }

  lemma RingClose(cfg: Config, t: TaskId, v: View, p: Phase, c: Choice)
    requires Ringing(t, v, p) && (p.Settling? || HasPlan(p) || p.Failing?)
    ensures RingMoves(t, v, LocalStep(cfg, v, c))
  {
    hide CacheOk, OnChoosing, OnExecuting, OnStarting, OnLaunching, Transition, Merged, PacketExcludes, NotAhead;
  }

  lemma RingStep(cfg: Config, t: TaskId, v: View, c: Choice)
    requires Ringing(t, v, v.worker.phase)
    ensures RingMoves(t, v, LocalStep(cfg, v, c))
  {
    hide RingMoves, PhaseShape, NotAhead, OnBegin, OnReading, OnInserting, OnSyncing, OnConsulting, OnChoosing,
         OnCleared, OnCharging, OnChargeRead, OnCharged, OnLaunching, OnStarting, OnExecuting, OnFinished, OnBilling,
         OnBillRead, OnBillWrite, OnBilled, OnRecording, Settle, OnContexting, OnPackaging, OnExcluding, OnAddressing,
         OnReleasing, OnFailing;
    var p := v.worker.phase;
    match p
    case Begin(_, _) | Reading(_, _, _) | Budgeting(_) | Inserting(_) => RingRead(cfg, t, v, p, c);
    case Syncing(_) | Consulting(_) | Cleared(_, _) | Charging(_, _, _) | ChargeRead(_, _, _, _) => RingConsult(cfg, t, v, p, c);
    case Charged(_, _, _, _) | Billed(_, _, _, _, _) => RingTransition(cfg, t, v, p, c);
    case Choosing(_, _) => RingChoose(cfg, t, v, p, c);
    case Launching(_, _) | Starting(_, _, _) | Executing(_, _, _) => RingRun(t, v, p, c);
    case Finished(_, _, _) | Billing(_, _, _) | BillRead(_, _, _, _) | BillWrite(_, _, _, _, _) | Recording(_, _, _, _) =>
      RingBill(cfg, t, v, p, c);
    case _ => RingClose(cfg, t, v, p, c);
  }

  // ---- Every reachable state ----

  function RungIn(s: Sys, t: TaskId): BudgetStatus
    requires t in s.tasks
  {
    RungAt(s.tasks[t].budget, Holder(s, t))
  }

  /** No manager is ahead of the alarms of any task, known or yet to come. */
  predicate Modest(s: Sys, w: WorkerId, t: TaskId) {
    w in s.workers ==> NotAhead(s.workers[w].emitted, t, if t in s.tasks then RungIn(s, t) else Ok)
  }

  ghost predicate Alarmed(s: Sys) {
    && (forall t :: t in s.tasks ==> TaskAlarms(t, s.tasks[t], Holder(s, t)))
    && (forall w, t :: Modest(s, w, t))
  }

  /** The status only rises while its alarms ring. */
  lemma RungRises(t: TaskId, v: View, v': View)
    requires RingMoves(t, v, v') && PhaseShape(v.rec, v.worker.phase)
    ensures RungAt(v.rec.budget, Some(v.worker.phase)).Rank() <= RungAt(v'.rec.budget, Held(v'.worker.phase)).Rank()
  {
    hide CacheOk, Due, SyncEmitted;
  }

  lemma RingsAfterDue(t: TaskId, rings: seq<Event>, st: BudgetStatus, after: Budget)
    requires RingsMatch(rings, st) && st.Rank() <= after.status.Rank()
    ensures RingsMatch(rings + Due(t, st, after), after.status)
  {
    hide PickAxis;
  }

  lemma DueTruthful(t: TaskId, st: BudgetStatus, after: Budget)
    requires Consistent(after)
    ensures forall e :: e in Due(t, st, after) ==> Truthful(t, e)
    ensures Rings(Due(t, st, after)) == Due(t, st, after)
  {
    hide PickAxis;
    AxisExplainsStatus(after);
  }

  lemma AlarmsStepped(cfg: Config, t: TaskId, v: View, c: Choice)
    requires ValidConfig(cfg) && Ringing(t, v, v.worker.phase) && Named0(t, v, v.worker.phase) && BudgetMatches(v.rec)
    requires TaskAlarms(t, v.rec, Some(v.worker.phase))
    ensures var v' := LocalStep(cfg, v, c); TaskAlarms(t, v'.rec, Held(v'.worker.phase))
  {
    hide LocalStep, Named, RungAt, Truthful, RingsMatch, Due, SyncEmitted, NotAhead, Consistent;
    var p := v.worker.phase;
    var v' := LocalStep(cfg, v, c);
    RingStep(cfg, t, v, c);
    LogStep(cfg, t, v, c);
    if p.Charged? || p.Billed? {
      RungBefore(v.rec, p);
      ShapeRises(v.rec, p);
      DueTruthful(t, p.before.status, p.after);
      RingsAfterDue(t, Rings(v.rec.log), p.before.status, p.after);
      RingsAppend(v.rec.log, Due(t, p.before.status, p.after));
    } else {
      var es := v'.rec.log[|v.rec.log|..];
      assert v'.rec.log == v.rec.log + es;
      RingsAppend(v.rec.log, es);
      FineRingsNot(es);
      assert Rings(v'.rec.log) == Rings(v.rec.log);
    }
  }

  lemma RungBefore(rec: TaskRec, p: Phase)
    requires p.Charged? || p.Billed?
    ensures RungAt(rec.budget, Some(p)) == p.before.status
  {
  }

  lemma ShapeRises(rec: TaskRec, p: Phase)
    requires PhaseShape(rec, p) && BudgetMatches(rec) && (p.Charged? || p.Billed?)
    ensures p.before.status.Rank() <= p.after.status.Rank() && Consistent(p.after)
  {
    hide CacheOk;
  }

  lemma ModestStepped(cfg: Config, t: TaskId, v: View, c: Choice, other: set<Alarm>)
    requires Ringing(t, v, v.worker.phase)
    requires NotAhead(other, t, RungAt(v.rec.budget, Some(v.worker.phase)))
    ensures var v' := LocalStep(cfg, v, c); var st' := RungAt(v'.rec.budget, Held(v'.worker.phase));
            && NotAhead(other, t, st') && NotAhead(v'.worker.emitted, t, st')
            && forall u, x :: u != t && Alarm(u, x) in v'.worker.emitted ==> Alarm(u, x) in v.worker.emitted
  {
    hide LocalStep, RungAt, PhaseShape, Due;
    RingStep(cfg, t, v, c);
    RungRises(t, v, LocalStep(cfg, v, c));
  }

  lemma HolderRings(s: Sys, w: WorkerId, t: TaskId)
    requires Structured(s) && Spoken(s) && Alarmed(s) && w in s.workers && t in s.tasks
    requires Holds(s.workers[w].phase) == Some(t)
    ensures Ringing(t, ViewOf(s, w, t), s.workers[w].phase) && Named0(t, ViewOf(s, w, t), s.workers[w].phase)
    ensures BudgetMatches(s.tasks[t]) && TaskAlarms(t, s.tasks[t], Some(s.workers[w].phase))
    ensures Holder(s, t) == Some(s.workers[w].phase)
  {
    hide CacheOk, Blank, Named, PhaseShape, BudgetMatches, AttemptsOk, TaskAlarms, NotAhead, Announced, RungAt;
    HolderShape(s, w, t);
    assert Modest(s, w, t);
    assert PhaseNamed(s.workers[w].phase);
  }

  lemma AlarmsFresh(t: TaskId, o: WorkOrder, at: int)
    ensures TaskAlarms(t, FreshRec(o, at, [Enqueued(t)]), None)
  {
    assert Rings([Enqueued(t)]) == [];
  }

  lemma AlarmsLogged(t: TaskId, rec: TaskRec, e: Event, hold: Option<Phase>)
    requires TaskAlarms(t, rec, hold) && !IsAlarm(e)
    ensures TaskAlarms(t, rec.(log := rec.log + [e]), hold)
  {
    hide Truthful, RingsMatch, RungAt;
    RingsAppend(rec.log, [e]);
    assert Rings([e]) == [];
    assert Rings(rec.log + [e]) == Rings(rec.log);
  }

  lemma AlarmsTaken(t: TaskId, rec: TaskRec, row: Row, n: nat, m: nat, snap: Row)
    requires TaskAlarms(t, rec, None)
    ensures TaskAlarms(t, rec.(row := row, claims := n, mark := m), Some(Begin(t, snap)))
  {
    hide Truthful, RingsMatch, Rings;
  }

  lemma SaysNoAlarm(s: Sys, w: WorkerId)
    requires Spoken(s) && w in s.workers && s.workers[w].phase.Reporting?
    ensures !IsAlarm(s.workers[w].phase.event)
  {
    hide Announced, Named, Accepts;
    assert PhaseNamed(s.workers[w].phase);
  }

  lemma AlarmsStepAt(cfg: Config, s: Sys, a: Action, t: TaskId)
    requires ValidConfig(cfg) && Structured(s) && Spoken(s) && Alarmed(s) && t in Next(cfg, s, a).tasks
    ensures var s' := Next(cfg, s, a); TaskAlarms(t, s'.tasks[t], Holder(s', t))
  {
    hide LocalStep, CacheOk, Blank, TaskShape, Next, Spoken, TaskAlarms, Ringing, FreshRec, Modest, Structured, Holder;
    ExplainedHere(cfg, s, a, t);
    match Cause(cfg, s, a, t)
    case Unmoved =>
    case Entered(o, at) => AlarmsFresh(t, o, at);
    case Taken(w, now, lease, snap) =>
      var rec := s.tasks[t];
      AlarmsTaken(t, rec, ClaimedRow(rec.row, w, lease), rec.claims + 1, |rec.attempts|, snap);
    case Stepped(w, c) =>
      HolderRings(s, w, t);
      AlarmsStepped(cfg, t, ViewOf(s, w, t), c);
    case Reported(w) =>
      SaysNoAlarm(s, w);
      AlarmsLogged(t, s.tasks[t], s.workers[w].phase.event, Holder(s, t));
  }

  lemma ModestElsewhere(cfg: Config, s: Sys, a: Action, w: WorkerId, t: TaskId)
    requires Structured(s) && Alarmed(s) && Enabled(cfg, s, a) && !a.Work?
    ensures Modest(Next(cfg, s, a), w, t)
  {
    hide LocalStep, CacheOk, Blank, TaskShape, TaskAlarms, NotAhead, FirstClaimable, Claimable, Caches, Exclusive,
         Shaped;
    assert Modest(s, w, t);
    if t in Next(cfg, s, a).tasks {
      ExplainedHere(cfg, s, a, t);
    }
  }

  lemma ModestUnheld(cfg: Config, s: Sys, a: Action, w: WorkerId, t: TaskId)
    requires Structured(s) && Alarmed(s) && Enabled(cfg, s, a) && a.Work? && Holds(s.workers[a.w].phase).None?
    ensures Modest(Next(cfg, s, a), w, t)
  {
    hide LocalStep, CacheOk, Blank, TaskShape, TaskAlarms, FirstClaimable, RungAt, NotAhead;
    assert Modest(s, w, t);
    UnheldStep(cfg, ViewOf(s, a.w, Subject(s.workers[a.w].phase).value), a.choice);
    if t in s.tasks {
      Explained(cfg, s, a, t);
    }
  }

  lemma ModestHeld(cfg: Config, s: Sys, a: Action, w: WorkerId, t: TaskId)
    requires Structured(s) && Spoken(s) && Alarmed(s) && Enabled(cfg, s, a) && a.Work? && Holds(s.workers[a.w].phase).Some?
    ensures Modest(Next(cfg, s, a), w, t)
  {
    hide LocalStep, Caches, Blank, TaskShape, TaskAlarms, FirstClaimable, Spoken, Ringing, RungAt;
    assert Modest(s, w, t);
    assert Modest(s, a.w, t);
    var u := Subject(s.workers[a.w].phase).value;
    HolderRings(s, a.w, u);
    assert Modest(s, w, u);
    ModestStepped(cfg, u, ViewOf(s, a.w, u), a.choice, if w in s.workers then s.workers[w].emitted else {});
    if t in s.tasks {
      Explained(cfg, s, a, t);
    }
  }

  lemma AlarmedStep(cfg: Config, s: Sys, a: Action)
    requires ValidConfig(cfg) && Structured(s) && Spoken(s) && Alarmed(s)
    ensures Alarmed(Next(cfg, s, a))
  {
    hide Protocol.Apply, Structured, Spoken, TaskAlarms, Modest;
    var s' := Next(cfg, s, a);
    forall t | t in s'.tasks ensures TaskAlarms(t, s'.tasks[t], Holder(s', t)) {
      AlarmsStepAt(cfg, s, a, t);
    }
    forall w, t ensures Modest(s', w, t) {
      if Enabled(cfg, s, a) {
        if !a.Work? {
          ModestElsewhere(cfg, s, a, w, t);
        } else if Holds(s.workers[a.w].phase).None? {
          ModestUnheld(cfg, s, a, w, t);
        } else {
          ModestHeld(cfg, s, a, w, t);
        }
      }
    }
  }

  lemma {:induction false} AlarmedAlways(cfg: Config, s0: Sys, acts: seq<Action>)
    requires ValidConfig(cfg) && Initial(s0)
    ensures Structured(Run(cfg, s0, acts)) && Spoken(Run(cfg, s0, acts)) && Alarmed(Run(cfg, s0, acts))
  {
    hide Structured, Spoken, Next, TaskAlarms;
    SpokenAlways(cfg, s0, acts);
    if acts != [] {
      AlarmedAlways(cfg, s0, acts[..|acts| - 1]);
      AlarmedStep(cfg, Run(cfg, s0, acts[..|acts| - 1]), acts[|acts| - 1]);
    }
  }

  /**
   The alarms of a task, over any run of any number of managers: none, [low], [exhausted] or
   [low, exhausted]; exhausted has rung exactly when the status the alarms have caught up with is
   exhausted; and each reports a ratio that explains it. Between charges that status is the stored one.
   */
  lemma AlarmSequence(cfg: Config, s0: Sys, acts: seq<Action>, t: TaskId)
    requires ValidConfig(cfg) && Initial(s0) && t in Run(cfg, s0, acts).tasks
    ensures var s := Run(cfg, s0, acts); var rings := Rings(s.tasks[t].log); var st := RungIn(s, t);
            && (st.Ok? <==> rings == [])
            && (st.SoftWarning? <==> |rings| == 1 && rings[0].kind.QuotaLow?)
            && (st.Exhausted? <==>
                  || (|rings| == 1 && rings[0].kind.QuotaExhaustedAlarm?)
                  || (|rings| == 2 && rings[0].kind.QuotaLow? && rings[1].kind.QuotaExhaustedAlarm?))
            && (forall e :: e in rings ==> Truthful(t, e))
            && (Holder(s, t).None? && s.tasks[t].budget.Some? ==> st == s.tasks[t].budget.value.status)
  {
    hide Structured, Spoken, Run, Truthful, Modest;
    AlarmedAlways(cfg, s0, acts);
  }

  /** No manager's memory hides a change of status: the step after a charge logs exactly the alarm that is due. */
  lemma NoTransitionHidden(cfg: Config, s0: Sys, acts: seq<Action>, w: WorkerId, c: Choice)
    requires ValidConfig(cfg) && Initial(s0) && w in Run(cfg, s0, acts).workers
    requires var p := Run(cfg, s0, acts).workers[w].phase; p.Charged? || p.Billed?
    ensures var s := Run(cfg, s0, acts); var p := s.workers[w].phase; var t := p.job.task;
            && t in s.tasks
            && LocalStep(cfg, ViewOf(s, w, t), c).rec.log == s.tasks[t].log + Due(t, p.before.status, p.after)
  {
    hide Structured, Spoken, Alarmed, Run, LocalStep, Ringing, Due;
    AlarmedAlways(cfg, s0, acts);
    var s := Run(cfg, s0, acts);
    var t := s.workers[w].phase.job.task;
    HeldTask(s, w, t);
    HolderRings(s, w, t);
    RingStep(cfg, t, ViewOf(s, w, t), c);
  }

  lemma HeldTask(s: Sys, w: WorkerId, t: TaskId)
    requires Structured(s) && w in s.workers && Holds(s.workers[w].phase) == Some(t)
    ensures t in s.tasks
  {
    hide TaskShape, CacheOk;
  }
}
