/** What a holder's step does to its task's budget and to the shared health, and how the phases after a run follow. */
module Effects {
  import opened Types
  import opened Budgets
  import opened Runs
  import opened Handoffs
  import opened Protocol
  import opened Shape

  /** The run has an outcome, and its cost and time are not charged yet. */
  predicate Unbilled(p: Phase) {
    p.Finished? || p.Billing? || p.BillRead? || p.BillWrite?
  }

  /** The run has an outcome, and the agent's registry entry has not been told. */
  predicate Unrecorded(p: Phase) {
    Unbilled(p) || p.Billed? || p.Recording?
  }

  /** A budget is created, charged a launch, or charged a run; nothing else touches it. */
  predicate BudgetMoves(cfg: Config, v: View, v': View, c: Choice) {
    var p := v.worker.phase;
    match p
    case Inserting(job) => v'.rec.budget == Some(Fresh(job.order.BudgetCaps()))
    case ChargeRead(_, _, _, read) => v'.rec.budget == Some(PreLaunched(read))
    case BillWrite(_, agent, _, _, read) =>
      v'.rec.budget == (if c.Elapse? then Some(PostRan(read, if c.wallMs >= 0.0 then c.wallMs else 0.0, CostOf(cfg.profiles, agent)))
                        else v.rec.budget)
    case _ => v'.rec.budget == v.rec.budget
  }

  /** The phases from the outcome of a run to the recording of it follow one another. */
  predicate EndingMoves(v: View, v': View, c: Choice) {
    var p, p' := v.worker.phase, v'.worker.phase;
    && (Open(p) ==> v'.rec.attempts != [] && (Last(v'.rec.attempts).fate.Done? <==> p'.Finished?))
    && (p.Finished? ==> p'.Billing?)
    && (p.Billing? ==> p'.BillRead?)
    && (p.BillRead? ==> p'.BillWrite?)
    && (p.BillWrite? ==> if c.Elapse? then p'.Billed? else p'.BillWrite?)
    && (p.Billed? ==> p'.Recording?)
    && (p.Recording? ==> p'.Settling?)
    && (Unrecorded(p') ==> Open(p) || Unrecorded(p))
  }

  /** Only the recording of an outcome touches the shared health. */
  predicate HealthKept(v: View, v': View) {
    v.worker.phase.Recording? || v'.health == v.health
  }

  predicate Effects(cfg: Config, v: View, v': View, c: Choice) {
    BudgetMoves(cfg, v, v', c) && EndingMoves(v, v', c) && HealthKept(v, v')
  }

  lemma EffectRead(cfg: Config, v: View, p: Phase, c: Choice)
    requires p == v.worker.phase && (p.Begin? || p.Reading? || p.Budgeting? || p.Inserting? || p.Syncing? || p.Consulting?)
    ensures Effects(cfg, v, LocalStep(cfg, v, c), c)
  {
    hide SyncEmitted, Fresh, OnChoosing, OnCleared, OnCharging, OnChargeRead, OnCharged, OnLaunching, OnStarting,
         OnExecuting, OnFinished, OnBilling, OnBillRead, OnBillWrite, OnBilled, OnRecording, Settle, OnContexting,
         OnPackaging, OnExcluding, OnAddressing, OnReleasing, OnReporting, OnFailing;
  }

  lemma EffectChoose(cfg: Config, v: View, p: Phase, c: Choice)
    requires p == v.worker.phase && p.Choosing?
    ensures Effects(cfg, v, OnChoosing(cfg, v, p, c), c)
  {
    hide DecisionAt;
  }

  lemma EffectCharge(cfg: Config, v: View, p: Phase, c: Choice)
    requires p == v.worker.phase && (p.Cleared? || p.Charging? || p.ChargeRead?)
    ensures Effects(cfg, v, LocalStep(cfg, v, c), c)
  {
    hide PreLaunched, OnBegin, OnReading, OnInserting, OnSyncing, OnConsulting, OnChoosing, OnCharged, OnLaunching,
         OnStarting, OnExecuting, OnFinished, OnBilling, OnBillRead, OnBillWrite, OnBilled, OnRecording, Settle,
         OnContexting, OnPackaging, OnExcluding, OnAddressing, OnReleasing, OnReporting, OnFailing;
  }

  lemma EffectOpen(cfg: Config, v: View, p: Phase, c: Choice)
    requires p == v.worker.phase && PhaseShape(v.rec, p)
    ensures p.Charged? ==> Effects(cfg, v, OnCharged(v, p), c)
    ensures p.Launching? ==> Effects(cfg, v, OnLaunching(v, p, c), c)
    ensures p.Starting? ==> Effects(cfg, v, OnStarting(v, p, c), c)
  {
    hide Transition, CreationEvents, StartEvents, CacheOk;
    TransitionKeeps(v, p);
  }

  lemma TransitionKeeps(v: View, p: Phase)
    requires p == v.worker.phase
    ensures p.Charged? || p.Billed? ==>
              var v' := Transition(v, p.job.task, p.before.status, p.after);
              && v'.rec == v.rec.(log := v'.rec.log) && v'.health == v.health && v'.worker.phase == p
              && v'.worker.cache == v.worker.cache
  {
    hide PickAxis;
  }

  lemma EffectExecute(cfg: Config, v: View, p: Phase, c: Choice)
    requires p == v.worker.phase && PhaseShape(v.rec, p) && p.Executing?
    ensures Effects(cfg, v, OnExecuting(v, p, c), c)
  {
    hide Execute, CacheOk;
  }

  lemma EffectBill(cfg: Config, v: View, p: Phase, c: Choice)
    requires p == v.worker.phase && PhaseShape(v.rec, p) && Unbilled(p)
    ensures Effects(cfg, v, LocalStep(cfg, v, c), c)
  {
    hide PostRan, CostOf, CacheOk, OnBegin, OnReading, OnInserting, OnSyncing, OnConsulting, OnChoosing, OnCleared,
         OnCharging, OnChargeRead, OnCharged, OnLaunching, OnStarting, OnExecuting, OnBilled, OnRecording, Settle,
         OnContexting, OnPackaging, OnExcluding, OnAddressing, OnReleasing, OnReporting, OnFailing;
  }

  lemma EffectRecord(cfg: Config, v: View, p: Phase, c: Choice)
    requires p == v.worker.phase
    ensures p.Billed? ==> Effects(cfg, v, OnBilled(v, p), c)
    ensures p.Recording? ==> Effects(cfg, v, OnRecording(v, p), c)
  {
    hide Transition, WorseHealth, HealthOf;
    TransitionKeeps(v, p);
  }

  lemma EffectClose(cfg: Config, v: View, p: Phase, c: Choice)
    requires p == v.worker.phase && (p.Settling? || HasPlan(p) || p.Failing?)
    ensures Effects(cfg, v, LocalStep(cfg, v, c), c)
  {
    hide Merged, PacketExcludes, OnBegin, OnReading, OnInserting, OnSyncing, OnConsulting, OnChoosing, OnCleared,
         OnCharging, OnChargeRead, OnCharged, OnLaunching, OnStarting, OnExecuting, OnFinished, OnBilling, OnBillRead,
         OnBillWrite, OnBilled, OnRecording;
  }

  lemma EffectStep(cfg: Config, t: TaskId, v: View, c: Choice)
    requires Holds(v.worker.phase) == Some(t) && PhaseShape(v.rec, v.worker.phase)
    ensures Effects(cfg, v, LocalStep(cfg, v, c), c)
  {
    hide Effects, PhaseShape, OnBegin, OnReading, OnInserting, OnSyncing, OnConsulting, OnChoosing, OnCleared, OnCharging,
         OnChargeRead, OnCharged, OnLaunching, OnStarting, OnExecuting, OnFinished, OnBilling, OnBillRead, OnBillWrite,
         OnBilled, OnRecording, Settle, OnContexting, OnPackaging, OnExcluding, OnAddressing, OnReleasing, OnFailing;
    var p := v.worker.phase;
    match p
    case Begin(_, _) | Reading(_, _, _) | Budgeting(_) | Inserting(_) | Syncing(_) | Consulting(_) => EffectRead(cfg, v, p, c);
    case Choosing(_, _) => EffectChoose(cfg, v, p, c);
    case Cleared(_, _) | Charging(_, _, _) | ChargeRead(_, _, _, _) => EffectCharge(cfg, v, p, c);
    case Charged(_, _, _, _) | Launching(_, _) | Starting(_, _, _) => EffectOpen(cfg, v, p, c);
    case Executing(_, _, _) => EffectExecute(cfg, v, p, c);
    case Finished(_, _, _) | Billing(_, _, _) | BillRead(_, _, _, _) | BillWrite(_, _, _, _, _) => EffectBill(cfg, v, p, c);
    case Billed(_, _, _, _, _) | Recording(_, _, _, _) => EffectRecord(cfg, v, p, c);
    case _ => EffectClose(cfg, v, p, c);
  }
}
