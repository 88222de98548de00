/** What a holder's step may do to its task's history, in one statement over all phases. */
module Footprint {
  import opened Types
  import opened Budgets
  import opened Runs
  import opened Handoffs
  import opened Protocol
  import opened Shape
  import opened Story

  /** Claimed, and nothing charged yet. */
  predicate Pre(p: Phase) {
    p.Begin? || p.Reading? || BeforeLaunch(p)
  }

  /** One launch has been charged since the claim, and the release is not decided or not yet written down. */
  predicate Launched(p: Phase) {
    Open(p) || AfterRun(p) || p.Contexting? || p.Packaging? || p.Excluding? || p.Addressing?
  }

  /** A run row keeps its id, or gets one that was never used before. */
  predicate RunMoves(r: RunRow, r': RunRow, used: set<RunId>, used': set<RunId>) {
    || r' == NoRun
    || (r.RunRow? && r'.id == r.id)
    || (r' == RunRow(r'.id, Preparing) && r'.id !in used && r'.id in used')
  }

  predicate AttemptsMove(v: View, v': View) {
    var p := v.worker.phase;
    var attempts, attempts' := v.rec.attempts, v'.rec.attempts;
    if p.ChargeRead? then attempts' == attempts + [Attempt(p.job.snap.role, p.agent, NoRun, InFlight)]
    else if Open(p) then
      && attempts != [] && attempts' != [] && Front(attempts') == Front(attempts)
      && Last(attempts').role == Last(attempts).role && Last(attempts').agent == Last(attempts).agent
      && RunMoves(Last(attempts).run, Last(attempts').run, v.used, v'.used)
    else attempts' == attempts
  }

  predicate StageMoves(v: View, v': View) {
    var p, p' := v.worker.phase, v'.worker.phase;
    && (p.ChargeRead? ==> p'.Charged?)
    && (Pre(p) && !p.ChargeRead? ==> Pre(p') || p'.Releasing? || p'.Failing?)
    && (Pre(p) && p'.Failing? ==> p.Begin? || p.Cleared?)
    && (Pre(p) && p'.Releasing? ==> p'.plan.status.Terminal())
    && (Launched(p) ==> Launched(p') || p'.Releasing? || (Open(p) && p'.Failing?))
    && (Open(p) && p'.Failing? ==> v'.rec.attempts != [] && Last(v'.rec.attempts).fate.WasAborted?)
    && (Open(p) && p'.Releasing? ==> p'.plan.status.Terminal())
    && (p.Releasing? || p.Failing? ==> Holds(p').None?)
    && (p.Releasing? ==> v'.rec.row.status == p.plan.status)
    && (p.Failing? ==> v'.rec.row.status.Queued?)
  }

  predicate HistoryMoves(v: View, v': View) {
    var p, p' := v.worker.phase, v'.worker.phase;
    && v'.rec.claims == v.rec.claims && v'.rec.mark == v.rec.mark && v.used <= v'.used
    && v'.rec.early == v.rec.early + (if Pre(p) && p'.Failing? then 1 else 0)
    && AttemptsMove(v, v')
    && StageMoves(v, v')
  }

  /** The holder of the task is at `p`, and the values it carries are in shape. */
  predicate Going(v: View, p: Phase) {
    p == v.worker.phase && Holds(p).Some? && PhaseShape(v.rec, p)
  }

  lemma HistoryRead(cfg: Config, v: View, p: Phase, c: Choice)
    requires Going(v, p) && (p.Begin? || p.Reading? || p.Budgeting? || p.Inserting?)
    ensures HistoryMoves(v, LocalStep(cfg, v, c))
  {
    hide CacheOk, Fresh, OnSyncing, OnConsulting, OnChoosing, OnCleared, OnCharging, OnChargeRead, OnCharged,
         OnLaunching, OnStarting, OnExecuting, OnFinished, OnBilling, OnBillRead, OnBillWrite, OnBilled, OnRecording,
         Settle, OnContexting, OnPackaging, OnExcluding, OnAddressing, OnReleasing, OnReporting, OnFailing;
  }

  lemma HistoryConsult(cfg: Config, v: View, p: Phase, c: Choice)
    requires Going(v, p) && (p.Syncing? || p.Consulting? || p.Cleared? || p.Charging?)
    ensures HistoryMoves(v, LocalStep(cfg, v, c))
  {
    hide CacheOk, SyncEmitted, OnBegin, OnReading, OnInserting, OnChoosing, OnChargeRead, OnCharged, OnLaunching,
         OnStarting, OnExecuting, OnFinished, OnBilling, OnBillRead, OnBillWrite, OnBilled, OnRecording, Settle,
         OnContexting, OnPackaging, OnExcluding, OnAddressing, OnReleasing, OnReporting, OnFailing;
  }

  lemma HistoryChoose(cfg: Config, v: View, p: Phase, c: Choice)
    requires Going(v, p) && (p.Choosing? || p.ChargeRead?)
    ensures HistoryMoves(v, LocalStep(cfg, v, c))
  {
    hide CacheOk, DecisionAt, PreLaunched, OnBegin, OnReading, OnInserting, OnSyncing, OnConsulting, OnCleared,
         OnCharging, OnCharged, OnLaunching, OnStarting, OnExecuting, OnFinished, OnBilling, OnBillRead, OnBillWrite,
         OnBilled, OnRecording, Settle, OnContexting, OnPackaging, OnExcluding, OnAddressing, OnReleasing, OnReporting,
         OnFailing;
  }

  lemma HistoryTransition(cfg: Config, v: View, p: Phase, c: Choice)
    requires Going(v, p) && (p.Charged? || p.Billed?)
    ensures HistoryMoves(v, LocalStep(cfg, v, c))
  {
    hide CacheOk, PickAxis, OnBegin, OnReading, OnInserting, OnSyncing, OnConsulting, OnChoosing, OnCleared, OnCharging,
         OnChargeRead, OnLaunching, OnStarting, OnExecuting, OnFinished, OnBilling, OnBillRead, OnBillWrite,
         OnRecording, Settle, OnContexting, OnPackaging, OnExcluding, OnAddressing, OnReleasing, OnReporting, OnFailing;
  }

  lemma HistoryLaunch(v: View, p: Phase, c: Choice)
    requires Going(v, p) && p.Launching?
    ensures HistoryMoves(v, OnLaunching(v, p, c))
  {
    hide CacheOk, CreationEvents;
  }

  lemma HistoryStart(v: View, p: Phase, c: Choice)
    requires Going(v, p) && p.Starting?
    ensures HistoryMoves(v, OnStarting(v, p, c))
  {
    hide CacheOk, StartEvents;
  }

  lemma HistoryExecute(v: View, p: Phase, c: Choice)
    requires Going(v, p) && p.Executing?
    ensures HistoryMoves(v, OnExecuting(v, p, c))
  {
    hide CacheOk, Execute;
  }

  lemma HistoryBill(cfg: Config, v: View, p: Phase, c: Choice)
    requires Going(v, p) && (p.Finished? || p.Billing? || p.BillRead? || p.BillWrite? || p.Recording?)
    ensures HistoryMoves(v, LocalStep(cfg, v, c))
  {
    hide CacheOk, PostRan, CostOf, WorseHealth, OnBegin, OnReading, OnInserting, OnSyncing, OnConsulting, OnChoosing,
         OnCleared, OnCharging, OnChargeRead, OnCharged, OnLaunching, OnStarting, OnExecuting, OnBilled, Settle,
         OnContexting, OnPackaging, OnExcluding, OnAddressing, OnReleasing, OnReporting, OnFailing;
  }

  lemma HistorySettle(cfg: Config, v: View, p: Phase, c: Choice)
    requires Going(v, p) && p.Settling?
    ensures HistoryMoves(v, LocalStep(cfg, v, c))
  {
    hide CacheOk, PacketExcludes, OnBegin, OnReading, OnInserting, OnSyncing, OnConsulting, OnChoosing, OnCleared,
         OnCharging, OnChargeRead, OnCharged, OnLaunching, OnStarting, OnExecuting, OnFinished, OnBilling, OnBillRead,
         OnBillWrite, OnBilled, OnRecording, OnContexting, OnPackaging, OnExcluding, OnAddressing, OnReleasing,
         OnReporting, OnFailing;
  }

  lemma HistoryClose(cfg: Config, v: View, p: Phase, c: Choice)
    requires Going(v, p) && (HasPlan(p) || p.Failing?)
    ensures HistoryMoves(v, LocalStep(cfg, v, c))
  {
    hide CacheOk, Merged, OnBegin, OnReading, OnInserting, OnSyncing, OnConsulting, OnChoosing, OnCleared, OnCharging,
         OnChargeRead, OnCharged, OnLaunching, OnStarting, OnExecuting, OnFinished, OnBilling, OnBillRead, OnBillWrite,
         OnBilled, OnRecording, Settle;
  }

  lemma HistoryStep(cfg: Config, v: View, c: Choice)
    requires Holds(v.worker.phase).Some? && PhaseShape(v.rec, v.worker.phase)
    ensures HistoryMoves(v, LocalStep(cfg, v, c))
  {
    hide HistoryMoves, PhaseShape, OnBegin, OnReading, OnInserting, OnSyncing, OnConsulting, OnChoosing, OnCleared,
         OnCharging, OnChargeRead, OnCharged, OnLaunching, OnStarting, OnExecuting, OnFinished, OnBilling, OnBillRead,
         OnBillWrite, OnBilled, OnRecording, Settle, OnContexting, OnPackaging, OnExcluding, OnAddressing,
         OnReleasing, OnFailing;
    var p := v.worker.phase;
    match p
    case Begin(_, _) | Reading(_, _, _) | Budgeting(_) | Inserting(_) => HistoryRead(cfg, v, p, c);
    case Syncing(_) | Consulting(_) | Cleared(_, _) | Charging(_, _, _) => HistoryConsult(cfg, v, p, c);
    case Choosing(_, _) | ChargeRead(_, _, _, _) => HistoryChoose(cfg, v, p, c);
    case Charged(_, _, _, _) | Billed(_, _, _, _, _) => HistoryTransition(cfg, v, p, c);
    case Launching(_, _) => HistoryLaunch(v, p, c);
    case Starting(_, _, _) => HistoryStart(v, p, c);
    case Executing(_, _, _) => HistoryExecute(v, p, c);
    case Finished(_, _, _) | Billing(_, _, _) | BillRead(_, _, _, _) | BillWrite(_, _, _, _, _) | Recording(_, _, _, _) =>
      HistoryBill(cfg, v, p, c);
    case Settling(_, _, _, _) => HistorySettle(cfg, v, p, c);
    case _ => HistoryClose(cfg, v, p, c);
  }
}
