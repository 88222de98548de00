/** Mutual exclusion, and the lifting of per-task invariants to every reachable state of N workers. */
module System {
  import opened Types
  import opened Js
  import opened Budgets
  import opened Events
  import opened Runs
  import opened Handoffs
  import opened Protocol
  import opened Shape

  /** The phase of the worker that owns the row of `t`, if one does. */
  function Holder(s: Sys, t: TaskId): Option<Phase>
    requires t in s.tasks
  {
    var o := s.tasks[t].row.owner;
    if o.Some? && o.value in s.workers && Holds(s.workers[o.value].phase) == Some(t)
    then Some(s.workers[o.value].phase) else None
  }

  /** A held row is dispatched to its holder; any other row is unowned, and queued or terminal. */
  predicate Exclusive(s: Sys) {
    && (forall w :: w in s.workers && Subject(s.workers[w].phase).Some? ==> Subject(s.workers[w].phase).value in s.tasks)
    && (forall w :: w in s.workers && Holds(s.workers[w].phase).Some? ==>
          var row := s.tasks[Holds(s.workers[w].phase).value].row;
          row.status.Dispatched? && row.owner == Some(w))
    && (forall t :: t in s.tasks ==> RowOwned(s, t))
  }

  predicate RowOwned(s: Sys, t: TaskId)
    requires t in s.tasks
  {
    var row := s.tasks[t].row;
    if row.status.Dispatched? then Holder(s, t).Some?
    else row.owner.None? && (row.status.Queued? || row.status.Terminal())
  }

  // ---- What a step does to the row it owns ----

  predicate KeepsOwner(t: TaskId, row: Row, p': Phase, row': Row) {
    if Holds(p').Some? then Holds(p') == Some(t) && Subject(p') == Some(t) && row'.status == row.status && row'.owner == row.owner
    else
      && row'.owner.None? && (row'.status.Queued? || row'.status.Terminal())
      && (Subject(p').Some? ==> Subject(p') == Some(t))
  }

  predicate Moves(t: TaskId, v: View, v': View) {
    KeepsOwner(t, v.rec.row, v'.worker.phase, v'.rec.row)
  }

  lemma OwnerRead(cfg: Config, v: View, p: Phase, c: Choice, t: TaskId)
    requires p == v.worker.phase && Holds(p) == Some(t) && (p.Begin? || p.Reading? || p.Budgeting? || p.Inserting?)
    ensures Moves(t, v, LocalStep(cfg, v, c))
  {
    hide Fresh, OnSyncing, OnConsulting, OnChoosing, OnCleared, OnCharging, OnChargeRead, OnCharged, OnLaunching,
         OnStarting, OnExecuting, OnFinished, OnBilling, OnBillRead, OnBillWrite, OnBilled, OnRecording, Settle,
         OnContexting, OnPackaging, OnExcluding, OnAddressing, OnReleasing, OnReporting, OnFailing;
  }

  lemma OwnerCharge(cfg: Config, v: View, p: Phase, c: Choice, t: TaskId)
    requires p == v.worker.phase && Holds(p) == Some(t) && (p.Syncing? || p.Consulting? || p.Cleared? || p.Charging?)
    ensures Moves(t, v, LocalStep(cfg, v, c))
  {
    hide SyncEmitted, OnBegin, OnReading, OnInserting, OnChoosing, OnChargeRead, OnCharged, OnLaunching, OnStarting,
         OnExecuting, OnFinished, OnBilling, OnBillRead, OnBillWrite, OnBilled, OnRecording, Settle, OnContexting,
         OnPackaging, OnExcluding, OnAddressing, OnReleasing, OnReporting, OnFailing;
  }

  lemma OwnerLaunch(cfg: Config, v: View, p: Phase, c: Choice, t: TaskId)
    requires p == v.worker.phase && Holds(p) == Some(t)
    requires p.Choosing? || p.ChargeRead? || p.Charged? || p.Launching? || p.Starting? || p.Executing?
    ensures Moves(t, v, LocalStep(cfg, v, c))
  {
    hide DecisionAt, Execute, CreationFailure, PickAxis, PreLaunched, OnBegin, OnReading, OnInserting, OnSyncing,
         OnConsulting, OnCleared, OnCharging, OnFinished, OnBilling, OnBillRead, OnBillWrite, OnBilled, OnRecording,
         Settle, OnContexting, OnPackaging, OnExcluding, OnAddressing, OnReleasing, OnReporting, OnFailing;
  }

  lemma OwnerBill(cfg: Config, v: View, p: Phase, c: Choice, t: TaskId)
    requires p == v.worker.phase && Holds(p) == Some(t)
    requires p.Finished? || p.Billing? || p.BillRead? || p.BillWrite? || p.Billed? || p.Recording?
    ensures Moves(t, v, LocalStep(cfg, v, c))
  {
    hide PickAxis, PostRan, HealthOf, WorseHealth, CostOf, OnBegin, OnReading, OnInserting, OnSyncing, OnConsulting,
         OnChoosing, OnCleared, OnCharging, OnChargeRead, OnCharged, OnLaunching, OnStarting, OnExecuting, Settle,
         OnContexting, OnPackaging, OnExcluding, OnAddressing, OnReleasing, OnReporting, OnFailing;
  }

  lemma OwnerSettle(cfg: Config, v: View, p: Phase, c: Choice, t: TaskId)
    requires p == v.worker.phase && Holds(p) == Some(t) && p.Settling?
    ensures Moves(t, v, LocalStep(cfg, v, c))
  {
    hide PacketExcludes, OnBegin, OnReading, OnInserting, OnSyncing, OnConsulting, OnChoosing, OnCleared, OnCharging,
         OnChargeRead, OnCharged, OnLaunching, OnStarting, OnExecuting, OnFinished, OnBilling, OnBillRead, OnBillWrite,
         OnBilled, OnRecording, OnContexting, OnPackaging, OnExcluding, OnAddressing, OnReleasing, OnReporting,
         OnFailing;
  }

  lemma OwnerClose(cfg: Config, v: View, p: Phase, c: Choice, t: TaskId)
    requires p == v.worker.phase && Holds(p) == Some(t) && PhaseShape(v.rec, p)
    requires HasPlan(p) || p.Failing?
    ensures Moves(t, v, LocalStep(cfg, v, c))
  {
    hide CacheOk, Merged, CanLaunch, Landed, Flying, OnBegin, OnReading, OnInserting, OnSyncing, OnConsulting,
         OnChoosing, OnCleared, OnCharging, OnChargeRead, OnCharged, OnLaunching, OnStarting, OnExecuting, OnFinished,
         OnBilling, OnBillRead, OnBillWrite, OnBilled, OnRecording, Settle;
  }

  lemma OwnerStep(cfg: Config, v: View, c: Choice, t: TaskId)
    requires Holds(v.worker.phase) == Some(t) && PhaseShape(v.rec, v.worker.phase)
    ensures Moves(t, v, LocalStep(cfg, v, c))
  {
    hide LocalStep, PhaseShape, Moves;
    var p := v.worker.phase;
    if p.Choosing? || p.ChargeRead? || p.Charged? || p.Launching? || p.Starting? || p.Executing? {
      OwnerLaunch(cfg, v, p, c, t);
    } else if p.Finished? || p.Billing? || p.BillRead? || p.BillWrite? || p.Billed? || p.Recording? {
      OwnerBill(cfg, v, p, c, t);
    } else if p.Settling? {
      OwnerSettle(cfg, v, p, c, t);
    } else if HasPlan(p) || p.Failing? {
      OwnerClose(cfg, v, p, c, t);
    } else if p.Begin? || p.Reading? || p.Budgeting? || p.Inserting? {
      OwnerRead(cfg, v, p, c, t);
    } else {
      OwnerCharge(cfg, v, p, c, t);
    }
  }

  /** A task as seen by an invariant: its record and the phase of its holder. */
  datatype Scene = Scene(rec: TaskRec, hold: Option<Phase>)

  function SceneOf(s: Sys, t: TaskId): Scene
    requires t in s.tasks
  {
    Scene(s.tasks[t], Holder(s, t))
  }

  /** The only ways in which an action can change what is seen of a task. */
  datatype Change =
    | Unmoved
    | Entered(order: WorkOrder, at: int)
    | Taken(w: WorkerId, now: int, lease: int, snap: Row)
    | Stepped(w: WorkerId, c: Choice)
    | Reported(w: WorkerId)

  ghost predicate Explains(cfg: Config, s: Sys, s': Sys, t: TaskId, x: Change)
    requires t in s'.tasks
  {
    match x
    case Unmoved => t in s.tasks && SceneOf(s', t) == SceneOf(s, t)
    case Entered(o, at) =>
      t !in s.tasks && o.Valid() && !Blank(t) && SceneOf(s', t) == Scene(FreshRec(o, at, [Enqueued(t)]), None)
    case Taken(w, now, lease, snap) =>
      && t in s.tasks && w in s.workers && Holder(s, t).None? && Claimable(s.tasks[t].row, now)
      && (cfg.isolated ==> s.tasks[t].row == snap)
      && SceneOf(s', t) == Scene(s.tasks[t].(row := ClaimedRow(s.tasks[t].row, w, lease), claims := s.tasks[t].claims + 1,
                                             mark := |s.tasks[t].attempts|),
                                 Some(Begin(t, snap)))
    case Stepped(w, c) =>
      && t in s.tasks && w in s.workers && Holds(s.workers[w].phase) == Some(t)
      && SceneOf(s, t) == Scene(s.tasks[t], Some(s.workers[w].phase))
      && (var v' := LocalStep(cfg, ViewOf(s, w, t), c);
          SceneOf(s', t) == Scene(v'.rec, Held(v'.worker.phase)))
    case Reported(w) =>
      && t in s.tasks && w in s.workers && s.workers[w].phase.Reporting? && s.workers[w].phase.task == t
      && SceneOf(s', t) == Scene(s.tasks[t].(log := s.tasks[t].log + [s.workers[w].phase.event]), Holder(s, t))
  }

  /** Why the scene of `t` is what it is after the action. */
  ghost function Cause(cfg: Config, s: Sys, a: Action, t: TaskId): Change {
    if !Enabled(cfg, s, a) then Unmoved
    else
      match a
      case Enqueue(_, u, o, at) => if u == t then Entered(o, at) else Unmoved
      case Update(w, now, lease) =>
        var p := s.workers[w].phase;
        if p.task == t && Next(cfg, s, a).workers[w].phase.Begin? then Taken(w, now, lease, p.snap) else Unmoved
      case Work(w, c) =>
        var p := s.workers[w].phase;
        if Subject(p) != Some(t) then Unmoved
        else if p.Reporting? then Reported(w)
        else if p.Selected? then Unmoved
        else Stepped(w, c)
      case _ => Unmoved
  }

  /** Replacing a worker that owns nothing, before and after, moves no scene. */
  lemma IdleSwap(s: Sys, w: WorkerId, k: Worker, t: TaskId)
    requires Exclusive(s) && w in s.workers && t in s.tasks
    requires Holds(s.workers[w].phase).None? && Holds(k.phase).None?
    ensures SceneOf(SetWorker(s, w, k), t) == SceneOf(s, t)
  {
    assert RowOwned(s, t);
  }

  lemma SamePhaseSwap(s: Sys, w: WorkerId, k: Worker, t: TaskId)
    requires w in s.workers && t in s.tasks && k.phase == s.workers[w].phase
    ensures SceneOf(SetWorker(s, w, k), t) == SceneOf(s, t)
  {
  }

  lemma ExplainTaken(cfg: Config, s: Sys, a: Action, t: TaskId)
    requires Exclusive(s) && a.Update? && Enabled(cfg, s, a) && t in s.tasks
    requires var k := s.workers[a.w]; var row := s.tasks[k.phase.task].row;
             Claimable(row, a.now) && !(cfg.isolated && row != k.phase.snap)
    ensures Explains(cfg, s, Next(cfg, s, a), t, Cause(cfg, s, a, t))
  {
    hide LocalStep, FirstClaimable, Blank, FreshRec;
    assert RowOwned(s, t) && RowOwned(s, s.workers[a.w].phase.task);
  }

  lemma ExplainUpdate(cfg: Config, s: Sys, a: Action, t: TaskId)
    requires Exclusive(s) && a.Update? && Enabled(cfg, s, a) && t in s.tasks
    ensures Explains(cfg, s, Next(cfg, s, a), t, Cause(cfg, s, a, t))
  {
    hide LocalStep, FirstClaimable, Blank, FreshRec, Claimable, ClaimedRow, Holder, Exclusive;
    var k := s.workers[a.w];
    var row := s.tasks[k.phase.task].row;
    if !Claimable(row, a.now) || (cfg.isolated && row != k.phase.snap) {
      IdleSwap(s, a.w, k.(phase := Idle), t);
    } else {
      ExplainTaken(cfg, s, a, t);
    }
  }

  lemma ExplainStep(cfg: Config, s: Sys, a: Action, t: TaskId)
    requires Exclusive(s) && a.Work? && Enabled(cfg, s, a) && t in s.tasks
    requires Holds(s.workers[a.w].phase).Some?
    requires forall u :: u in s.tasks ==> TaskShape(s.tasks[u], Holder(s, u))
    ensures Explains(cfg, s, Next(cfg, s, a), t, Cause(cfg, s, a, t))
  {
    hide LocalStep, TaskShape, FirstClaimable, Blank, FreshRec;
    assert RowOwned(s, t);
    var u := Holds(s.workers[a.w].phase).value;
    HolderShape(s, a.w, u);
    OwnerStep(cfg, ViewOf(s, a.w, u), a.choice, u);
  }

  lemma ExplainUnheld(cfg: Config, s: Sys, a: Action, t: TaskId)
    requires Exclusive(s) && a.Work? && Enabled(cfg, s, a) && t in s.tasks
    requires Holds(s.workers[a.w].phase).None?
    ensures Explains(cfg, s, Next(cfg, s, a), t, Cause(cfg, s, a, t))
  {
    hide LocalStep;
    assert RowOwned(s, t);
    UnheldStep(cfg, ViewOf(s, a.w, Subject(s.workers[a.w].phase).value), a.choice);
  }

  /** What a step without ownership does: a selected worker waits, a reporting one logs its event. */
  lemma UnheldStep(cfg: Config, v: View, c: Choice)
    requires v.worker.phase.Selected? || v.worker.phase.Reporting?
    ensures v.worker.phase.Selected? ==> LocalStep(cfg, v, c) == v
    ensures v.worker.phase.Reporting? ==>
              LocalStep(cfg, v, c) == v.Logging([v.worker.phase.event]).To(Idle)
  {
  }

  lemma HolderShape(s: Sys, w: WorkerId, t: TaskId)
    requires Exclusive(s) && w in s.workers && Holds(s.workers[w].phase) == Some(t) && t in s.tasks
    requires TaskShape(s.tasks[t], Holder(s, t))
    ensures Holder(s, t) == Some(s.workers[w].phase) && PhaseShape(s.tasks[t], s.workers[w].phase)
  {
  }

  /** Every action moves a task's scene in one of the five ways. */
  lemma Explained(cfg: Config, s: Sys, a: Action, t: TaskId)
    requires Exclusive(s) && t in Next(cfg, s, a).tasks
    requires forall u :: u in s.tasks ==> TaskShape(s.tasks[u], Holder(s, u))
    ensures Explains(cfg, s, Next(cfg, s, a), t, Cause(cfg, s, a, t))
  {
    hide LocalStep, TaskShape;
    if Enabled(cfg, s, a) {
      match a
      case Enqueue(w, u, o, _) =>
        if t != u {
          SamePhaseSwap(s, w, s.workers[w].(cache := s.workers[w].cache[u := o]), t);
        }
      case Scan(w, u, _) =>
        SamePhaseSwap(s, w, s.workers[w].(cache := s.workers[w].cache[u := s.tasks[u].row.order]), t);
      case Select(w, u, _) => IdleSwap(s, w, s.workers[w].(phase := Selected(u, s.tasks[u].row)), t);
      case Update(_, _, _) => ExplainUpdate(cfg, s, a, t);
      case Work(w, _) =>
        if Holds(s.workers[w].phase).Some? {
          ExplainStep(cfg, s, a, t);
        } else {
          ExplainUnheld(cfg, s, a, t);
        }
      case RequestStop(w) => SamePhaseSwap(s, w, s.workers[w].(stop := true), t);
      case Halt(w) => IdleSwap(s, w, s.workers[w].(phase := Halted), t);
    }
  }

  // ---- The structural invariant of the system ----

  predicate Caches(s: Sys) {
    forall w, t :: w in s.workers && t in s.workers[w].cache ==>
      t in s.tasks && CacheOk(s.workers[w].cache[t], s.tasks[t].row.order)
  }

  predicate Shaped(s: Sys) {
    forall t :: t in s.tasks ==> !Blank(t) && TaskShape(s.tasks[t], Holder(s, t))
  }

  predicate Structured(s: Sys) {
    Exclusive(s) && Shaped(s) && Caches(s)
  }

  /** The invariants at a task that a worker holds. */
  lemma HeldShape(s: Sys, w: WorkerId, t: TaskId)
    requires Structured(s) && w in s.workers && Holds(s.workers[w].phase) == Some(t)
    ensures t in s.tasks && PhaseShape(s.tasks[t], s.workers[w].phase)
  {
    hide CacheOk, PhaseShape, BudgetMatches, Blank;
    HolderShape(s, w, t);
  }

  /** The same, from the structural invariant. */
  lemma ExplainedHere(cfg: Config, s: Sys, a: Action, t: TaskId)
    requires Structured(s) && t in Next(cfg, s, a).tasks
    ensures Explains(cfg, s, Next(cfg, s, a), t, Cause(cfg, s, a, t))
  {
    hide LocalStep, Next, Explains, TaskShape, Caches, Cause;
    Explained(cfg, s, a, t);
  }

  /** Orders only change by merging excludes into the stored list and caching the result. */
  ghost predicate OrderMoves(t: TaskId, v: View, v': View) {
    && (forall u :: u != t ==> (u in v'.worker.cache <==> u in v.worker.cache)
                               && (u in v.worker.cache ==> v'.worker.cache[u] == v.worker.cache[u]))
    && (if v.worker.phase.Excluding? then
          && v'.rec.row.order == v.rec.row.order.(excludes := Merged(v.rec.row.order.excludes, v.worker.phase.packet.excludes))
          && t in v'.worker.cache && v'.worker.cache[t] == v'.rec.row.order
        else
          && v'.rec.row.order == v.rec.row.order
          && (t in v'.worker.cache ==>
                || (t in v.worker.cache && v'.worker.cache[t] == v.worker.cache[t])
                || v'.worker.cache[t] == v.rec.row.order))
  }

  lemma OrderEarly(cfg: Config, v: View, p: Phase, c: Choice, t: TaskId)
    requires p == v.worker.phase && Holds(p) == Some(t)
    requires p.Begin? || p.Reading? || p.Budgeting? || p.Inserting? || p.Syncing? || p.Consulting? || p.Cleared? || p.Charging?
    ensures OrderMoves(t, v, LocalStep(cfg, v, c))
  {
    hide OnChoosing, OnChargeRead, OnCharged, OnLaunching, OnStarting, OnExecuting, OnFinished, OnBilling, OnBillRead,
         OnBillWrite, OnBilled, OnRecording, Settle, OnContexting, OnPackaging, OnExcluding, OnAddressing, OnReleasing,
         OnReporting, OnFailing;
  }

  lemma OrderDecide(cfg: Config, v: View, p: Phase, c: Choice, t: TaskId)
    requires p == v.worker.phase && Holds(p) == Some(t) && (p.Choosing? || p.ChargeRead? || p.Charged?)
    ensures OrderMoves(t, v, LocalStep(cfg, v, c))
  {
    hide DecisionAt, PickAxis, PreLaunched, RefusalPhase, OnBegin, OnReading, OnInserting, OnSyncing, OnConsulting,
         OnCleared, OnCharging, OnLaunching, OnStarting, OnExecuting, OnFinished, OnBilling, OnBillRead, OnBillWrite,
         OnBilled, OnRecording, Settle, OnContexting, OnPackaging, OnExcluding, OnAddressing, OnReleasing, OnReporting,
         OnFailing;
  }

  lemma OrderRun(cfg: Config, v: View, p: Phase, c: Choice, t: TaskId)
    requires p == v.worker.phase && Holds(p) == Some(t) && (p.Launching? || p.Starting?)
    ensures OrderMoves(t, v, LocalStep(cfg, v, c))
  {
    hide CreationFailure, CreationEvents, StartEvents, Fail, OnBegin, OnReading, OnInserting, OnSyncing, OnConsulting,
         OnChoosing, OnCleared, OnCharging, OnChargeRead, OnCharged, OnExecuting, OnFinished, OnBilling, OnBillRead,
         OnBillWrite, OnBilled, OnRecording, Settle, OnContexting, OnPackaging, OnExcluding, OnAddressing, OnReleasing,
         OnReporting, OnFailing;
  }

  lemma OrderExecute(cfg: Config, v: View, p: Phase, c: Choice, t: TaskId)
    requires p == v.worker.phase && Holds(p) == Some(t) && p.Executing?
    ensures OrderMoves(t, v, LocalStep(cfg, v, c))
  {
    hide Execute, Fail, OnBegin, OnReading, OnInserting, OnSyncing, OnConsulting, OnChoosing, OnCleared, OnCharging,
         OnChargeRead, OnCharged, OnLaunching, OnStarting, OnFinished, OnBilling, OnBillRead, OnBillWrite, OnBilled,
         OnRecording, Settle, OnContexting, OnPackaging, OnExcluding, OnAddressing, OnReleasing, OnReporting, OnFailing;
  }

  lemma OrderBill(cfg: Config, v: View, p: Phase, c: Choice, t: TaskId)
    requires p == v.worker.phase && Holds(p) == Some(t)
    requires p.Finished? || p.Billing? || p.BillRead? || p.BillWrite? || p.Billed? || p.Recording?
    ensures OrderMoves(t, v, LocalStep(cfg, v, c))
  {
    hide PickAxis, PostRan, HealthOf, WorseHealth, CostOf, OnBegin, OnReading, OnInserting, OnSyncing, OnConsulting,
         OnChoosing, OnCleared, OnCharging, OnChargeRead, OnCharged, OnLaunching, OnStarting, OnExecuting, Settle,
         OnContexting, OnPackaging, OnExcluding, OnAddressing, OnReleasing, OnReporting, OnFailing;
  }

  lemma OrderSettle(cfg: Config, v: View, p: Phase, c: Choice, t: TaskId)
    requires p == v.worker.phase && Holds(p) == Some(t)
    requires p.Settling? || HasPlan(p) || p.Failing?
    ensures OrderMoves(t, v, LocalStep(cfg, v, c))
  {
    hide Settle, Merged, OnBegin, OnReading, OnInserting, OnSyncing, OnConsulting, OnChoosing, OnCleared, OnCharging,
         OnChargeRead, OnCharged, OnLaunching, OnStarting, OnExecuting, OnFinished, OnBilling, OnBillRead, OnBillWrite,
         OnBilled, OnRecording;
  }

  lemma OrderStep(cfg: Config, v: View, c: Choice, t: TaskId)
    requires Holds(v.worker.phase) == Some(t)
    ensures OrderMoves(t, v, LocalStep(cfg, v, c))
  {
    hide LocalStep, OrderMoves;
    var p := v.worker.phase;
    if p.Choosing? || p.ChargeRead? || p.Charged? {
      OrderDecide(cfg, v, p, c, t);
    } else if p.Launching? || p.Starting? {
      OrderRun(cfg, v, p, c, t);
    } else if p.Executing? {
      OrderExecute(cfg, v, p, c, t);
    } else if p.Finished? || p.Billing? || p.BillRead? || p.BillWrite? || p.Billed? || p.Recording? {
      OrderBill(cfg, v, p, c, t);
    } else if p.Settling? || HasPlan(p) || p.Failing? {
      OrderSettle(cfg, v, p, c, t);
    } else {
      OrderEarly(cfg, v, p, c, t);
    }
  }

  lemma CacheOkReflexive(o: WorkOrder)
    ensures CacheOk(o, o)
  {
  }

  /** A step keeps every cached copy of its task's order a stale prefix at worst. */
  lemma CacheStep(cfg: Config, v: View, c: Choice, t: TaskId, cached: WorkOrder)
    requires Holds(v.worker.phase) == Some(t)
    requires CacheOk(cached, v.rec.row.order)
    requires t in v.worker.cache ==> CacheOk(v.worker.cache[t], v.rec.row.order)
    ensures var v' := LocalStep(cfg, v, c);
            && CacheOk(cached, v'.rec.row.order)
            && (t in v'.worker.cache ==> CacheOk(v'.worker.cache[t], v'.rec.row.order))
  {
    hide LocalStep, CacheOk;
    OrderStep(cfg, v, c, t);
    if v.worker.phase.Excluding? {
      CacheOkAfterMerge(cached, v.rec.row.order, v.worker.phase.packet.excludes);
    }
    CacheOkReflexive(LocalStep(cfg, v, c).rec.row.order);
  }

  lemma CachesAfterWork(cfg: Config, s: Sys, a: Action, w: WorkerId, t: TaskId)
    requires Structured(s) && a.Work? && Enabled(cfg, s, a)
    requires var s' := Next(cfg, s, a); w in s'.workers && t in s'.workers[w].cache
    ensures var s' := Next(cfg, s, a); t in s'.tasks && CacheOk(s'.workers[w].cache[t], s'.tasks[t].row.order)
  {
    hide LocalStep, CacheOk, TaskShape;
    var p := s.workers[a.w].phase;
    var u := Subject(p).value;
    var v := ViewOf(s, a.w, u);
    var v' := LocalStep(cfg, v, a.choice);
    if p.Selected? || p.Reporting? {
      UnheldStep(cfg, v, a.choice);
    } else {
      OrderStep(cfg, v, a.choice, u);
      CacheOkReflexive(v.rec.row.order);
      CacheStep(cfg, v, a.choice, u, if w != a.w && t == u then s.workers[w].cache[t] else v.rec.row.order);
    }
  }

  lemma CachesAfterRest(cfg: Config, s: Sys, a: Action, w: WorkerId, t: TaskId)
    requires Structured(s) && !a.Work? && Enabled(cfg, s, a)
    requires w in s.workers && t in Next(cfg, s, a).workers[w].cache
    ensures var s' := Next(cfg, s, a); t in s'.tasks && CacheOk(s'.workers[w].cache[t], s'.tasks[t].row.order)
  {
    hide CacheOk, Exclusive, Shaped, Claimable, Blank, LocalStep;
    assert t in s.workers[w].cache ==> t in s.tasks;
    CacheOkReflexive(Next(cfg, s, a).workers[w].cache[t]);
  }

  lemma SameWorkers(cfg: Config, s: Sys, a: Action)
    ensures Next(cfg, s, a).workers.Keys == s.workers.Keys
  {
    hide LocalStep;
  }

  lemma CachesStep(cfg: Config, s: Sys, a: Action)
    requires Structured(s)
    ensures Caches(Next(cfg, s, a))
  {
    hide Protocol.Apply, CacheOk, TaskShape, Exclusive;
    var s' := Next(cfg, s, a);
    SameWorkers(cfg, s, a);
    if Enabled(cfg, s, a) {
      forall w, t | w in s'.workers && t in s'.workers[w].cache
        ensures t in s'.tasks && CacheOk(s'.workers[w].cache[t], s'.tasks[t].row.order)
      {
        if a.Work? {
          CachesAfterWork(cfg, s, a, w, t);
        } else {
          CachesAfterRest(cfg, s, a, w, t);
        }
      }
    }
  }

  lemma ShapeFresh(o: WorkOrder, at: int, log: seq<Event>)
    requires o.Valid()
    ensures TaskShape(FreshRec(o, at, log), None)
  {
  }

  lemma ShapeTaken(rec: TaskRec, row: Row, n: nat, m: nat, t: TaskId, snap: Row)
    requires TaskShape(rec, None) && row.order == rec.row.order
    ensures TaskShape(rec.(row := row, claims := n, mark := m), Some(Begin(t, snap)))
  {
    hide Consistent, CacheOk;
  }

  lemma ShapeLogged(rec: TaskRec, log: seq<Event>, hold: Option<Phase>)
    requires TaskShape(rec, hold)
    ensures TaskShape(rec.(log := log), hold)
  {
    hide Consistent, CacheOk;
  }

  lemma ShapedStep(cfg: Config, s: Sys, a: Action, t: TaskId)
    requires ValidConfig(cfg) && Structured(s) && t in Next(cfg, s, a).tasks
    ensures var s' := Next(cfg, s, a); !Blank(t) && TaskShape(s'.tasks[t], Holder(s', t))
  {
    hide LocalStep, CacheOk, Blank, TaskShape, Next, FreshRec;
    Explained(cfg, s, a, t);
    match Cause(cfg, s, a, t)
    case Unmoved =>
    case Entered(o, at) => ShapeFresh(o, at, [Enqueued(t)]);
    case Taken(w, _, lease, snap) =>
      var rec := s.tasks[t];
      ShapeTaken(rec, ClaimedRow(rec.row, w, lease), rec.claims + 1, |rec.attempts|, t, snap);
    case Stepped(w, c) => ShapeStep(cfg, ViewOf(s, w, t), c);
    case Reported(w) => ShapeLogged(s.tasks[t], s.tasks[t].log + [s.workers[w].phase.event], Holder(s, t));
  }

  lemma RowOwnedStep(cfg: Config, s: Sys, a: Action, t: TaskId)
    requires Structured(s) && t in Next(cfg, s, a).tasks
    ensures RowOwned(Next(cfg, s, a), t)
  {
    hide LocalStep, CacheOk, Blank, TaskShape;
    Explained(cfg, s, a, t);
    var x := Cause(cfg, s, a, t);
    if t in s.tasks {
      assert RowOwned(s, t);
    }
    if x.Stepped? {
      HolderShape(s, x.w, t);
      OwnerStep(cfg, ViewOf(s, x.w, t), x.c, t);
    }
  }

  ghost predicate Placed(s: Sys, w: WorkerId) {
    w in s.workers ==>
      var p := s.workers[w].phase;
      && (Subject(p).Some? ==> Subject(p).value in s.tasks)
      && (Holds(p).Some? ==>
            && Holds(p).value in s.tasks
            && s.tasks[Holds(p).value].row.status.Dispatched?
            && s.tasks[Holds(p).value].row.owner == Some(w))
  }

  lemma PlacedAfterWork(cfg: Config, s: Sys, a: Action, w: WorkerId)
    requires Structured(s) && a.Work? && Enabled(cfg, s, a)
    ensures Placed(Next(cfg, s, a), w)
  {
    hide LocalStep, CacheOk, Blank, TaskShape, FirstClaimable, Claimable, PhaseShape, Caches;
    var p := s.workers[a.w].phase;
    var u := Subject(p).value;
    var v := ViewOf(s, a.w, u);
    if Holds(p).None? {
      UnheldStep(cfg, v, a.choice);
    } else {
      HolderShape(s, a.w, u);
      OwnerStep(cfg, v, a.choice, u);
    }
  }

  lemma PlacedUpdate(cfg: Config, s: Sys, a: Action, w: WorkerId)
    requires Structured(s) && a.Update? && Enabled(cfg, s, a)
    ensures Placed(Next(cfg, s, a), w)
  {
    hide Caches, Shaped, LocalStep, FirstClaimable;
  }

  lemma PlacedRest(cfg: Config, s: Sys, a: Action, w: WorkerId)
    requires Structured(s) && !a.Work? && !a.Update? && Enabled(cfg, s, a)
    ensures Placed(Next(cfg, s, a), w)
  {
    hide Caches, Shaped, LocalStep, Blank, FreshRec, RowOwned, Claimable;
  }

  lemma PlacedStep(cfg: Config, s: Sys, a: Action, w: WorkerId)
    requires Structured(s)
    ensures Placed(Next(cfg, s, a), w)
  {
    hide LocalStep, Caches, Shaped, RowOwned, Enabled, Protocol.Apply;
    if Enabled(cfg, s, a) {
      if a.Work? {
        PlacedAfterWork(cfg, s, a, w);
      } else if a.Update? {
        PlacedUpdate(cfg, s, a, w);
      } else {
        PlacedRest(cfg, s, a, w);
      }
    }
  }

  lemma StructuredStep(cfg: Config, s: Sys, a: Action)
    requires ValidConfig(cfg) && Structured(s)
    ensures Structured(Next(cfg, s, a))
  {
    hide LocalStep, CacheOk, Blank, TaskShape, Next, RowOwned;
    var s' := Next(cfg, s, a);
    CachesStep(cfg, s, a);
    forall t | t in s'.tasks ensures RowOwned(s', t) && !Blank(t) && TaskShape(s'.tasks[t], Holder(s', t)) {
      RowOwnedStep(cfg, s, a, t);
      ShapedStep(cfg, s, a, t);
    }
    forall w | w in s'.workers ensures Placed(s', w) {
      PlacedStep(cfg, s, a, w);
    }
  }

  lemma {:induction false} StructuredAlways(cfg: Config, s0: Sys, acts: seq<Action>)
    requires ValidConfig(cfg) && Initial(s0)
    ensures Structured(Run(cfg, s0, acts))
  {
    hide Structured, Next;
    if acts == [] {
      StructuredInitially(s0);
    } else {
      StructuredAlways(cfg, s0, acts[..|acts| - 1]);
      StructuredStep(cfg, Run(cfg, s0, acts[..|acts| - 1]), acts[|acts| - 1]);
    }
  }

  lemma StructuredInitially(s0: Sys)
    requires Initial(s0)
    ensures Structured(s0)
  {
  }
}
