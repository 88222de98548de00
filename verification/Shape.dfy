/**
 The structural invariant: budgets agree with launches, cached orders trail stored ones, and the values a
 worker carries between store calls are still the stored ones. It needs no isolation of the claim.
 */
module Shape {
  import opened Types
  import opened Js
  import opened Budgets
  import opened SchedulerLaws
  import opened Runs
  import opened Handoffs
  import opened Protocol

  /** A cached order differs from the stored one only in excludes, where it may lag behind. */
  predicate CacheOk(cached: WorkOrder, stored: WorkOrder) {
    cached.Core() == stored.Core() && Dedupe(cached.excludes) <= Dedupe(stored.excludes)
  }

  /** The order a phase carries. */
  function OrderOf(p: Phase): Option<WorkOrder> {
    match p
    case Idle | Halted | Selected(_, _) | Begin(_, _) | Releasing(_, _) | Reporting(_, _) | Failing(_, _) => None
    case Reading(_, _, o) => Some(o)
    case _ => Some(p.job.order)
  }

  /** A launch has been charged and has not ended. */
  predicate Open(p: Phase) {
    p.Charged? || p.Launching? || p.Starting? || p.Executing?
  }

  /** The release the holder will make is decided. */
  predicate HasPlan(p: Phase) {
    p.Contexting? || p.Packaging? || p.Excluding? || p.Addressing? || p.Releasing?
  }

  predicate AttemptsOk(attempts: seq<Attempt>, open: bool) {
    && (open ==> attempts != [])
    && forall k :: 0 <= k < |attempts| ==> (attempts[k].fate.InFlight? <==> open && k == |attempts| - 1)
  }

  function Last(attempts: seq<Attempt>): Attempt
    requires attempts != []
  {
    attempts[|attempts| - 1]
  }

  predicate BudgetMatches(rec: TaskRec) {
    match rec.budget
    case None => rec.attempts == []
    case Some(b) => Consistent(b) && b.caps == rec.row.order.BudgetCaps() && b.runs == |rec.attempts|
  }

  /** The launch in flight belongs to this job. */
  predicate Flying(rec: TaskRec, job: Job, a: AgentId, run: RunRow) {
    && rec.attempts != [] && rec.budget.Some?
    && Last(rec.attempts) == Attempt(job.snap.role, a, run, InFlight)
  }

  /** The launch that just ended belongs to this job and returned this outcome. */
  predicate Landed(rec: TaskRec, job: Job, a: AgentId, o: Outcome) {
    && rec.attempts != [] && rec.budget.Some?
    && Last(rec.attempts).role == job.snap.role && Last(rec.attempts).agent == a
    && Last(rec.attempts).fate.Done? && Last(rec.attempts).fate.outcome == o
    && o.ForRole(job.snap.role)
  }

  predicate CanLaunch(rec: TaskRec) {
    rec.budget.Some? && !rec.budget.value.status.Exhausted?
  }

  predicate PhaseShape(rec: TaskRec, p: Phase) {
    && (OrderOf(p).Some? ==> CacheOk(OrderOf(p).value, rec.row.order))
    && (p.Inserting? ==> rec.budget.None?)
    && (p.Syncing? || p.Consulting? ==> rec.budget.Some?)
    && (p.Choosing? ==> rec.budget == Some(p.budget))
    && (p.Cleared? ==> CanLaunch(rec))
    && (p.Charging? ==> CanLaunch(rec) && rec.budget == Some(p.before))
    && (p.ChargeRead? ==> CanLaunch(rec) && rec.budget == Some(p.before) && p.read == p.before)
    && (p.Charged? || p.Billed? ==> p.before.status.Rank() <= p.after.status.Rank())
    && (p.Charged? || p.Billed? || p.Recording? || p.Settling? ==> rec.budget == Some(p.after))
    && (p.Charged? || p.Launching? ==> Flying(rec, p.job, p.agent, NoRun))
    && (p.Starting? ==> Flying(rec, p.job, p.agent, RunRow(p.run, Preparing)))
    && (p.Executing? ==> Flying(rec, p.job, p.agent, RunRow(p.run, Running)))
    && (p.Finished? || p.Billing? || p.BillRead? || p.BillWrite? || p.Billed? || p.Recording? || p.Settling? ==>
          Landed(rec, p.job, p.agent, p.outcome))
    && (p.BillRead? ==> rec.budget == Some(p.before))
    && (HasPlan(p) ==> p.plan.status.Terminal() || (p.plan.status.Queued? && CanLaunch(rec)))
    && (p.BillWrite? ==> rec.budget == Some(p.before) && p.read == p.before)
  }

  predicate TaskShape(rec: TaskRec, hold: Option<Phase>) {
    && rec.row.order.Valid()
    && BudgetMatches(rec)
    && AttemptsOk(rec.attempts, hold.Some? && Open(hold.value))
    && (hold.Some? ==> PhaseShape(rec, hold.value))
  }

  /** The phase as the holder of its task, if it still holds it. */
  function Held(p: Phase): Option<Phase> {
    if Holds(p).Some? then Some(p) else None
  }

  predicate ValidConfig(cfg: Config) {
    forall p :: p in cfg.profiles ==> p.Valid() && !Blank(p.id)
  }

  lemma {:induction false} CostNonNegative(profiles: seq<Profile>, a: AgentId)
    requires forall p :: p in profiles ==> p.Valid()
    ensures CostOf(profiles, a) >= 0.0
  {
    if profiles != [] {
      assert profiles[0] in profiles;
      CostNonNegative(profiles[1..], a);
    }
  }

  /** A merge only appends to the deduplicated list, so older copies stay prefixes. */
  lemma CacheOkAfterMerge(cached: WorkOrder, stored: WorkOrder, added: seq<AgentId>)
    requires CacheOk(cached, stored)
    ensures CacheOk(cached, stored.(excludes := Merged(stored.excludes, added)))
  {
    DedupePrefix(stored.excludes, added);
    DedupeIdempotent(stored.excludes + added);
  }

  lemma CacheOkCaps(cached: WorkOrder, stored: WorkOrder)
    requires CacheOk(cached, stored)
    ensures cached.BudgetCaps() == stored.BudgetCaps()
    ensures cached.reviewEnabled == stored.reviewEnabled && cached.commands == stored.commands
    ensures forall a :: a in cached.excludes ==> a in stored.excludes
  {
    assert cached.Core().maxRuns == stored.Core().maxRuns;
    DedupeMembers(cached.excludes);
    DedupeMembers(stored.excludes);
    var d, e := Dedupe(cached.excludes), Dedupe(stored.excludes);
    forall a | a in cached.excludes ensures a in stored.excludes {
      assert a in d;
      var k :| 0 <= k < |d| && d[k] == a;
      assert e[k] == a;
    }
  }

  /** The scheduler lets nothing through when the budget it was shown is exhausted. */
  lemma ChosenCanLaunch(cfg: Config, v: View, p: Phase, metrics: map<AgentId, Metrics>)
    requires p.Choosing? && DecisionAt(cfg, v, p, metrics).picked.Some?
    ensures !p.budget.status.Exhausted?
  {
    PickOrRefusal(Request0(p.job, p.budget), Listing(cfg, metrics, v.health), cfg.rank);
  }

  // ---- Preservation, phase by phase ----

  /** The holder of the task is at `p`, its own cache is in order, and the task is well shaped. */
  predicate Ready(v: View, p: Phase) {
    && p == v.worker.phase && Holds(p).Some?
    && TaskShape(v.rec, Some(p))
    && (Holds(p).value in v.worker.cache ==> CacheOk(v.worker.cache[Holds(p).value], v.rec.row.order))
  }

  predicate WellShaped(v: View) {
    TaskShape(v.rec, Held(v.worker.phase))
  }

  lemma ShapeBegin(v: View, p: Phase, c: Choice)
    requires Ready(v, p) && p.Begin?
    ensures WellShaped(OnBegin(v, p, c))
  {
    hide Consistent;
  }

  lemma ShapeReading(v: View, p: Phase)
    requires Ready(v, p) && p.Reading?
    ensures WellShaped(OnReading(v, p))
  {
    hide CacheOk, Consistent;
  }

  lemma ShapeInserting(v: View, p: Phase)
    requires Ready(v, p) && p.Inserting?
    ensures WellShaped(OnInserting(v, p))
  {
    hide CacheOk, Consistent;
    CacheOkCaps(p.job.order, v.rec.row.order);
    FreshConsistent(v.rec.row.order);
  }

  lemma ShapeConsulting(v: View, p: Phase)
    requires Ready(v, p) && (p.Consulting? || p.Syncing?)
    ensures p.Consulting? ==> WellShaped(OnConsulting(v, p))
    ensures p.Syncing? ==> WellShaped(OnSyncing(v, p))
  {
    hide CacheOk, Consistent;
  }

  lemma ShapeChoosing(cfg: Config, v: View, p: Phase, c: Choice)
    requires Ready(v, p) && p.Choosing?
    ensures WellShaped(OnChoosing(cfg, v, p, c))
  {
    hide CacheOk, Consistent, DecisionAt;
    if c.Observe? && DecisionAt(cfg, v, p, c.metrics).picked.Some? {
      ChosenCanLaunch(cfg, v, p, c.metrics);
    }
  }

  lemma ShapeCleared(v: View, p: Phase, c: Choice)
    requires Ready(v, p) && (p.Cleared? || p.Charging?)
    ensures p.Cleared? ==> WellShaped(OnCleared(v, p, c))
    ensures p.Charging? ==> WellShaped(OnCharging(v, p))
  {
    hide CacheOk, Consistent;
  }

  lemma ShapeChargeRead(v: View, p: Phase)
    requires Ready(v, p) && p.ChargeRead?
    ensures WellShaped(OnChargeRead(v, p))
  {
    hide CacheOk, Consistent;
    PreLaunchKeeps(p.read);
  }

  lemma ShapeTransition(v: View, p: Phase)
    requires Ready(v, p) && (p.Charged? || p.Billed?)
    ensures p.Charged? ==> WellShaped(OnCharged(v, p))
    ensures p.Billed? ==> WellShaped(OnBilled(v, p))
  {
    hide CacheOk, Consistent, PickAxis, CanLaunch, AttemptsOk;
  }

  lemma ShapeLaunching(v: View, p: Phase, c: Choice)
    requires Ready(v, p) && p.Launching?
    ensures WellShaped(OnLaunching(v, p, c))
  {
    hide CacheOk, Consistent;
  }

  lemma ShapeStarting(v: View, p: Phase, c: Choice)
    requires Ready(v, p) && p.Starting?
    ensures WellShaped(OnStarting(v, p, c))
  {
    hide CacheOk, Consistent;
  }

  lemma ShapeExecuting(v: View, p: Phase, c: Choice)
    requires Ready(v, p) && p.Executing?
    ensures WellShaped(OnExecuting(v, p, c))
  {
    hide CacheOk, Consistent, Execute;
    if c.Happen? && c.env.ForRole(p.job.snap.role) {
      OutcomeFitsRole(Context(p.job.task, p.run, p.agent), p.job.order, c.env, p.job.snap.role);
    }
  }

  lemma ShapeBilling(v: View, p: Phase)
    requires Ready(v, p) && (p.Finished? || p.Billing? || p.BillRead?)
    ensures p.Finished? ==> WellShaped(OnFinished(v, p))
    ensures p.Billing? ==> WellShaped(OnBilling(v, p))
    ensures p.BillRead? ==> WellShaped(OnBillRead(v, p))
  {
    hide CacheOk, Consistent;
  }

  lemma ShapeBillWrite(cfg: Config, v: View, p: Phase, c: Choice)
    requires ValidConfig(cfg) && Ready(v, p) && p.BillWrite?
    ensures WellShaped(OnBillWrite(cfg, v, p, c))
  {
    hide CacheOk, Consistent;
    if c.Elapse? {
      CostNonNegative(cfg.profiles, p.agent);
      PostRunKeeps(p.read, if c.wallMs >= 0.0 then c.wallMs else 0.0, CostOf(cfg.profiles, p.agent));
    }
  }

  lemma ShapeRecording(v: View, p: Phase)
    requires Ready(v, p) && p.Recording?
    ensures WellShaped(OnRecording(v, p))
  {
    hide CacheOk, Consistent;
  }

  lemma ShapeSettling(v: View, p: Phase)
    requires Ready(v, p) && p.Settling?
    ensures WellShaped(v.To(Settle(p.job, p.agent, p.outcome, p.after)))
  {
    hide CacheOk, Consistent;
  }

  lemma ShapeStoring(v: View, p: Phase)
    requires Ready(v, p) && (p.Contexting? || p.Packaging? || p.Addressing?)
    ensures p.Contexting? ==> WellShaped(OnContexting(v, p))
    ensures p.Packaging? ==> WellShaped(OnPackaging(v, p))
    ensures p.Addressing? ==> WellShaped(OnAddressing(v, p))
  {
    hide CacheOk, Consistent;
  }

  lemma ShapeExcluding(v: View, p: Phase)
    requires Ready(v, p) && p.Excluding?
    ensures WellShaped(OnExcluding(v, p))
  {
    hide CacheOk, Consistent;
    CacheOkAfterMerge(p.job.order, v.rec.row.order, p.packet.excludes);
  }

  lemma ShapeClosing(v: View, p: Phase)
    requires Ready(v, p) && (p.Releasing? || p.Failing?)
    ensures p.Releasing? ==> WellShaped(OnReleasing(v, p))
    ensures p.Failing? ==> WellShaped(OnFailing(v, p))
  {
    hide CacheOk, Consistent;
  }

  /** Every step of the holder keeps the structure of its task. */
  lemma ShapeStep(cfg: Config, v: View, c: Choice)
    requires ValidConfig(cfg) && Ready(v, v.worker.phase)
    ensures WellShaped(LocalStep(cfg, v, c))
  {
    hide TaskShape, OnBegin, OnReading, OnInserting, OnSyncing, OnConsulting, OnChoosing, OnCleared, OnCharging,
         OnChargeRead, OnCharged, OnLaunching, OnStarting, OnExecuting, OnFinished, OnBilling, OnBillRead,
         OnBillWrite, OnBilled, OnRecording, Settle, OnContexting, OnPackaging, OnExcluding, OnAddressing,
         OnReleasing, OnFailing;
    var p := v.worker.phase;
    match p
    case Begin(_, _) => ShapeBegin(v, p, c);
    case Reading(_, _, _) => ShapeReading(v, p);
    case Budgeting(_) => ShapeBudgeting(v, p);
    case Inserting(_) => ShapeInserting(v, p);
    case Syncing(_) | Consulting(_) => ShapeConsulting(v, p);
    case Choosing(_, _) => ShapeChoosing(cfg, v, p, c);
    case Cleared(_, _) | Charging(_, _, _) => ShapeCleared(v, p, c);
    case ChargeRead(_, _, _, _) => ShapeChargeRead(v, p);
    case Charged(_, _, _, _) | Billed(_, _, _, _, _) => ShapeTransition(v, p);
    case Launching(_, _) => ShapeLaunching(v, p, c);
    case Starting(_, _, _) => ShapeStarting(v, p, c);
    case Executing(_, _, _) => ShapeExecuting(v, p, c);
    case Finished(_, _, _) | Billing(_, _, _) | BillRead(_, _, _, _) => ShapeBilling(v, p);
    case BillWrite(_, _, _, _, _) => ShapeBillWrite(cfg, v, p, c);
    case Recording(_, _, _, _) => ShapeRecording(v, p);
    case Settling(_, _, _, _) => ShapeSettling(v, p);
    case Contexting(_, _, _) | Packaging(_, _, _, _, _) | Addressing(_, _, _) => ShapeStoring(v, p);
    case Excluding(_, _, _) => ShapeExcluding(v, p);
    case Releasing(_, _) | Failing(_, _) => ShapeClosing(v, p);
  }

  lemma ShapeBudgeting(v: View, p: Phase)
    requires Ready(v, p) && p.Budgeting?
    ensures WellShaped(v.To(if v.rec.budget.Some? then Syncing(p.job) else Inserting(p.job)))
  {
    hide CacheOk, Consistent;
  }
}
