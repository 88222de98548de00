/** What a stored budget has added up to, in any run of any number of workers: launches, time and cost. */
module Accounts {
  import opened Types
  import opened Js
  import opened Budgets
  import opened Protocol
  import opened Shape
  import opened System
  import opened Story
  import opened Footprint
  import opened Effects

  /** The registered cost of every completed attempt. */
  function TotalCost(profiles: seq<Profile>, attempts: seq<Attempt>): real {
    if attempts == [] then 0.0
    else TotalCost(profiles, Front(attempts)) + if Last(attempts).fate.Done? then CostOf(profiles, Last(attempts).agent) else 0.0
  }

  /** The attempts without the last one while that is still to be charged. */
  function Paid(attempts: seq<Attempt>, hold: Option<Phase>): seq<Attempt> {
    if hold.Some? && Unbilled(hold.value) && attempts != [] then Front(attempts) else attempts
  }

  predicate CostAdds(cfg: Config, rec: TaskRec, hold: Option<Phase>) {
    rec.budget.Some? ==> rec.budget.value.cost == TotalCost(cfg.profiles, Paid(rec.attempts, hold))
  }

  ghost predicate CostsAdd(cfg: Config, s: Sys) {
    forall t :: t in s.tasks ==> CostAdds(cfg, s.tasks[t], Holder(s, t))
  }

  /** The agent's cost is that of the profile registered under its id. */
  lemma {:induction false} RegisteredPrice(profiles: seq<Profile>, i: nat)
    requires i < |profiles| && forall j, k :: 0 <= j < k < |profiles| ==> profiles[j].id != profiles[k].id
    ensures CostOf(profiles, profiles[i].id) == match profiles[i].cost case Some(c) => c case None => 0.0
  {
    if i > 0 {
      assert profiles[1..][i - 1] == profiles[i];
      RegisteredPrice(profiles[1..], i - 1);
    }
  }

  lemma CostSnoc(profiles: seq<Profile>, front: seq<Attempt>, a: Attempt)
    ensures TotalCost(profiles, front + [a])
            == TotalCost(profiles, front) + if a.fate.Done? then CostOf(profiles, a.agent) else 0.0
  {
    assert Front(front + [a]) == front;
  }

  /** A launch in flight costs nothing yet; resolved, it counts as soon as it is completed. */
  lemma RunCost(profiles: seq<Profile>, attempts: seq<Attempt>, attempts': seq<Attempt>)
    requires attempts != [] && attempts' != [] && Front(attempts) == Front(attempts') && !Last(attempts).fate.Done?
    ensures TotalCost(profiles, Front(attempts')) == TotalCost(profiles, attempts)
    ensures !Last(attempts').fate.Done? ==> TotalCost(profiles, attempts') == TotalCost(profiles, attempts)
  {
    hide CostOf;
  }

  lemma BillCost(profiles: seq<Profile>, attempts: seq<Attempt>)
    requires attempts != [] && Last(attempts).fate.Done?
    ensures TotalCost(profiles, attempts) == TotalCost(profiles, Front(attempts)) + CostOf(profiles, Last(attempts).agent)
  {
    hide CostOf;
  }

  lemma CostLaunch(cfg: Config, v: View, v': View, c: Choice)
    requires BudgetMoves(cfg, v, v', c) && AttemptsMove(v, v') && v.worker.phase.ChargeRead? && v'.worker.phase.Charged?
    requires PhaseShape(v.rec, v.worker.phase) && CostAdds(cfg, v.rec, Some(v.worker.phase))
    ensures CostAdds(cfg, v'.rec, Held(v'.worker.phase))
  {
    hide CacheOk, TotalCost, ComputeStatus;
    var p := v.worker.phase;
    CostSnoc(cfg.profiles, v.rec.attempts, Attempt(p.job.snap.role, p.agent, NoRun, InFlight));
  }

  lemma CostRun(cfg: Config, v: View, v': View, c: Choice)
    requires BudgetMoves(cfg, v, v', c) && AttemptsMove(v, v') && EndingMoves(v, v', c) && Open(v.worker.phase)
    requires AttemptsOk(v.rec.attempts, true) && CostAdds(cfg, v.rec, Some(v.worker.phase))
    ensures CostAdds(cfg, v'.rec, Held(v'.worker.phase))
  {
    hide TotalCost, RunMoves;
    RunCost(cfg.profiles, v.rec.attempts, v'.rec.attempts);
  }

  lemma CostBill(cfg: Config, v: View, v': View, c: Choice)
    requires BudgetMoves(cfg, v, v', c) && AttemptsMove(v, v') && EndingMoves(v, v', c) && Unbilled(v.worker.phase)
    requires PhaseShape(v.rec, v.worker.phase) && CostAdds(cfg, v.rec, Some(v.worker.phase))
    ensures CostAdds(cfg, v'.rec, Held(v'.worker.phase))
  {
    hide TotalCost, CacheOk, ComputeStatus, CostOf;
    BillCost(cfg.profiles, v.rec.attempts);
  }

  lemma CostElse(cfg: Config, v: View, v': View, c: Choice)
    requires BudgetMoves(cfg, v, v', c) && AttemptsMove(v, v') && EndingMoves(v, v', c)
    requires !v.worker.phase.ChargeRead? && !Open(v.worker.phase) && !Unbilled(v.worker.phase)
    requires BudgetMatches(v.rec) && CostAdds(cfg, v.rec, Some(v.worker.phase))
    requires v.worker.phase.Inserting? ==> v.rec.budget.None?
    ensures CostAdds(cfg, v'.rec, Held(v'.worker.phase))
  {
    hide ComputeStatus, CostOf, Consistent;
  }

  /** Launching, resolving and billing, seen from the sum. */
  lemma CostStep(cfg: Config, t: TaskId, v: View, v': View, c: Choice)
    requires Effects.Effects(cfg, v, v', c) && HistoryMoves(v, v') && Holds(v.worker.phase) == Some(t)
    requires TaskShape(v.rec, Some(v.worker.phase)) && CostAdds(cfg, v.rec, Some(v.worker.phase))
    ensures CostAdds(cfg, v'.rec, Held(v'.worker.phase))
  {
    hide CostAdds, BudgetMoves, EndingMoves, AttemptsMove, BudgetMatches, CacheOk;
    if v.worker.phase.ChargeRead? {
      CostLaunch(cfg, v, v', c);
    } else if Open(v.worker.phase) {
      CostRun(cfg, v, v', c);
    } else if Unbilled(v.worker.phase) {
      CostBill(cfg, v, v', c);
    } else {
      CostElse(cfg, v, v', c);
    }
  }

  lemma CostTask(cfg: Config, s: Sys, a: Action, t: TaskId)
    requires Structured(s) && CostsAdd(cfg, s) && t in Next(cfg, s, a).tasks
    ensures var s' := Next(cfg, s, a); CostAdds(cfg, s'.tasks[t], Holder(s', t))
  {
    hide LocalStep, CacheOk, Blank, Next, PhaseShape, TotalCost, BudgetMatches;
    Explained(cfg, s, a, t);
    match Cause(cfg, s, a, t)
    case Unmoved =>
    case Entered(o, at) =>
    case Taken(w, now, lease, snap) =>
    case Stepped(w, c) =>
      HolderShape(s, w, t);
      EffectStep(cfg, t, ViewOf(s, w, t), c);
      HistoryStep(cfg, ViewOf(s, w, t), c);
      CostStep(cfg, t, ViewOf(s, w, t), LocalStep(cfg, ViewOf(s, w, t), c), c);
    case Reported(w) =>
  }

  lemma {:induction false} CostsAlways(cfg: Config, s0: Sys, acts: seq<Action>)
    requires ValidConfig(cfg) && Initial(s0)
    ensures Structured(Run(cfg, s0, acts)) && CostsAdd(cfg, Run(cfg, s0, acts))
  {
    hide Structured, Next, CostAdds;
    StructuredAlways(cfg, s0, acts);
    if acts != [] {
      var s := Run(cfg, s0, acts[..|acts| - 1]);
      CostsAlways(cfg, s0, acts[..|acts| - 1]);
      forall t | t in Run(cfg, s0, acts).tasks ensures CostAdds(cfg, Run(cfg, s0, acts).tasks[t], Holder(Run(cfg, s0, acts), t)) {
        CostTask(cfg, s, acts[|acts| - 1], t);
      }
    }
  }

  // ---- Time ----

  /** The time that this action charges to `t`: a run's elapsed time, and nothing if the clock went backwards. */
  function TimeCharged(s: Sys, a: Action, t: TaskId): real {
    if a.Work? && a.choice.Elapse? && a.w in s.workers && s.workers[a.w].phase.BillWrite? && s.workers[a.w].phase.job.task == t
       && a.choice.wallMs >= 0.0
    then a.choice.wallMs else 0.0
  }

  /** All the time charged to `t` along a run. */
  ghost function Elapsed(cfg: Config, s0: Sys, acts: seq<Action>, t: TaskId): real {
    if acts == [] then 0.0
    else
      var before := acts[..|acts| - 1];
      Elapsed(cfg, s0, before, t) + TimeCharged(Run(cfg, s0, before), acts[|acts| - 1], t)
  }

  function WallOf(s: Sys, t: TaskId): real {
    if t in s.tasks && s.tasks[t].budget.Some? then s.tasks[t].budget.value.wallMs else 0.0
  }

  predicate HoldsNow(s: Sys, w: WorkerId, t: TaskId) {
    w in s.workers && t in s.tasks && Holds(s.workers[w].phase) == Some(t)
  }

  lemma WallStepped(cfg: Config, s: Sys, a: Action, t: TaskId)
    requires Structured(s) && a.Work? && Enabled(cfg, s, a) && HoldsNow(s, a.w, t)
    ensures WallOf(Next(cfg, s, a), t) == WallOf(s, t) + TimeCharged(s, a, t)
  {
    hide LocalStep, CacheOk, Blank, FirstClaimable, Consistent, CostOf, ComputeStatus;
    HolderShape(s, a.w, t);
    EffectStep(cfg, t, ViewOf(s, a.w, t), a.choice);
  }

  lemma WallElsewhere(cfg: Config, s: Sys, a: Action, t: TaskId)
    requires Structured(s) && !(a.Work? && Enabled(cfg, s, a) && HoldsNow(s, a.w, t))
    ensures WallOf(Next(cfg, s, a), t) == WallOf(s, t) && TimeCharged(s, a, t) == 0.0
  {
    hide LocalStep, CacheOk, Blank, FirstClaimable, TaskShape, Claimable;
    NoBilling(cfg, s, a, t);
    if Enabled(cfg, s, a) && a.Work? && Holds(s.workers[a.w].phase).None? {
      UnheldStep(cfg, ViewOf(s, a.w, Subject(s.workers[a.w].phase).value), a.choice);
    }
  }

  lemma NoBilling(cfg: Config, s: Sys, a: Action, t: TaskId)
    requires Structured(s) && !(a.Work? && Enabled(cfg, s, a) && HoldsNow(s, a.w, t))
    ensures TimeCharged(s, a, t) == 0.0
  {
    hide FirstClaimable, TaskShape, Caches, RowOwned;
  }

  lemma {:induction false} WallAdds(cfg: Config, s0: Sys, acts: seq<Action>, t: TaskId)
    requires ValidConfig(cfg) && Initial(s0)
    ensures WallOf(Run(cfg, s0, acts), t) == Elapsed(cfg, s0, acts, t)
  {
    hide Structured, Next, WallOf, TimeCharged, Enabled;
    if acts == [] {
      NothingYet(s0, t);
    } else {
      var n := |acts| - 1;
      var s, a := Run(cfg, s0, acts[..n]), acts[n];
      WallAdds(cfg, s0, acts[..n], t);
      StructuredAlways(cfg, s0, acts[..n]);
      if a.Work? && Enabled(cfg, s, a) && HoldsNow(s, a.w, t) {
        WallStepped(cfg, s, a, t);
      } else {
        WallElsewhere(cfg, s, a, t);
      }
    }
  }

  lemma NothingYet(s0: Sys, t: TaskId)
    requires Initial(s0)
    ensures WallOf(s0, t) == 0.0
  {
  }

  // ---- The accounts ----

  /**
   In any run of any number of workers a stored budget has added up exactly what was spent: every launch, the
   registered cost of the agent of every completed attempt (the last one excepted until it is charged), and every
   elapsed time. Its limits are those of the order, minutes in milliseconds, and its status says which are reached.
   */
  lemma BudgetAccounts(cfg: Config, s0: Sys, acts: seq<Action>, t: TaskId)
    requires ValidConfig(cfg) && Initial(s0) && t in Run(cfg, s0, acts).tasks && Run(cfg, s0, acts).tasks[t].budget.Some?
    ensures var s := Run(cfg, s0, acts); var rec := s.tasks[t]; var b := rec.budget.value; var o := rec.row.order;
            && b.runs == |rec.attempts|
            && b.cost == TotalCost(cfg.profiles, Paid(rec.attempts, Holder(s, t)))
            && b.wallMs == Elapsed(cfg, s0, acts, t)
            && (b.status.Exhausted? <==>
                  |rec.attempts| >= o.maxRuns || b.wallMs >= o.maxWallMinutes * 60000.0 || b.cost >= o.maxCost)
            && (b.status.Ok? <==>
                  && |rec.attempts| as real < 0.8 * o.maxRuns as real && b.wallMs < 0.8 * (o.maxWallMinutes * 60000.0)
                  && b.cost < 0.8 * o.maxCost)
  {
    hide Run, Structured, TotalCost, PhaseShape, ComputeStatus, Elapsed;
    CostsAlways(cfg, s0, acts);
    WallAdds(cfg, s0, acts, t);
    var s := Run(cfg, s0, acts);
    assert CostAdds(cfg, s.tasks[t], Holder(s, t));
    BudgetShape(s, t);
    StatusExact(s.tasks[t].budget.value);
  }

  lemma BudgetShape(s: Sys, t: TaskId)
    requires Structured(s) && t in s.tasks && s.tasks[t].budget.Some?
    ensures var rec := s.tasks[t]; var b := rec.budget.value;
            Consistent(b) && b.caps == rec.row.order.BudgetCaps() && b.runs == |rec.attempts|
  {
    hide PhaseShape, Consistent, CacheOk, Blank;
  }
}
