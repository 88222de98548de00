/**
 Whom the scheduler picks again. In any run of any number of workers a pick repeats an implementer exactly when the
 stored order already excludes the picked agent, and that takes a copy of the order that lags behind the store.
 */
module Picks {
  import opened Types
  import opened Js
  import opened Budgets
  import opened Scheduler
  import opened SchedulerLaws
  import opened Events
  import opened Runs
  import opened Handoffs
  import opened Protocol
  import opened Shape
  import opened System
  import opened Story
  import opened StorySteps
  import opened Footprint
  import opened Safety

  predicate Registered(cfg: Config, a: AgentId) {
    exists p :: p in cfg.profiles && p.id == a
  }

  /** The agent has completed an implementation, successful or not. */
  predicate Implemented(attempts: seq<Attempt>, a: AgentId) {
    exists k :: 0 <= k < |attempts| && attempts[k].role.Implementer? && attempts[k].fate.Done? && attempts[k].agent == a
  }

  // ---- What a holder carries from the claim to the launch ----

  /** The order, the job and the agent of a phase before the launch are those of the step before. */
  ghost predicate JobMoves(cfg: Config, t: TaskId, v: View, v': View, c: Choice) {
    var p, p' := v.worker.phase, v'.worker.phase;
    && (p'.Reading? ==> p.Begin? && p'.order == if t in v.worker.cache then v.worker.cache[t] else v.rec.row.order)
    && (BeforeLaunch(p') ==> (p.Reading? || BeforeLaunch(p)) && OrderOf(p') == OrderOf(p))
    && (Chosen(p') ==> (Chosen(p) && p'.agent == p.agent && p'.job == p.job)
                       || (p.Choosing? && c.Observe? && p'.job == p.job && DecisionAt(cfg, v, p, c.metrics).picked == Some(p'.agent)))
  }

  lemma JobRead(cfg: Config, t: TaskId, v: View, p: Phase, c: Choice)
    requires p == v.worker.phase && Holds(p) == Some(t) && (p.Begin? || p.Reading? || p.Budgeting? || p.Inserting?)
    ensures JobMoves(cfg, t, v, LocalStep(cfg, v, c), c)
  {
    hide DecisionAt, Fresh, OnSyncing, OnConsulting, OnChoosing, OnCleared, OnCharging, OnChargeRead, OnCharged, OnLaunching,
         OnStarting, OnExecuting, OnFinished, OnBilling, OnBillRead, OnBillWrite, OnBilled, OnRecording, Settle,
         OnContexting, OnPackaging, OnExcluding, OnAddressing, OnReleasing, OnReporting, OnFailing;
  }

  lemma JobConsult(cfg: Config, t: TaskId, v: View, p: Phase, c: Choice)
    requires p == v.worker.phase && Holds(p) == Some(t)
    requires p.Syncing? || p.Consulting? || p.Cleared? || p.Charging? || p.ChargeRead?
    ensures JobMoves(cfg, t, v, LocalStep(cfg, v, c), c)
  {
    hide DecisionAt, PreLaunched, SyncEmitted, OnBegin, OnReading, OnInserting, OnChoosing, OnCharged, OnLaunching, OnStarting,
         OnExecuting, OnFinished, OnBilling, OnBillRead, OnBillWrite, OnBilled, OnRecording, Settle, OnContexting,
         OnPackaging, OnExcluding, OnAddressing, OnReleasing, OnReporting, OnFailing;
  }

  lemma RefusalReleases(job: Job, d: Decision)
    ensures RefusalPhase(job, d).Releasing?
  {
  }

  lemma JobChoose(cfg: Config, t: TaskId, v: View, p: Phase, c: Choice)
    requires p == v.worker.phase && Holds(p) == Some(t) && p.Choosing?
    ensures JobMoves(cfg, t, v, OnChoosing(cfg, v, p, c), c)
  {
    hide DecisionAt, RefusalPhase, DispatchedEvent;
    if c.Observe? {
      RefusalReleases(p.job, DecisionAt(cfg, v, p, c.metrics));
    }
  }

  /** After the launch nothing leads back before it. */
  lemma NoWayBack(cfg: Config, t: TaskId, v: View, v': View, c: Choice)
    requires HistoryMoves(v, v') && Holds(v.worker.phase).Some? && !Pre(v.worker.phase)
    ensures JobMoves(cfg, t, v, v', c)
  {
    hide DecisionAt, AttemptsMove;
  }

  lemma JobStep(cfg: Config, t: TaskId, v: View, c: Choice)
    requires Holds(v.worker.phase) == Some(t) && PhaseShape(v.rec, v.worker.phase)
    ensures JobMoves(cfg, t, v, LocalStep(cfg, v, c), c)
  {
    hide JobMoves, PhaseShape, OnBegin, OnReading, OnInserting, OnSyncing, OnConsulting, OnChoosing, OnCleared,
         OnCharging, OnChargeRead, OnCharged, OnLaunching, OnStarting, OnExecuting, OnFinished, OnBilling, OnBillRead,
         OnBillWrite, OnBilled, OnRecording, Settle, OnContexting, OnPackaging, OnExcluding, OnAddressing,
         OnReleasing, OnFailing, HistoryMoves;
    var p := v.worker.phase;
    match p
    case Begin(_, _) | Reading(_, _, _) | Budgeting(_) | Inserting(_) => JobRead(cfg, t, v, p, c);
    case Syncing(_) | Consulting(_) | Cleared(_, _) | Charging(_, _, _) | ChargeRead(_, _, _, _) => JobConsult(cfg, t, v, p, c);
    case Choosing(_, _) => JobChoose(cfg, t, v, p, c);
    case _ =>
      HistoryStep(cfg, v, c);
      NoWayBack(cfg, t, v, LocalStep(cfg, v, c), c);
  }

  // ---- What a lagging copy can lack ----

  /** The stored order excludes, beyond this copy, only agents that have implemented the task. */
  predicate Lags(o: WorkOrder, rec: TaskRec) {
    forall a :: a in rec.row.order.excludes ==> a in o.excludes || Implemented(rec.attempts, a)
  }

  /** The packet excludes nobody new but the agent it hands over from, who has implemented the task. */
  predicate FairPacket(rec: TaskRec, packet: Packet) {
    && Implemented(rec.attempts, packet.fromAgent)
    && forall a :: a in packet.excludes ==> a in rec.row.order.excludes || a == packet.fromAgent
  }

  predicate Fair(rec: TaskRec, p: Phase) {
    && (p.Reading? || BeforeLaunch(p) ==> Lags(OrderOf(p).value, rec))
    && (p.Packaging? || p.Excluding? ==> FairPacket(rec, p.packet))
  }

  ghost predicate Traced(s: Sys) {
    && (forall w, t :: w in s.workers && t in s.workers[w].cache && t in s.tasks ==> Lags(s.workers[w].cache[t], s.tasks[t]))
    && (forall t :: t in s.tasks && Holder(s, t).Some? ==> Fair(s.tasks[t], Holder(s, t).value))
  }

  /** What was implemented stays implemented. */
  lemma ImplementedStays(v: View, v': View, a: AgentId)
    requires HistoryMoves(v, v') && AttemptsOk(v.rec.attempts, Open(v.worker.phase)) && Implemented(v.rec.attempts, a)
    ensures Implemented(v'.rec.attempts, a)
  {
    hide StageMoves, RunMoves;
    var attempts, attempts' := v.rec.attempts, v'.rec.attempts;
    var k :| 0 <= k < |attempts| && attempts[k].role.Implementer? && attempts[k].fate.Done? && attempts[k].agent == a;
    if Open(v.worker.phase) {
      assert k < |attempts| - 1;
      assert |Front(attempts')| == |Front(attempts)| && Front(attempts')[k] == Front(attempts)[k];
    }
    assert attempts'[k] == attempts[k];
  }

  /** The agent whose implementation is under review has implemented the task. */
  lemma ReviewedImplemented(t: TaskId, core: WorkOrder, attempts: seq<Attempt>)
    requires attempts != [] && AllGenuine(t, core, attempts) && Review(Front(attempts)).Some?
    ensures Implemented(attempts, Review(Front(attempts)).value.agentId)
  {
    var d := LastDone(Front(attempts));
    assert attempts[d] == Front(attempts)[d] && Genuine(t, core, attempts, d);
  }

  lemma SettledPacket(t: TaskId, v: View, p: Phase)
    requires Telling(t, v, p) && p.Settling?
    ensures var p' := Settle(p.job, p.agent, p.outcome, p.after); p'.Packaging? ==> FairPacket(v.rec, p'.packet)
  {
    hide AllGenuine, AllContinue, Settled, Pending, Dones, PacketExcludes, CacheOk, Merged;
    var p' := Settle(p.job, p.agent, p.outcome, p.after);
    if p'.Packaging? {
      PacketFromCopy(p.job, p.agent, p.outcome, p.after);
      PacketMembers(p.job.order.excludes, p'.packet.fromAgent);
      CacheOkCaps(p.job.order, v.rec.row.order);
      Landing(t, v, p);
      if p.outcome.ImplementerFailed? {
        assert v.rec.attempts[|v.rec.attempts| - 1].agent == p'.packet.fromAgent;
      } else {
        ReviewedImplemented(t, v.rec.row.order.Core(), v.rec.attempts);
      }
    }
  }

  lemma PacketMembers(prior: seq<AgentId>, from: AgentId)
    ensures forall a :: a in PacketExcludes(prior, from) <==> a in prior || a == from
  {
    DedupeMembers(prior);
  }

  /** A step of the holder leaves every copy of its order lagging fairly, its own new one included. */
  lemma LagsStep(cfg: Config, t: TaskId, v: View, c: Choice, o: WorkOrder)
    requires Telling(t, v, v.worker.phase) && AttemptsOk(v.rec.attempts, Open(v.worker.phase))
    requires Fair(v.rec, v.worker.phase) && Lags(o, v.rec)
    ensures Lags(o, LocalStep(cfg, v, c).rec)
  {
    hide LocalStep, CacheOk, PhaseShape, TaskStory, Implemented, HistoryMoves, Merged;
    var v' := LocalStep(cfg, v, c);
    TellingShape(t, v, v.worker.phase);
    OrderStep(cfg, v, c, t);
    HistoryStep(cfg, v, c);
    forall a | a in v'.rec.row.order.excludes ensures a in o.excludes || Implemented(v'.rec.attempts, a) {
      if v.worker.phase.Excluding? {
        MergedMembers(v.rec.row.order.excludes, v.worker.phase.packet.excludes);
      }
      assert a in o.excludes || Implemented(v.rec.attempts, a);
      if a !in o.excludes {
        ImplementedStays(v, v', a);
      }
    }
  }

  lemma TellingShape(t: TaskId, v: View, p: Phase)
    requires Telling(t, v, p)
    ensures Holds(p) == Some(t) && PhaseShape(v.rec, p)
  {
    hide PhaseShape, TaskStory, CacheOk;
  }

  lemma LagsSelf(rec: TaskRec)
    ensures Lags(rec.row.order, rec)
  {
  }

  lemma FairStep(cfg: Config, t: TaskId, v: View, c: Choice)
    requires Telling(t, v, v.worker.phase) && AttemptsOk(v.rec.attempts, Open(v.worker.phase)) && Fair(v.rec, v.worker.phase)
    requires t in v.worker.cache ==> Lags(v.worker.cache[t], v.rec)
    ensures Fair(LocalStep(cfg, v, c).rec, LocalStep(cfg, v, c).worker.phase)
  {
    hide LocalStep, Telling, JobMoves, Lags, FairPacket, BeforeLaunch;
    var p, v' := v.worker.phase, LocalStep(cfg, v, c);
    var p' := v'.worker.phase;
    TellingShape(t, v, p);
    JobStep(cfg, t, v, c);
    if p'.Reading? || BeforeLaunch(p') {
      CarriedOrder(cfg, t, v, v', c);
      LagsSelf(v.rec);
      LagsStep(cfg, t, v, c, OrderOf(p').value);
    }
    if p'.Packaging? || p'.Excluding? {
      FairPacketStep(cfg, t, v, c);
    }
  }

  lemma CarriedOrder(cfg: Config, t: TaskId, v: View, v': View, c: Choice)
    requires JobMoves(cfg, t, v, v', c) && (v'.worker.phase.Reading? || BeforeLaunch(v'.worker.phase))
    ensures var p, p' := v.worker.phase, v'.worker.phase;
            && OrderOf(p').Some?
            && (((p.Reading? || BeforeLaunch(p)) && OrderOf(p) == OrderOf(p'))
                || OrderOf(p').value == (if t in v.worker.cache then v.worker.cache[t] else v.rec.row.order))
  {
    hide DecisionAt;
  }

  lemma FairPacketStep(cfg: Config, t: TaskId, v: View, c: Choice)
    requires Telling(t, v, v.worker.phase) && AttemptsOk(v.rec.attempts, Open(v.worker.phase)) && Fair(v.rec, v.worker.phase)
    requires LocalStep(cfg, v, c).worker.phase.Packaging? || LocalStep(cfg, v, c).worker.phase.Excluding?
    ensures FairPacket(LocalStep(cfg, v, c).rec, LocalStep(cfg, v, c).worker.phase.packet)
  {
    hide LocalStep, Telling, FairPacket, Settle;
    TellingShape(t, v, v.worker.phase);
    PacketStep(cfg, v, c);
    var v' := LocalStep(cfg, v, c);
    assert FairPacket(v.rec, v'.worker.phase.packet) ==> FairPacket(v'.rec, v'.worker.phase.packet) by {
      SameFair(v.rec, v'.rec, v'.worker.phase.packet);
    }
    if v.worker.phase.Settling? {
      SettledPacket(t, v, v.worker.phase);
    }
  }

  lemma SameFair(rec: TaskRec, rec': TaskRec, packet: Packet)
    requires rec'.row == rec.row && rec'.attempts == rec.attempts
    ensures FairPacket(rec, packet) ==> FairPacket(rec', packet)
  {
  }

  /** A packet is made when settling, and handed on by the step that logs it. */
  ghost predicate PacketMoves(v: View, v': View) {
    var p, p' := v.worker.phase, v'.worker.phase;
    && (p'.Packaging? ==> p.Settling? && p' == Settle(p.job, p.agent, p.outcome, p.after))
    && (p'.Excluding? ==> p.Packaging? && p'.packet == p.packet && p'.job == p.job)
    && (p'.Packaging? || p'.Excluding? ==> v'.rec.row == v.rec.row && v'.rec.attempts == v.rec.attempts)
  }

  lemma PacketBefore(v: View, v': View)
    requires HistoryMoves(v, v') && Pre(v.worker.phase)
    ensures PacketMoves(v, v')
  {
    hide AttemptsMove, Settle;
  }

  lemma PacketOpen(cfg: Config, v: View, p: Phase, c: Choice)
    requires p == v.worker.phase && Open(p)
    ensures PacketMoves(v, LocalStep(cfg, v, c))
  {
    hide Execute, CreationFailure, Transition, OnBegin, OnReading, OnInserting, OnSyncing, OnConsulting, OnChoosing,
         OnCleared, OnCharging, OnChargeRead, OnFinished, OnBilling, OnBillRead, OnBillWrite, OnBilled, OnRecording,
         Settle, OnContexting, OnPackaging, OnExcluding, OnAddressing, OnReleasing, OnReporting, OnFailing;
  }

  lemma PacketBilled(cfg: Config, v: View, p: Phase, c: Choice)
    requires p == v.worker.phase && AfterRun(p) && !p.Settling?
    ensures PacketMoves(v, LocalStep(cfg, v, c))
  {
    hide Transition, PostRan, HealthOf, WorseHealth, CostOf, OnBegin, OnReading, OnInserting, OnSyncing, OnConsulting,
         OnChoosing, OnCleared, OnCharging, OnChargeRead, OnCharged, OnLaunching, OnStarting, OnExecuting, Settle,
         OnContexting, OnPackaging, OnExcluding, OnAddressing, OnReleasing, OnReporting, OnFailing;
  }

  lemma PacketSettled(cfg: Config, v: View, p: Phase, c: Choice)
    requires p == v.worker.phase && p.Settling?
    ensures PacketMoves(v, LocalStep(cfg, v, c))
  {
    hide PacketExcludes, OnBegin, OnReading, OnInserting, OnSyncing, OnConsulting, OnChoosing, OnCleared, OnCharging,
         OnChargeRead, OnCharged, OnLaunching, OnStarting, OnExecuting, OnFinished, OnBilling, OnBillRead, OnBillWrite,
         OnBilled, OnRecording, OnContexting, OnPackaging, OnExcluding, OnAddressing, OnReleasing, OnReporting,
         OnFailing;
  }

  lemma PacketClosed(cfg: Config, v: View, p: Phase, c: Choice)
    requires p == v.worker.phase && (HasPlan(p) || p.Failing?)
    ensures PacketMoves(v, LocalStep(cfg, v, c))
  {
    hide Merged, OnBegin, OnReading, OnInserting, OnSyncing, OnConsulting, OnChoosing, OnCleared, OnCharging,
         OnChargeRead, OnCharged, OnLaunching, OnStarting, OnExecuting, OnFinished, OnBilling, OnBillRead, OnBillWrite,
         OnBilled, OnRecording, Settle;
  }

  lemma PacketStep(cfg: Config, v: View, c: Choice)
    requires Holds(v.worker.phase).Some? && PhaseShape(v.rec, v.worker.phase)
    ensures PacketMoves(v, LocalStep(cfg, v, c))
  {
    hide LocalStep, PacketMoves, PhaseShape, HistoryMoves;
    var p := v.worker.phase;
    if Pre(p) {
      HistoryStep(cfg, v, c);
      PacketBefore(v, LocalStep(cfg, v, c));
    } else if Open(p) {
      PacketOpen(cfg, v, p, c);
    } else if p.Settling? {
      PacketSettled(cfg, v, p, c);
    } else if AfterRun(p) {
      PacketBilled(cfg, v, p, c);
    } else {
      PacketClosed(cfg, v, p, c);
    }
  }

  // ---- Every reachable state ----

  lemma HolderIsFair(s: Sys, w: WorkerId, t: TaskId)
    requires Structured(s) && Storied(s) && Traced(s) && w in s.workers && t in s.tasks
    requires Holds(s.workers[w].phase) == Some(t)
    ensures Telling(t, ViewOf(s, w, t), s.workers[w].phase) && Holder(s, t) == Some(s.workers[w].phase)
    ensures AttemptsOk(s.tasks[t].attempts, Open(s.workers[w].phase)) && Fair(s.tasks[t], s.workers[w].phase)
    ensures t in s.workers[w].cache ==> Lags(s.workers[w].cache[t], s.tasks[t])
  {
    hide CacheOk, PhaseShape, PhaseStory, AllGenuine, Blank, BudgetMatches, Lags, FairPacket;
    HolderTells(s, w, t);
    HolderShape(s, w, t);
  }

  lemma FairTask(cfg: Config, s: Sys, a: Action, t: TaskId)
    requires ValidConfig(cfg) && Structured(s) && Storied(s) && Traced(s) && t in Next(cfg, s, a).tasks
    ensures var s' := Next(cfg, s, a); Holder(s', t).Some? ==> Fair(s'.tasks[t], Holder(s', t).value)
  {
    hide LocalStep, CacheOk, Blank, TaskShape, Next, Storied, Telling, Implemented;
    Explained(cfg, s, a, t);
    match Cause(cfg, s, a, t)
    case Unmoved =>
    case Entered(o, at) =>
    case Taken(w, now, lease, snap) =>
    case Stepped(w, c) =>
      HolderIsFair(s, w, t);
      FairStep(cfg, t, ViewOf(s, w, t), c);
    case Reported(w) =>
  }

  lemma LagsAfterWork(cfg: Config, s: Sys, a: Action, w: WorkerId, t: TaskId)
    requires Structured(s) && Storied(s) && Traced(s) && a.Work? && Enabled(cfg, s, a)
    requires var s' := Next(cfg, s, a); w in s'.workers && t in s'.workers[w].cache && t in s'.tasks
    ensures var s' := Next(cfg, s, a); Lags(s'.workers[w].cache[t], s'.tasks[t])
  {
    hide LocalStep, Storied, Shaped, Telling, Implemented, FirstClaimable, Fair;
    var p := s.workers[a.w].phase;
    var u := Subject(p).value;
    var v := ViewOf(s, a.w, u);
    if Holds(p).None? {
      UnheldStep(cfg, v, a.choice);
    } else {
      OrderStep(cfg, v, a.choice, u);
      if t == u {
        HolderIsFair(s, a.w, u);
        LagsSelf(LocalStep(cfg, v, a.choice).rec);
        LagsSelf(v.rec);
        LagsStep(cfg, u, v, a.choice, if t in s.workers[w].cache then s.workers[w].cache[t] else v.rec.row.order);
        LagsStep(cfg, u, v, a.choice, v.rec.row.order);
      }
    }
  }

  lemma LagsAfterRest(cfg: Config, s: Sys, a: Action, w: WorkerId, t: TaskId)
    requires Structured(s) && Traced(s) && !a.Work? && Enabled(cfg, s, a)
    requires var s' := Next(cfg, s, a); w in s'.workers && t in s'.workers[w].cache && t in s'.tasks
    ensures var s' := Next(cfg, s, a); Lags(s'.workers[w].cache[t], s'.tasks[t])
  {
    hide Structured, Traced, Claimable, FirstClaimable, Blank, Lags;
    var s' := Next(cfg, s, a);
    LagsSelf(s'.tasks[t]);
    if t in s.workers[w].cache {
      CopyLags(s, w, t);
      SameLags(s.workers[w].cache[t], s.tasks[t], s'.tasks[t]);
    }
  }

  lemma CopyLags(s: Sys, w: WorkerId, t: TaskId)
    requires Structured(s) && Traced(s) && w in s.workers && t in s.workers[w].cache
    ensures t in s.tasks && Lags(s.workers[w].cache[t], s.tasks[t])
  {
    hide Exclusive, Shaped, CacheOk, Fair, Lags;
  }

  lemma SameLags(o: WorkOrder, rec: TaskRec, rec': TaskRec)
    requires rec'.row.order == rec.row.order && rec'.attempts == rec.attempts && Lags(o, rec)
    ensures Lags(o, rec')
  {
  }

  lemma TracedStep(cfg: Config, s: Sys, a: Action)
    requires ValidConfig(cfg) && Structured(s) && Storied(s) && Traced(s)
    ensures Traced(Next(cfg, s, a))
  {
    hide Protocol.Apply, Structured, Storied, Lags, Fair, LocalStep;
    var s' := Next(cfg, s, a);
    SameWorkers(cfg, s, a);
    forall w, t | w in s'.workers && t in s'.workers[w].cache && t in s'.tasks ensures Lags(s'.workers[w].cache[t], s'.tasks[t]) {
      if Enabled(cfg, s, a) {
        if a.Work? {
          LagsAfterWork(cfg, s, a, w, t);
        } else {
          LagsAfterRest(cfg, s, a, w, t);
        }
      }
    }
    forall t | t in s'.tasks && Holder(s', t).Some? ensures Fair(s'.tasks[t], Holder(s', t).value) {
      FairTask(cfg, s, a, t);
    }
  }

  lemma {:induction false} TracedAlways(cfg: Config, s0: Sys, acts: seq<Action>)
    requires ValidConfig(cfg) && cfg.isolated && Initial(s0)
    ensures Structured(Run(cfg, s0, acts)) && Storied(Run(cfg, s0, acts)) && Traced(Run(cfg, s0, acts))
  {
    hide Structured, Storied, Next, Lags, Fair;
    StoriedAlways(cfg, s0, acts);
    if acts != [] {
      var before := acts[..|acts| - 1];
      TracedAlways(cfg, s0, before);
      TracedStep(cfg, Run(cfg, s0, before), acts[|acts| - 1]);
    }
  }

  // ---- Exactly when a pick repeats an implementer ----

  /** Whoever completed an implementation and is not waiting for its review is excluded in the stored order. */
  lemma ImplementedExcluded(t: TaskId, v: View, p: Phase, a: AgentId)
    requires Telling(t, v, p) && BeforeLaunch(p) && p.job.snap.role.Implementer? && Implemented(v.rec.attempts, a)
    ensures a in v.rec.row.order.excludes
  {
    hide AllGenuine, CacheOk, PhaseShape, AllContinue, Pending, Dones, Blank;
    var attempts := v.rec.attempts;
    var k :| 0 <= k < |attempts| && attempts[k].role.Implementer? && attempts[k].fate.Done? && attempts[k].agent == a;
    assert HandedBack(attempts, k);
  }

  /**
   Any run of any number of workers: the agent picked for an implementation has already implemented the task if and
   only if the stored order excludes it. Then the copy of the order from which it was picked does not: it lags.
   */
  lemma PickRepeatsExactly(cfg: Config, s0: Sys, acts: seq<Action>, w: WorkerId, metrics: map<AgentId, Metrics>, a: AgentId)
    requires ValidConfig(cfg) && cfg.isolated && Initial(s0) && w in Run(cfg, s0, acts).workers
    requires var s := Run(cfg, s0, acts); var p := s.workers[w].phase;
             && p.Choosing? && p.job.snap.role.Implementer? && p.job.task in s.tasks
             && DecisionAt(cfg, ViewOf(s, w, p.job.task), p, metrics).picked == Some(a)
    ensures var s := Run(cfg, s0, acts); var job := s.workers[w].phase.job; var rec := s.tasks[job.task];
            && (Implemented(rec.attempts, a) <==> a in rec.row.order.excludes)
            && a !in job.order.excludes
  {
    hide Run, Structured, Storied, DecisionAt, Telling, Implemented, Traced;
    TracedAlways(cfg, s0, acts);
    var s := Run(cfg, s0, acts);
    var p := s.workers[w].phase;
    var t := p.job.task;
    HolderIsFair(s, w, t);
    ChosenAgent(cfg, ViewOf(s, w, t), p, metrics);
    if Implemented(s.tasks[t].attempts, a) {
      ImplementedExcluded(t, ViewOf(s, w, t), p, a);
    }
  }

  // ---- Runs whose picks are never excluded in the store ----

  /** If this action picks an implementer for `t`, then one that the stored order does not exclude. */
  ghost predicate FreshPick(cfg: Config, s: Sys, a: Action, t: TaskId) {
    a.Work? && a.choice.Observe? && a.w in s.workers && t in s.tasks ==>
      var p := s.workers[a.w].phase;
      p.Choosing? && p.job.task == t && p.job.snap.role.Implementer? ==>
        var d := DecisionAt(cfg, ViewOf(s, a.w, t), p, a.choice.metrics);
        d.picked.Some? ==> d.picked.value !in s.tasks[t].row.order.excludes
  }

  ghost predicate FreshPicks(cfg: Config, s0: Sys, acts: seq<Action>, t: TaskId) {
    forall n :: 0 <= n < |acts| ==> FreshPick(cfg, Run(cfg, s0, acts[..n]), acts[n], t)
  }

  /** If this action picks an implementer for `t`, it does so from a copy with all the stored excludes. */
  ghost predicate InformedPick(s: Sys, a: Action, t: TaskId) {
    a.Work? && a.choice.Observe? && a.w in s.workers && t in s.tasks ==>
      var p := s.workers[a.w].phase;
      p.Choosing? && p.job.task == t && p.job.snap.role.Implementer? ==>
        forall x :: x in s.tasks[t].row.order.excludes ==> x in p.job.order.excludes
  }

  lemma InformedIsFresh(cfg: Config, s: Sys, a: Action, t: TaskId)
    requires ValidConfig(cfg) && InformedPick(s, a, t)
    ensures FreshPick(cfg, s, a, t)
  {
    hide DecisionAt;
    if a.Work? && a.choice.Observe? && a.w in s.workers && t in s.tasks {
      var p := s.workers[a.w].phase;
      if p.Choosing? && DecisionAt(cfg, ViewOf(s, a.w, t), p, a.choice.metrics).picked.Some? {
        ChosenAgent(cfg, ViewOf(s, a.w, t), p, a.choice.metrics);
      }
    }
  }

  /** No agent that completed an implementation implements again. */
  predicate NoRepeat(attempts: seq<Attempt>) {
    forall j, k :: 0 <= j < k < |attempts| && attempts[j].role.Implementer? && attempts[j].fate.Done?
                   && attempts[k].role.Implementer? && (attempts[k].fate.Done? || attempts[k].fate.InFlight?) ==>
      attempts[j].agent != attempts[k].agent
  }

  predicate AllRegistered(cfg: Config, attempts: seq<Attempt>) {
    forall k :: 0 <= k < |attempts| ==> Registered(cfg, attempts[k].agent)
  }

  /** The chosen agent is registered, and a chosen implementer is not excluded in the stored order. */
  predicate Careful(cfg: Config, rec: TaskRec, p: Phase) {
    Chosen(p) ==> Registered(cfg, p.agent) && (p.job.snap.role.Implementer? ==> p.agent !in rec.row.order.excludes)
  }

  predicate TaskCareful(cfg: Config, rec: TaskRec, hold: Option<Phase>) {
    NoRepeat(rec.attempts) && AllRegistered(cfg, rec.attempts) && (hold.Some? ==> Careful(cfg, rec, hold.value))
  }

  /** The picked agent is one of the registered ones. */
  lemma PickRegistered(cfg: Config, v: View, p: Phase, metrics: map<AgentId, Metrics>)
    requires p.Choosing? && DecisionAt(cfg, v, p, metrics).picked.Some?
    ensures Registered(cfg, DecisionAt(cfg, v, p, metrics).picked.value)
  {
    hide Decide, Listing;
    var e := PickSafe(Request0(p.job, p.budget), Listing(cfg, metrics, v.health), cfg.rank);
    ListingMembers(cfg, metrics, v.health, e);
  }

  lemma CarefulStep(cfg: Config, t: TaskId, v: View, c: Choice)
    requires ValidConfig(cfg) && Holds(v.worker.phase) == Some(t) && PhaseShape(v.rec, v.worker.phase)
    requires Careful(cfg, v.rec, v.worker.phase)
    requires var p := v.worker.phase;
             p.Choosing? && c.Observe? && p.job.snap.role.Implementer? && DecisionAt(cfg, v, p, c.metrics).picked.Some? ==>
               DecisionAt(cfg, v, p, c.metrics).picked.value !in v.rec.row.order.excludes
    ensures Careful(cfg, LocalStep(cfg, v, c).rec, LocalStep(cfg, v, c).worker.phase)
  {
    hide LocalStep, PhaseShape, Registered, DecisionAt, ValidConfig;
    var p, v' := v.worker.phase, LocalStep(cfg, v, c);
    JobStep(cfg, t, v, c);
    OrderStep(cfg, v, c, t);
    if p.Choosing? && c.Observe? && DecisionAt(cfg, v, p, c.metrics).picked.Some? {
      PickRegistered(cfg, v, p, c.metrics);
    }
  }

  /** The attempts after a step of the holder repeat no implementer. */
  lemma NoRepeatStep(cfg: Config, t: TaskId, v: View, v': View)
    requires HistoryMoves(v, v') && Telling(t, v, v.worker.phase) && Careful(cfg, v.rec, v.worker.phase)
    requires NoRepeat(v.rec.attempts) && AllRegistered(cfg, v.rec.attempts)
    requires AttemptsOk(v.rec.attempts, Open(v.worker.phase))
    ensures NoRepeat(v'.rec.attempts) && AllRegistered(cfg, v'.rec.attempts)
  {
    hide Telling, StageMoves, RunMoves, Registered;
    var p := v.worker.phase;
    var attempts, attempts' := v.rec.attempts, v'.rec.attempts;
    if p.ChargeRead? {
      if p.job.snap.role.Implementer? && Implemented(attempts, p.agent) {
        ImplementedExcluded(t, v, p, p.agent);
      }
      assert forall j :: 0 <= j < |attempts| && attempts[j].role.Implementer? && attempts[j].fate.Done? && attempts[j].agent == p.agent ==>
        Implemented(attempts, p.agent);
    } else if Open(p) {
      var n := |attempts| - 1;
      assert |Front(attempts')| == n;
      assert forall k :: 0 <= k < n ==> attempts'[k] == Front(attempts')[k] == Front(attempts)[k] == attempts[k];
    }
  }

  lemma CarefulStepped(cfg: Config, s: Sys, a: Action, t: TaskId)
    requires ValidConfig(cfg) && Structured(s) && Storied(s) && a.Work? && a.w in s.workers && t in s.tasks
    requires Holds(s.workers[a.w].phase) == Some(t) && TaskCareful(cfg, s.tasks[t], Some(s.workers[a.w].phase))
    requires FreshPick(cfg, s, a, t)
    ensures var v' := LocalStep(cfg, ViewOf(s, a.w, t), a.choice); TaskCareful(cfg, v'.rec, Held(v'.worker.phase))
  {
    hide LocalStep, Structured, Storied, Telling, HistoryMoves, PhaseShape, NoRepeat, AllRegistered, AttemptsOk, Careful, DecisionAt;
    var v := ViewOf(s, a.w, t);
    HolderTells(s, a.w, t);
    HolderOpen(s, a.w, t);
    TellingShape(t, v, v.worker.phase);
    HistoryStep(cfg, v, a.choice);
    NoRepeatStep(cfg, t, v, LocalStep(cfg, v, a.choice));
    CarefulStep(cfg, t, v, a.choice);
  }

  lemma HolderOpen(s: Sys, w: WorkerId, t: TaskId)
    requires Structured(s) && w in s.workers && t in s.tasks && Holds(s.workers[w].phase) == Some(t)
    ensures AttemptsOk(s.tasks[t].attempts, Open(s.workers[w].phase)) && Holder(s, t) == Some(s.workers[w].phase)
  {
    hide CacheOk, PhaseShape, Blank, BudgetMatches;
    HolderShape(s, w, t);
  }

  lemma CarefulFresh(cfg: Config, o: WorkOrder, at: int, log: seq<Event>)
    ensures TaskCareful(cfg, FreshRec(o, at, log), None)
  {
  }

  lemma CarefulTask(cfg: Config, s: Sys, a: Action, t: TaskId)
    requires ValidConfig(cfg) && Structured(s) && Storied(s) && t in Next(cfg, s, a).tasks && FreshPick(cfg, s, a, t)
    requires t in s.tasks ==> TaskCareful(cfg, s.tasks[t], Holder(s, t))
    ensures var s' := Next(cfg, s, a); TaskCareful(cfg, s'.tasks[t], Holder(s', t))
  {
    hide LocalStep, CacheOk, Blank, TaskShape, Next, Storied, NoRepeat, AllRegistered, FreshPick, Registered;
    Explained(cfg, s, a, t);
    match Cause(cfg, s, a, t)
    case Unmoved =>
    case Entered(o, at) => CarefulFresh(cfg, o, at, [Enqueued(t)]);
    case Taken(w, now, lease, snap) =>
    case Stepped(w, c) =>
      HolderOpen(s, w, t);
      CarefulStepped(cfg, s, a, t);
    case Reported(w) =>
  }

  lemma {:induction false} CarefulAlways(cfg: Config, s0: Sys, acts: seq<Action>, t: TaskId)
    requires ValidConfig(cfg) && cfg.isolated && Initial(s0) && FreshPicks(cfg, s0, acts, t) && t in Run(cfg, s0, acts).tasks
    ensures var s := Run(cfg, s0, acts); TaskCareful(cfg, s.tasks[t], Holder(s, t))
  {
    hide Structured, Storied, Next, TaskCareful, FreshPick;
    if acts != [] {
      var n := |acts| - 1;
      var before := acts[..n];
      var s := Run(cfg, s0, before);
      StoriedAlways(cfg, s0, before);
      assert forall k :: 0 <= k < n ==> before[..k] == acts[..k];
      if t in s.tasks {
        CarefulAlways(cfg, s0, before, t);
      }
      assert FreshPick(cfg, s, acts[n], t);
      CarefulTask(cfg, s, acts[n], t);
    }
  }

  // ---- At most one completed implementation per agent ----

  /** The agents of the completed implementer attempts, in order. */
  function Implementers(attempts: seq<Attempt>): seq<AgentId> {
    if attempts == [] then []
    else Implementers(attempts[..|attempts| - 1])
         + if Last(attempts).role.Implementer? && Last(attempts).fate.Done? then [Last(attempts).agent] else []
  }

  lemma {:induction false} ImplementersDistinct(cfg: Config, attempts: seq<Attempt>)
    requires NoRepeat(attempts) && AllRegistered(cfg, attempts)
    ensures forall j, k :: 0 <= j < k < |Implementers(attempts)| ==> Implementers(attempts)[j] != Implementers(attempts)[k]
    ensures forall a :: a in Implementers(attempts) ==> Registered(cfg, a)
    ensures forall a :: a in Implementers(attempts) ==>
              exists k :: 0 <= k < |attempts| && attempts[k].role.Implementer? && attempts[k].fate.Done? && attempts[k].agent == a
  {
    hide Registered;
    if attempts != [] {
      var front := attempts[..|attempts| - 1];
      ImplementersDistinct(cfg, front);
      forall a | a in Implementers(front) && Last(attempts).role.Implementer? && Last(attempts).fate.Done?
        ensures a != Last(attempts).agent
      {
        var k :| 0 <= k < |front| && front[k].role.Implementer? && front[k].fate.Done? && front[k].agent == a;
        assert attempts[k] == front[k];
      }
      assert forall j :: 0 <= j < |Implementers(front)| ==> Implementers(front)[j] in Implementers(front);
      forall a | a in Implementers(attempts)
        ensures exists k :: 0 <= k < |attempts| && attempts[k].role.Implementer? && attempts[k].fate.Done? && attempts[k].agent == a
      {
        if a in Implementers(front) {
          var k :| 0 <= k < |front| && front[k].role.Implementer? && front[k].fate.Done? && front[k].agent == a;
          assert attempts[k] == front[k];
        }
      }
    }
  }

  /** Distinct values drawn from a finite set are no more than the set. */
  lemma {:induction false} DistinctFit<T>(xs: seq<T>, all: set<T>)
    requires forall j, k :: 0 <= j < k < |xs| ==> xs[j] != xs[k]
    requires forall x :: x in xs ==> x in all
    ensures |xs| <= |all|
  {
    if xs != [] {
      var n := |xs| - 1;
      assert xs[n] in xs;
      DistinctFit(xs[..n], all - {xs[n]});
    }
  }

  lemma {:induction false} IdsOfProfiles(profiles: seq<Profile>) returns (ids: set<AgentId>)
    ensures forall p :: p in profiles ==> p.id in ids
    ensures |ids| <= |profiles|
  {
    if profiles == [] {
      ids := {};
    } else {
      ids := IdsOfProfiles(profiles[1..]);
      ids := ids + {profiles[0].id};
    }
  }

  /**
   Any number of workers: if no implementer of the task was picked that the stored order excluded at that moment, the
   agents of its completed implementer attempts are pairwise distinct and at most as many as registered agents.
   */
  lemma FreshPicksNeverRepeat(cfg: Config, s0: Sys, acts: seq<Action>, t: TaskId)
    requires ValidConfig(cfg) && cfg.isolated && Initial(s0) && FreshPicks(cfg, s0, acts, t) && t in Run(cfg, s0, acts).tasks
    ensures var agents := Implementers(Run(cfg, s0, acts).tasks[t].attempts);
            && (forall j, k :: 0 <= j < k < |agents| ==> agents[j] != agents[k])
            && |agents| <= |cfg.profiles|
  {
    hide Run, FreshPicks, Careful;
    CarefulAlways(cfg, s0, acts, t);
    var attempts := Run(cfg, s0, acts).tasks[t].attempts;
    ImplementersDistinct(cfg, attempts);
    var ids := IdsOfProfiles(cfg.profiles);
    DistinctFit(Implementers(attempts), ids);
  }

  /** The same when every implementer of the task was picked from a copy with all the excludes stored at that moment. */
  lemma InformedPicksNeverRepeat(cfg: Config, s0: Sys, acts: seq<Action>, t: TaskId)
    requires ValidConfig(cfg) && cfg.isolated && Initial(s0) && t in Run(cfg, s0, acts).tasks
    requires forall n :: 0 <= n < |acts| ==> InformedPick(Run(cfg, s0, acts[..n]), acts[n], t)
    ensures FreshPicks(cfg, s0, acts, t)
    ensures var agents := Implementers(Run(cfg, s0, acts).tasks[t].attempts);
            && (forall j, k :: 0 <= j < k < |agents| ==> agents[j] != agents[k])
            && |agents| <= |cfg.profiles|
  {
    hide Run, FreshPick, InformedPick;
    forall n | 0 <= n < |acts| ensures FreshPick(cfg, Run(cfg, s0, acts[..n]), acts[n], t) {
      InformedIsFresh(cfg, Run(cfg, s0, acts[..n]), acts[n], t);
    }
    FreshPicksNeverRepeat(cfg, s0, acts, t);
  }
}
