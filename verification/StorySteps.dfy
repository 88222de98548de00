/** Every step of a holder keeps the story of its task. */
module StorySteps {
  import opened Types
  import opened Js
  import opened Budgets
  import opened SchedulerLaws
  import opened Runs
  import opened Handoffs
  import opened Protocol
  import opened Shape
  import opened Story

  /** The holder of `t` is at `p`; its task is well shaped and its story told. */
  predicate Telling(t: TaskId, v: View, p: Phase) {
    && p == v.worker.phase && Holds(p) == Some(t)
    && PhaseShape(v.rec, p)
    && TaskStory(t, v.rec, Some(p))
    && (t in v.worker.cache ==> CacheOk(v.worker.cache[t], v.rec.row.order))
  }

  predicate Told(t: TaskId, v: View) {
    TaskStory(t, v.rec, Held(v.worker.phase))
  }

  // ---- Before the launch ----

  lemma StoryRead(t: TaskId, v: View, p: Phase, c: Choice)
    requires Telling(t, v, p) && (p.Begin? || p.Reading?)
    ensures p.Begin? ==> Told(t, OnBegin(v, p, c))
    ensures p.Reading? ==> Told(t, OnReading(v, p))
  {
    hide CacheOk, AllGenuine, AllContinue, HandedIn, Pending, Review, NextRole, LastDone, Dones;
  }

  lemma StoryBudget(t: TaskId, v: View, p: Phase)
    requires Telling(t, v, p) && (p.Budgeting? || p.Inserting?)
    ensures p.Budgeting? ==> Told(t, v.To(if v.rec.budget.Some? then Syncing(p.job) else Inserting(p.job)))
    ensures p.Inserting? ==> Told(t, OnInserting(v, p))
  {
    hide CacheOk, AllGenuine, AllContinue, Settled, Review, SameColumns;
  }

  lemma StoryConsult(t: TaskId, v: View, p: Phase)
    requires Telling(t, v, p) && (p.Syncing? || p.Consulting? || p.Charging?)
    ensures p.Syncing? ==> Told(t, OnSyncing(v, p))
    ensures p.Consulting? ==> Told(t, OnConsulting(v, p))
    ensures p.Charging? ==> Told(t, OnCharging(v, p))
  {
    hide CacheOk, AllGenuine, AllContinue, Settled, Review, SameColumns, SyncEmitted;
  }

  lemma StoryCleared(t: TaskId, v: View, p: Phase, c: Choice)
    requires Telling(t, v, p) && p.Cleared?
    ensures Told(t, OnCleared(v, p, c))
  {
    hide CacheOk, AllGenuine, AllContinue, HandedIn, Pending, Review, NextRole, LastDone, Dones;
  }

  lemma {:induction false} ListingMembers(cfg: Config, metrics: map<AgentId, Metrics>, health: map<AgentId, Health>, e: AgentEntry)
    requires e in Listing(cfg, metrics, health)
    ensures e.profile in cfg.profiles && e.health == HealthOf(health, e.profile.id)
  {
    MapMembers((p: Profile) => ListEntry(p, metrics, health), cfg.profiles);
  }

  /** The picked agent is visible, healthy enough, and not the one whose work it would review. */
  lemma ChosenAgent(cfg: Config, v: View, p: Phase, metrics: map<AgentId, Metrics>)
    requires ValidConfig(cfg) && p.Choosing? && DecisionAt(cfg, v, p, metrics).picked.Some?
    ensures var a := DecisionAt(cfg, v, p, metrics).picked.value;
            && !Blank(a) && !HealthOf(v.health, a).Depleted? && a !in p.job.order.excludes
            && (p.job.snap.role.Reviewer? && p.job.context.Some? && p.job.context.value.agentId != "" ==>
                  a != p.job.context.value.agentId)
  {
    var e := PickSafe(Request0(p.job, p.budget), Listing(cfg, metrics, v.health), cfg.rank);
    ListingMembers(cfg, metrics, v.health, e);
  }

  lemma ReviewAgentVisible(t: TaskId, core: WorkOrder, attempts: seq<Attempt>)
    requires AllGenuine(t, core, attempts) && Review(attempts).Some?
    ensures Review(attempts).value.agentId != ""
  {
    hide Evidence, RowAgrees;
    assert Genuine(t, core, attempts, LastDone(attempts));
  }

  lemma StoryChoosing(cfg: Config, t: TaskId, v: View, p: Phase, c: Choice)
    requires ValidConfig(cfg) && Telling(t, v, p) && p.Choosing?
    ensures Told(t, OnChoosing(cfg, v, p, c))
  {
    hide CacheOk, DecisionAt, AllGenuine, AllContinue, HandedIn, Pending, Review, LastDone, Dones, Blank;
    if c.Observe? && DecisionAt(cfg, v, p, c.metrics).picked.Some? {
      ChosenAgent(cfg, v, p, c.metrics);
      if Review(v.rec.attempts).Some? {
        ReviewAgentVisible(t, v.rec.row.order.Core(), v.rec.attempts);
      }
    }
  }

  lemma StoryChargeRead(t: TaskId, v: View, p: Phase)
    requires Telling(t, v, p) && p.ChargeRead?
    ensures Told(t, OnChargeRead(v, p))
  {
    hide CacheOk, PreLaunched, AllGenuine, AllContinue, HandedIn, Pending, Review, LastDone, Dones, Blank;
    var front, a := v.rec.attempts, Attempt(p.job.snap.role, p.agent, NoRun, InFlight);
    var all := front + [a];
    assert Front(all) == front && all[..|front|] == front && all[|front|] == a;
    GenuineAppend(t, v.rec.row.order.Core(), front, a);
  }

  // ---- The launch ----

  lemma StoryCharged(t: TaskId, v: View, p: Phase)
    requires Telling(t, v, p) && (p.Charged? || p.Billed?)
    ensures p.Charged? ==> Told(t, OnCharged(v, p))
    ensures p.Billed? ==> Told(t, OnBilled(v, p))
  {
    hide CacheOk, PickAxis, AllGenuine, AllContinue, Settled, SameColumns, JobOk;
  }

  /** The record after the launch in flight ended without completing. */
  lemma StoryUndone(t: TaskId, v: View, p: Phase, run: RunRow, fate: Fate)
    requires Telling(t, v, p) && Open(p) && (fate.WasAborted? || fate.DidThrow?)
    requires RowAgrees(Last(v.rec.attempts).(run := run, fate := fate))
    ensures var rec := v.Resolve(run, fate).rec; var core := rec.row.order.Core();
            && AllGenuine(t, core, rec.attempts)
            && Settled(t, p.job.snap, rec.attempts)
            && (fate.WasAborted? ==> AllContinue(core, rec.attempts))
  {
    hide CacheOk, Pending, Review, LastDone, Dones, Blank, HandedIn;
    var core, attempts := v.rec.row.order.Core(), v.rec.attempts;
    var a := Last(attempts).(run := run, fate := fate);
    GenuineResolve(t, core, attempts, a);
    UndoneAppend(t, Front(attempts), a, p.job.snap.order.excludes);
    assert v.Resolve(run, fate).rec.attempts == Front(attempts) + [a];
  }

  lemma StoryFaulted(t: TaskId, v: View, p: Phase, signalled: bool)
    requires Telling(t, v, p) && p.Launching?
    ensures Told(t, OnLaunching(v, p, Fault(signalled)))
  {
    hide CacheOk, AllGenuine, AllContinue, Settled, Review, CreationEvents, Dones, HandedIn, Pending;
    StoryUndone(t, v, p, NoRun, if signalled then WasAborted else DidThrow);
    PlanAfterUndone(t, p, v.Resolve(NoRun, DidThrow).rec);
  }

  lemma StoryLaunching(t: TaskId, v: View, p: Phase, c: Choice)
    requires Telling(t, v, p) && p.Launching?
    ensures Told(t, OnLaunching(v, p, c))
  {
    hide CacheOk, AllGenuine, AllContinue, Settled, Review, CreationEvents, Dones, HandedIn, Pending;
    match c
    case Abort => StoryUndone(t, v, p, NoRun, WasAborted);
    case Fault(signalled) => StoryFaulted(t, v, p, signalled);
    case Launch(r) => StoryRestarted(t, v, p, RunRow(r, Preparing));
    case _ =>
  }

  /** A handler that fails its task without counting the attempt leaves the count right. */
  lemma PlanAfterUndone(t: TaskId, p: Phase, rec: TaskRec)
    requires Open(p)
    ensures Settled(t, p.job.snap, rec.attempts) ==> Fail(p.job, p.job.snap.attempts, None).plan.attempts == Dones(rec.attempts)
  {
    hide Pending, Review, Dones, HandedIn;
  }

  /** Giving the launch in flight its run row changes neither the past nor what is due. */
  lemma StoryRestarted(t: TaskId, v: View, p: Phase, run: RunRow)
    requires Telling(t, v, p) && Open(p) && run.RunRow? && (run.status.Preparing? || run.status.Running?)
    ensures var rec := v.Resolve(run, InFlight).rec;
            && AllGenuine(t, rec.row.order.Core(), rec.attempts)
            && rec.attempts != [] && Front(rec.attempts) == Front(v.rec.attempts)
  {
    hide CacheOk, Settled, AllContinue, Review, Blank;
    var core, attempts := v.rec.row.order.Core(), v.rec.attempts;
    var a := Last(attempts).(run := run, fate := InFlight);
    GenuineResolve(t, core, attempts, a);
    assert v.Resolve(run, InFlight).rec.attempts == Front(attempts) + [a];
  }

  /** Completing the launch in flight: the outcome enters the history with its evidence. */
  lemma StoryCompleted(t: TaskId, v: View, p: Phase, run: RunId, o: Outcome, env: Option<Env>, status: RunStatus)
    requires Telling(t, v, p) && Open(p)
    requires var a := Attempt(p.job.snap.role, p.agent, RunRow(run, status), Done(o, env, p.job.context));
             Evidence(t, v.rec.row.order.Core(), a) && RowAgrees(a)
    requires Last(v.rec.attempts).role == p.job.snap.role && Last(v.rec.attempts).agent == p.agent
    ensures var rec := v.Resolve(RunRow(run, status), Done(o, env, p.job.context)).rec;
            && AllGenuine(t, rec.row.order.Core(), rec.attempts)
            && rec.attempts != [] && Front(rec.attempts) == Front(v.rec.attempts)
  {
    hide CacheOk, AllContinue, Blank, Evidence, RowAgrees, HandedIn, Pending, Dones, LastDone;
    var core, attempts := v.rec.row.order.Core(), v.rec.attempts;
    var a := Last(attempts).(run := RunRow(run, status), fate := Done(o, env, p.job.context));
    GenuineResolve(t, core, attempts, a);
    assert v.Resolve(RunRow(run, status), Done(o, env, p.job.context)).rec.attempts == Front(attempts) + [a];
  }

  lemma StoryStarting(t: TaskId, v: View, p: Phase, c: Choice)
    requires Telling(t, v, p) && p.Starting?
    ensures Told(t, OnStarting(v, p, c))
  {
    hide CacheOk, AllGenuine, AllContinue, Settled, Review, StartEvents;
    if c.Create? {
      if c.ok {
        StoryRestarted(t, v, p, RunRow(p.run, Running));
      } else {
        var f := CreationFailure(Context(t, p.run, p.agent), p.job.snap.role);
        StoryCompleted(t, v, p, p.run, f.result.outcome, None, f.status);
      }
    }
  }

  /** What one run returns carries its evidence, whatever order copy it was given. */
  lemma RunEvidence(t: TaskId, stored: WorkOrder, order: WorkOrder, role: Role, a: AgentId, run: RunId, env: Env, reviewed: Option<ReviewContext>)
    requires CacheOk(order, stored) && env.ForRole(role)
    ensures var f := Execute(Context(t, run, a), order, env);
            f.result.Returned? ==>
              var x := Attempt(role, a, RunRow(run, f.status), Done(f.result.outcome, Some(env), reviewed));
              Evidence(t, stored.Core(), x) && RowAgrees(x)
    ensures Execute(Context(t, run, a), order, env).result.Aborted? ==>
              Execute(Context(t, run, a), order, env).status.RunCancelled?
    ensures Execute(Context(t, run, a), order, env).result.Threw? ==>
              Execute(Context(t, run, a), order, env).status.Running?
  {
    CacheOkCaps(order, stored);
    OutcomeFitsRole(Context(t, run, a), order, env, role);
    if env.ForImplementer? {
      SuccessIsProven(Context(t, run, a), order, env.implementer);
    } else {
      var r := RunReviewer(Context(t, run, a), env.reviewer).result;
      if r.Returned? && r.outcome.ReviewerReturned? {
        VerdictIsRead(Context(t, run, a), env.reviewer, r.outcome.verdict);
      }
    }
  }

  lemma StoryExecuting(t: TaskId, v: View, p: Phase, c: Choice)
    requires Telling(t, v, p) && p.Executing?
    ensures Told(t, OnExecuting(v, p, c))
  {
    hide CacheOk, AllGenuine, AllContinue, Settled, Review, Execute, Dones, HandedIn, Pending;
    if c.Happen? && c.env.ForRole(p.job.snap.role) {
      RunEvidence(t, v.rec.row.order, p.job.order, p.job.snap.role, p.agent, p.run, c.env, p.job.context);
      var f := Execute(Context(t, p.run, p.agent), p.job.order, c.env);
      match f.result
      case Aborted => StoryUndone(t, v, p, RunRow(p.run, f.status), WasAborted);
      case Threw =>
        StoryUndone(t, v, p, RunRow(p.run, f.status), DidThrow);
        PlanAfterUndone(t, p, v.Resolve(RunRow(p.run, f.status), DidThrow).rec);
      case Returned(o) => StoryCompleted(t, v, p, p.run, o, Some(c.env), f.status);
    }
  }

  // ---- After the run ----

  lemma StoryFinished(t: TaskId, v: View, p: Phase)
    requires Telling(t, v, p) && p.Finished?
    ensures Told(t, OnFinished(v, p))
  {
    hide CacheOk, AllGenuine, AllContinue, Landed, Review, Dones, HandedIn;
    if p.job.snap.role.Reviewer? {
      ReviewerHasNoHandoff(t, p.job.snap, Front(v.rec.attempts));
    }
  }

  /** While a review is due no packet is pending. */
  lemma ReviewerHasNoHandoff(t: TaskId, row: Row, attempts: seq<Attempt>)
    requires Settled(t, row, attempts) && row.role.Reviewer?
    ensures row.handoff.None?
  {
    hide HandedIn, Dones;
  }

  lemma StoryBilling(cfg: Config, t: TaskId, v: View, p: Phase, c: Choice)
    requires Telling(t, v, p) && (p.Billing? || p.BillRead? || p.BillWrite?)
    ensures p.Billing? ==> Told(t, OnBilling(v, p))
    ensures p.BillRead? ==> Told(t, OnBillRead(v, p))
    ensures p.BillWrite? ==> Told(t, OnBillWrite(cfg, v, p, c))
  {
    hide CacheOk, AllGenuine, AllContinue, Settled, SameColumns, JobOk, PostRan, CostOf, Dones, HandedIn, Pending,
         Review, LastDone;
  }

  lemma StoryRecording(t: TaskId, v: View, p: Phase)
    requires Telling(t, v, p) && p.Recording?
    ensures Told(t, OnRecording(v, p))
  {
    hide CacheOk, AllGenuine, AllContinue, Settled, SameColumns, JobOk;
  }

  // ---- Settling the outcome ----

  /** Which agent is still to be excluded once the attempt `a` has completed. */
  predicate HandedFrom(front: seq<Attempt>, a: Attempt, from: AgentId) {
    if a.role.Implementer? then Review(front).None? && from == a.agent
    else Review(front).Some? && from == Review(front).value.agentId
  }

  lemma HandedAfter(front: seq<Attempt>, a: Attempt, excludes: seq<AgentId>, from: AgentId)
    requires HandedIn(front, excludes) && a.fate.Done? && HandedFrom(front, a, from)
    ensures HandedIn(front + [a], excludes + [from])
    ensures Succeeded(a) && a.role.Implementer? ==> HandedIn(front + [a], excludes)
  {
    LastDoneAppend(front, a);
    var all := front + [a];
    forall k | 0 <= k < |all| && HandedBack(all, k)
      ensures all[k].agent in excludes + [from]
      ensures Succeeded(a) && a.role.Implementer? ==> all[k].agent in excludes
    {
      if k < |front| {
        assert all[k] == front[k];
        assert HandedBack(front, k) || (k == LastDone(front) && Succeeded(front[k]));
      }
    }
  }

  /** What the last attempt of a finished run contributes, spelled out. */
  lemma Landing(t: TaskId, v: View, p: Phase)
    requires Telling(t, v, p) && p.Settling?
    ensures var rec := v.rec; var front, a := Front(rec.attempts), Last(rec.attempts); var core := rec.row.order.Core();
            && rec.attempts == front + [a] && LastDone(rec.attempts) == |front| && rec.attempts[|front|] == a
            && Dones(rec.attempts) == p.job.snap.attempts + 1
            && a.fate.Done? && a.fate.outcome == p.outcome && a.agent == p.agent && a.role == p.job.snap.role
            && a.fate.reviewed == Review(front) && p.job.snap.role == NextRole(front)
            && (a.role.Reviewer? ==> p.job.context == Review(front) && Review(front).Some?)
            && p.outcome.ForRole(a.role)
            && HandedIn(front, rec.row.order.excludes) && AllContinue(core, front)
            && p.job.order.reviewEnabled == core.reviewEnabled
  {
    hide CacheOk, HandedIn, AllContinue, Pending, Blank, Evidence, RowAgrees;
    var rec := v.rec;
    GenuineFront(t, rec.row.order.Core(), rec.attempts);
    assert Genuine(t, rec.row.order.Core(), rec.attempts, |rec.attempts| - 1);
    LastDoneAppend(Front(rec.attempts), Last(rec.attempts));
    CacheOkCaps(p.job.order, rec.row.order);
  }

  /** A task under review is one whose order asks for review. */
  lemma ReviewMeansEnabled(core: WorkOrder, attempts: seq<Attempt>)
    requires AllContinue(core, attempts) && Review(attempts).Some?
    ensures core.reviewEnabled
  {
    assert Continues(core, attempts[LastDone(attempts)]);
  }

  lemma ContinueAppend(core: WorkOrder, front: seq<Attempt>, a: Attempt)
    requires AllContinue(core, front) && Continues(core, a)
    ensures AllContinue(core, front + [a])
  {
  }

  lemma SettleSuccess(t: TaskId, v: View, p: Phase)
    requires Telling(t, v, p) && p.Settling? && p.outcome.ImplementerSucceeded?
    ensures PhaseStory(t, v.rec, Settle(p.job, p.agent, p.outcome, p.after))
  {
    hide CacheOk, AllGenuine, AllContinue, HandedIn;
    Landing(t, v, p);
    var front, a := Front(v.rec.attempts), Last(v.rec.attempts);
    HandedAfter(front, a, v.rec.row.order.excludes, a.agent);
    if p.job.order.reviewEnabled {
      ContinueAppend(v.rec.row.order.Core(), front, a);
    }
  }

  lemma PacketExcludesFrom(prior: seq<AgentId>, from: AgentId)
    ensures from in PacketExcludes(prior, from)
  {
  }

  /** A packet built while settling excludes what the worker's copy excludes, and the agent it hands over from. */
  lemma PacketFromCopy(job: Job, a: AgentId, o: Outcome, after: Budget)
    requires Settle(job, a, o, after).Packaging?
    ensures var packet := Settle(job, a, o, after).packet;
            packet.excludes == PacketExcludes(job.order.excludes, packet.fromAgent)
  {
    hide PacketExcludes;
  }

  lemma SettleFailure(t: TaskId, v: View, p: Phase)
    requires Telling(t, v, p) && p.Settling? && p.outcome.ImplementerFailed?
    ensures PhaseStory(t, v.rec, Settle(p.job, p.agent, p.outcome, p.after))
  {
    hide CacheOk, AllGenuine, AllContinue, HandedIn, PacketExcludes;
    Landing(t, v, p);
    var front, a := Front(v.rec.attempts), Last(v.rec.attempts);
    HandedAfter(front, a, v.rec.row.order.excludes, a.agent);
    PacketExcludesFrom(p.job.order.excludes, a.agent);
    if HandoffReasonFor(p.outcome.reason).Some? {
      ContinueAppend(v.rec.row.order.Core(), front, a);
    }
  }

  lemma SettleReview(t: TaskId, v: View, p: Phase)
    requires Telling(t, v, p) && p.Settling? && (p.outcome.ReviewerReturned? || p.outcome.ReviewerFailed?)
    ensures PhaseStory(t, v.rec, Settle(p.job, p.agent, p.outcome, p.after))
  {
    hide CacheOk, AllGenuine, AllContinue, HandedIn, PacketExcludes;
    Landing(t, v, p);
    var front, a := Front(v.rec.attempts), Last(v.rec.attempts);
    ReviewMeansEnabled(v.rec.row.order.Core(), front);
    HandedAfter(front, a, v.rec.row.order.excludes, p.job.context.value.agentId);
    PacketExcludesFrom(p.job.order.excludes, p.job.context.value.agentId);
    if Continues(v.rec.row.order.Core(), a) {
      ContinueAppend(v.rec.row.order.Core(), front, a);
    }
  }

  lemma StorySettling(t: TaskId, v: View, p: Phase)
    requires Telling(t, v, p) && p.Settling?
    ensures Told(t, v.To(Settle(p.job, p.agent, p.outcome, p.after)))
  {
    hide PhaseStory, AllGenuine;
    SettleHolds(t, v, p);
    if p.outcome.ImplementerSucceeded? {
      SettleSuccess(t, v, p);
    } else if p.outcome.ImplementerFailed? {
      SettleFailure(t, v, p);
    } else {
      SettleReview(t, v, p);
    }
  }

  lemma SettleHolds(t: TaskId, v: View, p: Phase)
    requires Telling(t, v, p) && p.Settling?
    ensures Holds(Settle(p.job, p.agent, p.outcome, p.after)) == Some(t)
  {
    hide CacheOk, AllGenuine, AllContinue, HandedIn, PacketExcludes, Settled, SameColumns;
  }

  // ---- Writing the result ----

  lemma StoryContexting(t: TaskId, v: View, p: Phase)
    requires Telling(t, v, p) && p.Contexting?
    ensures Told(t, OnContexting(v, p))
  {
    hide CacheOk, AllGenuine, AllContinue, HandedIn, Dones, LastDone;
  }

  lemma StoryPackaging(t: TaskId, v: View, p: Phase)
    requires Telling(t, v, p) && p.Packaging?
    ensures Told(t, OnPackaging(v, p))
  {
    hide CacheOk, AllGenuine, AllContinue, HandedIn, Dones, LastDone, Review, Pending;
  }

  lemma StoryExcluding(t: TaskId, v: View, p: Phase)
    requires Telling(t, v, p) && p.Excluding?
    ensures Told(t, OnExcluding(v, p))
  {
    hide CacheOk, AllGenuine, AllContinue, Merged, Dones, LastDone, Review, Pending, Earned;
    var stored, added := v.rec.row.order.excludes, p.packet.excludes;
    assert forall a :: a in stored + [p.packet.fromAgent] ==> a in Merged(stored, added) by {
      MergedMembers(stored, added);
    }
    HandedMonotone(v.rec.attempts, stored + [p.packet.fromAgent], Merged(stored, added));
  }

  lemma MergedMembers(stored: seq<AgentId>, added: seq<AgentId>)
    ensures forall a :: a in Merged(stored, added) <==> a in stored || a in added
  {
    DedupeMembers(stored + added);
  }

  lemma HandedMonotone(attempts: seq<Attempt>, less: seq<AgentId>, more: seq<AgentId>)
    requires HandedIn(attempts, less) && forall a :: a in less ==> a in more
    ensures HandedIn(attempts, more)
  {
  }

  lemma StoryAddressing(t: TaskId, v: View, p: Phase)
    requires Telling(t, v, p) && p.Addressing?
    ensures Told(t, OnAddressing(v, p))
  {
    hide CacheOk, AllGenuine, AllContinue, HandedIn, Dones, LastDone, Review, Pending;
  }

  lemma StoryReleasing(t: TaskId, v: View, p: Phase)
    requires Telling(t, v, p) && p.Releasing?
    ensures Told(t, OnReleasing(v, p))
  {
    hide CacheOk, AllGenuine, AllContinue, HandedIn, Dones, LastDone, Review, Pending, Earned;
  }

  lemma StoryFailing(t: TaskId, v: View, p: Phase)
    requires Telling(t, v, p) && p.Failing?
    ensures Told(t, OnFailing(v, p))
  {
    hide CacheOk, AllGenuine, AllContinue, HandedIn, Dones, LastDone, Review, Pending, Earned;
  }

  /** Every step of the holder keeps the story. */
  lemma StoryStep(cfg: Config, t: TaskId, v: View, c: Choice)
    requires ValidConfig(cfg) && Telling(t, v, v.worker.phase)
    ensures Told(t, LocalStep(cfg, v, c))
  {
    hide Telling, Told, OnBegin, OnReading, OnInserting, OnSyncing, OnConsulting, OnChoosing, OnCleared, OnCharging,
         OnChargeRead, OnCharged, OnLaunching, OnStarting, OnExecuting, OnFinished, OnBilling, OnBillRead,
         OnBillWrite, OnBilled, OnRecording, Settle, OnContexting, OnPackaging, OnExcluding, OnAddressing,
         OnReleasing, OnFailing;
    var p := v.worker.phase;
    assert Holds(p) == Some(t) by {
      TellingHolds(t, v, p);
    }
    match p
    case Begin(_, _) | Reading(_, _, _) => StoryRead(t, v, p, c);
    case Budgeting(_) | Inserting(_) => StoryBudget(t, v, p);
    case Syncing(_) | Consulting(_) | Charging(_, _, _) => StoryConsult(t, v, p);
    case Choosing(_, _) => StoryChoosing(cfg, t, v, p, c);
    case Cleared(_, _) => StoryCleared(t, v, p, c);
    case ChargeRead(_, _, _, _) => StoryChargeRead(t, v, p);
    case Charged(_, _, _, _) | Billed(_, _, _, _, _) => StoryCharged(t, v, p);
    case Launching(_, _) => StoryLaunching(t, v, p, c);
    case Starting(_, _, _) => StoryStarting(t, v, p, c);
    case Executing(_, _, _) => StoryExecuting(t, v, p, c);
    case Finished(_, _, _) => StoryFinished(t, v, p);
    case Billing(_, _, _) | BillRead(_, _, _, _) | BillWrite(_, _, _, _, _) => StoryBilling(cfg, t, v, p, c);
    case Recording(_, _, _, _) => StoryRecording(t, v, p);
    case Settling(_, _, _, _) => StorySettling(t, v, p);
    case Contexting(_, _, _) => StoryContexting(t, v, p);
    case Packaging(_, _, _, _, _) => StoryPackaging(t, v, p);
    case Excluding(_, _, _) => StoryExcluding(t, v, p);
    case Addressing(_, _, _) => StoryAddressing(t, v, p);
    case Releasing(_, _) => StoryReleasing(t, v, p);
    case Failing(_, _) => StoryFailing(t, v, p);
  }

  lemma TellingHolds(t: TaskId, v: View, p: Phase)
    requires Telling(t, v, p)
    ensures Holds(p) == Some(t)
  {
    hide TaskStory, PhaseShape, CacheOk;
  }
}
