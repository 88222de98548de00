/**
 Safety of every run of N workers: mutual exclusion and budgets for any interleaving whatever, and, when the
 claim is isolated, earned acceptance, handoff delivery and the frame of an aborted handle.
 */
module Safety {
  import opened Types
  import opened Js
  import opened Budgets
  import opened Events
  import opened Protocol
  import opened Shape
  import opened System
  import opened Story
  import opened StorySteps

  // ---- The story of every task ----

  predicate Storied(s: Sys) {
    forall t :: t in s.tasks ==> TaskStory(t, s.tasks[t], Holder(s, t))
  }

  lemma StoryFresh(t: TaskId, o: WorkOrder, at: int, log: seq<Event>)
    ensures TaskStory(t, FreshRec(o, at, log), None)
  {
  }

  lemma StoryTaken(t: TaskId, rec: TaskRec, w: WorkerId, lease: int, n: nat, now: int)
    requires TaskStory(t, rec, None) && Claimable(rec.row, now)
    ensures TaskStory(t, rec.(row := ClaimedRow(rec.row, w, lease), claims := n, mark := |rec.attempts|), Some(Begin(t, rec.row)))
  {
    hide AllGenuine, AllContinue, HandedIn, Dones, LastDone, Review, Pending;
  }

  lemma StoryLogged(t: TaskId, rec: TaskRec, log: seq<Event>, hold: Option<Phase>)
    requires TaskStory(t, rec, hold)
    ensures TaskStory(t, rec.(log := log), hold)
  {
    hide AllGenuine, AllContinue, HandedIn, Dones, LastDone, Review, Pending, Settled, SameColumns, Earned;
  }

  lemma HolderTells(s: Sys, w: WorkerId, t: TaskId)
    requires Structured(s) && Storied(s) && w in s.workers && t in s.tasks
    requires Holds(s.workers[w].phase) == Some(t)
    ensures Telling(t, ViewOf(s, w, t), s.workers[w].phase)
  {
    hide PhaseStory, CacheOk, PhaseShape, AllGenuine;
  }

  lemma StoriedStepAt(cfg: Config, s: Sys, a: Action, t: TaskId)
    requires ValidConfig(cfg) && cfg.isolated && Structured(s) && Storied(s) && t in Next(cfg, s, a).tasks
    ensures var s' := Next(cfg, s, a); TaskStory(t, s'.tasks[t], Holder(s', t))
  {
    hide LocalStep, CacheOk, Blank, TaskShape, Next, FreshRec, TaskStory;
    Explained(cfg, s, a, t);
    match Cause(cfg, s, a, t)
    case Unmoved =>
    case Entered(o, at) => StoryFresh(t, o, at, [Enqueued(t)]);
    case Taken(w, now, lease, snap) => StoryTaken(t, s.tasks[t], w, lease, s.tasks[t].claims + 1, now);
    case Stepped(w, c) =>
      HolderTells(s, w, t);
      StoryStep(cfg, t, ViewOf(s, w, t), c);
      ToldHere(t, LocalStep(cfg, ViewOf(s, w, t), c));
    case Reported(w) => StoryLogged(t, s.tasks[t], s.tasks[t].log + [s.workers[w].phase.event], Holder(s, t));
  }

  lemma ToldHere(t: TaskId, v: View)
    requires Told(t, v)
    ensures TaskStory(t, v.rec, Held(v.worker.phase))
  {
  }

  lemma {:induction false} StoriedAlways(cfg: Config, s0: Sys, acts: seq<Action>)
    requires ValidConfig(cfg) && cfg.isolated && Initial(s0)
    ensures Structured(Run(cfg, s0, acts)) && Storied(Run(cfg, s0, acts))
  {
    hide Structured, Next, TaskStory;
    StructuredAlways(cfg, s0, acts);
    if acts != [] {
      var before := acts[..|acts| - 1];
      var s := Run(cfg, s0, before);
      StoriedAlways(cfg, s0, before);
      forall t | t in Run(cfg, s0, acts).tasks
        ensures TaskStory(t, Run(cfg, s0, acts).tasks[t], Holder(Run(cfg, s0, acts), t))
      {
        StoriedStepAt(cfg, s, acts[|acts| - 1], t);
      }
    }
  }

  // ---- Mutual exclusion, without clocks and without isolation ----

  /** Dispatched rows are in bijection with the workers between claim and release. */
  lemma MutualExclusion(cfg: Config, s0: Sys, acts: seq<Action>)
    requires ValidConfig(cfg) && Initial(s0)
    ensures var s := Run(cfg, s0, acts);
            && (forall w, t :: w in s.workers && Holds(s.workers[w].phase) == Some(t) ==>
                  t in s.tasks && s.tasks[t].row.status.Dispatched? && s.tasks[t].row.owner == Some(w))
            && (forall t :: t in s.tasks && s.tasks[t].row.status.Dispatched? ==>
                  exists w :: w in s.workers && Holds(s.workers[w].phase) == Some(t))
            && (forall w, w' :: (w in s.workers && w' in s.workers && Holds(s.workers[w].phase).Some?
                                 && Holds(s.workers[w].phase) == Holds(s.workers[w'].phase)) ==> w == w')
  {
    hide TaskShape, CacheOk, Run;
    StructuredAlways(cfg, s0, acts);
    var s := Run(cfg, s0, acts);
    forall t | t in s.tasks && s.tasks[t].row.status.Dispatched?
      ensures exists w :: w in s.workers && Holds(s.workers[w].phase) == Some(t)
    {
      assert RowOwned(s, t);
      assert Holds(s.workers[s.tasks[t].row.owner.value].phase) == Some(t);
    }
  }

  /** When every worker has stopped, no row is left dispatched. */
  lemma StoppedMeansReleased(cfg: Config, s0: Sys, acts: seq<Action>)
    requires ValidConfig(cfg) && Initial(s0)
    ensures var s := Run(cfg, s0, acts);
            (forall w :: w in s.workers ==> s.workers[w].phase.Halted?) ==>
              forall t :: t in s.tasks ==> s.tasks[t].row.status.Queued? || s.tasks[t].row.status.Terminal()
  {
    hide TaskShape, CacheOk, Run;
    StructuredAlways(cfg, s0, acts);
    var s := Run(cfg, s0, acts);
    forall t | t in s.tasks && forall w :: w in s.workers ==> s.workers[w].phase.Halted?
      ensures s.tasks[t].row.status.Queued? || s.tasks[t].row.status.Terminal()
    {
      assert RowOwned(s, t);
    }
  }

  // ---- Budgets ----

  predicate IsInFlight(f: Fate) { f.InFlight? }

  predicate IsAborted(f: Fate) { f.WasAborted? }

  predicate IsThrown(f: Fate) { f.DidThrow? }

  function Count(attempts: seq<Attempt>, p: Fate -> bool): nat {
    if attempts == [] then 0
    else Count(attempts[..|attempts| - 1], p) + if p(attempts[|attempts| - 1].fate) then 1 else 0
  }

  lemma {:induction false} FatesPartition(attempts: seq<Attempt>)
    ensures |attempts| == Dones(attempts) + Count(attempts, IsInFlight)
                          + Count(attempts, IsAborted) + Count(attempts, IsThrown)
  {
    if attempts != [] {
      FatesPartition(Front(attempts));
    }
  }

  /** At most one launch is in flight, and only while a worker is running it. */
  lemma {:induction false} FlightsCounted(attempts: seq<Attempt>, open: bool)
    requires AttemptsOk(attempts, open)
    ensures Count(attempts, IsInFlight) == if open then 1 else 0
  {
    if attempts != [] {
      FlightsCounted(Front(attempts), false);
    }
  }

  /**
   Whatever the interleaving, aborts included: every launch is charged once, the charge never exceeds
   `max_runs`, and the stored status is the one the stored usage gives.
   */
  lemma BudgetSafety(cfg: Config, s0: Sys, acts: seq<Action>, t: TaskId)
    requires ValidConfig(cfg) && Initial(s0) && t in Run(cfg, s0, acts).tasks
    ensures var rec := Run(cfg, s0, acts).tasks[t];
            match rec.budget
            case None => rec.attempts == []
            case Some(b) =>
              && b.runs == |rec.attempts| && b.runs <= rec.row.order.maxRuns
              && b.caps == rec.row.order.BudgetCaps()
              && b.status == ComputeStatus(b.runs, b.wallMs, b.cost, b.caps)
              && b.runs - Dones(rec.attempts)
                 == Count(rec.attempts, IsInFlight) + Count(rec.attempts, IsAborted)
                    + Count(rec.attempts, IsThrown)
  {
    hide CacheOk, Run;
    StructuredAlways(cfg, s0, acts);
    FatesPartition(Run(cfg, s0, acts).tasks[t].attempts);
  }

  /** The two-step charges lose no update: what a worker is about to overwrite is what it read. */
  lemma NoLostUpdate(cfg: Config, s0: Sys, acts: seq<Action>, w: WorkerId)
    requires ValidConfig(cfg) && Initial(s0) && w in Run(cfg, s0, acts).workers
    ensures var s := Run(cfg, s0, acts); var p := s.workers[w].phase;
            p.ChargeRead? || p.BillWrite? ==>
              p.job.task in s.tasks && s.tasks[p.job.task].budget == Some(p.read) && p.read == p.before
  {
    hide CacheOk, Run, BudgetMatches, AttemptsOk;
    StructuredAlways(cfg, s0, acts);
    var s := Run(cfg, s0, acts);
    var p := s.workers[w].phase;
    if p.ChargeRead? || p.BillWrite? {
      HolderShape(s, w, p.job.task);
    }
  }

  /** The attempts column counts the completed runs, so usage minus attempts is what is in flight, aborted or thrown. */
  lemma AttemptsColumn(cfg: Config, s0: Sys, acts: seq<Action>, t: TaskId)
    requires ValidConfig(cfg) && cfg.isolated && Initial(s0) && t in Run(cfg, s0, acts).tasks
    ensures var s := Run(cfg, s0, acts); var rec := s.tasks[t];
            && (Holder(s, t).None? ==> rec.row.attempts == Dones(rec.attempts))
            && (Holder(s, t).None? && rec.budget.Some? ==>
                  rec.budget.value.runs - rec.row.attempts
                  == Count(rec.attempts, IsAborted) + Count(rec.attempts, IsThrown))
  {
    hide CacheOk, Run, PhaseStory, PhaseShape;
    StoriedAlways(cfg, s0, acts);
    var s := Run(cfg, s0, acts);
    FatesPartition(s.tasks[t].attempts);
    if Holder(s, t).None? {
      FlightsCounted(s.tasks[t].attempts, false);
    }
  }

  // ---- Terminal statuses ----

  lemma TerminalStep(cfg: Config, s: Sys, a: Action, t: TaskId)
    requires Structured(s) && t in s.tasks && s.tasks[t].row.status.Terminal()
    ensures t in Next(cfg, s, a).tasks && Next(cfg, s, a).tasks[t].row == s.tasks[t].row
  {
    hide LocalStep, CacheOk, TaskShape, Blank, Claimable;
    TasksStay(cfg, s, a, t);
    Explained(cfg, s, a, t);
    assert RowOwned(s, t);
    assert Claimable(s.tasks[t].row, 0) ==> s.tasks[t].row.status.Queued? by {
      OnlyQueuedClaimable(s.tasks[t].row, 0);
    }
    match Cause(cfg, s, a, t)
    case Taken(_, now, _, _) => OnlyQueuedClaimable(s.tasks[t].row, now);
    case _ =>
  }

  lemma OnlyQueuedClaimable(row: Row, now: int)
    ensures Claimable(row, now) ==> row.status.Queued?
  {
  }

  lemma TasksStay(cfg: Config, s: Sys, a: Action, t: TaskId)
    requires t in s.tasks
    ensures t in Next(cfg, s, a).tasks
  {
    hide LocalStep, FirstClaimable;
  }

  /** Terminal is absorbing: nothing that happens later changes a finished row. */
  lemma {:induction false} TerminalAbsorbing(cfg: Config, s0: Sys, acts: seq<Action>, later: seq<Action>, t: TaskId)
    requires ValidConfig(cfg) && Initial(s0)
    requires t in Run(cfg, s0, acts).tasks && Run(cfg, s0, acts).tasks[t].row.status.Terminal()
    ensures var s' := Run(cfg, s0, acts + later); t in s'.tasks && s'.tasks[t].row == Run(cfg, s0, acts).tasks[t].row
  {
    hide Structured, Next;
    if later == [] {
      assert acts + later == acts;
    } else {
      var n := |later| - 1;
      TerminalAbsorbing(cfg, s0, acts, later[..n], t);
      var all := acts + later;
      assert all[..|all| - 1] == acts + later[..n] && all[|all| - 1] == later[n];
      StructuredAlways(cfg, s0, acts + later[..n]);
      TerminalStep(cfg, Run(cfg, s0, acts + later[..n]), later[n], t);
    }
  }

  // ---- Acceptance is earned ----

  /** Attempt `i` is the proven implementation that the acceptance rests on. */
  ghost predicate AcceptedFor(t: TaskId, o: WorkOrder, attempts: seq<Attempt>, i: nat) {
    && i < |attempts|
    && attempts[i].role.Implementer? && Succeeded(attempts[i])
    && attempts[i].fate.env.Some? && attempts[i].fate.env.value.ForImplementer?
    && (var e := attempts[i].fate.env.value.implementer;
        && e.cli.Exited? && e.cli.exit == Some(0) && !e.cli.timedOut
        && (o.commands == [] || e.verifier.VerifierPassed?))
    && (if o.reviewEnabled then
          var last := attempts[|attempts| - 1];
          && i < |attempts| - 1
          && last.role.Reviewer? && last.agent != attempts[i].agent
          && last.fate.Done? && last.fate.outcome.ReviewerReturned? && last.fate.outcome.verdict.Approved?
          && last.fate.reviewed.Some?
          && last.fate.reviewed.value.diff == attempts[i].fate.outcome.diff
          && attempts[i].run == RunRow(last.fate.reviewed.value.runId, RunSucceeded)
          && forall k :: i < k < |attempts| ==> attempts[k].role.Reviewer?
        else i == |attempts| - 1)
  }

  /** The last completed attempt is determined by being completed with none completed after it. */
  lemma {:induction false} LastDoneIs(attempts: seq<Attempt>, i: nat)
    requires i < |attempts| && attempts[i].fate.Done?
    requires forall k :: i < k < |attempts| ==> !attempts[k].fate.Done?
    ensures LastDone(attempts) == i
  {
  }

  lemma EarnedMeans(t: TaskId, o: WorkOrder, attempts: seq<Attempt>) returns (i: nat)
    requires AllGenuine(t, o.Core(), attempts) && Earned(o.Core(), attempts)
    ensures AcceptedFor(t, o, attempts, i)
  {
    hide Blank;
    var n := |attempts| - 1;
    assert Genuine(t, o.Core(), attempts, n);
    assert attempts[..n] == Front(attempts);
    if o.reviewEnabled {
      i := LastDone(Front(attempts));
      assert Front(attempts)[i] == attempts[i];
      assert Genuine(t, o.Core(), attempts, i);
      forall k | i < k < |attempts| ensures attempts[k].role.Reviewer? {
        assert Genuine(t, o.Core(), attempts, k);
        assert attempts[..k][i] == attempts[i];
        LastDoneIs(attempts[..k], i);
      }
    } else {
      i := n;
    }
  }

  /** In every reachable state, an accepted task has its proven implementation and, if asked for, its approval. */
  lemma AcceptanceEarned(cfg: Config, s0: Sys, acts: seq<Action>, t: TaskId) returns (i: nat)
    requires ValidConfig(cfg) && cfg.isolated && Initial(s0)
    requires t in Run(cfg, s0, acts).tasks && Run(cfg, s0, acts).tasks[t].row.status.Accepted?
    ensures AcceptedFor(t, Run(cfg, s0, acts).tasks[t].row.order, Run(cfg, s0, acts).tasks[t].attempts, i)
  {
    hide CacheOk, Run, PhaseStory, TaskShape, AcceptedFor;
    StoriedAlways(cfg, s0, acts);
    var s := Run(cfg, s0, acts);
    assert RowOwned(s, t);
    i := EarnedMeans(t, s.tasks[t].row.order, s.tasks[t].attempts);
  }

  // ---- Handoff delivery ----

  /** The packet handed over when attempt `k` completed, if it was handed back. */
  function PacketOf(t: TaskId, attempts: seq<Attempt>, k: nat): Option<Uri>
    requires k < |attempts|
  {
    if attempts[k].fate.Done? then Pending(t, attempts[..k + 1]) else None
  }

  /**
   While a task is queued, a packet is pending exactly when its last completed attempt was handed back to an
   implementer; it is that attempt's packet, and none is pending while a review is due.
   */
  lemma HandoffDelivery(cfg: Config, s0: Sys, acts: seq<Action>, t: TaskId)
    requires ValidConfig(cfg) && cfg.isolated && Initial(s0)
    requires t in Run(cfg, s0, acts).tasks && Run(cfg, s0, acts).tasks[t].row.status.Queued?
    ensures var rec := Run(cfg, s0, acts).tasks[t]; var d := LastDone(rec.attempts);
            && rec.row.handoff == (if d < 0 then None else PacketOf(t, rec.attempts, d))
            && (rec.row.handoff.Some? <==> d >= 0 && !Succeeded(rec.attempts[d]))
            && (rec.row.role.Reviewer? <==> d >= 0 && Succeeded(rec.attempts[d]))
            && (rec.row.role.Reviewer? ==> rec.row.handoff.None? && rec.row.context == Review(rec.attempts))
  {
    hide CacheOk, Run, PhaseStory, TaskShape, HandedIn, RowAgrees, Blank;
    StoriedAlways(cfg, s0, acts);
    var s := Run(cfg, s0, acts);
    assert RowOwned(s, t);
    var attempts := s.tasks[t].attempts;
    var d := LastDone(attempts);
    if d >= 0 {
      LastDoneIs(attempts[..d + 1], d);
      assert attempts[..d + 1][d] == attempts[d];
      assert Genuine(t, s.tasks[t].row.order.Core(), attempts, d);
    }
  }

  // ---- Run rows ----

  /** The run row of every launch agrees with how the launch ended, and a completed one kept its evidence and role. */
  lemma RunRowsAgree(cfg: Config, s0: Sys, acts: seq<Action>, t: TaskId, k: nat)
    requires ValidConfig(cfg) && cfg.isolated && Initial(s0) && t in Run(cfg, s0, acts).tasks
    requires k < |Run(cfg, s0, acts).tasks[t].attempts|
    ensures var a := Run(cfg, s0, acts).tasks[t].attempts[k];
            && (a.fate.WasAborted? && a.run.RunRow? ==> a.run.status.RunCancelled?)
            && (a.fate.DidThrow? && a.run.RunRow? ==> a.run.status.Running?)
            && (a.fate.InFlight? && a.run.RunRow? ==> a.run.status.Preparing? || a.run.status.Running?)
            && (a.fate.Done? ==>
                  && a.run.RunRow? && a.fate.outcome.run == a.run.id && a.fate.outcome.ForRole(a.role)
                  && (a.run.status.RunSucceeded? <==> a.fate.outcome.ImplementerSucceeded? || a.fate.outcome.ReviewerReturned?)
                  && (a.run.status.RunFailed? <==> a.fate.outcome.ImplementerFailed? || a.fate.outcome.ReviewerFailed?))
            && (a.fate.InFlight? ==> k == |Run(cfg, s0, acts).tasks[t].attempts| - 1)
  {
    hide CacheOk, Run, PhaseStory, PhaseShape, Review, NextRole, Blank;
    StoriedAlways(cfg, s0, acts);
    var s := Run(cfg, s0, acts);
    assert Genuine(t, s.tasks[t].row.order.Core(), s.tasks[t].attempts, k);
    assert AttemptsOk(s.tasks[t].attempts, Holder(s, t).Some? && Open(Holder(s, t).value));
  }
}
