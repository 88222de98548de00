/** Counting claims, launches and aborts: handles terminate, aborts leave a frame, and handoff URIs never repeat. */
module Counts {
  import opened Types
  import opened Js
  import opened Budgets
  import opened Events
  import opened Protocol
  import opened Shape
  import opened System
  import opened Story
  import opened Footprint
  import opened Safety

  /** A run is left, unless the last launch was aborted (an abort is charged without checking the budget again). */
  predicate Room(rec: TaskRec) {
    rec.attempts != [] && !Last(rec.attempts).fate.WasAborted? ==> |rec.attempts| < rec.row.order.maxRuns
  }

  predicate Bounded(rec: TaskRec) {
    rec.claims <= rec.row.order.maxRuns + rec.early + Count(rec.attempts, IsAborted)
  }

  predicate PhaseCount(rec: TaskRec, p: Phase) {
    var n := |rec.attempts|;
    && (Pre(p) ==> rec.claims == n + rec.early + 1 && n == rec.mark && Room(rec))
    && (Launched(p) ==> rec.claims == n + rec.early && n == rec.mark + 1)
    && (p.Releasing? ==>
          || (rec.claims == n + rec.early && n == rec.mark + 1)
          || (p.plan.status.Terminal() && n == rec.mark))
    && (p.Failing? ==>
          && rec.claims == n + rec.early && Room(rec)
          && (n == rec.mark || (n == rec.mark + 1 && Last(rec.attempts).fate.WasAborted?)))
  }

  predicate TaskCount(rec: TaskRec, hold: Option<Phase>) {
    && Bounded(rec)
    && (if hold.Some? then PhaseCount(rec, hold.value)
        else rec.row.status.Queued? ==> rec.claims == |rec.attempts| + rec.early && Room(rec))
  }

  /** Run ids on record were generated, and no two launches share one. */
  predicate IdsOk(attempts: seq<Attempt>, used: set<RunId>) {
    && (forall k :: 0 <= k < |attempts| && attempts[k].run.RunRow? ==> attempts[k].run.id in used)
    && (forall j, k :: 0 <= j < k < |attempts| && attempts[j].run.RunRow? && attempts[k].run.RunRow? ==>
          attempts[j].run.id != attempts[k].run.id)
  }

  lemma AbortCounts(front: seq<Attempt>, a: Attempt)
    ensures Count(front + [a], IsAborted) == Count(front, IsAborted) + if a.fate.WasAborted? then 1 else 0
  {
    assert (front + [a])[..|front|] == front;
  }

  /** A held task's claims stay bounded: whatever was claimed was launched, aborted, or is the current handle. */
  lemma BoundFromRoom(rec: TaskRec)
    requires BudgetMatches(rec) && rec.row.order.Valid()
    requires rec.claims == |rec.attempts| + rec.early || (rec.claims == |rec.attempts| + rec.early + 1 && Room(rec))
    ensures Bounded(rec)
  {
    if rec.attempts != [] {
      AbortCounts(Front(rec.attempts), Last(rec.attempts));
      assert rec.attempts == Front(rec.attempts) + [Last(rec.attempts)];
    }
  }

  lemma RoomFromBudget(rec: TaskRec)
    requires BudgetMatches(rec) && CanLaunch(rec)
    ensures Room(rec) && |rec.attempts| < rec.row.order.maxRuns
  {
    RunLeft(rec.budget.value);
  }

  lemma CountPre(t: TaskId, v: View, v': View)
    requires Pre(v.worker.phase) && TaskCount(v.rec, Some(v.worker.phase))
    requires HistoryMoves(v, v') && v'.rec.row.order == v.rec.row.order
    requires TaskShape(v'.rec, Held(v'.worker.phase)) && Holds(v'.worker.phase).Some?
    ensures TaskCount(v'.rec, Held(v'.worker.phase))
  {
    hide PhaseShape, AttemptsOk, Consistent;
    if v.worker.phase.ChargeRead? {
      BoundFromRoom(v'.rec);
    }
  }

  lemma CountLaunched(t: TaskId, v: View, v': View)
    requires Launched(v.worker.phase) && TaskCount(v.rec, Some(v.worker.phase))
    requires HistoryMoves(v, v') && v'.rec.row.order.Core() == v.rec.row.order.Core()
    requires TaskShape(v'.rec, Held(v'.worker.phase)) && Holds(v'.worker.phase).Some?
    ensures TaskCount(v'.rec, Held(v'.worker.phase))
  {
    hide PhaseShape, AttemptsOk, Consistent;
    assert |v'.rec.attempts| == |v.rec.attempts| by {
      if Open(v.worker.phase) {
        assert |Front(v'.rec.attempts)| == |Front(v.rec.attempts)|;
      }
    }
    BoundFromRoom(v'.rec);
  }

  lemma CountClose(t: TaskId, v: View, v': View)
    requires v.worker.phase.Releasing? || v.worker.phase.Failing?
    requires TaskCount(v.rec, Some(v.worker.phase)) && TaskShape(v.rec, Some(v.worker.phase))
    requires HistoryMoves(v, v') && v'.rec.row.order == v.rec.row.order
    ensures TaskCount(v'.rec, Held(v'.worker.phase))
  {
    hide AttemptsOk, Consistent, CacheOk;
    if v.worker.phase.Releasing? && v.worker.phase.plan.status.Queued? {
      RoomFromBudget(v.rec);
    }
  }

  lemma CountStep(cfg: Config, t: TaskId, v: View, c: Choice)
    requires Holds(v.worker.phase) == Some(t)
    requires TaskCount(v.rec, Some(v.worker.phase)) && TaskShape(v.rec, Some(v.worker.phase))
    requires var v' := LocalStep(cfg, v, c); TaskShape(v'.rec, Held(v'.worker.phase))
    ensures var v' := LocalStep(cfg, v, c); TaskCount(v'.rec, Held(v'.worker.phase))
  {
    hide LocalStep, TaskCount, TaskShape, HistoryMoves;
    var p := v.worker.phase;
    var v' := LocalStep(cfg, v, c);
    assert PhaseShape(v.rec, p) by {
      ShapeOfHolder(v.rec, p);
    }
    HistoryStep(cfg, v, c);
    OrderStep(cfg, v, c, t);
    OrderCoreKept(t, v, v');
    StageKeepsHold(v, v');
    if Pre(p) {
      CountPre(t, v, v');
    } else if Launched(p) {
      CountLaunched(t, v, v');
    } else {
      CountClose(t, v, v');
    }
  }

  lemma ShapeOfHolder(rec: TaskRec, p: Phase)
    requires TaskShape(rec, Some(p))
    ensures PhaseShape(rec, p)
  {
    hide PhaseShape, AttemptsOk, Consistent;
  }

  lemma OrderCoreKept(t: TaskId, v: View, v': View)
    requires OrderMoves(t, v, v')
    ensures v'.rec.row.order.Core() == v.rec.row.order.Core()
    ensures !v.worker.phase.Excluding? ==> v'.rec.row.order == v.rec.row.order
  {
  }

  lemma StageKeepsHold(v: View, v': View)
    requires HistoryMoves(v, v')
    ensures Pre(v.worker.phase) || Launched(v.worker.phase) ==> Holds(v'.worker.phase).Some?
  {
  }

  // ---- Every reachable state ----

  predicate Counted(s: Sys) {
    forall t :: t in s.tasks ==> TaskCount(s.tasks[t], Holder(s, t)) && IdsOk(s.tasks[t].attempts, s.used)
  }

  lemma CountFresh(o: WorkOrder, at: int, log: seq<Event>, used: set<RunId>)
    requires o.Valid()
    ensures TaskCount(FreshRec(o, at, log), None) && IdsOk(FreshRec(o, at, log).attempts, used)
  {
  }

  lemma CountTaken(rec: TaskRec, w: WorkerId, lease: int, now: int, t: TaskId, snap: Row)
    requires TaskCount(rec, None) && TaskShape(rec, None) && Claimable(rec.row, now)
    ensures TaskCount(rec.(row := ClaimedRow(rec.row, w, lease), claims := rec.claims + 1, mark := |rec.attempts|),
                      Some(Begin(t, snap)))
  {
    hide AttemptsOk, Consistent;
    BoundFromRoom(rec.(row := ClaimedRow(rec.row, w, lease), claims := rec.claims + 1, mark := |rec.attempts|));
  }

  lemma CountLogged(rec: TaskRec, log: seq<Event>, hold: Option<Phase>)
    requires TaskCount(rec, hold)
    ensures TaskCount(rec.(log := log), hold)
  {
  }

  lemma IdsStep(v: View, v': View)
    requires HistoryMoves(v, v') && IdsOk(v.rec.attempts, v.used)
    ensures IdsOk(v'.rec.attempts, v'.used)
  {
    hide StageMoves, AfterRun, BeforeLaunch;
    var attempts, attempts' := v.rec.attempts, v'.rec.attempts;
    if Open(v.worker.phase) {
      var n := |attempts| - 1;
      assert |Front(attempts')| == n;
      assert forall k :: 0 <= k < n ==> attempts'[k] == Front(attempts')[k] == attempts[k];
    }
  }

  lemma UsedGrows(cfg: Config, s: Sys, a: Action)
    requires Structured(s)
    ensures s.used <= Next(cfg, s, a).used
  {
    hide LocalStep, TaskShape, CacheOk, Blank;
    if Enabled(cfg, s, a) && a.Work? {
      var u := Subject(s.workers[a.w].phase).value;
      var v := ViewOf(s, a.w, u);
      if Holds(s.workers[a.w].phase).None? {
        UnheldStep(cfg, v, a.choice);
      } else {
        HolderShape(s, a.w, u);
        HistoryStep(cfg, v, a.choice);
      }
    }
  }

  lemma CountedStepAt(cfg: Config, s: Sys, a: Action, t: TaskId)
    requires ValidConfig(cfg) && Structured(s) && Counted(s) && t in Next(cfg, s, a).tasks
    ensures var s' := Next(cfg, s, a); TaskCount(s'.tasks[t], Holder(s', t)) && IdsOk(s'.tasks[t].attempts, s'.used)
  {
    hide LocalStep, CacheOk, Blank, TaskShape, FreshRec, TaskCount, Next, Explains;
    var s' := Next(cfg, s, a);
    UsedGrows(cfg, s, a);
    Explained(cfg, s, a, t);
    match Cause(cfg, s, a, t)
    case Stepped(w, c) => CountedStepped(cfg, s, a, t);
    case _ => CountedElse(cfg, s, a, t);
  }

  lemma CountedElse(cfg: Config, s: Sys, a: Action, t: TaskId)
    requires ValidConfig(cfg) && Structured(s) && Counted(s) && t in Next(cfg, s, a).tasks
    requires !Cause(cfg, s, a, t).Stepped? && s.used <= Next(cfg, s, a).used
    requires Explains(cfg, s, Next(cfg, s, a), t, Cause(cfg, s, a, t))
    ensures var s' := Next(cfg, s, a); TaskCount(s'.tasks[t], Holder(s', t)) && IdsOk(s'.tasks[t].attempts, s'.used)
  {
    hide LocalStep, CacheOk, Blank, TaskShape, FreshRec, TaskCount, Next, Claimable, Holder;
    match Cause(cfg, s, a, t)
    case Unmoved =>
    case Entered(o, at) => CountFresh(o, at, [Enqueued(t)], Next(cfg, s, a).used);
    case Taken(w, now, lease, snap) => CountTaken(s.tasks[t], w, lease, now, t, snap);
    case Reported(w) => CountLogged(s.tasks[t], s.tasks[t].log + [s.workers[w].phase.event], Holder(s, t));
  }

  lemma CountedStepped(cfg: Config, s: Sys, a: Action, t: TaskId)
    requires ValidConfig(cfg) && Structured(s) && Counted(s) && t in Next(cfg, s, a).tasks
    requires Cause(cfg, s, a, t).Stepped?
    requires Explains(cfg, s, Next(cfg, s, a), t, Cause(cfg, s, a, t))
    ensures var s' := Next(cfg, s, a); TaskCount(s'.tasks[t], Holder(s', t)) && IdsOk(s'.tasks[t].attempts, s'.used)
  {
    hide LocalStep, CacheOk, Blank, TaskShape, TaskCount, IdsOk;
    var Stepped(w, c) := Cause(cfg, s, a, t);
    var v := ViewOf(s, w, t);
    ShapedStep(cfg, s, a, t);
    HolderShape(s, w, t);
    CountStep(cfg, t, v, c);
    HistoryStep(cfg, v, c);
    IdsStep(v, LocalStep(cfg, v, c));
  }

  lemma {:induction false} CountedAlways(cfg: Config, s0: Sys, acts: seq<Action>)
    requires ValidConfig(cfg) && Initial(s0)
    ensures Structured(Run(cfg, s0, acts)) && Counted(Run(cfg, s0, acts))
  {
    hide Structured, Next, TaskCount, IdsOk;
    StructuredAlways(cfg, s0, acts);
    if acts != [] {
      var s := Run(cfg, s0, acts[..|acts| - 1]);
      CountedAlways(cfg, s0, acts[..|acts| - 1]);
      forall t | t in Run(cfg, s0, acts).tasks
        ensures TaskCount(Run(cfg, s0, acts).tasks[t], Holder(Run(cfg, s0, acts), t))
        ensures IdsOk(Run(cfg, s0, acts).tasks[t].attempts, Run(cfg, s0, acts).used)
      {
        CountedStepAt(cfg, s, acts[|acts| - 1], t);
      }
    }
  }

  // ---- Termination ----

  /**
   However the workers interleave, a task is claimed at most `max_runs` times plus once per abort; without
   aborts it is handled at most `max_runs` times, and never launched more often than that.
   */
  lemma HandlesBounded(cfg: Config, s0: Sys, acts: seq<Action>, t: TaskId)
    requires ValidConfig(cfg) && Initial(s0) && t in Run(cfg, s0, acts).tasks
    ensures var rec := Run(cfg, s0, acts).tasks[t];
            && rec.claims <= rec.row.order.maxRuns + rec.early + Count(rec.attempts, IsAborted)
            && |rec.attempts| <= rec.row.order.maxRuns
  {
    hide CacheOk, Run, PhaseCount, IdsOk;
    CountedAlways(cfg, s0, acts);
    BudgetSafety(cfg, s0, acts, t);
    OrderPositive(cfg, s0, acts, t);
  }

  lemma OrderPositive(cfg: Config, s0: Sys, acts: seq<Action>, t: TaskId)
    requires Structured(Run(cfg, s0, acts)) && t in Run(cfg, s0, acts).tasks
    ensures Run(cfg, s0, acts).tasks[t].row.order.maxRuns > 0
  {
    hide CacheOk, Run, PhaseShape;
  }

  /**
   A handle about to release either launched exactly once since its claim or ends the task; and when it
   requeues, the runs left are fewer than at the claim but not zero.
   */
  lemma HandleEndsOrLaunches(cfg: Config, s0: Sys, acts: seq<Action>, w: WorkerId)
    requires ValidConfig(cfg) && Initial(s0) && w in Run(cfg, s0, acts).workers
    requires Run(cfg, s0, acts).workers[w].phase.Releasing?
    ensures var s := Run(cfg, s0, acts); var p := s.workers[w].phase;
            && p.task in s.tasks
            && (p.plan.status.Terminal() || |s.tasks[p.task].attempts| == s.tasks[p.task].mark + 1)
            && (p.plan.status.Queued? ==>
                  && |s.tasks[p.task].attempts| == s.tasks[p.task].mark + 1
                  && |s.tasks[p.task].attempts| < s.tasks[p.task].row.order.maxRuns)
  {
    hide Structured, Counted, Run, TaskCount, TaskShape;
    CountedAlways(cfg, s0, acts);
    var s := Run(cfg, s0, acts);
    HolderFacts(s, w, s.workers[w].phase.task);
    ReleasingFacts(s.tasks[s.workers[w].phase.task], s.workers[w].phase);
  }

  lemma ReleasingFacts(rec: TaskRec, p: Phase)
    requires p.Releasing? && TaskShape(rec, Some(p)) && TaskCount(rec, Some(p))
    ensures p.plan.status.Terminal() || p.plan.status.Queued?
    ensures p.plan.status.Terminal() || |rec.attempts| == rec.mark + 1
    ensures p.plan.status.Queued? ==> |rec.attempts| < rec.row.order.maxRuns
  {
    hide AttemptsOk, Consistent, Room, Bounded, Flying, Landed;
    if p.plan.status.Queued? {
      RoomFromBudget(rec);
    }
  }

  // ---- The frame of an aborted handle ----

  /**
   A handle that was aborted puts the row back exactly as it was claimed; the only trace is at most one
   launch, charged and marked aborted, whose run row, if it was created, is cancelled.
   */
  lemma AbortFrame(cfg: Config, s0: Sys, acts: seq<Action>, w: WorkerId, c: Choice)
    requires ValidConfig(cfg) && cfg.isolated && Initial(s0) && w in Run(cfg, s0, acts).workers
    requires Run(cfg, s0, acts).workers[w].phase.Failing?
    ensures var s := Run(cfg, s0, acts); var p := s.workers[w].phase;
            && p.task in s.tasks
            && (var rec := s.tasks[p.task]; var rec' := LocalStep(cfg, ViewOf(s, w, p.task), c).rec;
                && rec'.row.status.Queued? && rec'.row.owner.None? && SameColumns(rec'.row, p.snap)
                && rec'.attempts == rec.attempts && rec'.log == rec.log
                && (|rec.attempts| == rec.mark
                    || (|rec.attempts| == rec.mark + 1 && Last(rec.attempts).fate.WasAborted?
                        && (Last(rec.attempts).run.NoRun? || Last(rec.attempts).run.status.RunCancelled?))))
  {
    hide Structured, Storied, Counted, Run, TaskCount, TaskShape, TaskStory, AllGenuine, LocalStep;
    CountedAlways(cfg, s0, acts);
    StoriedAlways(cfg, s0, acts);
    var s := Run(cfg, s0, acts);
    var p := s.workers[w].phase;
    HolderFacts(s, w, p.task);
    FailingFacts(s, w, p.task);
    FailingStep(cfg, ViewOf(s, w, p.task), c);
    AbortedRow(p.task, s.tasks[p.task].row.order.Core(), s.tasks[p.task].attempts);
  }

  /** The invariants, at the task a worker holds. */
  lemma HolderFacts(s: Sys, w: WorkerId, t: TaskId)
    requires Structured(s) && Counted(s) && w in s.workers && Holds(s.workers[w].phase) == Some(t)
    ensures t in s.tasks && Holder(s, t) == Some(s.workers[w].phase)
    ensures TaskShape(s.tasks[t], Some(s.workers[w].phase)) && TaskCount(s.tasks[t], Some(s.workers[w].phase))
    ensures Storied(s) ==> TaskStory(t, s.tasks[t], Some(s.workers[w].phase))
  {
    hide TaskCount, TaskShape, TaskStory, CacheOk, IdsOk, Blank;
  }

  lemma AbortedRow(t: TaskId, core: WorkOrder, attempts: seq<Attempt>)
    requires AllGenuine(t, core, attempts)
    ensures attempts != [] && Last(attempts).fate.WasAborted? ==>
              Last(attempts).run.NoRun? || Last(attempts).run.status.RunCancelled?
  {
    hide Evidence, Review, NextRole;
    if attempts != [] {
      assert Genuine(t, core, attempts, |attempts| - 1);
    }
  }

  lemma FailingFacts(s: Sys, w: WorkerId, t: TaskId)
    requires w in s.workers && t in s.tasks && s.workers[w].phase.Failing? && s.workers[w].phase.task == t
    requires TaskStory(t, s.tasks[t], Some(s.workers[w].phase)) && TaskCount(s.tasks[t], Some(s.workers[w].phase))
    ensures var rec := s.tasks[t];
            && SameColumns(rec.row, s.workers[w].phase.snap) && AllGenuine(t, rec.row.order.Core(), rec.attempts)
            && (|rec.attempts| == rec.mark || (|rec.attempts| == rec.mark + 1 && Last(rec.attempts).fate.WasAborted?))
  {
    hide Settled, AllContinue, Genuine, Bounded, Room;
  }

  lemma FailingStep(cfg: Config, v: View, c: Choice)
    requires v.worker.phase.Failing?
    ensures LocalStep(cfg, v, c) == v.WithRow(RequeuedRow(v.rec.row)).To(Idle)
  {
  }

  // ---- History is only added to ----

  /** What is not in flight stays as it is, at its place. */
  predicate KeepsHistory(attempts: seq<Attempt>, attempts': seq<Attempt>) {
    |attempts| <= |attempts'| && forall k :: 0 <= k < |attempts| && !attempts[k].fate.InFlight? ==> attempts'[k] == attempts[k]
  }

  lemma HistoryKept(v: View, v': View)
    requires HistoryMoves(v, v') && AttemptsOk(v.rec.attempts, Open(v.worker.phase))
    ensures KeepsHistory(v.rec.attempts, v'.rec.attempts)
  {
    hide StageMoves, RunMoves;
    var attempts, attempts' := v.rec.attempts, v'.rec.attempts;
    if Open(v.worker.phase) {
      assert |Front(attempts')| == |Front(attempts)|;
      assert forall k :: 0 <= k < |attempts| - 1 ==> attempts'[k] == Front(attempts')[k] == Front(attempts)[k] == attempts[k];
    }
  }

  lemma HistoryKeptStep(cfg: Config, s: Sys, a: Action, t: TaskId)
    requires Structured(s) && t in s.tasks && t in Next(cfg, s, a).tasks
    ensures KeepsHistory(s.tasks[t].attempts, Next(cfg, s, a).tasks[t].attempts)
  {
    hide LocalStep, CacheOk, Blank, Next, PhaseShape, BudgetMatches, FreshRec;
    Explained(cfg, s, a, t);
    match Cause(cfg, s, a, t)
    case Stepped(w, c) =>
      HolderShape(s, w, t);
      HistoryStep(cfg, ViewOf(s, w, t), c);
      HistoryKept(ViewOf(s, w, t), LocalStep(cfg, ViewOf(s, w, t), c));
    case _ =>
  }

  /**
   Whatever happens later, an attempt on record that is not in flight is never altered, moved or dropped: so the
   first `mark` attempts of a handle are those that the claim found.
   */
  lemma {:induction false} AttemptsKept(cfg: Config, s0: Sys, acts: seq<Action>, later: seq<Action>, t: TaskId)
    requires ValidConfig(cfg) && Initial(s0) && t in Run(cfg, s0, acts).tasks
    ensures var s' := Run(cfg, s0, acts + later);
            t in s'.tasks && KeepsHistory(Run(cfg, s0, acts).tasks[t].attempts, s'.tasks[t].attempts)
  {
    hide Structured, Next;
    if later == [] {
      assert acts + later == acts;
    } else {
      var n := |later| - 1;
      AttemptsKept(cfg, s0, acts, later[..n], t);
      var all := acts + later;
      assert all[..|all| - 1] == acts + later[..n] && all[|all| - 1] == later[n];
      StructuredAlways(cfg, s0, acts + later[..n]);
      TasksStay(cfg, Run(cfg, s0, acts + later[..n]), later[n], t);
      HistoryKeptStep(cfg, Run(cfg, s0, acts + later[..n]), later[n], t);
    }
  }

  // ---- Handoff URIs ----

  /** The completed attempt whose run a packet of attempt `k` is filed under. */
  function Source(attempts: seq<Attempt>, k: nat): int
    requires k < |attempts|
  {
    if attempts[k].role.Implementer? then k else LastDone(attempts[..k])
  }

  lemma PacketSource(t: TaskId, core: WorkOrder, attempts: seq<Attempt>, k: nat)
    requires k < |attempts| && AllGenuine(t, core, attempts) && PacketOf(t, attempts, k).Some?
    ensures var i := Source(attempts, k);
            && 0 <= i <= k && attempts[i].run.RunRow?
            && PacketOf(t, attempts, k) == Some(Artifact(t, attempts[i].run.id, "handoff_packet.json"))
            && (attempts[k].role.Reviewer? ==> i < k && Succeeded(attempts[i])
                                               && forall j :: i < j < k ==> !attempts[j].fate.Done?)
            && (attempts[k].role.Implementer? ==> !Succeeded(attempts[k]))
  {
    hide RowAgrees, Blank;
    assert Genuine(t, core, attempts, k);
    assert attempts[..k + 1][k] == attempts[k];
    LastDoneIs(attempts[..k + 1], k);
    if attempts[k].role.Reviewer? {
      var i := LastDone(attempts[..k]);
      assert attempts[..k][i] == attempts[i];
      assert Genuine(t, core, attempts, i);
    }
  }

  /** No two handoffs of a task share a packet URI. */
  lemma PacketsDistinct(t: TaskId, core: WorkOrder, attempts: seq<Attempt>, used: set<RunId>, j: nat, k: nat)
    requires j < k < |attempts| && AllGenuine(t, core, attempts) && IdsOk(attempts, used)
    requires PacketOf(t, attempts, j).Some? && PacketOf(t, attempts, k).Some?
    ensures PacketOf(t, attempts, j) != PacketOf(t, attempts, k)
  {
    hide Genuine, Pending;
    PacketSource(t, core, attempts, j);
    PacketSource(t, core, attempts, k);
    if attempts[k].role.Reviewer? && Source(attempts, k) <= j {
      NoPacketFromSuccess(t, attempts, j);
      assert false;
    }
  }

  lemma NoPacketFromSuccess(t: TaskId, attempts: seq<Attempt>, j: nat)
    requires j < |attempts| && PacketOf(t, attempts, j).Some?
    ensures attempts[j].fate.Done? && !Succeeded(attempts[j])
  {
    assert attempts[..j + 1][j] == attempts[j];
    LastDoneIs(attempts[..j + 1], j);
  }

  lemma HandoffUrisDistinct(cfg: Config, s0: Sys, acts: seq<Action>, t: TaskId, j: nat, k: nat)
    requires ValidConfig(cfg) && cfg.isolated && Initial(s0) && t in Run(cfg, s0, acts).tasks
    requires j < k < |Run(cfg, s0, acts).tasks[t].attempts|
    ensures var attempts := Run(cfg, s0, acts).tasks[t].attempts;
            PacketOf(t, attempts, j).Some? && PacketOf(t, attempts, k).Some? ==>
              PacketOf(t, attempts, j) != PacketOf(t, attempts, k)
  {
    hide CacheOk, Run, PhaseStory, PhaseCount, Genuine, Pending;
    CountedAlways(cfg, s0, acts);
    StoriedAlways(cfg, s0, acts);
    var s := Run(cfg, s0, acts);
    var attempts := s.tasks[t].attempts;
    if PacketOf(t, attempts, j).Some? && PacketOf(t, attempts, k).Some? {
      PacketsDistinct(t, s.tasks[t].row.order.Core(), attempts, s.used, j, k);
    }
  }
}
