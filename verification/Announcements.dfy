/** The log of every run: all of it passes validation, and each finished task is announced exactly once. */
module Announcements {
  import opened Types
  import opened Js
  import opened Events
  import opened Protocol
  import opened Shape
  import opened System
  import opened Footprint
  import opened Safety
  import opened Ledger

  /** An event that says a task has ended. */
  predicate Ending(k: Kind) {
    k.TaskCompleted? || k.TaskFailed? || k.TaskAwaitingHuman?
  }

  function Ends(log: seq<Event>): nat {
    if log == [] then 0 else Ends(log[..|log| - 1]) + if Ending(log[|log| - 1].kind) then 1 else 0
  }

  /** Every event was accepted, and those that announce an end announce this status. */
  predicate Agrees(log: seq<Event>, status: Status) {
    forall i :: 0 <= i < |log| ==> Accepts(log[i]) && (Ending(log[i].kind) ==> log[i].kind == KindFor(status))
  }

  /** Worker `w` has released `t` for good and is about to say so. */
  predicate Announcing(s: Sys, w: WorkerId, t: TaskId) {
    && w in s.workers && s.workers[w].phase.Reporting? && s.workers[w].phase.task == t
    && Ending(s.workers[w].phase.event.kind)
  }

  ghost predicate Announced(s: Sys, t: TaskId)
    requires t in s.tasks
  {
    var row, log := s.tasks[t].row, s.tasks[t].log;
    && Agrees(log, row.status)
    && (forall w :: Announcing(s, w, t) ==> s.workers[w].phase.event.kind == KindFor(row.status) && Ends(log) == 0)
    && (forall w, w' :: Announcing(s, w, t) && Announcing(s, w', t) ==> w == w')
    && (if row.status.Terminal() then Ends(log) == 1 || (Ends(log) == 0 && exists w :: Announcing(s, w, t))
        else Ends(log) == 0 && forall w :: !Announcing(s, w, t))
  }

  predicate PhaseNamed(p: Phase) {
    Named(p) && (p.Reporting? ==> Accepts(p.event) && (Ending(p.event.kind) || p.event.kind.TaskRequeued?))
  }

  ghost predicate Spoken(s: Sys) {
    && (forall w :: w in s.workers ==> PhaseNamed(s.workers[w].phase))
    && (forall t :: t in s.tasks ==> Announced(s, t))
  }

  // ---- Counting announcements ----

  lemma {:induction false} NoEnds(log: seq<Event>, es: seq<Event>)
    requires forall i :: 0 <= i < |es| ==> !Ending(es[i].kind)
    ensures Ends(log + es) == Ends(log)
  {
    if es == [] {
      assert log + es == log;
    } else {
      var n := |es| - 1;
      NoEnds(log, es[..n]);
      assert (log + es)[..|log| + n] == log + es[..n];
    }
  }

  lemma EndsAppend(log: seq<Event>, e: Event)
    ensures Ends(log + [e]) == Ends(log) + if Ending(e.kind) then 1 else 0
  {
    assert (log + [e])[..|log|] == log;
  }

  /** A log without announcements agrees with any status. */
  lemma {:induction false} UnannouncedAgrees(log: seq<Event>, status: Status, status': Status)
    requires Agrees(log, status) && Ends(log) == 0
    ensures Agrees(log, status')
  {
    if log != [] {
      UnannouncedAgrees(log[..|log| - 1], status, status');
    }
  }

  // ---- One step of the holder ----

  /** What the step of the worker `w` that owns `t` appends changes no announcement. */
  lemma QuietAppend(t: TaskId, v: View, v': View)
    requires LogMoves(t, v, v') && Agrees(v.rec.log, v.rec.row.status)
    ensures Agrees(v'.rec.log, v.rec.row.status) && Ends(v'.rec.log) == Ends(v.rec.log)
  {
    hide Accepts, Named;
    var es := v'.rec.log[|v.rec.log|..];
    assert v'.rec.log == v.rec.log + es;
    NoEnds(v.rec.log, es);
  }

  lemma RequeueAccepted(t: TaskId, k: Kind, run: Option<RunId>)
    requires !Blank(t) && (Ending(k) || k.TaskRequeued?)
    ensures Accepts(TaskEvent(k, t, run)) && TaskEvent(k, t, run).kind == k
  {
    hide Blank;
  }

  /** Only a release gives a row up, with the planned status, or the requeue after an abort. */
  lemma OnlyCloseReleases(v: View, v': View)
    requires HistoryMoves(v, v') && Holds(v.worker.phase).Some? && Holds(v'.worker.phase).None?
    ensures v.worker.phase.Releasing? || v.worker.phase.Failing?
    ensures v.worker.phase.Releasing? ==> v'.rec.row.status == v.worker.phase.plan.status
    ensures v.worker.phase.Failing? ==> v'.rec.row.status.Queued?
  {
    hide AttemptsMove;
  }

  lemma HeldFacts(s: Sys, w: WorkerId, t: TaskId)
    requires Structured(s) && Spoken(s) && w in s.workers && t in s.tasks && Holds(s.workers[w].phase) == Some(t)
    ensures !Blank(t) && s.tasks[t].row.status.Dispatched? && Announced(s, t)
    ensures PhaseShape(s.tasks[t], s.workers[w].phase) && Named(s.workers[w].phase)
  {
    hide TaskShape, CacheOk, Blank, Named, PhaseShape, Announced;
    HolderShape(s, w, t);
  }

  /** What the holder's step leaves in the log, and what it is about to announce. */
  lemma HolderLog(cfg: Config, s: Sys, w: WorkerId, c: Choice, t: TaskId)
    requires ValidConfig(cfg) && Structured(s) && Spoken(s) && w in s.workers && t in s.tasks
    requires Holds(s.workers[w].phase) == Some(t)
    ensures var v' := LocalStep(cfg, ViewOf(s, w, t), c); var p' := v'.worker.phase;
            && Agrees(v'.rec.log, v'.rec.row.status) && Ends(v'.rec.log) == 0 && PhaseNamed(p')
            && (forall x :: !Announcing(s, x, t))
            && (if p'.Reporting? && Ending(p'.event.kind) then
                  p'.task == t && v'.rec.row.status.Terminal() && p'.event.kind == KindFor(v'.rec.row.status)
                else !v'.rec.row.status.Terminal())
  {
    hide LocalStep, Structured, Spoken, PhaseShape, Blank, Accepts, Named, HistoryMoves, KindFor, AllFine, AllAlarms;
    var v := ViewOf(s, w, t);
    var v' := LocalStep(cfg, v, c);
    HeldFacts(s, w, t);
    LogStep(cfg, t, v, c);
    OwnerStep(cfg, v, c, t);
    HistoryStep(cfg, v, c);
    if Holds(v'.worker.phase).None? {
      OnlyCloseReleases(v, v');
    }
    QuietAppend(t, v, v');
    UnannouncedAgrees(v'.rec.log, v.rec.row.status, v'.rec.row.status);
    ReleaseNamed(t, v.worker.phase);
  }

  /** A released row is announced by the worker that released it, and by no other. */
  lemma AnnouncedStepped(cfg: Config, s: Sys, a: Action, t: TaskId)
    requires ValidConfig(cfg) && Structured(s) && Spoken(s) && a.Work? && Enabled(cfg, s, a)
    requires t in s.tasks && Holds(s.workers[a.w].phase) == Some(t)
    ensures Announced(Next(cfg, s, a), t) && PhaseNamed(Next(cfg, s, a).workers[a.w].phase)
  {
    hide LocalStep, Structured, Spoken, FirstClaimable, Agrees, KindFor, PhaseNamed;
    HolderLog(cfg, s, a.w, a.choice, t);
    var s' := Next(cfg, s, a);
    assert forall w :: w != a.w ==> (Announcing(s', w, t) <==> Announcing(s, w, t));
    if s'.tasks[t].row.status.Terminal() {
      assert Announcing(s', a.w, t);
    }
  }

  /** The event a release announces is the one for the status it writes. */
  lemma ReleaseNamed(t: TaskId, p: Phase)
    requires Named(p) && !Blank(t)
    ensures p.Releasing? ==>
              var e := TaskEvent(p.plan.kind, t, p.plan.run);
              Accepts(e) && e.kind == KindFor(p.plan.status) && (Ending(e.kind) || e.kind.TaskRequeued?) && (Ending(e.kind) <==> p.plan.status.Terminal())
  {
    hide Blank, Accepts;
    if p.Releasing? {
      RequeueAccepted(t, p.plan.kind, p.plan.run);
    }
  }

  // ---- Every reachable state ----

  /** A step that leaves the task's log alone and reports nothing about it keeps its announcements. */
  lemma AnnouncedFramed(s: Sys, s': Sys, t: TaskId)
    requires t in s.tasks && t in s'.tasks && Announced(s, t)
    requires s'.tasks[t].log == s.tasks[t].log
    requires s'.tasks[t].row.status == s.tasks[t].row.status
             || (!s.tasks[t].row.status.Terminal() && !s'.tasks[t].row.status.Terminal())
    requires forall w :: Announcing(s', w, t) <==> Announcing(s, w, t)
    requires forall w :: Announcing(s, w, t) ==> w in s'.workers && s'.workers[w].phase == s.workers[w].phase
    ensures Announced(s', t)
  {
    hide Agrees, KindFor;
    if s'.tasks[t].row.status != s.tasks[t].row.status {
      UnannouncedAgrees(s.tasks[t].log, s.tasks[t].row.status, s'.tasks[t].row.status);
    }
    if w :| Announcing(s, w, t) {
      assert Announcing(s', w, t);
    }
  }

  /** A pending event is logged: an announcement that was due is now made. */
  lemma AnnouncedLogged(cfg: Config, s: Sys, a: Action, t: TaskId)
    requires Spoken(s) && a.Work? && Enabled(cfg, s, a) && s.workers[a.w].phase.Reporting?
    requires t == s.workers[a.w].phase.task && t in Next(cfg, s, a).tasks
    ensures Announced(Next(cfg, s, a), t)
    ensures a.w in Next(cfg, s, a).workers && Next(cfg, s, a).workers[a.w].phase.Idle?
  {
    hide LocalStep, FirstClaimable, Accepts, KindFor, Announced, Claimable, PhaseNamed;
    PendingAccepted(s, a.w);
    UnheldStep(cfg, ViewOf(s, a.w, t), a.choice);
    AnnouncedSaid(s, Next(cfg, s, a), a.w, t);
  }

  lemma PendingAccepted(s: Sys, w: WorkerId)
    requires Spoken(s) && w in s.workers && s.workers[w].phase.Reporting?
    ensures Accepts(s.workers[w].phase.event)
  {
    hide Accepts, Announced, Named;
  }

  lemma IdleNamed(p: Phase)
    requires p.Idle? || p.Selected?
    ensures PhaseNamed(p)
  {
  }

  lemma AnnouncedSaid(s: Sys, s': Sys, w: WorkerId, t: TaskId)
    requires t in s.tasks && t in s'.tasks && Announced(s, t) && w in s.workers
    requires s.workers[w].phase.Reporting? && s.workers[w].phase.task == t && Accepts(s.workers[w].phase.event)
    requires s' == s.(tasks := s'.tasks, workers := s.workers[w := s.workers[w].(phase := Idle)])
    requires s'.tasks[t] == s.tasks[t].(log := s.tasks[t].log + [s.workers[w].phase.event])
    ensures Announced(s', t)
  {
    hide Accepts, KindFor;
    var e := s.workers[w].phase.event;
    EndsAppend(s.tasks[t].log, e);
    assert Announcing(s, w, t) <==> Ending(e.kind);
    assert forall x :: Announcing(s', x, t) <==> x != w && Announcing(s, x, t);
    if s'.tasks[t].row.status.Terminal() && !Ending(e.kind) {
      if x :| Announcing(s, x, t) {
        assert Announcing(s', x, t);
      }
    }
  }

  /** A step on one task leaves what is said of the others alone. */
  lemma AnnouncedElsewhere(cfg: Config, s: Sys, a: Action, t: TaskId)
    requires Structured(s) && Spoken(s) && a.Work? && Enabled(cfg, s, a)
    requires t in s.tasks && t in Next(cfg, s, a).tasks && Subject(s.workers[a.w].phase) != Some(t)
    ensures Announced(Next(cfg, s, a), t)
  {
    hide LocalStep, FirstClaimable, Announced, Ending, Structured, PhaseNamed;
    SubjectKept(cfg, s, a);
    AnnouncedFramed(s, Next(cfg, s, a), t);
  }

  /** A worker's step never turns it to another task. */
  lemma SubjectKept(cfg: Config, s: Sys, a: Action)
    requires Structured(s) && a.Work? && Enabled(cfg, s, a)
    ensures var p, p' := s.workers[a.w].phase, Next(cfg, s, a).workers[a.w].phase;
            Subject(p').Some? ==> Subject(p') == Subject(p)
  {
    hide LocalStep, FirstClaimable, Caches, TaskShape, RowOwned, Blank, PhaseShape;
    var p := s.workers[a.w].phase;
    var u := Subject(p).value;
    if Holds(p).None? {
      UnheldStep(cfg, ViewOf(s, a.w, u), a.choice);
    } else {
      HolderShape(s, a.w, u);
      OwnerStep(cfg, ViewOf(s, a.w, u), a.choice, u);
    }
  }

  lemma AnnouncedEntered(cfg: Config, s: Sys, a: Action)
    requires Structured(s) && a.Enqueue? && Enabled(cfg, s, a) && a.newTask in Next(cfg, s, a).tasks
    ensures Announced(Next(cfg, s, a), a.newTask)
  {
    hide Shaped, Caches, Announced, Blank, RowOwned, Enqueued;
    var s' := Next(cfg, s, a);
    assert forall w :: Announcing(s, w, a.newTask) ==> Subject(s.workers[w].phase) == Some(a.newTask);
    assert forall w :: !Announcing(s', w, a.newTask);
    AnnouncedFresh(s', a.newTask);
  }

  lemma AnnouncedFresh(s: Sys, t: TaskId)
    requires t in s.tasks && s.tasks[t].log == [Enqueued(t)] && s.tasks[t].row.status.Queued? && !Blank(t)
    requires forall w :: !Announcing(s, w, t)
    ensures Announced(s, t)
  {
    hide Blank, Announcing, Accepts;
    EnqueuedAccepted(t);
    EndsAppend([], Enqueued(t));
  }

  lemma EnqueuedAccepted(t: TaskId)
    requires !Blank(t)
    ensures Accepts(Enqueued(t))
  {
    hide Blank;
  }

  lemma AnnouncedRest(cfg: Config, s: Sys, a: Action, t: TaskId)
    requires Structured(s) && Spoken(s) && !a.Work? && Enabled(cfg, s, a) && t in s.tasks && t in Next(cfg, s, a).tasks
    ensures Announced(Next(cfg, s, a), t)
  {
    hide FirstClaimable, Announced, Ending, Structured, Claimable, PhaseNamed, FreshRec, Enqueued, Blank;
    if a.Update? {
      OnlyQueuedClaimable(s.tasks[s.workers[a.w].phase.task].row, a.now);
    }
    AnnouncedFramed(s, Next(cfg, s, a), t);
  }

  lemma NamedRest(cfg: Config, s: Sys, a: Action, w: WorkerId)
    requires Spoken(s) && Enabled(cfg, s, a) && w in Next(cfg, s, a).workers
    requires a.Work? ==> w != a.w
    ensures PhaseNamed(Next(cfg, s, a).workers[w].phase)
  {
    hide LocalStep, FirstClaimable, Announced, Accepts, Blank;
  }

  lemma SpokenStep(cfg: Config, s: Sys, a: Action)
    requires ValidConfig(cfg) && Structured(s) && Spoken(s)
    ensures Spoken(Next(cfg, s, a))
  {
    hide Protocol.Apply, Announced, PhaseNamed, TaskShape, CacheOk;
    var s' := Next(cfg, s, a);
    if Enabled(cfg, s, a) {
      forall t | t in s'.tasks ensures Announced(s', t) {
        TasksFromEnqueue(cfg, s, a, t);
        if t !in s.tasks {
          AnnouncedEntered(cfg, s, a);
        } else if !a.Work? {
          AnnouncedRest(cfg, s, a, t);
        } else if Subject(s.workers[a.w].phase) != Some(t) {
          AnnouncedElsewhere(cfg, s, a, t);
        } else if Holds(s.workers[a.w].phase) == Some(t) {
          AnnouncedStepped(cfg, s, a, t);
        } else if s.workers[a.w].phase.Reporting? {
          AnnouncedLogged(cfg, s, a, t);
        } else {
          SelectedWaits(cfg, s, a);
        }
      }
      forall w | w in s'.workers ensures PhaseNamed(s'.workers[w].phase) {
        if a.Work? && w == a.w {
          NamedWork(cfg, s, a);
        } else {
          NamedRest(cfg, s, a, w);
        }
      }
    }
  }

  lemma NamedWork(cfg: Config, s: Sys, a: Action)
    requires ValidConfig(cfg) && Structured(s) && Spoken(s) && a.Work? && Enabled(cfg, s, a)
    ensures PhaseNamed(Next(cfg, s, a).workers[a.w].phase)
  {
    hide LocalStep, FirstClaimable, Announced, PhaseNamed, TaskShape, CacheOk;
    var p := s.workers[a.w].phase;
    assert Subject(p).value in Next(cfg, s, a).tasks;
    if Holds(p).Some? {
      AnnouncedStepped(cfg, s, a, Holds(p).value);
    } else if p.Reporting? {
      AnnouncedLogged(cfg, s, a, p.task);
      IdleNamed(Next(cfg, s, a).workers[a.w].phase);
    } else {
      SelectedWaits(cfg, s, a);
    }
  }

  lemma SelectedWaits(cfg: Config, s: Sys, a: Action)
    requires a.Work? && Enabled(cfg, s, a) && s.workers[a.w].phase.Selected?
    ensures Next(cfg, s, a) == s
  {
    hide LocalStep, FirstClaimable;
    UnheldStep(cfg, ViewOf(s, a.w, s.workers[a.w].phase.task), a.choice);
  }

  lemma TasksFromEnqueue(cfg: Config, s: Sys, a: Action, t: TaskId)
    requires t in Next(cfg, s, a).tasks && Enabled(cfg, s, a)
    ensures t !in s.tasks ==> a.Enqueue? && a.newTask == t
  {
    hide LocalStep, FirstClaimable;
  }

  lemma {:induction false} SpokenAlways(cfg: Config, s0: Sys, acts: seq<Action>)
    requires ValidConfig(cfg) && Initial(s0)
    ensures Structured(Run(cfg, s0, acts)) && Spoken(Run(cfg, s0, acts))
  {
    hide Structured, Next, Announced;
    StructuredAlways(cfg, s0, acts);
    if acts != [] {
      SpokenAlways(cfg, s0, acts[..|acts| - 1]);
      SpokenStep(cfg, Run(cfg, s0, acts[..|acts| - 1]), acts[|acts| - 1]);
    }
  }

  // ---- What it means ----

  /** `append` never refuses an event of the engine: every logged and every pending event passes validation. */
  lemma LogsAccepted(cfg: Config, s0: Sys, acts: seq<Action>)
    requires ValidConfig(cfg) && Initial(s0)
    ensures var s := Run(cfg, s0, acts);
            && (forall t, i :: t in s.tasks && 0 <= i < |s.tasks[t].log| ==> Accepts(s.tasks[t].log[i]))
            && (forall w :: w in s.workers && s.workers[w].phase.Reporting? ==> Accepts(s.workers[w].phase.event))
  {
    hide Structured, Run, Accepts, Named;
    SpokenAlways(cfg, s0, acts);
    var s := Run(cfg, s0, acts);
    forall t, i | t in s.tasks && 0 <= i < |s.tasks[t].log| ensures Accepts(s.tasks[t].log[i]) {
      assert Announced(s, t);
    }
  }

  /**
   Once nobody has anything left to say, a finished task has exactly one event announcing an end, and it
   announces the status of the row; a task that is not finished has none, whatever was aborted meanwhile.
   */
  lemma EndAnnouncedOnce(cfg: Config, s0: Sys, acts: seq<Action>, t: TaskId)
    requires ValidConfig(cfg) && Initial(s0) && t in Run(cfg, s0, acts).tasks
    ensures var s := Run(cfg, s0, acts); var row, log := s.tasks[t].row, s.tasks[t].log;
            && (!row.status.Terminal() ==> Ends(log) == 0)
            && (row.status.Terminal() ==>
                  && Ends(log) <= 1
                  && (Ends(log) == 0 <==> exists w :: Announcing(s, w, t)))
            && (forall i :: 0 <= i < |log| && Ending(log[i].kind) ==>
                  && (log[i].kind.TaskCompleted? <==> row.status.Accepted?)
                  && (log[i].kind.TaskFailed? <==> row.status.Failed?)
                  && (log[i].kind.TaskAwaitingHuman? <==> row.status.AwaitingHuman?))
            && (forall w, w' :: Announcing(s, w, t) && Announcing(s, w', t) ==> w == w')
            && (forall w :: Announcing(s, w, t) ==> s.workers[w].phase.event.kind == KindFor(row.status))
  {
    hide Structured, Run, Accepts;
    SpokenAlways(cfg, s0, acts);
    assert Announced(Run(cfg, s0, acts), t);
  }
}
