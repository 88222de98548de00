/**
 One claiming queue, as in a single-worker run: its cache is exact at every claim, so every pick is made from all the
 stored excludes and no agent implements the same task twice.
 */
module Sole {
  import opened Types
  import opened Js
  import opened Handoffs
  import opened Protocol
  import opened Shape
  import opened System
  import opened Story
  import opened Picks

  /** Only `w0` ever claims. */
  predicate OnlyClaims(w0: WorkerId, acts: seq<Action>) {
    forall i :: 0 <= i < |acts| && (acts[i].Scan? || acts[i].Select?) ==> acts[i].w == w0
  }

  /** Up to the launch, what the holder carries is what is stored. */
  predicate Current(rec: TaskRec, hold: Option<Phase>) {
    hold.Some? && (hold.value.Reading? || BeforeLaunch(hold.value)) ==> OrderOf(hold.value) == Some(rec.row.order)
  }

  predicate Exact(s: Sys, w0: WorkerId) {
    w0 in s.workers ==> forall t :: t in s.workers[w0].cache ==> t in s.tasks && s.workers[w0].cache[t] == s.tasks[t].row.order
  }

  ghost predicate SoleState(s: Sys, w0: WorkerId) {
    && Exact(s, w0)
    && (forall w :: w in s.workers && w != w0 ==> s.workers[w].phase.Idle? || s.workers[w].phase.Halted?)
    && (forall t :: t in s.tasks ==> Current(s.tasks[t], Holder(s, t)))
  }

  lemma CurrentStep(cfg: Config, t: TaskId, v: View, c: Choice)
    requires Holds(v.worker.phase) == Some(t) && PhaseShape(v.rec, v.worker.phase) && Current(v.rec, Some(v.worker.phase))
    requires t in v.worker.cache ==> v.worker.cache[t] == v.rec.row.order
    ensures Current(LocalStep(cfg, v, c).rec, Held(LocalStep(cfg, v, c).worker.phase))
  {
    hide LocalStep, PhaseShape, Merged;
    JobStep(cfg, t, v, c);
    OrderStep(cfg, v, c, t);
  }

  lemma HolderIsSole(s: Sys, w0: WorkerId, w: WorkerId, t: TaskId)
    requires Structured(s) && SoleState(s, w0) && w in s.workers && t in s.tasks && Holds(s.workers[w].phase) == Some(t)
    ensures w == w0 && Holder(s, t) == Some(s.workers[w].phase) && PhaseShape(s.tasks[t], s.workers[w].phase)
    ensures Current(s.tasks[t], Some(s.workers[w].phase))
    ensures t in s.workers[w].cache ==> s.workers[w].cache[t] == s.tasks[t].row.order
  {
    hide CacheOk, PhaseShape, Current, Blank, BudgetMatches;
    HolderShape(s, w, t);
  }

  lemma CurrentTask(cfg: Config, s: Sys, a: Action, w0: WorkerId, t: TaskId)
    requires Structured(s) && SoleState(s, w0) && t in Next(cfg, s, a).tasks
    ensures var s' := Next(cfg, s, a); Current(s'.tasks[t], Holder(s', t))
  {
    hide LocalStep, CacheOk, Blank, TaskShape, Next, PhaseShape;
    Explained(cfg, s, a, t);
    match Cause(cfg, s, a, t)
    case Unmoved =>
    case Entered(o, at) =>
    case Taken(w, now, lease, snap) =>
    case Stepped(w, c) =>
      HolderIsSole(s, w0, w, t);
      CurrentStep(cfg, t, ViewOf(s, w, t), c);
    case Reported(w) =>
  }

  lemma SoleWork(cfg: Config, s: Sys, a: Action, w0: WorkerId)
    requires Structured(s) && SoleState(s, w0) && a.Work? && Enabled(cfg, s, a)
    ensures Exact(Next(cfg, s, a), w0) && a.w == w0
  {
    hide LocalStep, CacheOk, TaskShape, FirstClaimable, Claimable, Blank;
    assert a.w == w0;
    var p := s.workers[a.w].phase;
    var u := Subject(p).value;
    var v := ViewOf(s, a.w, u);
    if Holds(p).None? {
      UnheldStep(cfg, v, a.choice);
    } else {
      OrderStep(cfg, v, a.choice, u);
    }
  }

  lemma ExactRest(cfg: Config, s: Sys, a: Action, w0: WorkerId)
    requires Exact(s, w0) && !a.Work? && Enabled(cfg, s, a)
    ensures Exact(Next(cfg, s, a), w0)
  {
    hide Claimable, Blank;
    var s' := Next(cfg, s, a);
    if w0 in s'.workers {
      forall t | t in s'.workers[w0].cache ensures t in s'.tasks && s'.workers[w0].cache[t] == s'.tasks[t].row.order {
        assert t in s.workers[w0].cache ==> t in s.tasks;
      }
    }
  }

  lemma IdleRest(cfg: Config, s: Sys, a: Action, w: WorkerId)
    requires w in s.workers && !a.Work? && Enabled(cfg, s, a) && (a.Select? ==> a.w != w)
    requires s.workers[w].phase.Idle? || s.workers[w].phase.Halted?
    ensures Next(cfg, s, a).workers[w].phase.Idle? || Next(cfg, s, a).workers[w].phase.Halted?
  {
    hide Claimable, FirstClaimable, Blank;
  }

  lemma SoleRest(cfg: Config, s: Sys, a: Action, w0: WorkerId)
    requires SoleState(s, w0) && !a.Work? && Enabled(cfg, s, a)
    requires a.Scan? || a.Select? ==> a.w == w0
    ensures Exact(Next(cfg, s, a), w0)
    ensures var s' := Next(cfg, s, a);
            forall w :: w in s'.workers && w != w0 ==> s'.workers[w].phase.Idle? || s'.workers[w].phase.Halted?
  {
    hide Protocol.Apply, Exact;
    ExactRest(cfg, s, a, w0);
    SameWorkers(cfg, s, a);
    forall w | w in s.workers && w != w0 ensures Next(cfg, s, a).workers[w].phase.Idle? || Next(cfg, s, a).workers[w].phase.Halted? {
      IdleRest(cfg, s, a, w);
    }
  }

  lemma SoleStateStep(cfg: Config, s: Sys, a: Action, w0: WorkerId)
    requires ValidConfig(cfg) && Structured(s) && SoleState(s, w0)
    requires a.Scan? || a.Select? ==> a.w == w0
    ensures SoleState(Next(cfg, s, a), w0)
  {
    hide LocalStep, Structured, Current, FirstClaimable, Claimable, Blank, Exact;
    var s' := Next(cfg, s, a);
    forall t | t in s'.tasks ensures Current(s'.tasks[t], Holder(s', t)) {
      CurrentTask(cfg, s, a, w0, t);
    }
    if Enabled(cfg, s, a) {
      if a.Work? {
        SoleWork(cfg, s, a, w0);
      } else {
        SoleRest(cfg, s, a, w0);
      }
    }
  }

  lemma {:induction false} SoleAlways(cfg: Config, s0: Sys, acts: seq<Action>, w0: WorkerId)
    requires ValidConfig(cfg) && Initial(s0) && OnlyClaims(w0, acts)
    ensures Structured(Run(cfg, s0, acts)) && SoleState(Run(cfg, s0, acts), w0)
  {
    hide Structured, Next, Current;
    StructuredAlways(cfg, s0, acts);
    if acts != [] {
      var before := acts[..|acts| - 1];
      SoleAlways(cfg, s0, before, w0);
      SoleStateStep(cfg, Run(cfg, s0, before), acts[|acts| - 1], w0);
    }
  }

  lemma SoleIsInformed(s: Sys, a: Action, w0: WorkerId, t: TaskId)
    requires Structured(s) && SoleState(s, w0)
    ensures InformedPick(s, a, t)
  {
    hide Structured, Exact;
    if a.Work? && a.w in s.workers && t in s.tasks && Holds(s.workers[a.w].phase) == Some(t) {
      HolderIsSole(s, w0, a.w, t);
    }
  }

  /**
   With one claiming queue every implementer is picked from all the stored excludes; so the agents of a task's
   completed implementer attempts are pairwise distinct, and at most as many as registered agents. Every order that
   queue has cached is the stored one.
   */
  lemma NoRepeatImplementer(cfg: Config, s0: Sys, acts: seq<Action>, w0: WorkerId, t: TaskId)
    requires ValidConfig(cfg) && cfg.isolated && Initial(s0) && OnlyClaims(w0, acts) && t in Run(cfg, s0, acts).tasks
    ensures var s := Run(cfg, s0, acts); var agents := Implementers(s.tasks[t].attempts);
            && (forall j, k :: 0 <= j < k < |agents| ==> agents[j] != agents[k])
            && |agents| <= |cfg.profiles|
            && (w0 in s.workers && t in s.workers[w0].cache ==> s.workers[w0].cache[t] == s.tasks[t].row.order)
  {
    hide Structured, Run, Current, InformedPick, FreshPicks;
    SoleAlways(cfg, s0, acts, w0);
    forall n | 0 <= n < |acts| ensures InformedPick(Run(cfg, s0, acts[..n]), acts[n], t) {
      SoleAlways(cfg, s0, acts[..n], w0);
      SoleIsInformed(Run(cfg, s0, acts[..n]), acts[n], w0, t);
    }
    InformedPicksNeverRepeat(cfg, s0, acts, t);
  }
}
