/** What an agent's health says of its past: exactly which of its recorded runs failed for a provider's reason. */
module Strikes {
  import opened Types
  import opened Js
  import opened Events
  import opened Protocol
  import opened Shape
  import opened System
  import opened Story
  import opened Footprint
  import opened Safety
  import opened Effects

  predicate FailsFor(o: Outcome, r: FailReason) {
    (o.ImplementerFailed? || o.ReviewerFailed?) && o.reason == r
  }

  /** The attempt is completed, and its agent's registry entry has been told. */
  predicate Recorded(attempts: seq<Attempt>, hold: Option<Phase>, k: nat) {
    k < |attempts| && attempts[k].fate.Done? && !(k == |attempts| - 1 && hold.Some? && Unrecorded(hold.value))
  }

  /** A recorded run of the agent on this task failed for this reason. */
  predicate TaskStrike(rec: TaskRec, hold: Option<Phase>, a: AgentId, r: FailReason) {
    exists k :: 0 <= k < |rec.attempts| && Recorded(rec.attempts, hold, k)
                && rec.attempts[k].agent == a && FailsFor(rec.attempts[k].fate.outcome, r)
  }

  ghost predicate Strike(s: Sys, a: AgentId, r: FailReason) {
    exists t :: t in s.tasks && TaskStrike(s.tasks[t], Holder(s, t), a, r)
  }

  /** Depleted by an exhausted quota or a failed login; low by a rate limit alone. */
  ghost predicate HealthSays(s: Sys, a: AgentId) {
    var h := HealthOf(s.health, a);
    && (h.Depleted? <==> Strike(s, a, ProviderQuotaExhausted) || Strike(s, a, ProviderAuthFailed))
    && (h.Low? <==> !h.Depleted? && Strike(s, a, ProviderRateLimited))
  }

  /** The worker is about to record that its run failed for this reason. */
  predicate Striking(p: Phase, a: AgentId, r: FailReason) {
    p.Recording? && p.agent == a && FailsFor(p.outcome, r)
  }

  // ---- One step of the holder ----

  /** The attempts on record keep what they recorded, and the last one is added when it is recorded. */
  lemma StrikeStep(cfg: Config, t: TaskId, v: View, v': View, c: Choice, a: AgentId, r: FailReason)
    requires EndingMoves(v, v', c) && HistoryMoves(v, v') && Holds(v.worker.phase) == Some(t)
    requires TaskShape(v.rec, Some(v.worker.phase))
    ensures TaskStrike(v'.rec, Held(v'.worker.phase), a, r)
            <==> TaskStrike(v.rec, Some(v.worker.phase), a, r) || Striking(v.worker.phase, a, r)
  {
    hide CacheOk, BudgetMatches, RunMoves, FailsFor, StageMoves;
    var p, p' := v.worker.phase, v'.worker.phase;
    if p.ChargeRead? {
      StrikeLaunch(v, v', c, a, r);
    } else if Open(p) {
      StrikeRun(v, v', c, a, r);
    } else if p.Recording? {
      StrikeRecorded(v, v', c, a, r);
    } else {
      StrikeElse(v, v', c, a, r);
    }
  }

  lemma StrikeLaunch(v: View, v': View, c: Choice, a: AgentId, r: FailReason)
    requires EndingMoves(v, v', c) && AttemptsMove(v, v') && v.worker.phase.ChargeRead?
    ensures TaskStrike(v'.rec, Held(v'.worker.phase), a, r) <==> TaskStrike(v.rec, Some(v.worker.phase), a, r)
  {
    hide FailsFor;
    var attempts, attempts' := v.rec.attempts, v'.rec.attempts;
    assert forall k :: 0 <= k < |attempts| ==> attempts'[k] == attempts[k];
    if TaskStrike(v.rec, Some(v.worker.phase), a, r) {
      var k :| 0 <= k < |attempts| && Recorded(attempts, Some(v.worker.phase), k)
               && attempts[k].agent == a && FailsFor(attempts[k].fate.outcome, r);
      assert Recorded(attempts', Held(v'.worker.phase), k);
    }
    if TaskStrike(v'.rec, Held(v'.worker.phase), a, r) {
      var k :| 0 <= k < |attempts'| && Recorded(attempts', Held(v'.worker.phase), k)
               && attempts'[k].agent == a && FailsFor(attempts'[k].fate.outcome, r);
      assert Recorded(attempts, Some(v.worker.phase), k);
    }
  }

  lemma StrikeRun(v: View, v': View, c: Choice, a: AgentId, r: FailReason)
    requires EndingMoves(v, v', c) && AttemptsMove(v, v') && Open(v.worker.phase) && AttemptsOk(v.rec.attempts, true)
    ensures TaskStrike(v'.rec, Held(v'.worker.phase), a, r) <==> TaskStrike(v.rec, Some(v.worker.phase), a, r)
  {
    hide FailsFor, RunMoves;
    var attempts, attempts' := v.rec.attempts, v'.rec.attempts;
    assert |Front(attempts')| == |Front(attempts)|;
    assert forall k :: 0 <= k < |attempts| - 1 ==> attempts'[k] == Front(attempts')[k] == Front(attempts)[k] == attempts[k];
    if TaskStrike(v.rec, Some(v.worker.phase), a, r) {
      var k :| 0 <= k < |attempts| && Recorded(attempts, Some(v.worker.phase), k)
               && attempts[k].agent == a && FailsFor(attempts[k].fate.outcome, r);
      assert Recorded(attempts', Held(v'.worker.phase), k);
    }
    if TaskStrike(v'.rec, Held(v'.worker.phase), a, r) {
      var k :| 0 <= k < |attempts'| && Recorded(attempts', Held(v'.worker.phase), k)
               && attempts'[k].agent == a && FailsFor(attempts'[k].fate.outcome, r);
      assert Recorded(attempts, Some(v.worker.phase), k);
    }
  }

  lemma StrikeRecorded(v: View, v': View, c: Choice, a: AgentId, r: FailReason)
    requires EndingMoves(v, v', c) && AttemptsMove(v, v') && v.worker.phase.Recording? && PhaseShape(v.rec, v.worker.phase)
    ensures TaskStrike(v'.rec, Held(v'.worker.phase), a, r)
            <==> TaskStrike(v.rec, Some(v.worker.phase), a, r) || Striking(v.worker.phase, a, r)
  {
    hide FailsFor, CacheOk;
    var attempts := v.rec.attempts;
    var last := |attempts| - 1;
    assert v'.rec.attempts == attempts && v'.worker.phase.Settling?;
    assert Recorded(attempts, Held(v'.worker.phase), last);
    assert forall k :: 0 <= k < last ==> (Recorded(attempts, Held(v'.worker.phase), k) <==> Recorded(attempts, Some(v.worker.phase), k));
    assert attempts[last].agent == v.worker.phase.agent && attempts[last].fate.outcome == v.worker.phase.outcome;
  }

  lemma StrikeElse(v: View, v': View, c: Choice, a: AgentId, r: FailReason)
    requires EndingMoves(v, v', c) && v'.rec.attempts == v.rec.attempts
    requires !Open(v.worker.phase) && !v.worker.phase.Recording?
    ensures TaskStrike(v'.rec, Held(v'.worker.phase), a, r)
            <==> TaskStrike(v.rec, Some(v.worker.phase), a, r) || Striking(v.worker.phase, a, r)
  {
    hide FailsFor;
    assert Unrecorded(v'.worker.phase) <==> Unrecorded(v.worker.phase);
    assert forall k :: Recorded(v.rec.attempts, Held(v'.worker.phase), k) <==> Recorded(v.rec.attempts, Some(v.worker.phase), k);
  }

  // ---- Every reachable state ----

  lemma StrikeTask(cfg: Config, s: Sys, a: Action, t: TaskId, x: AgentId, r: FailReason)
    requires Structured(s) && t in Next(cfg, s, a).tasks
    ensures var s' := Next(cfg, s, a);
            TaskStrike(s'.tasks[t], Holder(s', t), x, r)
            <==> (t in s.tasks && TaskStrike(s.tasks[t], Holder(s, t), x, r)) || Struck(cfg, s, a, t, x, r)
  {
    hide LocalStep, CacheOk, Blank, Next, TaskShape, TaskStrike, Striking, FreshRec, Structured, Holder;
    ExplainedHere(cfg, s, a, t);
    match Cause(cfg, s, a, t)
    case Unmoved => NotStruck(cfg, s, a, t, x, r);
    case Entered(o, at) => FreshStrike(o, at, t, x, r);
    case Taken(w, now, lease, snap) => SameStrikes(s.tasks[t], Next(cfg, s, a).tasks[t], None, Some(Begin(t, snap)), x, r);
    case Stepped(w, c) => StrikeStepped(cfg, s, a, t, x, r);
    case Reported(w) => SameStrikes(s.tasks[t], Next(cfg, s, a).tasks[t], Holder(s, t), Holder(s, t), x, r);
  }

  lemma StrikeStepped(cfg: Config, s: Sys, a: Action, t: TaskId, x: AgentId, r: FailReason)
    requires Structured(s) && t in Next(cfg, s, a).tasks && Cause(cfg, s, a, t).Stepped?
    requires Explains(cfg, s, Next(cfg, s, a), t, Cause(cfg, s, a, t))
    ensures var s' := Next(cfg, s, a);
            t in s.tasks
            && (TaskStrike(s'.tasks[t], Holder(s', t), x, r)
                <==> TaskStrike(s.tasks[t], Holder(s, t), x, r) || Struck(cfg, s, a, t, x, r))
  {
    hide LocalStep, CacheOk, Blank, Next, PhaseShape, BudgetMatches, TaskStrike, Striking;
    var Stepped(w, c) := Cause(cfg, s, a, t);
    HolderShape(s, w, t);
    EffectStep(cfg, t, ViewOf(s, w, t), c);
    HistoryStep(cfg, ViewOf(s, w, t), c);
    StrikeStep(cfg, t, ViewOf(s, w, t), LocalStep(cfg, ViewOf(s, w, t), c), c, x, r);
  }

  /** This action records the failure. */
  predicate Struck(cfg: Config, s: Sys, a: Action, t: TaskId, x: AgentId, r: FailReason) {
    a.Work? && a.w in s.workers && t in s.tasks && Holds(s.workers[a.w].phase) == Some(t) && Striking(s.workers[a.w].phase, x, r)
  }

  lemma NotStruck(cfg: Config, s: Sys, a: Action, t: TaskId, x: AgentId, r: FailReason)
    requires Structured(s) && t in Next(cfg, s, a).tasks && Cause(cfg, s, a, t).Unmoved?
    ensures !Struck(cfg, s, a, t, x, r)
  {
    hide LocalStep, TaskShape, CacheOk, Blank, FailsFor, FirstClaimable;
  }

  lemma FreshStrike(o: WorkOrder, at: int, t: TaskId, x: AgentId, r: FailReason)
    ensures !TaskStrike(FreshRec(o, at, [Enqueued(t)]), None, x, r)
  {
  }

  lemma SameStrikes(rec: TaskRec, rec': TaskRec, hold: Option<Phase>, hold': Option<Phase>, x: AgentId, r: FailReason)
    requires rec'.attempts == rec.attempts
    requires (hold.Some? && Unrecorded(hold.value)) == (hold'.Some? && Unrecorded(hold'.value))
    ensures TaskStrike(rec', hold', x, r) <==> TaskStrike(rec, hold, x, r)
  {
    hide FailsFor;
    assert forall k :: Recorded(rec.attempts, hold', k) <==> Recorded(rec.attempts, hold, k);
  }

  /** A strike is on record if it was before, or if this action records it. */
  lemma StrikesGrow(cfg: Config, s: Sys, a: Action, x: AgentId, r: FailReason)
    requires Structured(s)
    ensures Strike(Next(cfg, s, a), x, r) <==> Strike(s, x, r) || exists t :: Struck(cfg, s, a, t, x, r)
  {
    hide Structured, Next, TaskStrike, Struck;
    var s' := Next(cfg, s, a);
    forall t | t in s'.tasks
      ensures TaskStrike(s'.tasks[t], Holder(s', t), x, r)
              <==> (t in s.tasks && TaskStrike(s.tasks[t], Holder(s, t), x, r)) || Struck(cfg, s, a, t, x, r)
    {
      StrikeTask(cfg, s, a, t, x, r);
    }
    forall t | t in s.tasks ensures t in s'.tasks {
      TasksStay(cfg, s, a, t);
    }
    if t :| Struck(cfg, s, a, t, x, r) {
      StruckTask(cfg, s, a, t, x, r);
    }
  }

  lemma StruckTask(cfg: Config, s: Sys, a: Action, t: TaskId, x: AgentId, r: FailReason)
    requires Struck(cfg, s, a, t, x, r)
    ensures t in s.tasks
  {
  }

  /** What recording an outcome does to the health of an agent. */
  lemma RecordingHealth(v: View, p: Phase, x: AgentId)
    requires p == v.worker.phase && p.Recording?
    ensures var h, h' := HealthOf(v.health, x), HealthOf(OnRecording(v, p).health, x);
            && (h'.Depleted? <==> h.Depleted? || Striking(p, x, ProviderQuotaExhausted) || Striking(p, x, ProviderAuthFailed))
            && (h'.Low? <==> !h'.Depleted? && (h.Low? || Striking(p, x, ProviderRateLimited)))
  {
    hide AgentAlarm;
  }

  lemma HealthSaysStep(cfg: Config, s: Sys, a: Action, x: AgentId)
    requires Structured(s) && HealthSays(s, x)
    ensures HealthSays(Next(cfg, s, a), x)
  {
    hide Structured, Next, Strike, HealthOf, Striking;
    StrikesGrow(cfg, s, a, x, ProviderQuotaExhausted);
    StrikesGrow(cfg, s, a, x, ProviderAuthFailed);
    StrikesGrow(cfg, s, a, x, ProviderRateLimited);
    HealthChange(cfg, s, a, x);
  }

  /** The health of an agent after an action, in terms of the failure that the action records. */
  lemma HealthChange(cfg: Config, s: Sys, a: Action, x: AgentId)
    requires Structured(s)
    ensures var h, h' := HealthOf(s.health, x), HealthOf(Next(cfg, s, a).health, x);
            && (h'.Depleted? <==> h.Depleted? || (exists t :: Struck(cfg, s, a, t, x, ProviderQuotaExhausted))
                                  || (exists t :: Struck(cfg, s, a, t, x, ProviderAuthFailed)))
            && (h'.Low? <==> !h'.Depleted? && (h.Low? || exists t :: Struck(cfg, s, a, t, x, ProviderRateLimited)))
  {
    hide LocalStep, CacheOk, Blank, TaskShape, HealthOf, FirstClaimable, FailsFor, Claimable;
    if a.Work? && Enabled(cfg, s, a) && Holds(s.workers[a.w].phase).Some? {
      var t := Holds(s.workers[a.w].phase).value;
      var v := ViewOf(s, a.w, t);
      HeldShape(s, a.w, t);
      EffectStep(cfg, t, v, a.choice);
      if v.worker.phase.Recording? {
        RecordingStep(cfg, v, a.choice);
        RecordingHealth(v, v.worker.phase, x);
        assert forall r :: Striking(v.worker.phase, x, r) ==> Struck(cfg, s, a, t, x, r);
      }
    } else if a.Work? && Enabled(cfg, s, a) {
      UnheldStep(cfg, ViewOf(s, a.w, Subject(s.workers[a.w].phase).value), a.choice);
    }
  }

  lemma RecordingStep(cfg: Config, v: View, c: Choice)
    requires v.worker.phase.Recording?
    ensures LocalStep(cfg, v, c) == OnRecording(v, v.worker.phase)
  {
    hide OnRecording;
  }

  /**
   For any history of any number of workers: an agent is depleted if and only if a recorded run of it failed for an
   exhausted quota or a failed login, and low if and only if it is not depleted and one was rate limited.
   */
  lemma {:induction false} HealthExact(cfg: Config, s0: Sys, acts: seq<Action>, a: AgentId)
    requires ValidConfig(cfg) && Initial(s0)
    ensures var s := Run(cfg, s0, acts); var h := HealthOf(s.health, a);
            && (h.Depleted? <==> Strike(s, a, ProviderQuotaExhausted) || Strike(s, a, ProviderAuthFailed))
            && (h.Low? <==> !h.Depleted? && Strike(s, a, ProviderRateLimited))
  {
    hide Structured, Next, Strike, HealthOf;
    if acts == [] {
      NoStrikes(s0, a);
    } else {
      var before := acts[..|acts| - 1];
      HealthExact(cfg, s0, before, a);
      StructuredAlways(cfg, s0, before);
      HealthSaysStep(cfg, Run(cfg, s0, before), acts[|acts| - 1], a);
    }
  }

  lemma NoStrikes(s0: Sys, a: AgentId)
    requires Initial(s0)
    ensures HealthOf(s0.health, a).Healthy? && forall r :: !Strike(s0, a, r)
  {
  }
}
