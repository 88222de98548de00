/** Provider health, shared by every worker: it only worsens, each level rings once, and a depleted agent is never picked. */
module HealthLaws {
  import opened Types
  import opened Js
  import opened Budgets
  import opened Events
  import opened Runs
  import opened Handoffs
  import opened Protocol
  import opened Shape
  import opened System
  import opened StorySteps
  import opened Announcements

  /** The part of the state that the registry's provider failures change. */
  predicate SameHealth(v: View, v': View) {
    v'.health == v.health && v'.agentAlarms == v.agentAlarms
  }

  lemma HealthEarly(cfg: Config, v: View, p: Phase, c: Choice)
    requires p == v.worker.phase
    requires p.Begin? || p.Reading? || p.Budgeting? || p.Inserting? || p.Syncing? || p.Consulting? || p.Cleared?
             || p.Charging? || p.ChargeRead? || p.Choosing?
    ensures SameHealth(v, LocalStep(cfg, v, c))
  {
    hide DecisionAt, DispatchedEvent, RefusalPhase, PreLaunched, SyncEmitted, Settle, OnExecuting, OnStarting, OnLaunching, Transition;
  }

  lemma HealthRun(v: View, p: Phase, c: Choice)
    requires p == v.worker.phase
    ensures p.Launching? ==> SameHealth(v, OnLaunching(v, p, c))
    ensures p.Starting? ==> SameHealth(v, OnStarting(v, p, c))
    ensures p.Executing? ==> SameHealth(v, OnExecuting(v, p, c))
    ensures p.Charged? ==> SameHealth(v, OnCharged(v, p))
    ensures p.Billed? ==> SameHealth(v, OnBilled(v, p))
  {
    hide CreationEvents, StartEvents, CreationFailure, Execute, PickAxis, TaskAlarm;
  }

  lemma HealthLate(cfg: Config, v: View, p: Phase, c: Choice)
    requires p == v.worker.phase
    requires p.Finished? || p.Billing? || p.BillRead? || p.BillWrite? || p.Settling? || HasPlan(p) || p.Reporting? || p.Failing?
             || p.Idle? || p.Halted? || p.Selected?
    ensures SameHealth(v, LocalStep(cfg, v, c))
  {
    hide PostRan, CostOf, Settle, Merged, OnChoosing, OnExecuting, OnStarting, OnLaunching, Transition;
  }

  /** Only recording a provider failure touches health, and only to worsen it. */
  lemma HealthStep(cfg: Config, v: View, c: Choice)
    ensures var v' := LocalStep(cfg, v, c);
            SameHealth(v, v') || Worsens(v, v')
  {
    hide OnBegin, OnReading, OnInserting, OnSyncing, OnConsulting, OnChoosing, OnCleared, OnCharging, OnChargeRead,
         OnCharged, OnLaunching, OnStarting, OnExecuting, OnFinished, OnBilling, OnBillRead, OnBillWrite, OnBilled,
         OnRecording, Settle, OnContexting, OnPackaging, OnExcluding, OnAddressing, OnReleasing, OnReporting, OnFailing,
         Worsens;
    var p := v.worker.phase;
    if p.Recording? {
      HealthRecording(v, p);
    } else if p.Charged? || p.Launching? || p.Starting? || p.Executing? || p.Billed? {
      HealthRun(v, p, c);
    } else if p.Begin? || p.Reading? || p.Budgeting? || p.Inserting? || p.Syncing? || p.Consulting? || p.Cleared?
              || p.Charging? || p.ChargeRead? || p.Choosing? {
      HealthEarly(cfg, v, p, c);
    } else {
      HealthLate(cfg, v, p, c);
    }
  }

  lemma HealthRecording(v: View, p: Phase)
    requires p == v.worker.phase && p.Recording?
    ensures SameHealth(v, OnRecording(v, p)) || Worsens(v, OnRecording(v, p))
  {
    hide AgentAlarm;
  }

  /** The agent's health drops a level and the alarm of the new level is appended. */
  predicate Worsens(v: View, v': View) {
    var p := v.worker.phase;
    && p.Recording? && p.agent in v'.health
    && v'.health == v.health[p.agent := v'.health[p.agent]]
    && HealthOf(v.health, p.agent).Rank() < v'.health[p.agent].Rank()
    && v'.agentAlarms == v.agentAlarms + [AgentAlarm(AlarmKind(v'.health[p.agent]), p.agent, p.outcome.run)]
  }

  /** The alarms that name the agent, in order. */
  function RingsOf(alarms: seq<Event>, a: AgentId): seq<Event> {
    if alarms == [] then []
    else RingsOf(alarms[..|alarms| - 1], a) + if alarms[|alarms| - 1].agent == Some(a) then [alarms[|alarms| - 1]] else []
  }

  predicate HealthRung(rings: seq<Event>, h: Health) {
    match h
    case Healthy => rings == []
    case Low => |rings| == 1 && rings[0].kind.QuotaLow?
    case Depleted =>
      || (|rings| == 1 && rings[0].kind.QuotaExhaustedAlarm?)
      || (|rings| == 2 && rings[0].kind.QuotaLow? && rings[1].kind.QuotaExhaustedAlarm?)
  }

  predicate HealthOk(health: map<AgentId, Health>, alarms: seq<Event>, a: AgentId) {
    HealthRung(RingsOf(alarms, a), HealthOf(health, a))
  }

  ghost predicate Ailing(s: Sys) {
    && (forall a :: HealthOk(s.health, s.agentAlarms, a))
    && (forall i :: 0 <= i < |s.agentAlarms| ==> Accepts(s.agentAlarms[i]))
  }

  lemma RingsSnoc(alarms: seq<Event>, e: Event, a: AgentId)
    ensures RingsOf(alarms + [e], a) == RingsOf(alarms, a) + if e.agent == Some(a) then [e] else []
  {
    assert (alarms + [e])[..|alarms|] == alarms;
  }

  /** A rung worse than the one before is reached by one more ring. */
  lemma RungRung(rings: seq<Event>, h: Health, h': Health, e: Event)
    requires HealthRung(rings, h) && h.Rank() < h'.Rank() && e.kind == AlarmKind(h')
    ensures HealthRung(rings + [e], h')
  {
  }

  lemma WorsensOk(v: View, v': View, a: AgentId)
    requires Worsens(v, v') && HealthOk(v.health, v.agentAlarms, a)
    ensures HealthOk(v'.health, v'.agentAlarms, a)
    ensures HealthOf(v.health, a).Rank() <= HealthOf(v'.health, a).Rank()
  {
    hide HealthRung, RingsOf;
    var agent := v.worker.phase.agent;
    var e := AgentAlarm(AlarmKind(v'.health[agent]), agent, v.worker.phase.outcome.run);
    RingsSnoc(v.agentAlarms, e, a);
    if a == agent {
      RungRung(RingsOf(v.agentAlarms, a), HealthOf(v.health, a), v'.health[a], e);
    } else {
      assert RingsOf(v.agentAlarms, a) + [] == RingsOf(v.agentAlarms, a);
    }
  }

  lemma AgentAlarmAccepted(k: Kind, a: AgentId, r: RunId)
    requires !Blank(a) && (k.QuotaLow? || k.QuotaExhaustedAlarm?)
    ensures Accepts(AgentAlarm(k, a, r))
  {
    hide Blank;
  }

  /** How health may move in one action of the system. */
  ghost predicate HealthMoves(s: Sys, s': Sys) {
    || (s'.health == s.health && s'.agentAlarms == s.agentAlarms)
    || exists w, t, v' :: w in s.workers && t in s.tasks && Worsens(ViewOf(s, w, t), v')
                          && s'.health == v'.health && s'.agentAlarms == v'.agentAlarms
  }

  lemma HealthMovesStep(cfg: Config, s: Sys, a: Action)
    ensures HealthMoves(s, Next(cfg, s, a))
  {
    hide LocalStep, Worsens, FirstClaimable, Claimable;
    if Enabled(cfg, s, a) && a.Work? {
      var t := Subject(s.workers[a.w].phase).value;
      HealthStep(cfg, ViewOf(s, a.w, t), a.choice);
      var v' := LocalStep(cfg, ViewOf(s, a.w, t), a.choice);
      assert Worsens(ViewOf(s, a.w, t), v') ==> HealthMoves(s, Next(cfg, s, a));
    }
  }

  lemma AilingStep(cfg: Config, s: Sys, a: Action)
    requires Spoken(s) && Ailing(s)
    ensures Ailing(Next(cfg, s, a))
    ensures forall x :: HealthOf(s.health, x).Rank() <= HealthOf(Next(cfg, s, a).health, x).Rank()
  {
    hide LocalStep, Worsens, HealthOk, Next, Accepts, Announced, HealthOf;
    var s' := Next(cfg, s, a);
    HealthMovesStep(cfg, s, a);
    if !(s'.health == s.health && s'.agentAlarms == s.agentAlarms) {
      var w, t, v' :| w in s.workers && t in s.tasks && Worsens(ViewOf(s, w, t), v')
                      && s'.health == v'.health && s'.agentAlarms == v'.agentAlarms;
      forall x ensures HealthOk(s'.health, s'.agentAlarms, x) && HealthOf(s.health, x).Rank() <= HealthOf(s'.health, x).Rank() {
        WorsensOk(ViewOf(s, w, t), v', x);
      }
      assert PhaseNamed(s.workers[w].phase);
      WorsenedAlarm(ViewOf(s, w, t), v');
    }
  }

  lemma WorsenedAlarm(v: View, v': View)
    requires Worsens(v, v') && PhaseNamed(v.worker.phase)
    ensures v'.agentAlarms == v.agentAlarms + [v'.agentAlarms[|v.agentAlarms|]] && Accepts(v'.agentAlarms[|v.agentAlarms|])
  {
    hide Accepts, AgentAlarm, Blank;
    var p := v.worker.phase;
    AgentAlarmAccepted(AlarmKind(v'.health[p.agent]), p.agent, p.outcome.run);
  }

  lemma {:induction false} AilingAlways(cfg: Config, s0: Sys, acts: seq<Action>)
    requires ValidConfig(cfg) && Initial(s0)
    ensures Ailing(Run(cfg, s0, acts))
  {
    hide Structured, Spoken, Next, Accepts;
    SpokenAlways(cfg, s0, acts);
    if acts != [] {
      var before := acts[..|acts| - 1];
      AilingAlways(cfg, s0, before);
      SpokenAlways(cfg, s0, before);
      AilingStep(cfg, Run(cfg, s0, before), acts[|acts| - 1]);
    }
  }

  /** Each level of an agent's health has rung once, across all registries sharing the map, and passes validation. */
  lemma AgentAlarmsOnce(cfg: Config, s0: Sys, acts: seq<Action>, a: AgentId)
    requires ValidConfig(cfg) && Initial(s0)
    ensures var s := Run(cfg, s0, acts); var rings := RingsOf(s.agentAlarms, a); var h := HealthOf(s.health, a);
            && (h.Healthy? <==> rings == [])
            && (h.Low? <==> |rings| == 1 && rings[0].kind.QuotaLow?)
            && (h.Depleted? <==>
                  || (|rings| == 1 && rings[0].kind.QuotaExhaustedAlarm?)
                  || (|rings| == 2 && rings[0].kind.QuotaLow? && rings[1].kind.QuotaExhaustedAlarm?))
            && (forall i :: 0 <= i < |s.agentAlarms| ==> Accepts(s.agentAlarms[i]))
  {
    hide Run, Accepts;
    AilingAlways(cfg, s0, acts);
    assert HealthOk(Run(cfg, s0, acts).health, Run(cfg, s0, acts).agentAlarms, a);
  }

  /** Health never recovers. */
  lemma {:induction false} HealthMonotone(cfg: Config, s0: Sys, acts: seq<Action>, later: seq<Action>, a: AgentId)
    requires ValidConfig(cfg) && Initial(s0)
    ensures HealthOf(Run(cfg, s0, acts).health, a).Rank() <= HealthOf(Run(cfg, s0, acts + later).health, a).Rank()
  {
    hide Structured, Spoken, Next, Ailing, HealthOf;
    if later == [] {
      assert acts + later == acts;
    } else {
      var n := |later| - 1;
      var all := acts + later;
      assert all[..|all| - 1] == acts + later[..n] && all[|all| - 1] == later[n];
      HealthMonotone(cfg, s0, acts, later[..n], a);
      SpokenAlways(cfg, s0, acts + later[..n]);
      AilingAlways(cfg, s0, acts + later[..n]);
      AilingStep(cfg, Run(cfg, s0, acts + later[..n]), later[n]);
    }
  }

  /** Once an agent is depleted, no later decision of any worker picks it, whatever the metrics. */
  lemma DepletedNeverPicked(cfg: Config, s0: Sys, acts: seq<Action>, later: seq<Action>, a: AgentId, w: WorkerId,
                            metrics: map<AgentId, Metrics>)
    requires ValidConfig(cfg) && Initial(s0) && HealthOf(Run(cfg, s0, acts).health, a).Depleted?
    requires w in Run(cfg, s0, acts + later).workers && Run(cfg, s0, acts + later).workers[w].phase.Choosing?
    requires Run(cfg, s0, acts + later).workers[w].phase.job.task in Run(cfg, s0, acts + later).tasks
    ensures var s := Run(cfg, s0, acts + later); var p := s.workers[w].phase;
            DecisionAt(cfg, ViewOf(s, w, p.job.task), p, metrics).picked != Some(a)
  {
    hide Run, DecisionAt, HealthOf;
    HealthMonotone(cfg, s0, acts, later, a);
    var s := Run(cfg, s0, acts + later);
    var p := s.workers[w].phase;
    var v := ViewOf(s, w, p.job.task);
    assert HealthOf(v.health, a).Depleted?;
    if DecisionAt(cfg, v, p, metrics).picked.Some? {
      ChosenAgent(cfg, v, p, metrics);
    }
  }
}
