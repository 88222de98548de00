/** Several steps of one worker on its task, and how they embed in a run of the whole system. */
module Traces {
  import opened Types
  import opened Protocol

  /** The view after a worker's own steps. */
  function Steps(cfg: Config, v: View, choices: seq<Choice>): View {
    if choices == [] then v
    else LocalStep(cfg, Steps(cfg, v, choices[..|choices| - 1]), choices[|choices| - 1])
  }

  function Works(w: WorkerId, choices: seq<Choice>): seq<Action> {
    seq(|choices|, (i: nat) requires i < |choices| => Work(w, choices[i]))
  }

  lemma {:induction false} StepsAppend(cfg: Config, v: View, xs: seq<Choice>, ys: seq<Choice>)
    ensures Steps(cfg, v, xs + ys) == Steps(cfg, Steps(cfg, v, xs), ys)
  {
    hide LocalStep;
    if ys == [] {
      assert xs + ys == xs;
    } else {
      var n := |ys| - 1;
      StepsAppend(cfg, v, xs, ys[..n]);
      assert (xs + ys)[..|xs| + n] == xs + ys[..n];
    }
  }

  lemma {:induction false} RunAppend(cfg: Config, s: Sys, xs: seq<Action>, ys: seq<Action>)
    ensures Run(cfg, s, xs + ys) == Run(cfg, Run(cfg, s, xs), ys)
  {
    hide Next;
    if ys == [] {
      assert xs + ys == xs;
    } else {
      var n := |ys| - 1;
      RunAppend(cfg, s, xs, ys[..n]);
      assert (xs + ys)[..|xs| + n] == xs + ys[..n];
    }
  }

  /** The worker stays with its task up to the last of its steps. */
  predicate Stays(cfg: Config, v: View, t: TaskId, choices: seq<Choice>) {
    forall k :: 0 <= k < |choices| ==> Subject(Steps(cfg, v, choices[..k]).worker.phase) == Some(t)
  }

  lemma PutSelf(s: Sys, w: WorkerId, t: TaskId)
    requires w in s.workers && t in s.tasks
    ensures Put(s, w, t, ViewOf(s, w, t)) == s
  {
    assert s.tasks[t := s.tasks[t]] == s.tasks;
    assert s.workers[w := s.workers[w]] == s.workers;
  }

  lemma PutTwice(s: Sys, w: WorkerId, t: TaskId, v: View, v': View)
    requires w in s.workers && t in s.tasks
    ensures ViewOf(Put(s, w, t, v), w, t) == v
    ensures Put(Put(s, w, t, v), w, t, v') == Put(s, w, t, v')
  {
    assert s.tasks[t := v.rec][t := v'.rec] == s.tasks[t := v'.rec];
    assert s.workers[w := v.worker][w := v'.worker] == s.workers[w := v'.worker];
  }

  /** With nobody else moving, a worker's steps are a run of the system. */
  lemma {:induction false} WorksRun(cfg: Config, s: Sys, w: WorkerId, t: TaskId, choices: seq<Choice>)
    requires w in s.workers && t in s.tasks
    requires Stays(cfg, ViewOf(s, w, t), t, choices)
    ensures Run(cfg, s, Works(w, choices)) == Put(s, w, t, Steps(cfg, ViewOf(s, w, t), choices))
  {
    hide LocalStep;
    if choices == [] {
      PutSelf(s, w, t);
    } else {
      var n := |choices| - 1;
      var v := ViewOf(s, w, t);
      assert forall k :: 0 <= k < n ==> choices[..n][..k] == choices[..k];
      WorksRun(cfg, s, w, t, choices[..n]);
      assert Works(w, choices)[..n] == Works(w, choices[..n]);
      var mid := Steps(cfg, v, choices[..n]);
      PutTwice(s, w, t, mid, LocalStep(cfg, mid, choices[n]));
    }
  }

  // ---- Walking one worker through its phases ----

  /** The choices `cs` lead from `v0` to `v`, with the worker on task `t` all along. */
  predicate Walk(cfg: Config, t: TaskId, v0: View, cs: seq<Choice>, v: View) {
    Steps(cfg, v0, cs) == v && Stays(cfg, v0, t, cs)
  }

  lemma WalkFrom(cfg: Config, t: TaskId, v0: View)
    ensures Walk(cfg, t, v0, [], v0)
  {
    hide LocalStep;
  }

  lemma WalkStep(cfg: Config, t: TaskId, v0: View, cs: seq<Choice>, v: View, c: Choice)
    requires Walk(cfg, t, v0, cs, v) && Subject(v.worker.phase) == Some(t)
    ensures Walk(cfg, t, v0, cs + [c], LocalStep(cfg, v, c))
  {
    hide LocalStep;
    var all := cs + [c];
    assert all[..|cs|] == cs;
    forall k | 0 <= k < |all| ensures Subject(Steps(cfg, v0, all[..k]).worker.phase) == Some(t) {
      if k < |cs| {
        assert all[..k] == cs[..k];
      }
    }
  }

  /** The step of each phase, by name. */
  lemma Dispatch(cfg: Config, v: View, c: Choice)
    ensures var p, v' := v.worker.phase, LocalStep(cfg, v, c);
            && (p.Begin? ==> v' == OnBegin(v, p, c))
            && (p.Reading? ==> v' == OnReading(v, p))
            && (p.Budgeting? ==> v' == v.To(if v.rec.budget.Some? then Syncing(p.job) else Inserting(p.job)))
            && (p.Inserting? ==> v' == OnInserting(v, p))
            && (p.Syncing? ==> v' == OnSyncing(v, p))
            && (p.Consulting? ==> v' == OnConsulting(v, p))
            && (p.Choosing? ==> v' == OnChoosing(cfg, v, p, c))
            && (p.Cleared? ==> v' == OnCleared(v, p, c))
            && (p.Charging? ==> v' == OnCharging(v, p))
            && (p.ChargeRead? ==> v' == OnChargeRead(v, p))
            && (p.Charged? ==> v' == OnCharged(v, p))
            && (p.Launching? ==> v' == OnLaunching(v, p, c))
            && (p.Starting? ==> v' == OnStarting(v, p, c))
            && (p.Executing? ==> v' == OnExecuting(v, p, c))
            && (p.Finished? ==> v' == OnFinished(v, p))
            && (p.Billing? ==> v' == OnBilling(v, p))
            && (p.BillRead? ==> v' == OnBillRead(v, p))
            && (p.BillWrite? ==> v' == OnBillWrite(cfg, v, p, c))
            && (p.Billed? ==> v' == OnBilled(v, p))
            && (p.Recording? ==> v' == OnRecording(v, p))
            && (p.Settling? ==> v' == v.To(Settle(p.job, p.agent, p.outcome, p.after)))
            && (p.Contexting? ==> v' == OnContexting(v, p))
            && (p.Packaging? ==> v' == OnPackaging(v, p))
            && (p.Excluding? ==> v' == OnExcluding(v, p))
            && (p.Addressing? ==> v' == OnAddressing(v, p))
            && (p.Releasing? ==> v' == OnReleasing(v, p))
            && (p.Reporting? ==> v' == OnReporting(v, p))
            && (p.Failing? ==> v' == OnFailing(v, p))
  {
    hide OnBegin, OnReading, OnInserting, OnSyncing, OnConsulting, OnChoosing, OnCleared, OnCharging, OnChargeRead,
         OnCharged, OnLaunching, OnStarting, OnExecuting, OnFinished, OnBilling, OnBillRead, OnBillWrite, OnBilled,
         OnRecording, Settle, OnContexting, OnPackaging, OnExcluding, OnAddressing, OnReleasing, OnReporting, OnFailing;
  }

  /** One more step of a walk. */
  lemma Advance(cfg: Config, t: TaskId, v0: View, cs: seq<Choice>, v: View, c: Choice) returns (cs': seq<Choice>, v': View)
    requires Walk(cfg, t, v0, cs, v) && Subject(v.worker.phase) == Some(t)
    ensures cs' == cs + [c] && v' == LocalStep(cfg, v, c) && Walk(cfg, t, v0, cs', v')
  {
    hide LocalStep;
    cs', v' := cs + [c], LocalStep(cfg, v, c);
    WalkStep(cfg, t, v0, cs, v, c);
  }
}
