/** One run as it happens: rows, artifacts and events written in sequence, with early returns and catch handlers. */
module Orchestrator {
  import opened Types
  import opened Js
  import opened Events
  import opened Runs
  import opened Ledger
  import opened Tables
  import opened Stores

  lemma PublishedMore(c: Context, n: nat)
    ensures c.Published(n + 1) == c.Published(n) + [c.Happened(ArtifactPublished)]
  {
  }

  class Runner {
    const runs: SqliteRunStore
    const log: SqliteEventLog

    constructor (runs: SqliteRunStore, log: SqliteEventLog)
      ensures this.runs == runs && this.log == log
    {
      this.runs, this.log := runs, log;
    }

    /** Appends an event that validation accepts. */
    method AppendEvent(e: Event)
      requires Accepts(e)
      modifies log.db`events
      ensures log.db.events == old(log.db.events) + [e]
    {
      var ok := log.Append(e);
    }

    method Say(c: Context, k: Kind)
      requires NamedContext(c)
      requires k.ArtifactPublished? || k.VerificationStarted? || k.VerificationPassed? || k.VerificationDidFail?
               || k.RunCompleted? || k.ReviewRequested? || k.RunCreated? || k.RunStarted?
      modifies log.db`events
      ensures log.db.events == old(log.db.events) + [c.Happened(k)]
    {
      hide Blank, Accepts;
      RunEventFine(c, k);
      AppendEvent(c.Happened(k));
    }

    method SaySpawned(c: Context)
      requires NamedContext(c)
      modifies log.db`events
      ensures log.db.events == old(log.db.events) + [Spawned(c.task, c.run, c.agent)]
    {
      hide Blank, Accepts;
      SpawnedFine(c);
      AppendEvent(Spawned(c.task, c.run, c.agent));
    }

    method SayEdge(c: Context, source: string, target: string, reason: string)
      requires NamedContext(c) && source != "" && target != "" && reason != ""
      requires !IsSpace(source[0]) && !IsSpace(target[0]) && !IsSpace(reason[0])
      modifies log.db`events
      ensures log.db.events == old(log.db.events) + [EdgeSelected(c.task, c.run, c.agent, source, target, reason)]
    {
      hide Blank, Accepts;
      EdgeFine(c, source, target, reason);
      AppendEvent(EdgeSelected(c.task, c.run, c.agent, source, target, reason));
    }

    /** Saves artifact number `k` and publishes it, unless saving throws. */
    method SaveArtifact(c: Context, failAt: Option<nat>, k: nat) returns (saved: bool)
      requires NamedContext(c)
      modifies log.db`events
      ensures saved == (failAt != Some(k))
      ensures log.db.events == old(log.db.events) + if saved then [c.Happened(ArtifactPublished)] else []
    {
      if failAt == Some(k) {
        return false;
      }
      Say(c, ArtifactPublished);
      saved := true;
    }

    /** Writes the run's final status, then its ending event. */
    method FinishRun(c: Context, reason: Option<FailReason>)
      requires NamedContext(c) && c.run in runs.db.runs && (reason.Some? ==> RunFailedReason(reason.value))
      modifies runs.db`runs, log.db`events
      ensures runs.db.runs == old(runs.db.runs)[c.run := old(runs.db.runs)[c.run].(status := if reason.Some? then RunFailed else RunSucceeded)]
      ensures log.db.events == old(log.db.events)
                + [if reason.Some? then RunFailure(c.task, c.run, c.agent, reason.value) else c.Happened(RunCompleted)]
    {
      hide Blank, Accepts;
      var ok := runs.UpdateStatus(c.run, if reason.Some? then RunFailed else RunSucceeded);
      if reason.Some? {
        FailureFine(c, reason.value);
        AppendEvent(RunFailure(c.task, c.run, c.agent, reason.value));
      } else {
        Say(c, RunCompleted);
      }
    }

    /** Cancels a run that has not ended. */
    method CancelInterruptedRun(c: Context)
      modifies runs.db`runs
      ensures runs.db.runs ==
                if c.run in old(runs.db.runs)
                   && (old(runs.db.runs)[c.run].status.Preparing? || old(runs.db.runs)[c.run].status.Running?)
                then old(runs.db.runs)[c.run := old(runs.db.runs)[c.run].(status := RunCancelled)] else old(runs.db.runs)
    {
      if c.run !in runs.db.runs {
        return;
      }
      var status := runs.db.runs[c.run].status;
      if !status.Preparing? && !status.Running? {
        return;
      }
      var ok := runs.UpdateStatus(c.run, RunCancelled);
    }

    /** Creates the run row under a fresh id, then prepares the workspace; a failure there ends the run. */
    method CreateRunContext(c: Context, role: Role, prepared: bool)
      requires NamedContext(c) && c.run !in runs.db.runs
      modifies runs.db`runs, log.db`events
      ensures runs.db.runs == old(runs.db.runs)[c.run := RunRecord(c.task, c.agent, role, if prepared then Running else RunFailed)]
      ensures log.db.events == old(log.db.events) + CreationEvents(c, role)
                + if prepared then StartEvents(c) else CreationFailure(c, role).events
    {
      hide Blank, Accepts;
      CreationFine(c, role);
      var ok := runs.Create(c.run, RunRecord(c.task, c.agent, role, Preparing));
      assert Fine(CreationEvents(c, role)[0]);
      AppendEvent(Assigned(c.task, c.run, c.agent, role));
      Say(c, RunCreated);
      if prepared {
        Say(c, ArtifactPublished);
        ok := runs.UpdateStatus(c.run, Running);
        Say(c, RunStarted);
      } else {
        ok := runs.UpdateStatus(c.run, RunFailed);
        assert Fine(CreationFailure(c, role).events[0]);
        AppendEvent(RunFailure(c.task, c.run, c.agent, InternalError));
      }
    }

    // ---- Implementer ----

    /** Ends an implementer run in failure. */
    method FailImplementer(c: Context, reason: FailReason, diff: Option<Uri>, verification: Option<Uri>) returns (r: Result)
      requires NamedContext(c) && c.run in runs.db.runs && RunFailedReason(reason)
      modifies runs.db`runs, log.db`events
      ensures runs.db.runs == old(runs.db.runs)[c.run := old(runs.db.runs)[c.run].(status := RunFailed)]
      ensures log.db.events == old(log.db.events) + [RunFailure(c.task, c.run, c.agent, reason)]
      ensures r == Returned(ImplementerFailed(c.run, reason, diff, verification))
    {
      FinishRun(c, Some(reason));
      r := Returned(ImplementerFailed(c.run, reason, diff, verification));
    }

    /** The artifacts saved after the agent exited; how many were saved, and whether one threw. */
    method SaveAgentArtifacts(c: Context, env: ImplementerEnv) returns (saved: nat, threw: bool)
      requires NamedContext(c)
      modifies log.db`events
      ensures var n := AgentSaves(env.hasReport);
              && threw == (env.failAt.Some? && env.failAt.value < n)
              && saved == (if threw then env.failAt.value else n)
              && log.db.events == old(log.db.events) + c.Published(saved)
    {
      hide NamedContext;
      saved := 0;
      var ok := SaveArtifact(c, env.failAt, 0);
      if !ok { return 0, true; }
      PublishedMore(c, 0);
      ok := SaveArtifact(c, env.failAt, 1);
      if !ok { return 1, true; }
      PublishedMore(c, 1);
      ok := SaveArtifact(c, env.failAt, 2);
      if !ok { return 2, true; }
      PublishedMore(c, 2);
      saved := 3;
      if env.hasReport {
        ok := SaveArtifact(c, env.failAt, 3);
        if !ok { return 3, true; }
        PublishedMore(c, 3);
        saved := 4;
      }
      ok := SaveArtifact(c, env.failAt, saved);
      if !ok { return saved, true; }
      PublishedMore(c, saved);
      return saved + 1, false;
    }

    /** The agent's own failure; else verification, when the order has commands; and the end of the run. */
    method VerifyAndFinish(c: Context, o: WorkOrder, env: ImplementerEnv, failure: Option<FailReason>) returns (r: Result)
      requires NamedContext(c) && c.run in runs.db.runs && (failure.Some? ==> RunFailedReason(failure.value))
      modifies runs.db`runs, log.db`events
      ensures var f := AfterAgent(c, o, env, [], failure);
              && r == f.result
              && log.db.events == old(log.db.events) + f.events
              && runs.db.runs == (if r.Aborted? then old(runs.db.runs)
                                  else old(runs.db.runs)[c.run := old(runs.db.runs)[c.run].(status := f.status)])
    {
      hide NamedContext;
      var diff := Some(c.File("diff.patch"));
      var report := if env.hasReport then Some(c.File("final_report.md")) else None;
      var verification := None;
      if failure.Some? {
        r := FailImplementer(c, failure.value, diff, None);
        return;
      }
      if o.commands != [] {
        Say(c, VerificationStarted);
        if env.verifier.VerifierAborts? {
          return Aborted;
        }
        if env.verifier.VerifierThrows? {
          r := FailImplementer(c, InternalError, diff, None);
          return;
        }
        var saved := SaveArtifact(c, env.failAt, AgentSaves(env.hasReport));
        if !saved {
          r := FailImplementer(c, InternalError, diff, None);
          return;
        }
        verification := Some(c.File("verification.txt"));
        Say(c, if env.verifier.VerifierPassed? then VerificationPassed else VerificationDidFail);
        if !env.verifier.VerifierPassed? {
          r := FailImplementer(c, VerificationFailed, diff, verification);
          return;
        }
      }
      FinishImplementer(c, o);
      r := Returned(ImplementerSucceeded(c.run, c.File("diff.patch"), verification, report));
    }

    method FinishImplementer(c: Context, o: WorkOrder)
      requires NamedContext(c) && c.run in runs.db.runs
      modifies runs.db`runs, log.db`events
      ensures runs.db.runs == old(runs.db.runs)[c.run := old(runs.db.runs)[c.run].(status := RunSucceeded)]
      ensures log.db.events == old(log.db.events)
                + [c.Happened(RunCompleted),
                   EdgeSelected(c.task, c.run, c.agent, "verifying",
                                if o.reviewEnabled then "reviewing" else "accepted",
                                if o.reviewEnabled then "review_required" else "review_disabled")]
    {
      hide NamedContext;
      FinishRun(c, None);
      SayEdge(c, "verifying", if o.reviewEnabled then "reviewing" else "accepted",
              if o.reviewEnabled then "review_required" else "review_disabled");
    }

    /** An abort leaves the row to the caller; every other path ends the run. */
    method RunImplementerOnce(c: Context, o: WorkOrder, env: ImplementerEnv) returns (r: Result)
      requires NamedContext(c) && c.run in runs.db.runs
      modifies runs.db`runs, log.db`events
      ensures var f := RunImplementer(c, o, env);
              && r == f.result
              && log.db.events == old(log.db.events) + f.events
              && runs.db.runs == (if r.Aborted? then old(runs.db.runs)
                                  else old(runs.db.runs)[c.run := old(runs.db.runs)[c.run].(status := f.status)])
    {
      hide NamedContext, AfterAgent;
      if env.aborted {
        return Aborted;
      }
      if env.briefingThrows {
        r := FailImplementer(c, InternalError, None, None);
        return;
      }
      SaySpawned(c);
      if env.cli.CliAborts? {
        return Aborted;
      }
      if env.cli.SpawnThrows? {
        r := FailImplementer(c, SpawnFailed, None, None);
        return;
      }
      var saved, threw := SaveAgentArtifacts(c, env);
      if threw {
        r := FailImplementer(c, InternalError, if saved >= 3 then Some(c.File("diff.patch")) else None, None);
        return;
      }
      var failure := Classify(env.cli);
      ghost var before := [Spawned(c.task, c.run, c.agent)] + c.Published(saved);
      AfterAgentShift(c, o, env, before, failure);
      r := VerifyAndFinish(c, o, env, failure);
    }

    // ---- Reviewer ----

    method FailReviewer(c: Context, recorded: FailReason, returned: FailReason, verdict: Option<Uri>) returns (r: Result)
      requires NamedContext(c) && c.run in runs.db.runs && RunFailedReason(recorded)
      modifies runs.db`runs, log.db`events
      ensures runs.db.runs == old(runs.db.runs)[c.run := old(runs.db.runs)[c.run].(status := RunFailed)]
      ensures log.db.events == old(log.db.events) + [RunFailure(c.task, c.run, c.agent, recorded)]
      ensures r == Returned(ReviewerFailed(c.run, returned, verdict))
    {
      FinishRun(c, Some(recorded));
      r := Returned(ReviewerFailed(c.run, returned, verdict));
    }

    /** The diff did not apply: three artifacts outside the try block, then the run's end. */
    method ReportRefusedDiff(c: Context, env: ReviewerEnv) returns (r: Result)
      requires NamedContext(c) && c.run in runs.db.runs && !env.aborted && env.apply.Refused?
      modifies runs.db`runs, log.db`events
      ensures var f := RunReviewer(c, env);
              && (r.Threw? <==> env.failAt.Some? && env.failAt.value < 3)
              && (!r.Threw? ==> r == f.result)
              && log.db.events == old(log.db.events) + f.events
              && runs.db.runs == (if r.Threw? then old(runs.db.runs)
                                  else old(runs.db.runs)[c.run := old(runs.db.runs)[c.run].(status := f.status)])
    {
      hide NamedContext;
      var ok := SaveArtifact(c, env.failAt, 0);
      if !ok { return Threw; }
      PublishedMore(c, 0);
      ok := SaveArtifact(c, env.failAt, 1);
      if !ok { return Threw; }
      PublishedMore(c, 1);
      ok := SaveArtifact(c, env.failAt, 2);
      if !ok { return Threw; }
      PublishedMore(c, 2);
      r := FailReviewer(c, DiffApplyFailed, DiffApplyFailed, None);
      SayEdge(c, "reviewing", "requeued", "diff_apply_failed");
    }

    /** From the reviewer's exit to the end of the run: the two streams, then the classification. */
    method ReadStreams(c: Context, env: ReviewerEnv) returns (r: Result)
      requires NamedContext(c) && c.run in runs.db.runs && env.cli.Exited?
      requires env.failAt.Some? ==> env.failAt.value >= 2
      modifies runs.db`runs, log.db`events
      ensures var f := if env.failAt.Some? && env.failAt.value < 4
                       then ReviewerFails(c, c.Published(env.failAt.value - 2), InternalError, InternalError, None)
                       else AfterReview(c, env, c.Published(2), Classify(env.cli));
              && r == f.result && r.Returned?
              && log.db.events == old(log.db.events) + f.events
              && runs.db.runs == old(runs.db.runs)[c.run := old(runs.db.runs)[c.run].(status := f.status)]
    {
      hide NamedContext, AfterReview;
      var ok := SaveArtifact(c, env.failAt, 2);
      if !ok {
        r := FailReviewer(c, InternalError, InternalError, None);
        return;
      }
      PublishedMore(c, 0);
      ok := SaveArtifact(c, env.failAt, 3);
      if !ok {
        r := FailReviewer(c, InternalError, InternalError, None);
        return;
      }
      PublishedMore(c, 1);
      var failure := Classify(env.cli);
      AfterReviewShift(c, env, c.Published(2), failure);
      r := ReadVerdict(c, env, failure);
    }

    /** The agent's own failure; else the verdict file, saved as an artifact, and what it says. */
    method ReadVerdict(c: Context, env: ReviewerEnv, failure: Option<FailReason>) returns (r: Result)
      requires NamedContext(c) && c.run in runs.db.runs && (failure.Some? ==> RunFailedReason(failure.value))
      modifies runs.db`runs, log.db`events
      ensures var f := AfterReview(c, env, [], failure);
              && r == f.result && r.Returned?
              && log.db.events == old(log.db.events) + f.events
              && runs.db.runs == old(runs.db.runs)[c.run := old(runs.db.runs)[c.run].(status := f.status)]
    {
      hide NamedContext;
      if failure.Some? {
        r := FailReviewer(c, failure.value, failure.value, None);
        return;
      }
      var ok := SaveArtifact(c, env.failAt, 4);
      if !ok {
        r := FailReviewer(c, InternalError, InternalError, None);
        return;
      }
      PublishedMore(c, 0);
      var verdictUri := c.File("review_verdict.json");
      if env.reading.Unusable? {
        if env.reading.rawText {
          ok := SaveArtifact(c, env.failAt, 5);
          if !ok {
            r := FailReviewer(c, InternalError, InternalError, None);
            return;
          }
          PublishedMore(c, 1);
        }
        r := FailReviewer(c, InternalError, ReviewerUnusable, Some(verdictUri));
        return;
      }
      ActOnVerdict(c, env.reading.verdict);
      r := Returned(ReviewerReturned(c.run, env.reading.verdict, verdictUri));
    }

    method ActOnVerdict(c: Context, v: Verdict)
      requires NamedContext(c) && c.run in runs.db.runs
      modifies runs.db`runs, log.db`events
      ensures runs.db.runs == old(runs.db.runs)[c.run := old(runs.db.runs)[c.run].(status := RunSucceeded)]
      ensures log.db.events == old(log.db.events)
                + [c.Happened(RunCompleted),
                   Reviewed(c.task, c.run, c.agent, v, c.File("review_verdict.json")),
                   EdgeSelected(c.task, c.run, c.agent, "reviewing", EdgeTarget(v), EdgeReason(v))]
    {
      hide NamedContext, Blank, Accepts;
      FinishRun(c, None);
      ReviewedFine(c, v);
      AppendEvent(Reviewed(c.task, c.run, c.agent, v, c.File("review_verdict.json")));
      SayEdge(c, "reviewing", EdgeTarget(v), EdgeReason(v));
    }

    /** Everything before the reviewer's own try block may throw to the caller; inside it nothing does. */
    method RunReviewerOnce(c: Context, env: ReviewerEnv) returns (r: Result)
      requires NamedContext(c) && c.run in runs.db.runs
      modifies runs.db`runs, log.db`events
      ensures var f := RunReviewer(c, env);
              && (if EscapesReviewer(env) then r.Threw? else r == f.result)
              && log.db.events == old(log.db.events) + f.events
              && runs.db.runs == (if r.Returned? then old(runs.db.runs)[c.run := old(runs.db.runs)[c.run].(status := f.status)]
                                  else old(runs.db.runs))
    {
      hide NamedContext, AfterReview;
      if env.aborted {
        return Aborted;
      }
      if env.apply.ApplyThrows? {
        return Threw;
      }
      if env.apply.Refused? {
        r := ReportRefusedDiff(c, env);
        return;
      }
      if env.briefThrows {
        r := FailReviewer(c, InternalError, InternalError, None);
        return;
      }
      var ok := SaveArtifact(c, env.failAt, 0);
      if !ok {
        r := FailReviewer(c, InternalError, InternalError, None);
        return;
      }
      PublishedMore(c, 0);
      ok := SaveArtifact(c, env.failAt, 1);
      if !ok {
        r := FailReviewer(c, InternalError, InternalError, None);
        return;
      }
      PublishedMore(c, 1);
      r := SpawnReviewer(c, env);
    }

    method SpawnReviewer(c: Context, env: ReviewerEnv) returns (r: Result)
      requires NamedContext(c) && c.run in runs.db.runs && !env.aborted && env.apply.Applied? && !env.briefThrows
      requires env.failAt.Some? ==> env.failAt.value >= 2
      modifies runs.db`runs, log.db`events
      ensures var f := RunReviewer(c, env);
              && r == f.result
              && c.Published(2) <= f.events && log.db.events == old(log.db.events) + f.events[2..]
              && runs.db.runs == (if r.Returned? then old(runs.db.runs)[c.run := old(runs.db.runs)[c.run].(status := f.status)]
                                  else old(runs.db.runs))
    {
      hide NamedContext, AfterReview;
      Say(c, ReviewRequested);
      SaySpawned(c);
      if env.cli.CliAborts? {
        return Aborted;
      }
      if env.cli.SpawnThrows? {
        r := FailReviewer(c, SpawnFailed, SpawnFailed, None);
        return;
      }
      ghost var spawned := c.Published(2) + [c.Happened(ReviewRequested), Spawned(c.task, c.run, c.agent)];
      AfterReviewShift(c, env, spawned + c.Published(2), Classify(env.cli));
      AfterReviewShift(c, env, c.Published(2), Classify(env.cli));
      r := ReadStreams(c, env);
    }

    // ---- Both roles ----

    /**
     `runTaskOnce`: creates the run, executes it in its role, and cancels the row when an abort, or an error
     while the signal is set, comes out of it. The result is the one the run functions give.
     */
    method RunTaskOnce(c: Context, o: WorkOrder, role: Role, prepared: bool, env: Env) returns (r: Result)
      requires NamedContext(c) && c.run !in runs.db.runs && env.ForRole(role)
      modifies runs.db`runs, log.db`events
      ensures var f := if prepared then Execute(c, o, env) else CreationFailure(c, role);
              && r == f.result
              && log.db.events == old(log.db.events) + CreationEvents(c, role)
                   + (if prepared then StartEvents(c) else []) + f.events
              && runs.db.runs == old(runs.db.runs)[c.run := RunRecord(c.task, c.agent, role, f.status)]
    {
      hide NamedContext, RunImplementer, RunReviewer, CreationEvents, StartEvents;
      CreateRunContext(c, role, prepared);
      if !prepared {
        r := Returned(if role.Implementer? then ImplementerFailed(c.run, InternalError, None, None)
                      else ReviewerFailed(c.run, InternalError, None));
        return;
      }
      var signalled := false;
      match env {
        case ForImplementer(e) =>
          r := RunImplementerOnce(c, o, e);
          AbortCancels(c, o, e);
        case ForReviewer(e) =>
          r := RunReviewerOnce(c, e);
          signalled := e.signalled;
          EscapeCancels(c, e);
      }
      if r.Aborted? || (r.Threw? && signalled) {
        CancelInterruptedRun(c);
        r := Aborted;
      }
    }
  }

  /** An error leaves the reviewer before its own try block. */
  predicate EscapesReviewer(env: ReviewerEnv) {
    !env.aborted && (env.apply.ApplyThrows? || (env.apply.Refused? && env.failAt.Some? && env.failAt.value < 3))
  }

  lemma AbortCancels(c: Context, o: WorkOrder, env: ImplementerEnv)
    ensures var f := RunImplementer(c, o, env); !f.result.Threw? && (f.result.Aborted? <==> f.status.RunCancelled?)
  {
  }

  lemma EscapeCancels(c: Context, env: ReviewerEnv)
    ensures var f := RunReviewer(c, env);
            && (EscapesReviewer(env) ==>
                  if env.signalled then f.result.Aborted? && f.status.RunCancelled? else f.result.Threw? && f.status.Running?)
            && (!EscapesReviewer(env) ==> !f.result.Threw? && (f.result.Aborted? <==> f.status.RunCancelled?))
  {
  }

  /** What follows the agent's exit does not depend on what was logged before it. */
  lemma AfterAgentShift(c: Context, o: WorkOrder, env: ImplementerEnv, before: seq<Event>, failure: Option<FailReason>)
    ensures var f, g := AfterAgent(c, o, env, before, failure), AfterAgent(c, o, env, [], failure);
            f.result == g.result && f.status == g.status && f.events == before + g.events
  {
  }

  lemma AfterReviewShift(c: Context, env: ReviewerEnv, before: seq<Event>, failure: Option<FailReason>)
    ensures var f, g := AfterReview(c, env, before, failure), AfterReview(c, env, [], failure);
            f.result == g.result && f.status == g.status && f.events == before + g.events
  {
  }
}
