/** For each reason a run can fail with, exactly which behaviour of the outside world gives it. */
module FailureLaws {
  import opened Types
  import opened Events
  import opened Runs

  // ---- Implementer ----

  /** The agent process ended, and everything it left behind was saved. */
  predicate AgentEnded(env: ImplementerEnv) {
    && !env.aborted && !env.briefingThrows && env.cli.Exited?
    && (env.failAt.Some? ==> env.failAt.value >= if env.hasReport then 5 else 4)
  }

  predicate ImplementerFailsFor(c: Context, o: WorkOrder, env: ImplementerEnv, r: FailReason) {
    var x := RunImplementer(c, o, env).result;
    x.Returned? && x.outcome.ImplementerFailed? && x.outcome.reason == r
  }

  /** The agent went through: exit 0 in time. */
  predicate AgentFine(env: ImplementerEnv) {
    AgentEnded(env) && !env.cli.timedOut && env.cli.exit == Some(0)
  }

  /**
   An agent that ended badly: a timeout before everything else, then the three provider patterns in their order, and
   the exit code alone when none of them matched.
   */
  lemma AgentFailureExact(c: Context, o: WorkOrder, env: ImplementerEnv)
    ensures ImplementerFailsFor(c, o, env, AgentTimedOut) <==> AgentEnded(env) && env.cli.timedOut
    ensures ImplementerFailsFor(c, o, env, ProviderRateLimited)
            <==> AgentEnded(env) && !env.cli.timedOut && env.cli.exit != Some(0) && env.cli.rateLimited
    ensures ImplementerFailsFor(c, o, env, ProviderQuotaExhausted)
            <==> AgentEnded(env) && !env.cli.timedOut && env.cli.exit != Some(0) && !env.cli.rateLimited && env.cli.quotaExhausted
    ensures ImplementerFailsFor(c, o, env, ProviderAuthFailed)
            <==> AgentEnded(env) && !env.cli.timedOut && env.cli.exit != Some(0) && !env.cli.rateLimited
                 && !env.cli.quotaExhausted && env.cli.authFailed
    ensures ImplementerFailsFor(c, o, env, AgentNonzeroExit)
            <==> AgentEnded(env) && !env.cli.timedOut && env.cli.exit != Some(0) && !env.cli.rateLimited
                 && !env.cli.quotaExhausted && !env.cli.authFailed
  {
  }

  /** The other reasons: no process, failed verification, an exception; and three that no implementer run has. */
  lemma EngineFailureExact(c: Context, o: WorkOrder, env: ImplementerEnv)
    ensures ImplementerFailsFor(c, o, env, SpawnFailed) <==> !env.aborted && !env.briefingThrows && env.cli.SpawnThrows?
    ensures ImplementerFailsFor(c, o, env, VerificationFailed)
            <==> AgentFine(env) && o.commands != [] && env.verifier.VerifierFailed?
                 && env.failAt != Some(if env.hasReport then 5 else 4)
    ensures ImplementerFailsFor(c, o, env, InternalError)
            <==> !env.aborted
                 && (env.briefingThrows
                     || (env.cli.Exited? && !AgentEnded(env))
                     || (AgentFine(env) && o.commands != [] && !env.verifier.VerifierAborts?
                         && (env.verifier.VerifierThrows? || env.failAt == Some(if env.hasReport then 5 else 4))))
    ensures !ImplementerFailsFor(c, o, env, DiffApplyFailed) && !ImplementerFailsFor(c, o, env, LeaseExpired)
            && !ImplementerFailsFor(c, o, env, ReviewerUnusable)
  {
  }

  /** An abort ends the run exactly when it is seen: at the start, in the agent, or in the verification. */
  lemma ImplementerAbortExact(c: Context, o: WorkOrder, env: ImplementerEnv)
    ensures RunImplementer(c, o, env).result.Aborted?
            <==> env.aborted || (!env.briefingThrows && env.cli.CliAborts?)
                 || (AgentFine(env) && o.commands != [] && env.verifier.VerifierAborts?)
    ensures !RunImplementer(c, o, env).result.Threw?
  {
  }

  /** The reason a run returns is the one in its `run.failed` event. */
  lemma ImplementerReasonLogged(c: Context, o: WorkOrder, env: ImplementerEnv, r: FailReason)
    requires ImplementerFailsFor(c, o, env, r)
    ensures RunImplementer(c, o, env).events != []
    ensures var es := RunImplementer(c, o, env).events; es[|es| - 1] == RunFailure(c.task, c.run, c.agent, r)
  {
  }

  /** Verification is reported as passed, or as failed, exactly when it ran to that end. */
  lemma VerificationTold(c: Context, o: WorkOrder, env: ImplementerEnv)
    ensures var told := AgentFine(env) && o.commands != [] && env.failAt != Some(if env.hasReport then 5 else 4);
            var es := RunImplementer(c, o, env).events;
            && (c.Happened(VerificationPassed) in es <==> told && env.verifier.VerifierPassed?)
            && (c.Happened(VerificationDidFail) in es <==> told && env.verifier.VerifierFailed?)
  {
    hide Classify;
    ClassifiedFine(env);
    var spawned := [Spawned(c.task, c.run, c.agent)];
    if env.cli.Exited? && AgentEnded(env) {
      var n := AgentSaves(env.hasReport);
      VerificationAfter(c, o, env, spawned + c.Published(n), Classify(env.cli));
    }
  }

  lemma ClassifiedFine(env: ImplementerEnv)
    ensures env.cli.Exited? ==> (Classify(env.cli).None? <==> !env.cli.timedOut && env.cli.exit == Some(0))
  {
  }

  lemma VerificationAfter(c: Context, o: WorkOrder, env: ImplementerEnv, es: seq<Event>, failure: Option<FailReason>)
    requires forall e :: e in es ==> !e.kind.VerificationPassed? && !e.kind.VerificationDidFail?
    ensures var told := failure.None? && o.commands != [] && env.failAt != Some(if env.hasReport then 5 else 4);
            var after := AfterAgent(c, o, env, es, failure).events;
            && (c.Happened(VerificationPassed) in after <==> told && env.verifier.VerifierPassed?)
            && (c.Happened(VerificationDidFail) in after <==> told && env.verifier.VerifierFailed?)
  {
    var started := es + [c.Happened(VerificationStarted)];
    var passed := started + c.Published(1) + [c.Happened(VerificationPassed)];
    var failed := started + c.Published(1) + [c.Happened(VerificationDidFail)];
    assert passed[|passed| - 1] == c.Happened(VerificationPassed) && failed[|failed| - 1] == c.Happened(VerificationDidFail);
    assert forall e :: e in started + c.Published(1) ==> !e.kind.VerificationPassed? && !e.kind.VerificationDidFail?;
  }

  // ---- Reviewer ----

  /** The diff was applied, the agent process ended, and its output was saved. */
  predicate ReviewEnded(env: ReviewerEnv) {
    && !env.aborted && env.apply.Applied? && !env.briefThrows && env.cli.Exited?
    && (env.failAt.Some? ==> env.failAt.value >= 4)
  }

  predicate ReviewerFailsFor(c: Context, env: ReviewerEnv, r: FailReason) {
    var x := RunReviewer(c, env).result;
    x.Returned? && x.outcome.ReviewerFailed? && x.outcome.reason == r
  }

  predicate ReviewFine(env: ReviewerEnv) {
    ReviewEnded(env) && !env.cli.timedOut && env.cli.exit == Some(0)
  }

  lemma ReviewAgentFailureExact(c: Context, env: ReviewerEnv)
    ensures ReviewerFailsFor(c, env, AgentTimedOut) <==> ReviewEnded(env) && env.cli.timedOut
    ensures ReviewerFailsFor(c, env, ProviderRateLimited)
            <==> ReviewEnded(env) && !env.cli.timedOut && env.cli.exit != Some(0) && env.cli.rateLimited
    ensures ReviewerFailsFor(c, env, ProviderQuotaExhausted)
            <==> ReviewEnded(env) && !env.cli.timedOut && env.cli.exit != Some(0) && !env.cli.rateLimited && env.cli.quotaExhausted
    ensures ReviewerFailsFor(c, env, ProviderAuthFailed)
            <==> ReviewEnded(env) && !env.cli.timedOut && env.cli.exit != Some(0) && !env.cli.rateLimited
                 && !env.cli.quotaExhausted && env.cli.authFailed
    ensures ReviewerFailsFor(c, env, AgentNonzeroExit)
            <==> ReviewEnded(env) && !env.cli.timedOut && env.cli.exit != Some(0) && !env.cli.rateLimited
                 && !env.cli.quotaExhausted && !env.cli.authFailed
  {
  }

  /** A diff that does not apply, a process that does not start, a verdict that cannot be used, an exception. */
  lemma ReviewEngineFailureExact(c: Context, env: ReviewerEnv)
    ensures ReviewerFailsFor(c, env, DiffApplyFailed)
            <==> !env.aborted && env.apply.Refused? && (env.failAt.Some? ==> env.failAt.value >= 3)
    ensures ReviewerFailsFor(c, env, SpawnFailed)
            <==> !env.aborted && env.apply.Applied? && !env.briefThrows && env.cli.SpawnThrows?
                 && (env.failAt.Some? ==> env.failAt.value >= 2)
    ensures ReviewerFailsFor(c, env, ReviewerUnusable)
            <==> ReviewFine(env) && env.failAt != Some(4) && env.reading.Unusable? && !(env.reading.rawText && env.failAt == Some(5))
    ensures ReviewerFailsFor(c, env, InternalError)
            <==> !env.aborted && env.apply.Applied?
                 && (env.briefThrows
                     || (env.failAt.Some? && env.failAt.value < 2)
                     || (env.cli.Exited? && env.failAt.Some? && env.failAt.value < 4)
                     || (ReviewFine(env) && env.failAt == Some(4))
                     || (ReviewFine(env) && env.reading.Unusable? && env.reading.rawText && env.failAt == Some(5)))
    ensures !ReviewerFailsFor(c, env, VerificationFailed) && !ReviewerFailsFor(c, env, LeaseExpired)
  {
  }

  /** A reviewer run is aborted, or its exception escapes, exactly here. */
  lemma ReviewAbortExact(c: Context, env: ReviewerEnv)
    ensures var escapes := !env.aborted && (env.apply.ApplyThrows? || (env.apply.Refused? && env.failAt.Some? && env.failAt.value < 3));
            && (RunReviewer(c, env).result.Threw? <==> escapes && !env.signalled)
            && (RunReviewer(c, env).result.Aborted?
                <==> env.aborted || (escapes && env.signalled)
                     || (env.apply.Applied? && !env.briefThrows && env.cli.CliAborts? && (env.failAt.Some? ==> env.failAt.value >= 2)))
  {
  }

  lemma AfterReviewTold(c: Context, env: ReviewerEnv, es: seq<Event>, failure: Option<FailReason>, v: Verdict)
    requires forall e :: e in es ==> !e.kind.ReviewCompleted?
    ensures var told := failure.None? && env.failAt != Some(4) && env.reading == Parsed(v);
            Reviewed(c.task, c.run, c.agent, v, c.File("review_verdict.json")) in AfterReview(c, env, es, failure).events <==> told
  {
    var e := Reviewed(c.task, c.run, c.agent, v, c.File("review_verdict.json"));
    var after := AfterReview(c, env, es, failure).events;
    assert e.payload[KVerdict] == VerdictWord(v);
    if failure.None? && env.failAt != Some(4) && env.reading.Parsed? {
      var w := env.reading.verdict;
      var e' := Reviewed(c.task, c.run, c.agent, w, c.File("review_verdict.json"));
      assert e'.payload[KVerdict] == VerdictWord(w);
      assert after[|after| - 2] == e';
      assert forall x :: x in after && x.kind.ReviewCompleted? ==> x == e';
    } else {
      assert forall x :: x in after ==> !x.kind.ReviewCompleted?;
    }
  }

  /** A verdict is reported, and as the one it is, exactly when the run returns it. */
  lemma ReviewTold(c: Context, env: ReviewerEnv, v: Verdict)
    requires ReviewFine(env)
    ensures Reviewed(c.task, c.run, c.agent, v, c.File("review_verdict.json")) in RunReviewer(c, env).events
            <==> env.failAt != Some(4) && env.reading == Parsed(v)
  {
    hide AfterReview, Classify;
    ReviewClassified(env);
    var spawned := c.Published(2) + [c.Happened(ReviewRequested), Spawned(c.task, c.run, c.agent)];
    AfterReviewTold(c, env, spawned + c.Published(2), Classify(env.cli), v);
  }

  lemma ReviewClassified(env: ReviewerEnv)
    ensures env.cli.Exited? ==> (Classify(env.cli).None? <==> !env.cli.timedOut && env.cli.exit == Some(0))
  {
  }
}
