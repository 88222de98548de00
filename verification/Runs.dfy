/**
 One run of an agent, as a function of what the outside world does: which external calls return, throw
 or abort. Every effect is the final run status, the events appended in order, and what the caller gets.
 */
module Runs {
  import opened Types
  import opened Events

  /** How the agent process ended; the three flags say which stderr patterns match. */
  datatype Cli =
    | Exited(exit: Option<int>, timedOut: bool, rateLimited: bool, quotaExhausted: bool, authFailed: bool)
    | SpawnThrows
    | CliAborts

  datatype Verifier = VerifierPassed | VerifierFailed | VerifierThrows | VerifierAborts

  /** `failAt` is the number of the artifact save that throws, counted from zero. */
  datatype ImplementerEnv = ImplementerEnv(
    aborted: bool,
    briefingThrows: bool,
    cli: Cli,
    failAt: Option<nat>,
    hasReport: bool,
    verifier: Verifier)

  datatype Apply = Applied | Refused | ApplyThrows

  datatype Reading = Parsed(verdict: Verdict) | Unusable(rawText: bool)

  /** `signalled`: the abort signal is set when an exception passes the outer handler. */
  datatype ReviewerEnv = ReviewerEnv(
    aborted: bool,
    apply: Apply,
    signalled: bool,
    briefThrows: bool,
    cli: Cli,
    failAt: Option<nat>,
    reading: Reading)

  datatype Result = Returned(outcome: Outcome) | Aborted | Threw

  datatype Effect = Effect(result: Result, status: RunStatus, events: seq<Event>)

  /** The ids a run carries in its events. */
  datatype Context = Context(task: TaskId, run: RunId, agent: AgentId)
  {
    function Published(n: nat): (es: seq<Event>)
      ensures |es| == n && forall i :: 0 <= i < n ==> es[i] == RunEvent(ArtifactPublished, task, run, agent)
    {
      seq(n, i => RunEvent(ArtifactPublished, task, run, agent))
    }

    function Happened(k: Kind): Event {
      RunEvent(k, task, run, agent)
    }

    function File(name: string): Uri {
      Artifact(task, run, name)
    }
  }

  /** Timeout first, then exit code, then the provider patterns in their fixed order. */
  function Classify(c: Cli): Option<FailReason>
    requires c.Exited?
  {
    if c.timedOut then Some(AgentTimedOut)
    else if c.exit == Some(0) then None
    else if c.rateLimited then Some(ProviderRateLimited)
    else if c.quotaExhausted then Some(ProviderQuotaExhausted)
    else if c.authFailed then Some(ProviderAuthFailed)
    else Some(AgentNonzeroExit)
  }

  function Stopped(events: seq<Event>): Effect {
    Effect(Aborted, RunCancelled, events)
  }

  // ---- Implementer ----

  function ImplementerFails(c: Context, events: seq<Event>, reason: FailReason, diff: Option<Uri>, verification: Option<Uri>): Effect {
    Effect(Returned(ImplementerFailed(c.run, reason, diff, verification)), RunFailed,
           events + [RunFailure(c.task, c.run, c.agent, reason)])
  }

  /** Artifact saves before the verification output: streams, diff, an optional report, the capsule note. */
  function AgentSaves(hasReport: bool): nat {
    if hasReport then 5 else 4
  }

  function RunImplementer(c: Context, o: WorkOrder, env: ImplementerEnv): Effect {
    if env.aborted then Stopped([])
    else if env.briefingThrows then ImplementerFails(c, [], InternalError, None, None)
    else
      var spawned := [Spawned(c.task, c.run, c.agent)];
      match env.cli
      case CliAborts => Stopped(spawned)
      case SpawnThrows => ImplementerFails(c, spawned, SpawnFailed, None, None)
      case Exited(_, _, _, _, _) =>
        var n := AgentSaves(env.hasReport);
        if env.failAt.Some? && env.failAt.value < n then
          ImplementerFails(c, spawned + c.Published(env.failAt.value), InternalError,
                           if env.failAt.value >= 3 then Some(c.File("diff.patch")) else None, None)
        else
          AfterAgent(c, o, env, spawned + c.Published(n), Classify(env.cli))
  }

  function AfterAgent(c: Context, o: WorkOrder, env: ImplementerEnv, events: seq<Event>, failure: Option<FailReason>): Effect {
    var diff := Some(c.File("diff.patch"));
    if failure.Some? then ImplementerFails(c, events, failure.value, diff, None)
    else if o.commands == [] then ImplementerSucceeds(c, o, env, events, None)
    else
      var started := events + [c.Happened(VerificationStarted)];
      match env.verifier
      case VerifierAborts => Stopped(started)
      case VerifierThrows => ImplementerFails(c, started, InternalError, diff, None)
      case _ =>
        if env.failAt == Some(AgentSaves(env.hasReport)) then ImplementerFails(c, started, InternalError, diff, None)
        else
          var output := Some(c.File("verification.txt"));
          if env.verifier.VerifierPassed? then
            ImplementerSucceeds(c, o, env, started + c.Published(1) + [c.Happened(VerificationPassed)], output)
          else
            ImplementerFails(c, started + c.Published(1) + [c.Happened(VerificationDidFail)],
                             VerificationFailed, diff, output)
  }

  function ImplementerSucceeds(c: Context, o: WorkOrder, env: ImplementerEnv, events: seq<Event>, verification: Option<Uri>): Effect {
    var report := if env.hasReport then Some(c.File("final_report.md")) else None;
    Effect(Returned(ImplementerSucceeded(c.run, c.File("diff.patch"), verification, report)), RunSucceeded,
           events + [c.Happened(RunCompleted),
                     EdgeSelected(c.task, c.run, c.agent, "verifying",
                                  if o.reviewEnabled then "reviewing" else "accepted",
                                  if o.reviewEnabled then "review_required" else "review_disabled")])
  }

  // ---- Reviewer ----

  function ReviewerFails(c: Context, events: seq<Event>, recorded: FailReason, returned: FailReason, verdict: Option<Uri>): Effect {
    Effect(Returned(ReviewerFailed(c.run, returned, verdict)), RunFailed,
           events + [RunFailure(c.task, c.run, c.agent, recorded)])
  }

  /** An exception outside the reviewer's own try block reaches `runTaskOnce`. */
  function Escapes(events: seq<Event>, signalled: bool): Effect {
    if signalled then Effect(Aborted, RunCancelled, events) else Effect(Threw, Running, events)
  }

  function RunReviewer(c: Context, env: ReviewerEnv): Effect {
    if env.aborted then Stopped([])
    else
      match env.apply
      case ApplyThrows => Escapes([], env.signalled)
      case Refused =>
        if env.failAt.Some? && env.failAt.value < 3 then Escapes(c.Published(env.failAt.value), env.signalled)
        else
          var failed := ReviewerFails(c, c.Published(3), DiffApplyFailed, DiffApplyFailed, None);
          failed.(events := failed.events + [EdgeSelected(c.task, c.run, c.agent, "reviewing", "requeued", "diff_apply_failed")])
      case Applied =>
        if env.briefThrows then ReviewerFails(c, [], InternalError, InternalError, None)
        else if env.failAt.Some? && env.failAt.value < 2 then
          ReviewerFails(c, c.Published(env.failAt.value), InternalError, InternalError, None)
        else
          var spawned := c.Published(2) + [c.Happened(ReviewRequested), Spawned(c.task, c.run, c.agent)];
          match env.cli
          case CliAborts => Stopped(spawned)
          case SpawnThrows => ReviewerFails(c, spawned, SpawnFailed, SpawnFailed, None)
          case Exited(_, _, _, _, _) =>
            if env.failAt.Some? && env.failAt.value < 4 then
              ReviewerFails(c, spawned + c.Published(env.failAt.value - 2), InternalError, InternalError, None)
            else AfterReview(c, env, spawned + c.Published(2), Classify(env.cli))
  }

  function AfterReview(c: Context, env: ReviewerEnv, events: seq<Event>, failure: Option<FailReason>): Effect {
    if failure.Some? then ReviewerFails(c, events, failure.value, failure.value, None)
    else if env.failAt == Some(4) then ReviewerFails(c, events, InternalError, InternalError, None)
    else
      var verdictUri := c.File("review_verdict.json");
      match env.reading
      case Unusable(raw) =>
        if raw && env.failAt == Some(5) then ReviewerFails(c, events + c.Published(1), InternalError, InternalError, None)
        else
          ReviewerFails(c, events + c.Published(if raw then 2 else 1), InternalError, ReviewerUnusable, Some(verdictUri))
      case Parsed(v) =>
        Effect(Returned(ReviewerReturned(c.run, v, verdictUri)), RunSucceeded,
               events + c.Published(1)
               + [c.Happened(RunCompleted),
                  Reviewed(c.task, c.run, c.agent, v, verdictUri),
                  EdgeSelected(c.task, c.run, c.agent, "reviewing", EdgeTarget(v), EdgeReason(v))])
  }

  function EdgeTarget(v: Verdict): string {
    match v
    case Approved => "accepted"
    case ChangesRequested => "requeued"
    case Rejected => "awaiting_human"
  }

  function EdgeReason(v: Verdict): string {
    match v
    case Approved => "approved"
    case ChangesRequested => "changes_requested"
    case Rejected => "rejected"
  }

  // ---- Creating the run ----

  function CreationEvents(c: Context, role: Role): seq<Event> {
    [Assigned(c.task, c.run, c.agent, role), c.Happened(RunCreated)]
  }

  function StartEvents(c: Context): seq<Event> {
    [c.Happened(ArtifactPublished), c.Happened(RunStarted)]
  }

  /** What `runTaskOnce` returns when the run context could not be created. */
  function CreationFailure(c: Context, role: Role): Effect {
    Effect(Returned(if role.Implementer? then ImplementerFailed(c.run, InternalError, None, None)
                    else ReviewerFailed(c.run, InternalError, None)),
           RunFailed, [RunFailure(c.task, c.run, c.agent, InternalError)])
  }

  datatype Env = ForImplementer(implementer: ImplementerEnv) | ForReviewer(reviewer: ReviewerEnv)
  {
    predicate ForRole(role: Role) {
      if role.Implementer? then ForImplementer? else ForReviewer?
    }
  }

  function Execute(c: Context, o: WorkOrder, env: Env): Effect {
    match env
    case ForImplementer(e) => RunImplementer(c, o, e)
    case ForReviewer(e) => RunReviewer(c, e)
  }

  // ---- Laws of one run ----

  /** Nothing in the environment went wrong before the agent's result was classified. */
  predicate CleanImplementer(o: WorkOrder, env: ImplementerEnv) {
    && !env.aborted && !env.briefingThrows
    && env.cli.Exited?
    && (env.failAt.Some? ==>
          env.failAt.value > AgentSaves(env.hasReport)
          || (env.failAt.value == AgentSaves(env.hasReport) && o.commands == []))
  }

  /** The evidence behind a success: exit code 0, no timeout, and verification passed or not asked for. */
  predicate Proven(o: WorkOrder, env: ImplementerEnv) {
    && CleanImplementer(o, env)
    && env.cli.exit == Some(0) && !env.cli.timedOut
    && (o.commands == [] || env.verifier.VerifierPassed?)
  }

  lemma SuccessIsProven(c: Context, o: WorkOrder, env: ImplementerEnv)
    ensures var r := RunImplementer(c, o, env).result;
            r.Returned? && r.outcome.ImplementerSucceeded? <==> Proven(o, env)
  {
  }

  /** The evidence behind an approval: the diff applied and the verdict file said so. */
  predicate ReviewedAs(env: ReviewerEnv, v: Verdict) {
    && !env.aborted && env.apply.Applied? && !env.briefThrows
    && env.cli.Exited? && env.cli.exit == Some(0) && !env.cli.timedOut
    && (env.failAt.Some? ==> env.failAt.value > 4)
    && env.reading == Parsed(v)
  }

  lemma VerdictIsRead(c: Context, env: ReviewerEnv, v: Verdict)
    ensures var r := RunReviewer(c, env).result;
            r.Returned? && r.outcome.ReviewerReturned? && r.outcome.verdict == v <==> ReviewedAs(env, v)
  {
  }

  /** Number of events of this kind. */
  function Endings(es: seq<Event>, k: Kind): nat {
    if es == [] then 0 else Endings(es[..|es| - 1], k) + if es[|es| - 1].kind == k then 1 else 0
  }

  lemma {:induction false} EndingsAppend(xs: seq<Event>, ys: seq<Event>, k: Kind)
    ensures Endings(xs + ys, k) == Endings(xs, k) + Endings(ys, k)
  {
    if ys == [] {
      assert xs + ys == xs;
    } else {
      var n := |ys| - 1;
      EndingsAppend(xs, ys[..n], k);
      assert (xs + ys)[..|xs| + n] == xs + ys[..n];
      assert (xs + ys)[|xs| + n] == ys[n];
    }
  }

  /** Neither `run.completed` nor `run.failed` among them. */
  predicate Quiet(es: seq<Event>) {
    forall i :: 0 <= i < |es| ==> !es[i].kind.RunCompleted? && !es[i].kind.RunDidFail?
  }

  lemma {:induction false} NoEndings(es: seq<Event>)
    requires Quiet(es)
    ensures Endings(es, RunCompleted) == 0 && Endings(es, RunDidFail) == 0
  {
    if es != [] {
      NoEndings(es[..|es| - 1]);
    }
  }

  lemma OneEnding(xs: seq<Event>, e: Event)
    requires Quiet(xs) && (e.kind.RunCompleted? || e.kind.RunDidFail?)
    ensures Endings(xs + [e], RunCompleted) == (if e.kind.RunCompleted? then 1 else 0)
    ensures Endings(xs + [e], RunDidFail) == (if e.kind.RunDidFail? then 1 else 0)
  {
    NoEndings(xs);
    assert (xs + [e])[..|xs|] == xs;
  }

  /** `run.completed` once if the run row ends succeeded, `run.failed` once if it ends failed, and never otherwise. */
  predicate Agreeing(f: Effect) {
    && Endings(f.events, RunCompleted) == (if f.status.RunSucceeded? then 1 else 0)
    && Endings(f.events, RunDidFail) == (if f.status.RunFailed? then 1 else 0)
  }

  /** Exactly one ending, agreeing with the run row: completed, failed or cancelled. */
  predicate EndsOnce(f: Effect) {
    && Agreeing(f)
    && (f.status.RunSucceeded? || f.status.RunFailed? ==> f.result.Returned?)
    && (f.status.RunCancelled? ==> f.result.Aborted?)
    && (f.status.RunSucceeded? || f.status.RunFailed? || f.status.RunCancelled?)
  }

  lemma ImplementerFailsOnce(c: Context, es: seq<Event>, reason: FailReason, d: Option<Uri>, v: Option<Uri>)
    requires Quiet(es)
    ensures EndsOnce(ImplementerFails(c, es, reason, d, v))
  {
    OneEnding(es, RunFailure(c.task, c.run, c.agent, reason));
  }

  lemma ReviewerFailsOnce(c: Context, es: seq<Event>, recorded: FailReason, returned: FailReason, v: Option<Uri>)
    requires Quiet(es)
    ensures EndsOnce(ReviewerFails(c, es, recorded, returned, v))
  {
    OneEnding(es, RunFailure(c.task, c.run, c.agent, recorded));
  }

  lemma StoppedOnce(es: seq<Event>)
    requires Quiet(es)
    ensures EndsOnce(Stopped(es))
  {
    NoEndings(es);
  }

  lemma AfterAgentOnce(c: Context, o: WorkOrder, env: ImplementerEnv, es: seq<Event>, failure: Option<FailReason>)
    requires Quiet(es)
    ensures EndsOnce(AfterAgent(c, o, env, es, failure))
  {
    hide EndsOnce, ImplementerFails, ImplementerSucceeds;
    var diff := Some(c.File("diff.patch"));
    var started := es + [c.Happened(VerificationStarted)];
    if failure.Some? {
      ImplementerFailsOnce(c, es, failure.value, diff, None);
    } else if o.commands == [] {
      ImplementerSucceedsOnce(c, o, env, es, None);
    } else {
      StoppedOnce(started);
      ImplementerFailsOnce(c, started, InternalError, diff, None);
      var output := Some(c.File("verification.txt"));
      ImplementerSucceedsOnce(c, o, env, started + c.Published(1) + [c.Happened(VerificationPassed)], output);
      ImplementerFailsOnce(c, started + c.Published(1) + [c.Happened(VerificationDidFail)], VerificationFailed, diff, output);
    }
  }

  lemma ImplementerSucceedsOnce(c: Context, o: WorkOrder, env: ImplementerEnv, es: seq<Event>, v: Option<Uri>)
    requires Quiet(es)
    ensures EndsOnce(ImplementerSucceeds(c, o, env, es, v))
  {
    var f := ImplementerSucceeds(c, o, env, es, v);
    var n := |es| + 1;
    assert f.events[..n] == es + [c.Happened(RunCompleted)];
    OneEnding(es, c.Happened(RunCompleted));
    NoEndings(f.events[n..]);
    EndingsAppend(es + [c.Happened(RunCompleted)], f.events[n..], RunCompleted);
    EndingsAppend(es + [c.Happened(RunCompleted)], f.events[n..], RunDidFail);
    assert f.events == f.events[..n] + f.events[n..];
  }

  /** Every environment gives an implementer run exactly one ending. */
  lemma ImplementerEndsOnce(c: Context, o: WorkOrder, env: ImplementerEnv)
    ensures EndsOnce(RunImplementer(c, o, env))
  {
    hide EndsOnce, ImplementerFails, AfterAgent;
    StoppedOnce([]);
    ImplementerFailsOnce(c, [], InternalError, None, None);
    var spawned := [Spawned(c.task, c.run, c.agent)];
    StoppedOnce(spawned);
    ImplementerFailsOnce(c, spawned, SpawnFailed, None, None);
    if env.cli.Exited? {
      var n := AgentSaves(env.hasReport);
      AfterAgentOnce(c, o, env, spawned + c.Published(n), Classify(env.cli));
      if env.failAt.Some? && env.failAt.value < n {
        ImplementerFailsOnce(c, spawned + c.Published(env.failAt.value), InternalError,
                             if env.failAt.value >= 3 then Some(c.File("diff.patch")) else None, None);
      }
    }
  }

  /** An exception leaves the reviewer before its try block while no abort is signalled. */
  predicate LosesReviewer(env: ReviewerEnv) {
    && !env.aborted && !env.signalled
    && (env.apply.ApplyThrows? || (env.apply.Refused? && env.failAt.Some? && env.failAt.value < 3))
  }

  lemma VerdictOnce(c: Context, before: seq<Event>, v: Verdict, uri: Uri, target: string, reason: string)
    requires Quiet(before)
    ensures var es := before + [c.Happened(RunCompleted), Reviewed(c.task, c.run, c.agent, v, uri),
                                EdgeSelected(c.task, c.run, c.agent, "reviewing", target, reason)];
            EndsOnce(Effect(Returned(ReviewerReturned(c.run, v, uri)), RunSucceeded, es))
  {
    var tail := [Reviewed(c.task, c.run, c.agent, v, uri), EdgeSelected(c.task, c.run, c.agent, "reviewing", target, reason)];
    var ended := before + [c.Happened(RunCompleted)];
    OneEnding(before, c.Happened(RunCompleted));
    NoEndings(tail);
    EndingsAppend(ended, tail, RunCompleted);
    EndingsAppend(ended, tail, RunDidFail);
    assert ended + tail == before + [c.Happened(RunCompleted), tail[0], tail[1]];
  }

  lemma AfterReviewOnce(c: Context, env: ReviewerEnv, es: seq<Event>, failure: Option<FailReason>)
    requires Quiet(es)
    ensures EndsOnce(AfterReview(c, env, es, failure))
  {
    hide EndsOnce, ReviewerFails;
    if failure.Some? {
      ReviewerFailsOnce(c, es, failure.value, failure.value, None);
    } else if env.failAt == Some(4) {
      ReviewerFailsOnce(c, es, InternalError, InternalError, None);
    } else if env.reading.Unusable? {
      ReviewerFailsOnce(c, es + c.Published(1), InternalError, InternalError, None);
      ReviewerFailsOnce(c, es + c.Published(if env.reading.rawText then 2 else 1), InternalError, ReviewerUnusable,
                        Some(c.File("review_verdict.json")));
    } else {
      var v := env.reading.verdict;
      VerdictOnce(c, es + c.Published(1), v, c.File("review_verdict.json"), EdgeTarget(v), EdgeReason(v));
    }
  }

  /** A reviewer run has exactly one ending, except when an exception escapes before its try block. */
  lemma ReviewerEndsOnceExactly(c: Context, env: ReviewerEnv)
    ensures EndsOnce(RunReviewer(c, env)) <==> !LosesReviewer(env)
  {
    StoppedOnce([]);
    if !env.aborted {
      if env.apply.Refused? {
        if env.failAt.Some? && env.failAt.value < 3 {
          NoEndings(c.Published(env.failAt.value));
        } else {
          var edge := EdgeSelected(c.task, c.run, c.agent, "reviewing", "requeued", "diff_apply_failed");
          ReviewerFailsOnce(c, c.Published(3), DiffApplyFailed, DiffApplyFailed, None);
          NoEndings([edge]);
          EndingsAppend(ReviewerFails(c, c.Published(3), DiffApplyFailed, DiffApplyFailed, None).events, [edge], RunCompleted);
          EndingsAppend(ReviewerFails(c, c.Published(3), DiffApplyFailed, DiffApplyFailed, None).events, [edge], RunDidFail);
        }
      } else if env.apply.Applied? {
        ReviewerAppliedOnce(c, env);
      }
    }
  }

  lemma ReviewerAppliedOnce(c: Context, env: ReviewerEnv)
    requires !env.aborted && env.apply.Applied?
    ensures EndsOnce(RunReviewer(c, env))
  {
    hide EndsOnce, ReviewerFails, AfterReview;
    ReviewerFailsOnce(c, [], InternalError, InternalError, None);
    var spawned := c.Published(2) + [c.Happened(ReviewRequested), Spawned(c.task, c.run, c.agent)];
    StoppedOnce(spawned);
    ReviewerFailsOnce(c, spawned, SpawnFailed, SpawnFailed, None);
    if env.failAt.Some? {
      ReviewerFailsOnce(c, c.Published(env.failAt.value), InternalError, InternalError, None);
      if env.failAt.value >= 2 {
        ReviewerFailsOnce(c, spawned + c.Published(env.failAt.value - 2), InternalError, InternalError, None);
      }
    }
    if env.cli.Exited? {
      AfterReviewOnce(c, env, spawned + c.Published(2), Classify(env.cli));
    }
  }

  /** Whatever happens, the ending events of a run agree with its row: a run that was lost has none. */
  lemma ExecutedAgreeing(c: Context, o: WorkOrder, env: Env)
    ensures Agreeing(Execute(c, o, env))
  {
    match env
    case ForImplementer(e) => ImplementerEndsOnce(c, o, e);
    case ForReviewer(e) =>
      ReviewerEndsOnceExactly(c, e);
      if LosesReviewer(e) {
        NoEndings(RunReviewer(c, e).events);
      }
  }

  /** The handler's branch for an outcome of the other role is dead. */
  lemma OutcomeFitsRole(c: Context, o: WorkOrder, env: Env, role: Role)
    requires env.ForRole(role)
    ensures Execute(c, o, env).result.Returned? ==>
              Execute(c, o, env).result.outcome.ForRole(role) && Execute(c, o, env).result.outcome.run == c.run
    ensures CreationFailure(c, role).result.outcome.ForRole(role)
  {
  }
}
