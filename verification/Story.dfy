/**
 The history of a task: which attempts led to its row. Under an isolated claim, the row's role, attempt
 count, review context, handoff URI and excludes are functions of the attempts made so far.
 */
module Story {
  import opened Types
  import opened Js
  import opened Runs
  import opened Handoffs
  import opened Protocol
  import opened Shape

  function Front(attempts: seq<Attempt>): seq<Attempt>
    requires attempts != []
  {
    attempts[..|attempts| - 1]
  }

  /** The last attempt that completed, or -1. */
  function LastDone(attempts: seq<Attempt>): (r: int)
    ensures -1 <= r < |attempts|
    ensures r >= 0 ==> attempts[r].fate.Done?
    ensures forall k :: r < k < |attempts| ==> !attempts[k].fate.Done?
  {
    if attempts == [] then -1
    else if Last(attempts).fate.Done? then |attempts| - 1
    else LastDone(Front(attempts))
  }

  function Dones(attempts: seq<Attempt>): nat {
    if attempts == [] then 0
    else Dones(Front(attempts)) + if Last(attempts).fate.Done? then 1 else 0
  }

  predicate Succeeded(a: Attempt) {
    a.fate.Done? && a.fate.outcome.ImplementerSucceeded?
  }

  /** The context a reviewer must be given after these attempts, if a review is due. */
  function Review(attempts: seq<Attempt>): Option<ReviewContext> {
    var d := LastDone(attempts);
    if d >= 0 && Succeeded(attempts[d]) then Some(ContextOf(attempts[d].fate.outcome, attempts[d].agent)) else None
  }

  function NextRole(attempts: seq<Attempt>): Role {
    if Review(attempts).Some? then Reviewer else Implementer
  }

  /** The packet of the last completed attempt, if it was handed back to an implementer. */
  function Pending(t: TaskId, attempts: seq<Attempt>): Option<Uri> {
    var d := LastDone(attempts);
    if d < 0 then None
    else
      match attempts[d].fate.outcome
      case ImplementerSucceeded(_, _, _, _) => None
      case ImplementerFailed(run, _, _, _) => Some(Artifact(t, run, "handoff_packet.json"))
      case _ =>
        var ctx := attempts[d].fate.reviewed;
        if ctx.Some? then Some(Artifact(t, ctx.value.runId, "handoff_packet.json")) else None
  }

  /** The task goes on after this attempt. */
  predicate Continues(core: WorkOrder, a: Attempt) {
    match a.fate
    case WasAborted => true
    case Done(o, _, _) => (
      match o
      case ImplementerSucceeded(_, _, _, _) => core.reviewEnabled
      case ImplementerFailed(_, r, _, _) => HandoffReasonFor(r).Some?
      case ReviewerReturned(_, v, _) => v.ChangesRequested?
      case ReviewerFailed(_, r, _) => r.DiffApplyFailed?)
    case _ => false
  }

  predicate AllContinue(core: WorkOrder, attempts: seq<Attempt>) {
    forall k :: 0 <= k < |attempts| ==> Continues(core, attempts[k])
  }

  /** The evidence a completed attempt left. */
  predicate Evidence(t: TaskId, core: WorkOrder, a: Attempt) {
    a.fate.Done? ==>
      && a.run.RunRow? && a.fate.outcome.run == a.run.id && a.fate.outcome.ForRole(a.role)
      && (a.fate.outcome.ImplementerSucceeded? ==>
            && a.fate.env.Some? && a.fate.env.value.ForImplementer? && Proven(core, a.fate.env.value.implementer)
            && a.fate.outcome.diff == Artifact(t, a.run.id, "diff.patch"))
      && (a.fate.outcome.ReviewerReturned? ==>
            && a.fate.env.Some? && a.fate.env.value.ForReviewer?
            && ReviewedAs(a.fate.env.value.reviewer, a.fate.outcome.verdict))
  }

  /** The run row says how the attempt ended. */
  predicate RowAgrees(a: Attempt) {
    match a.fate
    case InFlight => a.run.RunRow? ==> a.run.status.Preparing? || a.run.status.Running?
    case WasAborted => a.run.RunRow? ==> a.run.status.RunCancelled?
    case DidThrow => a.run.RunRow? ==> a.run.status.Running?
    case Done(o, _, _) =>
      a.run.RunRow? && a.run.status == if o.ImplementerSucceeded? || o.ReviewerReturned? then RunSucceeded else RunFailed
  }

  /** Attempt `k` was made in the role, and with the context, that the attempts before it called for. */
  predicate Genuine(t: TaskId, core: WorkOrder, attempts: seq<Attempt>, k: nat)
    requires k < |attempts|
  {
    var a, before := attempts[k], attempts[..k];
    && !Blank(a.agent)
    && a.role == NextRole(before)
    && (Review(before).Some? ==> a.agent != Review(before).value.agentId)
    && (a.fate.Done? ==> a.fate.reviewed == Review(before))
    && Evidence(t, core, a)
    && RowAgrees(a)
  }

  predicate AllGenuine(t: TaskId, core: WorkOrder, attempts: seq<Attempt>) {
    forall k :: 0 <= k < |attempts| ==> Genuine(t, core, attempts, k)
  }

  /** A completed implementer attempt whose work is not waiting for review. */
  predicate HandedBack(attempts: seq<Attempt>, k: nat)
    requires k < |attempts|
  {
    && attempts[k].fate.Done? && attempts[k].role.Implementer?
    && !(k == LastDone(attempts) && Succeeded(attempts[k]))
  }

  /** Every implementer whose completed work was not kept for review is excluded. */
  predicate HandedIn(attempts: seq<Attempt>, excludes: seq<AgentId>) {
    forall k :: 0 <= k < |attempts| && HandedBack(attempts, k) ==> attempts[k].agent in excludes
  }

  /** The row of a task at rest is what its attempts say. */
  predicate Settled(t: TaskId, row: Row, attempts: seq<Attempt>) {
    && row.role == NextRole(attempts)
    && row.attempts == Dones(attempts)
    && row.handoff == Pending(t, attempts)
    && (row.role.Reviewer? ==> row.context == Review(attempts))
    && HandedIn(attempts, row.order.excludes)
  }

  /** The columns that claiming and requeueing leave alone. */
  predicate SameColumns(row: Row, snap: Row) {
    row.(status := snap.status, owner := snap.owner, lease := snap.lease) == snap
  }

  /** What was read of the row is what the row holds. */
  predicate JobOk(t: TaskId, job: Job) {
    && job.task == t
    && job.context == (if job.snap.role.Reviewer? then job.snap.context else None)
    && job.handoff == (if job.snap.role.Reviewer? then None else job.snap.handoff)
  }

  /** Accepted work: the last attempt is a proven implementation, or an approval of one by another agent. */
  predicate Earned(core: WorkOrder, attempts: seq<Attempt>) {
    && attempts != []
    && (if core.reviewEnabled then
          && Review(Front(attempts)).Some?
          && Last(attempts).fate.Done? && Last(attempts).fate.outcome.ReviewerReturned?
          && Last(attempts).fate.outcome.verdict.Approved?
        else Succeeded(Last(attempts)))
  }

  predicate BeforeLaunch(p: Phase) {
    || p.Budgeting? || p.Inserting? || p.Syncing? || p.Consulting? || p.Choosing?
    || p.Cleared? || p.Charging? || p.ChargeRead?
  }

  predicate AfterRun(p: Phase) {
    p.Finished? || p.Billing? || p.BillRead? || p.BillWrite? || p.Billed? || p.Recording? || p.Settling?
  }

  predicate Chosen(p: Phase) {
    p.Cleared? || p.Charging? || p.ChargeRead?
  }

  /** Nothing has been charged since the claim. */
  predicate Waiting(t: TaskId, rec: TaskRec, snap: Row) {
    && SameColumns(rec.row, snap)
    && Settled(t, snap, rec.attempts)
    && AllContinue(rec.row.order.Core(), rec.attempts)
  }

  /** One attempt has been added since the claim. */
  predicate Underway(t: TaskId, rec: TaskRec, job: Job) {
    && rec.attempts != []
    && JobOk(t, job)
    && Settled(t, job.snap, Front(rec.attempts))
    && AllContinue(rec.row.order.Core(), Front(rec.attempts))
  }

  predicate Cleaned(rec: TaskRec, job: Job) {
    SameColumns(rec.row, job.snap.(handoff := None))
  }

  predicate PlanOk(t: TaskId, rec: TaskRec, plan: Plan) {
    && plan.attempts == Dones(rec.attempts)
    && (plan.status.Queued? ==> AllContinue(rec.row.order.Core(), rec.attempts))
    && (plan.status.Accepted? ==> Earned(rec.row.order.Core(), rec.attempts))
  }

  /** The packet names the last completed attempt, and its agent is the one still to be excluded. */
  predicate PacketOk(t: TaskId, rec: TaskRec, packet: Packet) {
    && Some(packet.Address()) == Pending(t, rec.attempts)
    && NextRole(rec.attempts).Implementer?
    && HandedIn(rec.attempts, rec.row.order.excludes + [packet.fromAgent])
    && packet.fromAgent in packet.excludes
  }

  predicate PhaseStory(t: TaskId, rec: TaskRec, p: Phase) {
    && Holds(p) == Some(t)
    && (p.Begin? || p.Reading? || p.Failing? ==> Waiting(t, rec, p.snap))
    && (BeforeLaunch(p) ==> Waiting(t, rec, p.job.snap) && JobOk(t, p.job))
    && (Chosen(p) ==> !Blank(p.agent) && (Review(rec.attempts).Some? ==> p.agent != Review(rec.attempts).value.agentId))
    && (Open(p) || p.Finished? ==> Underway(t, rec, p.job) && SameColumns(rec.row, p.job.snap))
    && (AfterRun(p) && !p.Finished? ==> Underway(t, rec, p.job) && Cleaned(rec, p.job))
    && (HasPlan(p) ==> PlanOk(t, rec, p.plan))
    && (p.Contexting? ==>
          && Cleaned(rec, p.job) && p.plan.status.Queued? && p.plan.role.Reviewer?
          && HandedIn(rec.attempts, rec.row.order.excludes)
          && Review(rec.attempts) == Some(p.setContext) && Pending(t, rec.attempts).None?)
    && (p.Packaging? || p.Excluding? ==> PacketOk(t, rec, p.packet))
    && (p.Addressing? ==>
          && Some(p.packet.Address()) == Pending(t, rec.attempts)
          && NextRole(rec.attempts).Implementer?
          && HandedIn(rec.attempts, rec.row.order.excludes))
    && ((p.Packaging? || p.Excluding? || p.Addressing?) && p.plan.status.Queued? ==> p.plan.role.Implementer?)
    && (p.Releasing? && p.plan.status.Queued? ==>
          Settled(t, ReleasedRow(rec.row, p.plan.status, p.plan.role, p.plan.attempts), rec.attempts))
  }

  predicate RestStory(t: TaskId, rec: TaskRec) {
    && rec.row.attempts == Dones(rec.attempts)
    && (rec.row.status.Queued? ==> Settled(t, rec.row, rec.attempts) && AllContinue(rec.row.order.Core(), rec.attempts))
    && (rec.row.status.Accepted? ==> Earned(rec.row.order.Core(), rec.attempts))
  }

  predicate TaskStory(t: TaskId, rec: TaskRec, hold: Option<Phase>) {
    && AllGenuine(t, rec.row.order.Core(), rec.attempts)
    && (if hold.Some? then PhaseStory(t, rec, hold.value) else RestStory(t, rec))
  }

  // ---- Laws of histories ----

  lemma LastDoneAppend(front: seq<Attempt>, a: Attempt)
    ensures LastDone(front + [a]) == if a.fate.Done? then |front| else LastDone(front)
    ensures Dones(front + [a]) == Dones(front) + if a.fate.Done? then 1 else 0
  {
    assert Front(front + [a]) == front;
  }

  /** An attempt that did not complete changes nothing that the row records. */
  lemma UndoneAppend(t: TaskId, front: seq<Attempt>, a: Attempt, excludes: seq<AgentId>)
    requires !a.fate.Done?
    ensures Review(front + [a]) == Review(front) && NextRole(front + [a]) == NextRole(front)
    ensures Pending(t, front + [a]) == Pending(t, front)
    ensures Dones(front + [a]) == Dones(front)
    ensures HandedIn(front, excludes) ==> HandedIn(front + [a], excludes)
  {
    LastDoneAppend(front, a);
  }

  lemma GenuineAppend(t: TaskId, core: WorkOrder, front: seq<Attempt>, a: Attempt)
    requires AllGenuine(t, core, front) && Genuine(t, core, front + [a], |front|)
    ensures AllGenuine(t, core, front + [a])
  {
    hide Evidence, RowAgrees, Review, NextRole, Blank;
    var all := front + [a];
    forall k | 0 <= k < |all| ensures Genuine(t, core, all, k) {
      if k < |front| {
        assert all[..k] == front[..k] && all[k] == front[k];
        assert Genuine(t, core, front, k);
      }
    }
  }

  lemma GenuineFront(t: TaskId, core: WorkOrder, attempts: seq<Attempt>)
    requires attempts != [] && AllGenuine(t, core, attempts)
    ensures AllGenuine(t, core, Front(attempts))
    ensures attempts == Front(attempts) + [Last(attempts)]
    ensures attempts[..|attempts| - 1] == Front(attempts)
  {
    hide Evidence, RowAgrees, Review, NextRole, Blank;
    var front := Front(attempts);
    forall k | 0 <= k < |front| ensures Genuine(t, core, front, k) {
      assert front[..k] == attempts[..k];
      assert Genuine(t, core, attempts, k);
    }
  }

  /** Replacing the launch in flight by its result keeps the history genuine. */
  lemma GenuineResolve(t: TaskId, core: WorkOrder, attempts: seq<Attempt>, a: Attempt)
    requires attempts != [] && AllGenuine(t, core, attempts)
    requires a.role == Last(attempts).role && a.agent == Last(attempts).agent
    requires a.fate.Done? ==> a.fate.reviewed == Review(Front(attempts))
    requires Evidence(t, core, a) && RowAgrees(a)
    ensures AllGenuine(t, core, Front(attempts) + [a])
  {
    hide Evidence, RowAgrees, Review, NextRole, Blank;
    GenuineFront(t, core, attempts);
    var n := |attempts| - 1;
    assert Genuine(t, core, attempts, n);
    var all := Front(attempts) + [a];
    assert all[..n] == attempts[..n];
    GenuineAppend(t, core, Front(attempts), a);
  }
}
