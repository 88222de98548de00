/** Event kinds, the ids and payload fields each kind must carry, and the events the engine emits. */
module Events {
  import opened Types
  import opened Js
  import opened Scheduler

  datatype Kind =
    | TaskCreated | RunCreated | RunStarted | ArtifactPublished
    | VerificationStarted | VerificationPassed | VerificationDidFail
    | RunCompleted | RunDidFail | RunCleanedUp
    | TaskEnqueued | TaskDispatched | TaskAssigned | TaskRequeued
    | TaskCompleted | TaskFailed | TaskAwaitingHuman
    | ReviewRequested | ReviewCompleted | HandoffRequested | AgentSpawned
    | QuotaLow | QuotaExhaustedAlarm | TaskEdgeSelected
    | ReservedKind | UnknownKind

  datatype HandoffReason =
    | HVerificationFailed | HReviewChangesRequested | HDiffApplyFailed | HReviewRejected
    | HAgentTimedOut | HAgentNonzeroExit | HQuotaExhausted | HSchedulerRefusal

  datatype Scope = AgentScope | TaskScope

  datatype IdField = TaskIdField | RunIdField | AgentIdField

  datatype Key =
    | KDecisionId | KRole | KPicked | KRefusal | KVerdict | KVerdictUri | KReason
    | KHandoffUri | KScope | KAgentId | KTaskId | KFrom | KTo | KPid | KCredential | KRatio

  /**
   A payload value. The words of a closed vocabulary are constructors of their own; `Text` is any
   other string, `Generated` a freshly generated id.
   */
  datatype Field =
    | Text(s: string)
    | Generated
    | RoleWord(role: Role)
    | VerdictWord(verdict: Verdict)
    | FailWord(fail: FailReason)
    | HandoffWord(handoff: HandoffReason)
    | RefusalWord(refusal: Refusal)
    | ScopeWord(scope: Scope)
    | UriWord(uri: Uri)
    | Number(n: real)
    | NotANumber
  {
    predicate IsString() {
      !Number? && !NotANumber?
    }

    /** A string that is not blank. */
    predicate Present() {
      IsString() && (Text? ==> !Blank(s))
    }
  }

  datatype Event = Event(
    kind: Kind,
    task: Option<TaskId>,
    run: Option<RunId>,
    agent: Option<AgentId>,
    payload: map<Key, Field>)

  // ---- Validators ----

  predicate Known(k: Kind) {
    !k.ReservedKind? && !k.UnknownKind?
  }

  function RequiredIds(k: Kind): seq<IdField> {
    match k
    case RunCreated | RunStarted | RunCompleted | RunDidFail | TaskAssigned | AgentSpawned =>
      [TaskIdField, RunIdField, AgentIdField]
    case ArtifactPublished | VerificationStarted | VerificationPassed | VerificationDidFail | RunCleanedUp
       | ReviewRequested | ReviewCompleted | HandoffRequested => [TaskIdField, RunIdField]
    case QuotaLow | QuotaExhaustedAlarm | ReservedKind | UnknownKind => []
    case _ => [TaskIdField]
  }

  function IdOf(e: Event, f: IdField): Option<string> {
    match f
    case TaskIdField => e.task
    case RunIdField => e.run
    case AgentIdField => e.agent
  }

  predicate IdPresent(e: Event, f: IdField) {
    var v := IdOf(e, f);
    v.Some? && !Blank(v.value)
  }

  predicate Has(e: Event, k: Key) {
    k in e.payload && e.payload[k].Present()
  }

  predicate RunFailedReason(r: FailReason) {
    !r.ReviewerUnusable?
  }

  predicate ValidPayload(e: Event) {
    match e.kind
    case TaskDispatched =>
      && Has(e, KDecisionId)
      && KRole in e.payload && e.payload[KRole].RoleWord?
      && (Has(e, KPicked) || Has(e, KRefusal))
    case TaskAssigned => KRole in e.payload && e.payload[KRole].RoleWord?
    case ReviewCompleted => KVerdict in e.payload && e.payload[KVerdict].VerdictWord? && Has(e, KVerdictUri)
    case RunDidFail =>
      KReason in e.payload && e.payload[KReason].FailWord? && RunFailedReason(e.payload[KReason].fail)
    case HandoffRequested => Has(e, KHandoffUri) && KReason in e.payload && e.payload[KReason].HandoffWord?
    case QuotaLow | QuotaExhaustedAlarm =>
      && KScope in e.payload && e.payload[KScope].ScopeWord?
      && (e.payload[KScope].scope.AgentScope? ==>
            if KAgentId in e.payload then Has(e, KAgentId) else IdPresent(e, AgentIdField))
      && (e.payload[KScope].scope.TaskScope? ==>
            if KTaskId in e.payload then Has(e, KTaskId) else IdPresent(e, TaskIdField))
    case TaskEdgeSelected => Has(e, KFrom) && Has(e, KTo) && Has(e, KReason)
    case AgentSpawned => KPid in e.payload && e.payload[KPid].Number? && Has(e, KCredential)
    case _ => true
  }

  /** What `append` demands before it inserts. */
  predicate Accepts(e: Event) {
    && Known(e.kind)
    && (forall f :: f in RequiredIds(e.kind) ==> IdPresent(e, f))
    && ValidPayload(e)
  }

  /** What a reader of the log can rely on: which visible ids every accepted event of a kind carries. */
  lemma AcceptedNames(e: Event)
    requires Accepts(e)
    ensures !e.kind.QuotaLow? && !e.kind.QuotaExhaustedAlarm? ==> e.task.Some? && !Blank(e.task.value)
    ensures e.kind.RunCreated? || e.kind.RunStarted? || e.kind.RunCompleted? || e.kind.RunDidFail? || e.kind.TaskAssigned?
            || e.kind.AgentSpawned? ==>
              e.run.Some? && !Blank(e.run.value) && e.agent.Some? && !Blank(e.agent.value)
    ensures e.kind.ArtifactPublished? || e.kind.VerificationStarted? || e.kind.VerificationPassed? || e.kind.VerificationDidFail?
            || e.kind.RunCleanedUp? || e.kind.ReviewRequested? || e.kind.ReviewCompleted? || e.kind.HandoffRequested? ==>
              e.run.Some? && !Blank(e.run.value)
    ensures e.kind.RunDidFail? ==>
              KReason in e.payload && e.payload[KReason].FailWord? && !e.payload[KReason].fail.ReviewerUnusable?
    ensures e.kind.HandoffRequested? ==> KReason in e.payload && e.payload[KReason].HandoffWord? && KHandoffUri in e.payload
  {
    hide Blank, Has, ValidPayload;
    assert forall f :: f in RequiredIds(e.kind) ==> IdPresent(e, f);
    PayloadNames(e);
    NamesOf(e);
  }

  lemma PayloadNames(e: Event)
    requires ValidPayload(e)
    ensures e.kind.RunDidFail? ==>
              KReason in e.payload && e.payload[KReason].FailWord? && !e.payload[KReason].fail.ReviewerUnusable?
    ensures e.kind.HandoffRequested? ==> KReason in e.payload && e.payload[KReason].HandoffWord? && KHandoffUri in e.payload
  {
    hide Blank;
  }

  lemma NamesOf(e: Event)
    requires forall f :: f in RequiredIds(e.kind) ==> IdPresent(e, f)
    ensures TaskIdField in RequiredIds(e.kind) ==> e.task.Some? && !Blank(e.task.value)
    ensures RunIdField in RequiredIds(e.kind) ==> e.run.Some? && !Blank(e.run.value)
    ensures AgentIdField in RequiredIds(e.kind) ==> e.agent.Some? && !Blank(e.agent.value)
  {
    hide Blank, RequiredIds;
  }

  /** The required ids an event lacks, collected in table order. */
  method MissingIds(e: Event) returns (missing: seq<IdField>)
    ensures missing == [] <==> forall f :: f in RequiredIds(e.kind) ==> IdPresent(e, f)
    ensures forall f :: f in missing <==> f in RequiredIds(e.kind) && !IdPresent(e, f)
  {
    missing := [];
    var required := RequiredIds(e.kind);
    for i := 0 to |required|
      invariant forall f :: f in missing <==> f in required[..i] && !IdPresent(e, f)
    {
      if !IdPresent(e, required[i]) {
        missing := missing + [required[i]];
      }
    }
    assert required[..|required|] == required;
    if missing != [] {
      assert missing[0] in missing;
    }
  }

  // ---- The events of the engine ----

  function Enqueued(t: TaskId): Event {
    Event(TaskEnqueued, Some(t), None, None, map[])
  }

  function DispatchedEvent(t: TaskId, d: Decision): Event {
    Event(TaskDispatched, Some(t), None, None,
          map[KDecisionId := Generated, KRole := RoleWord(d.role)]
          + (if d.picked.Some? then map[KPicked := Text(d.picked.value)] else map[])
          + (if d.refusal.Some? then map[KRefusal := RefusalWord(d.refusal.value)] else map[]))
  }

  function TaskEvent(k: Kind, t: TaskId, r: Option<RunId>): Event {
    Event(k, Some(t), r, None, map[])
  }

  function HandoffEvent(t: TaskId, r: RunId, a: AgentId, uri: Uri, reason: HandoffReason): Event {
    Event(HandoffRequested, Some(t), Some(r), Some(a), map[KHandoffUri := UriWord(uri), KReason := HandoffWord(reason)])
  }

  function RunEvent(k: Kind, t: TaskId, r: RunId, a: AgentId): Event {
    Event(k, Some(t), Some(r), Some(a), map[])
  }

  function Assigned(t: TaskId, r: RunId, a: AgentId, role: Role): Event {
    Event(TaskAssigned, Some(t), Some(r), Some(a), map[KRole := RoleWord(role)])
  }

  function Spawned(t: TaskId, r: RunId, a: AgentId): Event {
    Event(AgentSpawned, Some(t), Some(r), Some(a), map[KPid := Number(0.0), KCredential := Text("unknown")])
  }

  function RunFailure(t: TaskId, r: RunId, a: AgentId, reason: FailReason): Event {
    Event(RunDidFail, Some(t), Some(r), Some(a), map[KReason := FailWord(reason)])
  }

  function EdgeSelected(t: TaskId, r: RunId, a: AgentId, source: string, target: string, reason: string): Event {
    Event(TaskEdgeSelected, Some(t), Some(r), Some(a), map[KFrom := Text(source), KTo := Text(target), KReason := Text(reason)])
  }

  function Reviewed(t: TaskId, r: RunId, a: AgentId, v: Verdict, uri: Uri): Event {
    Event(ReviewCompleted, Some(t), Some(r), Some(a), map[KVerdict := VerdictWord(v), KVerdictUri := UriWord(uri)])
  }

  function TaskAlarm(k: Kind, t: TaskId, ratio: real): Event {
    Event(k, Some(t), None, None, map[KScope := ScopeWord(TaskScope), KTaskId := Text(t), KRatio := Number(ratio)])
  }

  function AgentAlarm(k: Kind, a: AgentId, r: RunId): Event {
    Event(k, None, Some(r), Some(a), map[KScope := ScopeWord(AgentScope), KAgentId := Text(a)])
  }

  /** A string that starts with a visible character is not blank. */
  lemma Visible(s: string)
    requires s != "" && !IsSpace(s[0])
    ensures !Blank(s)
  {
    VisibleEnd(s);
  }

  lemma {:induction false} VisibleEnd(s: string)
    requires s != "" && !IsSpace(s[0])
    ensures TrimEnd(s) != ""
  {
    if IsSpace(s[|s| - 1]) {
      VisibleEnd(s[..|s| - 1]);
    }
  }

  /** A decision that names a visible agent or a refusal passes the dispatch validator. */
  lemma DispatchAccepted(t: TaskId, d: Decision)
    requires !Blank(t) && (d.picked.Some? || d.refusal.Some?) && (d.picked.Some? ==> !Blank(d.picked.value))
    ensures Accepts(DispatchedEvent(t, d))
  {
    var e := DispatchedEvent(t, d);
    assert KDecisionId in e.payload && KRole in e.payload;
    if d.picked.Some? {
      assert KPicked in e.payload;
    } else {
      assert KRefusal in e.payload;
    }
  }
}
