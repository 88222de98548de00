/** The entities of the workflow engine: work orders, queue rows, budgets, runs and their outcomes. */
module Types {

  datatype Option<+T> = None | Some(value: T)

  type TaskId = string
  type AgentId = string
  type RunId = string
  type WorkerId = string

  /** `artifact://<task>/<run>/<file>`; the three segments contain no slash, so they determine the URI. */
  datatype Uri = Artifact(task: TaskId, run: RunId, file: string)

  datatype Role = Implementer | Reviewer

  datatype Status = Queued | Dispatched | Implementing | Verifying | Reviewing | Accepted | Failed | AwaitingHuman
  {
    predicate Terminal() {
      Accepted? || Failed? || AwaitingHuman?
    }
  }

  datatype Caps = Caps(maxRuns: int, maxWallMs: real, maxCost: real)

  /** The fields of a parsed v1 work order that the engine reads. */
  datatype WorkOrder = WorkOrder(
    maxRuns: int,
    maxWallMinutes: real,
    maxCost: real,
    reviewEnabled: bool,
    commands: seq<string>,
    required: seq<string>,
    implementerPool: seq<AgentId>,
    reviewerPool: seq<AgentId>,
    excludes: seq<AgentId>)
  {
    /** What the schema demands of a parsed order. */
    predicate Valid() {
      maxRuns > 0 && maxWallMinutes > 0.0 && maxCost > 0.0
    }

    function BudgetCaps(): Caps {
      Caps(maxRuns, maxWallMinutes * 60000.0, maxCost)
    }

    /** The order without its exclude list: the part that no store call changes. */
    function Core(): WorkOrder {
      this.(excludes := [])
    }
  }

  datatype ReviewContext = ReviewContext(
    runId: RunId,
    agentId: AgentId,
    diff: Uri,
    finalReport: Option<Uri>,
    verification: Option<Uri>)

  /** A row of the task queue, with its three side columns (work order, review context, handoff URI). */
  datatype Row = Row(
    status: Status,
    role: Role,
    owner: Option<WorkerId>,
    lease: Option<int>,
    attempts: nat,
    enqueuedAt: int,
    order: WorkOrder,
    context: Option<ReviewContext>,
    handoff: Option<Uri>)

  datatype BudgetStatus = Ok | SoftWarning | Exhausted
  {
    function Rank(): nat {
      match this
      case Ok => 0
      case SoftWarning => 1
      case Exhausted => 2
    }
  }

  datatype Budget = Budget(runs: nat, wallMs: real, cost: real, caps: Caps, status: BudgetStatus)

  datatype Health = Healthy | Low | Depleted
  {
    function Rank(): nat {
      match this
      case Healthy => 0
      case Low => 1
      case Depleted => 2
    }
  }

  /** `cost` is `cost_profile?.estimated_cost_per_run_units`. */
  datatype Profile = Profile(
    id: AgentId,
    kinds: seq<string>,
    roles: seq<Role>,
    cost: Option<real>,
    initialSuccess: real,
    initialLatency: real)
  {
    /** What the schema demands of a parsed profile. */
    predicate Valid() {
      && (cost.Some? ==> cost.value >= 0.0)
      && 0.0 <= initialSuccess <= 1.0
      && initialLatency > 0.0
    }

    function EstimatedCost(): real {
      if cost.Some? then cost.value else 0.0
    }
  }

  datatype Metrics = Metrics(successRate: real, avgLatency: real, runsObserved: nat)

  /** One registered agent as the registry lists it. */
  datatype AgentEntry = AgentEntry(profile: Profile, metrics: Metrics, health: Health)

  /** Why a run failed: the failure reasons of both roles, plus the reserved `lease_expired`. */
  datatype FailReason =
    | SpawnFailed
    | AgentNonzeroExit
    | AgentTimedOut
    | ProviderQuotaExhausted
    | ProviderRateLimited
    | ProviderAuthFailed
    | VerificationFailed
    | DiffApplyFailed
    | LeaseExpired
    | InternalError
    | ReviewerUnusable

  datatype Verdict = Approved | ChangesRequested | Rejected

  /** What one call of `runTaskOnce` returns. */
  datatype Outcome =
    | ImplementerSucceeded(run: RunId, diff: Uri, verification: Option<Uri>, finalReport: Option<Uri>)
    | ImplementerFailed(run: RunId, reason: FailReason, diffUri: Option<Uri>, verificationUri: Option<Uri>)
    | ReviewerReturned(run: RunId, verdict: Verdict, verdictUri: Uri)
    | ReviewerFailed(run: RunId, reason: FailReason, failedVerdictUri: Option<Uri>)
  {
    predicate ForRole(role: Role) {
      match role
      case Implementer => ImplementerSucceeded? || ImplementerFailed?
      case Reviewer => ReviewerReturned? || ReviewerFailed?
    }
  }

  datatype RunStatus = Preparing | Running | RunSucceeded | RunFailed | RunCancelled
}
