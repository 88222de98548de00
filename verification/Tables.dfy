/** The shared database: one in-memory table per SQL table, updated in place by the stores. */
module Tables {
  import opened Types
  import opened Sorting
  import opened Events

  datatype RunRecord = RunRecord(task: TaskId, agent: AgentId, role: Role, status: RunStatus)

  datatype MetricsRow = MetricsRow(agent: AgentId, success: bool, wallMs: real)

  class Database {
    var ids: seq<TaskId>  // the rows of task_queue in insertion order
    var rows: map<TaskId, Row>
    var budgets: map<TaskId, Budget>
    var runs: map<RunId, RunRecord>
    var events: seq<Event>
    var metrics: seq<MetricsRow>

    /** `task_id` is the primary key of the queue table. */
    ghost predicate Valid()
      reads this`ids, this`rows
    {
      && (forall i, j :: 0 <= i < j < |ids| ==> ids[i] != ids[j])
      && (forall t :: t in ids <==> t in rows)
    }

    constructor ()
      ensures Valid() && rows == map[] && budgets == map[] && runs == map[] && events == [] && metrics == []
    {
      ids, rows, budgets, runs, events, metrics := [], map[], map[], map[], [], [];
    }
  }

  function EnqueuedAt(rows: map<TaskId, Row>, t: TaskId): int {
    if t in rows then rows[t].enqueuedAt else 0
  }

  function ByAge(rows: map<TaskId, Row>): (TaskId, TaskId) -> bool {
    (a: TaskId, b: TaskId) => EnqueuedAt(rows, a) <= EnqueuedAt(rows, b)
  }

  /** `order by enqueued_at asc`, rows of equal age staying in insertion order. */
  function Listed(ids: seq<TaskId>, rows: map<TaskId, Row>): seq<TaskId> {
    Sort(ids, ByAge(rows))
  }

  lemma ListedFacts(ids: seq<TaskId>, rows: map<TaskId, Row>)
    ensures forall t :: t in Listed(ids, rows) <==> t in ids
    ensures forall i, j :: 0 <= i < j < |Listed(ids, rows)| ==>
              EnqueuedAt(rows, Listed(ids, rows)[i]) <= EnqueuedAt(rows, Listed(ids, rows)[j])
    ensures |Listed(ids, rows)| == |ids|
  {
    SortPermutes(ids, ByAge(rows));
    Members(Listed(ids, rows), ids);
    SortSorts(ids, ByAge(rows));
    var xs := Listed(ids, rows);
    forall i, j | 0 <= i < j < |xs| ensures EnqueuedAt(rows, xs[i]) <= EnqueuedAt(rows, xs[j]) {
      assert ByAge(rows)(xs[i], xs[j]);
    }
  }

  /** The events of one task, or those of no task, in order. */
  function EventsOf(events: seq<Event>, t: Option<TaskId>): seq<Event> {
    if events == [] then []
    else EventsOf(events[..|events| - 1], t) + if events[|events| - 1].task == t then [events[|events| - 1]] else []
  }

  lemma EventsOfAppend(events: seq<Event>, e: Event, t: Option<TaskId>)
    ensures EventsOf(events + [e], t) == EventsOf(events, t) + if e.task == t then [e] else []
  {
    assert (events + [e])[..|events|] == events;
  }
}
