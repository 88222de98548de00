/** A batch: loading its orders, the worker pool that runs it, waiting until it has finished, and its result. */
module Batch {
  import opened Types
  import opened Sorting
  import opened Scheduler
  import opened SchedulerLaws
  import opened Protocol
  import opened Shape
  import opened Safety
  import opened TaskQueue

  // ---- Loading ----

  /** What reading one file of the batch gives. */
  datatype Input = Unreadable | OldVersion | Order(task: TaskId)

  datatype Loaded = Tasks(ids: seq<TaskId>) | NoFiles | Refused(file: nat)

  /** The file is readable, of version 1, and its task has not been seen in an earlier file. */
  predicate Sound(inputs: seq<Input>, i: nat)
    requires i < |inputs|
  {
    inputs[i].Order? && forall k :: 0 <= k < i ==> inputs[k] != inputs[i]
  }

  /** Fails without files, or at the first that is not sound; else the task ids, in file order, are pairwise distinct. */
  method LoadBatchWorkOrders(inputs: seq<Input>) returns (r: Loaded)
    ensures r.NoFiles? <==> inputs == []
    ensures r.Tasks? <==> inputs != [] && forall i :: 0 <= i < |inputs| ==> Sound(inputs, i)
    ensures r.Tasks? ==> |r.ids| == |inputs| && forall i :: 0 <= i < |inputs| ==> inputs[i] == Order(r.ids[i])
    ensures r.Tasks? ==> forall i, j :: 0 <= i < j < |r.ids| ==> r.ids[i] != r.ids[j]
    ensures r.Refused? ==> r.file < |inputs| && !Sound(inputs, r.file) && forall i :: 0 <= i < r.file ==> Sound(inputs, i)
  {
    if |inputs| == 0 {
      return NoFiles;
    }
    var seen: map<TaskId, nat> := map[];
    var ids: seq<TaskId> := [];
    for i := 0 to |inputs|
      invariant |ids| == i && forall k :: 0 <= k < i ==> inputs[k] == Order(ids[k]) && Sound(inputs, k)
      invariant forall t :: t in seen <==> exists k :: 0 <= k < i && inputs[k] == Order(t)
    {
      if inputs[i].Unreadable? {
        assert !Sound(inputs, i);
        return Refused(i);
      }
      if inputs[i].OldVersion? {
        assert !Sound(inputs, i);
        return Refused(i);
      }
      if inputs[i].task in seen {
        assert !Sound(inputs, i);
        return Refused(i);
      }
      seen := seen[inputs[i].task := i];
      ids := ids + [inputs[i].task];
    }
    r := Tasks(ids);
    forall i, j | 0 <= i < j < |ids| ensures ids[i] != ids[j] {
      assert Sound(inputs, j);
    }
  }

  // ---- The result ----

  datatype TaskResult = TaskResult(task: TaskId, status: Status, attempts: nat)

  datatype BatchResult = Results(tasks: seq<TaskResult>) | Missing(task: TaskId) | Unfinished(task: TaskId)

  function ById(rank: TaskId -> int): (TaskId, TaskId) -> bool {
    (a: TaskId, b: TaskId) => rank(a) <= rank(b)
  }

  /** The results in task-id order; fails on a task that is missing or has not finished. */
  method BuildBatchResult(rows: map<TaskId, Row>, ids: seq<TaskId>, rank: TaskId -> int) returns (r: BatchResult)
    ensures r.Results? <==> forall t :: t in ids ==> t in rows && rows[t].status.Terminal()
    ensures r.Missing? ==> r.task in ids && r.task !in rows
    ensures r.Unfinished? ==> r.task in ids && r.task in rows && !rows[r.task].status.Terminal()
    ensures r.Results? ==> |r.tasks| == |ids|
    ensures r.Results? ==>
              forall i :: 0 <= i < |r.tasks| ==>
                var x := r.tasks[i]; x.task in ids && x.task in rows && x.status == rows[x.task].status && x.attempts == rows[x.task].attempts
    ensures r.Results? ==> forall t :: t in ids ==> exists i :: 0 <= i < |r.tasks| && r.tasks[i].task == t
    ensures r.Results? ==> forall i, j :: 0 <= i < j < |r.tasks| ==> rank(r.tasks[i].task) <= rank(r.tasks[j].task)
  {
    hide Sort;
    var ordered := Sort(ids, ById(rank));
    SortPermutes(ids, ById(rank));
    SortSorts(ids, ById(rank));
    Members(ordered, ids);
    var tasks: seq<TaskResult> := [];
    for i := 0 to |ordered|
      invariant |tasks| == i
      invariant forall k :: 0 <= k < i ==>
                  ordered[k] in rows && rows[ordered[k]].status.Terminal()
                  && tasks[k] == TaskResult(ordered[k], rows[ordered[k]].status, rows[ordered[k]].attempts)
    {
      var t := ordered[i];
      assert t in ordered;
      if t !in rows {
        return Missing(t);
      }
      var status := rows[t].status;
      if !status.Accepted? && !status.Failed? && !status.AwaitingHuman? {
        return Unfinished(t);
      }
      tasks := tasks + [TaskResult(t, status, rows[t].attempts)];
    }
    r := Results(tasks);
    forall t | t in ids ensures t in rows && rows[t].status.Terminal() && exists i :: 0 <= i < |tasks| && tasks[i].task == t {
      assert t in ordered;
      var k :| 0 <= k < |ordered| && ordered[k] == t;
      assert tasks[k].task == t;
    }
    forall i, j | 0 <= i < j < |tasks| ensures rank(tasks[i].task) <= rank(tasks[j].task) {
      assert ById(rank)(ordered[i], ordered[j]);
    }
  }

  // ---- Waiting ----

  /** The monitor's list, cut down to the batch. */
  function Scoped(terminal: seq<TaskId>, ids: seq<TaskId>): seq<TaskId> {
    Filter((t: TaskId) => t in ids, terminal)
  }

  /** Polls until enough tasks of the batch have finished; the number of the poll that saw it, if one did. */
  method WaitForAllTerminal(polls: seq<seq<TaskId>>, expected: nat) returns (done: Option<nat>)
    ensures done.Some? ==> done.value < |polls| && |polls[done.value]| >= expected
    ensures forall k :: 0 <= k < (if done.Some? then done.value else |polls|) ==> |polls[k]| < expected
  {
    var i := 0;
    while i < |polls| && |polls[i]| < expected
      invariant 0 <= i <= |polls|
      invariant forall k :: 0 <= k < i ==> |polls[k]| < expected
    {
      i := i + 1;
    }
    done := if i < |polls| then Some(i) else None;
  }

  /** Distinct tasks, all among distinct batch ids: as many as the batch exactly when none is missing. */
  lemma Pigeonhole(terminal: seq<TaskId>, ids: seq<TaskId>)
    requires forall i, j :: 0 <= i < j < |terminal| ==> terminal[i] != terminal[j]
    requires forall i, j :: 0 <= i < j < |ids| ==> ids[i] != ids[j]
    ensures |Scoped(terminal, ids)| >= |ids| <==> forall t :: t in ids ==> t in terminal
  {
    var scoped := Scoped(terminal, ids);
    var p := (t: TaskId) => t in ids;
    FilterMembers(p, terminal);
    var differ := (a: TaskId, b: TaskId) => a != b;
    FilterPairs(p, terminal, differ);
    forall i, j | 0 <= i < j < |scoped| ensures scoped[i] != scoped[j] {
      assert differ(scoped[i], scoped[j]);
    }
    DistinctCount(scoped);
    DistinctCount(ids);
    var some, all := set t | t in scoped, set t | t in ids;
    if |scoped| >= |ids| {
      SubsetSame(some, all);
      forall t | t in ids ensures t in terminal {
        assert t in all;
      }
    } else {
      if forall t :: t in ids ==> t in terminal {
        assert all <= some;
        SubsetSize(all, some);
      }
    }
  }

  lemma {:induction false} DistinctCount(xs: seq<TaskId>)
    requires forall i, j :: 0 <= i < j < |xs| ==> xs[i] != xs[j]
    ensures |set t | t in xs| == |xs|
  {
    if xs != [] {
      var n := |xs| - 1;
      DistinctCount(xs[..n]);
      assert (set t | t in xs) == (set t | t in xs[..n]) + {xs[n]};
      assert xs[n] !in xs[..n];
    }
  }

  lemma {:induction false} SubsetSize<T>(a: set<T>, b: set<T>)
    requires a <= b
    ensures |a| <= |b|
    decreases a
  {
    if a != {} {
      var x :| x in a;
      SubsetSize(a - {x}, b - {x});
    }
  }

  /** A subset as large as the whole is the whole. */
  lemma SubsetSame<T>(a: set<T>, b: set<T>)
    requires a <= b && |a| >= |b|
    ensures a == b
  {
    if x :| x in b && x !in a {
      SubsetSize(a, b - {x});
    }
  }

  /** When the monitor's count reaches the batch, and only then, every task of the batch has finished. */
  lemma WaitingSound(dbIds: seq<TaskId>, rows: map<TaskId, Row>, batch: seq<TaskId>)
    requires forall i, j :: 0 <= i < j < |dbIds| ==> dbIds[i] != dbIds[j]
    requires forall t :: t in dbIds <==> t in rows
    requires forall i, j :: 0 <= i < j < |batch| ==> batch[i] != batch[j]
    ensures |Scoped(TerminalOf(dbIds, rows), batch)| >= |batch| <==>
            forall t :: t in batch ==> t in rows && rows[t].status.Terminal()
  {
    TerminalFacts(dbIds, rows);
    Pigeonhole(TerminalOf(dbIds, rows), batch);
  }

  /**
   In any run of any workers: once the monitor has counted the batch as finished, every task of the batch is
   finished in every later state, with the same row, so building the result cannot fail.
   */
  lemma FinishedForGood(cfg: Config, s0: Sys, acts: seq<Action>, later: seq<Action>,
                        dbIds: seq<TaskId>, rows: map<TaskId, Row>, batch: seq<TaskId>, t: TaskId)
    requires ValidConfig(cfg) && Initial(s0)
    requires rows.Keys == Run(cfg, s0, acts).tasks.Keys && forall u :: u in rows ==> rows[u] == Run(cfg, s0, acts).tasks[u].row
    requires forall i, j :: 0 <= i < j < |dbIds| ==> dbIds[i] != dbIds[j]
    requires forall u :: u in dbIds <==> u in rows
    requires forall i, j :: 0 <= i < j < |batch| ==> batch[i] != batch[j]
    requires |Scoped(TerminalOf(dbIds, rows), batch)| >= |batch| && t in batch
    ensures var s' := Run(cfg, s0, acts + later);
            t in rows && t in s'.tasks && s'.tasks[t].row.status.Terminal() && s'.tasks[t].row == rows[t]
  {
    hide Run, Scoped, TerminalOf;
    WaitingSound(dbIds, rows, batch);
    TerminalAbsorbing(cfg, s0, acts, later, t);
  }

  // ---- The pool ----

  datatype StartError = AlreadyStarted | BadWorkerCount | ServiceFailed | WorkerFailed

  class DefaultWorkerPool {
    var workers: seq<WorkerId>
    var started: bool
    var stopped: bool
    var pending: seq<WorkerId>  // the records of a failed start, to be cleaned up
    var services: set<WorkerId>  // the services created and not closed
    ghost var late: bool  // started after a stop

    /** Open are the services of a failed start's records, and those of the workers unless a stop has closed them. */
    ghost predicate Valid()
      reads this
    {
      && services == (set w | w in pending) + (if stopped && !late then {} else set w | w in workers)
      && (!started ==> workers == [] && pending == [] && !late)
      && (pending != [] ==> workers == [])
      && (late ==> stopped)
    }

    constructor ()
      ensures Valid() && !started && !stopped && services == {} && !late
    {
      workers, pending, started, stopped, services := [], [], false, false, {};
      late := false;
    }

    /**
     Creates services and workers under fresh ids. `serviceFails` and `workerFails` say at which index creating
     the service or the worker throws; every service created before is then left to the cleanup. Whether the pool
     was stopped before is not looked at.
     */
    method Start(count: int, ids: seq<WorkerId>, serviceFails: Option<nat>, workerFails: Option<nat>) returns (error: Option<StartError>)
      requires Valid() && (1 <= count <= 16 ==> |ids| == count)
      modifies this
      ensures Valid() && stopped == old(stopped) && late == (if started && !old(started) then stopped else old(late))
      ensures error == Some(AlreadyStarted) <==> old(started)
      ensures error == Some(BadWorkerCount) <==> !old(started) && !(1 <= count <= 16)
      ensures error.None? ==> started && workers == ids && pending == [] && services == set w | w in ids
      ensures error.Some? ==> workers == old(workers)
      ensures error == Some(AlreadyStarted) || error == Some(BadWorkerCount) ==> services == old(services) && started == old(started)
      ensures error == Some(ServiceFailed) || error == Some(WorkerFailed) ==> started && services == set w | w in pending
    {
      if started {
        return Some(AlreadyStarted);
      }
      if count < 1 || count > 16 {
        return Some(BadWorkerCount);
      }
      started := true;
      late := stopped;
      var records: seq<WorkerId> := [];
      for i := 0 to count
        invariant records == ids[..i] && services == set w | w in records
        invariant started && stopped == old(stopped) && late == stopped && workers == [] && pending == []
      {
        if serviceFails == Some(i) {
          pending := records;
          return Some(ServiceFailed);
        }
        services := services + {ids[i]};
        records := records + [ids[i]];
        if workerFails == Some(i) {
          pending := records;
          return Some(WorkerFailed);
        }
      }
      workers := records;
      error := None;
    }

    /**
     Closes the records of a failed start, and at the first stop the service of every worker. A later stop does
     nothing more: workers of a pool that was started after it was stopped are reached by none, and keep their
     services.
     */
    method Stop()
      requires Valid()
      modifies this
      ensures Valid() && stopped && pending == [] && workers == old(workers) && started == old(started) && late == old(late)
      ensures services == if late then set w | w in workers else {}
    {
      CleanupAfterStartFailure();
      if stopped {
        return;
      }
      for i := 0 to |workers|
        invariant workers == old(workers) && started == old(started) && late == old(late)
        invariant services == (set w | w in workers[i..]) && pending == [] && !stopped
      {
        assert workers[i..] == [workers[i]] + workers[i + 1..];
        services := if workers[i] in workers[i + 1..] then services else services - {workers[i]};
      }
      stopped := true;
    }

    /** Closes the records of a failed start, last first. */
    method CleanupAfterStartFailure()
      requires Valid()
      modifies this`pending, this`services
      ensures Valid() && pending == []
    {
      ghost var others := if stopped && !late then {} else set w | w in workers;
      while pending != []
        invariant services == (set w | w in pending) + others
        invariant !started ==> pending == []
        invariant pending != [] ==> workers == []
        decreases |pending|
      {
        var n := |pending| - 1;
        var w := pending[n];
        assert pending == pending[..n] + [w];
        pending := pending[..n];
        services := if w in pending then services else services - {w};
      }
    }
  }
}
