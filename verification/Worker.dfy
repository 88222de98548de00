/**
 A worker as it runs. The tables represent a state of the protocol; one turn of the loop takes them to a state
 that the protocol reaches by this worker's own actions, so every run of the loop is a run of the protocol.
 */
module Worker {
  import opened Types
  import opened Js
  import opened Budgets
  import opened Events
  import opened Runs
  import opened Handoffs
  import opened Protocol
  import opened Shape
  import opened Traces
  import opened Tables
  import opened QueueStore
  import opened TaskQueue
  import opened Walks
  import opened Handler

  /** What the outside does to one turn of the loop: three clock readings' worth of claim, the handle, and a stop request. */
  datatype Turn = Turn(seen: int, now: int, asImplementer: World, asReviewer: World, stop: bool)
  {
    predicate Proper() {
      && asImplementer.env.ForRole(Implementer) && asReviewer.env.ForRole(Reviewer)
      && asImplementer.newRun == asReviewer.newRun && !Blank(asImplementer.newRun)
    }

    function WorldFor(role: Role): World {
      if role.Implementer? then asImplementer else asReviewer
    }
  }

  /** The tables hold the record of a task. */
  predicate Stored(t: TaskId, rec: TaskRec, rows: map<TaskId, Row>, budgets: map<TaskId, Budget>, events: seq<Event>, runs: map<RunId, RunRecord>) {
    && t in rows && rows[t] == rec.row
    && (if t in budgets then rec.budget == Some(budgets[t]) else rec.budget.None?)
    && EventsOf(events, Some(t)) == rec.log
    && RunMatches(rec.attempts, runs)
  }

  predicate AllStored(tasks: map<TaskId, TaskRec>, rows: map<TaskId, Row>, budgets: map<TaskId, Budget>, events: seq<Event>, runs: map<RunId, RunRecord>) {
    && rows.Keys == tasks.Keys
    && (forall t :: t in tasks ==> Stored(t, tasks[t], rows, budgets, events, runs))
  }

  /** After a handle of `t`, the tables hold its new record, and still hold those of the other tasks. */
  lemma StoredAfter(tasks: map<TaskId, TaskRec>, t: TaskId, rec: TaskRec, base: Base,
                    rows: map<TaskId, Row>, budgets: map<TaskId, Budget>, events: seq<Event>, runs: map<RunId, RunRecord>)
    requires t in tasks && AllStored(tasks, base.rows, base.budgets, base.events, base.runs)
    requires rows == base.rows[t := rec.row]
    requires budgets == (if rec.budget.Some? then base.budgets[t := rec.budget.value] else base.budgets)
    requires rec.budget.None? ==> t !in base.budgets
    requires EventsOf(events, Some(t)) == rec.log && Foreign(events, t) == Foreign(base.events, t)
    requires KeepsRuns(base, runs) && RunMatches(rec.attempts, runs)
    ensures AllStored(tasks[t := rec], rows, budgets, events, runs)
  {
    hide EventsOf, Foreign;
    forall u | u in tasks ensures Stored(u, tasks[t := rec][u], rows, budgets, events, runs) {
      if u != t {
        assert Stored(u, tasks[u], base.rows, base.budgets, base.events, base.runs);
        ForeignDecides(events, t, u);
        ForeignDecides(base.events, t, u);
      }
    }
  }

  // ---- The claim as actions of the protocol ----

  /** The row the store's claim would take is one the protocol's SELECT may return. */
  lemma FirstIsClaimable(tasks: map<TaskId, TaskRec>, ids: seq<TaskId>, rows: map<TaskId, Row>, now: int)
    requires (forall t :: t in ids <==> t in rows) && rows.Keys == tasks.Keys
    requires forall t :: t in tasks ==> rows[t] == tasks[t].row
    ensures var first := FirstOf(Listed(ids, rows), rows, now);
            first.Some? ==> first.value in rows && FirstClaimable(tasks, first.value, now)
  {
    hide Claimable, FirstOf, Listed;
    ClaimTakesOldest(ids, rows, now);
  }

  /** Computing the default lease is a Scan, or nothing when no row is claimable. */
  ghost function ScanActions(w: WorkerId, ids: seq<TaskId>, rows: map<TaskId, Row>, seen: int): seq<Action> {
    var first := FirstOf(Listed(ids, rows), rows, seen);
    if first.Some? then [Scan(w, first.value, seen)] else []
  }

  lemma ScanRun(cfg: Config, s: Sys, w: WorkerId, ids: seq<TaskId>, rows: map<TaskId, Row>, seen: int)
    requires w in s.workers && s.workers[w].phase.Idle? && !s.workers[w].stop
    requires (forall t :: t in ids <==> t in rows) && rows.Keys == s.tasks.Keys
    requires forall t :: t in s.tasks ==> rows[t] == s.tasks[t].row
    ensures Run(cfg, s, ScanActions(w, ids, rows, seen))
            == SetWorker(s, w, s.workers[w].(cache := AfterScan(s.workers[w].cache, ids, rows, seen)))
  {
    hide Claimable, FirstOf, Listed, LocalStep, FirstClaimable;
    FirstIsClaimable(s.tasks, ids, rows, seen);
    var first := FirstOf(Listed(ids, rows), rows, seen);
    var k := s.workers[w];
    assert s.workers[w := k] == s.workers;
    if first.Some? {
      RunOneAction(cfg, s, Scan(w, first.value, seen));
      if first.value in k.cache {
        assert k.cache[first.value := k.cache[first.value]] == k.cache;
      }
    }
  }

  lemma RunOneAction(cfg: Config, s: Sys, a: Action)
    ensures Run(cfg, s, [a]) == Next(cfg, s, a)
  {
    hide Next;
    assert [a][..0] == [];
  }

  function ClaimedRec(rec: TaskRec, w: WorkerId, lease: int): TaskRec {
    rec.(row := ClaimedRow(rec.row, w, lease), claims := rec.claims + 1, mark := |rec.attempts|)
  }

  /** The claim's transaction is a Select and an Update of the same row. */
  lemma ClaimRun(cfg: Config, s: Sys, w: WorkerId, t: TaskId, now: int, lease: int)
    requires w in s.workers && s.workers[w].phase.Idle? && !s.workers[w].stop && FirstClaimable(s.tasks, t, now)
    ensures Run(cfg, s, [Select(w, t, now), Update(w, now, lease)])
            == SetWorker(s.(tasks := s.tasks[t := ClaimedRec(s.tasks[t], w, lease)]), w,
                         s.workers[w].(phase := Begin(t, s.tasks[t].row)))
  {
    hide Claimable, LocalStep;
    var select, update := Select(w, t, now), Update(w, now, lease);
    var s1 := Next(cfg, s, select);
    RunOneAction(cfg, s, select);
    RunOneAction(cfg, s1, update);
    RunAppend(cfg, s, [select], [update]);
    assert [select] + [update] == [select, update];
    var k := s.workers[w];
    assert s1.workers[w := k.(phase := Begin(t, s.tasks[t].row))] == s.workers[w := k.(phase := Begin(t, s.tasks[t].row))];
  }

  class DefaultWorker {
    const id: WorkerId
    const queue: DefaultTaskQueue
    const handler: V1WorkerTaskHandler
    var stopRequested: bool
    var running: bool

    constructor (id: WorkerId, queue: DefaultTaskQueue, handler: V1WorkerTaskHandler)
      requires queue == handler.queue
      ensures this.id == id && this.queue == queue && this.handler == handler && !stopRequested && !running
    {
      this.id, this.queue, this.handler := id, queue, handler;
      stopRequested, running := false, false;
    }

    ghost predicate Valid()
      reads handler, handler.registry, handler.registry.shared
    {
      queue == handler.queue && handler.Valid() && ValidConfig(handler.cfg) && handler.cfg.isolated
    }

    /** The tables and the worker's own state are those of the protocol's state, with this worker at phase `p`. */
    ghost predicate RepresentsAt(s: Sys, p: Phase)
      reads this`stopRequested, handler, handler.db, handler.queue, handler.budgets, handler.registry, handler.registry.shared
    {
      && id in s.workers
      && s.workers[id] == Protocol.Worker(p, handler.queue.workOrders, handler.budgets.emitted, stopRequested)
      && AllStored(s.tasks, handler.db.rows, handler.db.budgets, handler.db.events, handler.db.runs)
      && EventsOf(handler.db.events, None) == s.agentAlarms
      && handler.registry.shared.levels == s.health
      && handler.db.runs.Keys == s.used
    }

    ghost predicate Represents(s: Sys)
      reads this`stopRequested, handler, handler.db, handler.queue, handler.budgets, handler.registry, handler.registry.shared
    {
      RepresentsAt(s, Idle)
    }

    /** The release after the handler threw: by task id alone. */
    method ReleaseAfterHandlerFailure(t: TaskId)
      modifies queue.store.db`rows
      ensures queue.store.db.rows == if t in old(queue.store.db.rows)
                                     then old(queue.store.db.rows)[t := RequeuedRow(old(queue.store.db.rows)[t])]
                                     else old(queue.store.db.rows)
    {
      if t in queue.store.db.rows {
        PatchesAreReleases(queue.store.db.rows[t], Queued, Implementer, 0);
      }
      var ok := queue.Release(t, REQUEUE);
    }

    ghost function BaseNow(newRun: RunId): Base
      reads handler, handler.db
    {
      Base(handler.db.rows, handler.db.budgets, handler.db.events, handler.db.runs, newRun)
    }

    /** The claimed task, seen as a handle sees it. */
    lemma MatchesClaimed(s: Sys, t: TaskId, snap: Row, newRun: RunId)
      requires Valid() && RepresentsAt(s, Begin(t, snap)) && t in s.tasks
      ensures handler.Matches(t, ViewOf(s, id, t), BaseNow(newRun))
    {
      hide EventsOf, Foreign, RunMatches;
      assert Stored(t, s.tasks[t], handler.db.rows, handler.db.budgets, handler.db.events, handler.db.runs);
      assert handler.db.rows[t := handler.db.rows[t]] == handler.db.rows;
      if t in handler.db.budgets {
        assert handler.db.budgets[t := handler.db.budgets[t]] == handler.db.budgets;
      }
    }

    /** What the handle leaves is again a state of the protocol. */
    lemma RepresentsAfter(s: Sys, t: TaskId, v: View, base: Base)
      requires Valid() && id in s.workers && t in s.tasks && handler.Matches(t, v, base)
      requires AllStored(s.tasks, base.rows, base.budgets, base.events, base.runs)
      requires v.worker.stop == stopRequested
      ensures RepresentsAt(Put(s, id, t, v), v.worker.phase)
    {
      hide EventsOf, Foreign, RunMatches, KeepsRuns, AllStored;
      StoredAfter(s.tasks, t, v.rec, base, handler.db.rows, handler.db.budgets, handler.db.events, handler.db.runs);
    }

    /** Handles an entry; an abort thrown by the handler requeues it. */
    method HandleEntry(t: TaskId, entry: Row, world: World, ghost snap: Row, ghost base: Base, ghost v0: View)
      returns (ghost cs: seq<Choice>, ghost v: View)
      requires Valid() && handler.Matches(t, v0, base) && v0.worker.phase == Begin(t, snap) && !Blank(t)
      requires entry.role == snap.role && entry.attempts == snap.attempts
      requires world.newRun == base.newRun && world.newRun !in handler.db.runs && !Blank(world.newRun)
      requires world.env.ForRole(entry.role)
      modifies handler.db`rows, handler.db`budgets, handler.db`runs, handler.db`events, handler.db`metrics,
               queue`workOrders, handler.budgets`emitted, handler.registry`entries, handler.registry.shared`levels
      ensures Valid() && handler.Matches(t, v, base) && Walk(handler.cfg, t, v0, cs, v) && v.worker.phase.Idle?
    {
      assert queue.store.db == handler.db;
      hide V1WorkerTaskHandler.Matches, V1WorkerTaskHandler.Valid, Walk, ValidConfig, Blank;
      var threw;
      threw, cs, v := handler.Handle(t, entry, world, snap, base, v0);
      if threw {
        cs, v := Requeue(t, snap, base, v0, cs, v);
      }
    }

    /** The claimed entry's handle, as a run of the protocol. */
    method HandleClaimed(t: TaskId, entry: Row, world: World, ghost snap: Row, ghost s: Sys) returns (ghost cs: seq<Choice>)
      requires Valid() && RepresentsAt(s, Begin(t, snap)) && t in s.tasks && !Blank(t)
      requires entry.role == snap.role && entry.attempts == snap.attempts
      requires world.newRun !in handler.db.runs && !Blank(world.newRun) && world.env.ForRole(entry.role)
      modifies handler.db`rows, handler.db`budgets, handler.db`runs, handler.db`events, handler.db`metrics,
               queue`workOrders, handler.budgets`emitted, handler.registry`entries, handler.registry.shared`levels
      ensures Valid() && Represents(Run(handler.cfg, s, Works(id, cs)))
      ensures handler.db.rows.Keys == old(handler.db.rows.Keys)
      ensures forall r :: r in handler.db.runs ==> r in old(handler.db.runs) || r == world.newRun
    {
      hide Valid, V1WorkerTaskHandler.Matches, RepresentsAt, AllStored, Walk, Blank, Run, Works;
      Represented(s, Begin(t, snap));
      KnownTask(s, t);
      ghost var base, v0 := BaseNow(world.newRun), ViewOf(s, id, t);
      MatchesClaimed(s, t, snap, world.newRun);
      ghost var v;
      cs, v := HandleEntry(t, entry, world, snap, base, v0);
      RowsKept(t, v, base);
      Concluded(s, t, v0, cs, v, base);
    }

    /** The steps of the handle are a run of the protocol, and the tables hold its result. */
    lemma Concluded(s: Sys, t: TaskId, v0: View, cs: seq<Choice>, v: View, base: Base)
      requires Valid() && id in s.workers && t in s.tasks && v0 == ViewOf(s, id, t) && s.workers[id].stop == stopRequested
      requires Walk(handler.cfg, t, v0, cs, v) && handler.Matches(t, v, base) && v.worker.phase.Idle?
      requires AllStored(s.tasks, base.rows, base.budgets, base.events, base.runs)
      ensures Represents(Run(handler.cfg, s, Works(id, cs)))
      ensures forall r :: r in handler.db.runs ==> r in base.runs || r == base.newRun
    {
      hide V1WorkerTaskHandler.Matches, V1WorkerTaskHandler.Valid, RepresentsAt, AllStored, Walk, LocalStep, Run, Put;
      WalkStays(handler.cfg, t, v0, cs, v);
      WorksRun(handler.cfg, s, id, t, cs);
      StopKept(handler.cfg, t, v0, cs, v);
      RepresentsAfter(s, t, v, base);
      OnlyNewRun(t, v, base);
    }

    lemma RowsKept(t: TaskId, v: View, base: Base)
      requires handler.Matches(t, v, base) && t in base.rows
      ensures handler.db.rows.Keys == base.rows.Keys
    {
      hide EventsOf, Foreign, RunMatches, KeepsRuns;
    }

    lemma KnownTask(s: Sys, t: TaskId)
      requires AllStored(s.tasks, handler.db.rows, handler.db.budgets, handler.db.events, handler.db.runs) && t in s.tasks
      ensures t in handler.db.rows
    {
      hide Stored;
    }

    lemma OnlyNewRun(t: TaskId, v: View, base: Base)
      requires handler.Matches(t, v, base)
      ensures forall r :: r in handler.db.runs ==> r in base.runs || r == base.newRun
    {
      hide EventsOf, Foreign, RunMatches;
    }

    lemma Represented(s: Sys, p: Phase)
      requires RepresentsAt(s, p)
      ensures id in s.workers && s.workers[id].phase == p && s.workers[id].stop == stopRequested
      ensures AllStored(s.tasks, handler.db.rows, handler.db.budgets, handler.db.events, handler.db.runs)
    {
      hide AllStored, EventsOf;
    }

    method Requeue(t: TaskId, ghost snap: Row, ghost base: Base, ghost v0: View, ghost cs0: seq<Choice>, ghost v1: View)
      returns (ghost cs: seq<Choice>, ghost v: View)
      requires Valid() && handler.Matches(t, v1, base) && Walk(handler.cfg, t, v0, cs0, v1) && v1.worker.phase == Failing(t, snap)
      modifies queue.store.db`rows
      ensures Valid() && handler.Matches(t, v, base) && Walk(handler.cfg, t, v0, cs, v) && v.worker.phase.Idle?
    {
      hide EventsOf, Foreign, RunMatches, KeepsRuns, Walk, ValidConfig;
      Overwrite(base.rows, t, v1.rec.row, RequeuedRow(v1.rec.row));
      ReleaseAfterHandlerFailure(t);
      cs, v := FailWalk(handler.cfg, t, v0, cs0, v1);
    }

    // ---- The loop ----

    /** Every action of the run is this worker's own. */
    ghost predicate Own(acts: seq<Action>) {
      forall i :: 0 <= i < |acts| ==> acts[i].w == id
    }

    /** The claim, as a run of the protocol: a Scan, then a Select and an Update of the row it takes. */
    method ClaimNext(seen: int, now: int, ghost s: Sys) returns (entry: Option<(TaskId, Row)>, ghost acts: seq<Action>)
      requires Valid() && handler.db.Valid() && Represents(s) && !stopRequested
      modifies handler.db`rows, queue`workOrders
      ensures Valid() && handler.db.Valid() && Own(acts) && handler.db.rows.Keys == old(handler.db.rows.Keys)
      ensures var s' := Run(handler.cfg, s, acts);
              if entry.None? then Represents(s')
              else
                var (t, row) := entry.value;
                && t in old(handler.db.rows) && t in s'.tasks && RepresentsAt(s', Begin(t, old(handler.db.rows)[t]))
                && row.role == old(handler.db.rows)[t].role && row.attempts == old(handler.db.rows)[t].attempts
    {
      hide AllStored, V1WorkerTaskHandler.Valid, ValidConfig, Run, FirstOf, Listed, AfterScan, ScanActions, FirstClaimable;
      assert queue.store.db == handler.db by {
        StoreIsShared();
      }
      ghost var ids, rows, cache := handler.db.ids, handler.db.rows, queue.workOrders;
      RowsStored(s.tasks, rows, handler.db.budgets, handler.db.events, handler.db.runs);
      ScanRun(handler.cfg, s, id, ids, rows, seen);
      FirstIsClaimable(s.tasks, ids, rows, now);
      ghost var scan := ScanActions(id, ids, rows, seen);
      OwnScan(ids, rows, seen);
      ghost var s1 := Run(handler.cfg, s, scan);
      entry := queue.Claim(id, None, seen, now);
      if entry.None? {
        return None, scan;
      }
      ghost var t, lease := entry.value.0, entry.value.1.lease.value;
      ghost var claim := [Select(id, t, now), Update(id, now, lease)];
      ClaimRun(handler.cfg, s1, id, t, now, lease);
      ClaimStored(s.tasks, t, id, lease, rows, handler.db.budgets, handler.db.events, handler.db.runs);
      RunAppend(handler.cfg, s, scan, claim);
      acts := scan + claim;
    }

    lemma StoreIsShared()
      requires Valid()
      ensures queue.store.db == handler.db
    {
    }

    lemma OwnScan(ids: seq<TaskId>, rows: map<TaskId, Row>, seen: int)
      ensures Own(ScanActions(id, ids, rows, seen))
    {
    }

    /** One turn: claim, and handle what was claimed. */
    method WorkOnce(turn: Turn, ghost s: Sys) returns (claimed: bool, ghost acts: seq<Action>)
      requires Valid() && handler.db.Valid() && Represents(s) && !stopRequested && turn.Proper()
      requires turn.asImplementer.newRun !in handler.db.runs && forall t :: t in handler.db.rows ==> !Blank(t)
      modifies handler.db`rows, handler.db`budgets, handler.db`runs, handler.db`events, handler.db`metrics,
               queue`workOrders, handler.budgets`emitted, handler.registry`entries, handler.registry.shared`levels
      ensures Valid() && handler.db.Valid() && Represents(Run(handler.cfg, s, acts)) && Own(acts)
      ensures handler.db.rows.Keys == old(handler.db.rows.Keys)
      ensures forall r :: r in handler.db.runs ==> r in old(handler.db.runs) || r == turn.asImplementer.newRun
    {
      hide RepresentsAt, Valid, Run, Works, Blank;
      var entry;
      entry, acts := ClaimNext(turn.seen, turn.now, s);
      if entry.None? {
        return false, acts;
      }
      var (t, row) := entry.value;
      ghost var s1 := Run(handler.cfg, s, acts);
      ghost var cs := HandleClaimed(t, row, turn.WorldFor(row.role), old(handler.db.rows)[t], s1);
      RunAppend(handler.cfg, s, acts, Works(id, cs));
      OwnWorks(cs);
      acts := acts + Works(id, cs);
      claimed := true;
    }

    lemma OwnWorks(cs: seq<Choice>)
      ensures Own(Works(id, cs))
    {
    }

    /** A stop is a request: the turn under way is finished first. */
    method Stop(ghost s: Sys) returns (ghost acts: seq<Action>)
      requires Valid() && Represents(s)
      modifies this`stopRequested
      ensures stopRequested && Valid() && Represents(Run(handler.cfg, s, acts)) && Own(acts)
    {
      hide AllStored, V1WorkerTaskHandler.Valid, ValidConfig;
      acts := [RequestStop(id)];
      RunOneAction(handler.cfg, s, RequestStop(id));
      stopRequested := true;
    }

    /**
     The loop: turns until a stop is requested, or until the outside gives no more of them. The tables always
     represent a state that the protocol reaches by this worker's actions; a stopped worker has halted there.
     */
    method Loop(turns: seq<Turn>, ghost s: Sys) returns (ghost acts: seq<Action>)
      requires Valid() && handler.db.Valid() && Represents(s) && !stopRequested && forall t :: t in handler.db.rows ==> !Blank(t)
      requires forall i :: 0 <= i < |turns| ==> turns[i].Proper() && turns[i].asImplementer.newRun !in handler.db.runs
      requires forall i, j :: 0 <= i < j < |turns| ==> turns[i].asImplementer.newRun != turns[j].asImplementer.newRun
      modifies this, handler.db`rows, handler.db`budgets, handler.db`runs, handler.db`events, handler.db`metrics,
               queue`workOrders, handler.budgets`emitted, handler.registry`entries, handler.registry.shared`levels
      ensures Valid() && !running && Own(acts)
      ensures RepresentsAt(Run(handler.cfg, s, acts), if stopRequested then Halted else Idle)
      ensures stopRequested <==> exists i :: 0 <= i < |turns| && turns[i].stop
    {
      hide RepresentsAt, Valid, Run, Blank, Turn.Proper, Own;
      running := true;
      acts := [];
      NoActions(s);
      var i := 0;
      while i < |turns| && !stopRequested
        invariant 0 <= i <= |turns| && Valid() && handler.db.Valid() && Own(acts)
        invariant Represents(Run(handler.cfg, s, acts))
        invariant handler.db.rows.Keys == old(handler.db.rows.Keys)
        invariant forall k :: i <= k < |turns| ==> turns[k].asImplementer.newRun !in handler.db.runs
        invariant stopRequested <==> exists k :: 0 <= k < i && turns[k].stop
      {
        ghost var more;
        var claimed;
        claimed, more := WorkOnce(turns[i], Run(handler.cfg, s, acts));
        acts := Joined(s, acts, more);
        if turns[i].stop {
          more := Stop(Run(handler.cfg, s, acts));
          acts := Joined(s, acts, more);
        }
        i := i + 1;
      }
      running := false;
      if stopRequested {
        ghost var more := HaltNow(Run(handler.cfg, s, acts));
        acts := Joined(s, acts, more);
      }
    }

    lemma NoActions(s: Sys)
      ensures Run(handler.cfg, s, []) == s && Own([])
    {
    }

    lemma Joined(s: Sys, xs: seq<Action>, ys: seq<Action>) returns (all: seq<Action>)
      requires Own(xs) && Own(ys)
      ensures all == xs + ys && Own(all) && Run(handler.cfg, s, all) == Run(handler.cfg, Run(handler.cfg, s, xs), ys)
    {
      hide Run;
      all := xs + ys;
      RunAppend(handler.cfg, s, xs, ys);
    }

    /** A stopped worker between handles halts. */
    lemma HaltNow(s: Sys) returns (acts: seq<Action>)
      requires Represents(s) && stopRequested
      ensures RepresentsAt(Run(handler.cfg, s, acts), Halted) && Own(acts)
    {
      hide AllStored;
      acts := [Action.Halt(id)];
      RunOneAction(handler.cfg, s, Action.Halt(id));
    }
  }

  lemma RowsStored(tasks: map<TaskId, TaskRec>, rows: map<TaskId, Row>, budgets: map<TaskId, Budget>, events: seq<Event>, runs: map<RunId, RunRecord>)
    requires AllStored(tasks, rows, budgets, events, runs)
    ensures rows.Keys == tasks.Keys && forall t :: t in tasks ==> rows[t] == tasks[t].row
  {
    hide EventsOf, RunMatches;
    forall t | t in tasks ensures t in rows && rows[t] == tasks[t].row {
      assert Stored(t, tasks[t], rows, budgets, events, runs);
    }
  }

  lemma ClaimStored(tasks: map<TaskId, TaskRec>, t: TaskId, w: WorkerId, lease: int,
                    rows: map<TaskId, Row>, budgets: map<TaskId, Budget>, events: seq<Event>, runs: map<RunId, RunRecord>)
    requires AllStored(tasks, rows, budgets, events, runs) && t in tasks && t in rows
    ensures AllStored(tasks[t := ClaimedRec(tasks[t], w, lease)], rows[t := ClaimedRow(rows[t], w, lease)], budgets, events, runs)
  {
    hide EventsOf, RunMatches;
    forall u | u in tasks
      ensures Stored(u, tasks[t := ClaimedRec(tasks[t], w, lease)][u], rows[t := ClaimedRow(rows[t], w, lease)], budgets, events, runs)
    {
      assert Stored(u, tasks[u], rows, budgets, events, runs);
    }
  }

  lemma WalkStays(cfg: Config, t: TaskId, v0: View, cs: seq<Choice>, v: View)
    requires Walk(cfg, t, v0, cs, v)
    ensures Stays(cfg, v0, t, cs) && Steps(cfg, v0, cs) == v
  {
    hide LocalStep;
  }

  /** The worker's own steps never touch its stop flag. */
  lemma {:induction false} StopKept(cfg: Config, t: TaskId, v0: View, cs: seq<Choice>, v: View)
    requires Steps(cfg, v0, cs) == v
    ensures v.worker.stop == v0.worker.stop
  {
    hide LocalStep;
    if cs != [] {
      var mid := Steps(cfg, v0, cs[..|cs| - 1]);
      StopKept(cfg, t, v0, cs[..|cs| - 1], mid);
      StopStep(cfg, mid, cs[|cs| - 1]);
    }
  }

  lemma StopStep(cfg: Config, v: View, c: Choice)
    ensures LocalStep(cfg, v, c).worker.stop == v.worker.stop
  {
    hide OnBegin, OnReading, OnInserting, OnSyncing, OnConsulting, OnChoosing, OnCleared, OnCharging, OnChargeRead,
         OnCharged, OnLaunching, OnStarting, OnExecuting, OnFinished, OnBilling, OnBillRead, OnBillWrite, OnBilled,
         OnRecording, Settle, OnContexting, OnPackaging, OnExcluding, OnAddressing, OnReleasing, OnReporting, OnFailing;
    var p := v.worker.phase;
    if p.Charged? || p.Launching? || p.Starting? || p.Executing? || p.Billed? || p.Recording? {
      StopRun(v, p, c);
    } else if p.Begin? || p.Reading? || p.Inserting? || p.Syncing? || p.Consulting? || p.Choosing? || p.Cleared?
              || p.Charging? || p.ChargeRead? {
      StopEarly(cfg, v, p, c);
    } else {
      StopLate(cfg, v, p, c);
    }
  }

  lemma StopRun(v: View, p: Phase, c: Choice)
    ensures p.Charged? ==> OnCharged(v, p).worker.stop == v.worker.stop
    ensures p.Billed? ==> OnBilled(v, p).worker.stop == v.worker.stop
    ensures p.Launching? ==> OnLaunching(v, p, c).worker.stop == v.worker.stop
    ensures p.Starting? ==> OnStarting(v, p, c).worker.stop == v.worker.stop
    ensures p.Executing? ==> OnExecuting(v, p, c).worker.stop == v.worker.stop
    ensures p.Recording? ==> OnRecording(v, p).worker.stop == v.worker.stop
  {
    hide PickAxis, Execute, CreationFailure, WorseHealth;
  }

  lemma StopEarly(cfg: Config, v: View, p: Phase, c: Choice)
    ensures p.Begin? ==> OnBegin(v, p, c).worker.stop == v.worker.stop
    ensures p.Reading? ==> OnReading(v, p).worker.stop == v.worker.stop
    ensures p.Inserting? ==> OnInserting(v, p).worker.stop == v.worker.stop
    ensures p.Syncing? ==> OnSyncing(v, p).worker.stop == v.worker.stop
    ensures p.Consulting? ==> OnConsulting(v, p).worker.stop == v.worker.stop
    ensures p.Choosing? ==> OnChoosing(cfg, v, p, c).worker.stop == v.worker.stop
    ensures p.Cleared? ==> OnCleared(v, p, c).worker.stop == v.worker.stop
    ensures p.Charging? ==> OnCharging(v, p).worker.stop == v.worker.stop
    ensures p.ChargeRead? ==> OnChargeRead(v, p).worker.stop == v.worker.stop
  {
    hide DecisionAt, RefusalPhase, PreLaunched, SyncEmitted;
  }

  lemma StopLate(cfg: Config, v: View, p: Phase, c: Choice)
    ensures p.Finished? ==> OnFinished(v, p).worker.stop == v.worker.stop
    ensures p.Billing? ==> OnBilling(v, p).worker.stop == v.worker.stop
    ensures p.BillRead? ==> OnBillRead(v, p).worker.stop == v.worker.stop
    ensures p.BillWrite? ==> OnBillWrite(cfg, v, p, c).worker.stop == v.worker.stop
    ensures p.Contexting? ==> OnContexting(v, p).worker.stop == v.worker.stop
    ensures p.Packaging? ==> OnPackaging(v, p).worker.stop == v.worker.stop
    ensures p.Excluding? ==> OnExcluding(v, p).worker.stop == v.worker.stop
    ensures p.Addressing? ==> OnAddressing(v, p).worker.stop == v.worker.stop
    ensures p.Releasing? ==> OnReleasing(v, p).worker.stop == v.worker.stop
    ensures p.Reporting? ==> OnReporting(v, p).worker.stop == v.worker.stop
    ensures p.Failing? ==> OnFailing(v, p).worker.stop == v.worker.stop
  {
    hide PostRan, CostOf, Merged;
  }

  lemma FailWalk(cfg: Config, t: TaskId, v0: View, cs0: seq<Choice>, v1: View) returns (cs: seq<Choice>, v: View)
    requires Walk(cfg, t, v0, cs0, v1) && v1.worker.phase.Failing? && v1.worker.phase.task == t
    ensures Walk(cfg, t, v0, cs, v) && v == v1.WithRow(RequeuedRow(v1.rec.row)).To(Idle)
  {
    hide LocalStep, Walk, OnBegin, OnReading, OnInserting, OnSyncing, OnConsulting, OnChoosing, OnCleared,
         OnCharging, OnChargeRead, OnCharged, OnLaunching, OnStarting, OnExecuting, OnFinished, OnBilling,
         OnBillRead, OnBillWrite, OnBilled, OnRecording, Settle, OnContexting, OnPackaging, OnExcluding,
         OnAddressing, OnReleasing, OnReporting;
    cs, v := cs0, v1;
    Dispatch(cfg, v, Go);
    cs, v := Advance(cfg, t, v0, cs, v, Go);
  }
}
