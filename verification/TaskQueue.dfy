/** A worker's view of the queue: the store plus a private cache of work orders, which may go stale. */
module TaskQueue {
  import opened Types
  import opened Sorting
  import opened Scheduler
  import opened SchedulerLaws
  import opened Handoffs
  import opened Protocol
  import opened Shape
  import opened Tables
  import opened QueueStore

  /** Seconds: the budgeted wall time and a minute's grace, at most one hour. */
  function DefaultLeaseSeconds(o: WorkOrder): real {
    var budgeted := o.maxWallMinutes * 60.0 + 60.0;
    if budgeted <= 3600.0 then budgeted else 3600.0
  }

  /** The cached copy if there is one, else the stored order. */
  function Seen(cache: map<TaskId, WorkOrder>, rows: map<TaskId, Row>, t: TaskId): WorkOrder
    requires t in rows
  {
    if t in cache then cache[t] else rows[t].order
  }

  /** Every cached copy lags at most behind its stored order. */
  ghost predicate CacheBehind(cache: map<TaskId, WorkOrder>, rows: map<TaskId, Row>) {
    forall t :: t in cache ==> t in rows && CacheOk(cache[t], rows[t].order)
  }

  /** No queued row has an owner, so no clock decides what can be claimed. */
  ghost predicate QueuedUnowned(rows: map<TaskId, Row>) {
    forall t :: t in rows && rows[t].status.Queued? ==> rows[t].owner.None?
  }

  /** The cache after the lease computation: the row it expects to be claimed is in it. */
  function AfterScan(cache: map<TaskId, WorkOrder>, ids: seq<TaskId>, rows: map<TaskId, Row>, seen: int): map<TaskId, WorkOrder> {
    var first := FirstOf(Listed(ids, rows), rows, seen);
    if first.Some? && first.value in rows then cache[first.value := Seen(cache, rows, first.value)] else cache
  }

  /** With unowned queued rows, two clock readings find the same row. */
  lemma {:induction false} SameFirst(listed: seq<TaskId>, rows: map<TaskId, Row>, now: int, now': int)
    requires QueuedUnowned(rows)
    ensures FirstOf(listed, rows, now) == FirstOf(listed, rows, now')
  {
    if listed != [] {
      SameFirst(listed[1..], rows, now, now');
    }
  }

  /**
   The lease is the budgeted time and a minute's grace, if that is at most an hour, and an hour otherwise: so it
   lasts for the whole budget if and only if that is no more than an hour.
   */
  lemma LeaseExact(o: WorkOrder)
    ensures DefaultLeaseSeconds(o) <= 3600.0
    ensures DefaultLeaseSeconds(o) == 60.0 * (o.maxWallMinutes + 1.0) <==> o.maxWallMinutes <= 59.0
    ensures o.maxWallMinutes >= 59.0 ==> DefaultLeaseSeconds(o) == 3600.0
    ensures DefaultLeaseSeconds(o) >= 60.0 * o.maxWallMinutes <==> o.maxWallMinutes <= 60.0
  {
  }

  /** A lagging copy gives the same lease: the wall-time budget is not what can lag. */
  lemma LeaseOfCopy(cached: WorkOrder, stored: WorkOrder)
    requires CacheOk(cached, stored)
    ensures DefaultLeaseSeconds(cached) == DefaultLeaseSeconds(stored)
  {
    assert cached.Core().maxWallMinutes == stored.Core().maxWallMinutes;
  }

  lemma LeaseSeen(cache: map<TaskId, WorkOrder>, rows: map<TaskId, Row>, t: TaskId)
    requires CacheBehind(cache, rows) && t in rows
    ensures DefaultLeaseSeconds(Seen(cache, rows, t)) == DefaultLeaseSeconds(rows[t].order)
  {
    if t in cache {
      LeaseOfCopy(cache[t], rows[t].order);
    }
  }

  /** Neither the lease computation nor a claim makes a copy run ahead of the store. */
  lemma ClaimBehind(cache: map<TaskId, WorkOrder>, ids: seq<TaskId>, rows: map<TaskId, Row>, seen: int, t: TaskId, row: Row)
    requires CacheBehind(cache, rows) && t in rows && row.order == rows[t].order
    ensures CacheBehind(cache, rows[t := row])
    ensures CacheBehind(AfterScan(cache, ids, rows, seen), rows[t := row])
  {
    hide FirstOf, Listed;
  }

  lemma ScanBehind(cache: map<TaskId, WorkOrder>, ids: seq<TaskId>, rows: map<TaskId, Row>, seen: int)
    requires CacheBehind(cache, rows)
    ensures CacheBehind(AfterScan(cache, ids, rows, seen), rows)
  {
    hide FirstOf, Listed;
  }

  class DefaultTaskQueue {
    const store: SqliteQueueStore
    var workOrders: map<TaskId, WorkOrder>

    constructor (store: SqliteQueueStore)
      ensures this.store == store && workOrders == map[]
    {
      this.store := store;
      workOrders := map[];
    }

    /** The entry starts queued, unowned, and without attempts; the order is cached as given. */
    method Enqueue(t: TaskId, order: WorkOrder, role: Role, now: int) returns (ok: bool)
      requires store.db.Valid()
      modifies store.db`ids, store.db`rows, this`workOrders
      ensures store.db.Valid() && ok == (t !in old(store.db.rows))
      ensures ok ==> store.db.rows == old(store.db.rows)[t := Row(Queued, role, None, None, 0, now, order, None, None)]
      ensures ok ==> workOrders == old(workOrders)[t := order]
      ensures !ok ==> store.db.rows == old(store.db.rows) && workOrders == old(workOrders)
    {
      ok := store.Insert(t, Row(Queued, role, None, None, 0, now, order, None, None));
      if ok {
        workOrders := workOrders[t := order];
      }
    }

    /** Scans for the row the store would claim, caching its order on the way. */
    method ComputeDefaultLeaseForNextClaimable(now: int) returns (seconds: real)
      requires store.db.Valid()
      modifies this`workOrders
      ensures var first := FirstOf(Listed(store.db.ids, store.db.rows), store.db.rows, now);
              if first.None? then seconds == 3600.0 && workOrders == old(workOrders)
              else
                && first.value in store.db.rows
                && seconds == DefaultLeaseSeconds(Seen(old(workOrders), store.db.rows, first.value))
                && workOrders == old(workOrders)[first.value := Seen(old(workOrders), store.db.rows, first.value)]
    {
      hide FirstOf, Listed, DefaultLeaseSeconds;
      var listed := Listed(store.db.ids, store.db.rows);
      ListedFacts(store.db.ids, store.db.rows);
      for i := 0 to |listed|
        invariant forall k :: 0 <= k < i ==> !(listed[k] in store.db.rows && Claimable(store.db.rows[listed[k]], now))
        invariant workOrders == old(workOrders)
      {
        var t := listed[i];
        assert t in store.db.rows;
        var row := store.db.rows[t];
        if !row.status.Queued? { continue; }
        if row.owner.Some? {
          if row.lease.None? { continue; }
          if row.lease.value >= now { continue; }
        }
        FirstOfScan(listed, store.db.rows, now, i);
        if t in workOrders {
          assert workOrders == workOrders[t := workOrders[t]];
          return DefaultLeaseSeconds(workOrders[t]);
        }
        var persisted := store.GetWorkOrder(t);
        workOrders := workOrders[t := persisted.value];
        return DefaultLeaseSeconds(persisted.value);
      }
      FirstOfScan(listed, store.db.rows, now, |listed|);
      return 3600.0;
    }

    /**
     `claim` reads the clock twice: `seen` when it looks for the row whose lease to use, `now` when the store
     takes a row. The lease is that of the row taken whenever both readings find the same row: always when
     they are equal, and, whatever the readings, when queued rows are unowned.
     */
    method Claim(w: WorkerId, seconds: Option<real>, seen: int, now: int) returns (r: Option<(TaskId, Row)>)
      requires store.db.Valid()
      modifies store.db`rows, this`workOrders
      ensures store.db.Valid()
      ensures var first := FirstOf(Listed(old(store.db.ids), old(store.db.rows)), old(store.db.rows), now);
              if first.None? then r.None? && store.db.rows == old(store.db.rows)
              else
                && first.value in old(store.db.rows) && r.Some? && r.value.0 == first.value && r.value.1.lease.Some?
                && r.value.1 == ClaimedRow(old(store.db.rows)[first.value], w, r.value.1.lease.value)
                && store.db.rows == old(store.db.rows)[first.value := r.value.1]
                && (seconds.Some? ==> r.value.1.lease == Some(now + (seconds.value * 1000.0).Floor))
                && (seconds.None? && CacheBehind(old(workOrders), old(store.db.rows))
                    && (seen == now || QueuedUnowned(old(store.db.rows))) ==>
                      r.value.1.lease == Some(now + (DefaultLeaseSeconds(old(store.db.rows)[first.value].order) * 1000.0).Floor))
      ensures workOrders == if seconds.Some? then old(workOrders)
                            else AfterScan(old(workOrders), old(store.db.ids), old(store.db.rows), seen)
      ensures CacheBehind(old(workOrders), old(store.db.rows)) ==> CacheBehind(workOrders, store.db.rows)
    {
      hide FirstOf, Listed, DefaultLeaseSeconds, Claimable, CacheBehind, QueuedUnowned;
      var duration: real;
      ghost var ids, rows, cache := store.db.ids, store.db.rows, workOrders;
      ghost var first := FirstOf(Listed(ids, rows), rows, now);
      if seconds.Some? {
        duration := seconds.value;
      } else {
        duration := ComputeDefaultLeaseForNextClaimable(seen);
        if QueuedUnowned(rows) {
          SameFirst(Listed(ids, rows), rows, seen, now);
        }
      }
      r := store.Claim(w, now, now + (duration * 1000.0).Floor);
      if CacheBehind(cache, rows) {
        ScanBehind(cache, ids, rows, seen);
        if r.Some? {
          LeaseSeen(cache, rows, first.value);
          ClaimBehind(cache, ids, rows, seen, first.value, r.value.1);
        }
      }
    }

    method Release(t: TaskId, p: Patch) returns (ok: bool)
      modifies store.db`rows
      ensures ok == (t in old(store.db.rows) && !p.foreign)
      ensures store.db.rows == if ok then old(store.db.rows)[t := Patched(old(store.db.rows)[t], p)] else old(store.db.rows)
    {
      ok := store.Release(t, p);
    }

    /** The cached copy wins over the stored order; a miss is cached. */
    method GetWorkOrder(t: TaskId) returns (r: Option<WorkOrder>)
      modifies this`workOrders
      ensures t in old(workOrders) ==> r == Some(old(workOrders)[t]) && workOrders == old(workOrders)
      ensures t !in old(workOrders) && t in store.db.rows ==>
                r == Some(store.db.rows[t].order) && workOrders == old(workOrders)[t := store.db.rows[t].order]
      ensures t !in old(workOrders) && t !in store.db.rows ==> r.None? && workOrders == old(workOrders)
    {
      if t in workOrders {
        return Some(workOrders[t]);
      }
      r := store.GetWorkOrder(t);
      if r.Some? {
        workOrders := workOrders[t := r.value];
      }
    }

    /** Reads and writes the stored order, never the cached one, and caches the result. */
    method AddWorkOrderExcludeAgentIds(t: TaskId, agents: seq<AgentId>) returns (r: Option<WorkOrder>)
      modifies store.db`rows, this`workOrders
      ensures t !in old(store.db.rows) ==> r.None? && store.db.rows == old(store.db.rows) && workOrders == old(workOrders)
      ensures t in old(store.db.rows) ==>
                var row := old(store.db.rows)[t]; var order := row.order.(excludes := Merged(row.order.excludes, agents));
                && r == Some(order) && store.db.rows == old(store.db.rows)[t := row.(order := order)]
                && workOrders == old(workOrders)[t := order]
      ensures CacheBehind(old(workOrders), old(store.db.rows)) ==> CacheBehind(workOrders, store.db.rows)
    {
      if CacheBehind(workOrders, store.db.rows) && t in workOrders {
        CacheOkAfterMerge(workOrders[t], store.db.rows[t].order, agents);
      }
      r := store.AddWorkOrderExcludeAgentIds(t, agents);
      if r.Some? {
        workOrders := workOrders[t := r.value];
      }
    }

    method SetReviewContext(t: TaskId, c: ReviewContext) returns (ok: bool)
      modifies store.db`rows
      ensures ok == (t in old(store.db.rows) && Storable(c))
      ensures store.db.rows == if ok then old(store.db.rows)[t := old(store.db.rows)[t].(context := Some(c))] else old(store.db.rows)
    {
      ok := store.SetReviewContext(t, c);
    }

    method GetReviewContext(t: TaskId) returns (r: Option<ReviewContext>)
      ensures r == if t in store.db.rows then store.db.rows[t].context else None
    {
      r := store.GetReviewContext(t);
    }

    method SetHandoffPacketUri(t: TaskId, uri: Option<Uri>) returns (ok: bool)
      modifies store.db`rows
      ensures ok == (t in old(store.db.rows))
      ensures store.db.rows == if ok then old(store.db.rows)[t := old(store.db.rows)[t].(handoff := uri)] else old(store.db.rows)
    {
      ok := store.SetHandoffPacketUri(t, uri);
    }

    method GetHandoffPacketUri(t: TaskId) returns (r: Option<Uri>)
      ensures r == if t in store.db.rows then store.db.rows[t].handoff else None
    {
      r := store.GetHandoffPacketUri(t);
    }

    /** Each terminal task once, oldest first. */
    method ListTerminal() returns (r: seq<TaskId>)
      requires store.db.Valid()
      ensures forall t :: t in r <==> t in store.db.rows && store.db.rows[t].status.Terminal()
      ensures forall i, j :: 0 <= i < j < |r| ==> r[i] != r[j]
      ensures forall i, j :: 0 <= i < j < |r| ==> EnqueuedAt(store.db.rows, r[i]) <= EnqueuedAt(store.db.rows, r[j])
    {
      hide TerminalOf;
      TerminalFacts(store.db.ids, store.db.rows);
      r := TerminalOf(store.db.ids, store.db.rows);
    }
  }

  predicate IsTerminal(rows: map<TaskId, Row>, t: TaskId) {
    t in rows && rows[t].status.Terminal()
  }

  function TerminalOf(ids: seq<TaskId>, rows: map<TaskId, Row>): seq<TaskId> {
    Filter((t: TaskId) => IsTerminal(rows, t), Listed(ids, rows))
  }

  lemma {:induction false} FilterPicks<A>(p: A -> bool, xs: seq<A>, k: nat)
    requires k < |Filter(p, xs)|
    ensures exists j :: 0 <= j < |xs| && xs[j] == Filter(p, xs)[k]
  {
    var here := if p(xs[0]) then 1 else 0;
    if k >= here {
      FilterPicks(p, xs[1..], k - here);
      var j :| 0 <= j < |xs[1..]| && xs[1..][j] == Filter(p, xs[1..])[k - here];
      assert xs[j + 1] == Filter(p, xs)[k];
    }
  }

  /** Whatever holds between earlier and later elements of a list holds in a filtered list. */
  lemma {:induction false} FilterPairs<A>(p: A -> bool, xs: seq<A>, related: (A, A) -> bool)
    requires forall i, j :: 0 <= i < j < |xs| ==> related(xs[i], xs[j])
    ensures forall i, j :: 0 <= i < j < |Filter(p, xs)| ==> related(Filter(p, xs)[i], Filter(p, xs)[j])
  {
    if xs != [] {
      FilterPairs(p, xs[1..], related);
      var rest := Filter(p, xs[1..]);
      forall k | 0 <= k < |rest| ensures related(xs[0], rest[k]) {
        FilterPicks(p, xs[1..], k);
        var j :| 0 <= j < |xs[1..]| && xs[1..][j] == rest[k];
        assert xs[j + 1] == rest[k];
        assert related(xs[0], xs[j + 1]);
      }
    }
  }

  /** The terminal list holds each terminal task once, oldest first. */
  lemma TerminalFacts(ids: seq<TaskId>, rows: map<TaskId, Row>)
    requires forall i, j :: 0 <= i < j < |ids| ==> ids[i] != ids[j]
    requires forall t :: t in ids <==> t in rows
    ensures var r := TerminalOf(ids, rows);
            && (forall t :: t in r <==> t in rows && rows[t].status.Terminal())
            && (forall i, j :: 0 <= i < j < |r| ==> r[i] != r[j])
            && (forall i, j :: 0 <= i < j < |r| ==> EnqueuedAt(rows, r[i]) <= EnqueuedAt(rows, r[j]))
  {
    var listed := Listed(ids, rows);
    var p := (t: TaskId) => IsTerminal(rows, t);
    ListedFacts(ids, rows);
    ListedDistinct(ids, rows);
    FilterMembers(p, listed);
    var differ := (a: TaskId, b: TaskId) => a != b;
    FilterPairs(p, listed, differ);
    FilterPairs(p, listed, ByAge(rows));
    var r := TerminalOf(ids, rows);
    forall i, j | 0 <= i < j < |r| ensures r[i] != r[j] && EnqueuedAt(rows, r[i]) <= EnqueuedAt(rows, r[j]) {
      assert differ(r[i], r[j]) && ByAge(rows)(r[i], r[j]);
    }
  }

  lemma ListedDistinct(ids: seq<TaskId>, rows: map<TaskId, Row>)
    requires forall i, j :: 0 <= i < j < |ids| ==> ids[i] != ids[j]
    ensures var xs := Listed(ids, rows); forall i, j :: 0 <= i < j < |xs| ==> xs[i] != xs[j]
  {
    var xs := Listed(ids, rows);
    SortPermutes(ids, ByAge(rows));
    forall i, j | 0 <= i < j < |xs| ensures xs[i] != xs[j] {
      if xs[i] == xs[j] {
        TwiceInMultiset(xs, i, j);
        OnceInMultiset(ids, xs[i]);
        assert false;
      }
    }
  }

  lemma TwiceInMultiset(xs: seq<TaskId>, i: nat, j: nat)
    requires i < j < |xs| && xs[i] == xs[j]
    ensures multiset(xs)[xs[i]] >= 2
  {
    assert xs == xs[..i] + [xs[i]] + xs[i + 1..j] + [xs[j]] + xs[j + 1..];
  }

  lemma {:induction false} OnceInMultiset(xs: seq<TaskId>, x: TaskId)
    requires forall i, j :: 0 <= i < j < |xs| ==> xs[i] != xs[j]
    ensures multiset(xs)[x] <= 1
  {
    if xs != [] {
      OnceInMultiset(xs[1..], x);
      assert xs == [xs[0]] + xs[1..];
      if xs[0] == x {
        assert x !in xs[1..];
      }
    }
  }
}
