/** The queue table: claim by SELECT and conditional UPDATE, release by patch, and the side columns. */
module QueueStore {
  import opened Types
  import opened Js
  import opened Handoffs
  import opened Protocol
  import opened Tables

  /** The fields of a release patch; `foreign` says that it names any other field. */
  datatype Patch = Patch(
    status: Option<Status>,
    role: Option<Role>,
    owner: Option<Option<WorkerId>>,
    lease: Option<Option<int>>,
    attempts: Option<nat>,
    foreign: bool)

  function Or<T>(o: Option<T>, d: T): T {
    if o.Some? then o.value else d
  }

  function Patched(row: Row, p: Patch): Row {
    row.(status := Or(p.status, row.status), role := Or(p.role, row.role), owner := Or(p.owner, row.owner),
         lease := Or(p.lease, row.lease), attempts := Or(p.attempts, row.attempts))
  }

  /** The patch of the handler's release. */
  function Closing(status: Status, role: Role, attempts: nat): Patch {
    Patch(Some(status), Some(role), Some(None), Some(None), Some(attempts), false)
  }

  /** The patch of the worker's release after its handler threw. */
  const REQUEUE := Patch(Some(Queued), None, Some(None), Some(None), None, false)

  lemma PatchesAreReleases(row: Row, status: Status, role: Role, attempts: nat)
    ensures Patched(row, Closing(status, role, attempts)) == ReleasedRow(row, status, role, attempts)
    ensures Patched(row, REQUEUE) == RequeuedRow(row)
  {
  }

  /** The first listed row that the claim predicate lets through. */
  function FirstOf(listed: seq<TaskId>, rows: map<TaskId, Row>, now: int): Option<TaskId> {
    if listed == [] then None
    else if listed[0] in rows && Claimable(rows[listed[0]], now) then Some(listed[0])
    else FirstOf(listed[1..], rows, now)
  }

  /** A scan that has passed over `i` rows has found the first claimable one, or knows that there is none. */
  lemma {:induction false} FirstOfScan(listed: seq<TaskId>, rows: map<TaskId, Row>, now: int, i: nat)
    requires i <= |listed|
    requires forall k :: 0 <= k < i ==> !(listed[k] in rows && Claimable(rows[listed[k]], now))
    ensures i == |listed| ==> FirstOf(listed, rows, now).None?
    ensures i < |listed| && listed[i] in rows && Claimable(rows[listed[i]], now) ==>
              FirstOf(listed, rows, now) == Some(listed[i])
    decreases i
  {
    hide Claimable;
    if i > 0 {
      FirstOfScan(listed[1..], rows, now, i - 1);
    }
  }

  /** `t` is listed at `i`, is claimable, and nothing listed before it is. */
  predicate FirstAt(listed: seq<TaskId>, rows: map<TaskId, Row>, now: int, t: TaskId, i: nat) {
    && i < |listed| && listed[i] == t && t in rows && Claimable(rows[t], now)
    && forall k :: 0 <= k < i ==> !(listed[k] in rows && Claimable(rows[listed[k]], now))
  }

  lemma {:induction false} FirstOfNone(listed: seq<TaskId>, rows: map<TaskId, Row>, now: int)
    ensures FirstOf(listed, rows, now).None? <==> (forall t :: t in listed && t in rows ==> !Claimable(rows[t], now))
  {
    hide Claimable;
    if listed != [] {
      FirstOfNone(listed[1..], rows, now);
      assert forall t :: t in listed <==> t == listed[0] || t in listed[1..];
    }
  }

  lemma {:induction false} FirstOfFound(listed: seq<TaskId>, rows: map<TaskId, Row>, now: int) returns (i: nat)
    requires FirstOf(listed, rows, now).Some?
    ensures FirstAt(listed, rows, now, FirstOf(listed, rows, now).value, i)
  {
    hide Claimable;
    if listed[0] in rows && Claimable(rows[listed[0]], now) {
      i := 0;
    } else {
      var j := FirstOfFound(listed[1..], rows, now);
      i := j + 1;
      forall k | 0 <= k < i ensures !(listed[k] in rows && Claimable(rows[listed[k]], now)) {
        assert k > 0 ==> listed[k] == listed[1..][k - 1];
      }
    }
  }

  /** What a claim takes is an oldest claimable row, as the protocol's SELECT demands. */
  lemma ClaimTakesOldest(ids: seq<TaskId>, rows: map<TaskId, Row>, now: int)
    requires forall t :: t in ids <==> t in rows
    ensures var r := FirstOf(Listed(ids, rows), rows, now);
            && (r.None? <==> forall t :: t in rows ==> !Claimable(rows[t], now))
            && (r.Some? ==>
                  && r.value in rows && Claimable(rows[r.value], now)
                  && forall u :: u in rows && Claimable(rows[u], now) ==> rows[r.value].enqueuedAt <= rows[u].enqueuedAt)
  {
    hide Claimable, Listed, FirstOf;
    var listed := Listed(ids, rows);
    ListedFacts(ids, rows);
    FirstOfNone(listed, rows, now);
    var r := FirstOf(listed, rows, now);
    if r.Some? {
      var i := FirstOfFound(listed, rows, now);
      forall u | u in rows && Claimable(rows[u], now) ensures rows[r.value].enqueuedAt <= rows[u].enqueuedAt {
        NoneBefore(listed, rows, now, r.value, i, u);
      }
    }
  }

  lemma NoneBefore(listed: seq<TaskId>, rows: map<TaskId, Row>, now: int, t: TaskId, i: nat, u: TaskId)
    requires FirstAt(listed, rows, now, t, i) && u in listed && u in rows && Claimable(rows[u], now)
    requires forall a, b :: 0 <= a < b < |listed| ==> EnqueuedAt(rows, listed[a]) <= EnqueuedAt(rows, listed[b])
    ensures rows[t].enqueuedAt <= rows[u].enqueuedAt
  {
    hide Claimable;
    var j :| 0 <= j < |listed| && listed[j] == u;
  }

  /** A review context that the store accepts: its required strings are not blank. */
  predicate Storable(c: ReviewContext) {
    !Blank(c.runId) && !Blank(c.agentId)
  }

  class SqliteQueueStore {
    const db: Database

    constructor (db: Database)
      ensures this.db == db
    {
      this.db := db;
    }

    /** Fails when the task is already queued: `task_id` is the primary key. */
    method Insert(t: TaskId, row: Row) returns (ok: bool)
      requires db.Valid()
      modifies db`ids, db`rows
      ensures db.Valid() && ok == (t !in old(db.rows))
      ensures db.rows == if ok then old(db.rows)[t := row.(context := None, handoff := None)] else old(db.rows)
      ensures db.ids == if ok then old(db.ids) + [t] else old(db.ids)
    {
      ok := t !in db.rows;
      if ok {
        db.ids := db.ids + [t];
        db.rows := db.rows[t := row.(context := None, handoff := None)];
      }
    }

    method ClaimSelect(now: int) returns (r: Option<TaskId>)
      requires db.Valid()
      ensures r == FirstOf(Listed(db.ids, db.rows), db.rows, now)
    {
      var listed := Listed(db.ids, db.rows);
      ListedFacts(db.ids, db.rows);
      r := None;
      for i := 0 to |listed|
        invariant forall k :: 0 <= k < i ==> !(listed[k] in db.rows && Claimable(db.rows[listed[k]], now))
      {
        assert listed[i] in db.rows;
        if Claimable(db.rows[listed[i]], now) {
          FirstOfScan(listed, db.rows, now, i);
          return Some(listed[i]);
        }
      }
      FirstOfScan(listed, db.rows, now, |listed|);
    }

    /** The conditional UPDATE: the number of rows it changed. */
    method ClaimUpdate(t: TaskId, w: WorkerId, now: int, lease: int) returns (changes: nat)
      modifies db`rows
      ensures changes == if t in old(db.rows) && Claimable(old(db.rows)[t], now) then 1 else 0
      ensures changes == 1 <==>
                && t in old(db.rows) && old(db.rows)[t].status.Queued?
                && (old(db.rows)[t].owner.None? || (old(db.rows)[t].lease.Some? && old(db.rows)[t].lease.value < now))
      ensures db.rows == if changes == 1 then old(db.rows)[t := ClaimedRow(old(db.rows)[t], w, lease)] else old(db.rows)
    {
      if t in db.rows && Claimable(db.rows[t], now) {
        db.rows := db.rows[t := ClaimedRow(db.rows[t], w, lease)];
        changes := 1;
      } else {
        changes := 0;
      }
    }

    /** SELECT and UPDATE in one transaction; the entry carries the new status, owner and lease. */
    method Claim(w: WorkerId, now: int, lease: int) returns (r: Option<(TaskId, Row)>)
      requires db.Valid()
      modifies db`rows
      ensures db.Valid()
      ensures r.Some? ==>
                var (t, row) := r.value;
                && t in old(db.rows) && old(db.rows)[t].status.Queued?
                && row == old(db.rows)[t].(status := Dispatched, owner := Some(w), lease := Some(lease))
                && forall u :: u in old(db.rows) && old(db.rows)[u].status.Queued? && old(db.rows)[u].owner.None? ==>
                     old(db.rows)[t].enqueuedAt <= old(db.rows)[u].enqueuedAt
      ensures r.None? ==> forall u :: u in old(db.rows) && old(db.rows)[u].owner.None? ==> !old(db.rows)[u].status.Queued?
      ensures var first := FirstOf(Listed(old(db.ids), old(db.rows)), old(db.rows), now);
              if first.None? then r.None? && db.rows == old(db.rows)
              else
                && first.value in old(db.rows)
                && r == Some((first.value, ClaimedRow(old(db.rows)[first.value], w, lease)))
                && db.rows == old(db.rows)[first.value := ClaimedRow(old(db.rows)[first.value], w, lease)]
    {
      var t := ClaimSelect(now);
      ClaimTakesOldest(db.ids, db.rows, now);
      if t.None? {
        return None;
      }
      var row := db.rows[t.value];
      var changes := ClaimUpdate(t.value, w, now, lease);
      if changes != 1 {
        return None;
      }
      r := Some((t.value, ClaimedRow(row, w, lease)));
    }

    /** Fails for an unknown task or a patch that names a field it may not. */
    method Release(t: TaskId, p: Patch) returns (ok: bool)
      modifies db`rows
      ensures ok == (t in old(db.rows) && !p.foreign)
      ensures db.rows == if ok then old(db.rows)[t := Patched(old(db.rows)[t], p)] else old(db.rows)
    {
      if t !in db.rows {
        return false;
      }
      if p.foreign {
        return false;
      }
      db.rows := db.rows[t := Patched(db.rows[t], p)];
      ok := true;
    }

    method GetWorkOrder(t: TaskId) returns (r: Option<WorkOrder>)
      ensures r == if t in db.rows then Some(db.rows[t].order) else None
    {
      r := if t in db.rows then Some(db.rows[t].order) else None;
    }

    method AddWorkOrderExcludeAgentIds(t: TaskId, agents: seq<AgentId>) returns (r: Option<WorkOrder>)
      modifies db`rows
      ensures t !in old(db.rows) ==> r.None? && db.rows == old(db.rows)
      ensures t in old(db.rows) ==>
                var row := old(db.rows)[t]; var order := row.order.(excludes := Merged(row.order.excludes, agents));
                r == Some(order) && db.rows == old(db.rows)[t := row.(order := order)]
    {
      if t !in db.rows {
        return None;
      }
      var row := db.rows[t];
      var excludes := DedupeFirstSeen(row.order.excludes + agents);
      var order := row.order.(excludes := excludes);
      db.rows := db.rows[t := row.(order := order)];
      r := Some(order);
    }

    method SetReviewContext(t: TaskId, c: ReviewContext) returns (ok: bool)
      modifies db`rows
      ensures ok == (t in old(db.rows) && Storable(c))
      ensures db.rows == if ok then old(db.rows)[t := old(db.rows)[t].(context := Some(c))] else old(db.rows)
    {
      if t !in db.rows {
        return false;
      }
      if !Storable(c) {
        return false;
      }
      db.rows := db.rows[t := db.rows[t].(context := Some(c))];
      ok := true;
    }

    method GetReviewContext(t: TaskId) returns (r: Option<ReviewContext>)
      ensures r == if t in db.rows then db.rows[t].context else None
    {
      r := if t in db.rows then db.rows[t].context else None;
    }

    method SetHandoffPacketUri(t: TaskId, uri: Option<Uri>) returns (ok: bool)
      modifies db`rows
      ensures ok == (t in old(db.rows))
      ensures db.rows == if ok then old(db.rows)[t := old(db.rows)[t].(handoff := uri)] else old(db.rows)
    {
      if t !in db.rows {
        return false;
      }
      db.rows := db.rows[t := db.rows[t].(handoff := uri)];
      ok := true;
    }

    method GetHandoffPacketUri(t: TaskId) returns (r: Option<Uri>)
      ensures r == if t in db.rows then db.rows[t].handoff else None
    {
      r := if t in db.rows then db.rows[t].handoff else None;
    }
  }
}
