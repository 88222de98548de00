/** A worker's budget manager: charges through the store and rings each alarm it has not rung yet. */
module BudgetManager {
  import opened Types
  import opened Js
  import opened Budgets
  import opened Events
  import opened Protocol
  import opened Ledger
  import opened Stores

  /** The alarm that a change of status calls for, unless this manager has rung it. */
  function AlarmFor(emitted: set<Alarm>, t: TaskId, before: BudgetStatus, after: BudgetStatus): Option<Alarm> {
    if before.Ok? && after.SoftWarning? && Alarm(t, false) !in emitted then Some(Alarm(t, false))
    else if !before.Exhausted? && after.Exhausted? && Alarm(t, true) !in emitted then Some(Alarm(t, true))
    else None
  }

  function AlarmEvent(a: Alarm, state: Budget): Event {
    TaskAlarm(if a.exhausted then QuotaExhaustedAlarm else QuotaLow, a.task, PickAxis(state).1)
  }

  function AlarmEvents(a: Option<Alarm>, state: Budget): seq<Event> {
    if a.Some? then [AlarmEvent(a.value, state)] else []
  }

  function AlarmSet(a: Option<Alarm>): set<Alarm> {
    if a.Some? then {a.value} else {}
  }

  /** The protocol's transition step is what the manager does. */
  lemma TransitionIs(v: View, t: TaskId, before: BudgetStatus, after: Budget)
    ensures var a := AlarmFor(v.worker.emitted, t, before, after.status);
            Transition(v, t, before, after)
            == v.Logging(AlarmEvents(a, after)).(worker := v.worker.(emitted := v.worker.emitted + AlarmSet(a)))
  {
    hide PickAxis, TaskAlarm;
    assert v.rec.log + [] == v.rec.log;
    assert v.worker.emitted + {} == v.worker.emitted;
  }

  class DefaultBudgetManager {
    const store: SqliteBudgetStore
    const log: SqliteEventLog
    var emitted: set<Alarm>

    constructor (store: SqliteBudgetStore, log: SqliteEventLog)
      ensures this.store == store && this.log == log && emitted == {}
    {
      this.store, this.log := store, log;
      emitted := {};
    }

    /** Creates the row if needed, and remembers the alarms its status implies. */
    method Init(t: TaskId, order: WorkOrder) returns (current: Budget)
      modifies store.db`budgets, this`emitted
      ensures t in store.db.budgets && current == store.db.budgets[t]
      ensures store.db.budgets == if t in old(store.db.budgets) then old(store.db.budgets)
                                  else old(store.db.budgets)[t := Fresh(order.BudgetCaps())]
      ensures emitted == SyncEmitted(old(emitted), t, current.status)
    {
      store.Init(t, order.BudgetCaps());
      var r := store.Current(t);
      current := r.value;
      if current.status.SoftWarning? || current.status.Exhausted? {
        emitted := emitted + {Alarm(t, false)};
      }
      if current.status.Exhausted? {
        emitted := emitted + {Alarm(t, true)};
      }
    }

    method Current(t: TaskId) returns (r: Option<Budget>)
      ensures r == if t in store.db.budgets then Some(store.db.budgets[t]) else None
    {
      r := store.Current(t);
    }

    method EmitTransitionEvents(t: TaskId, before: BudgetStatus, after: BudgetStatus, state: Budget)
      requires !Blank(t)
      modifies log.db`events, this`emitted
      ensures var a := AlarmFor(old(emitted), t, before, after);
              log.db.events == old(log.db.events) + AlarmEvents(a, state) && emitted == old(emitted) + AlarmSet(a)
    {
      if before == after {
        return;
      }
      if before.Ok? && after.SoftWarning? {
        Emit(t, false, state);
        return;
      }
      if (before.Ok? || before.SoftWarning?) && after.Exhausted? {
        Emit(t, true, state);
        return;
      }
    }

    /** Rings an alarm once: `emitQuotaLow` and `emitQuotaExhausted`. */
    method Emit(t: TaskId, exhausted: bool, state: Budget)
      requires !Blank(t)
      modifies log.db`events, this`emitted
      ensures var a := Alarm(t, exhausted);
              if a in old(emitted) then log.db.events == old(log.db.events) && emitted == old(emitted)
              else log.db.events == old(log.db.events) + [AlarmEvent(a, state)] && emitted == old(emitted) + {a}
    {
      if Alarm(t, exhausted) in emitted {
        return;
      }
      var kind := if exhausted then QuotaExhaustedAlarm else QuotaLow;
      TaskAlarmAccepted(kind, t, PickAxis(state).1);
      var ok := log.Append(TaskAlarm(kind, t, PickAxis(state).1));
      emitted := emitted + {Alarm(t, exhausted)};
    }

    /** Charges one launch; the caller has initialised the budget. */
    method PreLaunch(t: TaskId) returns (r: Option<Budget>)
      requires !Blank(t)
      modifies store.db`budgets, log.db`events, this`emitted
      ensures t !in old(store.db.budgets) ==>
                r.None? && store.db.budgets == old(store.db.budgets) && log.db.events == old(log.db.events) && emitted == old(emitted)
      ensures t in old(store.db.budgets) && r.Some? ==>
                var b, b' := old(store.db.budgets)[t], r.value;
                b'.runs == b.runs + 1 && b'.wallMs == b.wallMs && b'.cost == b.cost && b'.caps == b.caps
      ensures t in old(store.db.budgets) ==>
                var before := old(store.db.budgets)[t]; var after := PreLaunched(before);
                var a := AlarmFor(old(emitted), t, before.status, after.status);
                && r == Some(after) && store.db.budgets == old(store.db.budgets)[t := after]
                && log.db.events == old(log.db.events) + AlarmEvents(a, after) && emitted == old(emitted) + AlarmSet(a)
    {
      var before := store.Current(t);
      if before.None? {
        return None;
      }
      r := store.ApplyPreLaunch(t);
      EmitTransitionEvents(t, before.value.status, r.value.status, r.value);
    }

    /** Charges the time and cost of a run that has ended. */
    method PostRun(t: TaskId, wallMs: real, cost: real) returns (r: Option<Budget>)
      requires !Blank(t)
      modifies store.db`budgets, log.db`events, this`emitted
      ensures t !in old(store.db.budgets) ==>
                r.None? && store.db.budgets == old(store.db.budgets) && log.db.events == old(log.db.events) && emitted == old(emitted)
      ensures t in old(store.db.budgets) && r.Some? ==>
                var b, b' := old(store.db.budgets)[t], r.value;
                b'.runs == b.runs && b'.wallMs == b.wallMs + wallMs && b'.cost == b.cost + cost && b'.caps == b.caps
      ensures t in old(store.db.budgets) ==>
                var before := old(store.db.budgets)[t]; var after := PostRan(before, wallMs, cost);
                var a := AlarmFor(old(emitted), t, before.status, after.status);
                && r == Some(after) && store.db.budgets == old(store.db.budgets)[t := after]
                && log.db.events == old(log.db.events) + AlarmEvents(a, after) && emitted == old(emitted) + AlarmSet(a)
    {
      var before := store.Current(t);
      if before.None? {
        return None;
      }
      r := store.ApplyPostRun(t, wallMs, cost);
      EmitTransitionEvents(t, before.value.status, r.value.status, r.value);
    }
  }
}
