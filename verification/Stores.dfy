/** The budget, run, event and metrics tables behind their store classes. */
module Stores {
  import opened Types
  import opened Scheduler
  import opened Budgets
  import opened Events
  import opened Tables

  class SqliteBudgetStore {
    const db: Database

    constructor (db: Database)
      ensures this.db == db
    {
      this.db := db;
    }

    /** Inserts an unused row, unless the task already has one. */
    method Init(t: TaskId, caps: Caps)
      modifies db`budgets
      ensures db.budgets == if t in old(db.budgets) then old(db.budgets) else old(db.budgets)[t := Fresh(caps)]
    {
      if t in db.budgets {
        return;
      }
      db.budgets := db.budgets[t := Budget(0, 0.0, 0.0, caps, Ok)];
    }

    method Current(t: TaskId) returns (r: Option<Budget>)
      ensures r == if t in db.budgets then Some(db.budgets[t]) else None
    {
      r := if t in db.budgets then Some(db.budgets[t]) else None;
    }

    /** Reads, adds one run, and writes the row back with the status of the new usage. */
    method ApplyPreLaunch(t: TaskId) returns (r: Option<Budget>)
      modifies db`budgets
      ensures r == if t in old(db.budgets) then Some(PreLaunched(old(db.budgets)[t])) else None
      ensures r.Some? ==>
                var b, b' := old(db.budgets)[t], r.value;
                && b'.runs == b.runs + 1 && b'.wallMs == b.wallMs && b'.cost == b.cost && b'.caps == b.caps
                && b'.status == ComputeStatus(b'.runs, b'.wallMs, b'.cost, b'.caps)
      ensures db.budgets == if r.Some? then old(db.budgets)[t := r.value] else old(db.budgets)
    {
      var state := Current(t);
      if state.None? {
        return None;
      }
      var b := state.value;
      var runsUsed := b.runs + 1;
      var status := ComputeStatus(runsUsed, b.wallMs, b.cost, b.caps);
      db.budgets := db.budgets[t := b.(runs := runsUsed, status := status)];
      r := Some(b.(runs := runsUsed, status := status));
    }

    /** Reads, adds time and cost, and writes the row back with the status of the new usage. */
    method ApplyPostRun(t: TaskId, wallMs: real, cost: real) returns (r: Option<Budget>)
      modifies db`budgets
      ensures r == if t in old(db.budgets) then Some(PostRan(old(db.budgets)[t], wallMs, cost)) else None
      ensures r.Some? ==>
                var b, b' := old(db.budgets)[t], r.value;
                && b'.runs == b.runs && b'.wallMs == b.wallMs + wallMs && b'.cost == b.cost + cost && b'.caps == b.caps
                && b'.status == ComputeStatus(b'.runs, b'.wallMs, b'.cost, b'.caps)
      ensures db.budgets == if r.Some? then old(db.budgets)[t := r.value] else old(db.budgets)
    {
      var state := Current(t);
      if state.None? {
        return None;
      }
      var b := state.value;
      var wallUsed, costUsed := b.wallMs + wallMs, b.cost + cost;
      var status := ComputeStatus(b.runs, wallUsed, costUsed, b.caps);
      db.budgets := db.budgets[t := b.(wallMs := wallUsed, cost := costUsed, status := status)];
      r := Some(b.(wallMs := wallUsed, cost := costUsed, status := status));
    }
  }

  class SqliteEventLog {
    const db: Database

    constructor (db: Database)
      ensures this.db == db
    {
      this.db := db;
    }

    /** Validates before it inserts: a refused event leaves the log as it was. */
    method Append(e: Event) returns (ok: bool)
      modifies db`events
      ensures ok == Accepts(e)
      ensures db.events == if ok then old(db.events) + [e] else old(db.events)
    {
      if !Known(e.kind) {
        return false;
      }
      var missing := MissingIds(e);
      if missing != [] {
        return false;
      }
      if !ValidPayload(e) {
        return false;
      }
      db.events := db.events + [e];
      ok := true;
    }
  }

  class SqliteRunStore {
    const db: Database

    constructor (db: Database)
      ensures this.db == db
    {
      this.db := db;
    }

    /** Fails when the id is taken: it is the primary key. */
    method Create(id: RunId, record: RunRecord) returns (ok: bool)
      modifies db`runs
      ensures ok == (id !in old(db.runs))
      ensures db.runs == if ok then old(db.runs)[id := record] else old(db.runs)
    {
      ok := id !in db.runs;
      if ok {
        db.runs := db.runs[id := record];
      }
    }

    /** Fails for an unknown run; task, agent and role of a run never change. */
    method UpdateStatus(id: RunId, status: RunStatus) returns (ok: bool)
      modifies db`runs
      ensures ok == (id in old(db.runs))
      ensures db.runs == if ok then old(db.runs)[id := old(db.runs)[id].(status := status)] else old(db.runs)
    {
      if id !in db.runs {
        return false;
      }
      db.runs := db.runs[id := db.runs[id].(status := status)];
      ok := true;
    }
  }

  // ---- Metrics ----

  /** The latest `window` rows of the agent, newest first. */
  function Window(rows: seq<MetricsRow>, a: AgentId, window: nat): seq<MetricsRow> {
    if rows == [] || window == 0 then []
    else
      var last := rows[|rows| - 1];
      if last.agent == a then [last] + Window(rows[..|rows| - 1], a, window - 1) else Window(rows[..|rows| - 1], a, window)
  }

  function Successes(rows: seq<MetricsRow>): nat {
    |Filter((r: MetricsRow) => r.success, rows)|
  }

  function TotalMs(rows: seq<MetricsRow>): real {
    if rows == [] then 0.0 else TotalMs(rows[..|rows| - 1]) + rows[|rows| - 1].wallMs
  }

  /** `Math.round`: to the nearest integer, halves up. */
  function Round(x: real): real {
    (x + 0.5).Floor as real
  }

  function Rolling(rows: seq<MetricsRow>): Metrics {
    if rows == [] then Metrics(0.0, 0.0, 0)
    else Metrics(Successes(rows) as real / |rows| as real, Round(TotalMs(rows) / |rows| as real), |rows|)
  }

  lemma {:induction false} FilterShorter<A>(p: A -> bool, xs: seq<A>)
    ensures |Filter(p, xs)| <= |xs|
  {
    if xs != [] {
      FilterShorter(p, xs[1..]);
    }
  }

  /** For any recorded history the rolling success rate is a rate, and at most `window` runs are observed. */
  lemma RollingBounds(rows: seq<MetricsRow>, a: AgentId, window: nat)
    ensures var m := Rolling(Window(rows, a, window));
            0.0 <= m.successRate <= 1.0 && m.runsObserved <= window
  {
    WindowBounds(rows, a, window);
    var seen := Window(rows, a, window);
    if seen != [] {
      FilterShorter((r: MetricsRow) => r.success, seen);
      RateBounds(Successes(seen), |seen|);
    }
  }

  lemma RateBounds(k: nat, n: nat)
    requires 0 < n && k <= n
    ensures 0.0 <= k as real / n as real <= 1.0
  {
    RatioMonotone(0.0, k as real, n as real);
    RatioMonotone(k as real, n as real, n as real);
    assert Ratio(k as real, n as real) == k as real / n as real;
  }

  lemma {:induction false} WindowBounds(rows: seq<MetricsRow>, a: AgentId, window: nat)
    ensures |Window(rows, a, window)| <= window
    ensures forall r :: r in Window(rows, a, window) ==> r.agent == a && r in rows
  {
    if rows != [] && window != 0 {
      var n := |rows| - 1;
      WindowBounds(rows[..n], a, if rows[n].agent == a then window - 1 else window);
    }
  }

  /** The rows of one agent, oldest first. */
  function RowsOf(rows: seq<MetricsRow>, a: AgentId): seq<MetricsRow> {
    if rows == [] then []
    else RowsOf(rows[..|rows| - 1], a) + if rows[|rows| - 1].agent == a then [rows[|rows| - 1]] else []
  }

  /** The window holds the agent's latest rows, newest first, as many as there are up to its size. */
  lemma {:induction false} WindowExact(rows: seq<MetricsRow>, a: AgentId, window: nat)
    ensures var own, seen := RowsOf(rows, a), Window(rows, a, window);
            && |seen| == (if |own| < window then |own| else window)
            && forall i :: 0 <= i < |seen| ==> seen[i] == own[|own| - 1 - i]
  {
    if rows != [] && window != 0 {
      var n := |rows| - 1;
      var last := rows[n];
      WindowExact(rows[..n], a, if last.agent == a then window - 1 else window);
      if last.agent == a {
        var rest := Window(rows[..n], a, window - 1);
        var seen := Window(rows, a, window);
        assert forall i :: 1 <= i < |seen| ==> seen[i] == rest[i - 1];
      }
    }
  }

  function CountSuccesses(rows: seq<MetricsRow>): nat {
    if rows == [] then 0 else CountSuccesses(rows[1..]) + if rows[0].success then 1 else 0
  }

  lemma {:induction false} SuccessesCounted(rows: seq<MetricsRow>)
    ensures Successes(rows) == CountSuccesses(rows)
  {
    if rows != [] {
      SuccessesCounted(rows[1..]);
    }
  }

  /** The success rate and the mean time, rounded to a millisecond, of the rows seen; nothing if there are none. */
  lemma RollingExact(seen: seq<MetricsRow>)
    ensures Rolling(seen).runsObserved == |seen|
    ensures seen == [] ==> Rolling(seen).successRate == 0.0 && Rolling(seen).avgLatency == 0.0
    ensures seen != [] ==>
              && Rolling(seen).successRate == CountSuccesses(seen) as real / |seen| as real
              && Rounds(Rolling(seen).avgLatency, TotalMs(seen) / |seen| as real)
  {
    SuccessesCounted(seen);
    if seen != [] {
      RoundExact(TotalMs(seen) / |seen| as real);
    }
  }

  /** The integer nearest to `x`, the upper one of two. */
  predicate Rounds(m: real, x: real) {
    m == m.Floor as real && m - 0.5 <= x < m + 0.5
  }

  lemma RoundExact(x: real)
    ensures Rounds(Round(x), x)
  {
    var k := (x + 0.5).Floor;
    assert (k as real).Floor == k;
  }

  class SqliteMetricsStore {
    const db: Database

    constructor (db: Database)
      ensures this.db == db
    {
      this.db := db;
    }

    method RecordRunOutcome(a: AgentId, success: bool, wallMs: real)
      modifies db`metrics
      ensures db.metrics == old(db.metrics) + [MetricsRow(a, success, wallMs)]
    {
      db.metrics := db.metrics + [MetricsRow(a, success, wallMs)];
    }

    method RollingFor(a: AgentId, window: nat) returns (m: Metrics)
      ensures m == Rolling(Window(db.metrics, a, window))
      ensures var seen := Window(db.metrics, a, window);
              m.runsObserved == |seen|
              && (seen != [] ==>
                    && m.successRate == CountSuccesses(seen) as real / |seen| as real
                    && Rounds(m.avgLatency, TotalMs(seen) / |seen| as real))
    {
      var rows := Window(db.metrics, a, window);
      RollingExact(rows);
      if |rows| == 0 {
        return Metrics(0.0, 0.0, 0);
      }
      var successCount := |Filter((r: MetricsRow) => r.success, rows)|;
      var totalWallMs := 0.0;
      for i := 0 to |rows|
        invariant totalWallMs == TotalMs(rows[..i])
      {
        assert rows[..i + 1][..i] == rows[..i];
        totalWallMs := totalWallMs + rows[i].wallMs;
      }
      assert rows[..|rows|] == rows;
      m := Metrics(successCount as real / |rows| as real, Round(totalWallMs / |rows| as real), |rows|);
    }
  }
}
