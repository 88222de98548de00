/** Budget arithmetic: the status of a usage record, the charges, and the axis an alarm reports. */
module Budgets {
  import opened Types

  function Ratio(used: real, cap: real): real {
    if cap > 0.0 then used / cap else 0.0
  }

  function ComputeStatus(runs: nat, wallMs: real, cost: real, caps: Caps): BudgetStatus {
    var r := Ratio(runs as real, caps.maxRuns as real);
    var w := Ratio(wallMs, caps.maxWallMs);
    var c := Ratio(cost, caps.maxCost);
    if r >= 1.0 || w >= 1.0 || c >= 1.0 then Exhausted
    else if r >= 0.8 || w >= 0.8 || c >= 0.8 then SoftWarning
    else Ok
  }

  function Fresh(caps: Caps): Budget {
    Budget(0, 0.0, 0.0, caps, Ok)
  }

  /** `applyPreLaunch` on the state it read. */
  function PreLaunched(b: Budget): Budget {
    b.(runs := b.runs + 1, status := ComputeStatus(b.runs + 1, b.wallMs, b.cost, b.caps))
  }

  /** `applyPostRun` on the state it read. */
  function PostRan(b: Budget, wallMs: real, cost: real): Budget {
    b.(wallMs := b.wallMs + wallMs, cost := b.cost + cost,
       status := ComputeStatus(b.runs, b.wallMs + wallMs, b.cost + cost, b.caps))
  }

  /** What every stored budget row satisfies. */
  predicate Consistent(b: Budget) {
    && b.caps.maxRuns > 0 && b.caps.maxWallMs > 0.0 && b.caps.maxCost > 0.0
    && b.wallMs >= 0.0 && b.cost >= 0.0
    && b.runs <= b.caps.maxRuns
    && b.status == ComputeStatus(b.runs, b.wallMs, b.cost, b.caps)
  }

  datatype Axis = Runs | WallTime | CostUnits

  function PickAxis(b: Budget): (Axis, real) {
    var r := Ratio(b.runs as real, b.caps.maxRuns as real);
    var w := Ratio(b.wallMs, b.caps.maxWallMs);
    var c := Ratio(b.cost, b.caps.maxCost);
    if r >= w && r >= c then (Runs, r)
    else if w >= c then (WallTime, w)
    else (CostUnits, c)
  }

  lemma RatioMonotone(a: real, b: real, cap: real)
    requires a <= b
    ensures Ratio(a, cap) <= Ratio(b, cap)
  {
    if cap > 0.0 {
      var x, y := a / cap, b / cap;
      assert x * cap == a && y * cap == b;
      assert x > y ==> (x - y) * cap > 0.0;
    }
  }

  lemma RatioBelowOne(a: real, cap: real)
    requires cap > 0.0
    ensures Ratio(a, cap) < 1.0 <==> a < cap
  {
    var x := a / cap;
    assert x * cap == a;
    if x < 1.0 {
      assert (1.0 - x) * cap > 0.0;
    } else {
      assert (x - 1.0) * cap >= 0.0;
    }
  }

  lemma StatusMonotone(runs: nat, wall: real, cost: real, runs': nat, wall': real, cost': real, caps: Caps)
    requires runs <= runs' && wall <= wall' && cost <= cost'
    ensures ComputeStatus(runs, wall, cost, caps).Rank() <= ComputeStatus(runs', wall', cost', caps).Rank()
  {
    RatioMonotone(runs as real, runs' as real, caps.maxRuns as real);
    RatioMonotone(wall, wall', caps.maxWallMs);
    RatioMonotone(cost, cost', caps.maxCost);
  }

  /** The status by the three axes: exhausted once one is used up, a warning from four fifths of one on. */
  lemma StatusExact(b: Budget)
    requires Consistent(b)
    ensures b.status.Exhausted? <==> b.runs >= b.caps.maxRuns || b.wallMs >= b.caps.maxWallMs || b.cost >= b.caps.maxCost
    ensures b.status.Ok?
            <==> b.runs as real < 0.8 * b.caps.maxRuns as real && b.wallMs < 0.8 * b.caps.maxWallMs && b.cost < 0.8 * b.caps.maxCost
  {
    RatioBelow(b.runs as real, b.caps.maxRuns as real, 1.0);
    RatioBelow(b.wallMs, b.caps.maxWallMs, 1.0);
    RatioBelow(b.cost, b.caps.maxCost, 1.0);
    RatioBelow(b.runs as real, b.caps.maxRuns as real, 0.8);
    RatioBelow(b.wallMs, b.caps.maxWallMs, 0.8);
    RatioBelow(b.cost, b.caps.maxCost, 0.8);
  }

  lemma RatioBelow(a: real, cap: real, share: real)
    requires cap > 0.0
    ensures Ratio(a, cap) < share <==> a < share * cap
  {
    var x := a / cap;
    assert x * cap == a;
    assert (x - share) * cap == a - share * cap;
    assert x < share ==> (x - share) * cap < 0.0;
    assert x >= share ==> (x - share) * cap >= 0.0;
  }

  /** A row just inserted has the status its usage gives, although the insert writes "ok" outright. */
  lemma FreshConsistent(o: WorkOrder)
    requires o.Valid()
    ensures Consistent(Fresh(o.BudgetCaps()))
  {
  }

  /** A launch that the scheduler let through (status not exhausted) stays within `max_runs`. */
  lemma PreLaunchKeeps(b: Budget)
    requires Consistent(b) && !b.status.Exhausted?
    ensures Consistent(PreLaunched(b))
    ensures var b' := PreLaunched(b); b'.runs == b.runs + 1 && b'.wallMs == b.wallMs && b'.cost == b.cost && b'.caps == b.caps
    ensures b.status.Rank() <= PreLaunched(b).status.Rank()
  {
    RatioBelowOne(b.runs as real, b.caps.maxRuns as real);
    StatusMonotone(b.runs, b.wallMs, b.cost, b.runs + 1, b.wallMs, b.cost, b.caps);
  }

  lemma PostRunKeeps(b: Budget, wallMs: real, cost: real)
    requires Consistent(b) && wallMs >= 0.0 && cost >= 0.0
    ensures Consistent(PostRan(b, wallMs, cost))
    ensures var b' := PostRan(b, wallMs, cost);
            b'.runs == b.runs && b'.wallMs == b.wallMs + wallMs && b'.cost == b.cost + cost && b'.caps == b.caps
    ensures b.status.Rank() <= PostRan(b, wallMs, cost).status.Rank()
  {
    StatusMonotone(b.runs, b.wallMs, b.cost, b.runs, b.wallMs + wallMs, b.cost + cost, b.caps);
  }

  /** A budget that is not exhausted has a run left. */
  lemma RunLeft(b: Budget)
    requires Consistent(b)
    ensures !b.status.Exhausted? ==> b.runs < b.caps.maxRuns
    ensures b.runs == b.caps.maxRuns ==> b.status.Exhausted?
  {
    RatioBelowOne(b.runs as real, b.caps.maxRuns as real);
  }

  /** The axis an alarm names carries the largest ratio, and that ratio decides the status. */
  lemma AxisExplainsStatus(b: Budget)
    requires Consistent(b)
    ensures PickAxis(b).1 == match PickAxis(b).0
                             case Runs => b.runs as real / b.caps.maxRuns as real
                             case WallTime => b.wallMs / b.caps.maxWallMs
                             case CostUnits => b.cost / b.caps.maxCost
    ensures PickAxis(b).1 >= b.runs as real / b.caps.maxRuns as real
    ensures PickAxis(b).1 >= b.wallMs / b.caps.maxWallMs
    ensures PickAxis(b).1 >= b.cost / b.caps.maxCost
    ensures b.status.Exhausted? <==> PickAxis(b).1 >= 1.0
    ensures b.status.SoftWarning? <==> 0.8 <= PickAxis(b).1 < 1.0
  {
  }
}
