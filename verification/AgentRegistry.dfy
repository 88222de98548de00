/** The agent registry: loaded profiles, rolling metrics, and quota health synchronised with a shared map. */
module AgentRegistry {
  import opened Types
  import opened Js
  import opened Sorting
  import opened Scheduler
  import SchedulerLaws
  import opened Events
  import opened Protocol
  import opened HealthLaws
  import opened Tables
  import opened Stores

  /** The map that all registries of a batch share. */
  class HealthMap {
    var levels: map<AgentId, Health>

    constructor ()
      ensures levels == map[]
    {
      levels := map[];
    }
  }

  datatype Internal = Internal(profile: Profile, rolling: Metrics, health: Health)

  /** The metrics of an entry: its rolling window, or the profile's own figures when nothing was recorded. */
  function Refreshed(p: Profile, rows: seq<MetricsRow>, window: nat): Metrics {
    var m := Rolling(Window(rows, p.id, window));
    if m.runsObserved > 0 then m else Metrics(p.initialSuccess, p.initialLatency, 0)
  }

  /** As soon as one run of the agent is on record its window counts, and before that the profile's own figures. */
  lemma RefreshedExact(p: Profile, rows: seq<MetricsRow>, window: nat)
    requires window > 0
    ensures var own := RowsOf(rows, p.id); var m := Refreshed(p, rows, window);
            if own == [] then m == Metrics(p.initialSuccess, p.initialLatency, 0)
            else
              && m.runsObserved == (if |own| < window then |own| else window)
              && m == Rolling(Window(rows, p.id, window))
  {
    WindowExact(rows, p.id, window);
    RollingExact(Window(rows, p.id, window));
  }

  lemma RefreshedBounds(p: Profile, rows: seq<MetricsRow>, window: nat)
    requires p.Valid()
    ensures 0.0 <= Refreshed(p, rows, window).successRate <= 1.0
  {
    RollingBounds(rows, p.id, window);
  }

  /** Health after an outcome: only a failure with a reason can worsen it. */
  function HealthAfter(h: Health, success: bool, reason: Option<FailReason>): Health {
    if success || reason.None? then h else WorseHealth(h, reason.value)
  }

  /** The registered profiles in load order. */
  function ProfilesOf(ids: seq<AgentId>, entries: map<AgentId, Internal>): seq<Profile>
    requires forall a :: a in ids ==> a in entries
  {
    seq(|ids|, (i: nat) requires i < |ids| => entries[ids[i]].profile)
  }

  function RollingsOf(entries: map<AgentId, Internal>): map<AgentId, Metrics> {
    map a | a in entries :: entries[a].rolling
  }

  /** Nothing but the health copies differs. */
  ghost predicate SameBut(before: map<AgentId, Internal>, after: map<AgentId, Internal>) {
    && after.Keys == before.Keys
    && forall a :: a in after ==> after[a].profile == before[a].profile && after[a].rolling == before[a].rolling
  }

  lemma SameProfiles(ids: seq<AgentId>, before: map<AgentId, Internal>, after: map<AgentId, Internal>)
    requires (forall a :: a in ids ==> a in before) && after.Keys == before.Keys
    requires forall a :: a in after ==> after[a].profile == before[a].profile
    ensures ProfilesOf(ids, after) == ProfilesOf(ids, before)
  {
    assert forall a :: a in before ==> a in after;
  }

  /** Recording an outcome changes metrics and health, never a profile. */
  lemma OutcomeKeepsProfiles(ids: seq<AgentId>, before: map<AgentId, Internal>, after: map<AgentId, Internal>, a: AgentId, rolling: Metrics)
    requires (forall x :: x in ids ==> x in before) && a in before
    requires SameBut(before[a := before[a].(rolling := rolling)], after)
    ensures forall x :: x in ids ==> x in after
    ensures ProfilesOf(ids, after) == ProfilesOf(ids, before)
  {
    SameProfiles(ids, before, after);
  }

  lemma SameRollings(before: map<AgentId, Internal>, after: map<AgentId, Internal>)
    requires SameBut(before, after)
    ensures RollingsOf(after) == RollingsOf(before)
  {
    assert RollingsOf(after).Keys == RollingsOf(before).Keys;
  }

  /** What a registry keeps: entries filed under their own ids, sane metrics, no health of its own making. */
  ghost predicate Kept(ids: seq<AgentId>, entries: map<AgentId, Internal>, levels: map<AgentId, Health>) {
    && (forall i, j :: 0 <= i < j < |ids| ==> ids[i] != ids[j])
    && (forall a :: a in ids <==> a in entries)
    && (forall a :: a in entries ==>
          && entries[a].profile.id == a && entries[a].profile.Valid() && !Blank(a)
          && 0.0 <= entries[a].rolling.successRate <= 1.0
          && (a !in levels ==> entries[a].health.Healthy?))
  }

  /** A rate limit lowers a healthy agent, an exhausted quota or a failed login depletes it; each rings as it changes. */
  predicate FailureApplied(a: AgentId, reason: FailReason, run: RunId, before: map<AgentId, Health>, after: map<AgentId, Health>,
                           events: seq<Event>, events': seq<Event>) {
    var h := if a in before then before[a] else Healthy;
    match reason
    case ProviderRateLimited =>
      if h.Healthy? then after == before[a := Low] && events' == events + [AgentAlarm(QuotaLow, a, run)]
      else after == before && events' == events
    case ProviderQuotaExhausted | ProviderAuthFailed =>
      if !h.Depleted? then after == before[a := Depleted] && events' == events + [AgentAlarm(QuotaExhaustedAlarm, a, run)]
      else after == before && events' == events
    case _ => after == before && events' == events
  }

  lemma ListingSnoc(ps: seq<Profile>, p: Profile, metrics: map<AgentId, Metrics>, health: map<AgentId, Health>)
    ensures ListingOf(ps + [p], metrics, health) == ListingOf(ps, metrics, health) + [ListEntry(p, metrics, health)]
  {
    var f := (p: Profile) => ListEntry(p, metrics, health);
    SchedulerLaws.MapSplit(f, ps, [p]);
    assert Map(f, [p]) == [f(p)];
  }

  lemma ListingNone(metrics: map<AgentId, Metrics>, health: map<AgentId, Health>)
    ensures ListingOf([], metrics, health) == []
  {
  }

  lemma KeptIds(ids: seq<AgentId>, entries: map<AgentId, Internal>, levels: map<AgentId, Health>)
    requires Kept(ids, entries, levels)
    ensures forall a :: a in ids <==> a in entries
    ensures forall a :: a in entries ==> !Blank(a)
    ensures SameBut(entries, entries)
  {
  }

  lemma SameTwice(a: map<AgentId, Internal>, b: map<AgentId, Internal>, c: map<AgentId, Internal>)
    requires SameBut(a, b) && SameBut(b, c)
    ensures SameBut(a, c)
  {
  }

  lemma SameStill(ids: seq<AgentId>, before: map<AgentId, Internal>, after: map<AgentId, Internal>, i: nat)
    requires i < |ids| && (forall a :: a in ids ==> a in before) && SameBut(before, after)
    ensures ids[i] in after && after[ids[i]].profile == ProfilesOf(ids, before)[i] && RollingsOf(after) == RollingsOf(before)
  {
    SameRollings(before, after);
    assert ids[i] in ids;
  }

  lemma SameAll(ids: seq<AgentId>, before: map<AgentId, Internal>, after: map<AgentId, Internal>)
    requires (forall a :: a in ids ==> a in before) && SameBut(before, after)
    ensures forall a :: a in ids ==> a in after
    ensures ProfilesOf(ids, after) == ProfilesOf(ids, before) && RollingsOf(after) == RollingsOf(before)
  {
    SameRollings(before, after);
    SameProfiles(ids, before, after);
  }

  /** A listed agent is a registered one. */
  lemma ListedMember(ids: seq<AgentId>, entries: map<AgentId, Internal>, levels: map<AgentId, Health>, e: AgentEntry)
    requires Kept(ids, entries, levels) && e in ListingOf(ProfilesOf(ids, entries), RollingsOf(entries), levels)
    ensures e.profile.id in entries && entries[e.profile.id].profile == e.profile && e.profile in ProfilesOf(ids, entries)
  {
    var ps := ProfilesOf(ids, entries);
    var f := (p: Profile) => ListEntry(p, RollingsOf(entries), levels);
    SchedulerLaws.MapMembers(f, ps);
    var p :| p in ps && f(p) == e;
    var i :| 0 <= i < |ps| && ps[i] == p;
    assert ids[i] in ids;
  }

  /** Every listed agent has the bounds that the score bounds ask for. */
  lemma ListedBounded(ids: seq<AgentId>, entries: map<AgentId, Internal>, levels: map<AgentId, Health>)
    requires Kept(ids, entries, levels)
    ensures forall e :: e in ListingOf(ProfilesOf(ids, entries), RollingsOf(entries), levels) ==> SchedulerLaws.Bounded(e)
  {
    var ps := ProfilesOf(ids, entries);
    var f := (p: Profile) => ListEntry(p, RollingsOf(entries), levels);
    SchedulerLaws.MapMembers(f, ps);
    forall e | e in Map(f, ps) ensures SchedulerLaws.Bounded(e) {
      var p :| p in ps && f(p) == e;
      var i :| 0 <= i < |ps| && ps[i] == p;
      assert ids[i] in ids;
    }
  }

  class SqliteAgentRegistry {
    const metrics: SqliteMetricsStore
    const window: nat
    const log: SqliteEventLog
    const shared: HealthMap
    var ids: seq<AgentId>  // in load order
    var entries: map<AgentId, Internal>

    ghost predicate Valid()
      reads this, shared
    {
      Kept(ids, entries, shared.levels)
    }

    /** The registry as the scheduler sees it. */
    ghost function Listed(): seq<AgentEntry>
      requires Valid()
      reads this, shared
    {
      ListingOf(ProfilesOf(ids, entries), RollingsOf(entries), shared.levels)
    }

    constructor (metrics: SqliteMetricsStore, window: nat, log: SqliteEventLog, shared: HealthMap)
      ensures Valid() && ids == [] && this.metrics == metrics && this.log == log && this.shared == shared && this.window == window
    {
      this.metrics, this.window, this.log, this.shared := metrics, window, log, shared;
      ids, entries := [], map[];
    }

    /** Adds a parsed profile, healthy unless the shared map says otherwise; fails on a duplicate id. */
    method LoadFile(p: Profile) returns (ok: bool)
      requires Valid() && p.Valid() && !Blank(p.id)
      modifies this
      ensures Valid() && ok == (p.id !in old(entries))
      ensures ok ==> ids == old(ids) + [p.id] && p.id in entries && entries == old(entries)[p.id := entries[p.id]]
      ensures ok ==> entries[p.id] == Internal(p, Refreshed(p, metrics.db.metrics, window), HealthOf(shared.levels, p.id))
      ensures !ok ==> ids == old(ids) && entries == old(entries)
    {
      if p.id in entries {
        return false;
      }
      var stored := metrics.RollingFor(p.id, window);
      RefreshedBounds(p, metrics.db.metrics, window);
      var rolling := if stored.runsObserved > 0 then stored else Metrics(p.initialSuccess, p.initialLatency, 0);
      var health := if p.id in shared.levels then shared.levels[p.id] else Healthy;
      ids := ids + [p.id];
      entries := entries[p.id := Internal(p, rolling, health)];
      ok := true;
    }

    /** Adopts the shared health of an entry, if there is one, and returns the entry's health. */
    method SyncQuotaHealth(a: AgentId) returns (h: Health)
      requires Valid() && a in entries
      modifies this`entries
      ensures Valid() && SameBut(old(entries), entries)
      ensures a in entries && h == HealthOf(shared.levels, a) && entries[a].health == h
    {
      if a in shared.levels {
        entries := entries[a := entries[a].(health := shared.levels[a])];
      }
      h := entries[a].health;
    }

    method ToExternal(a: AgentId) returns (e: AgentEntry)
      requires Valid() && a in entries
      modifies this`entries
      ensures Valid() && SameBut(old(entries), entries)
      ensures e == ListEntry(entries[a].profile, RollingsOf(entries), shared.levels)
    {
      var h := SyncQuotaHealth(a);
      e := AgentEntry(entries[a].profile, entries[a].rolling, h);
    }

    /** The registered agents in load order, each with its metrics and its current shared health. */
    method List() returns (r: seq<AgentEntry>)
      requires Valid()
      modifies this`entries
      ensures Valid() && SameBut(old(entries), entries)
      ensures r == Listed() == old(Listed())
      ensures forall e :: e in r ==> SchedulerLaws.Bounded(e)
    {
      hide Kept, SameBut, RollingsOf, SchedulerLaws.Bounded, ListEntry, ListingOf;
      ListingNone(RollingsOf(entries), shared.levels);
      KeptIds(ids, entries, shared.levels);
      r := [];
      ghost var ps, ms := ProfilesOf(ids, entries), RollingsOf(entries);
      for i := 0 to |ids|
        invariant Valid() && SameBut(old(entries), entries)
        invariant r == ListingOf(ps[..i], ms, shared.levels)
      {
        KeptIds(ids, entries, shared.levels);
        SameStill(ids, old(entries), entries, i);
        ghost var before := entries;
        var e := ToExternal(ids[i]);
        SameTwice(old(entries), before, entries);
        SameStill(ids, old(entries), entries, i);
        assert ps[..i + 1] == ps[..i] + [ps[i]];
        ListingSnoc(ps[..i], ps[i], ms, shared.levels);
        r := r + [e];
      }
      assert ps[..|ids|] == ps;
      KeptIds(ids, entries, shared.levels);
      SameAll(ids, old(entries), entries);
      ListedBounded(ids, entries, shared.levels);
    }

    method Get(a: AgentId) returns (r: Option<AgentEntry>)
      requires Valid()
      modifies this`entries
      ensures Valid() && SameBut(old(entries), entries)
      ensures r == if a in entries then Some(ListEntry(entries[a].profile, RollingsOf(entries), shared.levels)) else None
    {
      if a !in entries {
        return None;
      }
      var e := ToExternal(a);
      r := Some(e);
    }

    method RefreshEntryMetrics(a: AgentId)
      requires Valid() && a in entries
      modifies this`entries
      ensures Valid() && entries.Keys == old(entries).Keys
      ensures entries == old(entries)[a := old(entries)[a].(rolling := Refreshed(old(entries)[a].profile, metrics.db.metrics, window))]
    {
      var p := entries[a].profile;
      var stored := metrics.RollingFor(a, window);
      RefreshedBounds(p, metrics.db.metrics, window);
      entries := entries[a := entries[a].(rolling :=
        if stored.runsObserved > 0 then stored else Metrics(p.initialSuccess, p.initialLatency, 0))];
    }

    method SetQuotaHealth(a: AgentId, h: Health)
      requires Valid() && a in entries
      modifies this`entries, shared`levels
      ensures Valid() && SameBut(old(entries), entries)
      ensures shared.levels == old(shared.levels)[a := h]
    {
      entries := entries[a := entries[a].(health := h)];
      shared.levels := shared.levels[a := h];
    }

    method EmitAgentQuotaEvent(a: AgentId, h: Health, run: RunId)
      requires !Blank(a) && !h.Healthy?
      modifies log.db`events
      ensures log.db.events == old(log.db.events) + [AgentAlarm(AlarmKind(h), a, run)]
    {
      AgentAlarmAccepted(AlarmKind(h), a, run);
      var ok := log.Append(AgentAlarm(AlarmKind(h), a, run));
    }

    /** A rate limit lowers a healthy agent; an exhausted quota or a failed login depletes it; each only once. */
    method ApplyProviderFailure(a: AgentId, reason: FailReason, run: RunId)
      requires Valid() && a in entries
      modifies this`entries, shared`levels, log.db`events
      ensures Valid() && SameBut(old(entries), entries)
      ensures FailureApplied(a, reason, run, old(shared.levels), shared.levels, old(log.db.events), log.db.events)
      ensures var h := HealthOf(old(shared.levels), a); var h' := WorseHealth(h, reason);
              if h' == h then shared.levels == old(shared.levels) && log.db.events == old(log.db.events)
              else
                && shared.levels == old(shared.levels)[a := h']
                && log.db.events == old(log.db.events) + [AgentAlarm(AlarmKind(h'), a, run)]
    {
      hide Kept, SameBut;
      KeptIds(ids, entries, shared.levels);
      match reason {
        case ProviderRateLimited =>
          var h := SyncQuotaHealth(a);
          if !h.Healthy? { return; }
          ghost var synced := entries;
          KeptIds(ids, entries, shared.levels);
          SetQuotaHealth(a, Low);
          SameTwice(old(entries), synced, entries);
          EmitAgentQuotaEvent(a, Low, run);
        case ProviderQuotaExhausted | ProviderAuthFailed =>
          var h := SyncQuotaHealth(a);
          if h.Depleted? { return; }
          ghost var synced := entries;
          KeptIds(ids, entries, shared.levels);
          SetQuotaHealth(a, Depleted);
          SameTwice(old(entries), synced, entries);
          EmitAgentQuotaEvent(a, Depleted, run);
        case _ =>
      }
    }

    /** Records the outcome, refreshes the agent's metrics, and applies a provider failure. */
    method RecordOutcome(a: AgentId, success: bool, wallMs: real, run: RunId, reason: Option<FailReason>) returns (ok: bool)
      requires Valid()
      modifies metrics.db`metrics, log.db`events, this`entries, shared`levels
      ensures Valid() && ok == (a in old(entries))
      ensures !ok ==> shared.levels == old(shared.levels) && log.db.events == old(log.db.events) && metrics.db.metrics == old(metrics.db.metrics)
      ensures !ok ==> entries == old(entries)
      ensures ok ==> metrics.db.metrics == old(metrics.db.metrics) + [MetricsRow(a, success, wallMs)]
      ensures ok ==> SameBut(old(entries)[a := old(entries)[a].(rolling := Refreshed(old(entries)[a].profile, metrics.db.metrics, window))], entries)
      ensures ok && !success && reason.Some? ==>
                FailureApplied(a, reason.value, run, old(shared.levels), shared.levels, old(log.db.events), log.db.events)
      ensures success || reason.None? ==> shared.levels == old(shared.levels) && log.db.events == old(log.db.events)
      ensures ok ==>
                var h := HealthOf(old(shared.levels), a); var h' := HealthAfter(h, success, reason);
                if h' == h then shared.levels == old(shared.levels) && log.db.events == old(log.db.events)
                else
                  && shared.levels == old(shared.levels)[a := h']
                  && log.db.events == old(log.db.events) + [AgentAlarm(AlarmKind(h'), a, run)]
    {
      if a !in entries {
        return false;
      }
      metrics.RecordRunOutcome(a, success, wallMs);
      RefreshEntryMetrics(a);
      if !success && reason.Some? {
        ApplyProviderFailure(a, reason.value, run);
      }
      ok := true;
    }

    /** The registry's own filter: not depleted, not excluded, of the role, and capable; sorted by id. */
    method FindCandidates(required: seq<string>, role: Role, excludes: seq<AgentId>, rank: AgentId -> int)
      returns (r: seq<AgentEntry>)
      requires Valid()
      modifies this`entries
      ensures Valid() && SameBut(old(entries), entries)
      ensures r == CandidatesFor(required, role, (set a | a in excludes), Listed(), rank)
    {
      var all := List();
      r := FilterCandidates(required, role, (set a | a in excludes), all);
      r := Sort(r, (a: AgentEntry, b: AgentEntry) => rank(a.profile.id) <= rank(b.profile.id));
    }
  }

  /** The loop of the filter, one `continue` for each condition. */
  method FilterCandidates(required: seq<string>, role: Role, excludeSet: set<AgentId>, all: seq<AgentEntry>)
    returns (results: seq<AgentEntry>)
    ensures results == Filter((e: AgentEntry) =>
                                && !e.health.Depleted?
                                && e.profile.id !in excludeSet
                                && role in e.profile.roles
                                && (forall c :: c in required ==> c in e.profile.kinds), all)
  {
    ghost var p := (e: AgentEntry) =>
      && !e.health.Depleted?
      && e.profile.id !in excludeSet
      && role in e.profile.roles
      && (forall c :: c in required ==> c in e.profile.kinds);
    results := [];
    for i := 0 to |all|
      invariant results == Filter(p, all[..i])
    {
      var e := all[i];
      assert all[..i + 1] == all[..i] + [e];
      FilterSplit(p, all[..i], [e]);
      assert Filter(p, [e]) == if p(e) then [e] else [];
      if e.health.Depleted? { continue; }
      if e.profile.id in excludeSet { continue; }
      if role !in e.profile.roles { continue; }
      var capMatch := SubsetOf(required, e.profile.kinds);
      if !capMatch { continue; }
      results := results + [e];
    }
    assert all[..|all|] == all;
  }

  lemma {:induction false} FilterSplit<A>(p: A -> bool, xs: seq<A>, ys: seq<A>)
    ensures Filter(p, xs + ys) == Filter(p, xs) + Filter(p, ys)
  {
    if xs == [] {
      assert xs + ys == ys;
    } else {
      var all, rest := xs + ys, xs[1..];
      var head := if p(xs[0]) then [xs[0]] else [];
      assert all[0] == xs[0] && all[1..] == rest + ys;
      FilterSplit(p, rest, ys);
      assert Filter(p, all) == head + Filter(p, all[1..]) && Filter(p, xs) == head + Filter(p, rest);
      assert head + (Filter(p, rest) + Filter(p, ys)) == (head + Filter(p, rest)) + Filter(p, ys);
    }
  }

  /** The subset check: stops at the first element that is missing. */
  method SubsetOf(sub: seq<string>, sup: seq<string>) returns (r: bool)
    ensures r <==> forall c :: c in sub ==> c in sup
  {
    for i := 0 to |sub|
      invariant forall c :: c in sub[..i] ==> c in sup
    {
      assert sub[i] in sub;
      if sub[i] !in sup {
        return false;
      }
    }
    assert sub[..|sub|] == sub;
    r := true;
  }
}
