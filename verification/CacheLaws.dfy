/** What stale caches and differing clocks can and cannot do, in every reachable state of N workers. */
module CacheLaws {
  import opened Types
  import opened Js
  import opened Handoffs
  import opened Protocol
  import opened Shape
  import opened StorySteps
  import opened Picks
  import opened System
  import opened TaskQueue

  /**
   A cached order differs from the stored one only in excludes, where its deduplicated list is a prefix of the
   stored one; it gives the same lease; and a packet built from it still adds exactly the agent handed over from.
   */
  lemma CachesTrail(cfg: Config, s0: Sys, acts: seq<Action>, w: WorkerId, t: TaskId, from: AgentId)
    requires ValidConfig(cfg) && Initial(s0)
    requires w in Run(cfg, s0, acts).workers && t in Run(cfg, s0, acts).workers[w].cache
    ensures var s := Run(cfg, s0, acts);
            && t in s.tasks
            && (var cached, stored := s.workers[w].cache[t], s.tasks[t].row.order;
                && cached.Core() == stored.Core()
                && Dedupe(cached.excludes) <= Dedupe(stored.excludes)
                && DefaultLeaseSeconds(cached) == DefaultLeaseSeconds(stored)
                && Merged(stored.excludes, PacketExcludes(cached.excludes, from)) == Dedupe(stored.excludes + [from]))
  {
    hide Run, Exclusive, Shaped;
    StructuredAlways(cfg, s0, acts);
    var s := Run(cfg, s0, acts);
    var cached, stored := s.workers[w].cache[t], s.tasks[t].row.order;
    CacheOkCaps(cached, stored);
    LeaseOfCopy(cached, stored);
    StalePacketMerges(stored.excludes, cached.excludes, from);
  }

  /** A handover settled on a stale copy of the order leaves the stored excludes as a fresh copy would have. */
  lemma HandoverMergesExactly(cfg: Config, s0: Sys, acts: seq<Action>, w: WorkerId)
    requires ValidConfig(cfg) && Initial(s0) && w in Run(cfg, s0, acts).workers
    requires Run(cfg, s0, acts).workers[w].phase.Settling?
    ensures var s := Run(cfg, s0, acts); var p := s.workers[w].phase; var p' := Settle(p.job, p.agent, p.outcome, p.after);
            && p.job.task in s.tasks
            && (p'.Packaging? ==>
                  var stored := s.tasks[p.job.task].row.order.excludes;
                  Merged(stored, p'.packet.excludes) == Dedupe(stored + [p'.packet.fromAgent]))
  {
    hide Run, Exclusive, Shaped, Settle, Merged, Dedupe, PacketExcludes;
    StructuredAlways(cfg, s0, acts);
    var s := Run(cfg, s0, acts);
    var p := s.workers[w].phase;
    HeldOrder(s, w, p.job.task);
    var p' := Settle(p.job, p.agent, p.outcome, p.after);
    if p'.Packaging? {
      PacketFromCopy(p.job, p.agent, p.outcome, p.after);
      CacheOkCaps(p.job.order, s.tasks[p.job.task].row.order);
      StalePacketMerges(s.tasks[p.job.task].row.order.excludes, p.job.order.excludes, p'.packet.fromAgent);
    }
  }

  /** The order a holder carries lags at most behind the stored one. */
  lemma HeldOrder(s: Sys, w: WorkerId, t: TaskId)
    requires Structured(s) && w in s.workers && Holds(s.workers[w].phase) == Some(t) && OrderOf(s.workers[w].phase).Some?
    ensures t in s.tasks && CacheOk(OrderOf(s.workers[w].phase).value, s.tasks[t].row.order)
  {
    hide CacheOk, Structured;
    HeldShape(s, w, t);
  }

  /** A pending packet excludes what the worker's copy excludes, and the agent it hands over from. */
  predicate Packed(p: Phase) {
    p.Packaging? || p.Excluding? ==> p.packet.excludes == PacketExcludes(p.job.order.excludes, p.packet.fromAgent)
  }

  lemma PackedMoves(v: View, v': View)
    requires PacketMoves(v, v') && Packed(v.worker.phase)
    ensures Packed(v'.worker.phase)
  {
    hide PacketExcludes, Settle;
    var p, p' := v.worker.phase, v'.worker.phase;
    if p'.Packaging? {
      PacketFromCopy(p.job, p.agent, p.outcome, p.after);
      PackagingKeepsJob(p.job, p.agent, p.outcome, p.after);
    }
  }

  lemma PackagingKeepsJob(job: Job, a: AgentId, o: Outcome, after: Budget)
    ensures Settle(job, a, o, after).Packaging? ==> Settle(job, a, o, after).job == job
  {
    hide PacketExcludes;
  }

  lemma PackedRest(cfg: Config, s: Sys, a: Action, w: WorkerId)
    requires w in s.workers && w in Next(cfg, s, a).workers && Packed(s.workers[w].phase)
    requires !(a.Work? && a.w == w)
    ensures Packed(Next(cfg, s, a).workers[w].phase)
  {
    hide LocalStep, FirstClaimable, Claimable, PacketExcludes;
  }

  lemma PackedWork(cfg: Config, s: Sys, a: Action)
    requires Structured(s) && a.Work? && Enabled(cfg, s, a) && Packed(s.workers[a.w].phase)
    ensures a.w in Next(cfg, s, a).workers && Packed(Next(cfg, s, a).workers[a.w].phase)
  {
    hide LocalStep, FirstClaimable, PacketExcludes, TaskShape, Caches, Packed, PacketMoves;
    var p := s.workers[a.w].phase;
    var t := Subject(p).value;
    var v := ViewOf(s, a.w, t);
    if Holds(p).None? {
      UnheldStep(cfg, v, a.choice);
      PackedIdle(Idle);
    } else {
      HeldShape(s, a.w, t);
      PacketStep(cfg, v, a.choice);
      PackedMoves(v, LocalStep(cfg, v, a.choice));
    }
  }

  lemma {:induction false} PackedAlways(cfg: Config, s0: Sys, acts: seq<Action>, w: WorkerId)
    requires ValidConfig(cfg) && Initial(s0) && w in Run(cfg, s0, acts).workers
    ensures Packed(Run(cfg, s0, acts).workers[w].phase)
  {
    hide Structured, Next, Packed;
    if acts == [] {
      PackedIdle(s0.workers[w].phase);
    } else {
      var n := |acts| - 1;
      var s := Run(cfg, s0, acts[..n]);
      SameWorkers(cfg, s, acts[n]);
      PackedAlways(cfg, s0, acts[..n], w);
      StructuredAlways(cfg, s0, acts[..n]);
      if acts[n].Work? && acts[n].w == w && Enabled(cfg, s, acts[n]) {
        PackedWork(cfg, s, acts[n]);
      } else if !(acts[n].Work? && acts[n].w == w) {
        PackedRest(cfg, s, acts[n], w);
      } else {
        NotEnabled(cfg, s, acts[n]);
      }
    }
  }

  lemma PackedIdle(p: Phase)
    requires p.Idle?
    ensures Packed(p)
  {
  }

  lemma NotEnabled(cfg: Config, s: Sys, a: Action)
    requires !Enabled(cfg, s, a)
    ensures Next(cfg, s, a) == s
  {
  }

  /**
   In any reachable state of any number of workers, the step that merges a packet into the row leaves it excluding
   what it excluded, without repeats, and then the agent handed over from, however stale the packet's copy was.
   */
  lemma ExcludesAfterHandover(cfg: Config, s0: Sys, acts: seq<Action>, w: WorkerId, c: Choice)
    requires ValidConfig(cfg) && Initial(s0) && w in Run(cfg, s0, acts).workers
    requires Run(cfg, s0, acts).workers[w].phase.Excluding?
    ensures var s := Run(cfg, s0, acts); var p := s.workers[w].phase; var t := p.job.task; var s' := Next(cfg, s, Work(w, c));
            && t in s.tasks && t in s'.tasks
            && s'.tasks[t].row.order
               == s.tasks[t].row.order.(excludes := Dedupe(s.tasks[t].row.order.excludes + [p.packet.fromAgent]))
            && w in s'.workers && t in s'.workers[w].cache && s'.workers[w].cache[t] == s'.tasks[t].row.order
  {
    hide Run, Structured, Merged, Dedupe, PacketExcludes, LocalStep, FirstClaimable;
    StructuredAlways(cfg, s0, acts);
    PackedAlways(cfg, s0, acts, w);
    var s := Run(cfg, s0, acts);
    var p := s.workers[w].phase;
    HeldOrder(s, w, p.job.task);
    CacheOkCaps(p.job.order, s.tasks[p.job.task].row.order);
    OrderStep(cfg, ViewOf(s, w, p.job.task), c, p.job.task);
    StalePacketMerges(s.tasks[p.job.task].row.order.excludes, p.job.order.excludes, p.packet.fromAgent);
  }

  /** No queued row ever has an owner, so what can be claimed, and first, does not depend on any clock. */
  lemma ClocksIrrelevant(cfg: Config, s0: Sys, acts: seq<Action>, t: TaskId, now: int, now': int)
    requires ValidConfig(cfg) && Initial(s0)
    ensures var s := Run(cfg, s0, acts); FirstClaimable(s.tasks, t, now) <==> FirstClaimable(s.tasks, t, now')
  {
    hide Run, Shaped, Caches;
    StructuredAlways(cfg, s0, acts);
    var s := Run(cfg, s0, acts);
    forall u | u in s.tasks ensures Claimable(s.tasks[u].row, now) <==> Claimable(s.tasks[u].row, now') {
      assert RowOwned(s, u);
    }
  }
}
