/** Handoff packets: the exclude list they carry, and how the store merges it. */
module Handoffs {
  import opened Types
  import opened Js
  import opened Events

  datatype Packet = Packet(
    task: TaskId,
    fromRun: RunId,
    fromAgent: AgentId,
    reason: HandoffReason,
    diff: Option<Uri>,
    verification: Option<Uri>,
    verdict: Option<Uri>,
    excludes: seq<AgentId>)
  {
    /** Where `persist` stores the packet. */
    function Address(): Uri {
      Artifact(task, fromRun, "handoff_packet.json")
    }
  }

  /** Prior excludes without repeats, then the agent handed over from, unless it is among them. */
  function PacketExcludes(prior: seq<AgentId>, from: AgentId): seq<AgentId> {
    var d := Dedupe(prior);
    if from in d then d else d + [from]
  }

  /** The exclude list after `addWorkOrderExcludeAgentIds`. */
  function Merged(stored: seq<AgentId>, added: seq<AgentId>): seq<AgentId> {
    Dedupe(stored + added)
  }

  // ---- Laws of deduplication ----

  lemma {:induction false} DedupeMembers<T>(xs: seq<T>)
    ensures forall x :: x in Dedupe(xs) <==> x in xs
  {
    if xs != [] {
      DedupeMembers(xs[..|xs| - 1]);
      assert xs == xs[..|xs| - 1] + [xs[|xs| - 1]];
    }
  }

  lemma {:induction false} DedupeDistinct<T>(xs: seq<T>)
    ensures forall i, j :: 0 <= i < j < |Dedupe(xs)| ==> Dedupe(xs)[i] != Dedupe(xs)[j]
  {
    if xs != [] {
      DedupeDistinct(xs[..|xs| - 1]);
    }
  }

  lemma {:induction false} DedupePrefix<T>(xs: seq<T>, ys: seq<T>)
    ensures Dedupe(xs) <= Dedupe(xs + ys)
  {
    if ys == [] {
      assert xs + ys == xs;
    } else {
      var n := |ys| - 1;
      DedupePrefix(xs, ys[..n]);
      assert (xs + ys)[..|xs| + n] == xs + ys[..n];
    }
  }

  /** Appending what is already there changes nothing. */
  lemma {:induction false} DedupeAbsorbs<T>(xs: seq<T>, ys: seq<T>)
    requires forall y :: y in ys ==> y in xs
    ensures Dedupe(xs + ys) == Dedupe(xs)
  {
    if ys == [] {
      assert xs + ys == xs;
    } else {
      var n := |ys| - 1;
      DedupeAbsorbs(xs, ys[..n]);
      assert (xs + ys)[..|xs| + n] == xs + ys[..n];
      DedupeMembers(xs);
      assert ys[n] in xs;
    }
  }

  lemma {:induction false} DedupeFixpoint<T>(xs: seq<T>)
    requires forall i, j :: 0 <= i < j < |xs| ==> xs[i] != xs[j]
    ensures Dedupe(xs) == xs
  {
    if xs != [] {
      var n := |xs| - 1;
      DedupeFixpoint(xs[..n]);
      assert xs == xs[..n] + [xs[n]];
    }
  }

  lemma DedupeIdempotent<T>(xs: seq<T>)
    ensures Dedupe(Dedupe(xs)) == Dedupe(xs)
  {
    DedupeDistinct(xs);
    DedupeFixpoint(Dedupe(xs));
  }

  /** A packet built from a list that lags behind the store still adds exactly the agent handed over from. */
  lemma StalePacketMerges(stored: seq<AgentId>, cached: seq<AgentId>, from: AgentId)
    requires forall a :: a in cached ==> a in stored
    ensures Merged(stored, PacketExcludes(cached, from)) == Dedupe(stored + [from])
  {
    var d := Dedupe(cached);
    DedupeMembers(cached);
    DedupeAbsorbs(stored, d);
    if from in d {
      DedupeAbsorbs(stored, [from]);
    } else {
      assert stored + (d + [from]) == (stored + d) + [from];
      assert ((stored + d) + [from])[..|stored + d|] == stored + d;
      assert (stored + [from])[..|stored|] == stored;
    }
  }

  /** `build`'s loop over the prior excludes. */
  method BuildExcludes(prior: seq<AgentId>, from: AgentId) returns (r: seq<AgentId>)
    ensures r == PacketExcludes(prior, from)
  {
    var seen: set<AgentId> := {};
    r := [];
    for i := 0 to |prior|
      invariant r == Dedupe(prior[..i])
      invariant seen == set a | a in r
    {
      assert prior[..i + 1][..i] == prior[..i];
      if prior[i] !in seen {
        seen := seen + {prior[i]};
        r := r + [prior[i]];
      }
    }
    assert prior[..|prior|] == prior;
    if from !in seen {
      r := r + [from];
    }
  }

  /** `dedupeFirstSeen` of the store. */
  method DedupeFirstSeen(values: seq<AgentId>) returns (r: seq<AgentId>)
    ensures r == Dedupe(values)
  {
    var seen: set<AgentId> := {};
    r := [];
    for i := 0 to |values|
      invariant r == Dedupe(values[..i])
      invariant seen == set a | a in r
    {
      assert values[..i + 1][..i] == values[..i];
      if values[i] in seen { continue; }
      seen := seen + {values[i]};
      r := r + [values[i]];
    }
    assert values[..|values|] == values;
  }

  /** `build`: the packet of a handover, with the agent handed over from among its excludes. */
  method Build(task: TaskId, run: RunId, from: AgentId, reason: HandoffReason, diff: Option<Uri>, verification: Option<Uri>,
               verdict: Option<Uri>, prior: seq<AgentId>) returns (p: Packet)
    ensures p == Packet(task, run, from, reason, diff, verification, verdict, PacketExcludes(prior, from))
    ensures forall a :: a in p.excludes <==> a in prior || a == from
    ensures forall i, j :: 0 <= i < j < |p.excludes| ==> p.excludes[i] != p.excludes[j]
  {
    var excludes := BuildExcludes(prior, from);
    DedupeMembers(prior);
    DedupeDistinct(prior);
    p := Packet(task, run, from, reason, diff, verification, verdict, excludes);
  }
}
