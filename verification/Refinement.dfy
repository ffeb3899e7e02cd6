/** The drained pipeline against the plain sequential copy loop. */
module Refinement {
  import opened Types
  import opened Split
  import opened Chain
  import opened Memory
  import opened Tokens
  import opened Pipeline
  import opened QpInvariant
  import opened SystemInvariant
  import opened Placement
  import opened Delivery
  import opened Safety

  /** The transfers all READ submissions ask for, in submission order. */
  function Requested(regions: Regions, subs: seq<Submission>): seq<Transfer> {
    if subs == [] then []
    else Requested(regions, subs[..|subs| - 1]) + RequestedBy(regions, subs[|subs| - 1])
  }

  function RequestedBy(regions: Regions, sub: Submission): seq<Transfer> {
    if sub.opcode != READ then []
    else seq(|sub.batch|, m requires 0 <= m < |sub.batch| => TransferFor(regions, sub.batch[m]))
  }

  /** Position of assignment m of submission sid among all requested transfers. */
  function Rank(regions: Regions, subs: seq<Submission>, sid: nat, m: nat): nat
    requires sid <= |subs|
  {
    |Requested(regions, subs[..sid])| + m
  }

  lemma {:induction false} RankHolds(regions: Regions, subs: seq<Submission>, sid: nat, m: nat)
    requires IsReadAssignment(subs, sid, m)
    ensures Rank(regions, subs, sid, m) < |Requested(regions, subs)|
    ensures Requested(regions, subs)[Rank(regions, subs, sid, m)] == TransferFor(regions, subs[sid].batch[m])
    decreases |subs|
  {
    var n := |subs| - 1;
    assert Requested(regions, subs) == Requested(regions, subs[..n]) + RequestedBy(regions, subs[n]);
    if sid < n {
      RankHolds(regions, subs[..n], sid, m);
      assert subs[..n][..sid] == subs[..sid];
    }
  }

  lemma {:induction false} RankOrigin(regions: Regions, subs: seq<Submission>, n: nat) returns (sid: nat, m: nat)
    requires n < |Requested(regions, subs)|
    ensures IsReadAssignment(subs, sid, m) && Rank(regions, subs, sid, m) == n
    ensures Requested(regions, subs)[n] == TransferFor(regions, subs[sid].batch[m])
    decreases |subs|
  {
    var k := |subs| - 1;
    if n < |Requested(regions, subs[..k])| {
      sid, m := RankOrigin(regions, subs[..k], n);
      assert subs[..k][..sid] == subs[..sid];
    } else {
      sid, m := k, n - |Requested(regions, subs[..k])|;
    }
  }

  /** A RECV submission asks a peer to write at `a`. */
  ghost predicate RecvAsked(cfg: Config, s: System, a: int) {
    exists sid, m :: IsRecvAssignment(s.subs, sid, m) && 0 <= a && Hits(TransferFor(cfg.regions, s.subs[sid].batch[m]), a)
  }

  predicate NoRecv(s: System) {
    forall sid :: 0 <= sid < |s.subs| ==> s.subs[sid].opcode != RECV
  }

  /** Away from receive buffers, our memory is `mem`; without RECV, all of it is. */
  ghost predicate MemoryIs(cfg: Config, s: System, mem: seq<Byte>) {
    && |s.local| == |mem|
    && (forall a :: 0 <= a < |mem| && !RecvAsked(cfg, s, a) ==> s.local[a] == mem[a])
    && (NoRecv(s) ==> s.local == mem)
  }

  lemma MemoryByBytes(cfg: Config, s: System, mem: seq<Byte>)
    requires |s.local| == |mem|
    requires forall a :: 0 <= a < |mem| && !RecvAsked(cfg, s, a) ==> s.local[a] == mem[a]
    ensures MemoryIs(cfg, s, mem)
  {
  }

  /** No requested transfer writes to a byte that another one or a RECV writes to. */
  ghost predicate AllApart(cfg: Config, s: System) {
    forall sid, m :: IsReadAssignment(s.subs, sid, m) ==> WritesApart(cfg, s, sid, m)
  }

  ghost predicate AllSucceeded(cfg: Config, s: System) {
    forall sid, m :: IsReadAssignment(s.subs, sid, m) ==> Succeeded(cfg, s, sid, m)
  }

  lemma RequestedApart(cfg: Config, s: System)
    requires AllApart(cfg, s)
    ensures PairwiseApart(Requested(cfg.regions, s.subs))
  {
    var ts := Requested(cfg.regions, s.subs);
    forall i, j | 0 <= i < j < |ts|
      ensures Apart(ts[i], ts[j])
    {
      var sid, m := RankOrigin(cfg.regions, s.subs, i);
      var sid', m' := RankOrigin(cfg.regions, s.subs, j);
      assert WritesApart(cfg, s, sid, m);
    }
  }

  lemma RequestedFit(cfg: Config, s: System)
    requires Reachable(cfg, s) && AllSucceeded(cfg, s)
    ensures AllFit(Requested(cfg.regions, s.subs), |cfg.init|, |cfg.remote|)
  {
    forall i | 0 <= i < |Requested(cfg.regions, s.subs)|
      ensures Fits(Requested(cfg.regions, s.subs)[i], |cfg.init|, |cfg.remote|)
    {
      var sid, m := RankOrigin(cfg.regions, s.subs, i);
      SucceededFits(cfg, s, sid, m);
    }
  }

  lemma UnrequestedByte(cfg: Config, s: System, a: nat)
    requires Reachable(cfg, s) && a < |s.local| && !RecvAsked(cfg, s, a)
    requires forall t :: t in Requested(cfg.regions, s.subs) ==> !Hits(t, a)
    ensures Unwritten(s, a) && Untouched(cfg, s, a)
  {
    UnrequestedUnwritten(cfg, s, a);
    ReachableMem(cfg, s);
  }

  lemma UnrequestedUnwritten(cfg: Config, s: System, a: nat)
    requires Reachable(cfg, s) && !RecvAsked(cfg, s, a)
    requires forall t :: t in Requested(cfg.regions, s.subs) ==> !Hits(t, a)
    ensures Unwritten(s, a)
  {
    if Receivable(s, a) {
      var sid, m := ReceivableOrigin(cfg, s, a);
      assert RecvAsked(cfg, s, a);
    }
    forall q, i | IsRead(s, q, i)
      ensures !Writes(s, q, i, a)
    {
      var sid, m := RequestOrigin(cfg, s, q, i);
      SentSlot(cfg, s, sid, m);
      RankHolds(cfg.regions, s.subs, sid, m);
    }
  }

  lemma RequestedByte(cfg: Config, s: System, n: nat, a: nat)
    requires Reachable(cfg, s) && AllSucceeded(cfg, s) && AllApart(cfg, s)
    requires n < |Requested(cfg.regions, s.subs)| && Hits(Requested(cfg.regions, s.subs)[n], a)
    ensures ByteOf(cfg, s, Requested(cfg.regions, s.subs)[n], a)
  {
    var sid, m := RankOrigin(cfg.regions, s.subs, n);
    RequestedByteOf(cfg, s, sid, m, a);
  }

  predicate ByteOf(cfg: Config, s: System, t: Transfer, a: nat)
    requires Hits(t, a)
  {
    a < |s.local| && t.src + (a - t.dst) < |cfg.remote| && s.local[a] == cfg.remote[t.src + (a - t.dst)]
  }

  lemma RequestedByteOf(cfg: Config, s: System, sid: nat, m: nat, a: nat)
    requires Reachable(cfg, s) && IsReadAssignment(s.subs, sid, m)
    requires Succeeded(cfg, s, sid, m) && WritesApart(cfg, s, sid, m)
    requires Hits(TransferFor(cfg.regions, s.subs[sid].batch[m]), a)
    ensures ByteOf(cfg, s, TransferFor(cfg.regions, s.subs[sid].batch[m]), a)
  {
    SucceededByte(cfg, s, sid, m, a);
  }

  /** A byte away from receive buffers holds what the sequential loop leaves in it. */
  lemma SequentialByte(cfg: Config, s: System, a: nat)
    requires Reachable(cfg, s) && AllSucceeded(cfg, s) && AllApart(cfg, s)
    requires AllFit(Requested(cfg.regions, s.subs), |cfg.init|, |cfg.remote|) && a < |s.local| == |cfg.init|
    requires !RecvAsked(cfg, s, a)
    ensures s.local[a] == RunAll(cfg.init, cfg.remote, Requested(cfg.regions, s.subs))[a]
  {
    var ts := Requested(cfg.regions, s.subs);
    RequestedApart(cfg, s);
    ByteAfter(cfg.init, cfg.remote, ts, a);
    if n :| 0 <= n < |ts| && Hits(ts[n], a) {
      assert ts[n] in ts;
      RequestedByte(cfg, s, n, a);
    } else {
      UnrequestedByte(cfg, s, a);
    }
  }

  /** Interleaving independence: once every requested transfer has succeeded, memory is what
      the sequential loop over all submissions would have left, whatever order the four QPs
      and the NIC worked in, if no READ writes where another READ or a RECV does; only the
      buffers of RECV submissions hold what peers have sent. */
  lemma SucceededIsSequential(cfg: Config, s: System)
    requires Reachable(cfg, s) && AllSucceeded(cfg, s) && AllApart(cfg, s)
    ensures AllFit(Requested(cfg.regions, s.subs), |cfg.init|, |cfg.remote|)
    ensures MemoryIs(cfg, s, RunAll(cfg.init, cfg.remote, Requested(cfg.regions, s.subs)))
  {
    var ts := Requested(cfg.regions, s.subs);
    RequestedFit(cfg, s);
    LocalSize(cfg, s);
    forall a | 0 <= a < |s.local| && !RecvAsked(cfg, s, a)
      ensures s.local[a] == RunAll(cfg.init, cfg.remote, ts)[a]
    {
      SequentialByte(cfg, s, a);
    }
    MemoryByBytes(cfg, s, RunAll(cfg.init, cfg.remote, ts));
  }

  lemma LocalSize(cfg: Config, s: System)
    requires Reachable(cfg, s)
    ensures |s.local| == |cfg.init|
  {
    ReachableMem(cfg, s);
  }

  /** Every QP has drained without an error. */
  predicate CleanlyDrained(s: System) {
    forall q :: 0 <= q < |s.qps| ==> QpDrained(s, q) && !s.qps[q].failed
  }

  lemma DrainedSucceeded(cfg: Config, s: System, sid: nat, m: nat)
    requires Reachable(cfg, s) && CleanlyDrained(s) && IsReadAssignment(s.subs, sid, m)
    ensures Succeeded(cfg, s, sid, m)
  {
    SubFacts(cfg, s, sid);
    var q := s.subs[sid].q;
    assert QpDrained(s, q);
    OrderFacts(cfg, s, q);
    assert s.qps[q].posted == PlacedOn(s.subs, q);
    HasSlot(s.subs, sid, m);
    SentSlot(cfg, s, sid, m);
    StatusFacts(cfg, s, q);
  }

  /** Refinement: a cleanly drained pipeline has done exactly what the sequential copy loop
      over all submitted READ batches does; receive buffers, which peers write to, aside. */
  lemma DrainedIsSequential(cfg: Config, s: System)
    requires Reachable(cfg, s) && CleanlyDrained(s) && AllApart(cfg, s)
    ensures AllFit(Requested(cfg.regions, s.subs), |cfg.init|, |cfg.remote|)
    ensures MemoryIs(cfg, s, RunAll(cfg.init, cfg.remote, Requested(cfg.regions, s.subs)))
  {
    forall sid: int, m: int | IsReadAssignment(s.subs, sid, m)
      ensures Succeeded(cfg, s, sid, m)
    {
      DrainedSucceeded(cfg, s, sid, m);
    }
    SucceededIsSequential(cfg, s);
  }
}
