/** The contexts behind one scheduler share our memory.  Each is a pipeline of its own; a step
    of any of them writes to the one memory. */
module Fleet {
  import opened Types
  import opened Split
  import opened Chain
  import opened Memory
  import opened Pipeline
  import opened QpInvariant
  import opened SystemInvariant
  import opened Delivery
  import opened Placement
  import opened Safety
  import opened Refinement

  /** systems[c] is context c with a memory only it writes to; `mem` is the memory they share. */
  datatype Fleet = Fleet(systems: seq<System>, mem: seq<Byte>)

  /** All contexts start with the same memory and read from the same peer. */
  ghost predicate SameHost(cfgs: seq<Config>, init: seq<Byte>, remote: seq<Byte>) {
    forall c :: 0 <= c < |cfgs| ==> cfgs[c].init == init && cfgs[c].remote == remote
  }

  function FleetInit(cfgs: seq<Config>, init: seq<Byte>): Fleet {
    Fleet(seq(|cfgs|, c requires 0 <= c < |cfgs| => Init(cfgs[c])), init)
  }

  predicate FleetEnabled(cfgs: seq<Config>, f: Fleet, c: nat, step: Step) {
    && c < |cfgs| == |f.systems| && Enabled(cfgs[c], f.systems[c], step) && |f.mem| == |f.systems[c].local|
  }

  /** Context c takes a step: what it does to its own memory it does to the shared one. */
  function FleetDo(cfgs: seq<Config>, f: Fleet, c: nat, step: Step): Fleet
    requires FleetEnabled(cfgs, f, c, step)
  {
    Fleet(f.systems[c := Do(cfgs[c], f.systems[c], step)], MemoryAfter(cfgs[c], f.systems[c], step, f.mem))
  }

  ghost predicate IsFleetRun(cfgs: seq<Config>, states: seq<Fleet>, moves: seq<(nat, Step)>) {
    && |states| == |moves| + 1
    && forall i :: 0 <= i < |moves| ==>
         && FleetEnabled(cfgs, states[i], moves[i].0, moves[i].1)
         && states[i + 1] == FleetDo(cfgs, states[i], moves[i].0, moves[i].1)
  }

  // ----- One memory -----

  /** No other context has posted a request that writes `a`. */
  ghost predicate OnlyOwner(f: Fleet, c: int, a: int) {
    forall d :: 0 <= d < |f.systems| && d != c ==> Unwritten(f.systems[d], a)
  }

  /** A byte that only context c can write holds what c's own memory does. */
  ghost predicate SharedInv(f: Fleet) {
    forall c, a :: 0 <= c < |f.systems| && 0 <= a < |f.mem| && OnlyOwner(f, c, a) ==>
      a < |f.systems[c].local| && f.mem[a] == f.systems[c].local[a]
  }

  ghost predicate FleetInv(cfgs: seq<Config>, f: Fleet) {
    && |f.systems| == |cfgs| && SharedInv(f)
    && forall c :: 0 <= c < |cfgs| ==> Reachable(cfgs[c], f.systems[c]) && |f.mem| == |cfgs[c].init| == |f.systems[c].local|
  }

  lemma UnwrittenStays(cfg: Config, s: System, step: Step, a: nat)
    requires Reachable(cfg, s) && Enabled(cfg, s, step) && a < |s.local| && Unwritten(Do(cfg, s, step), a)
    ensures Unwritten(s, a) && NewByte(cfg, s, step, a).None?
  {
    ReachableInv(cfg, s);
    StepMoves(cfg, s, step);
    GrowUnwritten(s, Do(cfg, s, step), a);
    if NewByte(cfg, s, step, a).Some? {
      NewByteOrigin(cfg, s, step, a);
    }
  }

  /** The byte that a step of context e leaves at `a`, in its own memory and in the shared one. */
  lemma SameByte(cfg: Config, s: System, step: Step, mem: seq<Byte>, a: nat)
    requires Enabled(cfg, s, step) && |mem| == |s.local| && a < |mem| && mem[a] == s.local[a]
    ensures a < |Do(cfg, s, step).local| && MemoryAfter(cfg, s, step, mem)[a] == Do(cfg, s, step).local[a]
  {
    MemoryOfDo(cfg, s, step);
    MemoryAt(cfg, s, step, mem, a);
    MemoryAt(cfg, s, step, s.local, a);
  }

  lemma OwnByte(cfgs: seq<Config>, f: Fleet, e: nat, step: Step, c: nat, a: nat)
    requires FleetInv(cfgs, f) && FleetEnabled(cfgs, f, e, step) && c < |cfgs| && a < |f.mem|
    requires OnlyOwner(FleetDo(cfgs, f, e, step), c, a)
    ensures var r := FleetDo(cfgs, f, e, step); a < |r.systems[c].local| && r.mem[a] == r.systems[c].local[a]
  {
    var r := FleetDo(cfgs, f, e, step);
    if e != c {
      assert Unwritten(r.systems[e], a);
      UnwrittenStays(cfgs[e], f.systems[e], step, a);
      MemoryAt(cfgs[e], f.systems[e], step, f.mem, a);
    }
    OwnerBefore(f, r, e, c, a);
    if e == c {
      SameByte(cfgs[c], f.systems[c], step, f.mem, a);
    }
  }

  lemma OwnerBefore(f: Fleet, r: Fleet, e: nat, c: nat, a: nat)
    requires e < |f.systems| && |r.systems| == |f.systems| && OnlyOwner(r, c, a)
    requires forall d :: 0 <= d < |f.systems| && d != e ==> r.systems[d] == f.systems[d]
    requires e != c ==> Unwritten(f.systems[e], a)
    ensures OnlyOwner(f, c, a)
  {
    forall d | 0 <= d < |f.systems| && d != c
      ensures Unwritten(f.systems[d], a)
    {
      assert Unwritten(r.systems[d], a);
    }
  }

  lemma FleetKept(cfgs: seq<Config>, f: Fleet, e: nat, step: Step)
    requires FleetInv(cfgs, f) && FleetEnabled(cfgs, f, e, step)
    ensures FleetInv(cfgs, FleetDo(cfgs, f, e, step))
  {
    var r := FleetDo(cfgs, f, e, step);
    StepReachable(cfgs[e], f.systems[e], step, r.systems[e]);
    LocalSize(cfgs[e], r.systems[e]);
    forall c, a | 0 <= c < |r.systems| && 0 <= a < |r.mem| && OnlyOwner(r, c, a)
      ensures a < |r.systems[c].local| && r.mem[a] == r.systems[c].local[a]
    {
      OwnByte(cfgs, f, e, step, c, a);
    }
  }

  lemma FleetStarts(cfgs: seq<Config>, init: seq<Byte>, remote: seq<Byte>)
    requires SameHost(cfgs, init, remote)
    ensures FleetInv(cfgs, FleetInit(cfgs, init))
  {
    forall c | 0 <= c < |cfgs|
      ensures Reachable(cfgs[c], Init(cfgs[c]))
    {
      InitReachable(cfgs[c]);
    }
  }

  /** Every state of every run of the contexts together. */
  lemma {:induction false} FleetRunInv(cfgs: seq<Config>, init: seq<Byte>, remote: seq<Byte>, states: seq<Fleet>,
                                       moves: seq<(nat, Step)>, n: nat)
    requires SameHost(cfgs, init, remote) && IsFleetRun(cfgs, states, moves) && n <= |moves|
    requires states[0] == FleetInit(cfgs, init)
    ensures FleetInv(cfgs, states[n])
  {
    if n == 0 {
      FleetStarts(cfgs, init, remote);
    } else {
      FleetRunInv(cfgs, init, remote, states, moves, n - 1);
      FleetKept(cfgs, states[n - 1], moves[n - 1].0, moves[n - 1].1);
    }
  }

  // ----- All contexts together do what one sequential loop does -----

  /** No READ of any context writes where another READ or a RECV of any context does. */
  ghost predicate FleetApart(cfgs: seq<Config>, f: Fleet)
    requires |cfgs| == |f.systems|
  {
    && (forall c :: 0 <= c < |cfgs| ==> AllApart(cfgs[c], f.systems[c]))
    && forall c, sid, m, d, sid', m' ::
         0 <= c < |cfgs| && 0 <= d < |cfgs| && c != d && IsReadAssignment(f.systems[c].subs, sid, m)
         && IsWriter(f.systems[d].subs, sid', m')
         ==> Apart(TransferFor(cfgs[c].regions, f.systems[c].subs[sid].batch[m]),
                   TransferFor(cfgs[d].regions, f.systems[d].subs[sid'].batch[m']))
  }

  /** `ts` has the transfers that the READ submissions of all contexts ask for, in some order,
      such as the order in which the scheduler was called. */
  ghost predicate AllRequested(cfgs: seq<Config>, f: Fleet, ts: seq<Transfer>)
    requires |cfgs| == |f.systems|
  {
    forall t :: t in ts <==>
      exists c :: 0 <= c < |cfgs| && t in Requested(cfgs[c].regions, f.systems[c].subs)
  }

  /** A RECV of some context asks a peer to write at `a`. */
  ghost predicate FleetRecvAsked(cfgs: seq<Config>, f: Fleet, a: int)
    requires |cfgs| == |f.systems|
  {
    exists c :: 0 <= c < |cfgs| && RecvAsked(cfgs[c], f.systems[c], a)
  }

  ghost predicate FleetDrained(cfgs: seq<Config>, f: Fleet)
    requires |cfgs| == |f.systems|
  {
    forall c :: 0 <= c < |cfgs| ==> CleanlyDrained(f.systems[c])
  }

  lemma OthersLeaveByte(cfgs: seq<Config>, f: Fleet, c: nat, sid: nat, m: nat, a: nat)
    requires FleetInv(cfgs, f) && FleetApart(cfgs, f) && c < |cfgs| && IsReadAssignment(f.systems[c].subs, sid, m)
    requires Hits(TransferFor(cfgs[c].regions, f.systems[c].subs[sid].batch[m]), a)
    ensures OnlyOwner(f, c, a)
  {
    forall d | 0 <= d < |f.systems| && d != c
      ensures Unwritten(f.systems[d], a)
    {
      OtherUnwritten(cfgs, f, c, sid, m, d, a);
    }
  }

  lemma OtherUnwritten(cfgs: seq<Config>, f: Fleet, c: nat, sid: nat, m: nat, d: nat, a: nat)
    requires FleetInv(cfgs, f) && FleetApart(cfgs, f) && c < |cfgs| && d < |cfgs| && c != d
    requires IsReadAssignment(f.systems[c].subs, sid, m)
    requires Hits(TransferFor(cfgs[c].regions, f.systems[c].subs[sid].batch[m]), a)
    ensures Unwritten(f.systems[d], a)
  {
    var s, t := f.systems[d], TransferFor(cfgs[c].regions, f.systems[c].subs[sid].batch[m]);
    forall sid', m' | IsWriter(s.subs, sid', m')
      ensures !Hits(TransferFor(cfgs[d].regions, s.subs[sid'].batch[m']), a)
    {
      ApartMisses(t, TransferFor(cfgs[d].regions, s.subs[sid'].batch[m']), a);
    }
    NoWriter(cfgs[d], s, a);
  }

  lemma NoWriter(cfg: Config, s: System, a: nat)
    requires Reachable(cfg, s)
    requires forall sid, m :: IsWriter(s.subs, sid, m) ==> !Hits(TransferFor(cfg.regions, s.subs[sid].batch[m]), a)
    ensures Unwritten(s, a)
  {
    if Receivable(s, a) {
      var sid, m := ReceivableOrigin(cfg, s, a);
      assert IsWriter(s.subs, sid, m);
    }
    forall q, i | IsRead(s, q, i)
      ensures !Writes(s, q, i, a)
    {
      var sid, m := RequestOrigin(cfg, s, q, i);
      SentSlot(cfg, s, sid, m);
      assert IsWriter(s.subs, sid, m);
    }
  }

  lemma DrainedByte(cfg: Config, s: System, t: Transfer, a: nat)
    requires Reachable(cfg, s) && CleanlyDrained(s) && AllApart(cfg, s) && t in Requested(cfg.regions, s.subs) && Hits(t, a)
    ensures ByteOf(cfg, s, t, a)
  {
    var n :| 0 <= n < |Requested(cfg.regions, s.subs)| && Requested(cfg.regions, s.subs)[n] == t;
    var sid, m := RankOrigin(cfg.regions, s.subs, n);
    DrainedSucceeded(cfg, s, sid, m);
    RequestedByteOf(cfg, s, sid, m, a);
  }

  lemma RequestOwner(cfgs: seq<Config>, f: Fleet, c: nat, t: Transfer, a: nat)
    requires FleetInv(cfgs, f) && FleetApart(cfgs, f) && c < |cfgs|
    requires t in Requested(cfgs[c].regions, f.systems[c].subs) && Hits(t, a)
    ensures OnlyOwner(f, c, a)
  {
    var ts := Requested(cfgs[c].regions, f.systems[c].subs);
    var n :| 0 <= n < |ts| && ts[n] == t;
    var sid, m := RankOrigin(cfgs[c].regions, f.systems[c].subs, n);
    OthersLeaveByte(cfgs, f, c, sid, m, a);
  }

  /** A byte that a READ of context c asks for holds the byte it asked for. */
  lemma FleetRequestedByte(cfgs: seq<Config>, f: Fleet, c: nat, t: Transfer, a: nat)
    requires FleetInv(cfgs, f) && FleetApart(cfgs, f) && FleetDrained(cfgs, f) && c < |cfgs| && a < |f.mem|
    requires t in Requested(cfgs[c].regions, f.systems[c].subs) && Hits(t, a)
    ensures t.src + (a - t.dst) < |cfgs[c].remote| && f.mem[a] == cfgs[c].remote[t.src + (a - t.dst)]
  {
    DrainedByte(cfgs[c], f.systems[c], t, a);
    RequestOwner(cfgs, f, c, t, a);
  }

  /** A byte that no context asks for is as it was. */
  lemma FleetUnrequestedByte(cfgs: seq<Config>, f: Fleet, a: nat)
    requires FleetInv(cfgs, f) && |cfgs| > 0 && a < |f.mem| && !FleetRecvAsked(cfgs, f, a)
    requires forall c, t :: 0 <= c < |cfgs| && t in Requested(cfgs[c].regions, f.systems[c].subs) ==> !Hits(t, a)
    ensures f.mem[a] == cfgs[0].init[a]
  {
    forall c | 0 <= c < |cfgs|
      ensures Unwritten(f.systems[c], a) && Untouched(cfgs[c], f.systems[c], a)
    {
      assert !RecvAsked(cfgs[c], f.systems[c], a);
      UnrequestedByte(cfgs[c], f.systems[c], a);
    }
    assert OnlyOwner(f, 0, a);
  }

  lemma FleetFits(cfgs: seq<Config>, init: seq<Byte>, remote: seq<Byte>, f: Fleet, ts: seq<Transfer>)
    requires SameHost(cfgs, init, remote) && FleetInv(cfgs, f) && FleetDrained(cfgs, f) && FleetApart(cfgs, f)
    requires AllRequested(cfgs, f, ts)
    ensures AllFit(ts, |init|, |remote|)
  {
    forall i | 0 <= i < |ts|
      ensures Fits(ts[i], |init|, |remote|)
    {
      assert ts[i] in ts;
      var c :| 0 <= c < |cfgs| && ts[i] in Requested(cfgs[c].regions, f.systems[c].subs);
      DrainedIsSequential(cfgs[c], f.systems[c]);
    }
  }

  lemma HitByte(cfgs: seq<Config>, init: seq<Byte>, remote: seq<Byte>, f: Fleet, ts: seq<Transfer>, t: Transfer, a: nat)
    requires SameHost(cfgs, init, remote) && FleetInv(cfgs, f) && FleetDrained(cfgs, f) && FleetApart(cfgs, f)
    requires AllRequested(cfgs, f, ts) && t in ts && Hits(t, a) && a < |f.mem|
    ensures t.src + (a - t.dst) < |remote| && f.mem[a] == remote[t.src + (a - t.dst)]
  {
    var c :| 0 <= c < |cfgs| && t in Requested(cfgs[c].regions, f.systems[c].subs);
    FleetRequestedByte(cfgs, f, c, t, a);
  }

  lemma MissedByte(cfgs: seq<Config>, init: seq<Byte>, remote: seq<Byte>, f: Fleet, ts: seq<Transfer>, a: nat)
    requires SameHost(cfgs, init, remote) && |cfgs| > 0 && FleetInv(cfgs, f) && AllRequested(cfgs, f, ts)
    requires a < |f.mem| && !FleetRecvAsked(cfgs, f, a) && forall t :: t in ts ==> !Hits(t, a)
    ensures a < |init| && f.mem[a] == init[a]
  {
    forall c, t | 0 <= c < |cfgs| && t in Requested(cfgs[c].regions, f.systems[c].subs)
      ensures !Hits(t, a)
    {
      assert t in ts;
    }
    FleetUnrequestedByte(cfgs, f, a);
  }

  /** The shared memory, byte by byte, against any sequential order of all the transfers. */
  lemma FleetByte(cfgs: seq<Config>, init: seq<Byte>, remote: seq<Byte>, f: Fleet, ts: seq<Transfer>, a: nat)
    requires SameHost(cfgs, init, remote) && |cfgs| > 0 && FleetInv(cfgs, f) && FleetDrained(cfgs, f) && FleetApart(cfgs, f)
    requires AllRequested(cfgs, f, ts) && PairwiseApart(ts) && AllFit(ts, |init|, |remote|)
    requires a < |f.mem| == |init| && !FleetRecvAsked(cfgs, f, a)
    ensures f.mem[a] == RunAll(init, remote, ts)[a]
  {
    forall t | t in ts && Hits(t, a)
      ensures t.src + (a - t.dst) < |remote| && f.mem[a] == remote[t.src + (a - t.dst)]
    {
      HitByte(cfgs, init, remote, f, ts, t, a);
    }
    if forall t :: t in ts ==> !Hits(t, a) {
      MissedByte(cfgs, init, remote, f, ts, a);
    }
    ByteIs(init, remote, ts, a, f.mem[a]);
  }

  lemma FleetInOrder(cfgs: seq<Config>, init: seq<Byte>, remote: seq<Byte>, f: Fleet, ts: seq<Transfer>)
    requires SameHost(cfgs, init, remote) && |cfgs| > 0 && FleetInv(cfgs, f) && FleetDrained(cfgs, f) && FleetApart(cfgs, f)
    requires AllRequested(cfgs, f, ts) && PairwiseApart(ts)
    ensures AllFit(ts, |init|, |remote|) && |f.mem| == |init|
    ensures forall a :: 0 <= a < |init| && !FleetRecvAsked(cfgs, f, a) ==> f.mem[a] == RunAll(init, remote, ts)[a]
  {
    assert Reachable(cfgs[0], f.systems[0]) && cfgs[0].init == init;
    FleetFits(cfgs, init, remote, f, ts);
    forall a | 0 <= a < |init| && !FleetRecvAsked(cfgs, f, a)
      ensures f.mem[a] == RunAll(init, remote, ts)[a]
    {
      FleetByte(cfgs, init, remote, f, ts, a);
    }
  }

  /** The transfers of the first n contexts, one context after the other. */
  function TransfersOf(cfgs: seq<Config>, systems: seq<System>, n: nat): seq<Transfer>
    requires n <= |cfgs| == |systems|
  {
    if n == 0 then []
    else TransfersOf(cfgs, systems, n - 1) + Requested(cfgs[n - 1].regions, systems[n - 1].subs)
  }

  lemma {:induction false} TransferOrigin(cfgs: seq<Config>, systems: seq<System>, n: nat, i: nat) returns (c: nat, k: nat)
    requires n <= |cfgs| == |systems| && i < |TransfersOf(cfgs, systems, n)|
    ensures c < n && k < |Requested(cfgs[c].regions, systems[c].subs)|
    ensures TransfersOf(cfgs, systems, n)[i] == Requested(cfgs[c].regions, systems[c].subs)[k]
    ensures i == |TransfersOf(cfgs, systems, c)| + k
  {
    var before := |TransfersOf(cfgs, systems, n - 1)|;
    if i < before {
      c, k := TransferOrigin(cfgs, systems, n - 1, i);
    } else {
      c, k := n - 1, i - before;
    }
  }

  lemma {:induction false} TransferThere(cfgs: seq<Config>, systems: seq<System>, n: nat, c: nat, t: Transfer)
    requires c < n <= |cfgs| == |systems| && t in Requested(cfgs[c].regions, systems[c].subs)
    ensures t in TransfersOf(cfgs, systems, n)
  {
    if c < n - 1 {
      TransferThere(cfgs, systems, n - 1, c, t);
    }
  }

  lemma TransfersAreAll(cfgs: seq<Config>, f: Fleet)
    requires |cfgs| == |f.systems|
    ensures AllRequested(cfgs, f, TransfersOf(cfgs, f.systems, |cfgs|))
  {
    var ts := TransfersOf(cfgs, f.systems, |cfgs|);
    forall t
      ensures t in ts <==> exists c :: 0 <= c < |cfgs| && t in Requested(cfgs[c].regions, f.systems[c].subs)
    {
      if t in ts {
        var i :| 0 <= i < |ts| && ts[i] == t;
        var c, k := TransferOrigin(cfgs, f.systems, |cfgs|, i);
        assert t in Requested(cfgs[c].regions, f.systems[c].subs);
      } else if c :| 0 <= c < |cfgs| && t in Requested(cfgs[c].regions, f.systems[c].subs) {
        TransferThere(cfgs, f.systems, |cfgs|, c, t);
      }
    }
  }

  lemma ApartAcross(cfgs: seq<Config>, f: Fleet, c: nat, k: nat, d: nat, l: nat)
    requires |cfgs| == |f.systems| && FleetApart(cfgs, f) && c < |cfgs| && d < |cfgs| && (c == d ==> k != l)
    requires k < |Requested(cfgs[c].regions, f.systems[c].subs)| && l < |Requested(cfgs[d].regions, f.systems[d].subs)|
    ensures Apart(Requested(cfgs[c].regions, f.systems[c].subs)[k], Requested(cfgs[d].regions, f.systems[d].subs)[l])
  {
    if c == d {
      RequestedApart(cfgs[c], f.systems[c]);
    } else {
      var sid, m := RankOrigin(cfgs[c].regions, f.systems[c].subs, k);
      var sid', m' := RankOrigin(cfgs[d].regions, f.systems[d].subs, l);
      assert IsWriter(f.systems[d].subs, sid', m');
    }
  }

  lemma TransfersApart(cfgs: seq<Config>, f: Fleet)
    requires |cfgs| == |f.systems| && FleetApart(cfgs, f)
    ensures PairwiseApart(TransfersOf(cfgs, f.systems, |cfgs|))
  {
    var ts := TransfersOf(cfgs, f.systems, |cfgs|);
    forall i, j | 0 <= i < j < |ts|
      ensures Apart(ts[i], ts[j])
    {
      var c, k := TransferOrigin(cfgs, f.systems, |cfgs|, i);
      var d, l := TransferOrigin(cfgs, f.systems, |cfgs|, j);
      ApartAcross(cfgs, f, c, k, d, l);
    }
  }

  /** Several contexts on one memory: when all of them have drained without an error, memory is
      what one sequential loop over the READ batches of one context after the other leaves;
      receive buffers aside. */
  lemma FleetIsSequential(cfgs: seq<Config>, init: seq<Byte>, remote: seq<Byte>, states: seq<Fleet>,
                          moves: seq<(nat, Step)>)
    requires SameHost(cfgs, init, remote) && |cfgs| > 0
    requires IsFleetRun(cfgs, states, moves) && states[0] == FleetInit(cfgs, init)
    requires var f := states[|moves|]; |cfgs| == |f.systems| && FleetDrained(cfgs, f) && FleetApart(cfgs, f)
    ensures var f := states[|moves|];
      var ts := TransfersOf(cfgs, f.systems, |cfgs|);
      && AllFit(ts, |init|, |remote|) && |f.mem| == |init|
      && forall a :: 0 <= a < |init| && !FleetRecvAsked(cfgs, f, a) ==> f.mem[a] == RunAll(init, remote, ts)[a]
  {
    var f := states[|moves|];
    FleetRunInv(cfgs, init, remote, states, moves, |moves|);
    TransfersAreAll(cfgs, f);
    TransfersApart(cfgs, f);
    FleetInOrder(cfgs, init, remote, f, TransfersOf(cfgs, f.systems, |cfgs|));
  }

  /** And so does any other order of the same transfers, such as the order in which the
      scheduler was called. */
  lemma FleetAnyOrder(cfgs: seq<Config>, init: seq<Byte>, remote: seq<Byte>, states: seq<Fleet>,
                      moves: seq<(nat, Step)>, ts: seq<Transfer>)
    requires SameHost(cfgs, init, remote) && |cfgs| > 0
    requires IsFleetRun(cfgs, states, moves) && states[0] == FleetInit(cfgs, init)
    requires var f := states[|moves|]; |cfgs| == |f.systems| && FleetDrained(cfgs, f) && FleetApart(cfgs, f)
    requires AllRequested(cfgs, states[|moves|], ts) && PairwiseApart(ts)
    ensures var f := states[|moves|];
      && AllFit(ts, |init|, |remote|) && AllFit(TransfersOf(cfgs, f.systems, |cfgs|), |init|, |remote|)
      && RunAll(init, remote, ts) == RunAll(init, remote, TransfersOf(cfgs, f.systems, |cfgs|))
  {
    var f := states[|moves|];
    FleetIsSequential(cfgs, init, remote, states, moves);
    FleetRunInv(cfgs, init, remote, states, moves, |moves|);
    FleetFits(cfgs, init, remote, f, ts);
    TransfersAreAll(cfgs, f);
    TransfersApart(cfgs, f);
    AnyOrder(init, remote, ts, TransfersOf(cfgs, f.systems, |cfgs|));
  }
}
