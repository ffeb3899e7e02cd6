/** What is asked of the NIC, request by request, and what it may touch: every request on either
    queue names the registered regions of its assignment, with their keys. */
module Access {
  import opened Types
  import opened Split
  import opened Chain
  import opened Memory
  import opened Tokens
  import opened Pipeline
  import opened QpInvariant
  import opened SystemInvariant
  import opened Placement
  import opened Delivery
  import opened Safety

  lemma PlacedRegistered(cfg: Config, s: System, q: nat, p: nat)
    requires Reachable(cfg, s) && p < |PlacedOn(s.subs, q)|
    ensures Registered(cfg.regions, PlacedOn(s.subs, q)[p].batch)
  {
    var c := PlacedOn(s.subs, q)[p];
    PlacedOrigin(s.subs, q, p);
    SubsRegistered(cfg, s, c.sid);
    forall k | 0 <= k < |c.batch|
      ensures c.batch[k].mrKey in cfg.regions.mrs
    {
      PlaceElement(s.subs[c.sid].batch, c.idx, k);
    }
  }

  lemma SubsRegistered(cfg: Config, s: System, sid: nat)
    requires Reachable(cfg, s) && sid < |s.subs|
    ensures Registered(cfg.regions, s.subs[sid].batch)
  {
    ReachableInv(cfg, s);
  }

  lemma PostedRegistered(cfg: Config, s: System, q: nat)
    requires Reachable(cfg, s) && q < |s.qps|
    ensures forall p :: 0 <= p < |s.qps[q].posted| ==> Registered(cfg.regions, s.qps[q].posted[p].batch)
  {
    OrderFacts(cfg, s, q);
    forall p | 0 <= p < |s.qps[q].posted|
      ensures Registered(cfg.regions, s.qps[q].posted[p].batch)
    {
      assert PlacedOn(s.subs, q)[p] == s.qps[q].posted[p];
      PlacedRegistered(cfg, s, q, p);
    }
  }

  // ----- One request for each SEND and RECV chunk, in order -----

  /** The chunks of one op code, in order. */
  function With(chunks: seq<Chunk>, opcode: OpCode): seq<Chunk> {
    if chunks == [] then []
    else With(chunks[..|chunks| - 1], opcode)
         + if chunks[|chunks| - 1].opcode == opcode then [chunks[|chunks| - 1]] else []
  }

  function SendsOf(wrs: seq<Wr>): seq<Wr> {
    if wrs == [] then []
    else SendsOf(wrs[..|wrs| - 1]) + if wrs[|wrs| - 1].opcode == SEND then [wrs[|wrs| - 1]] else []
  }

  lemma {:induction false} SendsOfConcat(a: seq<Wr>, b: seq<Wr>)
    ensures SendsOf(a + b) == SendsOf(a) + SendsOf(b)
    decreases |b|
  {
    if b == [] {
      assert a + b == a;
    } else {
      SendsOfConcat(a, b[..|b| - 1]);
      assert (a + b)[..|a + b| - 1] == a + b[..|b| - 1];
    }
  }

  lemma {:induction false} NoSends(wrs: seq<Wr>)
    requires forall i :: 0 <= i < |wrs| ==> wrs[i].opcode != SEND
    ensures SendsOf(wrs) == []
  {
    if wrs != [] {
      NoSends(wrs[..|wrs| - 1]);
    }
  }

  ghost predicate SendsMatch(regions: Regions, chunks: seq<Chunk>, sends: seq<Wr>) {
    |sends| == |chunks| && forall i :: 0 <= i < |chunks| ==> chunks[i].batch != [] && SendsFor(regions, chunks[i], sends[i])
  }

  ghost predicate RecvsMatch(regions: Regions, chunks: seq<Chunk>, recvs: seq<RecvWr>) {
    |recvs| == |chunks| && forall i :: 0 <= i < |chunks| ==> chunks[i].batch != [] && ReceivesFor(regions, chunks[i], recvs[i])
  }

  lemma ChunkSends(regions: Regions, q: nat, c: Chunk)
    requires GoodChunk(c) && Registered(regions, c.batch)
    ensures SendsMatch(regions, With([c], SEND), SendsOf(SendChain(regions, q, c)))
    ensures RecvsMatch(regions, With([c], RECV), RecvChain(regions, c))
  {
    var chain := SendChain(regions, q, c);
    ChainsAsk(regions, q, c);
    assert [c][..0] == [];
    if c.opcode == SEND {
      assert chain == [chain[0]] && chain[..0] == [];
      assert SendsOf(chain[..0]) == [];
    } else {
      NoSends(chain);
    }
  }

  lemma WithSnoc(chunks: seq<Chunk>, opcode: OpCode)
    requires chunks != []
    ensures With(chunks, opcode) == With(chunks[..|chunks| - 1], opcode) + With([chunks[|chunks| - 1]], opcode)
  {
    assert [chunks[|chunks| - 1]][..0] == [];
  }

  lemma {:induction false} LogsMatch(regions: Regions, q: nat, chunks: seq<Chunk>)
    requires GoodChunks(chunks) && forall p :: 0 <= p < |chunks| ==> Registered(regions, chunks[p].batch)
    ensures SendsMatch(regions, With(chunks, SEND), SendsOf(SendChains(regions, q, chunks)))
    ensures RecvsMatch(regions, With(chunks, RECV), RecvChains(regions, chunks))
  {
    if chunks != [] {
      var front, c := chunks[..|chunks| - 1], chunks[|chunks| - 1];
      LogsMatch(regions, q, front);
      ChunkSends(regions, q, c);
      WithSnoc(chunks, SEND);
      WithSnoc(chunks, RECV);
      SendsOfConcat(SendChains(regions, q, front), SendChain(regions, q, c));
    }
  }

  /** The send log without the request of stop_future. */
  function OwnLog(qp: Qp): seq<Wr> {
    if qp.wake && qp.wrs != [] then qp.wrs[..|qp.wrs| - 1] else qp.wrs
  }

  /** In every reachable state the SEND requests in a send log are, in order, one for each SEND
      chunk dispatched, for the local bytes of its first assignment; the receive queue holds
      one buffer for each RECV chunk dispatched, likewise. */
  lemma QueuesExact(cfg: Config, s: System, q: nat)
    requires Reachable(cfg, s) && q < |s.qps|
    ensures SendsMatch(cfg.regions, With(s.qps[q].posted, SEND), SendsOf(OwnLog(s.qps[q])))
    ensures RecvsMatch(cfg.regions, With(s.qps[q].posted, RECV), s.qps[q].rwrs)
  {
    PostedRegistered(cfg, s, q);
    SendLog(cfg, s, q);
    RecvFacts(cfg, s, q);
    LogsMatch(cfg.regions, q, s.qps[q].posted);
    assert OwnLog(s.qps[q]) == SendChains(cfg.regions, q, s.qps[q].posted);
  }

  /** (sid, m) names an assignment of a SEND submission that is sent: the first of each chunk. */
  predicate IsSendAssignment(subs: seq<Submission>, sid: int, m: int) {
    0 <= sid < |subs| && subs[sid].opcode == SEND && 0 <= m < |subs[sid].batch| && m % 4096 == 0
  }

  /** Every SEND in a send log but the one of stop_future is that of the first assignment of one
      chunk of one SEND submission. */
  lemma SendOrigin(cfg: Config, s: System, q: nat, i: nat) returns (sid: nat, m: nat)
    requires Reachable(cfg, s) && q < |s.qps| && i < |OwnLog(s.qps[q])| && s.qps[q].wrs[i].opcode == SEND
    ensures IsSendAssignment(s.subs, sid, m) && s.subs[sid].q == q
    ensures var w := s.qps[q].wrs[i];
      Locally(cfg.regions, s.subs[sid].batch[m], w.laddr, w.length, w.lkey) && w.wrId == None && w.signaled
  {
    var posted := s.qps[q].posted;
    OrderFacts(cfg, s, q);
    SendLog(cfg, s, q);
    PostedRegistered(cfg, s, q);
    var p := SendChunk(cfg.regions, q, posted, i);
    assert PlacedOn(s.subs, q)[p] == posted[p];
    FirstAssignment(s.subs, q, p);
    sid, m := posted[p].sid, Start(posted[p].idx);
  }

  lemma SendChunk(regions: Regions, q: nat, chunks: seq<Chunk>, i: nat) returns (p: nat)
    requires GoodChunks(chunks) && forall j :: 0 <= j < |chunks| ==> Registered(regions, chunks[j].batch)
    requires i < |SendChains(regions, q, chunks)| && SendChains(regions, q, chunks)[i].opcode == SEND
    ensures p < |chunks| && chunks[p].opcode == SEND && chunks[p].batch != []
    ensures SendsFor(regions, chunks[p], SendChains(regions, q, chunks)[i])
  {
    var k;
    p, k := ChainOrigin(regions, q, chunks, i);
    ChainAt(regions, q, chunks, p, k);
    ChainsAsk(regions, q, chunks[p]);
  }

  /** Every receive buffer is that of the first assignment of one chunk of one RECV submission. */
  lemma RecvOrigin(cfg: Config, s: System, q: nat, i: nat) returns (sid: nat, m: nat)
    requires Reachable(cfg, s) && IsRecv(s, q, i)
    ensures IsRecvAssignment(s.subs, sid, m) && s.subs[sid].q == q
    ensures var r := s.qps[q].rwrs[i]; Locally(cfg.regions, s.subs[sid].batch[m], r.laddr, r.length, r.lkey)
  {
    var posted := s.qps[q].posted;
    OrderFacts(cfg, s, q);
    RecvFacts(cfg, s, q);
    PostedRegistered(cfg, s, q);
    var p := RecvChainOrigin(cfg.regions, posted, i);
    ChainsAsk(cfg.regions, q, posted[p]);
    assert PlacedOn(s.subs, q)[p] == posted[p];
    FirstAssignment(s.subs, q, p);
    sid, m := posted[p].sid, Start(posted[p].idx);
  }

  /** No send log holds a receive. */
  lemma NoRecvPosted(cfg: Config, s: System, q: nat, i: nat)
    requires Reachable(cfg, s) && q < |s.qps| && i < |s.qps[q].wrs|
    ensures s.qps[q].wrs[i].opcode != RECV
  {
    SendLog(cfg, s, q);
    if i < |SendChains(cfg.regions, q, s.qps[q].posted)| {
      NoRecvInChains(cfg.regions, q, s.qps[q].posted, i);
    }
  }

  lemma {:induction false} NoRecvInChains(regions: Regions, q: nat, chunks: seq<Chunk>, i: nat)
    requires i < |SendChains(regions, q, chunks)|
    ensures SendChains(regions, q, chunks)[i].opcode != RECV
  {
    var p, k := ChainOrigin(regions, q, chunks, i);
    ChainAt(regions, q, chunks, p, k);
    NoRecvInChain(regions, q, chunks[p], k);
  }

  lemma NoRecvInChain(regions: Regions, q: nat, c: Chunk, k: nat)
    requires k < |SendChain(regions, q, c)|
    ensures SendChain(regions, q, c)[k].opcode != RECV
  {
  }

  // ----- Keys -----

  /** The request posted for assignment (sid, m) names, with their keys, our region and the
      peer's region of the assignment's key. */
  lemma SentAsks(cfg: Config, s: System, sid: nat, m: nat)
    requires Reachable(cfg, s) && Sent(s, sid, m)
    ensures var q, i := s.subs[sid].q, Slot(cfg.regions, s.subs, sid, m);
      && IsRead(s, q, i)
      && Locally(cfg.regions, s.subs[sid].batch[m], s.qps[q].wrs[i].laddr, s.qps[q].wrs[i].length, s.qps[q].wrs[i].lkey)
      && Remotely(cfg.regions, s.subs[sid].batch[m], s.qps[q].wrs[i].raddr, s.qps[q].wrs[i].rkey)
  {
    SentSlot(cfg, s, sid, m);
    HasSlot(s.subs, sid, m);
    SubsRegistered(cfg, s, sid);
    var c := ChunksOf(s.subs, sid)[m / 4096];
    RequestAsks(cfg.regions, s.subs[sid].q, c, m % 4096);
  }

  lemma RequestAsks(regions: Regions, q: nat, c: Chunk, k: nat)
    requires k < |c.batch| && c.batch[k].mrKey in regions.mrs
    ensures var w := ReadWr(regions, q, c, k);
      Locally(regions, c.batch[k], w.laddr, w.length, w.lkey) && Remotely(regions, c.batch[k], w.raddr, w.rkey)
  {
  }

  /** Keys name one region each. */
  ghost predicate DistinctKeys(regions: Regions) {
    && (forall k, l :: k in regions.mrs && l in regions.mrs ==> (regions.mrs[k].lkey == regions.mrs[l].lkey ==> k == l))
    && (forall k, l :: k in regions.remoteMrs && l in regions.remoteMrs ==>
          (regions.remoteMrs[k].rkey == regions.remoteMrs[l].rkey ==> k == l))
  }

  predicate WithinLocal(regions: Regions, a: Assignment) {
    a.mrKey in regions.mrs && a.sourceOffset + a.length <= regions.mrs[a.mrKey].length
  }

  predicate WithinRemote(regions: Regions, a: Assignment) {
    a.mrKey in regions.remoteMrs && a.targetOffset + a.length <= regions.remoteMrs[a.mrKey].length
  }

  lemma LocalExactly(regions: Regions, a: Assignment, laddr: nat, length: nat, lkey: nat)
    requires Locally(regions, a, laddr, length, lkey)
    requires a.length < TWO32 && regions.mrs[a.mrKey].addr + a.sourceOffset < TWO64
    ensures WithinLocal(regions, a) ==> LocalAccess(regions, lkey, laddr, length)
    ensures DistinctKeys(regions) ==> (LocalAccess(regions, lkey, laddr, length) <==> WithinLocal(regions, a))
  {
    if WithinLocal(regions, a) {
      assert InLocal(regions.mrs[a.mrKey], lkey, laddr, length);
    }
  }

  lemma RemoteExactly(regions: Regions, a: Assignment, raddr: nat, rkey: nat, length: nat)
    requires Remotely(regions, a, raddr, rkey) && a.mrKey in regions.remoteMrs && length == a.length
    requires regions.remoteMrs[a.mrKey].addr + a.targetOffset < TWO64
    ensures WithinRemote(regions, a) ==> RemoteAccess(regions, rkey, raddr, length)
    ensures DistinctKeys(regions) ==> (RemoteAccess(regions, rkey, raddr, length) <==> WithinRemote(regions, a))
  {
    if WithinRemote(regions, a) {
      assert InRemote(regions.remoteMrs[a.mrKey], rkey, raddr, length);
    }
  }

  /** The keys of a request allow all of it. */
  predicate Allowed(cfg: Config, w: Wr) {
    Admits(cfg.regions, w, 0, w.length)
  }

  /** A posted read whose assignment stays within both regions is never refused for its keys;
      when no two regions share a key, it is allowed if and only if it does stay within. */
  lemma ReadAdmitted(cfg: Config, s: System, sid: nat, m: nat)
    requires Reachable(cfg, s) && Sent(s, sid, m) && FitsFields(cfg, s.subs[sid].batch[m])
    requires s.subs[sid].batch[m].mrKey in cfg.regions.remoteMrs
    ensures var q, i, a := s.subs[sid].q, Slot(cfg.regions, s.subs, sid, m), s.subs[sid].batch[m];
      && IsRead(s, q, i)
      && (WithinLocal(cfg.regions, a) && WithinRemote(cfg.regions, a) ==> Allowed(cfg, s.qps[q].wrs[i]))
      && (DistinctKeys(cfg.regions) ==>
            (Allowed(cfg, s.qps[q].wrs[i]) <==> WithinLocal(cfg.regions, a) && WithinRemote(cfg.regions, a)))
  {
    SentAsks(cfg, s, sid, m);
    AskedAdmits(cfg, s.subs[sid].batch[m], s.qps[s.subs[sid].q].wrs[Slot(cfg.regions, s.subs, sid, m)]);
  }

  lemma AskedAdmits(cfg: Config, a: Assignment, w: Wr)
    requires w.opcode == READ && FitsFields(cfg, a) && a.mrKey in cfg.regions.remoteMrs
    requires Locally(cfg.regions, a, w.laddr, w.length, w.lkey) && Remotely(cfg.regions, a, w.raddr, w.rkey)
    ensures WithinLocal(cfg.regions, a) && WithinRemote(cfg.regions, a) ==> Allowed(cfg, w)
    ensures DistinctKeys(cfg.regions) ==> (Allowed(cfg, w) <==> WithinLocal(cfg.regions, a) && WithinRemote(cfg.regions, a))
  {
    LocalExactly(cfg.regions, a, w.laddr, w.length, w.lkey);
    RemoteExactly(cfg.regions, a, w.raddr, w.rkey, w.length);
  }

  /** The NIC never went outside the regions: when the final callback of a READ submission has run
      with SUCCESS, every assignment of the batch lies within our region and the peer's. */
  lemma SuccessWithin(cfg: Config, s: System, q: nat, n: nat)
    requires Reachable(cfg, s) && q < |s.qps| && n < |s.qps[q].fired| && DistinctKeys(cfg.regions)
    requires s.qps[q].fired[n].tok.chunk.last && s.qps[q].fired[n].ok
    ensures var sid := s.qps[q].fired[n].tok.chunk.sid;
      sid < |s.subs|
      && forall m :: 0 <= m < |s.subs[sid].batch| && FitsFields(cfg, s.subs[sid].batch[m])
                     && s.subs[sid].batch[m].mrKey in cfg.regions.remoteMrs
           ==> WithinLocal(cfg.regions, s.subs[sid].batch[m]) && WithinRemote(cfg.regions, s.subs[sid].batch[m])
  {
    SuccessExact(cfg, s, q, n);
    var sid := s.qps[q].fired[n].tok.chunk.sid;
    forall m | 0 <= m < |s.subs[sid].batch| && FitsFields(cfg, s.subs[sid].batch[m])
               && s.subs[sid].batch[m].mrKey in cfg.regions.remoteMrs
      ensures WithinLocal(cfg.regions, s.subs[sid].batch[m]) && WithinRemote(cfg.regions, s.subs[sid].batch[m])
    {
      SucceededWithin(cfg, s, sid, m);
    }
  }

  lemma SucceededWithin(cfg: Config, s: System, sid: nat, m: nat)
    requires Reachable(cfg, s) && Succeeded(cfg, s, sid, m) && DistinctKeys(cfg.regions)
    requires FitsFields(cfg, s.subs[sid].batch[m]) && s.subs[sid].batch[m].mrKey in cfg.regions.remoteMrs
    ensures WithinLocal(cfg.regions, s.subs[sid].batch[m]) && WithinRemote(cfg.regions, s.subs[sid].batch[m])
  {
    ReachableMem(cfg, s);
    SentAsks(cfg, s, sid, m);
    assert Moved(s, s.subs[sid].q, Slot(cfg.regions, s.subs, sid, m));
    ReadAdmitted(cfg, s, sid, m);
  }
}
