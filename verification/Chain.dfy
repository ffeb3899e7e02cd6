/** RDMAContext::post_read_batch and post_send: turning a chunk into work requests. */
module Chain {
  import opened Types
  import opened Split

  /** A registered local region (ibv_mr) and what a peer knows about one of ours. */
  datatype Mr = Mr(addr: nat, length: nat, lkey: nat, rkey: nat)
  datatype RemoteMr = RemoteMr(addr: nat, length: nat, rkey: nat)
  datatype Regions = Regions(mrs: map<string, Mr>, remoteMrs: map<string, RemoteMr>)

  function U32(x: nat): nat { x % 0x1_0000_0000 }
  function U64(x: nat): nat { x % 0x1_0000_0000_0000_0000 }

  /** get_mr; the source dereferences a null pointer for an unknown key, so callers of
      `submit` must have registered it (see Registered). */
  function GetMr(regions: Regions, key: string): Mr {
    if key in regions.mrs then regions.mrs[key] else Mr(0, 0, 0, 0)
  }

  /** get_remote_mr: an unknown key yields the zero region. */
  function GetRemoteMr(regions: Regions, key: string): RemoteMr {
    if key in regions.remoteMrs then regions.remoteMrs[key] else RemoteMr(0, 0, 0)
  }

  predicate Registered(regions: Regions, batch: seq<Assignment>) {
    forall i :: 0 <= i < |batch| ==> batch[i].mrKey in regions.mrs
  }

  function LocalAddr(regions: Regions, a: Assignment): nat {
    U64(GetMr(regions, a.mrKey).addr + a.sourceOffset)
  }

  function RemoteAddr(regions: Regions, a: Assignment): nat {
    U64(GetRemoteMr(regions, a.mrKey).addr + a.targetOffset)
  }

  /** Request i of the read chain of `chunk`, as the NIC sees it. */
  function ReadWr(regions: Regions, qpi: nat, chunk: Chunk, i: nat): Wr
    requires i < |chunk.batch|
  {
    var a := chunk.batch[i];
    var final := i == |chunk.batch| - 1;
    Wr(READ, LocalAddr(regions, a), U32(a.length), GetMr(regions, a.mrKey).lkey,
       RemoteAddr(regions, a), GetRemoteMr(regions, a.mrKey).rkey,
       if final then Some(Token(chunk, qpi)) else None, final)
  }

  /** post_send posts the first assignment only, with wr_id 0. */
  function SendOne(regions: Regions, chunk: Chunk): Wr
    requires chunk.batch != []
  {
    var a := chunk.batch[0];
    Wr(SEND, LocalAddr(regions, a), U32(a.length), GetMr(regions, a.mrKey).lkey, 0, 0, None, true)
  }

  /** The send work requests that dispatching `chunk` on QP `qpi` posts.  A RECV goes to the
      receive queue and posts none. */
  function SendChain(regions: Regions, qpi: nat, chunk: Chunk): (chain: seq<Wr>)
    ensures |chain| <= |chunk.batch|
  {
    match chunk.opcode
    case READ => seq(|chunk.batch|, i requires 0 <= i < |chunk.batch| => ReadWr(regions, qpi, chunk, i))
    case SEND => if chunk.batch == [] then [] else [SendOne(regions, chunk)]
    case RECV => []
  }

  /** post_recv posts a buffer for the first assignment only, with wr_id 0. */
  function RecvOne(regions: Regions, chunk: Chunk): RecvWr
    requires chunk.batch != []
  {
    var a := chunk.batch[0];
    RecvWr(LocalAddr(regions, a), U32(a.length), GetMr(regions, a.mrKey).lkey)
  }

  /** The receive work requests that dispatching `chunk` posts. */
  function RecvChain(regions: Regions, chunk: Chunk): (chain: seq<RecvWr>)
    ensures |chain| <= 1
  {
    if chunk.opcode == RECV && chunk.batch != [] then [RecvOne(regions, chunk)] else []
  }

  /** The request stop_future posts to wake the poller. */
  const WAKE_WR: Wr := Wr(SEND, 0, 0, 0, 0, 0, None, true)

  // ----- What the requests ask for, field by field -----

  /** The local side of a request is assignment a: its place in the registered region of its
      key, with that region's lkey. */
  predicate Locally(regions: Regions, a: Assignment, laddr: nat, length: nat, lkey: nat) {
    && a.mrKey in regions.mrs && laddr == (regions.mrs[a.mrKey].addr + a.sourceOffset) % 0x1_0000_0000_0000_0000
    && length == a.length % 0x1_0000_0000 && lkey == regions.mrs[a.mrKey].lkey
  }

  /** The remote side: its place in the peer's region of that key, with that region's rkey; the
      zero region for a key the peer has not announced. */
  predicate Remotely(regions: Regions, a: Assignment, raddr: nat, rkey: nat) {
    if a.mrKey in regions.remoteMrs
    then && raddr == (regions.remoteMrs[a.mrKey].addr + a.targetOffset) % 0x1_0000_0000_0000_0000
         && rkey == regions.remoteMrs[a.mrKey].rkey
    else raddr == a.targetOffset % 0x1_0000_0000_0000_0000 && rkey == 0
  }

  /** Request k of a read chain asks for assignment k; only the last one is signalled and
      carries the token. */
  predicate ReadsFor(regions: Regions, qpi: nat, chunk: Chunk, w: Wr, k: nat)
    requires k < |chunk.batch|
  {
    var a, final := chunk.batch[k], k == |chunk.batch| - 1;
    && w.opcode == READ && Locally(regions, a, w.laddr, w.length, w.lkey) && Remotely(regions, a, w.raddr, w.rkey)
    && w.wrId == (if final then Some(Token(chunk, qpi)) else None) && (w.signaled <==> final)
  }

  /** A SEND sends the first assignment's local bytes, signalled and with wr_id 0. */
  predicate SendsFor(regions: Regions, chunk: Chunk, w: Wr)
    requires chunk.batch != []
  {
    w.opcode == SEND && Locally(regions, chunk.batch[0], w.laddr, w.length, w.lkey) && w.wrId == None && w.signaled
  }

  /** A RECV's buffer is the first assignment's local bytes. */
  predicate ReceivesFor(regions: Regions, chunk: Chunk, r: RecvWr)
    requires chunk.batch != []
  {
    Locally(regions, chunk.batch[0], r.laddr, r.length, r.lkey)
  }

  /** What dispatching a chunk puts on the two queues: for READ one request for each assignment,
      in order; for SEND and RECV exactly one, on the send and the receive queue. */
  ghost predicate PostsFor(regions: Regions, qpi: nat, chunk: Chunk, sends: seq<Wr>, recvs: seq<RecvWr>)
    requires chunk.batch != []
  {
    match chunk.opcode
    case READ =>
      recvs == [] && |sends| == |chunk.batch| && forall k :: 0 <= k < |sends| ==> ReadsFor(regions, qpi, chunk, sends[k], k)
    case SEND => recvs == [] && |sends| == 1 && SendsFor(regions, chunk, sends[0])
    case RECV => sends == [] && |recvs| == 1 && ReceivesFor(regions, chunk, recvs[0])
  }

  lemma ChainsAsk(regions: Regions, qpi: nat, chunk: Chunk)
    requires chunk.batch != [] && Registered(regions, chunk.batch)
    ensures PostsFor(regions, qpi, chunk, SendChain(regions, qpi, chunk), RecvChain(regions, chunk))
  {
  }

  /** The 32-bit length field carries the requested length exactly when that fits. */
  lemma LengthFieldExact(regions: Regions, qpi: nat, chunk: Chunk, i: nat)
    requires i < |chunk.batch|
    ensures ReadWr(regions, qpi, chunk, i).length == chunk.batch[i].length <==> chunk.batch[i].length < TWO32
  {
  }

  // ----- The linked list handed to ibv_post_send -----

  datatype Sge = Sge(addr: nat, length: nat, lkey: nat)

  /** ibv_send_wr; `sgList` and `next` are indices into the arrays they point into. */
  datatype SendWr = SendWr(wrId: Option<Token>, opcode: OpCode, sgList: nat, numSge: nat, signaled: bool,
                           remoteAddr: nat, rkey: nat, next: Option<nat>)

  /** Every pointer stays in its array and `next` points forward. */
  predicate Linked(wr: seq<SendWr>, sge: seq<Sge>) {
    forall i :: 0 <= i < |wr| ==>
      wr[i].sgList < |sge| && (wr[i].next.Some? ==> i < wr[i].next.value < |wr|)
  }

  /** The indices met when following `next` from entry `i`. */
  function Walk(wr: seq<SendWr>, sge: seq<Sge>, i: nat): seq<nat>
    requires Linked(wr, sge) && i < |wr|
    decreases |wr| - i
  {
    [i] + if wr[i].next.None? then [] else Walk(wr, sge, wr[i].next.value)
  }

  /** Entry i as the NIC reads it: the request joined with its scatter entry. */
  function Join(wr: seq<SendWr>, sge: seq<Sge>, i: nat): Wr
    requires Linked(wr, sge) && i < |wr|
  {
    var s := sge[wr[i].sgList];
    Wr(wr[i].opcode, s.addr, s.length, s.lkey, wr[i].remoteAddr, wr[i].rkey, wr[i].wrId, wr[i].signaled)
  }

  /** The entries met when following `next` from entry `i`. */
  function Gather(wr: seq<SendWr>, sge: seq<Sge>, i: nat): seq<Wr>
    requires Linked(wr, sge) && i < |wr|
    decreases |wr| - i
  {
    [Join(wr, sge, i)] + if wr[i].next.None? then [] else Gather(wr, sge, wr[i].next.value)
  }

  /** Each entry points to the next one, the last to none. */
  predicate Consecutive(wr: seq<SendWr>) {
    forall i :: 0 <= i < |wr| ==> wr[i].next == if i == |wr| - 1 then None else Some(i + 1)
  }

  lemma {:induction false} WalkConsecutive(wr: seq<SendWr>, sge: seq<Sge>, i: nat)
    requires Linked(wr, sge) && Consecutive(wr) && i < |wr|
    ensures Walk(wr, sge, i) == seq(|wr| - i, k => i + k)
    decreases |wr| - i
  {
    if i < |wr| - 1 {
      WalkConsecutive(wr, sge, i + 1);
    }
  }

  lemma {:induction false} GatherConsecutive(wr: seq<SendWr>, sge: seq<Sge>, i: nat)
    requires Linked(wr, sge) && Consecutive(wr) && i < |wr|
    ensures Gather(wr, sge, i) == seq(|wr| - i, k requires 0 <= k < |wr| - i => Join(wr, sge, i + k))
    decreases |wr| - i
  {
    if i < |wr| - 1 {
      GatherConsecutive(wr, sge, i + 1);
    }
  }

  /** Entry k points to scatter entry k, its only one, and to the next entry; together with the
      scatter entry it asks for assignment k. */
  ghost predicate Asks(regions: Regions, qpi: nat, chunk: Chunk, wr: SendWr, sge: Sge, k: nat)
    requires k < |chunk.batch|
  {
    && wr.sgList == k && wr.numSge == 1 && wr.next == (if k == |chunk.batch| - 1 then None else Some(k + 1))
    && ReadsFor(regions, qpi, chunk,
                Wr(wr.opcode, sge.addr, sge.length, sge.lkey, wr.remoteAddr, wr.rkey, wr.wrId, wr.signaled), k)
  }

  /** The first n entries are those of the read chain. */
  ghost predicate Built(regions: Regions, qpi: nat, chunk: Chunk, wr: seq<SendWr>, sge: seq<Sge>, n: nat)
    requires n <= |wr| == |sge| == |chunk.batch|
  {
    forall k :: 0 <= k < n ==> Asks(regions, qpi, chunk, wr[k], sge[k], k)
  }

  /** The specification's request k is what such an entry says. */
  lemma AsksReads(regions: Regions, qpi: nat, chunk: Chunk, wr: SendWr, sge: Sge, k: nat)
    requires k < |chunk.batch| && Asks(regions, qpi, chunk, wr, sge, k)
    ensures ReadWr(regions, qpi, chunk, k)
         == Wr(wr.opcode, sge.addr, sge.length, sge.lkey, wr.remoteAddr, wr.rkey, wr.wrId, wr.signaled)
  {
  }

  lemma BuiltReadsOff(regions: Regions, qpi: nat, chunk: Chunk, wr: seq<SendWr>, sge: seq<Sge>)
    requires |wr| == |sge| == |chunk.batch| > 0 && chunk.opcode == READ
    requires Built(regions, qpi, chunk, wr, sge, |wr|)
    ensures Linked(wr, sge) && Walk(wr, sge, 0) == seq(|wr|, k => k)
    ensures Gather(wr, sge, 0) == SendChain(regions, qpi, chunk)
  {
    assert forall k :: 0 <= k < |wr| ==> Asks(regions, qpi, chunk, wr[k], sge[k], k);
    WalkConsecutive(wr, sge, 0);
    GatherConsecutive(wr, sge, 0);
    assert Walk(wr, sge, 0) == seq(|wr|, k => k);
    forall k | 0 <= k < |wr|
      ensures Gather(wr, sge, 0)[k] == ReadWr(regions, qpi, chunk, k)
    {
      assert Asks(regions, qpi, chunk, wr[k], sge[k], k);
      AsksReads(regions, qpi, chunk, wr[k], sge[k], k);
      assert Gather(wr, sge, 0)[k] == Join(wr, sge, k);
    }
  }

  /** The wr/sge loop of post_read_batch.  Following `next` from entry 0 visits exactly
      0..n-1 in order and reads off SendChain(chunk). */
  method BuildReadChain(regions: Regions, qpi: nat, chunk: Chunk) returns (wr: array<SendWr>, sge: array<Sge>)
    requires chunk.opcode == READ && chunk.batch != []
    requires Registered(regions, chunk.batch)
    ensures fresh(wr) && fresh(sge) && wr.Length == sge.Length == |chunk.batch|
    ensures Linked(wr[..], sge[..])
    ensures Walk(wr[..], sge[..], 0) == seq(|chunk.batch|, k => k)
    ensures Gather(wr[..], sge[..], 0) == SendChain(regions, qpi, chunk)
    ensures forall i :: 0 <= i < wr.Length ==> Asks(regions, qpi, chunk, wr[i], sge[i], i)
  {
    var n := |chunk.batch|;
    wr := new SendWr[n](_ => SendWr(None, READ, 0, 0, false, 0, 0, None));
    sge := new Sge[n](_ => Sge(0, 0, 0));
    var i := 0;
    while i < n
      invariant 0 <= i <= n && Built(regions, qpi, chunk, wr[..], sge[..], i)
    {
      var subassign := chunk.batch[i];
      var mr := regions.mrs[subassign.mrKey];
      var remoteMr := GetRemoteMr(regions, subassign.mrKey);
      sge[i] := Sge(U64(mr.addr + subassign.sourceOffset), U32(subassign.length), mr.lkey);
      wr[i] := SendWr(if i == n - 1 then Some(Token(chunk, qpi)) else None, READ, i, 1, i == n - 1,
                      U64(remoteMr.addr + subassign.targetOffset), remoteMr.rkey,
                      if i == n - 1 then None else Some(i + 1));
      i := i + 1;
    }
    BuiltReadsOff(regions, qpi, chunk, wr[..], sge[..]);
  }
}
