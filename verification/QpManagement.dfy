/** qp_management_t and the code that runs on one queue pair: push, post_read_batch, post_send,
    post_recv and the drain loop of wq_dispatch_handle, as the source writes them.  Agrees()
    ties the fields to the pipeline's view of the queue pair, and the drain loop says which
    state the dispatcher steps it takes lead to. */
module QpManagement {
  import opened Types
  import opened Split
  import opened Chain
  import opened Tokens
  import opened Pipeline
  import opened QpInvariant

  /** Taking the dispatcher steps `ds` in order, each enabled where it is taken. */
  ghost predicate QpFollows(regions: Regions, q: nat, qp: Qp, ds: seq<DispatcherStep>, r: Qp)
    decreases |ds|
  {
    if ds == [] then r == qp
    else DispatcherEnabled(qp, ds[0]) && QpFollows(regions, q, DispatcherDo(regions, q, qp, ds[0]), ds[1..], r)
  }

  lemma HeadFirst<T>(a: seq<T>, b: seq<T>)
    requires a != []
    ensures [a[0]] + (a[1..] + b) == a + b
  {
  }

  lemma QpFollowsCons(regions: Regions, q: nat, qp: Qp, d: DispatcherStep, mid: Qp, ds: seq<DispatcherStep>, r: Qp)
    requires DispatcherEnabled(qp, d) && mid == DispatcherDo(regions, q, qp, d) && QpFollows(regions, q, mid, ds, r)
    ensures QpFollows(regions, q, qp, [d] + ds, r)
  {
    assert ([d] + ds)[1..] == ds;
  }

  lemma {:induction false} QpFollowsConcat(regions: Regions, q: nat, qp: Qp, ds: seq<DispatcherStep>, mid: Qp,
                                          es: seq<DispatcherStep>, r: Qp)
    requires QpFollows(regions, q, qp, ds, mid) && QpFollows(regions, q, mid, es, r)
    ensures QpFollows(regions, q, qp, ds + es, r)
    decreases |ds|
  {
    if ds == [] {
      assert ds + es == es;
    } else {
      var next := DispatcherDo(regions, q, qp, ds[0]);
      QpFollowsConcat(regions, q, next, ds[1..], mid, es, r);
      QpFollowsCons(regions, q, qp, ds[0], next, ds[1..] + es, r);
      HeadFirst(ds, es);
    }
  }

  /** Some dispatcher steps lead from `qp` to `r`. */
  ghost predicate Leads(regions: Regions, q: nat, qp: Qp, r: Qp) {
    exists ds :: QpFollows(regions, q, qp, ds, r)
  }

  lemma LeadsFurther(regions: Regions, q: nat, qp: Qp, mid: Qp, r: Qp)
    requires Leads(regions, q, qp, mid) && Leads(regions, q, mid, r)
    ensures Leads(regions, q, qp, r)
  {
    var ds :| QpFollows(regions, q, qp, ds, mid);
    var es :| QpFollows(regions, q, mid, es, r);
    QpFollowsConcat(regions, q, qp, ds, mid, es, r);
  }

  const POST_FRONT: seq<DispatcherStep> := [CheckWindow, AddCredits, Post, Pop]

  function Size(chunks: seq<Chunk>): nat {
    if chunks == [] then 0 else |chunks[0].batch| + Size(chunks[1..])
  }

  /** How many chunks the drain loop posts before the window refuses one, if no credit comes
      back meanwhile. */
  function Admitted(queue: seq<Chunk>, outstanding: int): (k: nat)
    ensures k <= |queue|
    decreases |queue|
  {
    if queue == [] || |queue[0].batch| + outstanding >= MAX_SEND_WR then 0
    else 1 + Admitted(queue[1..], outstanding + |queue[0].batch|)
  }

  lemma {:induction false} SizeConcat(a: seq<Chunk>, b: seq<Chunk>)
    ensures Size(a + b) == Size(a) + Size(b)
    decreases |a|
  {
    if a == [] {
      assert a + b == b;
    } else {
      SizeConcat(a[1..], b);
      assert (a + b)[1..] == a[1..] + b;
    }
  }

  /** The loop stops where the next chunk would reach the window, and nowhere before. */
  lemma {:induction false} AdmittedExact(queue: seq<Chunk>, outstanding: int)
    ensures var k := Admitted(queue, outstanding);
      && (forall j :: 1 <= j <= k ==> outstanding + Size(queue[..j]) < MAX_SEND_WR)
      && (k < |queue| ==> outstanding + Size(queue[..k]) + |queue[k].batch| >= MAX_SEND_WR)
    decreases |queue|
  {
    if queue != [] && |queue[0].batch| + outstanding < MAX_SEND_WR {
      var rest := queue[1..];
      AdmittedExact(rest, outstanding + |queue[0].batch|);
      forall j {:trigger queue[..j]} | 1 <= j <= |queue|
        ensures Size(queue[..j]) == |queue[0].batch| + Size(rest[..j - 1])
      {
        assert queue[..j][1..] == rest[..j - 1];
      }
      var k := Admitted(queue, outstanding);
      forall j | 1 <= j <= k
        ensures outstanding + Size(queue[..j]) < MAX_SEND_WR
      {
        assert rest[..0] == [];
        assert j > 1 ==> outstanding + |queue[0].batch| + Size(rest[..j - 1]) < MAX_SEND_WR;
      }
      assert k < |queue| ==> queue[k] == rest[k - 1];
    }
  }

  /** The drain loop, started in `start`, has posted the first n chunks and is back at its test. */
  ghost predicate Drained(regions: Regions, q: nat, start: Qp, n: nat, r: Qp) {
    && r.dpc == Drain && Leads(regions, q, start, r)
    && n <= |start.queue| && r.queue == start.queue[n..] && r.fired == start.fired
    && r.wrs == start.wrs + SendChains(regions, q, start.queue[..n])
    && r.rwrs == start.rwrs + RecvChains(regions, start.queue[..n]) && r.stop == start.stop
    && r.outstanding == start.outstanding + Size(start.queue[..n])
  }

  lemma DrainedNext(regions: Regions, q: nat, start: Qp, n: nat, qp: Qp, r: Qp)
    requires Drained(regions, q, start, n, qp) && PostedFront(regions, q, qp, r)
    ensures Drained(regions, q, start, n + 1, r)
  {
    FrontDone(regions, q, start.queue, n);
    LeadsFurther(regions, q, start, qp, r);
    Assoc(start.wrs, SendChains(regions, q, start.queue[..n]), SendChain(regions, q, start.queue[n]));
    Assoc(start.rwrs, RecvChains(regions, start.queue[..n]), RecvChain(regions, start.queue[n]));
  }

  /** One turn of the drain loop for a chunk the window admits. */
  ghost predicate PostedFront(regions: Regions, q: nat, qp: Qp, r: Qp) {
    && r.dpc == Drain && Leads(regions, q, qp, r)
    && qp.queue != [] && r.queue == qp.queue[1..] && r.fired == qp.fired
    && r.wrs == qp.wrs + SendChain(regions, q, qp.queue[0])
    && r.rwrs == qp.rwrs + RecvChain(regions, qp.queue[0]) && r.stop == qp.stop
    && r.outstanding == qp.outstanding + |qp.queue[0].batch|
  }

  /** What the drain loop needs of the queue and the counter. */
  ghost predicate Drainable(regions: Regions, queue: seq<Chunk>, outstanding: int) {
    && GoodChunks(queue) && 0 <= outstanding < MAX_SEND_WR
    && forall i :: 0 <= i < |queue| ==> Registered(regions, queue[i].batch)
  }

  /** How much the loop still has to do. */
  ghost predicate StillToDo(regions: Regions, n: nat, queue: seq<Chunk>, outstanding: int, total: nat) {
    Drainable(regions, queue, outstanding) && n + Admitted(queue, outstanding) == total
  }

  lemma OneLessToDo(regions: Regions, n: nat, queue: seq<Chunk>, outstanding: int, total: nat,
                    rest: seq<Chunk>, more: int)
    requires StillToDo(regions, n, queue, outstanding, total) && Admitted(queue, outstanding) > 0
    requires rest == queue[1..] && more == outstanding + |queue[0].batch|
    ensures StillToDo(regions, n + 1, rest, more, total)
  {
  }

  /** The size_t test at the front of a well-formed queue is Admitted's. */
  lemma FrontExact(regions: Regions, r: Qp)
    requires r.dpc == Drain && Drainable(regions, r.queue, r.outstanding) && r.queue != []
    ensures var size := |r.queue[0].batch|;
      && 1 <= size <= MAX_SEND_WR && Registered(regions, r.queue[0].batch)
      && (WindowOpen(size, r.outstanding) <==> DispatcherEnabled(r, CheckWindow))
      && (WindowOpen(size, r.outstanding) <==> Admitted(r.queue, r.outstanding) > 0)
  {
    WindowExact(|r.queue[0].batch|, r.outstanding);
  }

  class QpManagement {
    const qpi: nat
    const regions: Regions
    var assignQueue: seq<Chunk>
    var outstanding: int
    var sendLog: seq<Wr>      // what the NIC's send queue has been given
    var recvLog: seq<RecvWr>  // and its receive queue
    var stopWq: bool
    var ran: seq<Fired>       // callbacks the poller has run for this queue pair

    /** The fields are those of the pipeline's queue pair. */
    predicate Agrees(qp: Qp)
      reads this
    {
      && assignQueue == qp.queue && outstanding == qp.outstanding && sendLog == qp.wrs && recvLog == qp.rwrs
      && ran == qp.fired && stopWq == qp.stop
    }

    constructor (qpi: nat, regions: Regions)
      ensures Agrees(INIT_QP) && this.qpi == qpi && this.regions == regions
    {
      this.qpi, this.regions := qpi, regions;
      assignQueue, outstanding, sendLog, recvLog, stopWq, ran := [], 0, [], [], false, [];
    }

    /** submit's loop inside the critical section: wrap each piece and push it.  The handle is
        the last chunk wrapped. */
    method PushAll(sid: nat, opcode: OpCode, pieces: seq<seq<Assignment>>, ghost chunks: seq<Chunk>)
      returns (handle: Option<Chunk>)
      requires |chunks| == |pieces|
      requires forall j :: 0 <= j < |pieces| ==> chunks[j] == Chunk(sid, j, j == |pieces| - 1, opcode, pieces[j])
      modifies this`assignQueue
      ensures assignQueue == old(assignQueue) + chunks
      ensures handle.None? <==> pieces == []
      ensures handle.Some? ==> handle.value == Chunk(sid, |pieces| - 1, true, opcode, pieces[|pieces| - 1])
    {
      handle := None;
      var i := 0;
      while i < |pieces|
        invariant 0 <= i <= |pieces|
        invariant assignQueue == old(assignQueue) + chunks[..i]
        invariant handle == if i == 0 then None else Some(chunks[i - 1])
      {
        var chunk := Chunk(sid, i, i == |pieces| - 1, opcode, pieces[i]);
        assignQueue := assignQueue + [chunk];
        handle := Some(chunk);
        Assoc(old(assignQueue), chunks[..i], [chunks[i]]);
        assert chunks[..i + 1] == chunks[..i] + [chunks[i]];
        i := i + 1;
      }
      assert chunks[..i] == chunks;
    }

    /** The poller's callback_(status) and fetch_sub(batch_size) for a token of this queue pair. */
    method Finish(tok: Token, wc: Wc)
      modifies this`ran, this`outstanding
      ensures ran == old(ran) + [Fired(tok, wc.ok, wc.index)]
      ensures outstanding == old(outstanding) - |tok.chunk.batch|
    {
      ran := ran + [Fired(tok, wc.ok, wc.index)];
      outstanding := outstanding - |tok.chunk.batch|;
    }

    /** stop_future's request that wakes the poller. */
    method PostWake()
      modifies this`sendLog
      ensures sendLog == old(sendLog) + [WAKE_WR]
    {
      sendLog := sendLog + [Wr(SEND, 0, 0, 0, 0, 0, None, true)];
    }

    /** ibv_post_send on a linked list: the NIC takes the requests in list order. */
    method PostList(wr: array<SendWr>, sge: array<Sge>)
      requires wr.Length > 0 && Linked(wr[..], sge[..])
      modifies this`sendLog
      ensures sendLog == old(sendLog) + Gather(wr[..], sge[..], 0)
    {
      ghost var wrs, sges := wr[..], sge[..];
      var cur := 0;
      sendLog := sendLog + [JoinAt(wr, sge, 0)];
      while wr[cur].next.Some?
        invariant wr[..] == wrs && sge[..] == sges && cur < wr.Length
        invariant sendLog + Tail(wrs, sges, cur) == old(sendLog) + Gather(wrs, sges, 0)
        decreases wr.Length - cur
      {
        var following := wr[cur].next.value;
        GatherSplits(wrs, sges, following);
        assert wrs[cur] == wr[cur];
        sendLog := sendLog + [JoinAt(wr, sge, following)];
        cur := following;
      }
      assert wrs[cur] == wr[cur];
    }

    /** post_read_batch: build the chain, take the credits, post. */
    method PostReadBatch(chunk: Chunk)
      requires chunk.opcode == READ && chunk.batch != [] && Registered(regions, chunk.batch)
      modifies this`sendLog, this`outstanding
      ensures sendLog == old(sendLog) + SendChain(regions, qpi, chunk)
      ensures outstanding == old(outstanding) + |chunk.batch|
    {
      var wr, sge := BuildReadChain(regions, qpi, chunk);
      outstanding := outstanding + |chunk.batch|;
      PostList(wr, sge);
    }

    /** post_send: one request, for the first assignment, with wr_id 0. */
    method PostSend(chunk: Chunk)
      requires chunk.opcode == SEND && chunk.batch != [] && Registered(regions, chunk.batch)
      modifies this`sendLog, this`outstanding
      ensures sendLog == old(sendLog) + SendChain(regions, qpi, chunk)
      ensures |sendLog| == |old(sendLog)| + 1 && SendsFor(regions, chunk, sendLog[|old(sendLog)|])
      ensures outstanding == old(outstanding) + |chunk.batch|
    {
      var a := chunk.batch[0];
      var mr := regions.mrs[a.mrKey];
      outstanding := outstanding + |chunk.batch|;
      sendLog := sendLog + [Wr(SEND, U64(mr.addr + a.sourceOffset), U32(a.length), mr.lkey, 0, 0, None, true)];
    }

    /** post_recv: one buffer, for the first assignment, with wr_id 0, on the receive queue. */
    method PostRecv(chunk: Chunk)
      requires chunk.opcode == RECV && chunk.batch != [] && Registered(regions, chunk.batch)
      modifies this`recvLog, this`outstanding
      ensures recvLog == old(recvLog) + RecvChain(regions, chunk)
      ensures |recvLog| == |old(recvLog)| + 1 && ReceivesFor(regions, chunk, recvLog[|old(recvLog)|])
      ensures outstanding == old(outstanding) + |chunk.batch|
    {
      var a := chunk.batch[0];
      var mr := regions.mrs[a.mrKey];
      outstanding := outstanding + |chunk.batch|;
      recvLog := recvLog + [RecvWr(U64(mr.addr + a.sourceOffset), U32(a.length), mr.lkey)];
    }

    /** The switch on the op code: the chunk's requests go to the send queue or to the receive
        queue, and nothing goes to the other. */
    method PostChunk(chunk: Chunk)
      requires chunk.batch != [] && Registered(regions, chunk.batch)
      modifies this`sendLog, this`recvLog, this`outstanding
      ensures sendLog == old(sendLog) + SendChain(regions, qpi, chunk)
      ensures recvLog == old(recvLog) + RecvChain(regions, chunk)
      ensures old(sendLog) <= sendLog && old(recvLog) <= recvLog
      ensures PostsFor(regions, qpi, chunk, sendLog[|old(sendLog)|..], recvLog[|old(recvLog)|..])
      ensures outstanding == old(outstanding) + |chunk.batch|
    {
      ChainsAsk(regions, qpi, chunk);
      match chunk.opcode
      case SEND => PostSend(chunk);
      case RECV => PostRecv(chunk);
      case READ => PostReadBatch(chunk);
    }

    /** stop_future's flag. */
    method SetStop()
      modifies this`stopWq
      ensures stopWq
    {
      stopWq := true;
    }

    /** One turn of the drain loop for a chunk the window admits: post it and pop it. */
    method PostFront(ghost qp: Qp) returns (ghost r: Qp)
      requires Agrees(qp) && DispatcherEnabled(qp, CheckWindow)
      requires qp.queue[0].batch != [] && Registered(regions, qp.queue[0].batch)
      modifies this
      ensures Agrees(r) && PostedFront(regions, qpi, qp, r)
    {
      FrontPostedFacts(regions, qpi, qp);
      PostChunk(assignQueue[0]);
      assignQueue := assignQueue[1..];
      r := FrontPosted(regions, qpi, qp);
    }

    /** The drain loop, up to the point where it would sleep because the window is closed.  It
        posts exactly the chunks the window admits, in order. */
    method DrainQueue(ghost start: Qp) returns (refused: bool, ghost qp: Qp)
      requires Agrees(start) && start.dpc == Drain && Drainable(regions, assignQueue, outstanding)
      modifies this
      ensures Agrees(qp) && Drained(regions, qpi, start, Admitted(start.queue, start.outstanding), qp)
      ensures refused <==> assignQueue != []
    {
      qp := start;
      ghost var n, total := 0, Admitted(assignQueue, outstanding);
      assert start.queue[..0] == [] && start.queue[0..] == start.queue;
      assert QpFollows(regions, qpi, qp, [], qp);
      while assignQueue != []
        invariant Agrees(qp) && Drained(regions, qpi, start, n, qp)
        invariant StillToDo(regions, n, assignQueue, outstanding, total)
        decreases |assignQueue|
      {
        var batchSize := |assignQueue[0].batch|;
        FrontExact(regions, qp);
        if batchSize > MAX_SEND_WR {
          assert false;  // no chunk is that large
        } else if WindowOpen(batchSize, outstanding) {
          ghost var r := PostFront(qp);
          OneLessToDo(regions, n, qp.queue, qp.outstanding, total, assignQueue, outstanding);
          DrainedNext(regions, qpi, start, n, qp, r);
          qp, n := r, n + 1;
        } else {
          return true, qp;
        }
      }
      return false, qp;
    }
  }

  /** The state after the front chunk has been admitted, posted and popped. */
  ghost function FrontPosted(regions: Regions, q: nat, qp: Qp): Qp
    requires DispatcherEnabled(qp, CheckWindow)
  {
    DispatcherDo(regions, q, Posting(regions, q, DispatcherDo(regions, q, qp, CheckWindow)), Pop)
  }

  lemma FrontPostedFacts(regions: Regions, q: nat, qp: Qp)
    requires DispatcherEnabled(qp, CheckWindow)
    ensures PostedFront(regions, q, qp, FrontPosted(regions, q, qp))
  {
    var checked := DispatcherDo(regions, q, qp, CheckWindow);
    CreditAndPost(regions, q, checked);
    PostFrontFollows(regions, q, qp, checked, Posting(regions, q, checked));
  }

  lemma FrontDone(regions: Regions, q: nat, queue: seq<Chunk>, n: nat)
    requires n < |queue|
    ensures queue[n..][1..] == queue[n + 1..]
    ensures SendChains(regions, q, queue[..n + 1]) == SendChains(regions, q, queue[..n]) + SendChain(regions, q, queue[n])
    ensures RecvChains(regions, queue[..n + 1]) == RecvChains(regions, queue[..n]) + RecvChain(regions, queue[n])
    ensures Size(queue[..n + 1]) == Size(queue[..n]) + |queue[n].batch|
  {
    assert queue[..n + 1] == queue[..n] + [queue[n]];
    SendChainsSnoc(regions, q, queue[..n], queue[n]);
    RecvChainsSnoc(regions, queue[..n], queue[n]);
    SizeConcat(queue[..n], [queue[n]]);
    assert [queue[n]][1..] == [];
  }

  lemma PostFrontFollows(regions: Regions, q: nat, qp: Qp, checked: Qp, posted: Qp)
    requires DispatcherEnabled(qp, CheckWindow) && checked == DispatcherDo(regions, q, qp, CheckWindow)
    requires QpFollows(regions, q, checked, [AddCredits, Post], posted) && DispatcherEnabled(posted, Pop)
    ensures QpFollows(regions, q, qp, POST_FRONT, DispatcherDo(regions, q, posted, Pop))
  {
    assert [CheckWindow][1..] == [] && [Pop][1..] == [];
    QpFollowsConcat(regions, q, qp, [CheckWindow], checked, [AddCredits, Post], posted);
    QpFollowsConcat(regions, q, qp, [CheckWindow] + [AddCredits, Post], posted, [Pop], DispatcherDo(regions, q, posted, Pop));
    assert [CheckWindow] + [AddCredits, Post] + [Pop] == POST_FRONT;
  }

  function JoinAt(wr: array<SendWr>, sge: array<Sge>, i: nat): Wr
    requires i < wr.Length && wr[i].sgList < sge.Length
    reads wr, sge
  {
    var s := sge[wr[i].sgList];
    Wr(wr[i].opcode, s.addr, s.length, s.lkey, wr[i].remoteAddr, wr[i].rkey, wr[i].wrId, wr[i].signaled)
  }

  /** The entries after `i`. */
  function Tail(wr: seq<SendWr>, sge: seq<Sge>, i: nat): seq<Wr>
    requires Linked(wr, sge) && i < |wr|
  {
    if wr[i].next.None? then [] else Gather(wr, sge, wr[i].next.value)
  }

  lemma GatherSplits(wr: seq<SendWr>, sge: seq<Sge>, i: nat)
    requires Linked(wr, sge) && i < |wr|
    ensures Gather(wr, sge, i) == [Join(wr, sge, i)] + Tail(wr, sge, i)
  {
  }

  /** The state after taking the credits of the front chunk and posting it. */
  ghost function Posting(regions: Regions, q: nat, qp: Qp): Qp
    requires qp.dpc == Checked && qp.queue != []
  {
    DispatcherDo(regions, q, DispatcherDo(regions, q, qp, AddCredits), Post)
  }

  lemma CreditAndPost(regions: Regions, q: nat, qp: Qp)
    requires qp.dpc == Checked && qp.queue != []
    ensures QpFollows(regions, q, qp, [AddCredits, Post], Posting(regions, q, qp))
    ensures var r := Posting(regions, q, qp);
      && r.queue == qp.queue && r.outstanding == qp.outstanding + |qp.queue[0].batch|
      && r.wrs == qp.wrs + SendChain(regions, q, qp.queue[0]) && r.rwrs == qp.rwrs + RecvChain(regions, qp.queue[0])
      && r.fired == qp.fired && r.stop == qp.stop && r.dpc == Posted
  {
    assert [AddCredits, Post][1..] == [Post];
    assert [Post][1..] == [];
  }
}
