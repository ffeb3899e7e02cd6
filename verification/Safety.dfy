/** Main results about every reachable state: conservation, exactly-once callbacks, exact
    credits, no lost wake-up, exactness of SUCCESS, and delivery. */
module Safety {
  import opened Types
  import opened Split
  import opened Chain
  import opened Memory
  import opened Tokens
  import opened Pipeline
  import opened QpInvariant
  import opened SystemInvariant
  import opened Placement
  import opened Delivery

  // ----- Single facts of the invariant -----

  lemma StatusFacts(cfg: Config, s: System, q: nat)
    requires Reachable(cfg, s) && q < |s.qps|
    ensures var qp := s.qps[q]; StatusInv(qp.wrs, qp.exec, qp.status, qp.failed)
  {
    ReachableInv(cfg, s);
  }

  lemma FiredFacts(cfg: Config, s: System, q: nat, n: nat)
    requires Reachable(cfg, s) && q < |s.qps| && n < |s.qps[q].fired|
    ensures var qp := s.qps[q]; FiredOk(qp.wrs, qp.status, qp.fired[n])
  {
    ReachableInv(cfg, s);
  }

  lemma CreditFacts(cfg: Config, s: System, q: nat)
    requires Reachable(cfg, s) && q < |s.qps|
    ensures var qp := s.qps[q];
      CreditInv(qp.outstanding, qp.cqd, Pending(qp.wrs, qp.status), qp.posted, Reserved(qp), Claimed(qp))
  {
    ReachableInv(cfg, s);
  }

  lemma TokenFacts(cfg: Config, s: System, q: nat)
    requires Reachable(cfg, s) && q < |s.qps|
    ensures var qp := s.qps[q]; TokenInv(qp.fired, Uncalled(qp), Done(qp.wrs, qp.status))
    ensures s.qps[q].cqd == Of(Unhandled(s), q) && Uncalled(s.qps[q]) == Awaiting(s, q)
  {
    ReachableInv(cfg, s);
  }

  lemma OrderFacts(cfg: Config, s: System, q: nat)
    requires Reachable(cfg, s) && q < |s.qps|
    ensures var qp := s.qps[q]; OrderInv(cfg.regions, q, qp.pushed, qp.posted, Unposted(qp), qp.wrs, qp.wake)
    ensures PlacedOn(s.subs, q) == s.qps[q].pushed + Rest(s.qps[q].mutex)
    ensures GoodChunks(s.qps[q].posted) && GoodChunks(s.qps[q].queue)
  {
    ReachableInv(cfg, s);
  }

  lemma RecvFacts(cfg: Config, s: System, q: nat)
    requires Reachable(cfg, s) && q < |s.qps|
    ensures RecvInv(cfg.regions, s.qps[q].posted, s.qps[q].rwrs, s.qps[q].rdone)
  {
    ReachableInv(cfg, s);
  }

  lemma SubFacts(cfg: Config, s: System, sid: nat)
    requires Reachable(cfg, s) && sid < |s.subs|
    ensures s.subs[sid].q < |s.qps| == QP_LIST_LEN
  {
    ReachableInv(cfg, s);
  }

  // ----- Conservation and order -----

  /** Completions of QP q in the poller's block and the shared CQ whose callback has not run. */
  function Awaiting(s: System, q: nat): seq<Wc> {
    var own := Of(Unhandled(s), q);
    if CalledFor(s.ppc, q) && own != [] then own[1..] else own
  }

  /** On each QP, the READ chunks ever submitted are, in order: those whose callback has run,
      those whose completion is in the shared CQ or the poller's block, those posted and not
      completed, those queued, and those their submitter still has to push. */
  lemma Conservation(cfg: Config, s: System, q: nat)
    requires Reachable(cfg, s) && q < |s.qps|
    ensures var qp := s.qps[q];
      ReadToks(q, PlacedOn(s.subs, q)) ==
        FiredToks(qp.fired) + WcToks(Awaiting(s, q)) + WrToks(Pending(qp.wrs, qp.status))
        + ReadToks(q, Unposted(qp)) + ReadToks(q, Rest(qp.mutex))
  {
    var qp := s.qps[q];
    OrderFacts(cfg, s, q);
    LogToks(cfg, s, q);
    PostedToks(cfg, s, q);
    ReadToksConcat(q, qp.posted + Unposted(qp), Rest(qp.mutex));
    ReadToksConcat(q, qp.posted, Unposted(qp));
  }

  lemma PostedToks(cfg: Config, s: System, q: nat)
    requires Reachable(cfg, s) && q < |s.qps|
    ensures WrToks(s.qps[q].wrs) == ReadToks(q, s.qps[q].posted)
  {
    OrderFacts(cfg, s, q);
    SendChainsToks(cfg.regions, q, s.qps[q].posted);
    if s.qps[q].wake {
      WakeBooks(SendChains(cfg.regions, q, s.qps[q].posted));
    }
  }

  /** The tokens in the log of QP q: handled, awaiting their callback, or not yet completed. */
  lemma LogToks(cfg: Config, s: System, q: nat)
    requires Reachable(cfg, s) && q < |s.qps|
    ensures var qp := s.qps[q];
      WrToks(qp.wrs) == FiredToks(qp.fired) + WcToks(Awaiting(s, q)) + WrToks(Pending(qp.wrs, qp.status))
  {
    var qp := s.qps[q];
    StatusFacts(cfg, s, q);
    TokenFacts(cfg, s, q);
    var done, pending := Done(qp.wrs, qp.status), Pending(qp.wrs, qp.status);
    assert qp.wrs == done + pending;
    WrToksConcat(done, pending);
  }

  /** FIFO: the SEND, RECV and READ chunks of a QP are posted and popped in submission order,
      each once. */
  lemma FifoDispatch(cfg: Config, s: System, q: nat)
    requires Reachable(cfg, s) && q < |s.qps|
    ensures PlacedOn(s.subs, q) == s.qps[q].posted + Unposted(s.qps[q]) + Rest(s.qps[q].mutex)
    ensures s.qps[q].ignored == []  // the overflow branch is never taken
    ensures forall i :: 0 <= i < |s.qps[q].queue| ==> 1 <= |s.qps[q].queue[i].batch| <= MAX_SEND_WR / 2
  {
    ReachableInv(cfg, s);
  }

  // ----- Exactly once -----

  ghost predicate Before(c: Chunk, d: Chunk) {
    c.sid < d.sid || (c.sid == d.sid && c.idx < d.idx)
  }

  ghost predicate InOrder(toks: seq<Token>) {
    forall i, j :: 0 <= i < j < |toks| ==> Before(toks[i].chunk, toks[j].chunk)
  }

  lemma PlacedInOrder(subs: seq<Submission>, q: nat, i: nat, j: nat)
    requires i < j < |PlacedOn(subs, q)|
    ensures Before(PlacedOn(subs, q)[i], PlacedOn(subs, q)[j])
  {
    var c, d := PlacedOn(subs, q)[i], PlacedOn(subs, q)[j];
    PlacedOrigin(subs, q, i);
    PlacedOrigin(subs, q, j);
    if d.sid < c.sid {
      FirstsGrow(subs, q, d.sid, c.sid);
    }
  }

  lemma {:induction false} FirstsGrow(subs: seq<Submission>, q: nat, a: nat, b: nat)
    requires a < b <= |subs|
    ensures First(subs, q, a) + (if subs[a].q == q then |ChunksOf(subs, a)| else 0) <= First(subs, q, b)
    decreases b
  {
    assert subs[..b][..b - 1] == subs[..b - 1];
    if a < b - 1 {
      FirstsGrow(subs, q, a, b - 1);
    }
  }

  lemma {:induction false} ReadToksInOrder(q: nat, chunks: seq<Chunk>)
    requires forall i, j :: 0 <= i < j < |chunks| ==> Before(chunks[i], chunks[j])
    ensures InOrder(ReadToks(q, chunks))
    ensures forall t :: t in ReadToks(q, chunks) <==> t.qpi == q && t.chunk in chunks && t.chunk.opcode == READ
  {
    if chunks != [] {
      ReadToksInOrder(q, chunks[1..]);
      var rest := ReadToks(q, chunks[1..]);
      forall j | 0 <= j < |rest|
        ensures Before(chunks[0], rest[j].chunk)
      {
        assert rest[j] in rest;
        assert rest[j].chunk in chunks[1..];
      }
      assert chunks == [chunks[0]] + chunks[1..];
    }
  }

  lemma InOrderDistinct(toks: seq<Token>, n: nat, m: nat)
    requires InOrder(toks) && n < |toks| && m < |toks| && toks[n] == toks[m]
    ensures n == m
  {
  }

  lemma PlacedToks(subs: seq<Submission>, q: nat)
    ensures InOrder(ReadToks(q, PlacedOn(subs, q)))
    ensures forall t :: t in ReadToks(q, PlacedOn(subs, q)) <==>
      t.qpi == q && t.chunk in PlacedOn(subs, q) && t.chunk.opcode == READ
  {
    forall i: nat, j: nat | i < j < |PlacedOn(subs, q)|
      ensures Before(PlacedOn(subs, q)[i], PlacedOn(subs, q)[j])
    {
      PlacedInOrder(subs, q, i, j);
    }
    ReadToksInOrder(q, PlacedOn(subs, q));
  }

  /** The token of the final chunk of a nonempty READ submission: the one that carries the
      caller's callback. */
  function FinalToken(subs: seq<Submission>, sid: nat): Token
    requires IsReadAssignment(subs, sid, 0)
  {
    Token(ChunksOf(subs, sid)[|ChunksOf(subs, sid)| - 1], subs[sid].q)
  }

  ghost predicate FiresAtMostOnce(fired: seq<Fired>, t: Token) {
    forall n, m :: 0 <= n < |fired| && 0 <= m < |fired| && FiredToks(fired)[n] == t && FiredToks(fired)[m] == t ==> n == m
  }

  /** The callbacks run on a QP are a prefix of the READ chunks placed on it. */
  lemma FiredPrefix(cfg: Config, s: System, q: nat)
    requires Reachable(cfg, s) && q < |s.qps|
    ensures FiredToks(s.qps[q].fired) <= ReadToks(q, PlacedOn(s.subs, q))
  {
    Conservation(cfg, s, q);
  }

  lemma InOrderOnce(fired: seq<Fired>, t: Token)
    requires InOrder(FiredToks(fired))
    ensures FiresAtMostOnce(fired, t)
  {
  }

  /** Callbacks run in submission order on each QP, so none runs twice; and only READ chunks
      ever get theirs, since SEND and RECV are posted with wr_id 0. */
  lemma CallbacksInOrder(cfg: Config, s: System, q: nat)
    requires Reachable(cfg, s) && q < |s.qps|
    ensures InOrder(FiredToks(s.qps[q].fired))
    ensures forall n :: 0 <= n < |s.qps[q].fired| ==>
      s.qps[q].fired[n].tok.chunk.opcode == READ && s.qps[q].fired[n].tok.chunk in PlacedOn(s.subs, q)
  {
    FiredPrefix(cfg, s, q);
    PlacedToks(s.subs, q);
    var all := ReadToks(q, PlacedOn(s.subs, q));
    forall n | 0 <= n < |s.qps[q].fired|
      ensures s.qps[q].fired[n].tok in all
    {
      assert s.qps[q].fired[n].tok == FiredToks(s.qps[q].fired)[n] == all[n];
    }
  }

  /** Nothing queued, posted or completed is left on QP q. */
  predicate QpDrained(s: System, q: nat)
    requires q < |s.qps|
  {
    && Unposted(s.qps[q]) == [] && Rest(s.qps[q].mutex) == [] && Pending(s.qps[q].wrs, s.qps[q].status) == []
    && Of(Unhandled(s), q) == []
  }

  /** On a drained QP the callbacks run are exactly those of the READ chunks submitted. */
  lemma DrainedFired(cfg: Config, s: System, q: nat)
    requires Reachable(cfg, s) && q < |s.qps| && QpDrained(s, q)
    ensures FiredToks(s.qps[q].fired) == ReadToks(q, PlacedOn(s.subs, q))
  {
    Conservation(cfg, s, q);
    assert Awaiting(s, q) == [] && WcToks([]) == [] && WrToks([]) == [] && ReadToks(q, []) == [];
    NothingMore(FiredToks(s.qps[q].fired));
  }

  lemma NothingMore(toks: seq<Token>)
    ensures toks + [] + [] + [] + [] == toks
  {
  }

  lemma FinalTokenPlaced(subs: seq<Submission>, sid: nat)
    requires IsReadAssignment(subs, sid, 0)
    ensures FinalToken(subs, sid) in ReadToks(subs[sid].q, PlacedOn(subs, subs[sid].q))
  {
    PlacedAt(subs, sid, |ChunksOf(subs, sid)| - 1);
    PlacedToks(subs, subs[sid].q);
  }

  /** Exactly-once: the final callback of every nonempty READ submission never runs twice, and
      has run once its QP has drained. */
  lemma ExactlyOnce(cfg: Config, s: System, sid: nat)
    requires Reachable(cfg, s) && IsReadAssignment(s.subs, sid, 0)
    ensures s.subs[sid].q < |s.qps|
    ensures forall t :: FiresAtMostOnce(s.qps[s.subs[sid].q].fired, t)
    ensures QpDrained(s, s.subs[sid].q) ==> FinalToken(s.subs, sid) in FiredToks(s.qps[s.subs[sid].q].fired)
  {
    SubFacts(cfg, s, sid);
    var q := s.subs[sid].q;
    CallbacksInOrder(cfg, s, q);
    forall t
      ensures FiresAtMostOnce(s.qps[q].fired, t)
    {
      InOrderOnce(s.qps[q].fired, t);
    }
    FinalTokenPlaced(s.subs, sid);
    if QpDrained(s, q) {
      DrainedFired(cfg, s, q);
    }
  }

  // ----- Credits -----

  /** outstanding_rdma_reads_ is exactly the size of the READ chunks in flight, plus the chunk
      being posted, plus everything SEND and RECV took and never gave back; it is never
      negative and stays below MAX_SEND_WR even though test and add are separate steps. */
  lemma CreditsExact(cfg: Config, s: System, q: nat)
    requires Reachable(cfg, s) && q < |s.qps|
    ensures var qp := s.qps[q];
      && qp.outstanding == Credits(WcToks(Of(Unhandled(s), q))) + Credits(WrToks(Pending(qp.wrs, qp.status)))
                           + Reserved(qp) + Leaked(qp.posted)
      && 0 <= qp.outstanding && qp.outstanding + Claimed(qp) <= MAX_SEND_WR - 1
  {
    CreditFacts(cfg, s, q);
    TokenFacts(cfg, s, q);
  }

  /** Send-queue slots a provider has not been able to free: those posted after the last
      request whose completion the poller has taken as far as its callback. */
  function SlotsHeld(qp: Qp): int {
    if qp.fired == [] then |qp.wrs| else |qp.wrs| - (qp.fired[|qp.fired| - 1].index + 1)
  }

  ghost predicate WithinCredits(log: seq<Wr>, n: nat, chunks: seq<Chunk>) {
    n <= |log| && |log| - n <= Credits(WrToks(log[n..])) + Leaked(chunks)
  }

  /** Requests after a tokened one (or all of them) number at most the credits they carry. */
  lemma {:induction false} LogBound(regions: Regions, q: nat, chunks: seq<Chunk>, n: nat)
    requires GoodChunks(chunks) && n <= |SendChains(regions, q, chunks)|
    requires n == 0 || SendChains(regions, q, chunks)[n - 1].wrId.Some?
    ensures WithinCredits(SendChains(regions, q, chunks), n, chunks)
  {
    if chunks != [] {
      var front, c := chunks[..|chunks| - 1], chunks[|chunks| - 1];
      assert chunks == front + [c];
      if n <= |SendChains(regions, q, front)| {
        LogBound(regions, q, front, n);
      }
      LogBoundNext(regions, q, front, c, SendChains(regions, q, front), SendChains(regions, q, chunks), n);
    }
  }

  lemma LogBoundNext(regions: Regions, q: nat, front: seq<Chunk>, c: Chunk, before: seq<Wr>, log: seq<Wr>, n: nat)
    requires GoodChunk(c) && log == before + SendChain(regions, q, c) && n <= |log|
    requires n == 0 || log[n - 1].wrId.Some?
    requires n <= |before| ==> WithinCredits(before, n, front)
    ensures WithinCredits(log, n, front + [c])
  {
    if n <= |before| {
      LogBoundStep(regions, q, front, c, before, n);
    } else {
      LogBoundLast(regions, q, c, before, n, front + [c]);
    }
  }

  lemma LogBoundLast(regions: Regions, q: nat, c: Chunk, before: seq<Wr>, n: nat, chunks: seq<Chunk>)
    requires |before| < n <= |before + SendChain(regions, q, c)|
    requires (before + SendChain(regions, q, c))[n - 1].wrId.Some?
    ensures WithinCredits(before + SendChain(regions, q, c), n, chunks)
  {
    LastOnly(regions, q, c, n - 1 - |before|);
  }

  lemma LogBoundStep(regions: Regions, q: nat, front: seq<Chunk>, c: Chunk, before: seq<Wr>, n: nat)
    requires GoodChunk(c) && WithinCredits(before, n, front)
    ensures WithinCredits(before + SendChain(regions, q, c), n, front + [c])
  {
    var chain := SendChain(regions, q, c);
    assert (before + chain)[n..] == before[n..] + chain;
    PostCredits(regions, q, before[n..], front, c);
  }

  lemma LastOnly(regions: Regions, q: nat, c: Chunk, k: nat)
    requires k < |SendChain(regions, q, c)| && SendChain(regions, q, c)[k].wrId.Some?
    ensures k == |SendChain(regions, q, c)| - 1
  {
  }

  lemma {:induction false} TokenCount(wrs: seq<Wr>, i: nat)
    requires i < |wrs| && wrs[i].wrId.Some?
    ensures |WrToks(wrs[..i])| < |WrToks(wrs)| && WrToks(wrs)[|WrToks(wrs[..i])|] == wrs[i].wrId.value
    ensures WrToks(wrs[i + 1..]) == WrToks(wrs)[|WrToks(wrs[..i])| + 1..]
  {
    assert wrs == wrs[..i] + ([wrs[i]] + wrs[i + 1..]);
    WrToksConcat(wrs[..i], [wrs[i]] + wrs[i + 1..]);
    assert ([wrs[i]] + wrs[i + 1..])[1..] == wrs[i + 1..];
    assert WrToks([wrs[i]] + wrs[i + 1..]) == [wrs[i].wrId.value] + WrToks(wrs[i + 1..]);
  }

  lemma LogInOrder(cfg: Config, s: System, q: nat)
    requires Reachable(cfg, s) && q < |s.qps|
    ensures InOrder(WrToks(s.qps[q].wrs))
  {
    OrderFacts(cfg, s, q);
    PlacedToks(s.subs, q);
    PostedToks(cfg, s, q);
    ReadToksConcat(q, s.qps[q].posted, Unposted(s.qps[q]) + Rest(s.qps[q].mutex));
    Assoc(s.qps[q].posted, Unposted(s.qps[q]), Rest(s.qps[q].mutex));
    assert WrToks(s.qps[q].wrs) <= ReadToks(q, PlacedOn(s.subs, q));
  }

  /** The requests after the last one whose callback ran carry the tokens not yet called. */
  lemma TokensAfterLastFired(cfg: Config, s: System, q: nat)
    requires Reachable(cfg, s) && q < |s.qps| && s.qps[q].fired != []
    ensures var qp := s.qps[q];
      var i := qp.fired[|qp.fired| - 1].index;
      && i < |qp.wrs| && qp.wrs[i].wrId.Some?
      && WrToks(qp.wrs[i + 1..]) == WcToks(Awaiting(s, q)) + WrToks(Pending(qp.wrs, qp.status))
  {
    var qp := s.qps[q];
    var n := |qp.fired| - 1;
    var i := qp.fired[n].index;
    FiredFacts(cfg, s, q, n);
    LogToks(cfg, s, q);
    LogInOrder(cfg, s, q);
    var toks := WrToks(qp.wrs);
    TokenCount(qp.wrs, i);
    assert toks[n] == FiredToks(qp.fired)[n];
    InOrderDistinct(toks, |WrToks(qp.wrs[..i])|, n);
    Assoc(FiredToks(qp.fired), WcToks(Awaiting(s, q)), WrToks(Pending(qp.wrs, qp.status)));
    assert toks[n + 1..] == WcToks(Awaiting(s, q)) + WrToks(Pending(qp.wrs, qp.status));
  }

  function FirstHeld(qp: Qp): nat {
    if qp.fired == [] then 0 else qp.fired[|qp.fired| - 1].index + 1
  }

  lemma NoneFired(cfg: Config, s: System, q: nat)
    requires Reachable(cfg, s) && q < |s.qps| && s.qps[q].fired == []
    ensures var qp := s.qps[q];
      WrToks(qp.wrs[0..]) == WcToks(Awaiting(s, q)) + WrToks(Pending(qp.wrs, qp.status))
  {
    LogToks(cfg, s, q);
    assert s.qps[q].wrs[0..] == s.qps[q].wrs;
    NothingBefore(FiredToks(s.qps[q].fired), WcToks(Awaiting(s, q)), WrToks(Pending(s.qps[q].wrs, s.qps[q].status)));
  }

  lemma NothingBefore(none: seq<Token>, a: seq<Token>, b: seq<Token>)
    requires none == []
    ensures none + a + b == a + b
  {
  }

  /** Tokens from the first held slot on. */
  lemma HeldTokens(cfg: Config, s: System, q: nat)
    requires Reachable(cfg, s) && q < |s.qps|
    ensures var qp := s.qps[q];
      && FirstHeld(qp) <= |qp.wrs| && (FirstHeld(qp) > 0 ==> qp.wrs[FirstHeld(qp) - 1].wrId.Some?)
      && WrToks(qp.wrs[FirstHeld(qp)..]) == WcToks(Awaiting(s, q)) + WrToks(Pending(qp.wrs, qp.status))
  {
    if s.qps[q].fired == [] {
      NoneFired(cfg, s, q);
    } else {
      TokensAfterLastFired(cfg, s, q);
    }
  }

  lemma WithWake(log: seq<Wr>, n: nat)
    requires n <= |log| + 1 && (n > 0 ==> (log + [WAKE_WR])[n - 1].wrId.Some?)
    ensures n <= |log| && WrToks((log + [WAKE_WR])[n..]) == WrToks(log[n..])
  {
    if n <= |log| {
      assert (log + [WAKE_WR])[n..] == log[n..] + [WAKE_WR];
      WakeBooks(log[n..]);
    }
  }

  lemma SendLog(cfg: Config, s: System, q: nat)
    requires Reachable(cfg, s) && q < |s.qps|
    ensures GoodChunks(s.qps[q].posted)
    ensures var log := SendChains(cfg.regions, q, s.qps[q].posted);
      s.qps[q].wrs == if s.qps[q].wake then log + [WAKE_WR] else log
  {
    OrderFacts(cfg, s, q);
  }

  lemma HeldBound(cfg: Config, s: System, q: nat)
    requires Reachable(cfg, s) && q < |s.qps| && FirstHeld(s.qps[q]) <= |s.qps[q].wrs|
    requires FirstHeld(s.qps[q]) > 0 ==> s.qps[q].wrs[FirstHeld(s.qps[q]) - 1].wrId.Some?
    ensures var qp := s.qps[q];
      |qp.wrs| - FirstHeld(qp) <= Credits(WrToks(qp.wrs[FirstHeld(qp)..])) + Leaked(qp.posted) + (if qp.wake then 1 else 0)
  {
    var qp := s.qps[q];
    var n := FirstHeld(qp);
    SendLog(cfg, s, q);
    if qp.wake {
      WithWake(SendChains(cfg.regions, q, qp.posted), n);
    }
    LogBound(cfg.regions, q, qp.posted, n);
  }

  /** Slots held never exceed the counter, the stop request aside. */
  lemma SlotsWithinCredits(cfg: Config, s: System, q: nat)
    requires Reachable(cfg, s) && q < |s.qps|
    ensures var qp := s.qps[q]; SlotsHeld(qp) + Reserved(qp) <= qp.outstanding + (if qp.wake then 1 else 0)
  {
    var qp := s.qps[q];
    HeldTokens(cfg, s, q);
    HeldBound(cfg, s, q);
    CreditsExact(cfg, s, q);
    AwaitingCredits(s, q);
    CreditsConcat(WcToks(Awaiting(s, q)), WrToks(Pending(qp.wrs, qp.status)));
  }

  /** The window keeps the send queue from overflowing: a chain about to be posted finds room
      for itself and one more request ... */
  lemma RoomForChain(cfg: Config, s: System, q: nat)
    requires Reachable(cfg, s) && q < |s.qps| && DispatcherEnabled(s.qps[q], Post)
    ensures SlotsHeld(s.qps[q]) + |SendChain(cfg.regions, q, s.qps[q].queue[0])| <= MAX_SEND_WR - 1
  {
    assert |SendChain(cfg.regions, q, s.qps[q].queue[0])| <= Reserved(s.qps[q]);
    SlotsWithinCredits(cfg, s, q);
    CreditsExact(cfg, s, q);
    WakeFlag(cfg, s, q);
  }

  /** ... which is the room the stop request needs on QP 0. */
  lemma RoomForWake(cfg: Config, s: System)
    requires Reachable(cfg, s) && s.spc == CqArmed && |s.qps| > 0
    ensures SlotsHeld(s.qps[0]) + 1 <= MAX_SEND_WR
  {
    SlotsWithinCredits(cfg, s, 0);
    CreditsExact(cfg, s, 0);
    WakeFlag(cfg, s, 0);
  }

  /** The stop request is posted once, to a QP whose dispatcher has returned. */
  lemma WakeFlag(cfg: Config, s: System, q: nat)
    requires Reachable(cfg, s) && q < |s.qps|
    ensures s.qps[q].wake ==> q == 0 && s.spc == WakePosted && s.qps[q].dpc == Exited
  {
    ReachableInv(cfg, s);
  }

  lemma AwaitingCredits(s: System, q: nat)
    ensures Credits(WcToks(Awaiting(s, q))) <= Credits(WcToks(Of(Unhandled(s), q)))
  {
    var own := Of(Unhandled(s), q);
    if CalledFor(s.ppc, q) && own != [] {
      CreditsConcat(OptToks(own[0].wrId), WcToks(own[1..]));
    }
  }

  // ----- Wake-ups and shutdown -----

  /** Whenever the poller is blocked with completions waiting, an event is pending. */
  lemma NoLostCompletion(cfg: Config, s: System)
    requires Reachable(cfg, s) && s.ppc == AtGet && s.cq != []
    ensures Enabled(cfg, s, GetEvent)
  {
    ReachableInv(cfg, s);
  }

  /** Whenever a dispatcher sleeps on a nonempty queue, either its submitter is still inside
      the critical section (and will notify), or a notification is pending. */
  lemma NoLostSubmission(cfg: Config, s: System, q: nat)
    requires Reachable(cfg, s) && q < |s.qps| && s.qps[q].dpc == Asleep && s.qps[q].queue != []
    ensures s.qps[q].mutex.BySubmitter? || (s.qps[q].notified && s.qps[q].mutex == Free)
  {
    ReachableInv(cfg, s);
  }

  /** The whole drain happens inside the queue's critical section. */
  lemma DrainIsExclusive(cfg: Config, s: System, q: nat)
    requires Reachable(cfg, s) && q < |s.qps|
    requires s.qps[q].dpc.Drain? || s.qps[q].dpc.Checked? || s.qps[q].dpc.Added? || s.qps[q].dpc.Posted?
    ensures forall opcode, batch :: !Enabled(cfg, s, Acquire(q, opcode, batch))
    ensures !Enabled(cfg, s, Push(q)) && !Enabled(cfg, s, Notify(q))
  {
    ReachableInv(cfg, s);
  }

  /** Once stop_future has posted its request, a poller blocked with no event pending means
      that request has not completed yet, so the NIC still owes a wake-up. */
  lemma ShutdownWakes(cfg: Config, s: System)
    requires Reachable(cfg, s) && s.spc == WakePosted && s.ppc == AtGet && s.events == 0
    ensures |s.qps| > 0 && |s.qps[0].status| < |s.qps[0].wrs| && s.qps[0].wrs[|s.qps[0].wrs| - 1] == WAKE_WR
    ensures s.armed && Enabled(cfg, s, Fail(0))
  {
    ReachableInv(cfg, s);
  }

  // ----- Soundness of SUCCESS -----

  /** What the dispatcher has posted is a prefix of what submissions placed. */
  lemma LogPrefix(cfg: Config, s: System, q: nat)
    requires Reachable(cfg, s) && q < |s.qps|
    ensures var qp := s.qps[q];
      var placed := PlacedOn(s.subs, q);
      var log := SendChains(cfg.regions, q, placed);
      && |qp.posted| <= |placed| && qp.posted == placed[..|qp.posted|]
      && Offset(cfg.regions, q, placed, |qp.posted|) <= |log|
      && Offset(cfg.regions, q, placed, |qp.posted|) <= |qp.wrs|
      && (forall i :: 0 <= i < Offset(cfg.regions, q, placed, |qp.posted|) ==> qp.wrs[i] == log[i])
      && (forall i :: Offset(cfg.regions, q, placed, |qp.posted|) <= i < |qp.wrs| ==> qp.wrs[i] == WAKE_WR)
  {
    var qp := s.qps[q];
    var placed := PlacedOn(s.subs, q);
    OrderFacts(cfg, s, q);
    assert qp.posted == placed[..|qp.posted|];
    ChainsPrefix(cfg.regions, q, placed, |qp.posted|);
  }

  lemma {:induction false} ChainsPrefix(regions: Regions, q: nat, chunks: seq<Chunk>, p: nat)
    requires p <= |chunks|
    ensures SendChains(regions, q, chunks[..p]) <= SendChains(regions, q, chunks)
    decreases |chunks|
  {
    if p < |chunks| {
      var n := |chunks| - 1;
      ChainsPrefix(regions, q, chunks[..n], p);
      assert chunks[..n][..p] == chunks[..p];
    } else {
      assert chunks[..p] == chunks;
    }
  }

  /** Assignment m of READ submission sid has been posted: its chunk has. */
  predicate Sent(s: System, sid: int, m: int) {
    && IsReadAssignment(s.subs, sid, m) && s.subs[sid].q < |s.qps|
    && ChunkPos(s.subs, sid, m) < |s.qps[s.subs[sid].q].posted|
    && ChunkPos(s.subs, sid, m) < |PlacedOn(s.subs, s.subs[sid].q)|
  }

  lemma SentSlot(cfg: Config, s: System, sid: nat, m: nat)
    requires Reachable(cfg, s) && Sent(s, sid, m)
    ensures var q := s.subs[sid].q;
      var i := Slot(cfg.regions, s.subs, sid, m);
      IsRead(s, q, i) && TransferOf(s.qps[q].wrs[i]) == TransferFor(cfg.regions, s.subs[sid].batch[m])
      && s.qps[q].wrs[i] == ReadWr(cfg.regions, q, ChunksOf(s.subs, sid)[m / 4096], m % 4096)
  {
    var q := s.subs[sid].q;
    HasSlot(s.subs, sid, m);
    SlotHolds(cfg.regions, s.subs, sid, m);
    LogPrefix(cfg, s, q);
    OffsetsGrow(cfg.regions, q, PlacedOn(s.subs, q), ChunkPos(s.subs, sid, m), |s.qps[q].posted|);
  }

  /** Every read request on every QP carries a sent assignment in its slot. */
  lemma RequestOrigin(cfg: Config, s: System, q: nat, i: nat) returns (sid: nat, m: nat)
    requires Reachable(cfg, s) && IsRead(s, q, i)
    ensures Sent(s, sid, m) && s.subs[sid].q == q && Slot(cfg.regions, s.subs, sid, m) == i
  {
    LogPrefix(cfg, s, q);
    var placed := PlacedOn(s.subs, q);
    sid, m := SlotOrigin(cfg.regions, s.subs, q, i);
    var p := ChunkPos(s.subs, sid, m);
    if |s.qps[q].posted| < p {
      OffsetsGrow(cfg.regions, q, placed, |s.qps[q].posted|, p);
    }
  }

  /** The request of (sid, m) completed successfully, and its data moved. */
  predicate Succeeded(cfg: Config, s: System, sid: int, m: int) {
    && Sent(s, sid, m)
    && var qp := s.qps[s.subs[sid].q];
       var i := Slot(cfg.regions, s.subs, sid, m);
       i < |qp.status| && i < |qp.exec| && qp.status[i] && qp.exec[i]
  }

  /** The callback that ran belongs to the chunk whose last request's slot it names. */
  lemma FiredChunk(cfg: Config, s: System, q: nat, n: nat) returns (sid: nat, m: nat)
    requires Reachable(cfg, s) && q < |s.qps| && n < |s.qps[q].fired|
    ensures var f := s.qps[q].fired[n];
      && Sent(s, sid, m) && s.subs[sid].q == q && Slot(cfg.regions, s.subs, sid, m) == f.index
      && f.tok.chunk == ChunksOf(s.subs, sid)[m / 4096] && f.tok.chunk.sid == sid
      && m % 4096 == |f.tok.chunk.batch| - 1
  {
    var qp := s.qps[q];
    var f := qp.fired[n];
    FiredFacts(cfg, s, q, n);
    LogReads(cfg, s, q, f.index);
    sid, m := RequestOrigin(cfg, s, q, f.index);
    SentSlot(cfg, s, sid, m);
    HasSlot(s.subs, sid, m);
  }

  lemma LogReads(cfg: Config, s: System, q: nat, i: nat)
    requires Reachable(cfg, s) && q < |s.qps| && i < |s.qps[q].wrs| && s.qps[q].wrs[i].wrId.Some?
    ensures IsRead(s, q, i)
  {
    LogPrefix(cfg, s, q);
    TokenIsRead(cfg.regions, q, PlacedOn(s.subs, q), i);
  }

  /** Only READ requests carry a token. */
  lemma TokenIsRead(regions: Regions, q: nat, chunks: seq<Chunk>, i: nat)
    requires i < |SendChains(regions, q, chunks)| && SendChains(regions, q, chunks)[i].wrId.Some?
    ensures SendChains(regions, q, chunks)[i].opcode == READ
  {
    var p, k := ChainOrigin(regions, q, chunks, i);
    ChainAt(regions, q, chunks, p, k);
  }

  /** The log index of a final callback is the slot of its submission's last assignment. */
  lemma FiredFinal(cfg: Config, s: System, q: nat, n: nat)
    requires Reachable(cfg, s) && q < |s.qps| && n < |s.qps[q].fired| && s.qps[q].fired[n].tok.chunk.last
    ensures var f := s.qps[q].fired[n];
      var sid := f.tok.chunk.sid;
      && sid < |s.subs| && s.subs[sid].q == q && s.subs[sid].opcode == READ && s.subs[sid].batch != []
      && var final := |s.subs[sid].batch| - 1;
         Sent(s, sid, final) && Slot(cfg.regions, s.subs, sid, final) == f.index
  {
    var sid, final := FiredChunk(cfg, s, q, n);
    FinalIndex(s.subs, sid, final);
  }

  /** All requests of a submission come no later in the log than its last one. */
  lemma SentUpTo(cfg: Config, s: System, sid: nat, m: nat)
    requires IsReadAssignment(s.subs, sid, m) && Sent(s, sid, |s.subs[sid].batch| - 1)
    ensures Sent(s, sid, m)
    ensures Slot(cfg.regions, s.subs, sid, m) <= Slot(cfg.regions, s.subs, sid, |s.subs[sid].batch| - 1)
  {
    var final := |s.subs[sid].batch| - 1;
    SentPlaced(s, sid, m);
    SlotsUpToLast(cfg.regions, s.subs, sid, m, final);
  }

  lemma SentPlaced(s: System, sid: nat, m: nat)
    requires IsReadAssignment(s.subs, sid, m)
    ensures ChunkPos(s.subs, sid, m) < |PlacedOn(s.subs, s.subs[sid].q)|
  {
    HasSlot(s.subs, sid, m);
  }

  lemma AllBeforeSucceeded(cfg: Config, s: System, sid: nat, m: nat)
    requires Reachable(cfg, s) && IsReadAssignment(s.subs, sid, m) && Succeeded(cfg, s, sid, |s.subs[sid].batch| - 1)
    ensures Succeeded(cfg, s, sid, m)
  {
    SentUpTo(cfg, s, sid, m);
    EarlierSucceeded(cfg, s, s.subs[sid].q, Slot(cfg.regions, s.subs, sid, m),
                     Slot(cfg.regions, s.subs, sid, |s.subs[sid].batch| - 1));
  }

  /** Requests before a successful one have succeeded. */
  lemma EarlierSucceeded(cfg: Config, s: System, q: nat, i: nat, j: nat)
    requires Reachable(cfg, s) && q < |s.qps| && i <= j < |s.qps[q].status| && s.qps[q].status[j]
    ensures i < |s.qps[q].exec| && s.qps[q].status[i] && s.qps[q].exec[i]
  {
    StatusFacts(cfg, s, q);
  }

  lemma FinalStatus(cfg: Config, s: System, q: nat, n: nat)
    requires Reachable(cfg, s) && q < |s.qps| && n < |s.qps[q].fired| && s.qps[q].fired[n].tok.chunk.last
    ensures var sid := s.qps[q].fired[n].tok.chunk.sid;
      && sid < |s.subs| && s.subs[sid].q == q && s.subs[sid].opcode == READ && s.subs[sid].batch != []
      && (s.qps[q].fired[n].ok <==> Succeeded(cfg, s, sid, |s.subs[sid].batch| - 1))
  {
    FiredFinal(cfg, s, q, n);
    FiredFacts(cfg, s, q, n);
    StatusFacts(cfg, s, q);
  }

  /** SUCCESS is exact: the final callback of a submission gets it if and only if every
      request of every chunk of that submission succeeded, although failures of unsignalled
      requests arrive with wr_id 0 and are skipped. */
  lemma SuccessExact(cfg: Config, s: System, q: nat, n: nat)
    requires Reachable(cfg, s) && q < |s.qps| && n < |s.qps[q].fired| && s.qps[q].fired[n].tok.chunk.last
    ensures var sid := s.qps[q].fired[n].tok.chunk.sid;
      && sid < |s.subs| && s.subs[sid].q == q && s.subs[sid].opcode == READ
      && (s.qps[q].fired[n].ok <==> forall m :: 0 <= m < |s.subs[sid].batch| ==> Succeeded(cfg, s, sid, m))
  {
    var sid := s.qps[q].fired[n].tok.chunk.sid;
    FinalStatus(cfg, s, q, n);
    if s.qps[q].fired[n].ok {
      forall m | 0 <= m < |s.subs[sid].batch|
        ensures Succeeded(cfg, s, sid, m)
      {
        AllBeforeSucceeded(cfg, s, sid, m);
      }
    }
  }

  /** The last request of the last chunk carries the last assignment. */
  lemma FinalIndex(subs: seq<Submission>, sid: nat, m: nat)
    requires IsReadAssignment(subs, sid, m) && m / 4096 < |ChunksOf(subs, sid)|
    requires ChunksOf(subs, sid)[m / 4096].last && m % 4096 == |ChunksOf(subs, sid)[m / 4096].batch| - 1
    ensures m == |subs[sid].batch| - 1
  {
  }

  // ----- Delivery -----

  /** Every receive buffer on every QP is that of one RECV assignment. */
  lemma BufferOrigin(cfg: Config, s: System, q: nat, i: nat) returns (sid: nat, m: nat)
    requires Reachable(cfg, s) && IsRecv(s, q, i)
    ensures IsRecvAssignment(s.subs, sid, m) && s.subs[sid].q == q
    ensures s.qps[q].rwrs[i].laddr == TransferFor(cfg.regions, s.subs[sid].batch[m]).dst
    ensures s.qps[q].rwrs[i].length == TransferFor(cfg.regions, s.subs[sid].batch[m]).len
  {
    OrderFacts(cfg, s, q);
    RecvFacts(cfg, s, q);
    var p := RecvChainOrigin(cfg.regions, s.qps[q].posted, i);
    assert PlacedOn(s.subs, q)[p] == s.qps[q].posted[p];
    PlacedBuffer(cfg.regions, s.subs, q, p);
    sid, m := PlacedOn(s.subs, q)[p].sid, Start(PlacedOn(s.subs, q)[p].idx);
  }

  lemma ReceivableOrigin(cfg: Config, s: System, a: nat) returns (sid: nat, m: nat)
    requires Reachable(cfg, s) && Receivable(s, a)
    ensures IsRecvAssignment(s.subs, sid, m) && Hits(TransferFor(cfg.regions, s.subs[sid].batch[m]), a)
  {
    var q, i :| Receives(s, q, i, a);
    sid, m := BufferOrigin(cfg, s, q, i);
  }

  /** No request for another assignment, READ or RECV, writes where (sid, m) writes. */
  ghost predicate WritesApart(cfg: Config, s: System, sid: int, m: int)
    requires IsReadAssignment(s.subs, sid, m)
  {
    forall sid', m' :: IsWriter(s.subs, sid', m') && !(sid' == sid && m' == m) ==>
      Apart(TransferFor(cfg.regions, s.subs[sid].batch[m]), TransferFor(cfg.regions, s.subs[sid'].batch[m']))
  }

  /** No 32- or 64-bit field overflows for this assignment. */
  predicate FitsFields(cfg: Config, a: Assignment) {
    && a.length < TWO32
    && GetMr(cfg.regions, a.mrKey).addr + a.sourceOffset < TWO64
    && GetRemoteMr(cfg.regions, a.mrKey).addr + a.targetOffset < TWO64
  }

  /** The local bytes of the assignment are the remote bytes it asked for. */
  ghost predicate Arrived(cfg: Config, s: System, a: Assignment) {
    var dst := GetMr(cfg.regions, a.mrKey).addr + a.sourceOffset;
    var src := GetRemoteMr(cfg.regions, a.mrKey).addr + a.targetOffset;
    && dst + a.length <= |s.local| && src + a.length <= |cfg.remote|
    && s.local[dst..dst + a.length] == cfg.remote[src..src + a.length]
  }

  /** The one request that writes a byte of a successful assignment. */
  lemma SoleRequest(cfg: Config, s: System, sid: nat, m: nat, a: nat) returns (q: nat, i: nat)
    requires Reachable(cfg, s) && Succeeded(cfg, s, sid, m) && WritesApart(cfg, s, sid, m)
    requires Hits(TransferFor(cfg.regions, s.subs[sid].batch[m]), a)
    ensures Moved(s, q, i) && SoleWriter(s, q, i, a)
    ensures TransferOf(s.qps[q].wrs[i]) == TransferFor(cfg.regions, s.subs[sid].batch[m])
  {
    q, i := s.subs[sid].q, Slot(cfg.regions, s.subs, sid, m);
    SentSlot(cfg, s, sid, m);
    OnlyWriter(cfg, s, sid, m, a);
  }

  lemma SucceededByte(cfg: Config, s: System, sid: nat, m: nat, a: nat)
    requires Reachable(cfg, s) && Succeeded(cfg, s, sid, m) && WritesApart(cfg, s, sid, m)
    requires Hits(TransferFor(cfg.regions, s.subs[sid].batch[m]), a)
    ensures var t := TransferFor(cfg.regions, s.subs[sid].batch[m]);
      a < |s.local| && t.src + (a - t.dst) < |cfg.remote| && s.local[a] == cfg.remote[t.src + (a - t.dst)]
  {
    var q, i := SoleRequest(cfg, s, sid, m, a);
    DeliveredByte(cfg, s, q, i, a, TransferFor(cfg.regions, s.subs[sid].batch[m]));
  }

  lemma SucceededBytes(cfg: Config, s: System, sid: nat, m: nat, t: Transfer)
    requires Reachable(cfg, s) && Succeeded(cfg, s, sid, m) && WritesApart(cfg, s, sid, m)
    requires t == TransferFor(cfg.regions, s.subs[sid].batch[m])
    ensures forall a: nat :: Hits(t, a) ==>
      a < |s.local| && t.src + (a - t.dst) < |cfg.remote| && s.local[a] == cfg.remote[t.src + (a - t.dst)]
  {
    forall a: nat | Hits(t, a)
      ensures a < |s.local| && t.src + (a - t.dst) < |cfg.remote| && s.local[a] == cfg.remote[t.src + (a - t.dst)]
    {
      SucceededByte(cfg, s, sid, m, a);
    }
  }

  lemma DeliveredByte(cfg: Config, s: System, q: nat, i: nat, a: nat, t: Transfer)
    requires Reachable(cfg, s) && Moved(s, q, i) && SoleWriter(s, q, i, a) && TransferOf(s.qps[q].wrs[i]) == t && Hits(t, a)
    ensures a < |s.local| && t.src + (a - t.dst) < |cfg.remote| && s.local[a] == cfg.remote[t.src + (a - t.dst)]
  {
    DeliveredAt(cfg, s, q, i, a);
  }

  lemma SucceededFits(cfg: Config, s: System, sid: nat, m: nat)
    requires Reachable(cfg, s) && Succeeded(cfg, s, sid, m)
    ensures Fits(TransferFor(cfg.regions, s.subs[sid].batch[m]), |s.local|, |cfg.remote|) && |s.local| == |cfg.init|
  {
    ReachableMem(cfg, s);
    SentSlot(cfg, s, sid, m);
    assert Moved(s, s.subs[sid].q, Slot(cfg.regions, s.subs, sid, m));
  }

  lemma SameSlices(local: seq<Byte>, remote: seq<Byte>, t: Transfer)
    requires Fits(t, |local|, |remote|)
    requires forall a: nat :: Hits(t, a) ==> local[a] == remote[t.src + (a - t.dst)]
    ensures local[t.dst..t.dst + t.len] == remote[t.src..t.src + t.len]
  {
    var here, there := local[t.dst..t.dst + t.len], remote[t.src..t.src + t.len];
    forall k | 0 <= k < t.len
      ensures here[k] == there[k]
    {
      assert Hits(t, t.dst + k);
    }
  }

  predicate HasCopied(cfg: Config, s: System, t: Transfer) {
    Fits(t, |s.local|, |cfg.remote|) && s.local[t.dst..t.dst + t.len] == cfg.remote[t.src..t.src + t.len]
  }

  lemma SucceededCopies(cfg: Config, s: System, sid: nat, m: nat)
    requires Reachable(cfg, s) && Succeeded(cfg, s, sid, m) && WritesApart(cfg, s, sid, m)
    ensures HasCopied(cfg, s, TransferFor(cfg.regions, s.subs[sid].batch[m]))
  {
    var t := TransferFor(cfg.regions, s.subs[sid].batch[m]);
    SucceededFits(cfg, s, sid, m);
    SucceededBytes(cfg, s, sid, m, t);
    SameSlices(s.local, cfg.remote, t);
  }

  lemma SucceededArrives(cfg: Config, s: System, sid: nat, m: nat)
    requires Reachable(cfg, s) && Succeeded(cfg, s, sid, m) && WritesApart(cfg, s, sid, m)
    requires FitsFields(cfg, s.subs[sid].batch[m])
    ensures Arrived(cfg, s, s.subs[sid].batch[m])
  {
    SucceededCopies(cfg, s, sid, m);
    CopiedArrives(cfg, s, s.subs[sid].batch[m]);
  }

  lemma CopiedArrives(cfg: Config, s: System, a: Assignment)
    requires FitsFields(cfg, a) && HasCopied(cfg, s, TransferFor(cfg.regions, a))
    ensures Arrived(cfg, s, a)
  {
    PlainFields(cfg, a);
    ArrivedBy(cfg, s, a, TransferFor(cfg.regions, a));
  }

  lemma ArrivedBy(cfg: Config, s: System, a: Assignment, t: Transfer)
    requires t == Transfer(GetMr(cfg.regions, a.mrKey).addr + a.sourceOffset,
                           GetRemoteMr(cfg.regions, a.mrKey).addr + a.targetOffset, a.length)
    requires HasCopied(cfg, s, t)
    ensures Arrived(cfg, s, a)
  {
  }

  lemma PlainFields(cfg: Config, a: Assignment)
    requires FitsFields(cfg, a)
    ensures TransferFor(cfg.regions, a) == Transfer(GetMr(cfg.regions, a.mrKey).addr + a.sourceOffset,
                                                    GetRemoteMr(cfg.regions, a.mrKey).addr + a.targetOffset, a.length)
  {
  }

  lemma NotReceived(cfg: Config, s: System, sid: nat, m: nat, a: nat)
    requires Reachable(cfg, s) && IsReadAssignment(s.subs, sid, m) && WritesApart(cfg, s, sid, m)
    requires Hits(TransferFor(cfg.regions, s.subs[sid].batch[m]), a)
    ensures !Receivable(s, a)
  {
    if Receivable(s, a) {
      var sid', m' := ReceivableOrigin(cfg, s, a);
      ApartMisses(TransferFor(cfg.regions, s.subs[sid].batch[m]), TransferFor(cfg.regions, s.subs[sid'].batch[m']), a);
    }
  }

  lemma OnlyWriter(cfg: Config, s: System, sid: nat, m: nat, a: nat)
    requires Reachable(cfg, s) && Sent(s, sid, m) && WritesApart(cfg, s, sid, m)
    requires Hits(TransferFor(cfg.regions, s.subs[sid].batch[m]), a)
    ensures SoleWriter(s, s.subs[sid].q, Slot(cfg.regions, s.subs, sid, m), a)
  {
    SentSlot(cfg, s, sid, m);
    NotReceived(cfg, s, sid, m, a);
    forall p, j | Writes(s, p, j, a)
      ensures p == s.subs[sid].q && j == Slot(cfg.regions, s.subs, sid, m)
    {
      var sid', m' := RequestOrigin(cfg, s, p, j);
      SentSlot(cfg, s, sid', m');
      assert !Apart(TransferFor(cfg.regions, s.subs[sid].batch[m]), TransferFor(cfg.regions, s.subs[sid'].batch[m']));
    }
  }

  /** End-to-end delivery: when the final callback of a READ submission has run with SUCCESS,
      every assignment of the whole batch, in whichever chunk, has arrived, provided no other
      assignment, READ or RECV, writes to the same bytes. */
  lemma EndToEnd(cfg: Config, s: System, q: nat, n: nat)
    requires Reachable(cfg, s) && q < |s.qps| && n < |s.qps[q].fired|
    requires s.qps[q].fired[n].tok.chunk.last && s.qps[q].fired[n].ok
    ensures var sid := s.qps[q].fired[n].tok.chunk.sid;
      sid < |s.subs| && s.subs[sid].opcode == READ
      && forall m :: 0 <= m < |s.subs[sid].batch| && WritesApart(cfg, s, sid, m) && FitsFields(cfg, s.subs[sid].batch[m])
           ==> Arrived(cfg, s, s.subs[sid].batch[m])
  {
    SuccessExact(cfg, s, q, n);
    var sid := s.qps[q].fired[n].tok.chunk.sid;
    forall m | 0 <= m < |s.subs[sid].batch| && WritesApart(cfg, s, sid, m) && FitsFields(cfg, s.subs[sid].batch[m])
      ensures Arrived(cfg, s, s.subs[sid].batch[m])
    {
      SucceededArrives(cfg, s, sid, m);
    }
  }
}
