/** What every step keeps about one queue pair. */
module QpInvariant {
  import opened Types
  import opened Split
  import opened Chain
  import opened Tokens
  import opened Pipeline

  predicate HoldsMutex(pc: DispatcherPc) {
    pc.Locked? || pc.PredFalse? || pc.Drain? || pc.Checked? || pc.Added? || pc.Posted?
  }

  function Rest(h: Holder): seq<Chunk> {
    if h.BySubmitter? then h.rest else []
  }

  /** Chunks still to be posted: while the dispatcher is at Posted the front is already out. */
  function UnpostedAt(dpc: DispatcherPc, queue: seq<Chunk>): seq<Chunk> {
    if dpc == Posted && queue != [] then queue[1..] else queue
  }

  function Unposted(qp: Qp): seq<Chunk> {
    UnpostedAt(qp.dpc, qp.queue)
  }

  /** Credits taken for a chunk that is not posted yet. */
  function ReservedAt(dpc: DispatcherPc, queue: seq<Chunk>): nat {
    if dpc == Added && queue != [] then |queue[0].batch| else 0
  }

  function Reserved(qp: Qp): nat {
    ReservedAt(qp.dpc, qp.queue)
  }

  /** Credits a passed window test will still take. */
  function ClaimedAt(dpc: DispatcherPc, queue: seq<Chunk>): nat {
    if dpc == Checked && queue != [] then |queue[0].batch| else 0
  }

  function Claimed(qp: Qp): nat {
    ClaimedAt(qp.dpc, qp.queue)
  }

  /** Completions whose callback has not run. */
  function UncalledOf(cqd: seq<Wc>, called: bool): seq<Wc> {
    if called && cqd != [] then cqd[1..] else cqd
  }

  function Uncalled(qp: Qp): seq<Wc> {
    UncalledOf(qp.cqd, qp.called)
  }

  /** Posted requests that have not completed. */
  function Pending(wrs: seq<Wr>, status: seq<bool>): seq<Wr> {
    if |status| <= |wrs| then wrs[|status|..] else []
  }

  function Done(wrs: seq<Wr>, status: seq<bool>): seq<Wr> {
    if |status| <= |wrs| then wrs[..|status|] else wrs
  }

  function FiredToks(fired: seq<Fired>): (toks: seq<Token>)
    ensures |toks| == |fired|
  {
    seq(|fired|, i requires 0 <= i < |fired| => fired[i].tok)
  }

  /** Mutual exclusion, and no lost submission wake-up: a sleeping dispatcher with work in
      its queue has been notified, or its submitter still holds the mutex and will notify. */
  ghost predicate WqInv(w: Wq) {
    && (w.mutex.ByDispatcher? <==> HoldsMutex(w.dpc))
    && (w.dpc.Checked? || w.dpc.Added? || w.dpc.Posted? ==> w.queue != [])
    && (w.dpc.PredFalse? ==> w.queue == [])
    && (w.dpc.Asleep? && w.queue != [] && !w.mutex.BySubmitter? ==> w.notified)
    && (w.dpc.Exited? ==> w.stop)
    && w.ignored == []
  }

  ghost predicate PcInv(qp: Qp) {
    && WqInv(WqOf(qp))
    && (qp.wake ==> qp.dpc.Exited?)
    && (qp.called ==> qp.cqd != [] && qp.cqd[0].wrId.Some?)
  }

  ghost predicate SizeInv(queue: seq<Chunk>, mutex: Holder, posted: seq<Chunk>) {
    GoodChunks(queue) && GoodChunks(Rest(mutex)) && GoodChunks(posted)
  }

  /** FIFO dispatch: nothing is lost, repeated or reordered between push and post, and the
      send log is what posting those chunks in that order produces. */
  ghost predicate OrderInv(regions: Regions, q: nat, pushed: seq<Chunk>, posted: seq<Chunk>, unposted: seq<Chunk>,
                           wrs: seq<Wr>, wake: bool)
  {
    && pushed == posted + unposted
    && wrs == (if wake then SendChains(regions, q, posted) + [WAKE_WR] else SendChains(regions, q, posted))
  }

  /** The receive queue was posted in the same order, and completes in order. */
  ghost predicate RecvInv(regions: Regions, posted: seq<Chunk>, rwrs: seq<RecvWr>, rdone: nat) {
    rwrs == RecvChains(regions, posted) && rdone <= |rwrs|
  }

  /** Requests complete in order; errors are sticky; a success means the data has moved. */
  ghost predicate StatusInv(wrs: seq<Wr>, exec: seq<bool>, status: seq<bool>, failed: bool) {
    && |exec| == |wrs| && |status| <= |wrs|
    && (forall i :: 0 <= i < |status| && status[i] ==> exec[i])
    && (forall i, j :: 0 <= i < j < |status| && status[j] ==> status[i])
    && (!failed ==> forall i :: 0 <= i < |status| ==> status[i])
    && (failed ==> |status| > 0 && !status[|status| - 1])
  }

  /** A completion tells the truth about the request it names. */
  ghost predicate WcOk(q: nat, wrs: seq<Wr>, status: seq<bool>, wc: Wc) {
    && wc.qpi == q
    && (wc.recv ==> wc.wrId == None)
    && (!wc.recv ==>
          && wc.index < |status| <= |wrs| && wc.ok == status[wc.index] && wc.wrId == wrs[wc.index].wrId)
  }

  ghost predicate WcsInv(q: nat, wrs: seq<Wr>, status: seq<bool>, cqd: seq<Wc>) {
    forall i :: 0 <= i < |cqd| ==> WcOk(q, wrs, status, cqd[i])
  }

  ghost predicate FiredOk(wrs: seq<Wr>, status: seq<bool>, f: Fired) {
    f.index < |status| <= |wrs| && f.ok == status[f.index] && wrs[f.index].wrId == Some(f.tok)
  }

  ghost predicate FiredInv(wrs: seq<Wr>, status: seq<bool>, fired: seq<Fired>) {
    forall i :: 0 <= i < |fired| ==> FiredOk(wrs, status, fired[i])
  }

  ghost predicate SignalInv(q: nat, wrs: seq<Wr>) {
    forall i :: 0 <= i < |wrs| && wrs[i].wrId.Some? ==> wrs[i].signaled && wrs[i].wrId.value.qpi == q
  }

  /** Every token of a completed request is in exactly one place, in order: its callback
      has run, or its completion waits for the poller. */
  ghost predicate TokenInv(fired: seq<Fired>, uncalled: seq<Wc>, done: seq<Wr>) {
    FiredToks(fired) + WcToks(uncalled) == WrToks(done)
  }

  /** Exact credit accounting and the window. */
  ghost predicate CreditInv(outstanding: int, cqd: seq<Wc>, pending: seq<Wr>, posted: seq<Chunk>, reserved: nat,
                            claimed: nat)
  {
    && outstanding == Credits(WcToks(cqd)) + Credits(WrToks(pending)) + Leaked(posted) + reserved
    && outstanding + claimed < MAX_SEND_WR
  }

  ghost predicate QpInv(regions: Regions, q: nat, qp: Qp) {
    && PcInv(qp)
    && SizeInv(qp.queue, qp.mutex, qp.posted)
    && OrderInv(regions, q, qp.pushed, qp.posted, Unposted(qp), qp.wrs, qp.wake)
    && RecvInv(regions, qp.posted, qp.rwrs, qp.rdone)
    && StatusInv(qp.wrs, qp.exec, qp.status, qp.failed)
    && WcsInv(q, qp.wrs, qp.status, qp.cqd)
    && FiredInv(qp.wrs, qp.status, qp.fired)
    && SignalInv(q, qp.wrs)
    && TokenInv(qp.fired, Uncalled(qp), Done(qp.wrs, qp.status))
    && CreditInv(qp.outstanding, qp.cqd, Pending(qp.wrs, qp.status), qp.posted, Reserved(qp), Claimed(qp))
  }

  // ----- Dispatcher -----

  lemma WqKeeps(w: Wq, d: DispatcherStep)
    requires WqInv(w) && GoodChunks(w.queue) && GoodChunks(Rest(w.mutex)) && WqEnabled(w, d) && d != Post
    ensures var r := WqDo(w, d); WqInv(r) && GoodChunks(r.queue) && Rest(r.mutex) == Rest(w.mutex) && !w.dpc.Exited?
  {
    match d
    case Exit => case Lock => case TestPredicate => case Sleep => case Wake => case SpuriousWake => case LeaveDrain =>
    case Overflow => case CheckWindow => case Retry => case AddCredits => case Pop =>
  }

  /** No step but Post takes anything from what is still to be posted. */
  lemma WqUnposted(w: Wq, d: DispatcherStep)
    requires WqInv(w) && GoodChunks(w.queue) && WqEnabled(w, d) && d != Post
    ensures var r := WqDo(w, d); UnpostedAt(r.dpc, r.queue) == UnpostedAt(w.dpc, w.queue)
  {
    match d
    case Exit => case Lock => case TestPredicate => case Sleep => case Wake => case SpuriousWake => case LeaveDrain =>
    case Overflow => case CheckWindow => case Retry => case AddCredits => case Pop =>
  }

  /** For a counter in range the size_t comparison is the plain one. */
  lemma WindowExact(size: nat, outstanding: int)
    requires 0 <= outstanding < MAX_SEND_WR && size <= MAX_SEND_WR
    ensures WindowOpen(size, outstanding) <==> size + outstanding < MAX_SEND_WR
  {
  }

  /** The window test is the only step that makes a claim, and it makes one that fits. */
  lemma CheckCredits(w: Wq)
    requires WqEnabled(w, CheckWindow) && 0 <= w.outstanding < MAX_SEND_WR
    ensures |w.queue[0].batch| + w.outstanding < MAX_SEND_WR
  {
    WindowExact(|w.queue[0].batch|, w.outstanding);
  }

  /** The counter, the reservation and the claim move together. */
  lemma WqCredits(w: Wq, d: DispatcherStep)
    requires WqInv(w) && WqEnabled(w, d) && d != Post
    requires 0 <= w.outstanding && w.outstanding + ClaimedAt(w.dpc, w.queue) < MAX_SEND_WR
    ensures var r := WqDo(w, d);
      && r.outstanding - ReservedAt(r.dpc, r.queue) == w.outstanding - ReservedAt(w.dpc, w.queue)
      && r.outstanding + ClaimedAt(r.dpc, r.queue) < MAX_SEND_WR
  {
    match d
    case Exit => case Lock => case TestPredicate => case Sleep => case Wake => case SpuriousWake => case LeaveDrain =>
    case Overflow => case CheckWindow => CheckCredits(w);
    case Retry => case AddCredits => case Pop =>
  }

  lemma CreditsMove(outstanding: int, outstanding': int, cqd: seq<Wc>, pending: seq<Wr>, posted: seq<Chunk>,
                    reserved: nat, reserved': nat, claimed: nat, claimed': nat)
    requires CreditInv(outstanding, cqd, pending, posted, reserved, claimed)
    requires outstanding' - reserved' == outstanding - reserved && outstanding' + claimed' < MAX_SEND_WR
    ensures CreditInv(outstanding', cqd, pending, posted, reserved', claimed')
  {
  }

  /** Every dispatcher step but Post keeps the invariant. */
  lemma MoveKeeps(regions: Regions, q: nat, qp: Qp, d: DispatcherStep)
    requires QpInv(regions, q, qp) && DispatcherEnabled(qp, d) && d != Post
    ensures QpInv(regions, q, DispatcherDo(regions, q, qp, d))
  {
    var w := WqOf(qp);
    var r := WqDo(w, d);
    WqKeeps(w, d);
    WqUnposted(w, d);
    WqCredits(w, d);
    CreditsMove(qp.outstanding, r.outstanding, qp.cqd, Pending(qp.wrs, qp.status), qp.posted, Reserved(qp),
                ReservedAt(r.dpc, r.queue), Claimed(qp), ClaimedAt(r.dpc, r.queue));
  }

  lemma PostKeepsOrder(regions: Regions, q: nat, pushed: seq<Chunk>, posted: seq<Chunk>, queue: seq<Chunk>, wrs: seq<Wr>)
    requires queue != [] && OrderInv(regions, q, pushed, posted, queue, wrs, false)
    ensures OrderInv(regions, q, pushed, posted + [queue[0]], queue[1..], wrs + SendChain(regions, q, queue[0]), false)
  {
    SendChainsSnoc(regions, q, posted, queue[0]);
    assert queue == [queue[0]] + queue[1..];
  }

  lemma PostKeepsStatus(wrs: seq<Wr>, exec: seq<bool>, status: seq<bool>, failed: bool, chain: seq<Wr>)
    requires StatusInv(wrs, exec, status, failed)
    ensures StatusInv(wrs + chain, exec + NotMoved(|chain|), status, failed)
  {
  }

  lemma PostKeepsSignals(regions: Regions, q: nat, wrs: seq<Wr>, c: Chunk)
    requires SignalInv(q, wrs)
    ensures SignalInv(q, wrs + SendChain(regions, q, c))
  {
  }

  /** The posted chain takes over the credits that AddCredits reserved. */
  lemma PostCredits(regions: Regions, q: nat, pending: seq<Wr>, posted: seq<Chunk>, c: Chunk)
    requires GoodChunk(c)
    ensures Credits(WrToks(pending + SendChain(regions, q, c))) + Leaked(posted + [c])
         == Credits(WrToks(pending)) + Leaked(posted) + |c.batch|
  {
    var chain := SendChain(regions, q, c);
    WrToksConcat(pending, chain);
    CreditsConcat(WrToks(pending), WrToks(chain));
    SendChainToks(regions, q, c);
    LeakedSnoc(posted, c);
    assert [Token(c, q)][1..] == [];
  }

  lemma PostKeepsRecv(regions: Regions, posted: seq<Chunk>, rwrs: seq<RecvWr>, rdone: nat, c: Chunk)
    requires RecvInv(regions, posted, rwrs, rdone)
    ensures RecvInv(regions, posted + [c], rwrs + RecvChain(regions, c), rdone)
  {
    RecvChainsSnoc(regions, posted, c);
  }

  lemma PostKeepsSizes(queue: seq<Chunk>, mutex: Holder, posted: seq<Chunk>)
    requires SizeInv(queue, mutex, posted) && queue != []
    ensures SizeInv(queue, mutex, posted + [queue[0]])
  {
  }

  lemma PostKeepsCredits(regions: Regions, q: nat, outstanding: int, cqd: seq<Wc>, pending: seq<Wr>, posted: seq<Chunk>,
                         c: Chunk)
    requires GoodChunk(c) && CreditInv(outstanding, cqd, pending, posted, |c.batch|, 0)
    ensures CreditInv(outstanding, cqd, pending + SendChain(regions, q, c), posted + [c], 0, 0)
  {
    PostCredits(regions, q, pending, posted, c);
  }

  /** The books after a post: completions, callbacks and tokens as before, credits in flight. */
  lemma PostKeepsBooks(regions: Regions, q: nat, wrs: seq<Wr>, status: seq<bool>, cqd: seq<Wc>, fired: seq<Fired>,
                       uncalled: seq<Wc>, outstanding: int, posted: seq<Chunk>, c: Chunk, wrs': seq<Wr>)
    requires GoodChunk(c) && wrs' == wrs + SendChain(regions, q, c)
    requires |status| <= |wrs| && WcsInv(q, wrs, status, cqd) && FiredInv(wrs, status, fired)
    requires TokenInv(fired, uncalled, Done(wrs, status))
    requires CreditInv(outstanding, cqd, Pending(wrs, status), posted, |c.batch|, 0)
    ensures WcsInv(q, wrs', status, cqd) && FiredInv(wrs', status, fired)
    ensures TokenInv(fired, uncalled, Done(wrs', status))
    ensures CreditInv(outstanding, cqd, Pending(wrs', status), posted + [c], 0, 0)
  {
    LongerLog(q, wrs, SendChain(regions, q, c), status, cqd, fired);
    PostKeepsCredits(regions, q, outstanding, cqd, Pending(wrs, status), posted, c);
  }

  /** The two logs after a post. */
  lemma PostKeepsLogs(regions: Regions, q: nat, pushed: seq<Chunk>, posted: seq<Chunk>, queue: seq<Chunk>, wrs: seq<Wr>,
                      rwrs: seq<RecvWr>, rdone: nat)
    requires queue != [] && OrderInv(regions, q, pushed, posted, queue, wrs, false) && SignalInv(q, wrs)
    requires RecvInv(regions, posted, rwrs, rdone)
    ensures var c := queue[0];
      && OrderInv(regions, q, pushed, posted + [c], queue[1..], wrs + SendChain(regions, q, c), false)
      && SignalInv(q, wrs + SendChain(regions, q, c))
      && RecvInv(regions, posted + [c], rwrs + RecvChain(regions, c), rdone)
  {
    PostKeepsOrder(regions, q, pushed, posted, queue, wrs);
    PostKeepsSignals(regions, q, wrs, queue[0]);
    PostKeepsRecv(regions, posted, rwrs, rdone, queue[0]);
  }

  /** The queue pair after chunk c has gone to its two queues as `chain` and `more`. */
  function AfterPost(qp: Qp, c: Chunk, chain: seq<Wr>, more: seq<RecvWr>): Qp {
    qp.(dpc := Posted, wrs := qp.wrs + chain, exec := qp.exec + NotMoved(|chain|), rwrs := qp.rwrs + more,
        posted := qp.posted + [c])
  }

  lemma AfterPostKeeps(regions: Regions, q: nat, qp: Qp, c: Chunk, chain: seq<Wr>, more: seq<RecvWr>)
    requires QpInv(regions, q, qp) && qp.dpc == Added && qp.queue != [] && c == qp.queue[0]
    requires var r := AfterPost(qp, c, chain, more);
      && SizeInv(r.queue, r.mutex, r.posted) && OrderInv(regions, q, r.pushed, r.posted, Unposted(r), r.wrs, r.wake)
      && RecvInv(regions, r.posted, r.rwrs, r.rdone) && StatusInv(r.wrs, r.exec, r.status, r.failed)
      && WcsInv(q, r.wrs, r.status, r.cqd) && FiredInv(r.wrs, r.status, r.fired) && SignalInv(q, r.wrs)
      && TokenInv(r.fired, Uncalled(qp), Done(r.wrs, r.status))
      && CreditInv(r.outstanding, r.cqd, Pending(r.wrs, r.status), r.posted, 0, 0)
    ensures QpInv(regions, q, AfterPost(qp, c, chain, more))
  {
  }

  /** About to post, the dispatcher has reserved exactly the credits of the front chunk. */
  lemma BeforePost(regions: Regions, q: nat, qp: Qp)
    requires QpInv(regions, q, qp) && DispatcherEnabled(qp, Post)
    ensures GoodChunk(qp.queue[0]) && Unposted(qp) == qp.queue && !qp.wake
    ensures CreditInv(qp.outstanding, qp.cqd, Pending(qp.wrs, qp.status), qp.posted, |qp.queue[0].batch|, 0)
  {
  }

  lemma PostKeeps(regions: Regions, q: nat, qp: Qp)
    requires QpInv(regions, q, qp) && DispatcherEnabled(qp, Post)
    ensures QpInv(regions, q, PostDo(regions, q, qp))
  {
    var c := qp.queue[0];
    var chain := SendChain(regions, q, c);
    BeforePost(regions, q, qp);
    PostKeepsSizes(qp.queue, qp.mutex, qp.posted);
    PostKeepsLogs(regions, q, qp.pushed, qp.posted, qp.queue, qp.wrs, qp.rwrs, qp.rdone);
    PostKeepsStatus(qp.wrs, qp.exec, qp.status, qp.failed, chain);
    PostKeepsBooks(regions, q, qp.wrs, qp.status, qp.cqd, qp.fired, Uncalled(qp), qp.outstanding, qp.posted, c, qp.wrs + chain);
    AfterPostKeeps(regions, q, qp, c, chain, RecvChain(regions, c));
  }

  lemma DispatcherKeeps(regions: Regions, q: nat, qp: Qp, d: DispatcherStep)
    requires QpInv(regions, q, qp) && DispatcherEnabled(qp, d)
    ensures QpInv(regions, q, DispatcherDo(regions, q, qp, d))
  {
    if d == Post {
      PostKeeps(regions, q, qp);
    } else {
      MoveKeeps(regions, q, qp, d);
    }
  }

  // ----- Submitter and stopper -----

  lemma AcquireKeeps(regions: Regions, q: nat, qp: Qp, chunks: seq<Chunk>)
    requires QpInv(regions, q, qp) && qp.mutex == Free && GoodChunks(chunks)
    ensures QpInv(regions, q, qp.(mutex := BySubmitter(chunks)))
  {
  }

  lemma PushKeepsOrder(regions: Regions, q: nat, pushed: seq<Chunk>, posted: seq<Chunk>, dpc: DispatcherPc,
                       queue: seq<Chunk>, wrs: seq<Wr>, wake: bool, c: Chunk)
    requires OrderInv(regions, q, pushed, posted, UnpostedAt(dpc, queue), wrs, wake) && dpc != Posted
    ensures OrderInv(regions, q, pushed + [c], posted, UnpostedAt(dpc, queue + [c]), wrs, wake)
  {
    Assoc(posted, queue, [c]);
  }

  lemma PushKeepsWq(w: Wq)
    requires WqInv(w) && w.mutex.BySubmitter? && w.mutex.rest != []
    ensures WqInv(w.(mutex := BySubmitter(w.mutex.rest[1..]), queue := w.queue + [w.mutex.rest[0]]))
  {
  }

  lemma PushKeepsSizes(queue: seq<Chunk>, rest: seq<Chunk>, posted: seq<Chunk>)
    requires SizeInv(queue, BySubmitter(rest), posted) && rest != []
    ensures SizeInv(queue + [rest[0]], BySubmitter(rest[1..]), posted)
  {
  }

  lemma PushKeeps(regions: Regions, q: nat, qp: Qp)
    requires QpInv(regions, q, qp) && qp.mutex.BySubmitter? && qp.mutex.rest != []
    ensures QpInv(regions, q, PushDo(qp))
  {
    var rest := qp.mutex.rest;
    PushKeepsWq(WqOf(qp));
    PushKeepsSizes(qp.queue, rest, qp.posted);
    PushKeepsOrder(regions, q, qp.pushed, qp.posted, qp.dpc, qp.queue, qp.wrs, qp.wake, rest[0]);
  }

  lemma NotifyKeeps(regions: Regions, q: nat, qp: Qp)
    requires QpInv(regions, q, qp) && qp.mutex.BySubmitter?
    ensures QpInv(regions, q, NotifyDo(qp))
  {
  }

  lemma StopSetKeeps(regions: Regions, q: nat, qp: Qp)
    requires QpInv(regions, q, qp)
    ensures QpInv(regions, q, StopSetDo(qp))
  {
  }

  lemma StopNotifyKeeps(regions: Regions, q: nat, qp: Qp)
    requires QpInv(regions, q, qp)
    ensures QpInv(regions, q, StopNotifyDo(qp))
  {
  }

  /** A longer log says the same about the requests it already had. */
  lemma LongerLog(q: nat, wrs: seq<Wr>, more: seq<Wr>, status: seq<bool>, cqd: seq<Wc>, fired: seq<Fired>)
    requires |status| <= |wrs| && WcsInv(q, wrs, status, cqd) && FiredInv(wrs, status, fired)
    ensures WcsInv(q, wrs + more, status, cqd) && FiredInv(wrs + more, status, fired)
    ensures Done(wrs + more, status) == Done(wrs, status)
    ensures Pending(wrs + more, status) == Pending(wrs, status) + more
  {
    assert forall i :: 0 <= i < |cqd| ==> WcOk(q, wrs, status, cqd[i]);
    assert forall i :: 0 <= i < |fired| ==> FiredOk(wrs, status, fired[i]);
  }

  lemma WakeBooks(pending: seq<Wr>)
    ensures WrToks(pending + [WAKE_WR]) == WrToks(pending)
  {
    WrToksSnoc(pending, WAKE_WR);
  }

  lemma WakeKeepsLog(q: nat, wrs: seq<Wr>, exec: seq<bool>, status: seq<bool>, failed: bool)
    requires StatusInv(wrs, exec, status, failed) && SignalInv(q, wrs)
    ensures StatusInv(wrs + [WAKE_WR], exec + [false], status, failed) && SignalInv(q, wrs + [WAKE_WR])
  {
  }

  lemma WakeKeepsBooks(q: nat, wrs: seq<Wr>, status: seq<bool>, cqd: seq<Wc>, fired: seq<Fired>, uncalled: seq<Wc>,
                       outstanding: int, posted: seq<Chunk>)
    requires |status| <= |wrs| && WcsInv(q, wrs, status, cqd) && FiredInv(wrs, status, fired)
    requires TokenInv(fired, uncalled, Done(wrs, status))
    requires CreditInv(outstanding, cqd, Pending(wrs, status), posted, 0, 0)
    ensures WcsInv(q, wrs + [WAKE_WR], status, cqd) && FiredInv(wrs + [WAKE_WR], status, fired)
    ensures TokenInv(fired, uncalled, Done(wrs + [WAKE_WR], status))
    ensures CreditInv(outstanding, cqd, Pending(wrs + [WAKE_WR], status), posted, 0, 0)
  {
    LongerLog(q, wrs, [WAKE_WR], status, cqd, fired);
    WakeBooks(Pending(wrs, status));
  }

  lemma StopPostKeeps(regions: Regions, q: nat, qp: Qp)
    requires QpInv(regions, q, qp) && qp.dpc == Exited && !qp.wake
    ensures QpInv(regions, q, WakeDo(qp))
  {
    WakeKeepsLog(q, qp.wrs, qp.exec, qp.status, qp.failed);
    WakeKeepsBooks(q, qp.wrs, qp.status, qp.cqd, qp.fired, Uncalled(qp), qp.outstanding, qp.posted);
  }

  // ----- NIC -----

  lemma ExecuteKeeps(regions: Regions, q: nat, qp: Qp, i: nat)
    requires QpInv(regions, q, qp) && i < |qp.exec|
    ensures QpInv(regions, q, ExecuteDo(qp, i))
  {
  }

  /** What completing the oldest request does to the token and credit books. */
  lemma RetireBooks(q: nat, qp: Qp, ok: bool)
    requires |qp.status| < |qp.wrs| && SignalInv(q, qp.wrs)
    requires qp.called ==> qp.cqd != []
    ensures var r := RetireDo(q, qp, ok);
      var t := OptToks(qp.wrs[|qp.status|].wrId);
      && WrToks(Done(r.wrs, r.status)) == WrToks(Done(qp.wrs, qp.status)) + t
      && WrToks(Pending(qp.wrs, qp.status)) == t + WrToks(Pending(r.wrs, r.status))
      && WcToks(r.cqd) == WcToks(qp.cqd) + t
      && WcToks(Uncalled(r)) == WcToks(Uncalled(qp)) + t
  {
    var r := RetireDo(q, qp, ok);
    var i := |qp.status|;
    var w := qp.wrs[i];
    assert qp.wrs[..i + 1] == qp.wrs[..i] + [w];
    WrToksSnoc(qp.wrs[..i], w);
    assert Pending(qp.wrs, qp.status)[0] == w && Pending(qp.wrs, qp.status)[1..] == Pending(r.wrs, r.status);
    if Reports(qp, ok) {
      var wc := RetireWc(q, qp, ok);
      WcToksSnoc(qp.cqd, wc);
      WcToksSnoc(Uncalled(qp), wc);
      assert Uncalled(r) == Uncalled(qp) + [wc];
    } else {
      assert r.cqd == qp.cqd;
    }
  }

  lemma RetireKeepsReports(q: nat, qp: Qp, ok: bool)
    requires |qp.status| < |qp.wrs|
    requires WcsInv(q, qp.wrs, qp.status, qp.cqd) && FiredInv(qp.wrs, qp.status, qp.fired)
    ensures var r := RetireDo(q, qp, ok); WcsInv(q, r.wrs, r.status, r.cqd) && FiredInv(r.wrs, r.status, r.fired)
  {
    assert forall i :: 0 <= i < |qp.cqd| ==> WcOk(q, qp.wrs, qp.status, qp.cqd[i]);
    assert forall i :: 0 <= i < |qp.fired| ==> FiredOk(qp.wrs, qp.status, qp.fired[i]);
  }

  /** Moving the tokens t from the pending side of the log to the unhandled completions. */
  lemma MoveTokens(fired: seq<Fired>, uncalled: seq<Wc>, uncalled': seq<Wc>, done: seq<Wr>, done': seq<Wr>, t: seq<Token>)
    requires TokenInv(fired, uncalled, done)
    requires WcToks(uncalled') == WcToks(uncalled) + t && WrToks(done') == WrToks(done) + t
    ensures TokenInv(fired, uncalled', done')
  {
    Assoc(FiredToks(fired), WcToks(uncalled), t);
  }

  lemma MoveCredits(cqd: seq<Wc>, cqd': seq<Wc>, pending: seq<Wr>, pending': seq<Wr>, t: seq<Token>)
    requires WcToks(cqd') == WcToks(cqd) + t && WrToks(pending) == t + WrToks(pending')
    ensures Credits(WcToks(cqd')) + Credits(WrToks(pending')) == Credits(WcToks(cqd)) + Credits(WrToks(pending))
  {
    CreditsConcat(t, WrToks(pending'));
    CreditsConcat(WcToks(cqd), t);
  }

  lemma RetireKeepsStatus(wrs: seq<Wr>, exec: seq<bool>, status: seq<bool>, failed: bool, ok: bool)
    requires StatusInv(wrs, exec, status, failed) && |status| < |wrs| && (ok ==> !failed && exec[|status|])
    ensures StatusInv(wrs, exec, status + [ok], failed || !ok)
  {
  }

  lemma RetireKeeps(regions: Regions, q: nat, qp: Qp, ok: bool)
    requires QpInv(regions, q, qp) && |qp.status| < |qp.wrs|
    requires ok ==> !qp.failed && qp.exec[|qp.status|]
    ensures QpInv(regions, q, RetireDo(q, qp, ok))
  {
    var r := RetireDo(q, qp, ok);
    var t := OptToks(qp.wrs[|qp.status|].wrId);
    RetireBooks(q, qp, ok);
    RetireKeepsReports(q, qp, ok);
    RetireKeepsStatus(qp.wrs, qp.exec, qp.status, qp.failed, ok);
    MoveTokens(qp.fired, Uncalled(qp), Uncalled(r), Done(qp.wrs, qp.status), Done(r.wrs, r.status), t);
    MoveCredits(qp.cqd, r.cqd, Pending(qp.wrs, qp.status), Pending(r.wrs, r.status), t);
  }

  lemma RecvBooks(cqd: seq<Wc>, called: bool, wc: Wc)
    requires wc.wrId == None && (called ==> cqd != [])
    ensures WcToks(cqd + [wc]) == WcToks(cqd) && WcToks(UncalledOf(cqd + [wc], called)) == WcToks(UncalledOf(cqd, called))
  {
    WcToksSnoc(cqd, wc);
    WcToksSnoc(UncalledOf(cqd, called), wc);
    assert UncalledOf(cqd + [wc], called) == UncalledOf(cqd, called) + [wc];
  }

  lemma RecvKeepsReports(q: nat, wrs: seq<Wr>, status: seq<bool>, cqd: seq<Wc>, wc: Wc)
    requires WcsInv(q, wrs, status, cqd) && wc.recv && wc.qpi == q && wc.wrId == None
    ensures WcsInv(q, wrs, status, cqd + [wc])
  {
  }

  lemma RecvKeeps(regions: Regions, q: nat, qp: Qp, ok: bool)
    requires QpInv(regions, q, qp) && qp.rdone < |qp.rwrs|
    ensures QpInv(regions, q, RecvDo(q, qp, ok))
  {
    RecvBooks(qp.cqd, qp.called, RecvWc(q, ok));
    RecvKeepsReports(q, qp.wrs, qp.status, qp.cqd, RecvWc(q, ok));
  }

  // ----- Poller -----

  lemma HandledReports(q: nat, wrs: seq<Wr>, status: seq<bool>, cqd: seq<Wc>)
    requires WcsInv(q, wrs, status, cqd) && cqd != []
    ensures WcsInv(q, wrs, status, cqd[1..])
  {
  }

  lemma SkipKeeps(regions: Regions, q: nat, qp: Qp)
    requires QpInv(regions, q, qp) && qp.cqd != [] && !qp.called && qp.cqd[0].wrId == None
    ensures QpInv(regions, q, HandledDo(qp))
  {
    HandledReports(q, qp.wrs, qp.status, qp.cqd);
    assert WcToks(qp.cqd) == WcToks(qp.cqd[1..]);
  }

  lemma CallbackKeepsTokens(fired: seq<Fired>, cqd: seq<Wc>, done: seq<Wr>, f: Fired)
    requires TokenInv(fired, cqd, done) && cqd != [] && cqd[0].wrId == Some(f.tok)
    ensures TokenInv(fired + [f], cqd[1..], done)
  {
    assert FiredToks(fired + [f]) == FiredToks(fired) + [f.tok];
    assert WcToks(cqd) == [f.tok] + WcToks(cqd[1..]);
    Assoc(FiredToks(fired), [f.tok], WcToks(cqd[1..]));
  }

  /** Only a request's own completion carries a token, and tells the truth about it. */
  lemma CallbackTold(q: nat, wrs: seq<Wr>, status: seq<bool>, fired: seq<Fired>, cqd: seq<Wc>, tok: Token)
    requires WcsInv(q, wrs, status, cqd) && FiredInv(wrs, status, fired) && cqd != [] && cqd[0].wrId == Some(tok)
    ensures FiredInv(wrs, status, fired + [Fired(tok, cqd[0].ok, cqd[0].index)])
  {
    assert WcOk(q, wrs, status, cqd[0]);
  }

  lemma CallbackKeeps(regions: Regions, q: nat, qp: Qp, tok: Token)
    requires QpInv(regions, q, qp) && qp.cqd != [] && !qp.called && qp.cqd[0].wrId == Some(tok)
    ensures QpInv(regions, q, CallbackDo(qp, tok, qp.cqd[0]))
  {
    CallbackTold(q, qp.wrs, qp.status, qp.fired, qp.cqd, tok);
    CallbackKeepsTokens(qp.fired, qp.cqd, Done(qp.wrs, qp.status), Fired(tok, qp.cqd[0].ok, qp.cqd[0].index));
  }

  lemma SubtractKeepsCredits(outstanding: int, cqd: seq<Wc>, pending: seq<Wr>, posted: seq<Chunk>, reserved: nat,
                             claimed: nat, tok: Token)
    requires CreditInv(outstanding, cqd, pending, posted, reserved, claimed) && cqd != [] && cqd[0].wrId == Some(tok)
    ensures CreditInv(outstanding - |tok.chunk.batch|, cqd[1..], pending, posted, reserved, claimed)
  {
    assert WcToks(cqd) == [tok] + WcToks(cqd[1..]);
    CreditsConcat([tok], WcToks(cqd[1..]));
    assert [tok][1..] == [];
  }

  lemma SubtractKeeps(regions: Regions, q: nat, qp: Qp, tok: Token)
    requires QpInv(regions, q, qp) && qp.called && qp.cqd[0].wrId == Some(tok)
    ensures QpInv(regions, q, SubtractDo(qp, tok))
  {
    HandledReports(q, qp.wrs, qp.status, qp.cqd);
    SubtractKeepsCredits(qp.outstanding, qp.cqd, Pending(qp.wrs, qp.status), qp.posted, Reserved(qp), Claimed(qp), tok);
  }
}
