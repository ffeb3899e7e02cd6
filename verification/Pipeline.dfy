/** The RDMA pipeline as a transition system.  Submitters, one dispatcher per QP, the NIC,
    the completion poller and the thread that stops them all take the steps below, in any
    order.  Every access to shared state that the source makes separately is a step of its
    own: the window check, the counter add, the post, the execution and the completion of a
    request, the poll, the callback, the counter subtract, the stop flag and its notification. */
module Pipeline {
  import opened Types
  import opened Split
  import opened Chain
  import opened Memory

  /** Who holds assign_queue_mutex_; a submitter still has `rest` to push. */
  datatype Holder = Free | BySubmitter(rest: seq<Chunk>) | ByDispatcher

  /** Where wq_dispatch_handle stands.
      Top: at the outer loop test.          Locked: mutex taken, about to test the predicate.
      PredFalse: predicate false, mutex still held.   Asleep: in the condition variable.
      Drain: at the inner loop test.        Checked: window test passed.
      Added: counter raised.                Posted: requests posted, chunk not yet popped. */
  datatype DispatcherPc = Top | Locked | PredFalse | Asleep | Drain | Checked | Added | Posted | Exited

  datatype DispatcherStep = Exit | Lock | TestPredicate | Sleep | Wake | SpuriousWake | LeaveDrain
                          | Overflow | CheckWindow | Retry | AddCredits | Post | Pop

  /** A callback that has run: the chunk it belongs to, the status it got, and the send-log
      index of the completion that caused it. */
  datatype Fired = Fired(tok: Token, ok: bool, index: nat)

  /** qp_management_t, the dispatcher bound to it, and the NIC's half of the queue pair.
      The send queue is the log `wrs` of everything ever posted; the first |status| requests
      have completed, so wrs[|status|..] are the occupied slots.  `exec` marks the requests
      whose data has moved.  The receive queue is the log `rwrs`, of which the first `rdone`
      have completed.
      The last block records history and is never read by an enabling condition:
      chunks pushed and posted so far, completions of this QP not yet handled by the poller
      (`cqd`; `called` when the head's callback has run but its credits are still out),
      callbacks run, chunks dropped by the overflow branch, and whether the stop request is
      in the log. */
  datatype Qp = Qp(
    queue: seq<Chunk>, outstanding: int, mutex: Holder, dpc: DispatcherPc, notified: bool, stop: bool,
    wrs: seq<Wr>, exec: seq<bool>, status: seq<bool>, failed: bool, rwrs: seq<RecvWr>, rdone: nat,
    pushed: seq<Chunk>, posted: seq<Chunk>, cqd: seq<Wc>, called: bool, fired: seq<Fired>,
    ignored: seq<Chunk>, wake: bool)

  /** The part of a queue pair that its dispatcher changes between two posts. */
  datatype Wq = Wq(queue: seq<Chunk>, outstanding: int, mutex: Holder, dpc: DispatcherPc, notified: bool, stop: bool,
                   ignored: seq<Chunk>)

  function WqOf(qp: Qp): Wq {
    Wq(qp.queue, qp.outstanding, qp.mutex, qp.dpc, qp.notified, qp.stop, qp.ignored)
  }

  function SetWq(qp: Qp, w: Wq): Qp {
    qp.(queue := w.queue, outstanding := w.outstanding, mutex := w.mutex, dpc := w.dpc, notified := w.notified,
        stop := w.stop, ignored := w.ignored)
  }

  /** Where cq_poll_handle stands.
      AtTop: at the outer loop test.  AtGet: in ibv_get_cq_event.  GotEvent: before re-arming.
      AtPoll: before ibv_poll_cq.     Handling: entries left of the polled block; `called`
      when the callback of the first has run.   Returned: with polled entries it dropped. */
  datatype PollerPc = AtTop | AtGet | GotEvent | AtPoll | Handling(wcs: seq<Wc>, called: bool) | Returned(dropped: seq<Wc>)

  /** In each turn of its first loop stop_future sets the flag, notifies, and joins. */
  datatype StopTurn = Untold | Flagged | Told

  /** Where stop_future stands: Joining(k, turn) is in the k-th turn of its first loop. */
  datatype StopPc = Running | Joining(k: nat, turn: StopTurn) | CqStopped | CqArmed | WakePosted

  datatype Submission = Submission(q: nat, opcode: OpCode, batch: seq<Assignment>)

  datatype System = System(
    qps: seq<Qp>, cq: seq<Wc>, armed: bool, events: nat, ppc: PollerPc, stopCq: bool, spc: StopPc,
    local: seq<Byte>, subs: seq<Submission>)

  /** What does not change during a run: the registered regions, the peer's memory, and our
      memory at the start. */
  datatype Config = Config(regions: Regions, remote: seq<Byte>, init: seq<Byte>)

  datatype Step =
    | Acquire(q: nat, opcode: OpCode, batch: seq<Assignment>) | Push(q: nat) | Notify(q: nat)
    | Dispatch(q: nat, d: DispatcherStep)
    | Execute(q: nat, i: nat) | Complete(q: nat) | Fail(q: nat) | Place(q: nat, i: nat, from: nat, to: nat)
    | Land(q: nat, data: seq<Byte>) | CompleteRecv(q: nat, ok: bool)
    | TestStop | GetEvent | Rearm | PollSome(n: nat) | PollNone | Skip | Callback | Subtract | EndBlock
    | StopBegin | StopSet | StopNotify | StopJoin | StopCq | StopArm | StopPost

  predicate OfSubmitter(step: Step) {
    step.Acquire? || step.Push? || step.Notify?
  }

  predicate OfNic(step: Step) {
    step.Execute? || step.Complete? || step.Fail? || step.Place? || step.Land? || step.CompleteRecv?
  }

  predicate OfPoller(step: Step) {
    step.TestStop? || step.GetEvent? || step.Rearm? || step.PollSome? || step.PollNone? || step.Skip? || step.Callback?
    || step.Subtract? || step.EndBlock?
  }

  predicate OfStopper(step: Step) {
    step.StopBegin? || step.StopSet? || step.StopNotify? || step.StopJoin? || step.StopCq? || step.StopArm? || step.StopPost?
  }

  // ----- Initial state: connect has armed the CQ, launch_future has started the threads -----

  const INIT_QP: Qp := Qp([], 0, Free, Top, false, false, [], [], [], false, [], 0, [], [], [], false, [], [], false)

  function Init(cfg: Config): System {
    System([INIT_QP, INIT_QP, INIT_QP, INIT_QP], [], true, 0, AtTop, false, Running, cfg.init, [])
  }

  // ----- Dispatcher -----

  /** The int counter as it enters the size_t comparison. */
  function AsSizeT(x: int): nat
    requires -0x8000_0000 <= x
  {
    if x < 0 then x + 0x1_0000_0000_0000_0000 else x
  }

  /** batch_size + outstanding < MAX_SEND_WR, in size_t arithmetic. */
  predicate WindowOpen(size: nat, outstanding: int) {
    -0x8000_0000 <= outstanding
    && var sum := size + AsSizeT(outstanding);
       (if sum < 0x1_0000_0000_0000_0000 then sum else sum - 0x1_0000_0000_0000_0000) < MAX_SEND_WR
  }

  predicate WqEnabled(w: Wq, d: DispatcherStep) {
    match d
    case Exit => w.dpc == Top && w.stop
    case Lock => w.dpc == Top && !w.stop && w.mutex == Free
    case TestPredicate => w.dpc == Locked
    case Sleep => w.dpc == PredFalse
    case Wake => w.dpc == Asleep && w.notified && w.mutex == Free
    case SpuriousWake => w.dpc == Asleep && w.mutex == Free
    case LeaveDrain => w.dpc == Drain && w.queue == []
    case Overflow => w.dpc == Drain && w.queue != [] && |w.queue[0].batch| > MAX_SEND_WR
    case CheckWindow => w.dpc == Drain && w.queue != [] && |w.queue[0].batch| <= MAX_SEND_WR
                        && WindowOpen(|w.queue[0].batch|, w.outstanding)
    case Retry => w.dpc == Drain && w.queue != [] && |w.queue[0].batch| <= MAX_SEND_WR
                  && !WindowOpen(|w.queue[0].batch|, w.outstanding)
    case AddCredits => w.dpc == Checked && w.queue != []
    case Post => w.dpc == Added && w.queue != []
    case Pop => w.dpc == Posted && w.queue != []
  }

  /** Every step but Post. */
  function WqDo(w: Wq, d: DispatcherStep): Wq
    requires WqEnabled(w, d) && d != Post
  {
    match d
    case Exit => w.(dpc := Exited)
    case Lock => w.(dpc := Locked, mutex := ByDispatcher)
    case TestPredicate =>
      if w.stop then w.(dpc := Exited, mutex := Free)
      else if w.queue != [] then w.(dpc := Drain)
      else w.(dpc := PredFalse)
    case Sleep => w.(dpc := Asleep, mutex := Free, notified := false)
    case Wake => w.(dpc := Locked, mutex := ByDispatcher, notified := false)
    case SpuriousWake => w.(dpc := Locked, mutex := ByDispatcher, notified := false)
    case LeaveDrain => w.(dpc := Top, mutex := Free)
    case Overflow => w.(queue := w.queue[1..], ignored := w.ignored + [w.queue[0]])
    case CheckWindow => w.(dpc := Checked)
    case Retry => w
    case AddCredits => w.(dpc := Added, outstanding := w.outstanding + |w.queue[0].batch|)
    case Pop => w.(dpc := Drain, queue := w.queue[1..])
  }

  /** The marks of n requests whose data has not moved. */
  function NotMoved(n: nat): (marks: seq<bool>)
    ensures |marks| == n && forall i :: 0 <= i < n ==> !marks[i]
  {
    seq(n, _ => false)
  }

  /** The front chunk's requests go to the send queue or the receive queue. */
  function PostDo(regions: Regions, q: nat, qp: Qp): Qp
    requires qp.queue != []
  {
    var c := qp.queue[0];
    var chain := SendChain(regions, q, c);
    qp.(dpc := Posted, wrs := qp.wrs + chain, exec := qp.exec + NotMoved(|chain|),
        rwrs := qp.rwrs + RecvChain(regions, c), posted := qp.posted + [c])
  }

  predicate DispatcherEnabled(qp: Qp, d: DispatcherStep) {
    WqEnabled(WqOf(qp), d)
  }

  function DispatcherDo(regions: Regions, q: nat, qp: Qp, d: DispatcherStep): Qp
    requires DispatcherEnabled(qp, d)
  {
    if d == Post then PostDo(regions, q, qp) else SetWq(qp, WqDo(WqOf(qp), d))
  }

  // ----- Submitter -----

  function PushDo(qp: Qp): Qp
    requires qp.mutex.BySubmitter? && qp.mutex.rest != []
  {
    var c := qp.mutex.rest[0];
    qp.(mutex := BySubmitter(qp.mutex.rest[1..]), queue := qp.queue + [c], pushed := qp.pushed + [c])
  }

  function NotifyDo(qp: Qp): Qp {
    qp.(mutex := Free, notified := qp.notified || qp.dpc == Asleep)
  }

  // ----- Stopper -----

  function StopSetDo(qp: Qp): Qp {
    qp.(stop := true)
  }

  function StopNotifyDo(qp: Qp): Qp {
    qp.(notified := qp.notified || qp.dpc == Asleep)
  }

  function WakeDo(qp: Qp): Qp {
    qp.(wrs := qp.wrs + [WAKE_WR], exec := qp.exec + [false], wake := true)
  }

  // ----- NIC -----

  /** What a read request does to memory. */
  function TransferOf(w: Wr): Transfer {
    Transfer(w.laddr, w.raddr, w.length)
  }

  /** The NIC checks keys: bytes it touches lie in a region registered under the request's key,
      here for lkey, at the peer for rkey. */
  predicate LocalAccess(regions: Regions, lkey: nat, addr: nat, len: nat) {
    exists key :: key in regions.mrs && InLocal(regions.mrs[key], lkey, addr, len)
  }

  predicate InLocal(mr: Mr, lkey: nat, addr: nat, len: nat) {
    mr.lkey == lkey && mr.addr <= addr && addr + len <= mr.addr + mr.length
  }

  predicate RemoteAccess(regions: Regions, rkey: nat, addr: nat, len: nat) {
    exists key :: key in regions.remoteMrs && InRemote(regions.remoteMrs[key], rkey, addr, len)
  }

  predicate InRemote(mr: RemoteMr, rkey: nat, addr: nat, len: nat) {
    mr.rkey == rkey && mr.addr <= addr && addr + len <= mr.addr + mr.length
  }

  /** Bytes from..to of a request: all of a SEND's side is local. */
  predicate Admits(regions: Regions, w: Wr, from: nat, to: nat) {
    && from <= to && LocalAccess(regions, w.lkey, w.laddr + from, to - from)
    && (w.opcode == READ ==> RemoteAccess(regions, w.rkey, w.raddr + from, to - from))
  }

  /** Data of request i may move, in any order, while the QP is in order; an access that the
      keys do not allow, or outside either memory, can only fail. */
  predicate CanExecute(cfg: Config, s: System, q: nat, i: nat) {
    && q < |s.qps| && |s.qps[q].exec| == |s.qps[q].wrs|
    && |s.qps[q].status| <= i < |s.qps[q].wrs| && !s.qps[q].exec[i] && !s.qps[q].failed
    && Admits(cfg.regions, s.qps[q].wrs[i], 0, s.qps[q].wrs[i].length)
    && (s.qps[q].wrs[i].opcode == READ ==> Fits(TransferOf(s.qps[q].wrs[i]), |s.local|, |cfg.remote|))
  }

  /** Before request i has moved its data as a whole, any part of it may already be in place;
      an error leaves it at that. */
  predicate CanPlace(cfg: Config, s: System, q: nat, i: nat, from: nat, to: nat) {
    && q < |s.qps| && |s.qps[q].exec| == |s.qps[q].wrs|
    && |s.qps[q].status| <= i < |s.qps[q].wrs| && !s.qps[q].exec[i] && !s.qps[q].failed
    && s.qps[q].wrs[i].opcode == READ && from <= to <= s.qps[q].wrs[i].length
    && Admits(cfg.regions, s.qps[q].wrs[i], from, to)
    && Fits(Part(TransferOf(s.qps[q].wrs[i]), from, to), |s.local|, |cfg.remote|)
  }

  /** Bytes of a peer's message go to the oldest buffer in the receive queue. */
  predicate CanLand(cfg: Config, s: System, q: nat, data: seq<Byte>) {
    && q < |s.qps| && s.qps[q].rdone < |s.qps[q].rwrs|
    && |data| <= s.qps[q].rwrs[s.qps[q].rdone].length
    && LocalAccess(cfg.regions, s.qps[q].rwrs[s.qps[q].rdone].lkey, s.qps[q].rwrs[s.qps[q].rdone].laddr, |data|)
    && s.qps[q].rwrs[s.qps[q].rdone].laddr + |data| <= |s.local|
  }

  function ExecuteDo(qp: Qp, i: nat): Qp
    requires i < |qp.exec|
  {
    qp.(exec := qp.exec[i := true])
  }

  function RecvWc(q: nat, ok: bool): Wc {
    Wc(q, true, 0, ok, None)
  }

  function RecvDo(q: nat, qp: Qp, ok: bool): Qp {
    qp.(rdone := qp.rdone + 1, cqd := qp.cqd + [RecvWc(q, ok)])
  }

  /** Completing the oldest outstanding request.  An error is sticky and flushes the rest. */
  function RetireDo(q: nat, qp: Qp, ok: bool): Qp
    requires |qp.status| < |qp.wrs|
  {
    qp.(status := qp.status + [ok], failed := qp.failed || !ok,
        cqd := qp.cqd + if Reports(qp, ok) then [RetireWc(q, qp, ok)] else [])
  }

  function RetireWc(q: nat, qp: Qp, ok: bool): Wc
    requires |qp.status| < |qp.wrs|
  {
    Wc(q, false, |qp.status|, ok, qp.wrs[|qp.status|].wrId)
  }

  /** A success is reported when signalled, an error always. */
  predicate Reports(qp: Qp, ok: bool)
    requires |qp.status| < |qp.wrs|
  {
    !ok || qp.wrs[|qp.status|].signaled
  }

  /** A new entry raises one event if the CQ is armed, and disarms it. */
  function AddWc(s: System, wc: Wc): System {
    s.(cq := s.cq + [wc], armed := false, events := s.events + if s.armed then 1 else 0)
  }

  function SetQp(s: System, q: nat, qp: Qp): System
    requires q < |s.qps|
  {
    s.(qps := s.qps[q := qp])
  }

  function Retire(s: System, q: nat, ok: bool): System
    requires q < |s.qps| && |s.qps[q].status| < |s.qps[q].wrs|
  {
    var qp := s.qps[q];
    var s1 := SetQp(s, q, RetireDo(q, qp, ok));
    if Reports(qp, ok) then AddWc(s1, RetireWc(q, qp, ok)) else s1
  }

  // ----- Poller -----

  function HandledDo(qp: Qp): Qp {
    qp.(cqd := if qp.cqd == [] then [] else qp.cqd[1..], called := false)
  }

  function CallbackDo(qp: Qp, tok: Token, wc: Wc): Qp {
    qp.(fired := qp.fired + [Fired(tok, wc.ok, wc.index)], called := true)
  }

  function SubtractDo(qp: Qp, tok: Token): Qp {
    HandledDo(qp).(outstanding := qp.outstanding - |tok.chunk.batch|)
  }

  predicate AtEntry(s: System) {
    s.ppc.Handling? && s.ppc.wcs != []
  }

  // ----- All steps -----

  predicate Enabled(cfg: Config, s: System, step: Step) {
    match step
    case Acquire(q, opcode, batch) => q < |s.qps| && s.qps[q].mutex == Free && Registered(cfg.regions, batch)
    case Push(q) => q < |s.qps| && s.qps[q].mutex.BySubmitter? && s.qps[q].mutex.rest != []
    case Notify(q) => q < |s.qps| && s.qps[q].mutex.BySubmitter? && s.qps[q].mutex.rest == []
    case Dispatch(q, d) => q < |s.qps| && DispatcherEnabled(s.qps[q], d)
    case Execute(q, i) => CanExecute(cfg, s, q, i)
    case Complete(q) =>
      && q < |s.qps| && |s.qps[q].status| < |s.qps[q].wrs| && |s.qps[q].exec| == |s.qps[q].wrs|
      && !s.qps[q].failed && s.qps[q].exec[|s.qps[q].status|]
    case Fail(q) => q < |s.qps| && |s.qps[q].status| < |s.qps[q].wrs|
    case Place(q, i, from, to) => CanPlace(cfg, s, q, i, from, to)
    case Land(q, data) => CanLand(cfg, s, q, data)
    case CompleteRecv(q, ok) => q < |s.qps| && s.qps[q].rdone < |s.qps[q].rwrs|
    case TestStop => s.ppc == AtTop
    case GetEvent => s.ppc == AtGet && s.events > 0
    case Rearm => s.ppc == GotEvent
    case PollSome(n) => s.ppc == AtPoll && 1 <= n <= Min(POLL_COUNT, |s.cq|)
    case PollNone => s.ppc == AtPoll && s.cq == []
    case Skip => AtEntry(s) && !s.ppc.called && s.ppc.wcs[0].wrId == None && s.ppc.wcs[0].qpi < |s.qps|
    case Callback =>
      AtEntry(s) && !s.ppc.called && s.ppc.wcs[0].wrId.Some? && s.ppc.wcs[0].wrId.value.qpi < |s.qps|
    case Subtract =>
      AtEntry(s) && s.ppc.called && s.ppc.wcs[0].wrId.Some? && s.ppc.wcs[0].wrId.value.qpi < |s.qps|
    case EndBlock => s.ppc == Handling([], false)
    case StopBegin => s.spc == Running
    case StopSet => s.spc.Joining? && s.spc.k < |s.qps| && s.spc.turn == Untold
    case StopNotify => s.spc.Joining? && s.spc.k < |s.qps| && s.spc.turn == Flagged
    case StopJoin => s.spc.Joining? && s.spc.k < |s.qps| && s.spc.turn == Told && s.qps[s.spc.k].dpc == Exited
    case StopCq => s.spc.Joining? && s.spc.k == |s.qps|
    case StopArm => s.spc == CqStopped
    case StopPost => s.spc == CqArmed && |s.qps| > 0
  }

  /** What a step does to a memory of our size. */
  function MemoryAfter(cfg: Config, s: System, step: Step, mem: seq<Byte>): (out: seq<Byte>)
    requires Enabled(cfg, s, step) && |mem| == |s.local|
    ensures |out| == |mem|
  {
    match step
    case Execute(q, i) =>
      if s.qps[q].wrs[i].opcode == READ then Copied(mem, cfg.remote, TransferOf(s.qps[q].wrs[i])) else mem
    case Place(q, i, from, to) => Copied(mem, cfg.remote, Part(TransferOf(s.qps[q].wrs[i]), from, to))
    case Land(q, data) => Written(mem, s.qps[q].rwrs[s.qps[q].rdone].laddr, data)
    case _ => mem
  }

  function Do(cfg: Config, s: System, step: Step): System
    requires Enabled(cfg, s, step)
  {
    match step
    case Acquire(q, opcode, batch) =>
      SetQp(s, q, s.qps[q].(mutex := BySubmitter(Chunks(|s.subs|, opcode, batch))))
      .(subs := s.subs + [Submission(q, opcode, batch)])
    case Push(q) => SetQp(s, q, PushDo(s.qps[q]))
    case Notify(q) => SetQp(s, q, NotifyDo(s.qps[q]))
    case Dispatch(q, d) => SetQp(s, q, DispatcherDo(cfg.regions, q, s.qps[q], d))
    case Execute(q, i) => SetQp(s, q, ExecuteDo(s.qps[q], i)).(local := MemoryAfter(cfg, s, step, s.local))
    case Complete(q) => Retire(s, q, true)
    case Fail(q) => Retire(s, q, false)
    case Place(_, _, _, _) => s.(local := MemoryAfter(cfg, s, step, s.local))
    case Land(_, _) => s.(local := MemoryAfter(cfg, s, step, s.local))
    case CompleteRecv(q, ok) => AddWc(SetQp(s, q, RecvDo(q, s.qps[q], ok)), RecvWc(q, ok))
    case TestStop => s.(ppc := if s.stopCq then Returned([]) else AtGet)
    case GetEvent => s.(ppc := GotEvent, events := s.events - 1)
    case Rearm => s.(ppc := AtPoll, armed := true)
    case PollSome(n) =>
      s.(cq := s.cq[n..], ppc := if s.stopCq then Returned(s.cq[..n]) else Handling(s.cq[..n], false))
    case PollNone => s.(ppc := AtTop)
    case Skip =>
      var wc := s.ppc.wcs[0];
      SetQp(s, wc.qpi, HandledDo(s.qps[wc.qpi])).(ppc := Handling(s.ppc.wcs[1..], false))
    case Callback =>
      var wc := s.ppc.wcs[0];
      var tok := wc.wrId.value;
      SetQp(s, tok.qpi, CallbackDo(s.qps[tok.qpi], tok, wc)).(ppc := Handling(s.ppc.wcs, true))
    case Subtract =>
      var tok := s.ppc.wcs[0].wrId.value;
      SetQp(s, tok.qpi, SubtractDo(s.qps[tok.qpi], tok)).(ppc := Handling(s.ppc.wcs[1..], false))
    case EndBlock => s.(ppc := AtPoll)
    case StopBegin => s.(spc := Joining(0, Untold))
    case StopSet => SetQp(s, s.spc.k, StopSetDo(s.qps[s.spc.k])).(spc := Joining(s.spc.k, Flagged))
    case StopNotify => SetQp(s, s.spc.k, StopNotifyDo(s.qps[s.spc.k])).(spc := Joining(s.spc.k, Told))
    case StopJoin => s.(spc := Joining(s.spc.k + 1, Untold))
    case StopCq => s.(spc := CqStopped, stopCq := true)
    case StopArm => s.(spc := CqArmed, armed := true)
    case StopPost => SetQp(s, 0, WakeDo(s.qps[0])).(spc := WakePosted)
  }

  ghost predicate Next(cfg: Config, s: System, step: Step, s': System) {
    Enabled(cfg, s, step) && s' == Do(cfg, s, step)
  }

  /** states[0], states[1], ... is a run taking the given steps. */
  ghost predicate IsRun(cfg: Config, states: seq<System>, steps: seq<Step>) {
    && |states| == |steps| + 1
    && forall i :: 0 <= i < |steps| ==> Next(cfg, states[i], steps[i], states[i + 1])
  }

  ghost predicate Reachable(cfg: Config, s: System) {
    exists states, steps :: IsRun(cfg, states, steps) && states[0] == Init(cfg) && states[|steps|] == s
  }

  lemma InitReachable(cfg: Config)
    ensures Reachable(cfg, Init(cfg))
  {
    assert IsRun(cfg, [Init(cfg)], []);
  }

  lemma RunSnoc(cfg: Config, states: seq<System>, steps: seq<Step>, step: Step, s': System)
    requires IsRun(cfg, states, steps) && Next(cfg, states[|steps|], step, s')
    ensures IsRun(cfg, states + [s'], steps + [step])
  {
    forall i | 0 <= i < |steps| + 1
      ensures Next(cfg, (states + [s'])[i], (steps + [step])[i], (states + [s'])[i + 1])
    {
      if i < |steps| {
        assert Next(cfg, states[i], steps[i], states[i + 1]);
      }
    }
  }

  lemma StepReachable(cfg: Config, s: System, step: Step, s': System)
    requires Reachable(cfg, s) && Next(cfg, s, step, s')
    ensures Reachable(cfg, s')
  {
    var states, steps :| IsRun(cfg, states, steps) && states[0] == Init(cfg) && states[|steps|] == s;
    RunSnoc(cfg, states, steps, step, s');
  }

  /** What every step keeps holds all along a run. */
  lemma {:induction false} RunKeeps(cfg: Config, holds: System -> bool, states: seq<System>, steps: seq<Step>, i: nat)
    requires IsRun(cfg, states, steps) && holds(states[0]) && i <= |steps|
    requires forall s, step, s' :: holds(s) && Next(cfg, s, step, s') ==> holds(s')
    ensures holds(states[i])
  {
    if i > 0 {
      RunKeeps(cfg, holds, states, steps, i - 1);
      assert Next(cfg, states[i - 1], steps[i - 1], states[i]);
    }
  }

  lemma {:induction false} RunReaches(cfg: Config, states: seq<System>, steps: seq<Step>, n: nat)
    requires IsRun(cfg, states, steps) && Reachable(cfg, states[0]) && n <= |steps|
    ensures Reachable(cfg, states[n])
  {
    if n > 0 {
      RunReaches(cfg, states, steps, n - 1);
      StepReachable(cfg, states[n - 1], steps[n - 1], states[n]);
    }
  }
}
