/** Progress: a measure that every step the system owes decreases, an exact description of
    the states in which it owes none, and what that means when only READ is used. */
module Liveness {
  import opened Types
  import opened Split
  import opened Chain
  import opened Tokens
  import opened Pipeline
  import opened QpInvariant
  import opened SystemInvariant
  import opened Placement
  import opened Safety

  // ----- The measure -----

  function Unexecuted(exec: seq<bool>): nat {
    if exec == [] then 0 else (if exec[0] then 0 else 1) + Unexecuted(exec[1..])
  }

  lemma {:induction false} UnexecutedConcat(a: seq<bool>, b: seq<bool>)
    ensures Unexecuted(a + b) == Unexecuted(a) + Unexecuted(b)
  {
    if a == [] {
      assert a + b == b;
    } else {
      UnexecutedConcat(a[1..], b);
      assert (a + b)[1..] == a[1..] + b;
    }
  }

  lemma {:induction false} UnexecutedBound(a: seq<bool>)
    ensures Unexecuted(a) <= |a|
  {
    if a != [] {
      UnexecutedBound(a[1..]);
    }
  }

  /** Work still to do for a chunk in the queue, or still to be pushed. */
  function ChunkWork(chunks: seq<Chunk>, each: nat): nat {
    if chunks == [] then 0 else 12 * |chunks[0].batch| + each + ChunkWork(chunks[1..], each)
  }

  lemma {:induction false} ChunkWorkSnoc(chunks: seq<Chunk>, c: Chunk, each: nat)
    ensures ChunkWork(chunks + [c], each) == ChunkWork(chunks, each) + 12 * |c.batch| + each
  {
    if chunks == [] {
      assert chunks + [c] == [c];
      assert [c][1..] == [];
    } else {
      ChunkWorkSnoc(chunks[1..], c, each);
      assert (chunks + [c])[1..] == chunks[1..] + [c];
    }
  }

  function PcWork(dpc: DispatcherPc, notified: bool, idle: bool): nat {
    match dpc
    case Top => if idle then 3 else 6
    case Locked => if idle then 2 else 5
    case PredFalse => 1
    case Asleep => if notified then 7 else 0
    case Drain => 4
    case Checked => 3
    case Added => 2
    case Posted => 6
    case Exited => 0
  }

  function LogWork(wrs: seq<Wr>, exec: seq<bool>, status: seq<bool>): nat {
    if |status| <= |wrs| && |status| <= |exec|
    then 11 * (|wrs| - |status|) + Unexecuted(exec[|status|..])
    else 0
  }

  function RecvWork(rwrs: seq<RecvWr>, rdone: nat): nat {
    if rdone <= |rwrs| then 11 * (|rwrs| - rdone) else 0
  }

  function WqWork(w: Wq): nat {
    PcWork(w.dpc, w.notified, w.queue == []) + (if w.mutex.BySubmitter? then 9 else 0)
    + ChunkWork(UnpostedAt(w.dpc, w.queue), 8) + ChunkWork(Rest(w.mutex), 14)
  }

  function QpWork(qp: Qp): nat {
    WqWork(WqOf(qp)) + LogWork(qp.wrs, qp.exec, qp.status) + RecvWork(qp.rwrs, qp.rdone)
  }

  function Sum(ns: seq<nat>): nat {
    if ns == [] then 0 else ns[0] + Sum(ns[1..])
  }

  lemma {:induction false} SumUpdate(ns: seq<nat>, i: nat, n: nat)
    requires i < |ns|
    ensures Sum(ns[i := n]) + ns[i] == Sum(ns) + n
  {
    if i > 0 {
      SumUpdate(ns[1..], i - 1, n);
      assert ns[i := n][1..] == ns[1..][i - 1 := n];
    } else {
      assert ns[i := n][1..] == ns[1..];
    }
  }

  function QpWorks(qps: seq<Qp>): (works: seq<nat>)
    ensures |works| == |qps|
  {
    seq(|qps|, q requires 0 <= q < |qps| => QpWork(qps[q]))
  }

  function QpsWork(qps: seq<Qp>): nat {
    Sum(QpWorks(qps))
  }

  lemma QpsWorkUpdate(qps: seq<Qp>, q: nat, qp: Qp)
    requires q < |qps|
    ensures QpsWork(qps[q := qp]) + QpWork(qps[q]) == QpsWork(qps) + QpWork(qp)
  {
    assert QpWorks(qps[q := qp]) == QpWorks(qps)[q := QpWork(qp)];
    SumUpdate(QpWorks(qps), q, QpWork(qp));
  }

  function PollerWork(ppc: PollerPc): nat {
    match ppc
    case AtGet => 0
    case AtTop => 1
    case AtPoll => 2
    case GotEvent => 3
    case Handling(wcs, called) => 3 + 3 * |wcs| - (if called && wcs != [] then 1 else 0)
    case Returned(_) => 0
  }

  function StopWork(spc: StopPc): nat {
    match spc
    case Running => 200
    case Joining(k, turn) => if k > 4 then 0 else 150 - 20 * k - (if turn == Untold then 0 else if turn == Flagged then 2 else 12)
    case CqStopped => 50
    case CqArmed => 40
    case WakePosted => 0
  }

  /** What is left to do, counted in steps. */
  function Work(s: System): nat {
    QpsWork(s.qps) + 6 * |s.cq| + 4 * s.events + PollerWork(s.ppc) + StopWork(s.spc)
  }

  /** Steps that get work done: all but new submissions, spurious wake-ups, the retry of a
      closed window, and bytes that arrive before the request they belong to is through. */
  predicate GetsOn(step: Step) {
    !step.Acquire? && !step.Place? && !step.Land? && !(step.Dispatch? && (step.d.SpuriousWake? || step.d.Retry?))
  }

  lemma LogWorkGrows(wrs: seq<Wr>, exec: seq<bool>, status: seq<bool>, chain: seq<Wr>)
    requires |status| <= |wrs| == |exec|
    ensures LogWork(wrs + chain, exec + NotMoved(|chain|), status) <= LogWork(wrs, exec, status) + 12 * |chain|
  {
    var pending := NotMoved(|chain|);
    assert (exec + pending)[|status|..] == exec[|status|..] + pending;
    UnexecutedConcat(exec[|status|..], pending);
    UnexecutedBound(pending);
  }

  lemma RecvWorkGrows(rwrs: seq<RecvWr>, rdone: nat, more: seq<RecvWr>)
    ensures RecvWork(rwrs + more, rdone) <= RecvWork(rwrs, rdone) + 11 * |more|
  {
  }

  lemma FrontWork(w: Wq)
    requires w.dpc == Added && w.queue != []
    ensures WqWork(w.(dpc := Posted)) + 12 * |w.queue[0].batch| + 4 == WqWork(w)
  {
    assert ChunkWork(w.queue, 8) == 12 * |w.queue[0].batch| + 8 + ChunkWork(w.queue[1..], 8);
  }

  /** A chunk puts no more requests on the two queues than it has assignments. */
  lemma RequestsBound(regions: Regions, q: nat, c: Chunk)
    requires GoodChunk(c)
    ensures |SendChain(regions, q, c)| + |RecvChain(regions, c)| <= |c.batch|
  {
  }

  lemma PostWork(regions: Regions, q: nat, qp: Qp)
    requires |qp.status| <= |qp.wrs| == |qp.exec| && DispatcherEnabled(qp, Post) && GoodChunk(qp.queue[0])
    ensures QpWork(PostDo(regions, q, qp)) < QpWork(qp)
  {
    var c := qp.queue[0];
    FrontWork(WqOf(qp));
    RequestsBound(regions, q, c);
    LogWorkGrows(qp.wrs, qp.exec, qp.status, SendChain(regions, q, c));
    RecvWorkGrows(qp.rwrs, qp.rdone, RecvChain(regions, c));
  }

  lemma WqGetsOn(w: Wq, d: DispatcherStep)
    requires WqInv(w) && GoodChunks(w.queue) && WqEnabled(w, d) && !d.SpuriousWake? && !d.Retry? && d != Post
    ensures WqWork(WqDo(w, d)) < WqWork(w)
  {
    WqUnposted(w, d);
    match d
    case Exit => case Lock => case TestPredicate => case Sleep => case Wake => case LeaveDrain =>
    case Overflow => case CheckWindow => case AddCredits => case Pop =>
  }

  lemma DispatcherWork(regions: Regions, q: nat, qp: Qp, d: DispatcherStep)
    requires QpInv(regions, q, qp) && DispatcherEnabled(qp, d) && !d.SpuriousWake? && !d.Retry?
    ensures QpWork(DispatcherDo(regions, q, qp, d)) < QpWork(qp)
  {
    if d == Post {
      PostWork(regions, q, qp);
    } else {
      WqGetsOn(WqOf(qp), d);
    }
  }

  lemma PushWork(qp: Qp)
    requires qp.mutex.BySubmitter? && qp.mutex.rest != [] && qp.dpc != Posted
    ensures QpWork(PushDo(qp)) < QpWork(qp)
  {
    ChunkWorkSnoc(qp.queue, qp.mutex.rest[0], 8);
  }

  lemma NotifyWork(qp: Qp)
    requires qp.mutex.BySubmitter? && qp.mutex.rest == []
    ensures QpWork(NotifyDo(qp)) < QpWork(qp)
  {
  }

  lemma {:induction false} UnexecutedUpdate(exec: seq<bool>, i: nat)
    requires i < |exec| && !exec[i]
    ensures Unexecuted(exec[i := true]) == Unexecuted(exec) - 1
  {
    if i > 0 {
      UnexecutedUpdate(exec[1..], i - 1);
      assert exec[i := true][1..] == exec[1..][i - 1 := true];
    } else {
      assert exec[i := true][1..] == exec[1..];
    }
  }

  lemma ExecuteWork(qp: Qp, i: nat)
    requires |qp.status| <= i < |qp.wrs| == |qp.exec| && !qp.exec[i]
    ensures QpWork(ExecuteDo(qp, i)) < QpWork(qp)
  {
    var r, k := ExecuteDo(qp, i), |qp.status|;
    assert r.exec[k..] == qp.exec[k..][i - k := true];
    UnexecutedUpdate(qp.exec[k..], i - k);
  }

  lemma RetireWork(q: nat, qp: Qp, ok: bool)
    requires |qp.status| < |qp.wrs| == |qp.exec|
    ensures QpWork(RetireDo(q, qp, ok)) + 11 <= QpWork(qp)
  {
    var r := RetireDo(q, qp, ok);
    assert qp.exec[|qp.status|..][1..] == r.exec[|r.status|..];
  }

  lemma HandledWork(qp: Qp, r: Qp)
    requires r.queue == qp.queue && r.mutex == qp.mutex && r.dpc == qp.dpc && r.notified == qp.notified
    requires r.wrs == qp.wrs && r.exec == qp.exec && r.status == qp.status && r.rwrs == qp.rwrs && r.rdone == qp.rdone
    ensures QpWork(r) == QpWork(qp)
  {
  }

  lemma StopNotifyWork(qp: Qp)
    ensures QpWork(StopNotifyDo(qp)) <= QpWork(qp) + 7
  {
  }

  lemma WakeWork(qp: Qp)
    requires |qp.status| <= |qp.wrs| == |qp.exec|
    ensures QpWork(WakeDo(qp)) == QpWork(qp) + 12
  {
    var r := WakeDo(qp);
    assert r.exec[|r.status|..] == qp.exec[|qp.status|..] + [false];
    UnexecutedConcat(qp.exec[|qp.status|..], [false]);
    assert [false][1..] == [];
  }

  lemma SubmitterDecreases(cfg: Config, s: System, step: Step)
    requires QpsInv(cfg, s) && Enabled(cfg, s, step) && GetsOn(step)
    requires step.Push? || step.Notify? || step.Dispatch?
    ensures Work(Do(cfg, s, step)) < Work(s)
  {
    var q := step.q;
    var s' := Do(cfg, s, step);
    match step
    case Push(_) => PushWork(s.qps[q]); QpsWorkUpdate(s.qps, q, s'.qps[q]);
    case Notify(_) => NotifyWork(s.qps[q]); QpsWorkUpdate(s.qps, q, s'.qps[q]);
    case Dispatch(_, d) => DispatcherWork(cfg.regions, q, s.qps[q], d); QpsWorkUpdate(s.qps, q, s'.qps[q]);
  }

  lemma ExecuteDecreases(cfg: Config, s: System, q: nat, i: nat)
    requires Enabled(cfg, s, Execute(q, i))
    ensures Work(Do(cfg, s, Execute(q, i))) < Work(s)
  {
    ExecuteWork(s.qps[q], i);
    QpsWorkUpdate(s.qps, q, ExecuteDo(s.qps[q], i));
  }

  lemma RetireDecreases(s: System, q: nat, ok: bool)
    requires q < |s.qps| && |s.qps[q].status| < |s.qps[q].wrs| == |s.qps[q].exec|
    ensures Work(Retire(s, q, ok)) < Work(s)
  {
    RetireWork(q, s.qps[q], ok);
    QpsWorkUpdate(s.qps, q, RetireDo(q, s.qps[q], ok));
  }

  lemma RecvDecreases(cfg: Config, s: System, q: nat, ok: bool)
    requires Enabled(cfg, s, CompleteRecv(q, ok))
    ensures Work(Do(cfg, s, CompleteRecv(q, ok))) < Work(s)
  {
    QpsWorkUpdate(s.qps, q, RecvDo(q, s.qps[q], ok));
  }

  /** Handling a completion leaves the work of the queue pairs as it is. */
  lemma HandledQpsWork(qps: seq<Qp>, q: nat, r: Qp)
    requires q < |qps| && r.queue == qps[q].queue && r.mutex == qps[q].mutex && r.dpc == qps[q].dpc
    requires r.notified == qps[q].notified && r.wrs == qps[q].wrs && r.exec == qps[q].exec
    requires r.status == qps[q].status && r.rwrs == qps[q].rwrs && r.rdone == qps[q].rdone
    ensures QpsWork(qps[q := r]) == QpsWork(qps)
  {
    HandledWork(qps[q], r);
    QpsWorkUpdate(qps, q, r);
  }

  lemma SkipDecreases(cfg: Config, s: System)
    requires Enabled(cfg, s, Step.Skip)
    ensures Work(Do(cfg, s, Step.Skip)) < Work(s)
  {
    var q := s.ppc.wcs[0].qpi;
    HandledQpsWork(s.qps, q, HandledDo(s.qps[q]));
  }

  lemma CallbackDecreases(cfg: Config, s: System)
    requires Enabled(cfg, s, Callback)
    ensures Work(Do(cfg, s, Callback)) < Work(s)
  {
    var wc := s.ppc.wcs[0];
    var tok := wc.wrId.value;
    HandledQpsWork(s.qps, tok.qpi, CallbackDo(s.qps[tok.qpi], tok, wc));
  }

  lemma SubtractDecreases(cfg: Config, s: System)
    requires Enabled(cfg, s, Subtract)
    ensures Work(Do(cfg, s, Subtract)) < Work(s)
  {
    var tok := s.ppc.wcs[0].wrId.value;
    HandledQpsWork(s.qps, tok.qpi, SubtractDo(s.qps[tok.qpi], tok));
  }

  lemma LoopDecreases(cfg: Config, s: System, step: Step)
    requires Enabled(cfg, s, step)
    requires step.TestStop? || step.GetEvent? || step.Rearm? || step.PollSome? || step.PollNone? || step.EndBlock?
    ensures Work(Do(cfg, s, step)) < Work(s)
  {
  }

  lemma PhaseDecreases(cfg: Config, s: System, step: Step)
    requires Enabled(cfg, s, step) && (step.StopBegin? || step.StopJoin? || step.StopCq? || step.StopArm?)
    requires |s.qps| == QP_LIST_LEN
    ensures Work(Do(cfg, s, step)) < Work(s)
  {
  }

  lemma NotifiedWork(qps: seq<Qp>, k: nat)
    requires k < |qps|
    ensures QpsWork(qps[k := StopNotifyDo(qps[k])]) <= QpsWork(qps) + 7
  {
    StopNotifyWork(qps[k]);
    QpsWorkUpdate(qps, k, StopNotifyDo(qps[k]));
  }

  lemma StopSetDecreases(cfg: Config, s: System)
    requires Enabled(cfg, s, StopSet) && |s.qps| == QP_LIST_LEN
    ensures Work(Do(cfg, s, StopSet)) < Work(s)
  {
    HandledQpsWork(s.qps, s.spc.k, StopSetDo(s.qps[s.spc.k]));
  }

  lemma StopNotifyDecreases(cfg: Config, s: System)
    requires Enabled(cfg, s, StopNotify) && |s.qps| == QP_LIST_LEN
    ensures Work(Do(cfg, s, StopNotify)) < Work(s)
  {
    NotifiedWork(s.qps, s.spc.k);
  }

  lemma StopPostDecreases(cfg: Config, s: System)
    requires Enabled(cfg, s, StopPost) && |s.qps[0].status| <= |s.qps[0].wrs| == |s.qps[0].exec|
    ensures Work(Do(cfg, s, StopPost)) < Work(s)
  {
    WakeWork(s.qps[0]);
    QpsWorkUpdate(s.qps, 0, WakeDo(s.qps[0]));
  }

  lemma NicDecreases(cfg: Config, s: System, step: Step)
    requires QpsInv(cfg, s) && Enabled(cfg, s, step) && OfNic(step) && GetsOn(step)
    ensures Work(Do(cfg, s, step)) < Work(s)
  {
    match step
    case Execute(q, i) => ExecuteDecreases(cfg, s, q, i);
    case Complete(q) => RetireDecreases(s, q, true);
    case Fail(q) => RetireDecreases(s, q, false);
    case CompleteRecv(q, ok) => RecvDecreases(cfg, s, q, ok);
  }

  lemma PollerDecreases(cfg: Config, s: System, step: Step)
    requires Enabled(cfg, s, step) && OfPoller(step)
    ensures Work(Do(cfg, s, step)) < Work(s)
  {
    match step
    case Skip => SkipDecreases(cfg, s);
    case Callback => CallbackDecreases(cfg, s);
    case Subtract => SubtractDecreases(cfg, s);
    case TestStop => LoopDecreases(cfg, s, step);
    case GetEvent => LoopDecreases(cfg, s, step);
    case Rearm => LoopDecreases(cfg, s, step);
    case PollSome(_) => LoopDecreases(cfg, s, step);
    case PollNone => LoopDecreases(cfg, s, step);
    case EndBlock => LoopDecreases(cfg, s, step);
  }

  lemma StopperDecreases(cfg: Config, s: System, step: Step)
    requires QpsInv(cfg, s) && Enabled(cfg, s, step) && OfStopper(step)
    ensures Work(Do(cfg, s, step)) < Work(s)
  {
    match step
    case StopSet => StopSetDecreases(cfg, s);
    case StopNotify => StopNotifyDecreases(cfg, s);
    case StopPost => StopPostDecreases(cfg, s);
    case StopBegin => PhaseDecreases(cfg, s, step);
    case StopJoin => PhaseDecreases(cfg, s, step);
    case StopCq => PhaseDecreases(cfg, s, step);
    case StopArm => PhaseDecreases(cfg, s, step);
  }

  /** Every step that gets on leaves less work. */
  lemma WorkDecreases(cfg: Config, s: System, step: Step)
    requires Reachable(cfg, s) && Enabled(cfg, s, step) && GetsOn(step)
    ensures Work(Do(cfg, s, step)) < Work(s)
  {
    ReachableInv(cfg, s);
    if OfNic(step) {
      NicDecreases(cfg, s, step);
    } else if OfPoller(step) {
      PollerDecreases(cfg, s, step);
    } else if OfStopper(step) {
      StopperDecreases(cfg, s, step);
    } else {
      SubmitterDecreases(cfg, s, step);
    }
  }

  // ----- What the other steps add -----

  /** The most work a step adds: a submission its chunks, a spurious wake-up one turn of the
      dispatcher's loop, and nothing else any. */
  function WorkAdded(step: Step): nat {
    match step
    case Acquire(_, _, batch) => 9 + 12 * |batch| + 14 * ChunkCount(|batch|)
    case Dispatch(_, d) => if d.SpuriousWake? then 5 else 0
    case _ => 0
  }

  lemma {:induction false} ChunksWork(sid: nat, opcode: OpCode, batch: seq<Assignment>, k: nat)
    requires k <= ChunkCount(|batch|)
    ensures ChunkWork(Chunks(sid, opcode, batch)[..k], 14) == 12 * Min(|batch|, Start(k)) + 14 * k
  {
    if k > 0 {
      var chunks := Chunks(sid, opcode, batch);
      assert chunks[..k] == chunks[..k - 1] + [chunks[k - 1]];
      ChunkWorkSnoc(chunks[..k - 1], chunks[k - 1], 14);
      ChunksWork(sid, opcode, batch, k - 1);
    }
  }

  lemma AcquireAdds(cfg: Config, s: System, q: nat, opcode: OpCode, batch: seq<Assignment>)
    requires Enabled(cfg, s, Acquire(q, opcode, batch))
    ensures Work(Do(cfg, s, Acquire(q, opcode, batch))) == Work(s) + WorkAdded(Acquire(q, opcode, batch))
  {
    var chunks := Chunks(|s.subs|, opcode, batch);
    ChunksWork(|s.subs|, opcode, batch, |chunks|);
    assert chunks[..|chunks|] == chunks;
    QpsWorkUpdate(s.qps, q, s.qps[q].(mutex := BySubmitter(chunks)));
  }

  lemma SpuriousWakeAdds(cfg: Config, s: System, q: nat)
    requires Enabled(cfg, s, Dispatch(q, SpuriousWake))
    ensures Work(Do(cfg, s, Dispatch(q, SpuriousWake))) <= Work(s) + 5
  {
    QpsWorkUpdate(s.qps, q, DispatcherDo(cfg.regions, q, s.qps[q], SpuriousWake));
  }

  lemma RetryAdds(cfg: Config, s: System, q: nat)
    requires Enabled(cfg, s, Dispatch(q, Retry))
    ensures Do(cfg, s, Dispatch(q, Retry)) == s
  {
    assert SetWq(s.qps[q], WqOf(s.qps[q])) == s.qps[q];
  }

  /** Any step at all. */
  lemma StepWork(cfg: Config, s: System, step: Step)
    requires Reachable(cfg, s) && Enabled(cfg, s, step)
    ensures Work(Do(cfg, s, step)) + (if GetsOn(step) then 1 else 0) <= Work(s) + WorkAdded(step)
  {
    if GetsOn(step) {
      WorkDecreases(cfg, s, step);
    } else {
      match step
      case Acquire(q, opcode, batch) => AcquireAdds(cfg, s, q, opcode, batch);
      case Dispatch(q, d) => if d == Retry { RetryAdds(cfg, s, q); } else { SpuriousWakeAdds(cfg, s, q); }
      case Place(_, _, _, _) =>
      case Land(_, _) =>
    }
  }
}
