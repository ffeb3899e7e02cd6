/** What every step keeps about the whole system, and hence what holds in every reachable state. */
module SystemInvariant {
  import opened Types
  import opened Split
  import opened Chain
  import opened Tokens
  import opened Pipeline
  import opened QpInvariant

  /** Completions not yet handled, oldest first: the poller's block, then the CQ. */
  function Block(ppc: PollerPc): seq<Wc> {
    match ppc
    case Handling(wcs, _) => wcs
    case Returned(dropped) => dropped
    case _ => []
  }

  function Unhandled(s: System): seq<Wc> {
    Block(s.ppc) + s.cq
  }

  predicate CalledFor(ppc: PollerPc, q: nat) {
    ppc.Handling? && ppc.called && ppc.wcs != [] && ppc.wcs[0].qpi == q
  }

  ghost predicate QpsInv(cfg: Config, s: System) {
    && |s.qps| == QP_LIST_LEN
    && forall q :: 0 <= q < |s.qps| ==> QpInv(cfg.regions, q, s.qps[q])
  }

  /** The shared CQ keeps each QP's completions, in order. */
  ghost predicate RouteInv(s: System) {
    && (forall q :: 0 <= q < |s.qps| ==> Of(Unhandled(s), q) == s.qps[q].cqd)
    && (forall q :: 0 <= q < |s.qps| ==> (s.qps[q].called <==> CalledFor(s.ppc, q)))
    && (forall i :: 0 <= i < |Unhandled(s)| ==> Unhandled(s)[i].qpi < |s.qps|)
    && (s.ppc.Handling? && s.ppc.called ==> s.ppc.wcs != [])
  }

  /** No lost completion wake-up. */
  ghost predicate WakeInv(s: System) {
    && (s.ppc.AtPoll? || s.ppc.Handling? ==> s.armed || s.events > 0)
    && (s.ppc.AtTop? || s.ppc.AtGet? ==> s.events > 0 || (s.armed && s.cq == []))
  }

  ghost predicate StopInv(s: System) {
    && |s.qps| == QP_LIST_LEN
    && (forall q :: 0 <= q < |s.qps| ==> (s.qps[q].wake <==> q == 0 && s.spc.WakePosted?))
    && (s.stopCq <==> s.spc.CqStopped? || s.spc.CqArmed? || s.spc.WakePosted?)
    && (s.spc.Joining? ==> s.spc.k <= |s.qps| && (s.spc.k == |s.qps| ==> s.spc.turn == Untold))
    && (s.spc.Joining? ==> forall q :: 0 <= q < s.spc.k ==> s.qps[q].dpc.Exited?)
    && (s.stopCq ==> forall q :: 0 <= q < |s.qps| ==> s.qps[q].dpc.Exited?)
    && (s.spc.Running? ==> forall q :: 0 <= q < |s.qps| ==> !s.qps[q].stop)
    && (s.spc.Joining? && s.spc.turn != Untold && s.spc.k < |s.qps| ==> s.qps[s.spc.k].stop)
    && (s.ppc.Returned? ==> s.stopCq)
    && (s.spc.WakePosted? && |s.qps[0].status| == |s.qps[0].wrs| && !s.ppc.Returned? ==> s.cq != [])
  }

  /** The chunks that submissions place on QP q, in order. */
  function PlacedOn(subs: seq<Submission>, q: nat): seq<Chunk> {
    if subs == [] then [] else
      var n := |subs| - 1;
      PlacedOn(subs[..n], q) + if subs[n].q == q then Chunks(n, subs[n].opcode, subs[n].batch) else []
  }

  ghost predicate SubInv(cfg: Config, s: System) {
    && (forall q :: 0 <= q < |s.qps| ==> PlacedOn(s.subs, q) == s.qps[q].pushed + Rest(s.qps[q].mutex))
    && (forall i :: 0 <= i < |s.subs| ==> s.subs[i].q < |s.qps| && Registered(cfg.regions, s.subs[i].batch))
  }

  ghost predicate Inv(cfg: Config, s: System) {
    QpsInv(cfg, s) && RouteInv(s) && WakeInv(s) && StopInv(s) && SubInv(cfg, s)
  }

  // ----- The queue pairs -----

  /** The poller's current entry heads the unhandled completions of its own QP. */
  lemma CurrentEntry(cfg: Config, s: System)
    requires QpsInv(cfg, s) && RouteInv(s) && AtEntry(s)
    ensures var wc := s.ppc.wcs[0];
      && wc.qpi < |s.qps| && s.qps[wc.qpi].cqd != [] && s.qps[wc.qpi].cqd[0] == wc
      && (wc.wrId.Some? ==> wc.wrId.value.qpi == wc.qpi)
      && s.qps[wc.qpi].called == s.ppc.called
  {
    var wc := s.ppc.wcs[0];
    assert Unhandled(s)[0] == wc;
    var qp := s.qps[wc.qpi];
    assert WcOk(wc.qpi, qp.wrs, qp.status, qp.cqd[0]);
  }

  lemma QpUpdated(cfg: Config, s: System, q: nat, qp: Qp, s': System)
    requires QpsInv(cfg, s) && q < |s.qps| && QpInv(cfg.regions, q, qp) && s'.qps == s.qps[q := qp]
    ensures QpsInv(cfg, s')
  {
  }

  lemma AcquireKeepsQps(cfg: Config, s: System, q: nat, opcode: OpCode, batch: seq<Assignment>)
    requires QpsInv(cfg, s) && Enabled(cfg, s, Acquire(q, opcode, batch))
    ensures QpsInv(cfg, Do(cfg, s, Acquire(q, opcode, batch)))
  {
    var chunks := Chunks(|s.subs|, opcode, batch);
    AcquireKeeps(cfg.regions, q, s.qps[q], chunks);
    QpUpdated(cfg, s, q, s.qps[q].(mutex := BySubmitter(chunks)), Do(cfg, s, Acquire(q, opcode, batch)));
  }

  lemma PushKeepsQps(cfg: Config, s: System, q: nat)
    requires QpsInv(cfg, s) && Enabled(cfg, s, Push(q))
    ensures QpsInv(cfg, Do(cfg, s, Push(q)))
  {
    PushKeeps(cfg.regions, q, s.qps[q]);
    QpUpdated(cfg, s, q, PushDo(s.qps[q]), Do(cfg, s, Push(q)));
  }

  lemma NotifyKeepsQps(cfg: Config, s: System, q: nat)
    requires QpsInv(cfg, s) && Enabled(cfg, s, Notify(q))
    ensures QpsInv(cfg, Do(cfg, s, Notify(q)))
  {
    NotifyKeeps(cfg.regions, q, s.qps[q]);
    QpUpdated(cfg, s, q, NotifyDo(s.qps[q]), Do(cfg, s, Notify(q)));
  }

  lemma DispatchKeepsQps(cfg: Config, s: System, q: nat, d: DispatcherStep)
    requires QpsInv(cfg, s) && q < |s.qps| && DispatcherEnabled(s.qps[q], d)
    ensures QpsInv(cfg, Do(cfg, s, Dispatch(q, d)))
  {
    DispatcherKeeps(cfg.regions, q, s.qps[q], d);
    QpUpdated(cfg, s, q, DispatcherDo(cfg.regions, q, s.qps[q], d), Do(cfg, s, Dispatch(q, d)));
  }

  lemma ExecuteKeepsQps(cfg: Config, s: System, q: nat, i: nat)
    requires QpsInv(cfg, s) && Enabled(cfg, s, Execute(q, i))
    ensures QpsInv(cfg, Do(cfg, s, Execute(q, i)))
  {
    ExecuteKeeps(cfg.regions, q, s.qps[q], i);
    QpUpdated(cfg, s, q, ExecuteDo(s.qps[q], i), Do(cfg, s, Execute(q, i)));
  }

  lemma RetireKeepsQps(cfg: Config, s: System, q: nat, ok: bool)
    requires QpsInv(cfg, s) && q < |s.qps| && |s.qps[q].status| < |s.qps[q].wrs|
    requires ok ==> !s.qps[q].failed && s.qps[q].exec[|s.qps[q].status|]
    ensures QpsInv(cfg, Retire(s, q, ok))
  {
    RetireKeeps(cfg.regions, q, s.qps[q], ok);
    QpUpdated(cfg, s, q, RetireDo(q, s.qps[q], ok), Retire(s, q, ok));
  }

  lemma RecvKeepsQps(cfg: Config, s: System, q: nat, ok: bool)
    requires QpsInv(cfg, s) && Enabled(cfg, s, CompleteRecv(q, ok))
    ensures QpsInv(cfg, Do(cfg, s, CompleteRecv(q, ok)))
  {
    RecvKeeps(cfg.regions, q, s.qps[q], ok);
    QpUpdated(cfg, s, q, RecvDo(q, s.qps[q], ok), Do(cfg, s, CompleteRecv(q, ok)));
  }

  lemma SkipKeepsQps(cfg: Config, s: System)
    requires QpsInv(cfg, s) && RouteInv(s) && Enabled(cfg, s, Step.Skip)
    ensures QpsInv(cfg, Do(cfg, s, Step.Skip))
  {
    CurrentEntry(cfg, s);
    var q := s.ppc.wcs[0].qpi;
    SkipKeeps(cfg.regions, q, s.qps[q]);
    QpUpdated(cfg, s, q, HandledDo(s.qps[q]), Do(cfg, s, Step.Skip));
  }

  lemma CallbackKeepsQps(cfg: Config, s: System)
    requires QpsInv(cfg, s) && RouteInv(s) && Enabled(cfg, s, Callback)
    ensures QpsInv(cfg, Do(cfg, s, Callback))
  {
    CurrentEntry(cfg, s);
    var wc := s.ppc.wcs[0];
    CallbackKeeps(cfg.regions, wc.qpi, s.qps[wc.qpi], wc.wrId.value);
    QpUpdated(cfg, s, wc.qpi, CallbackDo(s.qps[wc.qpi], wc.wrId.value, wc), Do(cfg, s, Callback));
  }

  lemma SubtractKeepsQps(cfg: Config, s: System)
    requires QpsInv(cfg, s) && RouteInv(s) && Enabled(cfg, s, Subtract)
    ensures QpsInv(cfg, Do(cfg, s, Subtract))
  {
    CurrentEntry(cfg, s);
    var wc := s.ppc.wcs[0];
    SubtractKeeps(cfg.regions, wc.qpi, s.qps[wc.qpi], wc.wrId.value);
    QpUpdated(cfg, s, wc.qpi, SubtractDo(s.qps[wc.qpi], wc.wrId.value), Do(cfg, s, Subtract));
  }

  lemma StopSetKeepsQps(cfg: Config, s: System)
    requires QpsInv(cfg, s) && Enabled(cfg, s, StopSet)
    ensures QpsInv(cfg, Do(cfg, s, StopSet))
  {
    StopSetKeeps(cfg.regions, s.spc.k, s.qps[s.spc.k]);
    QpUpdated(cfg, s, s.spc.k, StopSetDo(s.qps[s.spc.k]), Do(cfg, s, StopSet));
  }

  lemma StopNotifyKeepsQps(cfg: Config, s: System)
    requires QpsInv(cfg, s) && Enabled(cfg, s, StopNotify)
    ensures QpsInv(cfg, Do(cfg, s, StopNotify))
  {
    StopNotifyKeeps(cfg.regions, s.spc.k, s.qps[s.spc.k]);
    QpUpdated(cfg, s, s.spc.k, StopNotifyDo(s.qps[s.spc.k]), Do(cfg, s, StopNotify));
  }

  lemma StopPostKeepsQps(cfg: Config, s: System)
    requires QpsInv(cfg, s) && StopInv(s) && Enabled(cfg, s, StopPost)
    ensures QpsInv(cfg, Do(cfg, s, StopPost))
  {
    StopPostKeeps(cfg.regions, 0, s.qps[0]);
    QpUpdated(cfg, s, 0, WakeDo(s.qps[0]), Do(cfg, s, StopPost));
  }

  lemma NicKeepsQps(cfg: Config, s: System, step: Step)
    requires QpsInv(cfg, s) && Enabled(cfg, s, step) && OfNic(step)
    ensures QpsInv(cfg, Do(cfg, s, step))
  {
    match step
    case Execute(q, i) => ExecuteKeepsQps(cfg, s, q, i);
    case Complete(q) => RetireKeepsQps(cfg, s, q, true);
    case Fail(q) => RetireKeepsQps(cfg, s, q, false);
    case Place(_, _, _, _) =>
    case Land(_, _) =>
    case CompleteRecv(q, ok) => RecvKeepsQps(cfg, s, q, ok);
  }

  lemma PollerKeepsQps(cfg: Config, s: System, step: Step)
    requires QpsInv(cfg, s) && RouteInv(s) && Enabled(cfg, s, step) && OfPoller(step)
    ensures QpsInv(cfg, Do(cfg, s, step))
  {
    match step
    case Skip => SkipKeepsQps(cfg, s);
    case Callback => CallbackKeepsQps(cfg, s);
    case Subtract => SubtractKeepsQps(cfg, s);
    case TestStop => case GetEvent => case Rearm => case PollSome(_) => case PollNone => case EndBlock =>
  }

  lemma StopperKeepsQps(cfg: Config, s: System, step: Step)
    requires QpsInv(cfg, s) && StopInv(s) && Enabled(cfg, s, step) && OfStopper(step)
    ensures QpsInv(cfg, Do(cfg, s, step))
  {
    match step
    case StopSet => StopSetKeepsQps(cfg, s);
    case StopNotify => StopNotifyKeepsQps(cfg, s);
    case StopPost => StopPostKeepsQps(cfg, s);
    case StopBegin => case StopJoin => case StopCq => case StopArm =>
  }

  lemma QpsKept(cfg: Config, s: System, step: Step)
    requires QpsInv(cfg, s) && RouteInv(s) && StopInv(s) && Enabled(cfg, s, step)
    ensures QpsInv(cfg, Do(cfg, s, step))
  {
    if OfNic(step) {
      NicKeepsQps(cfg, s, step);
    } else if OfPoller(step) {
      PollerKeepsQps(cfg, s, step);
    } else if OfStopper(step) {
      StopperKeepsQps(cfg, s, step);
    } else {
      match step
      case Acquire(q, opcode, batch) => AcquireKeepsQps(cfg, s, q, opcode, batch);
      case Push(q) => PushKeepsQps(cfg, s, q);
      case Notify(q) => NotifyKeepsQps(cfg, s, q);
      case Dispatch(q, d) => DispatchKeepsQps(cfg, s, q, d);
    }
  }

  // ----- Routing of completions -----

  /** A state with the same completions and poller, and the same per-QP view of them. */
  lemma RouteSame(s: System, s': System)
    requires RouteInv(s) && |s'.qps| == |s.qps| && Unhandled(s') == Unhandled(s)
    requires forall q :: 0 <= q < |s.qps| ==> s'.qps[q].cqd == s.qps[q].cqd && s'.qps[q].called == s.qps[q].called
    requires forall q :: 0 <= q < |s.qps| ==> (CalledFor(s'.ppc, q) <==> CalledFor(s.ppc, q))
    requires s'.ppc.Handling? && s'.ppc.called ==> s'.ppc.wcs != []
    ensures RouteInv(s')
  {
  }

  lemma RouteAppend(s: System, q: nat, qp: Qp, wc: Wc, s': System)
    requires RouteInv(s) && q < |s.qps| && wc.qpi == q
    requires s'.qps == s.qps[q := qp] && qp.cqd == s.qps[q].cqd + [wc] && qp.called == s.qps[q].called
    requires s'.ppc == s.ppc && s'.cq == s.cq + [wc]
    ensures RouteInv(s')
  {
    assert Unhandled(s') == Unhandled(s) + [wc];
    forall p | 0 <= p < |s'.qps|
      ensures Of(Unhandled(s'), p) == s'.qps[p].cqd
    {
      OfSnoc(Unhandled(s), wc, p);
    }
  }

  lemma RouteRetire(s: System, q: nat, ok: bool)
    requires RouteInv(s) && q < |s.qps| && |s.qps[q].status| < |s.qps[q].wrs|
    ensures RouteInv(Retire(s, q, ok))
  {
    var qp := s.qps[q];
    var r := RetireDo(q, qp, ok);
    var s' := Retire(s, q, ok);
    if Reports(qp, ok) {
      RouteAppend(s, q, r, RetireWc(q, qp, ok), s');
    } else {
      assert r.cqd == qp.cqd;
      RouteSame(s, s');
    }
  }

  lemma RouteHandled(s: System, q: nat, qp: Qp, s': System)
    requires RouteInv(s) && AtEntry(s) && q == s.ppc.wcs[0].qpi && q < |s.qps|
    requires s'.qps == s.qps[q := qp] && s.qps[q].cqd != [] && qp.cqd == s.qps[q].cqd[1..] && !qp.called
    requires s'.ppc == Handling(s.ppc.wcs[1..], false) && s'.cq == s.cq
    ensures RouteInv(s')
  {
    assert Unhandled(s') == Unhandled(s)[1..];
    forall p | 0 <= p < |s'.qps|
      ensures Of(Unhandled(s'), p) == s'.qps[p].cqd
    {
      assert Of(Unhandled(s), p) == (if p == q then [s.ppc.wcs[0]] else []) + Of(Unhandled(s'), p);
    }
  }

  lemma SkipKeepsRoute(cfg: Config, s: System)
    requires QpsInv(cfg, s) && RouteInv(s) && Enabled(cfg, s, Step.Skip)
    ensures RouteInv(Do(cfg, s, Step.Skip))
  {
    CurrentEntry(cfg, s);
    var q := s.ppc.wcs[0].qpi;
    RouteHandled(s, q, HandledDo(s.qps[q]), Do(cfg, s, Step.Skip));
  }

  lemma SubtractKeepsRoute(cfg: Config, s: System)
    requires QpsInv(cfg, s) && RouteInv(s) && Enabled(cfg, s, Subtract)
    ensures RouteInv(Do(cfg, s, Subtract))
  {
    CurrentEntry(cfg, s);
    var q := s.ppc.wcs[0].qpi;
    RouteHandled(s, q, SubtractDo(s.qps[q], s.ppc.wcs[0].wrId.value), Do(cfg, s, Subtract));
  }

  lemma CallbackKeepsRoute(cfg: Config, s: System)
    requires QpsInv(cfg, s) && RouteInv(s) && Enabled(cfg, s, Callback)
    ensures RouteInv(Do(cfg, s, Callback))
  {
    CurrentEntry(cfg, s);
    var q := s.ppc.wcs[0].qpi;
    RouteCalled(s, q, CallbackDo(s.qps[q], s.ppc.wcs[0].wrId.value, s.ppc.wcs[0]), Do(cfg, s, Callback));
  }

  lemma RouteCalled(s: System, q: nat, qp: Qp, s': System)
    requires RouteInv(s) && AtEntry(s) && q == s.ppc.wcs[0].qpi && q < |s.qps| && !s.ppc.called
    requires s'.qps == s.qps[q := qp] && qp.cqd == s.qps[q].cqd && qp.called
    requires s'.ppc == Handling(s.ppc.wcs, true) && s'.cq == s.cq
    ensures RouteInv(s')
  {
    assert Unhandled(s') == Unhandled(s);
    forall p | 0 <= p < |s'.qps|
      ensures s'.qps[p].called <==> CalledFor(s'.ppc, p)
    {
      assert s.qps[p].called <==> CalledFor(s.ppc, p);
    }
  }

  /** Steps that neither add, take nor handle a completion. */
  predicate LeavesCompletions(step: Step) {
    !(step.Complete? || step.Fail? || step.CompleteRecv? || step.Skip? || step.Callback? || step.Subtract?)
  }

  lemma DispatcherLeavesCompletions(regions: Regions, q: nat, qp: Qp, d: DispatcherStep)
    requires DispatcherEnabled(qp, d)
    ensures var r := DispatcherDo(regions, q, qp, d);
      r.cqd == qp.cqd && r.called == qp.called && r.pushed == qp.pushed
  {
  }

  lemma QpsLeaveCompletions(cfg: Config, s: System, step: Step)
    requires Enabled(cfg, s, step) && LeavesCompletions(step)
    ensures var s' := Do(cfg, s, step);
      && |s'.qps| == |s.qps|
      && forall q :: 0 <= q < |s.qps| ==> s'.qps[q].cqd == s.qps[q].cqd && s'.qps[q].called == s.qps[q].called
  {
    if step.Dispatch? {
      DispatcherLeavesCompletions(cfg.regions, step.q, s.qps[step.q], step.d);
    }
  }

  lemma PollerLeavesCompletions(cfg: Config, s: System, step: Step)
    requires Enabled(cfg, s, step) && LeavesCompletions(step)
    ensures Unhandled(Do(cfg, s, step)) == Unhandled(s)
    ensures forall q :: CalledFor(Do(cfg, s, step).ppc, q) <==> CalledFor(s.ppc, q)
    ensures var ppc := Do(cfg, s, step).ppc; ppc.Handling? && ppc.called ==> ppc == s.ppc
  {
    if step.PollSome? {
      assert s.cq[..step.n] + s.cq[step.n..] == s.cq;
    } else {
      OthersLeaveCompletions(cfg, s, step);
    }
  }

  lemma OthersLeaveCompletions(cfg: Config, s: System, step: Step)
    requires Enabled(cfg, s, step) && LeavesCompletions(step) && !step.PollSome?
    ensures Unhandled(Do(cfg, s, step)) == Unhandled(s)
    ensures var ppc := Do(cfg, s, step).ppc;
      (ppc == s.ppc && ppc.Handling?) || (!(ppc.Handling? && ppc.called) && !(s.ppc.Handling? && s.ppc.called))
  {
  }

  lemma RouteKept(cfg: Config, s: System, step: Step)
    requires QpsInv(cfg, s) && RouteInv(s) && Enabled(cfg, s, step)
    ensures RouteInv(Do(cfg, s, step))
  {
    if step.Complete? || step.Fail? {
      RouteRetire(s, step.q, step.Complete?);
    } else if step.CompleteRecv? {
      RouteAppend(s, step.q, Do(cfg, s, step).qps[step.q], RecvWc(step.q, step.ok), Do(cfg, s, step));
    } else if step.Skip? {
      SkipKeepsRoute(cfg, s);
    } else if step.Callback? {
      CallbackKeepsRoute(cfg, s);
    } else if step.Subtract? {
      SubtractKeepsRoute(cfg, s);
    } else {
      QpsLeaveCompletions(cfg, s, step);
      PollerLeavesCompletions(cfg, s, step);
      RouteSame(s, Do(cfg, s, step));
    }
  }

  // ----- Wake-ups, stopping, submissions -----

  lemma WakeKeptPoller(cfg: Config, s: System, step: Step)
    requires WakeInv(s) && Enabled(cfg, s, step) && OfPoller(step)
    ensures WakeInv(Do(cfg, s, step))
  {
  }

  lemma WakeKeptNic(cfg: Config, s: System, step: Step)
    requires WakeInv(s) && Enabled(cfg, s, step) && OfNic(step)
    ensures WakeInv(Do(cfg, s, step))
  {
  }

  lemma WakeKept(cfg: Config, s: System, step: Step)
    requires WakeInv(s) && Enabled(cfg, s, step)
    ensures WakeInv(Do(cfg, s, step))
  {
    if OfPoller(step) {
      WakeKeptPoller(cfg, s, step);
    } else if OfNic(step) {
      WakeKeptNic(cfg, s, step);
    }
  }

  /** Only the dispatcher moves its program counter; once it has returned it stays so. */
  lemma DispatcherStopFacts(regions: Regions, q: nat, qp: Qp, d: DispatcherStep)
    requires DispatcherEnabled(qp, d)
    ensures var r := DispatcherDo(regions, q, qp, d);
      && !qp.dpc.Exited? && r.wake == qp.wake && r.stop == qp.stop && r.status == qp.status
  {
    match d
    case Exit => case Lock => case TestPredicate => case Sleep => case Wake => case SpuriousWake => case LeaveDrain =>
    case Overflow => case CheckWindow => case Retry => case AddCredits => case Post => case Pop =>
  }

  /** What StopInv reads of each queue pair. */
  ghost predicate SameStopView(s: System, s': System) {
    && |s'.qps| == |s.qps| && s'.spc == s.spc && s'.stopCq == s.stopCq
    && forall q :: 0 <= q < |s.qps| ==>
         && s'.qps[q].wake == s.qps[q].wake && s'.qps[q].stop == s.qps[q].stop
         && (s.qps[q].dpc.Exited? ==> s'.qps[q].dpc.Exited?)
  }

  lemma StopSame(s: System, s': System)
    requires StopInv(s) && SameStopView(s, s')
    requires s'.ppc.Returned? ==> s.stopCq
    requires s'.spc.WakePosted? && |s'.qps[0].status| == |s'.qps[0].wrs| && !s'.ppc.Returned? ==> s'.cq != []
    ensures StopInv(s')
  {
  }

  lemma StopKeptDispatch(cfg: Config, s: System, q: nat, d: DispatcherStep)
    requires StopInv(s) && q < |s.qps| && DispatcherEnabled(s.qps[q], d)
    ensures StopInv(Do(cfg, s, Dispatch(q, d)))
  {
    DispatcherStopFacts(cfg.regions, q, s.qps[q], d);
    StopSame(s, Do(cfg, s, Dispatch(q, d)));
  }

  /** The stop request is signalled, so its completion reaches the CQ. */
  lemma WakeReports(cfg: Config, s: System, ok: bool)
    requires QpsInv(cfg, s) && s.qps[0].wake && |s.qps[0].status| + 1 == |s.qps[0].wrs|
    ensures Reports(s.qps[0], ok)
  {
    var qp := s.qps[0];
    assert qp.wrs[|qp.wrs| - 1] == WAKE_WR;
  }

  lemma StopKeptRetire(cfg: Config, s: System, q: nat, ok: bool)
    requires StopInv(s) && q < |s.qps| && |s.qps[q].status| < |s.qps[q].wrs|
    requires s.spc.WakePosted? && q == 0 && |s.qps[0].status| + 1 == |s.qps[0].wrs| ==> Reports(s.qps[0], ok)
    ensures StopInv(Retire(s, q, ok))
  {
    StopSame(s, Retire(s, q, ok));
  }

  lemma StopKeptNic(cfg: Config, s: System, q: nat, ok: bool)
    requires QpsInv(cfg, s) && StopInv(s) && q < |s.qps| && |s.qps[q].status| < |s.qps[q].wrs|
    ensures StopInv(Retire(s, q, ok))
  {
    if s.spc.WakePosted? && q == 0 && |s.qps[0].status| + 1 == |s.qps[0].wrs| {
      WakeReports(cfg, s, ok);
    }
    StopKeptRetire(cfg, s, q, ok);
  }

  lemma StopKeptSubmitter(cfg: Config, s: System, step: Step)
    requires StopInv(s) && Enabled(cfg, s, step) && OfSubmitter(step)
    ensures StopInv(Do(cfg, s, step))
  {
    StopSame(s, Do(cfg, s, step));
  }

  lemma StopKeptMemory(cfg: Config, s: System, step: Step)
    requires StopInv(s) && Enabled(cfg, s, step)
    requires step.Execute? || step.Place? || step.Land? || step.CompleteRecv?
    ensures StopInv(Do(cfg, s, step))
  {
    StopSame(s, Do(cfg, s, step));
  }

  lemma StopKeptPoller(cfg: Config, s: System, step: Step)
    requires StopInv(s) && Enabled(cfg, s, step) && OfPoller(step)
    ensures StopInv(Do(cfg, s, step))
  {
    if step.Skip? || step.Callback? || step.Subtract? {
      StopKeptHandling(cfg, s, step);
    } else {
      StopSame(s, Do(cfg, s, step));
    }
  }

  lemma StopKeptHandling(cfg: Config, s: System, step: Step)
    requires StopInv(s) && Enabled(cfg, s, step) && (step.Skip? || step.Callback? || step.Subtract?)
    ensures StopInv(Do(cfg, s, step))
  {
    StopSame(s, Do(cfg, s, step));
  }

  lemma StopKeptTelling(cfg: Config, s: System, step: Step)
    requires StopInv(s) && Enabled(cfg, s, step) && (step.StopSet? || step.StopNotify?)
    ensures StopInv(Do(cfg, s, step))
  {
  }

  lemma StopKeptPost(cfg: Config, s: System)
    requires StopInv(s) && Enabled(cfg, s, StopPost) && |s.qps[0].status| <= |s.qps[0].wrs|
    ensures StopInv(Do(cfg, s, StopPost))
  {
  }

  lemma StopKeptPhase(cfg: Config, s: System, step: Step)
    requires StopInv(s) && Enabled(cfg, s, step)
    requires step.StopBegin? || step.StopJoin? || step.StopCq? || step.StopArm?
    ensures StopInv(Do(cfg, s, step))
  {
  }

  lemma StopKeptStopper(cfg: Config, s: System, step: Step)
    requires QpsInv(cfg, s) && StopInv(s) && Enabled(cfg, s, step) && OfStopper(step)
    ensures StopInv(Do(cfg, s, step))
  {
    if step.StopSet? || step.StopNotify? {
      StopKeptTelling(cfg, s, step);
    } else if step.StopPost? {
      StopKeptPost(cfg, s);
    } else {
      StopKeptPhase(cfg, s, step);
    }
  }

  lemma StopKeptNicStep(cfg: Config, s: System, step: Step)
    requires QpsInv(cfg, s) && StopInv(s) && Enabled(cfg, s, step) && OfNic(step)
    ensures StopInv(Do(cfg, s, step))
  {
    if step.Complete? || step.Fail? {
      StopKeptNic(cfg, s, step.q, step.Complete?);
    } else {
      StopKeptMemory(cfg, s, step);
    }
  }

  lemma StopKept(cfg: Config, s: System, step: Step)
    requires QpsInv(cfg, s) && RouteInv(s) && StopInv(s) && Enabled(cfg, s, step)
    ensures StopInv(Do(cfg, s, step))
  {
    if OfNic(step) {
      StopKeptNicStep(cfg, s, step);
    } else if OfPoller(step) {
      StopKeptPoller(cfg, s, step);
    } else if OfStopper(step) {
      StopKeptStopper(cfg, s, step);
    } else if OfSubmitter(step) {
      StopKeptSubmitter(cfg, s, step);
    } else {
      StopKeptDispatch(cfg, s, step.q, step.d);
    }
  }

  lemma SubSame(cfg: Config, s: System, s': System)
    requires SubInv(cfg, s) && s'.subs == s.subs && |s'.qps| == |s.qps|
    requires forall q :: 0 <= q < |s.qps| ==>
      s'.qps[q].pushed + Rest(s'.qps[q].mutex) == s.qps[q].pushed + Rest(s.qps[q].mutex)
    ensures SubInv(cfg, s')
  {
  }

  lemma AcquireKeepsSubs(cfg: Config, s: System, step: Step)
    requires SubInv(cfg, s) && Enabled(cfg, s, step) && step.Acquire?
    ensures SubInv(cfg, Do(cfg, s, step))
  {
    var s' := Do(cfg, s, step);
    assert s'.subs[..|s.subs|] == s.subs;
  }

  lemma DispatcherKeepsPlace(regions: Regions, q: nat, qp: Qp, d: DispatcherStep)
    requires QpInv(regions, q, qp) && DispatcherEnabled(qp, d)
    ensures var r := DispatcherDo(regions, q, qp, d); r.pushed == qp.pushed && Rest(r.mutex) == Rest(qp.mutex)
  {
    if d != Post {
      WqKeeps(WqOf(qp), d);
    }
  }

  lemma PushKeepsSubs(cfg: Config, s: System, q: nat)
    requires SubInv(cfg, s) && Enabled(cfg, s, Push(q))
    ensures SubInv(cfg, Do(cfg, s, Push(q)))
  {
    var qp := s.qps[q];
    assert qp.mutex.rest == [qp.mutex.rest[0]] + qp.mutex.rest[1..];
    Assoc(qp.pushed, [qp.mutex.rest[0]], qp.mutex.rest[1..]);
    SubSame(cfg, s, Do(cfg, s, Push(q)));
  }

  lemma DispatchKeepsSubs(cfg: Config, s: System, q: nat, d: DispatcherStep)
    requires QpsInv(cfg, s) && SubInv(cfg, s) && q < |s.qps| && DispatcherEnabled(s.qps[q], d)
    ensures SubInv(cfg, Do(cfg, s, Dispatch(q, d)))
  {
    DispatcherKeepsPlace(cfg.regions, q, s.qps[q], d);
    SubSame(cfg, s, Do(cfg, s, Dispatch(q, d)));
  }

  lemma ThreadsKeepSubs(cfg: Config, s: System, step: Step)
    requires SubInv(cfg, s) && Enabled(cfg, s, step) && (step.Notify? || step.StopSet? || step.StopNotify? || step.StopPost?)
    ensures SubInv(cfg, Do(cfg, s, step))
  {
    SubSame(cfg, s, Do(cfg, s, step));
  }

  lemma HandlingKeepsSubs(cfg: Config, s: System, step: Step)
    requires SubInv(cfg, s) && Enabled(cfg, s, step) && (step.Skip? || step.Callback? || step.Subtract?)
    ensures SubInv(cfg, Do(cfg, s, step))
  {
    SubSame(cfg, s, Do(cfg, s, step));
  }

  lemma MemoryKeepsSubs(cfg: Config, s: System, step: Step)
    requires SubInv(cfg, s) && Enabled(cfg, s, step) && (step.Execute? || step.CompleteRecv?)
    ensures SubInv(cfg, Do(cfg, s, step))
  {
    SubSame(cfg, s, Do(cfg, s, step));
  }

  lemma RetireKeepsSubs(cfg: Config, s: System, q: nat, ok: bool)
    requires SubInv(cfg, s) && q < |s.qps| && |s.qps[q].status| < |s.qps[q].wrs|
    ensures SubInv(cfg, Retire(s, q, ok))
  {
    SubSame(cfg, s, Retire(s, q, ok));
  }

  /** Steps of the poller's loop, of the stopper and of the NIC that leave every queue pair alone. */
  predicate LeavesQps(step: Step) {
    step.TestStop? || step.GetEvent? || step.Rearm? || step.PollSome? || step.PollNone? || step.EndBlock?
    || step.StopBegin? || step.StopJoin? || step.StopCq? || step.StopArm? || step.Place? || step.Land?
  }

  lemma QpsLeft(cfg: Config, s: System, step: Step)
    requires Enabled(cfg, s, step) && LeavesQps(step)
    ensures Do(cfg, s, step).qps == s.qps && Do(cfg, s, step).subs == s.subs
  {
  }

  lemma SubKept(cfg: Config, s: System, step: Step)
    requires QpsInv(cfg, s) && SubInv(cfg, s) && Enabled(cfg, s, step)
    ensures SubInv(cfg, Do(cfg, s, step))
  {
    if LeavesQps(step) {
      QpsLeft(cfg, s, step);
      SubSame(cfg, s, Do(cfg, s, step));
    } else if step.Complete? || step.Fail? {
      RetireKeepsSubs(cfg, s, step.q, step.Complete?);
    } else if OfNic(step) {
      MemoryKeepsSubs(cfg, s, step);
    } else if OfPoller(step) {
      HandlingKeepsSubs(cfg, s, step);
    } else if step.Acquire? {
      AcquireKeepsSubs(cfg, s, step);
    } else if step.Push? {
      PushKeepsSubs(cfg, s, step.q);
    } else if step.Dispatch? {
      DispatchKeepsSubs(cfg, s, step.q, step.d);
    } else {
      ThreadsKeepSubs(cfg, s, step);
    }
  }

  // ----- Every reachable state -----

  lemma InitQpInv(regions: Regions, q: nat)
    ensures QpInv(regions, q, INIT_QP)
  {
  }

  lemma SameQps(cfg: Config, s: System, qp: Qp)
    requires |s.qps| == QP_LIST_LEN && forall q :: 0 <= q < |s.qps| ==> s.qps[q] == qp
    requires forall q: nat :: q < QP_LIST_LEN ==> QpInv(cfg.regions, q, qp)
    ensures QpsInv(cfg, s)
  {
  }

  lemma InitQpsInv(cfg: Config)
    ensures QpsInv(cfg, Init(cfg))
  {
    forall q: nat | q < QP_LIST_LEN
      ensures QpInv(cfg.regions, q, INIT_QP)
    {
      InitQpInv(cfg.regions, q);
    }
    SameQps(cfg, Init(cfg), INIT_QP);
  }

  lemma InitOtherInv(cfg: Config)
    ensures var s := Init(cfg); RouteInv(s) && WakeInv(s) && StopInv(s) && SubInv(cfg, s)
  {
    var s := Init(cfg);
    assert Unhandled(s) == [];
  }

  lemma InitInv(cfg: Config)
    ensures Inv(cfg, Init(cfg))
  {
    InitQpsInv(cfg);
    InitOtherInv(cfg);
  }

  lemma StepInv(cfg: Config, s: System, step: Step)
    requires Inv(cfg, s) && Enabled(cfg, s, step)
    ensures Inv(cfg, Do(cfg, s, step))
  {
    QpsKept(cfg, s, step);
    RouteKept(cfg, s, step);
    WakeKept(cfg, s, step);
    StopKept(cfg, s, step);
    SubKept(cfg, s, step);
  }

  lemma NextInv(cfg: Config, s: System, step: Step, s': System)
    requires Inv(cfg, s) && Next(cfg, s, step, s')
    ensures Inv(cfg, s')
  {
    StepInv(cfg, s, step);
  }

  /** Every state of a run that starts in a good state is good. */
  lemma RunInv(cfg: Config, states: seq<System>, steps: seq<Step>, i: nat)
    requires IsRun(cfg, states, steps) && Inv(cfg, states[0]) && i <= |steps|
    ensures Inv(cfg, states[i])
  {
    forall s, step, s' | Inv(cfg, s) && Next(cfg, s, step, s')
      ensures Inv(cfg, s')
    {
      NextInv(cfg, s, step, s');
    }
    RunKeeps(cfg, s => Inv(cfg, s), states, steps, i);
  }

  lemma ReachableInv(cfg: Config, s: System)
    requires Reachable(cfg, s)
    ensures Inv(cfg, s)
  {
    var states, steps :| IsRun(cfg, states, steps) && states[0] == Init(cfg) && states[|steps|] == s;
    InitInv(cfg);
    RunInv(cfg, states, steps, |steps|);
  }
}
