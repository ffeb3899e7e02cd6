/** When a queue drains, exactly; and how many posts and returns of credits that takes. */
module Admission {
  import opened Types
  import opened Split
  import opened Chain
  import opened Tokens
  import opened Pipeline
  import opened QpInvariant
  import opened SystemInvariant
  import opened Placement
  import opened Safety
  import opened Liveness
  import opened Progress

  /** Each chunk still fits in the window after all SEND and RECV chunks before it have kept
      their credits.  Callers can check this of what they submit. */
  ghost predicate Admissible(chunks: seq<Chunk>) {
    forall p :: 0 <= p < |chunks| ==> |chunks[p].batch| + Leaked(chunks[..p]) < MAX_SEND_WR
  }

  lemma AdmissibleSnoc(chunks: seq<Chunk>, c: Chunk)
    requires Admissible(chunks) && |c.batch| + Leaked(chunks) < MAX_SEND_WR
    ensures Admissible(chunks + [c])
  {
    forall p | 0 <= p < |chunks| + 1
      ensures |(chunks + [c])[p].batch| + Leaked((chunks + [c])[..p]) < MAX_SEND_WR
    {
      if p < |chunks| {
        assert (chunks + [c])[..p] == chunks[..p];
      } else {
        assert (chunks + [c])[..p] == chunks;
      }
    }
  }

  lemma PostAdmits(cfg: Config, s: System, q: nat)
    requires Reachable(cfg, s) && q < |s.qps| && DispatcherEnabled(s.qps[q], Post)
    ensures |s.qps[q].queue[0].batch| + Leaked(s.qps[q].posted) < MAX_SEND_WR
  {
    ReachableInv(cfg, s);
    BeforePost(cfg.regions, q, s.qps[q]);
  }

  lemma StepKeepsPosted(cfg: Config, s: System, step: Step, q: nat)
    requires Enabled(cfg, s, step) && q < |s.qps|
    ensures var s' := Do(cfg, s, step);
      && |s'.qps| == |s.qps|
      && if step == Dispatch(q, Post) then s.qps[q].queue != [] && s'.qps[q].posted == s.qps[q].posted + [s.qps[q].queue[0]]
         else s'.qps[q].posted == s.qps[q].posted
  {
    if step.Dispatch? {
      if step.q == q {
        DispatcherPosted(cfg.regions, q, s.qps[q], step.d);
      }
    } else {
      OthersKeepQueue(cfg, s, step, q);
    }
  }

  lemma DispatcherPosted(regions: Regions, q: nat, qp: Qp, d: DispatcherStep)
    requires DispatcherEnabled(qp, d)
    ensures DispatcherDo(regions, q, qp, d).posted == if d == Post then qp.posted + [qp.queue[0]] else qp.posted
  {
  }

  lemma StepAdmissible(cfg: Config, s: System, step: Step, q: nat)
    requires Reachable(cfg, s) && Enabled(cfg, s, step) && q < |s.qps| && Admissible(s.qps[q].posted)
    ensures q < |Do(cfg, s, step).qps| && Admissible(Do(cfg, s, step).qps[q].posted)
  {
    StepKeepsPosted(cfg, s, step, q);
    if step == Dispatch(q, Post) {
      PostAdmits(cfg, s, q);
      AdmissibleSnoc(s.qps[q].posted, s.qps[q].queue[0]);
    }
  }

  lemma InitAdmissible(cfg: Config, q: nat)
    requires q < QP_LIST_LEN
    ensures AdmissibleOn(Init(cfg), q)
  {
    assert Init(cfg).qps[q] == INIT_QP;
  }

  ghost predicate AdmissibleOn(s: System, q: nat) {
    q < |s.qps| && Admissible(s.qps[q].posted)
  }

  lemma NextAdmissible(cfg: Config, s: System, step: Step, s': System, q: nat)
    requires Reachable(cfg, s) && Next(cfg, s, step, s') && AdmissibleOn(s, q)
    ensures AdmissibleOn(s', q)
  {
    StepAdmissible(cfg, s, step, q);
  }

  lemma {:induction false} RunAdmissible(cfg: Config, states: seq<System>, steps: seq<Step>, n: nat, q: nat)
    requires IsRun(cfg, states, steps) && Reachable(cfg, states[0]) && AdmissibleOn(states[0], q) && n <= |steps|
    ensures AdmissibleOn(states[n], q)
  {
    if n > 0 {
      RunAdmissible(cfg, states, steps, n - 1, q);
      RunReaches(cfg, states, steps, n - 1);
      NextAdmissible(cfg, states[n - 1], steps[n - 1], states[n], q);
    }
  }

  lemma PostedAdmissible(cfg: Config, s: System, q: nat)
    requires Reachable(cfg, s) && q < |s.qps|
    ensures Admissible(s.qps[q].posted)
  {
    StopFacts(cfg, s);
    var states, steps :| IsRun(cfg, states, steps) && states[0] == Init(cfg) && states[|steps|] == s;
    InitReachable(cfg);
    InitAdmissible(cfg, q);
    RunAdmissible(cfg, states, steps, |steps|, q);
  }

  lemma StuckIsInadmissible(cfg: Config, s: System, q: nat)
    requires Reachable(cfg, s) && q < |s.qps| && Stuck(s.qps[q]) && Unposted(s.qps[q]) == s.qps[q].queue
    ensures !Admissible(PlacedOn(s.subs, q))
  {
    OrderFacts(cfg, s, q);
    var p := |s.qps[q].posted|;
    assert PlacedOn(s.subs, q)[p] == s.qps[q].queue[0];
    assert PlacedOn(s.subs, q)[..p] == s.qps[q].posted;
  }

  lemma DrainedIsAdmissible(cfg: Config, s: System, q: nat)
    requires Reachable(cfg, s) && q < |s.qps| && QpDrained(s, q)
    ensures Admissible(PlacedOn(s.subs, q))
  {
    OrderFacts(cfg, s, q);
    PostedAdmissible(cfg, s, q);
    assert PlacedOn(s.subs, q) == s.qps[q].posted;
  }

  /** A running system at rest has drained QP q if and only if what was submitted there is
      admissible; so SEND and RECV batches totalling MAX_SEND_WR or more always stop it. */
  lemma DrainsExactlyWhen(cfg: Config, s: System, q: nat)
    requires Reachable(cfg, s) && Quiet(s) && s.spc == Running && q < |s.qps|
    ensures QpDrained(s, q) <==> Admissible(PlacedOn(s.subs, q))
  {
    RestsDrained(cfg, s, q);
    QuietQp(cfg, s, q);
    if Stuck(s.qps[q]) {
      StuckIsInadmissible(cfg, s, q);
    } else {
      DrainedIsAdmissible(cfg, s, q);
    }
  }

  // ----- Batches that stop a queue -----

  lemma {:induction false} LeakedConcat(a: seq<Chunk>, b: seq<Chunk>)
    ensures Leaked(a + b) == Leaked(a) + Leaked(b)
    decreases |b|
  {
    if b == [] {
      assert a + b == a;
    } else {
      LeakedConcat(a, b[..|b| - 1]);
      assert (a + b)[..|a + b| - 1] == a + b[..|b| - 1];
    }
  }

  lemma {:induction false} LeakedPrefix(sid: nat, opcode: OpCode, batch: seq<Assignment>, k: nat)
    requires opcode != READ && k <= ChunkCount(|batch|)
    ensures Leaked(Chunks(sid, opcode, batch)[..k]) == Min(|batch|, Start(k))
  {
    if k > 0 {
      var chunks := Chunks(sid, opcode, batch);
      assert chunks[..k] == chunks[..k - 1] + [chunks[k - 1]];
      LeakedSnoc(chunks[..k - 1], chunks[k - 1]);
      LeakedPrefix(sid, opcode, batch, k - 1);
    }
  }

  /** A SEND or RECV batch is admissible on an unused queue pair if and only if it has fewer
      than MAX_SEND_WR assignments. */
  lemma AdmissibleExactly(sid: nat, opcode: OpCode, batch: seq<Assignment>)
    requires opcode != READ
    ensures Admissible(Chunks(sid, opcode, batch)) <==> |batch| < MAX_SEND_WR
  {
    var chunks := Chunks(sid, opcode, batch);
    forall p | 0 <= p < |chunks|
      ensures |chunks[p].batch| + Leaked(chunks[..p]) == Min(|batch|, Start(p + 1))
    {
      LeakedPrefix(sid, opcode, batch, p);
    }
    if |batch| >= MAX_SEND_WR {
      assert Min(|batch|, Start(2)) == MAX_SEND_WR && 1 < |chunks|;
      assert |chunks[1].batch| + Leaked(chunks[..1]) == MAX_SEND_WR;
    }
  }

  lemma InadmissibleAfter(before: seq<Chunk>, chunks: seq<Chunk>)
    requires !Admissible(chunks)
    ensures !Admissible(before + chunks)
  {
    var p :| 0 <= p < |chunks| && |chunks[p].batch| + Leaked(chunks[..p]) >= MAX_SEND_WR;
    LeakedConcat(before, chunks[..p]);
    assert (before + chunks)[..|before| + p] == before + chunks[..p];
    assert (before + chunks)[|before| + p] == chunks[p];
  }

  lemma {:induction false} OwedRunStays(cfg: Config, states: seq<System>, steps: seq<Step>, n: nat)
    requires IsRun(cfg, states, steps) && states[0].spc == Running && n <= |steps|
    requires forall i :: 0 <= i < |steps| ==> Owed(steps[i])
    ensures states[n].subs == states[0].subs && states[n].spc == Running
  {
    if n > 0 {
      OwedRunStays(cfg, states, steps, n - 1);
      assert Next(cfg, states[n - 1], steps[n - 1], states[n]);
      StaysRunning(cfg, states[n - 1], steps[n - 1]);
    }
  }

  lemma PlacedNext(subs: seq<Submission>, sub: Submission)
    ensures PlacedOn(subs + [sub], sub.q) == PlacedOn(subs, sub.q) + Chunks(|subs|, sub.opcode, sub.batch)
  {
    assert (subs + [sub])[..|subs|] == subs;
  }

  /** Submitting MAX_SEND_WR or more SEND or RECV assignments at once to any running system
      leads it, by steps the threads and the NIC owe, to rest with that queue stuck. */
  lemma LargeBatchStalls(cfg: Config, s: System, q: nat, opcode: OpCode, batch: seq<Assignment>)
    returns (states: seq<System>, steps: seq<Step>)
    requires Reachable(cfg, s) && s.spc == Running && Enabled(cfg, s, Acquire(q, opcode, batch))
    requires opcode != READ && |batch| >= MAX_SEND_WR
    ensures IsRun(cfg, states, steps) && states[0] == Do(cfg, s, Acquire(q, opcode, batch))
    ensures forall i :: 0 <= i < |steps| ==> Owed(steps[i])
    ensures var r := states[|steps|];
      Reachable(cfg, r) && Quiet(r) && r.spc == Running && q < |r.qps| && !QpDrained(r, q) && Stuck(r.qps[q])
      && BeforeTest(r.qps[q])
  {
    var s' := Do(cfg, s, Acquire(q, opcode, batch));
    StepReachable(cfg, s, Acquire(q, opcode, batch), s');
    states, steps := RunsToQuiet(cfg, s');
    var r := states[|steps|];
    RunReaches(cfg, states, steps, |steps|);
    OwedRunStays(cfg, states, steps, |steps|);
    AdmissibleExactly(|s.subs|, opcode, batch);
    PlacedNext(s.subs, Submission(q, opcode, batch));
    InadmissibleAfter(PlacedOn(s.subs, q), Chunks(|s.subs|, opcode, batch));
    RestsStuck(cfg, s, r, q);
  }

  lemma RestsStuck(cfg: Config, s: System, r: System, q: nat)
    requires Reachable(cfg, s) && q < |s.qps|
    requires Reachable(cfg, r) && Quiet(r) && r.spc == Running && !Admissible(PlacedOn(r.subs, q))
    ensures q < |r.qps| && !QpDrained(r, q) && Stuck(r.qps[q]) && BeforeTest(r.qps[q])
  {
    StopFacts(cfg, s);
    StopFacts(cfg, r);
    DrainsExactlyWhen(cfg, r, q);
    RestsDrained(cfg, r, q);
    assert QpQuiet(r.qps[q]);
  }

  /** The stall is real: one submission to the initial system reaches it. */
  lemma StallReachable(cfg: Config, opcode: OpCode, batch: seq<Assignment>)
    requires Registered(cfg.regions, batch) && opcode != READ && |batch| >= MAX_SEND_WR
    ensures exists r :: Reachable(cfg, r) && Quiet(r) && r.spc == Running && |r.qps| > 0 && !QpDrained(r, 0)
  {
    InitReachable(cfg);
    var states, steps := LargeBatchStalls(cfg, Init(cfg), 0, opcode, batch);
    assert Reachable(cfg, states[|steps|]);
  }

  // ----- The drain bound -----

  /** Two for each chunk not posted yet, one for each READ chunk posted whose credits are out. */
  function QpBacklog(qp: Qp): nat {
    2 * |Unposted(qp)| + 2 * |Rest(qp.mutex)| + |WcToks(qp.cqd)| + |WrToks(Pending(qp.wrs, qp.status))|
  }

  function QpBacklogs(qps: seq<Qp>): (backlogs: seq<nat>)
    ensures |backlogs| == |qps|
  {
    seq(|qps|, q requires 0 <= q < |qps| => QpBacklog(qps[q]))
  }

  function QpsBacklog(qps: seq<Qp>): nat {
    Sum(QpBacklogs(qps))
  }

  lemma QpsBacklogUpdate(qps: seq<Qp>, q: nat, qp: Qp)
    requires q < |qps|
    ensures QpsBacklog(qps[q := qp]) + QpBacklog(qps[q]) == QpsBacklog(qps) + QpBacklog(qp)
  {
    assert QpBacklogs(qps[q := qp]) == QpBacklogs(qps)[q := QpBacklog(qp)];
    SumUpdate(QpBacklogs(qps), q, QpBacklog(qp));
  }

  /** The dispatch and completion steps the bound counts. */
  function Counted(step: Step): nat {
    if (step.Dispatch? && step.d.Post?) || step.Subtract? then 1 else 0
  }

  lemma PostBacklog(regions: Regions, q: nat, qp: Qp)
    requires |qp.status| <= |qp.wrs| && DispatcherEnabled(qp, Post) && GoodChunk(qp.queue[0])
    ensures QpBacklog(PostDo(regions, q, qp)) + 1 <= QpBacklog(qp)
  {
    var r := PostDo(regions, q, qp);
    var chain := SendChain(regions, q, qp.queue[0]);
    assert Pending(r.wrs, r.status) == Pending(qp.wrs, qp.status) + chain;
    WrToksConcat(Pending(qp.wrs, qp.status), chain);
    SendChainToks(regions, q, qp.queue[0]);
  }

  lemma DispatcherBacklog(regions: Regions, q: nat, qp: Qp, d: DispatcherStep)
    requires QpInv(regions, q, qp) && DispatcherEnabled(qp, d)
    ensures QpBacklog(DispatcherDo(regions, q, qp, d)) + (if d == Post then 1 else 0) <= QpBacklog(qp)
  {
    if d == Post {
      PostBacklog(regions, q, qp);
    } else {
      WqKeeps(WqOf(qp), d);
      WqUnposted(WqOf(qp), d);
    }
  }

  lemma PushBacklog(regions: Regions, q: nat, qp: Qp)
    requires QpInv(regions, q, qp) && qp.mutex.BySubmitter? && qp.mutex.rest != []
    ensures QpBacklog(PushDo(qp)) == QpBacklog(qp)
  {
    assert |Unposted(PushDo(qp))| == |Unposted(qp)| + 1;
  }

  lemma RetireBacklog(regions: Regions, q: nat, qp: Qp, ok: bool)
    requires QpInv(regions, q, qp) && |qp.status| < |qp.wrs|
    ensures QpBacklog(RetireDo(q, qp, ok)) == QpBacklog(qp)
  {
    RetireBooks(q, qp, ok);
    assert Unposted(RetireDo(q, qp, ok)) == Unposted(qp);
  }

  /** A handled entry takes its token, if any, off the books. */
  lemma HandledBacklog(qp: Qp, r: Qp)
    requires qp.cqd != [] && r.cqd == qp.cqd[1..]
    requires r.queue == qp.queue && r.mutex == qp.mutex && r.dpc == qp.dpc && r.wrs == qp.wrs && r.status == qp.status
    ensures QpBacklog(r) + |OptToks(qp.cqd[0].wrId)| == QpBacklog(qp)
  {
    assert Unposted(r) == Unposted(qp);
  }

  /** Fields the backlog reads. */
  lemma SameBacklog(qp: Qp, r: Qp)
    requires r.queue == qp.queue && r.dpc == qp.dpc && Rest(r.mutex) == Rest(qp.mutex)
    requires WcToks(r.cqd) == WcToks(qp.cqd)
    requires WrToks(Pending(r.wrs, r.status)) == WrToks(Pending(qp.wrs, qp.status))
    ensures QpBacklog(r) == QpBacklog(qp)
  {
    assert Unposted(r) == Unposted(qp);
  }

  lemma PushBacklogs(cfg: Config, s: System, q: nat)
    requires Reachable(cfg, s) && Enabled(cfg, s, Push(q))
    ensures QpsBacklog(Do(cfg, s, Push(q)).qps) == QpsBacklog(s.qps)
  {
    ReachableInv(cfg, s);
    PushBacklog(cfg.regions, q, s.qps[q]);
    QpsBacklogUpdate(s.qps, q, PushDo(s.qps[q]));
  }

  lemma NotifyBacklogs(cfg: Config, s: System, q: nat)
    requires Enabled(cfg, s, Notify(q))
    ensures QpsBacklog(Do(cfg, s, Notify(q)).qps) == QpsBacklog(s.qps)
  {
    SameBacklog(s.qps[q], NotifyDo(s.qps[q]));
    QpsBacklogUpdate(s.qps, q, NotifyDo(s.qps[q]));
  }

  lemma DispatcherBacklogAt(cfg: Config, s: System, q: nat, d: DispatcherStep)
    requires Reachable(cfg, s) && q < |s.qps| && DispatcherEnabled(s.qps[q], d)
    ensures QpBacklog(DispatcherDo(cfg.regions, q, s.qps[q], d)) + Counted(Dispatch(q, d)) <= QpBacklog(s.qps[q])
  {
    ReachableInv(cfg, s);
    DispatcherBacklog(cfg.regions, q, s.qps[q], d);
  }

  lemma DispatchBacklogs(cfg: Config, s: System, q: nat, d: DispatcherStep)
    requires Reachable(cfg, s) && q < |s.qps| && DispatcherEnabled(s.qps[q], d)
    ensures QpsBacklog(Do(cfg, s, Dispatch(q, d)).qps) + Counted(Dispatch(q, d)) <= QpsBacklog(s.qps)
  {
    DispatcherBacklogAt(cfg, s, q, d);
    QpsBacklogUpdate(s.qps, q, DispatcherDo(cfg.regions, q, s.qps[q], d));
  }

  lemma ExecuteBacklogs(cfg: Config, s: System, q: nat, i: nat)
    requires Enabled(cfg, s, Execute(q, i))
    ensures QpsBacklog(Do(cfg, s, Execute(q, i)).qps) == QpsBacklog(s.qps)
  {
    var r := ExecuteDo(s.qps[q], i);
    SameBacklog(s.qps[q], r);
    QpsBacklogUpdate(s.qps, q, r);
  }

  lemma OneQpInv(cfg: Config, s: System, q: nat)
    requires Reachable(cfg, s) && q < |s.qps|
    ensures QpInv(cfg.regions, q, s.qps[q])
  {
    ReachableInv(cfg, s);
  }

  lemma RetireBacklogs(cfg: Config, s: System, q: nat, ok: bool)
    requires Reachable(cfg, s) && q < |s.qps| && |s.qps[q].status| < |s.qps[q].wrs|
    ensures QpsBacklog(Retire(s, q, ok).qps) == QpsBacklog(s.qps)
  {
    OneQpInv(cfg, s, q);
    RetireBacklog(cfg.regions, q, s.qps[q], ok);
    QpsBacklogUpdate(s.qps, q, RetireDo(q, s.qps[q], ok));
  }

  lemma RecvBacklogs(cfg: Config, s: System, q: nat, ok: bool)
    requires Enabled(cfg, s, CompleteRecv(q, ok))
    ensures QpsBacklog(Do(cfg, s, CompleteRecv(q, ok)).qps) == QpsBacklog(s.qps)
  {
    var r := RecvDo(q, s.qps[q], ok);
    WcToksSnoc(s.qps[q].cqd, RecvWc(q, ok));
    SameBacklog(s.qps[q], r);
    QpsBacklogUpdate(s.qps, q, r);
  }

  lemma SkipBacklog(cfg: Config, s: System)
    requires Reachable(cfg, s) && Enabled(cfg, s, Step.Skip)
    ensures QpsBacklog(Do(cfg, s, Step.Skip).qps) == QpsBacklog(s.qps)
  {
    ReachableInv(cfg, s);
    CurrentEntry(cfg, s);
    var q := s.ppc.wcs[0].qpi;
    HandledBacklog(s.qps[q], HandledDo(s.qps[q]));
    QpsBacklogUpdate(s.qps, q, HandledDo(s.qps[q]));
  }

  lemma SubtractBacklog(cfg: Config, s: System)
    requires Reachable(cfg, s) && Enabled(cfg, s, Subtract)
    ensures QpsBacklog(Do(cfg, s, Subtract).qps) + 1 == QpsBacklog(s.qps)
  {
    ReachableInv(cfg, s);
    CurrentEntry(cfg, s);
    var q := s.ppc.wcs[0].qpi;
    var r := SubtractDo(s.qps[q], s.ppc.wcs[0].wrId.value);
    HandledBacklog(s.qps[q], r);
    QpsBacklogUpdate(s.qps, q, r);
  }

  lemma CallbackBacklog(cfg: Config, s: System)
    requires Enabled(cfg, s, Callback)
    ensures QpsBacklog(Do(cfg, s, Callback).qps) == QpsBacklog(s.qps)
  {
    var wc := s.ppc.wcs[0];
    var q := wc.wrId.value.qpi;
    var r := CallbackDo(s.qps[q], wc.wrId.value, wc);
    SameBacklog(s.qps[q], r);
    QpsBacklogUpdate(s.qps, q, r);
  }

  lemma StopSetBacklog(cfg: Config, s: System)
    requires Enabled(cfg, s, StopSet)
    ensures QpsBacklog(Do(cfg, s, StopSet).qps) == QpsBacklog(s.qps)
  {
    SameBacklog(s.qps[s.spc.k], StopSetDo(s.qps[s.spc.k]));
    QpsBacklogUpdate(s.qps, s.spc.k, StopSetDo(s.qps[s.spc.k]));
  }

  lemma StopNotifyBacklog(cfg: Config, s: System)
    requires Enabled(cfg, s, StopNotify)
    ensures QpsBacklog(Do(cfg, s, StopNotify).qps) == QpsBacklog(s.qps)
  {
    SameBacklog(s.qps[s.spc.k], StopNotifyDo(s.qps[s.spc.k]));
    QpsBacklogUpdate(s.qps, s.spc.k, StopNotifyDo(s.qps[s.spc.k]));
  }

  lemma StopPostBacklog(cfg: Config, s: System)
    requires Reachable(cfg, s) && Enabled(cfg, s, StopPost)
    ensures QpsBacklog(Do(cfg, s, StopPost).qps) == QpsBacklog(s.qps)
  {
    PcFacts(cfg, s, 0);
    var qp := s.qps[0];
    var r := WakeDo(qp);
    assert Pending(r.wrs, r.status) == Pending(qp.wrs, qp.status) + [WAKE_WR];
    WakeBooks(Pending(qp.wrs, qp.status));
    SameBacklog(qp, r);
    QpsBacklogUpdate(s.qps, 0, r);
  }

  lemma PollerBacklogs(cfg: Config, s: System, step: Step)
    requires Reachable(cfg, s) && Enabled(cfg, s, step) && (step.Skip? || step.Callback? || step.Subtract?)
    ensures QpsBacklog(Do(cfg, s, step).qps) + Counted(step) == QpsBacklog(s.qps)
  {
    match step
    case Skip => SkipBacklog(cfg, s);
    case Callback => CallbackBacklog(cfg, s);
    case Subtract => SubtractBacklog(cfg, s);
  }

  lemma NicBacklogs(cfg: Config, s: System, step: Step)
    requires Reachable(cfg, s) && Enabled(cfg, s, step)
    requires OfNic(step) && !LeavesQps(step)
    ensures QpsBacklog(Do(cfg, s, step).qps) == QpsBacklog(s.qps)
  {
    match step
    case Execute(q, i) => ExecuteBacklogs(cfg, s, q, i);
    case Complete(q) => RetireBacklogs(cfg, s, q, true);
    case Fail(q) => RetireBacklogs(cfg, s, q, false);
    case CompleteRecv(q, ok) => RecvBacklogs(cfg, s, q, ok);
  }

  lemma BacklogStep(cfg: Config, s: System, step: Step)
    requires Reachable(cfg, s)
    requires Enabled(cfg, s, step) && !step.Acquire?
    ensures QpsBacklog(Do(cfg, s, step).qps) + Counted(step) <= QpsBacklog(s.qps)
  {
    if LeavesQps(step) {
      QpsLeft(cfg, s, step);
    } else if step.Skip? || step.Callback? || step.Subtract? {
      PollerBacklogs(cfg, s, step);
    } else if step.Push? {
      PushBacklogs(cfg, s, step.q);
    } else if step.Notify? {
      NotifyBacklogs(cfg, s, step.q);
    } else if step.Dispatch? {
      DispatchBacklogs(cfg, s, step.q, step.d);
    } else if step.StopSet? {
      StopSetBacklog(cfg, s);
    } else if step.StopNotify? {
      StopNotifyBacklog(cfg, s);
    } else if step.StopPost? {
      StopPostBacklog(cfg, s);
    } else {
      NicBacklogs(cfg, s, step);
    }
  }

  lemma BacklogFalls(cfg: Config, s: System, step: Step, s': System)
    requires Reachable(cfg, s) && Next(cfg, s, step, s') && !step.Acquire?
    ensures QpsBacklog(s'.qps) + Counted(step) <= QpsBacklog(s.qps)
  {
    BacklogStep(cfg, s, step);
  }

  function CountAll(steps: seq<Step>): nat {
    if steps == [] then 0 else CountAll(steps[..|steps| - 1]) + Counted(steps[|steps| - 1])
  }

  /** With no new submission, any run makes at most 2 * queued + in-flight posts and credit
      returns, whatever else is interleaved with them. */
  lemma {:induction false} DrainBound(cfg: Config, states: seq<System>, steps: seq<Step>)
    requires IsRun(cfg, states, steps) && Reachable(cfg, states[0])
    requires forall i :: 0 <= i < |steps| ==> !steps[i].Acquire?
    ensures Reachable(cfg, states[|steps|])
    ensures CountAll(steps) + QpsBacklog(states[|steps|].qps) <= QpsBacklog(states[0].qps)
    decreases |steps|
  {
    if steps != [] {
      var n := |steps| - 1;
      RunInit(cfg, states, steps);
      DrainBound(cfg, states[..|steps|], steps[..n]);
      assert Next(cfg, states[n], steps[n], states[n + 1]);
      StepReachable(cfg, states[n], steps[n], states[n + 1]);
      BacklogFalls(cfg, states[n], steps[n], states[n + 1]);
    }
  }

  lemma RunInit(cfg: Config, states: seq<System>, steps: seq<Step>)
    requires IsRun(cfg, states, steps) && steps != []
    ensures IsRun(cfg, states[..|steps|], steps[..|steps| - 1])
  {
    forall i | 0 <= i < |steps| - 1
      ensures Next(cfg, states[..|steps|][i], steps[..|steps| - 1][i], states[..|steps|][i + 1])
    {
      assert Next(cfg, states[i], steps[i], states[i + 1]);
    }
  }
}
