/** RDMAContext as the source writes it: queue pairs, counters, arrays and loops.  The ghost
    field `sys` is the pipeline state the object is in; Valid() says that the fields agree with
    it and that it is reachable, so everything proved of reachable states holds of the object,
    and each method says which state the pipeline steps it takes lead to. */
module RdmaContext {
  import opened Types
  import opened Split
  import opened Chain
  import opened Tokens
  import opened Pipeline
  import opened Frames
  import opened QpInvariant
  import opened SystemInvariant
  import opened Placement
  import opened Safety
  import opened Access
  import opened StopRace
  import H = Handle
  import QM = QpManagement

  /** A run leads from s to r. */
  ghost predicate Reaches(cfg: Config, s: System, r: System) {
    exists states, steps :: IsRun(cfg, states, steps) && states[0] == s && states[|steps|] == r
  }

  lemma ReachesSelf(cfg: Config, s: System)
    ensures Reaches(cfg, s, s)
  {
    assert IsRun(cfg, [s], []);
  }

  lemma ReachesNext(cfg: Config, s: System, mid: System, step: Step, r: System)
    requires Reaches(cfg, s, mid) && Next(cfg, mid, step, r)
    ensures Reaches(cfg, s, r)
  {
    var states, steps :| IsRun(cfg, states, steps) && states[0] == s && states[|steps|] == mid;
    RunSnoc(cfg, states, steps, step, r);
  }

  lemma {:induction false} ReachesAlong(cfg: Config, s: System, states: seq<System>, steps: seq<Step>, n: nat)
    requires IsRun(cfg, states, steps) && Reaches(cfg, s, states[0]) && n <= |steps|
    ensures Reaches(cfg, s, states[n])
  {
    if n > 0 {
      ReachesAlong(cfg, s, states, steps, n - 1);
      ReachesNext(cfg, s, states[n - 1], steps[n - 1], states[n]);
    }
  }

  lemma ReachesOnward(cfg: Config, s: System, mid: System, r: System)
    requires Reaches(cfg, s, mid) && Reaches(cfg, mid, r)
    ensures Reaches(cfg, s, r)
  {
    var states, steps :| IsRun(cfg, states, steps) && states[0] == mid && states[|steps|] == r;
    ReachesAlong(cfg, s, states, steps, |steps|);
  }

  lemma ReachOn(cfg: Config, s: System, mid: System, step: Step)
    requires Reachable(cfg, mid) && Reaches(cfg, s, mid) && Enabled(cfg, mid, step)
    ensures Reachable(cfg, Do(cfg, mid, step)) && Reaches(cfg, s, Do(cfg, mid, step))
  {
    StepReachable(cfg, mid, step, Do(cfg, mid, step));
    ReachesNext(cfg, s, mid, step, Do(cfg, mid, step));
  }

  /** Steps of one dispatcher are steps of the system. */
  lemma {:induction false} DispatchLifts(cfg: Config, s: System, mid: System, q: nat, ds: seq<DispatcherStep>, r: Qp)
    requires Reachable(cfg, mid) && Reaches(cfg, s, mid) && q < |mid.qps|
    requires QM.QpFollows(cfg.regions, q, mid.qps[q], ds, r)
    ensures Reachable(cfg, SetQp(mid, q, r)) && Reaches(cfg, s, SetQp(mid, q, r))
    decreases |ds|
  {
    if ds == [] {
      assert SetQp(mid, q, r) == mid;
    } else {
      var step := Dispatch(q, ds[0]);
      var next := Do(cfg, mid, step);
      ReachOn(cfg, s, mid, step);
      DispatchLifts(cfg, s, next, q, ds[1..], r);
      assert SetQp(next, q, r) == SetQp(mid, q, r);
    }
  }

  /** What waits in a queue was submitted with registered keys. */
  lemma QueuedRegistered(cfg: Config, s: System, q: nat, i: nat)
    requires Reachable(cfg, s) && q < |s.qps| && i < |s.qps[q].queue| && s.qps[q].dpc != Posted
    ensures Registered(cfg.regions, s.qps[q].queue[i].batch)
  {
    OrderFacts(cfg, s, q);
    var p := |s.qps[q].posted| + i;
    assert PlacedOn(s.subs, q)[p] == s.qps[q].queue[i];
    PlacedRegistered(cfg, s, q, p);
  }

  lemma QueueDrainable(cfg: Config, s: System, q: nat)
    requires Reachable(cfg, s) && q < |s.qps| && s.qps[q].dpc != Posted
    ensures QM.Drainable(cfg.regions, s.qps[q].queue, s.qps[q].outstanding)
  {
    OrderFacts(cfg, s, q);
    CreditFacts(cfg, s, q);
    forall i | 0 <= i < |s.qps[q].queue|
      ensures Registered(cfg.regions, s.qps[q].queue[i].batch)
    {
      QueuedRegistered(cfg, s, q, i);
    }
  }

  // ----- submit -----

  /** The pipeline after a submitter has pushed the first i chunks. */
  function Pushing(s: System, q: nat, opcode: OpCode, batch: seq<Assignment>, i: nat): System
    requires q < |s.qps| && i <= ChunkCount(|batch|)
  {
    var qp, chunks := s.qps[q], Chunks(|s.subs|, opcode, batch);
    SetQp(s, q, qp.(mutex := BySubmitter(chunks[i..]), queue := qp.queue + chunks[..i], pushed := qp.pushed + chunks[..i]))
    .(subs := s.subs + [Submission(q, opcode, batch)])
  }

  /** The pipeline after the whole submission: its chunks follow what was queued, and a
      sleeping dispatcher has been notified. */
  function Submitted(s: System, q: nat, opcode: OpCode, batch: seq<Assignment>): System
    requires q < |s.qps|
  {
    var qp, chunks := s.qps[q], Chunks(|s.subs|, opcode, batch);
    SetQp(s, q, qp.(queue := qp.queue + chunks, pushed := qp.pushed + chunks, notified := qp.notified || qp.dpc == Asleep))
    .(subs := s.subs + [Submission(q, opcode, batch)])
  }

  lemma {:induction false} PushingReached(cfg: Config, s: System, q: nat, opcode: OpCode, batch: seq<Assignment>, i: nat)
    requires Reachable(cfg, s) && q < |s.qps| && s.qps[q].mutex == Free && Registered(cfg.regions, batch)
    requires i <= ChunkCount(|batch|)
    ensures Reachable(cfg, Pushing(s, q, opcode, batch, i)) && Reaches(cfg, s, Pushing(s, q, opcode, batch, i))
  {
    if i == 0 {
      ReachesSelf(cfg, s);
      FirstPushing(cfg, s, q, opcode, batch);
      ReachOn(cfg, s, s, Acquire(q, opcode, batch));
    } else {
      PushingReached(cfg, s, q, opcode, batch, i - 1);
      NextPushing(cfg, s, q, opcode, batch, i - 1);
      ReachOn(cfg, s, Pushing(s, q, opcode, batch, i - 1), Push(q));
    }
  }

  lemma FirstPushing(cfg: Config, s: System, q: nat, opcode: OpCode, batch: seq<Assignment>)
    requires Enabled(cfg, s, Acquire(q, opcode, batch))
    ensures Pushing(s, q, opcode, batch, 0) == Do(cfg, s, Acquire(q, opcode, batch))
  {
    var chunks := Chunks(|s.subs|, opcode, batch);
    assert chunks[0..] == chunks && s.qps[q].queue + chunks[..0] == s.qps[q].queue;
    assert s.qps[q].pushed + chunks[..0] == s.qps[q].pushed;
  }

  lemma NextPushing(cfg: Config, s: System, q: nat, opcode: OpCode, batch: seq<Assignment>, i: nat)
    requires q < |s.qps| && i < ChunkCount(|batch|)
    ensures var now := Pushing(s, q, opcode, batch, i);
      Enabled(cfg, now, Push(q)) && Pushing(s, q, opcode, batch, i + 1) == Do(cfg, now, Push(q))
  {
    var qp, chunks := s.qps[q], Chunks(|s.subs|, opcode, batch);
    assert chunks[..i + 1] == chunks[..i] + [chunks[i]] && chunks[i..][1..] == chunks[i + 1..];
    Assoc(qp.queue, chunks[..i], [chunks[i]]);
    Assoc(qp.pushed, chunks[..i], [chunks[i]]);
  }

  lemma SubmittedReached(cfg: Config, s: System, q: nat, opcode: OpCode, batch: seq<Assignment>)
    requires Reachable(cfg, s) && q < |s.qps| && s.qps[q].mutex == Free && Registered(cfg.regions, batch)
    ensures Reachable(cfg, Submitted(s, q, opcode, batch)) && Reaches(cfg, s, Submitted(s, q, opcode, batch))
  {
    var n, chunks := ChunkCount(|batch|), Chunks(|s.subs|, opcode, batch);
    PushingReached(cfg, s, q, opcode, batch, n);
    var before, now := Pushing(s, q, opcode, batch, n), Submitted(s, q, opcode, batch);
    assert chunks[..n] == chunks && chunks[n..] == [];
    assert Do(cfg, before, Notify(q)) == now;
    ReachOn(cfg, s, before, Notify(q));
  }

  lemma SubmittedFields(s: System, q: nat, opcode: OpCode, batch: seq<Assignment>)
    requires q < |s.qps|
    ensures var r := Submitted(s, q, opcode, batch);
      && r.cq == s.cq && r.stopCq == s.stopCq && r.subs == s.subs + [Submission(q, opcode, batch)] && |r.qps| == |s.qps|
      && r.qps[q].queue == s.qps[q].queue + Chunks(|s.subs|, opcode, batch)
      && r.qps[q].outstanding == s.qps[q].outstanding && r.qps[q].wrs == s.qps[q].wrs && r.qps[q].fired == s.qps[q].fired
      && r.qps[q].rwrs == s.qps[q].rwrs && r.qps[q].stop == s.qps[q].stop
      && forall p :: 0 <= p < |s.qps| && p != q ==> r.qps[p] == s.qps[p]
  {
  }

  lemma ChunksAre(sid: nat, opcode: OpCode, batch: seq<Assignment>)
    ensures var chunks, pieces := Chunks(sid, opcode, batch), Pieces(batch);
      |chunks| == |pieces|
      && forall j :: 0 <= j < |pieces| ==> chunks[j] == Chunk(sid, j, j == |pieces| - 1, opcode, pieces[j])
  {
  }

  /** A chunk with the caller's callback, and the end of the batch in it. */
  ghost predicate LastOfBatch(c: Chunk, sid: nat, opcode: OpCode, batch: seq<Assignment>) {
    && c.last && c.sid == sid && c.opcode == opcode && 1 <= |c.batch| <= |batch|
    && c.batch == batch[|batch| - |c.batch|..] && |c.batch| <= 4096 && |batch| - |c.batch| == 4096 * c.idx
  }

  lemma LastPiece(batch: seq<Assignment>)
    requires batch != []
    ensures var n := |Pieces(batch)| - 1; var piece := Pieces(batch)[n];
      1 <= |piece| <= 4096 && |batch| - |piece| == 4096 * n && piece == batch[|batch| - |piece|..]
  {
  }

  /** For a READ that chunk is the one of the submission's final callback. */
  lemma LastIsFinal(s: System, q: nat, batch: seq<Assignment>, c: Chunk)
    requires q < |s.qps| && batch != [] && LastOfBatch(c, |s.subs|, READ, batch)
    ensures var r := Submitted(s, q, READ, batch);
      IsReadAssignment(r.subs, |s.subs|, 0) && FinalToken(r.subs, |s.subs|) == Token(c, q)
  {
    SubmittedSubs(s, q, batch);
    LastPiece(batch);
    var n := |Pieces(batch)| - 1;
    assert 4096 * c.idx + |c.batch| == 4096 * n + |Pieces(batch)[n]|;
  }

  /** What submit answers, from what it pushed last. */
  ghost predicate Answer(handle: Option<Chunk>, sid: nat, opcode: OpCode, pieces: seq<seq<Assignment>>) {
    && (handle.None? <==> pieces == [])
    && (handle.Some? ==> handle.value == Chunk(sid, |pieces| - 1, true, opcode, pieces[|pieces| - 1]))
  }

  lemma AnswerIsLast(handle: Option<Chunk>, sid: nat, opcode: OpCode, batch: seq<Assignment>)
    requires Answer(handle, sid, opcode, Pieces(batch))
    ensures handle.None? <==> batch == []
    ensures handle.Some? ==> LastOfBatch(handle.value, sid, opcode, batch)
  {
    SplitCorrect(batch);
    if batch != [] {
      LastPiece(batch);
    }
  }

  /** For a READ the answer is the handle that the final callback of the submission belongs to,
      and that callback has yet to run. */
  lemma AnswerIsFinal(cfg: Config, s: System, q: nat, batch: seq<Assignment>, handle: Option<Chunk>)
    requires Reachable(cfg, s) && Enabled(cfg, s, Acquire(q, READ, batch)) && batch != []
    requires Answer(handle, |s.subs|, READ, Pieces(batch)) && Reachable(cfg, Submitted(s, q, READ, batch))
    ensures var r := Submitted(s, q, READ, batch);
      && handle.Some? && IsReadAssignment(r.subs, |s.subs|, 0)
      && FinalToken(r.subs, |s.subs|) == Token(handle.value, q)
      && H.WorldStart(cfg, |s.subs|, H.World(r, H.NEW_LATCH))
  {
    var r := Submitted(s, q, READ, batch);
    SplitCorrect(batch);
    SubmittedSubs(s, q, batch);
    H.NewFinalToken(s.subs, Submission(q, READ, batch));
    if FinalToken(r.subs, |s.subs|) in FiredToks(s.qps[q].fired) {
      H.FiredAreOlder(cfg, s, q, FinalToken(r.subs, |s.subs|));
    }
  }

  lemma AnswerExact(cfg: Config, s: System, q: nat, opcode: OpCode, batch: seq<Assignment>, handle: Option<Chunk>)
    requires Reachable(cfg, s) && Enabled(cfg, s, Acquire(q, opcode, batch))
    requires Answer(handle, |s.subs|, opcode, Pieces(batch)) && Reachable(cfg, Submitted(s, q, opcode, batch))
    ensures handle.None? <==> batch == []
    ensures handle.Some? ==> LastOfBatch(handle.value, |s.subs|, opcode, batch)
    ensures var r := Submitted(s, q, opcode, batch);
      handle.Some? && opcode == READ ==>
        && IsReadAssignment(r.subs, |s.subs|, 0) && FinalToken(r.subs, |s.subs|) == Token(handle.value, q)
        && H.WorldStart(cfg, |s.subs|, H.World(r, H.NEW_LATCH))
  {
    AnswerIsLast(handle, |s.subs|, opcode, batch);
    if opcode == READ && batch != [] {
      AnswerIsFinal(cfg, s, q, batch, handle);
    }
  }

  lemma SubmittedSubs(s: System, q: nat, batch: seq<Assignment>)
    requires q < |s.qps| && batch != []
    ensures var r := Submitted(s, q, READ, batch);
      && r.subs == s.subs + [Submission(q, READ, batch)] && |r.qps| == |s.qps| && r.qps[q].fired == s.qps[q].fired
      && IsReadAssignment(r.subs, |s.subs|, 0) && r.subs[|s.subs|].q == q
      && FinalToken(r.subs, |s.subs|).qpi == q
      && FinalToken(r.subs, |s.subs|).chunk == Chunk(|s.subs|, |Pieces(batch)| - 1, true, READ, Pieces(batch)[|Pieces(batch)| - 1])
  {
  }

  // ----- wq_dispatch_handle -----

  /** It has posted what the window admits; it leaves if the queue is empty, and otherwise
      sleeps on, still holding the mutex. */
  ghost predicate Dispatched(regions: Regions, q: nat, qp: Qp, r: Qp) {
    var k := QM.Admitted(qp.queue, qp.outstanding);
    && r.queue == qp.queue[k..] && r.fired == qp.fired
    && r.wrs == qp.wrs + SendChains(regions, q, qp.queue[..k])
    && r.rwrs == qp.rwrs + RecvChains(regions, qp.queue[..k])
    && r.outstanding == qp.outstanding + QM.Size(qp.queue[..k]) && r.stop == qp.stop
    && (if r.queue == [] then r.dpc == Top && r.mutex == Free else r.dpc == Drain && r.mutex == ByDispatcher)
  }

  function Left(qp: Qp): Qp {
    if qp.queue == [] then qp.(dpc := Top, mutex := Free) else qp
  }

  lemma DrainHoldsMutex(cfg: Config, s: System, q: nat)
    requires Reachable(cfg, s) && q < |s.qps| && s.qps[q].dpc == Drain
    ensures s.qps[q].mutex == ByDispatcher
  {
    ReachableInv(cfg, s);
  }

  lemma LeftReached(cfg: Config, s: System, mid: System, q: nat)
    requires Reachable(cfg, mid) && Reaches(cfg, s, mid) && q < |mid.qps| && mid.qps[q].dpc == Drain
    ensures Reachable(cfg, SetQp(mid, q, Left(mid.qps[q]))) && Reaches(cfg, s, SetQp(mid, q, Left(mid.qps[q])))
  {
    assert SetQp(mid, q, mid.qps[q]) == mid;
    if mid.qps[q].queue == [] {
      ReachOn(cfg, s, mid, Dispatch(q, LeaveDrain));
    }
  }

  lemma DrainReached(cfg: Config, s: System, q: nat, r: Qp)
    requires Reachable(cfg, s) && q < |s.qps| && s.qps[q].dpc == Drain
    requires QM.Drained(cfg.regions, q, s.qps[q], QM.Admitted(s.qps[q].queue, s.qps[q].outstanding), r)
    ensures Reachable(cfg, SetQp(s, q, Left(r))) && Reaches(cfg, s, SetQp(s, q, Left(r)))
    ensures Dispatched(cfg.regions, q, s.qps[q], Left(r))
  {
    var drained := SetQp(s, q, r);
    LeadsReached(cfg, s, q, r);
    DrainHoldsMutex(cfg, drained, q);
    LeftReached(cfg, s, drained, q);
    assert SetQp(drained, q, Left(r)) == SetQp(s, q, Left(r));
  }

  /** The dispatcher is about to take the mutex, for the first time or out of wait(). */
  predicate AboutToLock(qp: Qp) {
    qp.mutex == Free && (qp.dpc == Top || (qp.dpc == Asleep && qp.notified))
  }

  /** It has the mutex and is about to test the predicate. */
  function InPredicate(qp: Qp): Qp {
    qp.(dpc := Locked, mutex := ByDispatcher, notified := if qp.dpc == Asleep then false else qp.notified)
  }

  /** Where some steps of its dispatcher lead a queue pair, they lead the system. */
  lemma LeadsReached(cfg: Config, s: System, q: nat, r: Qp)
    requires Reachable(cfg, s) && q < |s.qps| && QM.Leads(cfg.regions, q, s.qps[q], r)
    ensures Reachable(cfg, SetQp(s, q, r)) && Reaches(cfg, s, SetQp(s, q, r))
  {
    var ds :| QM.QpFollows(cfg.regions, q, s.qps[q], ds, r);
    ReachesSelf(cfg, s);
    DispatchLifts(cfg, s, s, q, ds, r);
  }

  lemma InPredicateLeads(regions: Regions, q: nat, qp: Qp)
    requires AboutToLock(qp) && (qp.dpc == Top ==> !qp.stop)
    ensures QM.Leads(regions, q, qp, InPredicate(qp))
  {
    OneStepLeads(regions, q, qp, if qp.dpc == Top then Lock else Wake, InPredicate(qp));
  }

  lemma OneStepLeads(regions: Regions, q: nat, qp: Qp, d: DispatcherStep, r: Qp)
    requires DispatcherEnabled(qp, d) && r == DispatcherDo(regions, q, qp, d)
    ensures QM.Leads(regions, q, qp, r)
  {
    assert QM.QpFollows(regions, q, r, [], r);
    QM.QpFollowsCons(regions, q, qp, d, r, [], r);
  }

  lemma TestLeads(regions: Regions, q: nat, qp: Qp, r: Qp)
    requires AboutToLock(qp) && (qp.dpc == Top ==> !qp.stop)
    requires r == DispatcherDo(regions, q, InPredicate(qp), TestPredicate)
    ensures QM.Leads(regions, q, qp, r)
  {
    InPredicateLeads(regions, q, qp);
    OneStepLeads(regions, q, InPredicate(qp), TestPredicate, r);
    QM.LeadsFurther(regions, q, qp, InPredicate(qp), r);
  }

  /** How a turn of the outer loop ends: the thread returns, sleeps in wait(), has emptied the
      queue, or sleeps because the window is closed. */
  datatype WqOutcome = WqReturned | WqSlept | WqEmptied | WqRefused

  /** The stop flag is tested first, then the queue. */
  ghost predicate WqTurn(regions: Regions, q: nat, qp: Qp, r: Qp, out: WqOutcome) {
    && (out == WqReturned <==> qp.stop) && (out == WqSlept <==> !qp.stop && qp.queue == [])
    && match out
       case WqReturned => r == qp.(dpc := Exited, notified := if qp.dpc == Asleep then false else qp.notified)
       case WqSlept => r == qp.(dpc := Asleep, notified := false)
       case WqEmptied => Dispatched(regions, q, qp, r) && r.queue == []
       case WqRefused => Dispatched(regions, q, qp, r) && r.queue != []
  }

  function Ended(qp: Qp): Qp {
    qp.(dpc := Exited, notified := if qp.dpc == Asleep then false else qp.notified)
  }

  lemma EndedReached(cfg: Config, s: System, q: nat)
    requires Reachable(cfg, s) && q < |s.qps| && AboutToLock(s.qps[q]) && s.qps[q].stop
    ensures var r := SetQp(s, q, Ended(s.qps[q])); Reachable(cfg, r) && Reaches(cfg, s, r)
  {
    var qp := s.qps[q];
    if qp.dpc == Top {
      OneStepLeads(cfg.regions, q, qp, Exit, Ended(qp));
    } else {
      TestLeads(cfg.regions, q, qp, Ended(qp));
    }
    LeadsReached(cfg, s, q, Ended(qp));
  }

  function Sleeping(qp: Qp): Qp {
    qp.(dpc := Asleep, notified := false)
  }

  lemma SleepingLeads(regions: Regions, q: nat, qp: Qp)
    requires AboutToLock(qp) && !qp.stop && qp.queue == []
    ensures QM.Leads(regions, q, qp, Sleeping(qp))
  {
    var tested := DispatcherDo(regions, q, InPredicate(qp), TestPredicate);
    TestLeads(regions, q, qp, tested);
    OneStepLeads(regions, q, tested, Sleep, Sleeping(qp));
    QM.LeadsFurther(regions, q, qp, tested, Sleeping(qp));
  }

  lemma SleepingReached(cfg: Config, s: System, q: nat)
    requires Reachable(cfg, s) && q < |s.qps| && AboutToLock(s.qps[q]) && !s.qps[q].stop && s.qps[q].queue == []
    ensures var r := SetQp(s, q, Sleeping(s.qps[q])); Reachable(cfg, r) && Reaches(cfg, s, r)
  {
    SleepingLeads(cfg.regions, q, s.qps[q]);
    LeadsReached(cfg, s, q, Sleeping(s.qps[q]));
  }

  /** The dispatcher has taken the mutex and found work. */
  function Entered(qp: Qp): Qp {
    InPredicate(qp).(dpc := Drain)
  }

  lemma EnteredReached(cfg: Config, s: System, q: nat)
    requires Reachable(cfg, s) && q < |s.qps| && AboutToLock(s.qps[q]) && !s.qps[q].stop && s.qps[q].queue != []
    ensures var r := SetQp(s, q, Entered(s.qps[q])); Reachable(cfg, r) && Reaches(cfg, s, r)
  {
    TestLeads(cfg.regions, q, s.qps[q], Entered(s.qps[q]));
    LeadsReached(cfg, s, q, Entered(s.qps[q]));
  }

  // ----- cq_poll_handle -----

  /** What handling one completion does to queue pair p. */
  function Handled(qp: Qp, p: nat, wc: Wc): Qp {
    if wc.qpi != p then qp
    else if wc.wrId.None? then HandledDo(qp)
    else SubtractDo(CallbackDo(qp, wc.wrId.value, wc), wc.wrId.value)
  }

  function HandledAll(qp: Qp, p: nat, wcs: seq<Wc>): Qp {
    if wcs == [] then qp else Handled(HandledAll(qp, p, wcs[..|wcs| - 1]), p, wcs[|wcs| - 1])
  }

  /** The callbacks that a run of completions leads to. */
  function CallbacksOf(wcs: seq<Wc>): seq<Fired> {
    if wcs == [] then [] else CallbackOf(wcs[0]) + CallbacksOf(wcs[1..])
  }

  function CallbackOf(wc: Wc): seq<Fired> {
    if wc.wrId.Some? then [Fired(wc.wrId.value, wc.ok, wc.index)] else []
  }

  lemma CallbacksOfOne(wc: Wc)
    ensures CallbacksOf([wc]) == CallbackOf(wc)
  {
    assert [wc][1..] == [];
  }

  lemma {:induction false} CallbacksOfSnoc(wcs: seq<Wc>, wc: Wc)
    ensures CallbacksOf(wcs + [wc]) == CallbacksOf(wcs) + CallbacksOf([wc])
  {
    if wcs == [] {
      assert wcs + [wc] == [wc];
    } else {
      var rest := wcs[1..];
      CallbacksOfSnoc(rest, wc);
      assert (wcs + [wc])[0] == wcs[0] && (wcs + [wc])[1..] == rest + [wc];
      Assoc(CallbackOf(wcs[0]), CallbacksOf(rest), CallbacksOf([wc]));
    }
  }

  /** The completion, if it is queue pair p's. */
  function Own(wc: Wc, p: nat): seq<Wc> {
    if wc.qpi == p then [wc] else []
  }

  lemma OwnLast(wcs: seq<Wc>, wc: Wc, p: nat)
    ensures CallbacksOf(Of(wcs + [wc], p)) == CallbacksOf(Of(wcs, p)) + CallbacksOf(Own(wc, p))
    ensures Credits(WcToks(Of(wcs + [wc], p))) == Credits(WcToks(Of(wcs, p))) + Credits(WcToks(Own(wc, p)))
  {
    OfSnoc(wcs, wc, p);
    assert Of(wcs, p) + [] == Of(wcs, p) && WcToks([wc][1..]) == [];
    if wc.qpi == p {
      CallbacksOfSnoc(Of(wcs, p), wc);
      WcToksSnoc(Of(wcs, p), wc);
      CreditsConcat(WcToks(Of(wcs, p)), OptToks(wc.wrId));
    }
  }

  lemma HandledExact(qp: Qp, p: nat, wc: Wc)
    ensures var r := Handled(qp, p, wc);
      && r.fired == qp.fired + CallbacksOf(Own(wc, p)) && r.outstanding == qp.outstanding - Credits(WcToks(Own(wc, p)))
      && r.queue == qp.queue && r.wrs == qp.wrs
  {
    CallbacksOfOne(wc);
    assert [wc][1..] == [] && qp.fired + [] == qp.fired;
    assert CallbacksOf([]) == [] && WcToks([]) == [];
  }

  /** Each queue pair gets the callbacks of its own completions, in CQ order, and its own
      credits back, whatever the completions of the others in between. */
  lemma {:induction false} HandledAllExact(qp: Qp, p: nat, wcs: seq<Wc>)
    ensures var r := HandledAll(qp, p, wcs);
      && r.fired == qp.fired + CallbacksOf(Of(wcs, p)) && r.outstanding == qp.outstanding - Credits(WcToks(Of(wcs, p)))
      && r.queue == qp.queue && r.wrs == qp.wrs
  {
    if wcs == [] {
      assert CallbacksOf([]) == [] && WcToks([]) == [] && qp.fired + [] == qp.fired;
    } else {
      var front, wc := wcs[..|wcs| - 1], wcs[|wcs| - 1];
      assert wcs == front + [wc];
      HandledAllExact(qp, p, front);
      OwnLast(front, wc, p);
      HandledNext(qp, p, front, HandledAll(qp, p, front), wc);
    }
  }

  lemma HandledNext(qp: Qp, p: nat, front: seq<Wc>, mid: Qp, wc: Wc)
    requires mid.fired == qp.fired + CallbacksOf(Of(front, p))
    requires mid.outstanding == qp.outstanding - Credits(WcToks(Of(front, p)))
    ensures var r := Handled(mid, p, wc);
      && r.fired == qp.fired + (CallbacksOf(Of(front, p)) + CallbacksOf(Own(wc, p)))
      && r.outstanding == qp.outstanding - (Credits(WcToks(Of(front, p))) + Credits(WcToks(Own(wc, p))))
      && r.queue == mid.queue && r.wrs == mid.wrs
  {
    HandledExact(mid, p, wc);
    Assoc(qp.fired, CallbacksOf(Of(front, p)), CallbacksOf(Own(wc, p)));
  }

  /** The poller is done with the first entry of its block. */
  function EntryDone(s: System): System {
    if !AtEntry(s) then s else
    s.(qps := seq(|s.qps|, p requires 0 <= p < |s.qps| => Handled(s.qps[p], p, s.ppc.wcs[0])),
       ppc := Handling(s.ppc.wcs[1..], false))
  }

  lemma EntryOwner(cfg: Config, s: System)
    requires Reachable(cfg, s) && AtEntry(s)
    ensures var wc := s.ppc.wcs[0];
      && wc.qpi < |s.qps| && (wc.wrId.Some? ==> wc.wrId.value.qpi == wc.qpi)
  {
    ReachableInv(cfg, s);
    CurrentEntry(cfg, s);
  }

  lemma EntryReached(cfg: Config, s: System, mid: System)
    requires Reachable(cfg, mid) && Reaches(cfg, s, mid) && AtEntry(mid) && !mid.ppc.called
    ensures Reachable(cfg, EntryDone(mid)) && Reaches(cfg, s, EntryDone(mid))
  {
    EntryOwner(cfg, mid);
    if mid.ppc.wcs[0].wrId.None? {
      SkipEntry(cfg, mid);
      ReachOn(cfg, s, mid, Step.Skip);
    } else {
      CallEntry(cfg, mid);
      ReachOn(cfg, s, mid, Callback);
      ReachOn(cfg, s, Do(cfg, mid, Callback), Subtract);
    }
  }

  lemma SkipEntry(cfg: Config, s: System)
    requires AtEntry(s) && !s.ppc.called && s.ppc.wcs[0].qpi < |s.qps| && s.ppc.wcs[0].wrId.None?
    ensures Enabled(cfg, s, Step.Skip) && EntryDone(s) == Do(cfg, s, Step.Skip)
  {
  }

  lemma CallEntry(cfg: Config, s: System)
    requires AtEntry(s) && !s.ppc.called && s.ppc.wcs[0].qpi < |s.qps|
    requires s.ppc.wcs[0].wrId.Some? && s.ppc.wcs[0].wrId.value.qpi == s.ppc.wcs[0].qpi
    ensures Enabled(cfg, s, Callback) && Enabled(cfg, Do(cfg, s, Callback), Subtract)
    ensures EntryDone(s) == Do(cfg, Do(cfg, s, Callback), Subtract)
  {
  }

  /** The poller is done with the first n entries of its block. */
  function EntriesDone(s: System, n: nat): System {
    if n == 0 then s else EntryDone(EntriesDone(s, n - 1))
  }

  lemma {:induction false} EntriesDoneExact(s: System, n: nat)
    requires s.ppc.Handling? && n <= |s.ppc.wcs|
    ensures var r := EntriesDone(s, n);
      && r == s.(qps := r.qps, ppc := r.ppc) && |r.qps| == |s.qps|
      && r.ppc == (if n == 0 then s.ppc else Handling(s.ppc.wcs[n..], false))
      && forall p :: 0 <= p < |s.qps| ==> r.qps[p] == HandledAll(s.qps[p], p, s.ppc.wcs[..n])
  {
    if n > 0 {
      EntriesDoneExact(s, n - 1);
      assert s.ppc.wcs[..n][..n - 1] == s.ppc.wcs[..n - 1];
    }
  }

  lemma {:induction false} EntriesReached(cfg: Config, s: System, start: System, n: nat)
    requires Reachable(cfg, start) && Reaches(cfg, s, start) && start.ppc.Handling? && !start.ppc.called
    requires n <= |start.ppc.wcs|
    ensures Reachable(cfg, EntriesDone(start, n)) && Reaches(cfg, s, EntriesDone(start, n))
    ensures EntriesDone(start, n).ppc == Handling(start.ppc.wcs[n..], false)
  {
    EntriesDoneExact(start, n);
    if n > 0 {
      EntriesReached(cfg, s, start, n - 1);
      EntryReached(cfg, s, EntriesDone(start, n - 1));
    }
  }

  lemma {:induction false} HandledAllConcat(qp: Qp, p: nat, a: seq<Wc>, b: seq<Wc>)
    ensures HandledAll(qp, p, a + b) == HandledAll(HandledAll(qp, p, a), p, b)
    decreases |b|
  {
    if b == [] {
      assert a + b == a;
    } else {
      HandledAllConcat(qp, p, a, b[..|b| - 1]);
      assert (a + b)[..|a + b| - 1] == a + b[..|b| - 1];
    }
  }

  /** The poller, which found the CQ holding t.cq, has handled the first k and is about to poll. */
  ghost predicate Progressed(t: System, k: nat, now: System) {
    && k <= |t.cq| && |now.qps| == |t.qps|
    && now == t.(qps := now.qps, cq := t.cq[k..], ppc := AtPoll)
    && forall p :: 0 <= p < |t.qps| ==> now.qps[p] == HandledAll(t.qps[p], p, t.cq[..k])
  }

  lemma ProgressStarts(t: System)
    requires t.ppc == AtPoll
    ensures Progressed(t, 0, t)
  {
    assert t.cq[..0] == [] && t.cq[0..] == t.cq;
  }

  lemma ProgressedBlock(t: System, k: nat, now: System, n: nat)
    requires Progressed(t, k, now) && k + n <= |t.cq|
    ensures Progressed(t, k + n, EntriesDone(Held(now, n), n).(ppc := AtPoll))
  {
    var held := Held(now, n);
    EntriesDoneExact(held, n);
    assert now.cq[..n] == t.cq[k..k + n] && now.cq[n..] == t.cq[k + n..];
    assert held.ppc.wcs[..n] == now.cq[..n] && held.qps == now.qps;
    forall p | 0 <= p < |t.qps|
      ensures HandledAll(t.qps[p], p, t.cq[..k + n]) == HandledAll(now.qps[p], p, now.cq[..n])
    {
      HandledAllConcat(t.qps[p], p, t.cq[..k], t.cq[k..k + n]);
      assert t.cq[..k + n] == t.cq[..k] + t.cq[k..k + n];
    }
  }

  /** The poller has taken n entries. */
  function Held(s: System, n: nat): System
    requires n <= |s.cq|
  {
    s.(cq := s.cq[n..], ppc := Handling(s.cq[..n], false))
  }

  /** The event has been taken and the CQ armed again. */
  function Rearmed(s: System): System
    requires s.events > 0
  {
    s.(ppc := AtPoll, events := s.events - 1, armed := true)
  }

  /** After a whole turn of the outer loop: every completion that was in the CQ is handled. */
  function Polled(s: System): System
    requires s.events > 0
  {
    s.(qps := seq(|s.qps|, p requires 0 <= p < |s.qps| => HandledAll(s.qps[p], p, s.cq)),
       cq := [], ppc := AtTop, events := s.events - 1, armed := true)
  }

  /** The poller found the stop flag set after polling: the block it holds is dropped. */
  function Abandoned(s: System): System
    requires s.events > 0
  {
    var n := Min(POLL_COUNT, |s.cq|);
    Rearmed(s).(ppc := Returned(s.cq[..n]), cq := s.cq[n..])
  }

  lemma RearmedReached(cfg: Config, s: System)
    requires Reachable(cfg, s) && s.ppc == AtGet && s.events > 0
    ensures Reachable(cfg, Rearmed(s)) && Reaches(cfg, s, Rearmed(s))
  {
    ReachesSelf(cfg, s);
    ReachOn(cfg, s, s, GetEvent);
    ReachOn(cfg, s, Do(cfg, s, GetEvent), Rearm);
  }

  lemma BlockTaken(cfg: Config, s: System, now: System, n: nat)
    requires Reachable(cfg, now) && Reaches(cfg, s, now) && now.ppc == AtPoll && !now.stopCq
    requires 1 <= n <= Min(POLL_COUNT, |now.cq|)
    ensures Reachable(cfg, Held(now, n)) && Reaches(cfg, s, Held(now, n))
  {
    ReachOn(cfg, s, now, PollSome(n));
  }

  lemma BlockEnds(cfg: Config, s: System, start: System, n: nat)
    requires Reachable(cfg, start) && Reaches(cfg, s, start) && start.ppc.Handling? && !start.ppc.called
    requires n == |start.ppc.wcs|
    ensures var r := EntriesDone(start, n).(ppc := AtPoll); Reachable(cfg, r) && Reaches(cfg, s, r)
  {
    EntriesReached(cfg, s, start, n);
    ReachOn(cfg, s, EntriesDone(start, n), EndBlock);
  }

  /** The pipeline after the poller has taken n entries, handled them, and come back to poll. */
  function AfterBlock(now: System, n: nat): System
    requires n <= |now.cq|
  {
    EntriesDone(Held(now, n), n).(ppc := AtPoll)
  }

  /** A turn that began in s has handled k completions and is about to poll. */
  ghost predicate Polling(cfg: Config, s: System, k: nat, now: System) {
    && s.events > 0 && Progressed(Rearmed(s), k, now)
    && Reachable(cfg, now) && Reaches(cfg, s, now)
  }

  lemma PollStarts(cfg: Config, s: System)
    requires Reachable(cfg, s) && s.ppc == AtGet && s.events > 0
    ensures Polling(cfg, s, 0, Rearmed(s))
  {
    RearmedReached(cfg, s);
    ProgressStarts(Rearmed(s));
  }

  lemma PollGoesOn(cfg: Config, s: System, k: nat, now: System, n: nat)
    requires Polling(cfg, s, k, now) && 1 <= n <= Min(POLL_COUNT, |now.cq|) && !s.stopCq
    ensures Reachable(cfg, Held(now, n)) && Polling(cfg, s, k + n, AfterBlock(now, n))
    ensures AfterBlock(now, n).cq == now.cq[n..]
  {
    BlockTaken(cfg, s, now, n);
    ProgressedBlock(Rearmed(s), k, now, n);
    BlockEnds(cfg, s, Held(now, n), n);
  }

  /** How many entries a poll gives. */
  function BlockSize(s: System): (n: nat)
    ensures n <= POLL_COUNT && n <= |s.cq| && (n == 0 <==> s.cq == [])
  {
    Min(POLL_COUNT, |s.cq|)
  }

  /** What one pass of the polling loop leads to. */
  function BlockPolled(s: System): System {
    var n := BlockSize(s);
    if n == 0 then s.(ppc := AtTop)
    else if s.stopCq then s.(ppc := Returned(s.cq[..n]), cq := s.cq[n..])
    else AfterBlock(s, n)
  }

  lemma HeldReached(cfg: Config, s: System, n: nat)
    requires Reachable(cfg, s) && s.ppc == AtPoll && !s.stopCq && 1 <= n <= BlockSize(s)
    ensures Reachable(cfg, Held(s, n)) && Reaches(cfg, s, Held(s, n))
  {
    ReachesSelf(cfg, s);
    BlockTaken(cfg, s, s, n);
  }

  lemma BlockReached(cfg: Config, s: System)
    requires Reachable(cfg, s) && s.ppc == AtPoll
    ensures Reachable(cfg, BlockPolled(s)) && Reaches(cfg, s, BlockPolled(s))
  {
    var n := BlockSize(s);
    ReachesSelf(cfg, s);
    if n == 0 {
      ReachOn(cfg, s, s, PollNone);
    } else if s.stopCq {
      ReachOn(cfg, s, s, PollSome(n));
    } else {
      HeldReached(cfg, s, n);
      BlockEnds(cfg, s, Held(s, n), n);
    }
  }

  /** A pass handles the oldest completions, at most POLL_COUNT of them, whole: each queue pair
      gets the callbacks of its own among them, in order, and its own credits back. */
  lemma BlockPolledExact(s: System, q: nat)
    requires s.ppc == AtPoll && s.cq != [] && !s.stopCq && q < |s.qps|
    ensures var r, block := BlockPolled(s), s.cq[..BlockSize(s)];
      && r.cq == s.cq[|block|..] && r.ppc == AtPoll && |r.qps| == |s.qps|
      && r.qps[q].fired == s.qps[q].fired + CallbacksOf(Of(block, q))
      && r.qps[q].outstanding == s.qps[q].outstanding - Credits(WcToks(Of(block, q)))
  {
    var n := BlockSize(s);
    EntriesDoneExact(Held(s, n), n);
    assert s.cq[..n][..n] == s.cq[..n];
    HandledAllExact(s.qps[q], q, s.cq[..n]);
  }

  lemma BlockPolledFields(s: System)
    ensures var n, r := BlockSize(s), BlockPolled(s);
      && r.cq == s.cq[n..] && r.subs == s.subs && r.stopCq == s.stopCq
      && r.qps == if n != 0 && !s.stopCq then EntriesDone(Held(s, n), n).qps else s.qps
  {
    var n := BlockSize(s);
    EntriesDoneExact(Held(s, n), n);
    assert s.cq[0..] == s.cq;
  }

  /** Between two passes of a turn that began in s: the last poll gave n entries. */
  ghost predicate InTurn(cfg: Config, s: System, k: nat, now: System, n: nat, stopped: bool) {
    && s.events > 0 && (stopped <==> s.stopCq && s.cq != [])
    && (n == 0 ==> !stopped && now == Polled(s) && Reaches(cfg, s, now))
    && (stopped ==> now == Abandoned(s) && Reaches(cfg, s, now))
    && (n != 0 && !stopped ==> Polling(cfg, s, k, now) && now.stopCq == s.stopCq == false)
  }

  ghost predicate TurnAt(cfg: Config, s: System, now: System, n: nat, stopped: bool) {
    exists k: nat :: InTurn(cfg, s, k, now, n, stopped)
  }

  lemma TurnBegins(cfg: Config, s: System)
    requires Reachable(cfg, s) && s.ppc == AtGet && s.events > 0
    ensures var n := BlockSize(s); TurnAt(cfg, s, BlockPolled(Rearmed(s)), n, n != 0 && s.stopCq)
  {
    var n := BlockSize(s);
    PollStarts(cfg, s);
    BlockOfTurn(cfg, s, 0, Rearmed(s));
    assert InTurn(cfg, s, n, BlockPolled(Rearmed(s)), n, n != 0 && s.stopCq);
  }

  lemma TurnGoesOn(cfg: Config, s: System, now: System, n: nat)
    requires TurnAt(cfg, s, now, n, false) && n != 0
    ensures now.ppc == AtPoll && !now.stopCq
    ensures TurnAt(cfg, s, BlockPolled(now), BlockSize(now), false)
  {
    var k :| InTurn(cfg, s, k, now, n, false);
    InTurnGoesOn(cfg, s, k, now, n);
  }

  lemma InTurnGoesOn(cfg: Config, s: System, k: nat, now: System, n: nat)
    requires InTurn(cfg, s, k, now, n, false) && n != 0
    ensures now.ppc == AtPoll && !now.stopCq
    ensures var m := BlockSize(now); InTurn(cfg, s, k + m, BlockPolled(now), m, false)
  {
    BlockOfTurn(cfg, s, k, now);
  }

  lemma TurnEnds(cfg: Config, s: System, now: System, n: nat, stopped: bool)
    requires TurnAt(cfg, s, now, n, stopped) && (n == 0 || stopped)
    ensures s.events > 0 && Reaches(cfg, s, now) && (stopped <==> s.stopCq && s.cq != [])
    ensures now == if stopped then Abandoned(s) else Polled(s)
  {
  }

  /** A pass within a turn that has handled k completions. */
  lemma BlockOfTurn(cfg: Config, s: System, k: nat, now: System)
    requires Polling(cfg, s, k, now)
    ensures var n, r := BlockSize(now), BlockPolled(now);
      && (n == 0 ==> r == Polled(s) && Reaches(cfg, s, r))
      && (n != 0 && !s.stopCq ==> Polling(cfg, s, k + n, r))
      && (n != 0 && s.stopCq && k == 0 ==> r == Abandoned(s) && Reaches(cfg, s, r))
  {
    var n := BlockSize(now);
    if n == 0 {
      PollEnds(cfg, s, k, now);
    } else if !s.stopCq {
      PollGoesOn(cfg, s, k, now, n);
    } else if k == 0 {
      PassAbandons(cfg, s, now);
    }
  }

  lemma PassAbandons(cfg: Config, s: System, now: System)
    requires Polling(cfg, s, 0, now) && now.cq != [] && s.stopCq
    ensures BlockPolled(now) == Abandoned(s) && Reaches(cfg, s, BlockPolled(now))
  {
    ProgressedNone(Rearmed(s), now);
    BlockReached(cfg, now);
    ReachesOnward(cfg, s, now, BlockPolled(now));
  }

  lemma ProgressedNone(t: System, now: System)
    requires Progressed(t, 0, now)
    ensures now == t.(ppc := AtPoll)
  {
    assert t.cq[..0] == [] && t.cq[0..] == t.cq;
    assert forall p :: 0 <= p < |t.qps| ==> now.qps[p] == t.qps[p];
    assert now.qps == t.qps;
  }

  lemma PollEnds(cfg: Config, s: System, k: nat, now: System)
    requires Polling(cfg, s, k, now) && now.cq == []
    ensures Reachable(cfg, Polled(s)) && Reaches(cfg, s, Polled(s))
    ensures Polled(s) == now.(ppc := AtTop)
  {
    assert s.cq[..k] == s.cq;
    assert now.(ppc := AtTop).qps == Polled(s).qps;
    ReachOn(cfg, s, now, PollNone);
  }

  /** A turn that finds the stop flag set runs no callback and returns no credit; what it had
      polled and what was left are all the completions there were. */
  lemma AbandonedExact(s: System)
    requires s.events > 0 && s.cq != []
    ensures var r := Abandoned(s);
      && r.qps == s.qps && r.ppc.Returned? && |r.ppc.dropped| == Min(256, |s.cq|) && r.ppc.dropped + r.cq == s.cq
  {
  }

  /** A turn of the poller empties the CQ; every queue pair has run the callbacks of exactly
      its own completions, in order, and has its own credits back. */
  lemma PolledExact(s: System, q: nat)
    requires s.events > 0 && q < |s.qps|
    ensures Polled(s).cq == []
    ensures Polled(s).qps[q].fired == s.qps[q].fired + CallbacksOf(Of(s.cq, q))
    ensures Polled(s).qps[q].outstanding == s.qps[q].outstanding - Credits(WcToks(Of(s.cq, q)))
  {
    HandledAllExact(s.qps[q], q, s.cq);
  }

  /** After the second half of stop_future: flag set, CQ armed, wake-up request posted. */
  function WakeRequested(s: System): System
    requires |s.qps| > 0
  {
    SetQp(s, 0, WakeDo(s.qps[0])).(stopCq := true, armed := true, spc := WakePosted)
  }

  lemma ArmReached(cfg: Config, s: System)
    requires Reachable(cfg, s) && |s.qps| == QP_LIST_LEN && s.spc == Joining(QP_LIST_LEN, Untold)
    ensures var r := s.(stopCq := true, armed := true, spc := CqArmed); Reachable(cfg, r) && Reaches(cfg, s, r)
  {
    ReachesSelf(cfg, s);
    ReachOn(cfg, s, s, StopCq);
    ReachOn(cfg, s, Do(cfg, s, StopCq), StopArm);
  }

  lemma WakeReached(cfg: Config, s: System)
    requires Reachable(cfg, s) && |s.qps| == QP_LIST_LEN && s.spc == Joining(QP_LIST_LEN, Untold)
    ensures Reachable(cfg, WakeRequested(s)) && Reaches(cfg, s, WakeRequested(s))
  {
    ArmReached(cfg, s);
    ReachOn(cfg, s, s.(stopCq := true, armed := true, spc := CqArmed), StopPost);
  }

  /** The NIC changes no field of a queue pair that the methods see. */
  lemma NicFields(cfg: Config, s: System, step: Step)
    requires Enabled(cfg, s, step) && OfNic(step) && s.qps != []
    ensures var r := Do(cfg, s, step);
      && |r.qps| == |s.qps| && r.subs == s.subs && r.stopCq == s.stopCq
      && forall q :: 0 <= q < |s.qps| ==>
           && r.qps[q].queue == s.qps[q].queue && r.qps[q].outstanding == s.qps[q].outstanding
           && r.qps[q].wrs == s.qps[q].wrs && r.qps[q].rwrs == s.qps[q].rwrs && r.qps[q].fired == s.qps[q].fired
           && r.qps[q].stop == s.qps[q].stop
  {
    NicFrame(cfg, s, step, 0);
    forall q | 0 <= q < |s.qps|
      ensures NicKept(s.qps[q], Do(cfg, s, step).qps[q])
    {
      NicFrame(cfg, s, step, q);
    }
  }

  class RDMAContext {
    const regions: Regions
    ghost const cfg: Config
    const qpManagement: seq<QM.QpManagement>
    var lastQpSelection: int
    var stopCqFuture: bool
    var cq: seq<Wc>          // the completion queue the four queue pairs share
    var submitted: nat       // names the submissions
    ghost var sys: System

    ghost predicate Shape() {
      && |qpManagement| == QP_LIST_LEN && cfg.regions == regions
      && (forall q :: 0 <= q < |qpManagement| ==> qpManagement[q].qpi == q && qpManagement[q].regions == regions)
      && (forall p, q :: 0 <= p < q < |qpManagement| ==> qpManagement[p] != qpManagement[q])
    }

    /** The fields of every queue pair are those of the pipeline state. */
    ghost predicate Mirrors(s: System)
      requires Shape()
      reads qpManagement
    {
      |s.qps| == QP_LIST_LEN && forall q :: 0 <= q < QP_LIST_LEN ==> qpManagement[q].Agrees(s.qps[q])
    }

    ghost predicate Valid()
      reads this, qpManagement
    {
      && Shape() && Reachable(cfg, sys) && Mirrors(sys)
      && -1 <= lastQpSelection < QP_LIST_LEN
      && cq == sys.cq && submitted == |sys.subs| && stopCqFuture == sys.stopCq
    }

    /** The constructor's loop, with the CQ armed as connect leaves it. */
    constructor (ghost cfg: Config, regions: Regions)
      requires cfg.regions == regions
      ensures Valid() && fresh(qpManagement) && this.cfg == cfg && sys == Init(cfg) && lastQpSelection == -1
    {
      this.regions, this.cfg := regions, cfg;
      lastQpSelection, stopCqFuture, cq, submitted, sys := -1, false, [], 0, Init(cfg);
      var list: seq<QM.QpManagement> := [];
      var q := 0;
      while q < QP_LIST_LEN
        invariant 0 <= q <= QP_LIST_LEN && |list| == q && fresh(list)
        invariant forall p :: 0 <= p < q ==> list[p].qpi == p && list[p].regions == regions && list[p].Agrees(INIT_QP)
        invariant forall p, p' :: 0 <= p < p' < q ==> list[p] != list[p']
      {
        var one := new QM.QpManagement(q, regions);
        list := list + [one];
        q := q + 1;
      }
      qpManagement := list;
      new;
      InitReachable(cfg);
    }

    /** select_qpi */
    method SelectQpi() returns (qpi: nat)
      requires -1 <= lastQpSelection < QP_LIST_LEN
      modifies this`lastQpSelection
      ensures qpi == lastQpSelection == (old(lastQpSelection) + 1) % 4
    {
      lastQpSelection := (lastQpSelection + 1) % 4;
      qpi := lastQpSelection;
    }

    /** submit: split, select, and push every chunk on the selected queue under its mutex.
        The handle is the last chunk, or null for an empty batch; for a READ it is the one
        that the submission's final callback belongs to. */
    method Submit(opcode: OpCode, batch: seq<Assignment>) returns (handle: Option<Chunk>)
      requires Valid() && Registered(regions, batch) && |batch| + SPLIT_STEP <= 0x8000_0000
      requires sys.qps[(lastQpSelection + 1) % 4].mutex == Free  // otherwise the lock is awaited
      modifies this, qpManagement
      ensures Valid() && Reaches(cfg, old(sys), sys)
      ensures lastQpSelection == (old(lastQpSelection) + 1) % 4
      ensures sys == Submitted(old(sys), lastQpSelection, opcode, batch)
      ensures sys.subs == old(sys.subs) + [Submission(lastQpSelection, opcode, batch)]
      ensures handle.None? <==> batch == []
      ensures handle.Some? ==> LastOfBatch(handle.value, |old(sys.subs)|, opcode, batch)
      ensures handle.Some? && opcode == READ ==>
        && IsReadAssignment(sys.subs, |old(sys.subs)|, 0)
        && FinalToken(sys.subs, |old(sys.subs)|) == Token(handle.value, lastQpSelection)
        && H.WorldStart(cfg, |old(sys.subs)|, H.World(sys, H.NEW_LATCH))
    {
      ghost var s := sys;
      var pieces := SplitLoop(batch);
      var q := SelectQpi();
      handle := Enqueue(q, opcode, pieces, batch);
      AnswerExact(cfg, s, q, opcode, batch, handle);
    }

    /** submit's critical section. */
    method Enqueue(q: nat, opcode: OpCode, pieces: seq<seq<Assignment>>, ghost batch: seq<Assignment>)
      returns (handle: Option<Chunk>)
      requires Valid() && q < QP_LIST_LEN && sys.qps[q].mutex == Free
      requires Registered(regions, batch) && pieces == Pieces(batch)
      modifies this`sys, this`submitted, qpManagement[q]
      ensures Valid() && Reaches(cfg, old(sys), sys) && sys == Submitted(old(sys), q, opcode, batch)
      ensures Answer(handle, |old(sys.subs)|, opcode, pieces)
    {
      ghost var r, chunks := Submitted(sys, q, opcode, batch), Chunks(|sys.subs|, opcode, batch);
      SubmittedReached(cfg, sys, q, opcode, batch);
      SubmittedFields(sys, q, opcode, batch);
      ChunksAre(|sys.subs|, opcode, batch);
      handle := qpManagement[q].PushAll(submitted, opcode, pieces, chunks);
      submitted := submitted + 1;
      assert qpManagement[q].Agrees(r.qps[q]);
      sys := r;
    }

    /** One turn of wq_dispatch_handle's outer loop, or of wait() after a notification: it ends
        at the stop flag, sleeps on an empty queue, or drains. */
    method WqDispatch(q: nat) returns (out: WqOutcome)
      requires Valid() && q < QP_LIST_LEN && AboutToLock(sys.qps[q])  // otherwise the lock or a notification is awaited
      modifies this`sys, qpManagement[q]
      ensures Valid() && Reaches(cfg, old(sys), sys) && sys == SetQp(old(sys), q, sys.qps[q])
      ensures WqTurn(regions, q, old(sys).qps[q], sys.qps[q], out)
    {
      ghost var s := sys;
      if qpManagement[q].stopWq {
        EndedReached(cfg, s, q);
        MoveOn(q, Ended(s.qps[q]));
        return WqReturned;
      }
      if qpManagement[q].assignQueue == [] {
        SleepingReached(cfg, s, q);
        MoveOn(q, Sleeping(s.qps[q]));
        return WqSlept;
      }
      var refused := DrainEntered(q);
      out := if refused then WqRefused else WqEmptied;
    }

    /** The dispatcher goes somewhere else without touching a field. */
    ghost method MoveOn(q: nat, r: Qp)
      requires Valid() && q < QP_LIST_LEN && qpManagement[q].Agrees(r)
      requires Reachable(cfg, SetQp(sys, q, r))
      modifies this`sys
      ensures Valid() && sys == SetQp(old(sys), q, r)
    {
      sys := SetQp(sys, q, r);
    }

    method DrainEntered(q: nat) returns (refused: bool)
      requires Valid() && q < QP_LIST_LEN && AboutToLock(sys.qps[q]) && !sys.qps[q].stop && sys.qps[q].queue != []
      modifies this`sys, qpManagement[q]
      ensures Valid() && Reaches(cfg, old(sys), sys) && sys == SetQp(old(sys), q, sys.qps[q])
      ensures Dispatched(regions, q, old(sys).qps[q], sys.qps[q]) && (refused <==> sys.qps[q].queue != [])
    {
      ghost var s := sys;
      EnteredReached(cfg, s, q);
      refused := DrainFrom(q, SetQp(s, q, Entered(s.qps[q])));
      assert Reaches(cfg, s, sys) by {
        ReachesOnward(cfg, s, SetQp(s, q, Entered(s.qps[q])), sys);
      }
    }

    /** A turn of stop_future's first loop, up to the join: flag, then notification. */
    method StopDispatcher(q: nat)
      requires Valid() && q < QP_LIST_LEN && sys.spc == Joining(q, Untold)
      modifies this`sys, qpManagement[q]
      ensures Valid() && sys == Asked(old(sys))
      ensures sys.spc == Joining(q, Told) && qpManagement[q].stopWq
      ensures old(sys.qps[q].dpc) == Asleep ==> sys.qps[q].notified
    {
      AskedReached(cfg, sys);
      qpManagement[q].SetStop();
      sys := Asked(sys);
    }

    /** The drain loop again, after it slept because the window was closed. */
    method WqResume(q: nat) returns (refused: bool)
      requires Valid() && q < QP_LIST_LEN && sys.qps[q].dpc == Drain
      modifies this`sys, qpManagement[q]
      ensures Valid() && Reaches(cfg, old(sys), sys) && sys == SetQp(old(sys), q, sys.qps[q])
      ensures Dispatched(regions, q, old(sys).qps[q], sys.qps[q]) && (refused <==> sys.qps[q].queue != [])
    {
      refused := DrainFrom(q, sys);
    }

    method DrainFrom(q: nat, ghost s: System) returns (refused: bool)
      requires Shape() && q < QP_LIST_LEN && Reachable(cfg, s) && Mirrors(s) && s.qps[q].dpc == Drain
      modifies this`sys, qpManagement[q]
      ensures Reachable(cfg, sys) && Reaches(cfg, s, sys) && Mirrors(sys) && sys == SetQp(s, q, sys.qps[q])
      ensures Dispatched(regions, q, s.qps[q], sys.qps[q]) && (refused <==> sys.qps[q].queue != [])
    {
      QueueDrainable(cfg, s, q);
      ghost var r;
      refused, r := qpManagement[q].DrainQueue(s.qps[q]);
      DrainReached(cfg, s, q, r);
      sys := SetQp(s, q, Left(r));
    }

    /** ibv_poll_cq: the oldest entries, as many as fit. */
    method PollCq(wc: array<Wc>) returns (n: nat)
      requires wc.Length == POLL_COUNT
      modifies this`cq, wc
      ensures n == Min(POLL_COUNT, |old(cq)|) && wc[..n] == old(cq)[..n] && cq == old(cq)[n..]
    {
      n := 0;
      while n < POLL_COUNT && cq != []
        invariant n <= POLL_COUNT && n <= |old(cq)| && cq == old(cq)[n..] && wc[..n] == old(cq)[..n]
      {
        wc[n] := cq[0];
        cq := cq[1..];
        n := n + 1;
      }
    }

    /** The body of the loop over the polled entries. */
    method HandleOne(entry: Wc, ghost start: System, ghost i: nat)
      requires Shape() && Reachable(cfg, start) && start.ppc.Handling? && !start.ppc.called
      requires i < |start.ppc.wcs| && entry == start.ppc.wcs[i] && Mirrors(EntriesDone(start, i))
      modifies qpManagement
      ensures Mirrors(EntriesDone(start, i + 1))
    {
      ReachesSelf(cfg, start);
      EntriesReached(cfg, start, start, i);
      EntryOwner(cfg, EntriesDone(start, i));
      if entry.wrId.Some? {
        qpManagement[entry.wrId.value.qpi].Finish(entry.wrId.value, entry);
      }
    }

    /** The loop over the polled entries. */
    method HandleBlock(wc: array<Wc>, n: nat, ghost start: System)
      requires Shape() && Reachable(cfg, start) && Mirrors(start)
      requires n <= wc.Length && start.ppc == Handling(wc[..n], false)
      modifies qpManagement
      ensures Mirrors(EntriesDone(start, n))
    {
      var i := 0;
      while i < n
        invariant 0 <= i <= n && start.ppc == Handling(wc[..n], false)
        invariant Mirrors(EntriesDone(start, i))
      {
        HandleOne(wc[i], start, i);
        i := i + 1;
      }
    }

    /** One pass of the polling loop: poll, and unless nothing came or the stop flag is set,
        handle the block. */
    method PollBlock(wc: array<Wc>) returns (nrPoll: nat, stopped: bool)
      requires Valid() && wc.Length == POLL_COUNT && sys.ppc == AtPoll
      modifies this`sys, this`cq, wc, qpManagement
      ensures Valid() && Reaches(cfg, old(sys), sys) && sys == BlockPolled(old(sys))
      ensures nrPoll == Min(POLL_COUNT, |old(cq)|) && (stopped <==> nrPoll != 0 && stopCqFuture)
      ensures cq == old(cq)[nrPoll..]
    {
      ghost var s := sys;
      BlockReached(cfg, s);
      nrPoll := PollCq(wc);
      stopped := nrPoll != 0 && stopCqFuture;
      if nrPoll != 0 && !stopCqFuture {
        HeldReached(cfg, s, nrPoll);
        HandleBlock(wc, nrPoll, Held(s, nrPoll));
      }
      BlockPolledFields(s);
      sys := BlockPolled(s);
    }

    /** Take the event and arm the CQ again. */
    method TakeEvent()
      requires Valid() && sys.ppc == AtGet && sys.events > 0  // otherwise the event is awaited
      modifies this`sys
      ensures Valid() && sys == Rearmed(old(sys))
    {
      RearmedReached(cfg, sys);
      sys := Rearmed(sys);
    }

    /** One turn of cq_poll_handle's outer loop: take the event, arm the CQ again, then poll
        and handle block after block until a poll finds nothing or the stop flag is set. */
    method CqPollTurn() returns (stopped: bool)
      requires Valid() && sys.ppc == AtGet && sys.events > 0
      modifies this`sys, this`cq, qpManagement
      ensures Valid() && Reaches(cfg, old(sys), sys)
      ensures stopped <==> stopCqFuture && old(cq) != []
      ensures sys == if stopped then Abandoned(old(sys)) else Polled(old(sys))
    {
      ghost var s := sys;
      TurnBegins(cfg, s);
      TakeEvent();
      var wc := new Wc[POLL_COUNT](_ => Wc(0, false, 0, false, None));
      var nrPoll;
      nrPoll, stopped := PollBlock(wc);
      while nrPoll != 0 && !stopped
        invariant Valid() && TurnAt(cfg, s, sys, nrPoll, stopped)
        decreases |cq|, nrPoll
      {
        TurnGoesOn(cfg, s, sys, nrPoll);
        nrPoll, stopped := PollBlock(wc);
      }
      TurnEnds(cfg, s, sys, nrPoll, stopped);
    }

    /** The second half of stop_future, when every dispatcher has been joined. */
    method StopPoller()
      requires Valid() && sys.spc == Joining(QP_LIST_LEN, Untold)
      modifies this`sys, this`stopCqFuture, qpManagement[0]
      ensures Valid() && Reaches(cfg, old(sys), sys) && sys == WakeRequested(old(sys))
      ensures stopCqFuture && sys.armed && sys.spc == WakePosted
      ensures qpManagement[0].sendLog == old(qpManagement[0].sendLog) + [WAKE_WR] && WAKE_WR.opcode == SEND
        && WAKE_WR.signaled && WAKE_WR.wrId == None
    {
      WakeReached(cfg, sys);
      stopCqFuture := true;
      qpManagement[0].PostWake();
      sys := WakeRequested(sys);
    }

    /** The NIC moves data, completes a request or takes in a message; `entries` is what that adds to the CQ. */
    method NicStep(ghost step: Step, entries: seq<Wc>)
      requires Valid() && Enabled(cfg, sys, step) && Do(cfg, sys, step).cq == cq + entries
      requires OfNic(step)
      modifies this`sys, this`cq
      ensures Valid() && sys == Do(cfg, old(sys), step)
    {
      StepReachable(cfg, sys, step, Do(cfg, sys, step));
      NicFields(cfg, sys, step);
      cq := cq + entries;
      sys := Do(cfg, sys, step);
    }
  }
}
