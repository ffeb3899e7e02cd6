/** Runs that show two losses to be real: wait returning although nothing arrived, and a
    callback that stop_future drops.  Both start with one READ of one assignment. */
module Witnesses {
  import opened Types
  import opened Split
  import opened Chain
  import opened Memory
  import opened Tokens
  import opened Pipeline
  import opened QpInvariant
  import opened SystemInvariant
  import opened Placement
  import opened Safety
  import opened Access
  import opened Handle
  import opened StopRace
  import opened StopLoss
  import QM = QpManagement
  import RC = RdmaContext

  function OnlyChunk(a: Assignment): Chunk {
    Chunk(0, 0, true, READ, [a])
  }

  lemma ChunksOfOne(a: Assignment)
    ensures Chunks(0, READ, [a]) == [OnlyChunk(a)]
  {
    assert Pieces([a])[0] == [a];
  }

  function OnlyWr(cfg: Config, a: Assignment): Wr {
    ReadWr(cfg.regions, 0, OnlyChunk(a), 0)
  }

  /** Nothing keeps the NIC from executing it. */
  predicate CanRead(cfg: Config, a: Assignment) {
    Fits(TransferFor(cfg.regions, a), |cfg.init|, |cfg.remote|) && Allowed(cfg, OnlyWr(cfg, a))
  }

  function OnlyWc(a: Assignment, ok: bool): Wc {
    Wc(0, false, 0, ok, Some(Token(OnlyChunk(a), 0)))
  }

  /** The state with queue pair 0 as given, the others unused, and the rest as given. */
  function State(cfg: Config, a: Assignment, qp: Qp, cq: seq<Wc>, armed: bool, events: nat, ppc: PollerPc,
                 local: seq<Byte>): System
  {
    System([qp, INIT_QP, INIT_QP, INIT_QP], cq, armed, events, ppc, false, Running, local, [Submission(0, READ, [a])])
  }

  function Idle(cfg: Config, a: Assignment, qp: Qp): World {
    World(State(cfg, a, qp, [], true, 0, AtTop, cfg.init), NEW_LATCH)
  }

  // ----- Queue pair 0 on its way -----

  function Pushing(a: Assignment): Qp {
    INIT_QP.(mutex := BySubmitter([OnlyChunk(a)]))
  }

  function Pushed(a: Assignment): Qp {
    INIT_QP.(mutex := BySubmitter([]), queue := [OnlyChunk(a)], pushed := [OnlyChunk(a)])
  }

  function Queued(a: Assignment): Qp {
    INIT_QP.(queue := [OnlyChunk(a)], pushed := [OnlyChunk(a)])
  }

  function Draining(a: Assignment): Qp {
    Queued(a).(dpc := Drain, mutex := ByDispatcher)
  }

  function Reserving(a: Assignment): Qp {
    Draining(a).(dpc := Added, outstanding := 1)
  }

  function Popped(cfg: Config, a: Assignment): Qp {
    Reserving(a).(dpc := Drain, queue := [], wrs := [OnlyWr(cfg, a)], exec := [false], posted := [OnlyChunk(a)])
  }

  function InFlight(cfg: Config, a: Assignment): Qp {
    Popped(cfg, a).(dpc := Top, mutex := Free)
  }

  lemma ToDraining(cfg: Config, a: Assignment)
    ensures QM.Leads(cfg.regions, 0, Queued(a), Draining(a))
  {
    RC.TestLeads(cfg.regions, 0, Queued(a), Draining(a));
  }

  lemma ToReserving(cfg: Config, a: Assignment)
    ensures QM.Leads(cfg.regions, 0, Draining(a), Reserving(a))
  {
    var checked := Draining(a).(dpc := Checked);
    RC.OneStepLeads(cfg.regions, 0, Draining(a), CheckWindow, checked);
    RC.OneStepLeads(cfg.regions, 0, checked, AddCredits, Reserving(a));
    QM.LeadsFurther(cfg.regions, 0, Draining(a), checked, Reserving(a));
  }

  lemma OnlyChain(cfg: Config, a: Assignment)
    ensures SendChain(cfg.regions, 0, OnlyChunk(a)) == [OnlyWr(cfg, a)] && RecvChain(cfg.regions, OnlyChunk(a)) == []
    ensures NotMoved(1) == [false]
  {
    assert SendChain(cfg.regions, 0, OnlyChunk(a))[0] == OnlyWr(cfg, a);
  }

  lemma ToInFlight(cfg: Config, a: Assignment)
    ensures QM.Leads(cfg.regions, 0, Reserving(a), InFlight(cfg, a))
  {
    var posted := Popped(cfg, a).(dpc := Posted, queue := [OnlyChunk(a)]);
    OnlyChain(cfg, a);
    RC.OneStepLeads(cfg.regions, 0, Reserving(a), Post, posted);
    RC.OneStepLeads(cfg.regions, 0, posted, Pop, Popped(cfg, a));
    RC.OneStepLeads(cfg.regions, 0, Popped(cfg, a), LeaveDrain, InFlight(cfg, a));
    QM.LeadsFurther(cfg.regions, 0, Reserving(a), posted, Popped(cfg, a));
    QM.LeadsFurther(cfg.regions, 0, Reserving(a), Popped(cfg, a), InFlight(cfg, a));
  }

  lemma DispatcherPosts(cfg: Config, a: Assignment)
    ensures QM.Leads(cfg.regions, 0, Queued(a), InFlight(cfg, a))
  {
    ToDraining(cfg, a);
    ToReserving(cfg, a);
    ToInFlight(cfg, a);
    QM.LeadsFurther(cfg.regions, 0, Queued(a), Draining(a), Reserving(a));
    QM.LeadsFurther(cfg.regions, 0, Queued(a), Reserving(a), InFlight(cfg, a));
  }

  // ----- Runs of the pipeline with the handle's latch -----

  ghost predicate WorldReaches(cfg: Config, w: World, r: World) {
    exists states, steps :: IsWorldRun(cfg, 0, states, steps) && states[0] == w && states[|steps|] == r
  }

  lemma WorldSelf(cfg: Config, w: World)
    ensures WorldReaches(cfg, w, w)
  {
    assert IsWorldRun(cfg, 0, [w], []);
  }

  lemma WorldOn(cfg: Config, w: World, mid: World, step: WorldStep, r: World)
    requires WorldReaches(cfg, w, mid) && WorldEnabled(cfg, 0, mid, step) && r == WorldDo(cfg, 0, mid, step)
    ensures WorldReaches(cfg, w, r)
  {
    var states, steps :| IsWorldRun(cfg, 0, states, steps) && states[0] == w && states[|steps|] == mid;
    var states', steps' := states + [r], steps + [step];
    forall i | 0 <= i < |steps'|
      ensures WorldEnabled(cfg, 0, states'[i], steps'[i]) && states'[i + 1] == WorldDo(cfg, 0, states'[i], steps'[i])
    {
      if i < |steps| {
        assert states'[i] == states[i] && states'[i + 1] == states[i + 1];
      }
    }
    assert IsWorldRun(cfg, 0, states', steps');
  }

  /** A step of the pipeline other than the handle's callback. */
  lemma PipeOn(cfg: Config, w: World, mid: World, step: Step, s: System)
    requires WorldReaches(cfg, w, mid) && Enabled(cfg, mid.s, step) && step != Callback && mid.l.call == Outside
    requires s == Do(cfg, mid.s, step)
    ensures WorldReaches(cfg, w, World(s, mid.l))
  {
    WorldOn(cfg, w, mid, Pipe(step), World(s, mid.l));
  }

  lemma {:induction false} DispatchOn(cfg: Config, a: Assignment, w: World, qp: Qp, ds: seq<DispatcherStep>, r: Qp)
    requires WorldReaches(cfg, w, Idle(cfg, a, qp)) && QM.QpFollows(cfg.regions, 0, qp, ds, r)
    ensures WorldReaches(cfg, w, Idle(cfg, a, r))
    decreases |ds|
  {
    if ds != [] {
      var next := DispatcherDo(cfg.regions, 0, qp, ds[0]);
      assert [qp, INIT_QP, INIT_QP, INIT_QP][0 := next] == [next, INIT_QP, INIT_QP, INIT_QP];
      PipeOn(cfg, w, Idle(cfg, a, qp), Dispatch(0, ds[0]), Idle(cfg, a, next).s);
      DispatchOn(cfg, a, w, next, ds[1..], r);
    }
  }

  /** Right after submit has made the handle. */
  function Start(cfg: Config, a: Assignment): World {
    Idle(cfg, a, Pushing(a))
  }

  lemma StartIsSubmitted(cfg: Config, a: Assignment)
    requires a.mrKey in cfg.regions.mrs
    ensures Enabled(cfg, Init(cfg), Acquire(0, READ, [a])) && Do(cfg, Init(cfg), Acquire(0, READ, [a])) == Start(cfg, a).s
    ensures WorldStart(cfg, 0, Start(cfg, a))
  {
    ChunksOfOne(a);
    assert Init(cfg).qps[0 := Pushing(a)] == Start(cfg, a).s.qps;
    InitReachable(cfg);
    SubmitStarts(cfg, Init(cfg), 0, [a]);
  }

  lemma ToQueued(cfg: Config, a: Assignment)
    ensures WorldReaches(cfg, Start(cfg, a), Idle(cfg, a, Queued(a)))
  {
    WorldSelf(cfg, Start(cfg, a));
    PushIdle(cfg, a);
    PipeOn(cfg, Start(cfg, a), Start(cfg, a), Push(0), Idle(cfg, a, Pushed(a)).s);
    NotifyIdle(cfg, a);
    PipeOn(cfg, Start(cfg, a), Idle(cfg, a, Pushed(a)), Notify(0), Idle(cfg, a, Queued(a)).s);
  }

  lemma PushIdle(cfg: Config, a: Assignment)
    ensures Enabled(cfg, Start(cfg, a).s, Push(0)) && Do(cfg, Start(cfg, a).s, Push(0)) == Idle(cfg, a, Pushed(a)).s
  {
    assert [OnlyChunk(a)][1..] == [] && [] + [OnlyChunk(a)] == [OnlyChunk(a)];
    assert PushDo(Pushing(a)) == Pushed(a);
    assert Start(cfg, a).s.qps[0 := Pushed(a)] == Idle(cfg, a, Pushed(a)).s.qps;
  }

  lemma NotifyIdle(cfg: Config, a: Assignment)
    ensures Enabled(cfg, Idle(cfg, a, Pushed(a)).s, Notify(0))
    ensures Do(cfg, Idle(cfg, a, Pushed(a)).s, Notify(0)) == Idle(cfg, a, Queued(a)).s
  {
    assert NotifyDo(Pushed(a)) == Queued(a);
    assert Idle(cfg, a, Pushed(a)).s.qps[0 := Queued(a)] == Idle(cfg, a, Queued(a)).s.qps;
  }

  lemma ToFlight(cfg: Config, a: Assignment)
    ensures WorldReaches(cfg, Start(cfg, a), Idle(cfg, a, InFlight(cfg, a)))
  {
    ToQueued(cfg, a);
    DispatcherPosts(cfg, a);
    var ds :| QM.QpFollows(cfg.regions, 0, Queued(a), ds, InFlight(cfg, a));
    DispatchOn(cfg, a, Start(cfg, a), Queued(a), ds, InFlight(cfg, a));
  }

  // ----- The NIC -----

  /** The request has completed, with or without its data. */
  function Over(cfg: Config, a: Assignment, ok: bool): Qp {
    InFlight(cfg, a).(exec := [ok], status := [ok], failed := !ok, cqd := [OnlyWc(a, ok)])
  }

  function LocalOver(cfg: Config, a: Assignment, ok: bool): seq<Byte>
    requires ok ==> CanRead(cfg, a)
  {
    if ok then Copied(cfg.init, cfg.remote, TransferFor(cfg.regions, a)) else cfg.init
  }

  /** Its completion is in the CQ, with an event. */
  function Reported(cfg: Config, a: Assignment, ok: bool, ppc: PollerPc): System
    requires ok ==> CanRead(cfg, a)
  {
    State(cfg, a, Over(cfg, a, ok), [OnlyWc(a, ok)], false, 1, ppc, LocalOver(cfg, a, ok))
  }

  lemma FailIdle(cfg: Config, a: Assignment)
    ensures Enabled(cfg, Idle(cfg, a, InFlight(cfg, a)).s, Fail(0))
    ensures Do(cfg, Idle(cfg, a, InFlight(cfg, a)).s, Fail(0)) == Reported(cfg, a, false, AtTop)
  {
    assert RetireDo(0, InFlight(cfg, a), false) == Over(cfg, a, false);
    assert Idle(cfg, a, InFlight(cfg, a)).s.qps[0 := Over(cfg, a, false)] == Reported(cfg, a, false, AtTop).qps;
  }

  function Copying(cfg: Config, a: Assignment): System
    requires CanRead(cfg, a)
  {
    State(cfg, a, InFlight(cfg, a).(exec := [true]), [], true, 0, AtTop, LocalOver(cfg, a, true))
  }

  lemma ExecuteIdle(cfg: Config, a: Assignment)
    requires CanRead(cfg, a)
    ensures Enabled(cfg, Idle(cfg, a, InFlight(cfg, a)).s, Execute(0, 0))
    ensures Do(cfg, Idle(cfg, a, InFlight(cfg, a)).s, Execute(0, 0)) == Copying(cfg, a)
  {
    var s := Idle(cfg, a, InFlight(cfg, a)).s;
    assert ExecuteDo(InFlight(cfg, a), 0) == InFlight(cfg, a).(exec := [true]);
    assert s.qps[0 := InFlight(cfg, a).(exec := [true])] == Copying(cfg, a).qps;
  }

  lemma CompleteIdle(cfg: Config, a: Assignment)
    requires CanRead(cfg, a)
    ensures Enabled(cfg, Copying(cfg, a), Complete(0)) && Do(cfg, Copying(cfg, a), Complete(0)) == Reported(cfg, a, true, AtTop)
  {
    assert RetireDo(0, InFlight(cfg, a).(exec := [true]), true) == Over(cfg, a, true);
    assert Copying(cfg, a).qps[0 := Over(cfg, a, true)] == Reported(cfg, a, true, AtTop).qps;
  }

  /** The poller has passed its loop test and is about to take the event. */
  lemma ToReported(cfg: Config, a: Assignment, ok: bool)
    requires ok ==> CanRead(cfg, a)
    ensures WorldReaches(cfg, Start(cfg, a), World(Reported(cfg, a, ok, AtGet), NEW_LATCH))
  {
    ToFlight(cfg, a);
    var w, idle := Start(cfg, a), Idle(cfg, a, InFlight(cfg, a));
    if ok {
      ExecuteIdle(cfg, a);
      PipeOn(cfg, w, idle, Execute(0, 0), Copying(cfg, a));
      CompleteIdle(cfg, a);
      PipeOn(cfg, w, World(Copying(cfg, a), NEW_LATCH), Complete(0), Reported(cfg, a, true, AtTop));
    } else {
      FailIdle(cfg, a);
      PipeOn(cfg, w, idle, Fail(0), Reported(cfg, a, false, AtTop));
    }
    PipeOn(cfg, w, World(Reported(cfg, a, ok, AtTop), NEW_LATCH), TestStop, Reported(cfg, a, ok, AtGet));
  }

  // ----- wait returns on failure -----

  function InBlock(cfg: Config, a: Assignment): System {
    State(cfg, a, Over(cfg, a, false), [], true, 0, Handling([OnlyWc(a, false)], false), cfg.init)
  }

  lemma ToBlock(cfg: Config, a: Assignment)
    ensures WorldReaches(cfg, Start(cfg, a), World(InBlock(cfg, a), NEW_LATCH))
  {
    var w, s := Start(cfg, a), Reported(cfg, a, false, AtGet);
    ToReported(cfg, a, false);
    PipeOn(cfg, w, World(s, NEW_LATCH), GetEvent, s.(ppc := GotEvent, events := 0));
    PipeOn(cfg, w, World(s.(ppc := GotEvent, events := 0), NEW_LATCH), Rearm, s.(ppc := AtPoll, events := 0, armed := true));
    assert s.cq[..1] == s.cq && s.cq[1..] == [];
    PipeOn(cfg, w, World(s.(ppc := AtPoll, events := 0, armed := true), NEW_LATCH), PollSome(1), InBlock(cfg, a));
  }

  function Called(cfg: Config, a: Assignment): System {
    State(cfg, a, CallbackDo(Over(cfg, a, false), Token(OnlyChunk(a), 0), OnlyWc(a, false)), [], true, 0,
          Handling([OnlyWc(a, false)], true), cfg.init)
  }

  lemma CallbackIdle(cfg: Config, a: Assignment)
    ensures Calls(InBlock(cfg, a), 0) && Enabled(cfg, InBlock(cfg, a), Callback)
    ensures Do(cfg, InBlock(cfg, a), Callback) == Called(cfg, a)
  {
    ChunksOfOne(a);
    assert InBlock(cfg, a).qps[0 := Called(cfg, a).qps[0]] == Called(cfg, a).qps;
  }

  lemma ToCalled(cfg: Config, a: Assignment)
    ensures WorldReaches(cfg, Start(cfg, a), World(Called(cfg, a), Latch(NoOne, 1, Outside, Away, false)))
  {
    var w, b, c := Start(cfg, a), InBlock(cfg, a), Called(cfg, a);
    ToBlock(cfg, a);
    CallbackIdle(cfg, a);
    WorldOn(cfg, w, World(b, NEW_LATCH), Enter, World(b, Latch(ThePoller, 0, Entered, Away, false)));
    WorldOn(cfg, w, World(b, Latch(ThePoller, 0, Entered, Away, false)), CountUp, World(c, Latch(ThePoller, 1, Counted, Away, false)));
    WorldOn(cfg, w, World(c, Latch(ThePoller, 1, Counted, Away, false)), NotifyOne, World(c, Latch(ThePoller, 1, Notified, Away, false)));
    WorldOn(cfg, w, World(c, Latch(ThePoller, 1, Notified, Away, false)), LeaveCall, World(c, Latch(NoOne, 1, Outside, Away, false)));
  }

  /** A run from submit in which wait returns and not one byte has moved: the only request
      failed.  Where the data was not there to begin with it is not there now. */
  lemma WaitReturnsUndelivered(cfg: Config, a: Assignment)
    requires a.mrKey in cfg.regions.mrs
    ensures WorldStart(cfg, 0, Start(cfg, a))
    ensures exists w ::
      && WorldReaches(cfg, Start(cfg, a), w) && w.l.waiter == Back && w.s.subs == [Submission(0, READ, [a])]
      && w.s.local == cfg.init && (Arrived(cfg, w.s, a) <==> Arrived(cfg, Init(cfg), a))
  {
    var w, c := Start(cfg, a), Called(cfg, a);
    StartIsSubmitted(cfg, a);
    ToCalled(cfg, a);
    WorldOn(cfg, w, World(c, Latch(NoOne, 1, Outside, Away, false)), BeginWait, World(c, Latch(NoOne, 1, Outside, Arriving, false)));
    WorldOn(cfg, w, World(c, Latch(NoOne, 1, Outside, Arriving, false)), TakeLock, World(c, Latch(TheWaiter, 1, Outside, Testing, false)));
    var r := World(c, Latch(NoOne, 1, Outside, Back, false));
    WorldOn(cfg, w, World(c, Latch(TheWaiter, 1, Outside, Testing, false)), TestFinished, r);
    assert WorldReaches(cfg, w, r) && r.s.local == cfg.init;
  }

  // ----- stop_future drops a callback -----

  /** The dispatcher has been told to stop at its loop test, and has returned. */
  function Gone(qp: Qp): Qp {
    qp.(stop := true, dpc := Exited)
  }

  function JoinedOne(s: System): System
    requires s.spc.Joining? && s.spc.k < |s.qps|
  {
    SetQp(s, s.spc.k, Gone(s.qps[s.spc.k])).(spc := Joining(s.spc.k + 1, Untold))
  }

  lemma JoinOne(cfg: Config, s: System)
    requires Reachable(cfg, s) && s.spc.Joining? && s.spc.k < |s.qps| && s.spc.turn == Untold && s.qps[s.spc.k].dpc == Top
    ensures Reachable(cfg, JoinedOne(s))
  {
    var exited := SetQp(s, s.spc.k, Gone(s.qps[s.spc.k])).(spc := Joining(s.spc.k, Told));
    AskedReached(cfg, s);
    ExitAsked(cfg, s);
    StepReachable(cfg, exited, StopJoin, JoinedOne(s));
  }

  lemma ExitAsked(cfg: Config, s: System)
    requires s.spc.Joining? && s.spc.k < |s.qps| && s.qps[s.spc.k].dpc == Top && Reachable(cfg, Asked(s))
    ensures Reachable(cfg, SetQp(s, s.spc.k, Gone(s.qps[s.spc.k])).(spc := Joining(s.spc.k, Told)))
  {
    var k := s.spc.k;
    var told := StopNotifyDo(StopSetDo(s.qps[k]));
    RC.OneStepLeads(cfg.regions, k, told, Exit, Gone(s.qps[k]));
    RC.LeadsReached(cfg, Asked(s), k, Gone(s.qps[k]));
    assert SetQp(Asked(s), k, Gone(s.qps[k])).qps == s.qps[k := Gone(s.qps[k])];
  }

  /** Every dispatcher has been joined; the completion is still in the CQ. */
  function AllGone(cfg: Config, a: Assignment, ok: bool): System
    requires ok ==> CanRead(cfg, a)
  {
    Reported(cfg, a, ok, AtGet).(qps := [Gone(Over(cfg, a, ok)), Gone(INIT_QP), Gone(INIT_QP), Gone(INIT_QP)],
                                 spc := Joining(4, Untold))
  }

  lemma ToAllGone(cfg: Config, a: Assignment, ok: bool)
    requires a.mrKey in cfg.regions.mrs && (ok ==> CanRead(cfg, a))
    ensures Reachable(cfg, AllGone(cfg, a, ok))
  {
    var s0 := Reported(cfg, a, ok, AtGet);
    ReportedReachable(cfg, a, ok);
    StepReachable(cfg, s0, StopBegin, s0.(spc := Joining(0, Untold)));
    var s1 := JoinedOne(s0.(spc := Joining(0, Untold)));
    JoinOne(cfg, s0.(spc := Joining(0, Untold)));
    JoinOne(cfg, s1);
    JoinOne(cfg, JoinedOne(s1));
    JoinOne(cfg, JoinedOne(JoinedOne(s1)));
    assert JoinedOne(JoinedOne(JoinedOne(s1))) == AllGone(cfg, a, ok);
  }

  lemma ReportedReachable(cfg: Config, a: Assignment, ok: bool)
    requires a.mrKey in cfg.regions.mrs && (ok ==> CanRead(cfg, a))
    ensures Reachable(cfg, Reported(cfg, a, ok, AtGet))
  {
    var r := World(Reported(cfg, a, ok, AtGet), NEW_LATCH);
    StartIsSubmitted(cfg, a);
    ToReported(cfg, a, ok);
    var states, steps :| IsWorldRun(cfg, 0, states, steps) && states[0] == Start(cfg, a) && states[|steps|] == r;
    WorldRunInv(cfg, 0, states, steps, |steps|);
  }

  /** The poller has taken the event and found the stop flag set. */
  function Dropped(cfg: Config, a: Assignment, ok: bool): System
    requires ok ==> CanRead(cfg, a)
  {
    RC.WakeRequested(AllGone(cfg, a, ok)).(ppc := Returned([OnlyWc(a, ok)]), cq := [], events := 0)
  }

  lemma ToDropped(cfg: Config, a: Assignment, ok: bool)
    requires a.mrKey in cfg.regions.mrs && (ok ==> CanRead(cfg, a))
    ensures Reachable(cfg, Dropped(cfg, a, ok))
  {
    var s := RC.WakeRequested(AllGone(cfg, a, ok));
    ToAllGone(cfg, a, ok);
    RC.WakeReached(cfg, AllGone(cfg, a, ok));
    StepReachable(cfg, s, GetEvent, s.(ppc := GotEvent, events := 0));
    StepReachable(cfg, s.(ppc := GotEvent, events := 0), Rearm, s.(ppc := AtPoll, events := 0, armed := true));
    assert s.cq[..1] == s.cq && s.cq[1..] == [];
    StepReachable(cfg, s.(ppc := AtPoll, events := 0, armed := true), PollSome(1), Dropped(cfg, a, ok));
  }

  lemma NotCalled(cfg: Config, a: Assignment, ok: bool)
    requires ok ==> CanRead(cfg, a)
    ensures !AllCalled(Dropped(cfg, a, ok), 0)
  {
    var subs := [Submission(0, READ, [a])];
    ChunksOfOne(a);
    assert subs[..0] == [] && PlacedOn(subs, 0) == [OnlyChunk(a)];
    assert ReadToks(0, [OnlyChunk(a)]) == [Token(OnlyChunk(a), 0)] + ReadToks(0, [OnlyChunk(a)][1..]);
  }

  /** A run in which stop_future loses the callback of a READ, whether its request succeeded and
      its data is in place or not: it has not run, and in no continuation will it. */
  lemma CallbackLost(cfg: Config, a: Assignment, ok: bool)
    requires a.mrKey in cfg.regions.mrs && (ok ==> CanRead(cfg, a))
    ensures var s := Dropped(cfg, a, ok);
      && Reachable(cfg, s) && s.spc == WakePosted && s.subs == [Submission(0, READ, [a])] && s.qps[0].status == [ok]
      && s.local == LocalOver(cfg, a, ok) && !AllCalled(s, 0)
    ensures forall states: seq<System>, steps: seq<Step>, n: nat ::
      IsRun(cfg, states, steps) && states[0] == Dropped(cfg, a, ok) && n <= |steps|
      ==> 0 < |states[n].qps| && states[n].qps[0].fired == []
  {
    ToDropped(cfg, a, ok);
    NotCalled(cfg, a, ok);
    forall states: seq<System>, steps: seq<Step>, n: nat | IsRun(cfg, states, steps) && states[0] == Dropped(cfg, a, ok) && n <= |steps|
      ensures 0 < |states[n].qps| && states[n].qps[0].fired == []
    {
      CalledAfterStop(cfg, states, steps, n, 0);
      assert |FiredToks(states[n].qps[0].fired)| == 0;
    }
  }
}
