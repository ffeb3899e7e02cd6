/** Deadlock freedom, exactly: which states owe no step, and what they look like. */
module Progress {
  import opened Types
  import opened Split
  import opened Chain
  import opened Tokens
  import opened Pipeline
  import opened Frames
  import opened QpInvariant
  import opened SystemInvariant
  import opened Placement
  import opened Safety
  import opened Liveness

  /** Steps some thread or the NIC is bound to take once they are enabled.  New submissions,
      the decision to stop, a peer's message for a posted receive and spurious wake-ups are
      up to others; retrying a closed window changes nothing, and a request's data need not
      arrive in parts. */
  predicate Owed(step: Step) {
    GetsOn(step) && !step.StopBegin? && !step.CompleteRecv?
  }

  /** The front chunk has been refused by the window test. */
  predicate Refused(qp: Qp) {
    qp.dpc.Drain? && qp.queue != [] && !WindowOpen(|qp.queue[0].batch|, qp.outstanding)
  }

  predicate QpQuiet(qp: Qp) {
    && !qp.mutex.BySubmitter? && |qp.status| == |qp.wrs|
    && (qp.dpc.Exited? || (qp.dpc.Asleep? && !qp.notified) || Refused(qp))
  }

  predicate PollerQuiet(s: System) {
    s.ppc.Returned? || (s.ppc.AtGet? && s.events == 0)
  }

  predicate StopperQuiet(s: System) {
    s.spc.Running? || s.spc.WakePosted?
    || (s.spc.Joining? && s.spc.turn == Told && s.spc.k < |s.qps| && !s.qps[s.spc.k].dpc.Exited?)
  }

  predicate Quiet(s: System) {
    (forall q :: 0 <= q < |s.qps| ==> QpQuiet(s.qps[q])) && PollerQuiet(s) && StopperQuiet(s)
  }

  lemma PcFacts(cfg: Config, s: System, q: nat)
    requires Reachable(cfg, s) && q < |s.qps|
    ensures PcInv(s.qps[q]) && GoodChunks(s.qps[q].queue) && 0 <= s.qps[q].outstanding
    ensures |s.qps[q].status| <= |s.qps[q].wrs| == |s.qps[q].exec|
  {
    ReachableInv(cfg, s);
  }

  lemma QpOwes(cfg: Config, s: System, q: nat) returns (step: Step)
    requires Reachable(cfg, s) && q < |s.qps| && !QpQuiet(s.qps[q])
    ensures Owed(step) && Enabled(cfg, s, step)
  {
    PcFacts(cfg, s, q);
    var qp := s.qps[q];
    if qp.mutex.BySubmitter? {
      step := if qp.mutex.rest != [] then Push(q) else Notify(q);
    } else if |qp.status| < |qp.wrs| {
      step := Fail(q);
    } else {
      var d := OwedByDispatcher(qp);
      step := Dispatch(q, d);
    }
  }

  lemma OwedByDispatcher(qp: Qp) returns (d: DispatcherStep)
    requires PcInv(qp) && GoodChunks(qp.queue) && !qp.mutex.BySubmitter?
    requires !(qp.dpc.Exited? || (qp.dpc.Asleep? && !qp.notified) || Refused(qp))
    ensures DispatcherEnabled(qp, d) && !d.SpuriousWake? && !d.Retry?
  {
    match qp.dpc
    case Top => d := if qp.stop then Exit else Lock;
    case Locked => d := TestPredicate;
    case PredFalse => d := Sleep;
    case Asleep => d := Wake;
    case Drain => d := if qp.queue == [] then LeaveDrain else CheckWindow;
    case Checked => d := AddCredits;
    case Added => d := Post;
    case Posted => d := Pop;
  }

  lemma EntryFacts(cfg: Config, s: System)
    requires Reachable(cfg, s) && s.ppc.Handling?
    ensures s.ppc.called ==> s.ppc.wcs != [] && s.ppc.wcs[0].wrId.Some?
    ensures s.ppc.wcs != [] ==> s.ppc.wcs[0].qpi < |s.qps|
    ensures s.ppc.wcs != [] && s.ppc.wcs[0].wrId.Some? ==> s.ppc.wcs[0].wrId.value.qpi < |s.qps|
  {
    ReachableInv(cfg, s);
    if s.ppc.wcs != [] {
      CurrentEntry(cfg, s);
    }
  }

  lemma PollerOwes(cfg: Config, s: System) returns (step: Step)
    requires Reachable(cfg, s) && !PollerQuiet(s)
    ensures Owed(step) && Enabled(cfg, s, step)
  {
    match s.ppc
    case AtTop => step := TestStop;
    case AtGet => step := GetEvent;
    case GotEvent => step := Rearm;
    case AtPoll => step := if s.cq == [] then PollNone else PollSome(1);
    case Handling(wcs, called) =>
      EntryFacts(cfg, s);
      step := if wcs == [] then EndBlock else if called then Subtract
              else if wcs[0].wrId.None? then Step.Skip else Callback;
  }

  lemma StopperOwes(cfg: Config, s: System) returns (step: Step)
    requires Reachable(cfg, s) && !StopperQuiet(s)
    ensures Owed(step) && Enabled(cfg, s, step)
  {
    StopFacts(cfg, s);
    match s.spc
    case Joining(k, turn) =>
      step := if k == |s.qps| then StopCq else if turn == Untold then StopSet else if turn == Flagged then StopNotify
              else StopJoin;
    case CqStopped => step := StopArm;
    case CqArmed => step := StopPost;
  }

  lemma StopFacts(cfg: Config, s: System)
    requires Reachable(cfg, s)
    ensures |s.qps| == QP_LIST_LEN && (s.spc.Joining? ==> s.spc.k <= |s.qps|)
    ensures s.spc.Running? ==> forall q :: 0 <= q < |s.qps| ==> !s.qps[q].stop
    ensures s.ppc.Returned? ==> s.stopCq
    ensures s.stopCq <==> s.spc.CqStopped? || s.spc.CqArmed? || s.spc.WakePosted?
  {
    ReachableInv(cfg, s);
  }

  /** Deadlock freedom: unless the state is quiet, someone owes a step and can take it. */
  lemma SomethingOwed(cfg: Config, s: System) returns (step: Step)
    requires Reachable(cfg, s) && !Quiet(s)
    ensures Owed(step) && Enabled(cfg, s, step)
  {
    if !PollerQuiet(s) {
      step := PollerOwes(cfg, s);
    } else if !StopperQuiet(s) {
      step := StopperOwes(cfg, s);
    } else {
      var q :| 0 <= q < |s.qps| && !QpQuiet(s.qps[q]);
      step := QpOwes(cfg, s, q);
    }
  }

  lemma QuietDispatcher(qp: Qp, d: DispatcherStep)
    requires QpQuiet(qp) && PcInv(qp) && GoodChunks(qp.queue) && DispatcherEnabled(qp, d)
    ensures d.SpuriousWake? || d.Retry?
  {
  }

  /** Quiet states are exactly those: no owed step is enabled in them. */
  lemma QuietOwesNothing(cfg: Config, s: System, step: Step)
    requires Reachable(cfg, s) && Quiet(s) && Owed(step)
    ensures !Enabled(cfg, s, step)
  {
    if Enabled(cfg, s, step) {
      if step.Dispatch? {
        PcFacts(cfg, s, step.q);
        QuietDispatcher(s.qps[step.q], step.d);
      }
      StopFacts(cfg, s);
    }
  }

  lemma NextWork(cfg: Config, s: System, step: Step, s': System)
    requires Reachable(cfg, s) && Next(cfg, s, step, s') && GetsOn(step)
    ensures Reachable(cfg, s') && Work(s') < Work(s)
  {
    StepReachable(cfg, s, step, s');
    WorkDecreases(cfg, s, step);
  }

  /** How many of the first n steps get on, and how much work the first n steps add. */
  function GettingOn(steps: seq<Step>, n: nat): nat
    requires n <= |steps|
  {
    if n == 0 then 0 else GettingOn(steps, n - 1) + if GetsOn(steps[n - 1]) then 1 else 0
  }

  function AddedBy(steps: seq<Step>, n: nat): nat
    requires n <= |steps|
  {
    if n == 0 then 0 else AddedBy(steps, n - 1) + WorkAdded(steps[n - 1])
  }

  lemma StepOn(cfg: Config, s: System, step: Step, s': System)
    requires Reachable(cfg, s) && Next(cfg, s, step, s')
    ensures Reachable(cfg, s') && Work(s') + (if GetsOn(step) then 1 else 0) <= Work(s) + WorkAdded(step)
  {
    StepReachable(cfg, s, step, s');
    StepWork(cfg, s, step);
  }

  /** Any run at all, window retries and early data included: the steps that get on are no
      more than the work at its start, plus what new submissions and spurious wake-ups add. */
  lemma {:induction false} RunsEnd(cfg: Config, states: seq<System>, steps: seq<Step>, n: nat)
    requires IsRun(cfg, states, steps) && Reachable(cfg, states[0]) && n <= |steps|
    ensures Reachable(cfg, states[n])
    ensures GettingOn(steps, n) + Work(states[n]) <= Work(states[0]) + AddedBy(steps, n)
  {
    if n > 0 {
      RunsEnd(cfg, states, steps, n - 1);
      StepOn(cfg, states[n - 1], steps[n - 1], states[n]);
    }
  }

  /** From every reachable state the owed steps alone lead to a quiet state. */
  lemma {:induction false} RunsToQuiet(cfg: Config, s: System) returns (states: seq<System>, steps: seq<Step>)
    requires Reachable(cfg, s)
    ensures IsRun(cfg, states, steps) && states[0] == s && Quiet(states[|steps|])
    ensures forall i :: 0 <= i < |steps| ==> Owed(steps[i])
    decreases Work(s)
  {
    if Quiet(s) {
      states, steps := [s], [];
    } else {
      var step := SomethingOwed(cfg, s);
      var s' := Do(cfg, s, step);
      NextWork(cfg, s, step, s');
      var rest, more := RunsToQuiet(cfg, s');
      states, steps := [s] + rest, [step] + more;
      RunCons(cfg, s, step, rest, more);
    }
  }

  lemma RunCons(cfg: Config, s: System, step: Step, states: seq<System>, steps: seq<Step>)
    requires IsRun(cfg, states, steps) && Next(cfg, s, step, states[0])
    ensures IsRun(cfg, [s] + states, [step] + steps)
  {
    forall i | 0 <= i < |steps| + 1
      ensures Next(cfg, ([s] + states)[i], ([step] + steps)[i], ([s] + states)[i + 1])
    {
      if i > 0 {
        assert Next(cfg, states[i - 1], steps[i - 1], states[i]);
      }
    }
  }

  // ----- What a quiet, running system looks like -----

  lemma StaysRunning(cfg: Config, s: System, step: Step)
    requires Enabled(cfg, s, step) && s.spc == Running && !step.Acquire? && !step.StopBegin?
    ensures Do(cfg, s, step).subs == s.subs && Do(cfg, s, step).spc == Running
  {
  }

  /** Credits that never come back leave no room for the front chunk. */
  predicate Stuck(qp: Qp) {
    qp.queue != [] && |qp.queue[0].batch| + Leaked(qp.posted) >= MAX_SEND_WR
  }

  lemma QuietCq(cfg: Config, s: System)
    requires Reachable(cfg, s) && Quiet(s) && s.spc == Running
    ensures Unhandled(s) == [] && s.ppc == AtGet
  {
    StopFacts(cfg, s);
    WakeFacts(cfg, s);
  }

  lemma WakeFacts(cfg: Config, s: System)
    requires Reachable(cfg, s)
    ensures WakeInv(s)
  {
    ReachableInv(cfg, s);
  }

  lemma QuietQp(cfg: Config, s: System, q: nat)
    requires Reachable(cfg, s) && Quiet(s) && s.spc == Running && q < |s.qps|
    ensures var qp := s.qps[q];
      && Pending(qp.wrs, qp.status) == [] && Of(Unhandled(s), q) == [] && Rest(qp.mutex) == []
      && Unposted(qp) == qp.queue && qp.outstanding == Leaked(qp.posted)
      && (qp.queue != [] <==> Stuck(qp))
  {
    var qp := s.qps[q];
    assert QpQuiet(qp);
    StopFacts(cfg, s);
    PcFacts(cfg, s, q);
    QuietCq(cfg, s);
    CreditsExact(cfg, s, q);
    if qp.queue != [] {
      WindowExact(|qp.queue[0].batch|, qp.outstanding);
    }
  }

  /** A running system at rest has drained each QP, except one whose front chunk finds the
      window used up by SEND and RECV credits. */
  lemma RestsDrained(cfg: Config, s: System, q: nat)
    requires Reachable(cfg, s) && Quiet(s) && s.spc == Running && q < |s.qps|
    ensures QpDrained(s, q) <==> !Stuck(s.qps[q])
    ensures s.qps[q].outstanding == Leaked(s.qps[q].posted)
  {
    QuietQp(cfg, s, q);
  }

  predicate ReadOnly(s: System) {
    forall sid :: 0 <= sid < |s.subs| ==> s.subs[sid].opcode == READ
  }

  lemma {:induction false} ReadsLeakNothing(chunks: seq<Chunk>)
    requires forall i :: 0 <= i < |chunks| ==> chunks[i].opcode == READ
    ensures Leaked(chunks) == 0
  {
    if chunks != [] {
      ReadsLeakNothing(chunks[..|chunks| - 1]);
    }
  }

  lemma ReadOnlyPosted(cfg: Config, s: System, q: nat)
    requires Reachable(cfg, s) && q < |s.qps| && ReadOnly(s)
    ensures Leaked(s.qps[q].posted) == 0
  {
    OrderFacts(cfg, s, q);
    forall i | 0 <= i < |s.qps[q].posted|
      ensures s.qps[q].posted[i].opcode == READ
    {
      assert s.qps[q].posted[i] == PlacedOn(s.subs, q)[i];
      PlacedOrigin(s.subs, q, i);
    }
    ReadsLeakNothing(s.qps[q].posted);
  }

  /** With READ only, a running system comes to rest with every queue empty, every request
      completed, every callback run and every counter back at zero, whether or not requests
      failed. */
  lemma ReadOnlyDrains(cfg: Config, s: System, q: nat)
    requires Reachable(cfg, s) && Quiet(s) && s.spc == Running && ReadOnly(s) && q < |s.qps|
    ensures QpDrained(s, q) && s.qps[q].outstanding == 0
    ensures FiredToks(s.qps[q].fired) == ReadToks(q, PlacedOn(s.subs, q))
  {
    ReadOnlyPosted(cfg, s, q);
    PcFacts(cfg, s, q);
    RestsDrained(cfg, s, q);
    DrainedFired(cfg, s, q);
  }

  /** After stop_future has posted its request, a system at rest has a poller that returned. */
  lemma ShutdownEnds(cfg: Config, s: System)
    requires Reachable(cfg, s) && Quiet(s) && s.spc == WakePosted
    ensures s.ppc.Returned?
  {
    StopFacts(cfg, s);
    if s.ppc.AtGet? {
      ShutdownWakes(cfg, s);
    }
  }

  // ----- The converse: SEND and RECV credits can stop a queue for good -----

  /** Not past the window test with the front chunk. */
  predicate BeforeTest(qp: Qp) {
    !qp.dpc.Checked? && !qp.dpc.Added? && !qp.dpc.Posted?
  }

  lemma StuckDispatcher(regions: Regions, q: nat, qp: Qp, d: DispatcherStep)
    requires PcInv(qp) && GoodChunks(qp.queue) && DispatcherEnabled(qp, d)
    requires Stuck(qp) && BeforeTest(qp) && Leaked(qp.posted) <= qp.outstanding < MAX_SEND_WR
    ensures var r := DispatcherDo(regions, q, qp, d); Stuck(r) && BeforeTest(r) && r.queue == qp.queue && r.posted == qp.posted
  {
    if d == CheckWindow {
      CheckCredits(WqOf(qp));
    }
  }

  /** Once stuck, always stuck: no step of anyone posts the front chunk. */
  lemma StuckStays(cfg: Config, s: System, step: Step, q: nat)
    requires Reachable(cfg, s) && Enabled(cfg, s, step) && q < |s.qps| && Stuck(s.qps[q]) && BeforeTest(s.qps[q])
    ensures var s' := Do(cfg, s, step);
      && q < |s'.qps| && Stuck(s'.qps[q]) && BeforeTest(s'.qps[q])
      && s'.qps[q].queue[0] == s.qps[q].queue[0] && s'.qps[q].posted == s.qps[q].posted
  {
    PcFacts(cfg, s, q);
    CreditsExact(cfg, s, q);
    if step.Dispatch? {
      if step.q == q {
        StuckDispatcher(cfg.regions, q, s.qps[q], step.d);
      }
    } else {
      OthersKeepQueue(cfg, s, step, q);
    }
  }

  ghost predicate SameQueue(qp: Qp, r: Qp) {
    r.posted == qp.posted && r.dpc == qp.dpc && qp.queue <= r.queue
  }

  lemma OthersKeepQueue(cfg: Config, s: System, step: Step, q: nat)
    requires Enabled(cfg, s, step) && q < |s.qps| && !step.Dispatch?
    ensures |Do(cfg, s, step).qps| == |s.qps| && SameQueue(s.qps[q], Do(cfg, s, step).qps[q])
  {
    if OfSubmitter(step) {
      SubmitterFrame(cfg, s, step, q);
    } else if OfNic(step) {
      NicFrame(cfg, s, step, q);
    } else if OfPoller(step) {
      PollerFrame(cfg, s, step, q);
    } else {
      StopperFrame(cfg, s, step, q);
    }
  }

  /** In every continuation of a run, the front chunk of a stuck queue stays unposted. */
  lemma {:induction false} StuckForever(cfg: Config, states: seq<System>, steps: seq<Step>, q: nat, n: nat)
    requires IsRun(cfg, states, steps) && Reachable(cfg, states[0]) && n <= |steps|
    requires q < |states[0].qps| && Stuck(states[0].qps[q]) && BeforeTest(states[0].qps[q])
    ensures Reachable(cfg, states[n]) && q < |states[n].qps| && Stuck(states[n].qps[q]) && BeforeTest(states[n].qps[q])
    ensures states[n].qps[q].queue[0] == states[0].qps[q].queue[0]
    ensures states[n].qps[q].posted == states[0].qps[q].posted
  {
    if n > 0 {
      StuckForever(cfg, states, steps, q, n - 1);
      assert Next(cfg, states[n - 1], steps[n - 1], states[n]);
      StepReachable(cfg, states[n - 1], steps[n - 1], states[n]);
      StuckStays(cfg, states[n - 1], steps[n - 1], q);
    }
  }
}
