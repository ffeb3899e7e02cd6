/** stop_future sets the stop flag and notifies outside the queue mutex, so a dispatcher that
    has found its predicate false but is not asleep yet misses the notification.  When that
    happens, what it leads to, and that nothing else can go wrong. */
module StopRace {
  import opened Types
  import opened Split
  import opened Chain
  import opened Tokens
  import opened Pipeline
  import opened Frames
  import opened QpInvariant
  import opened SystemInvariant
  import opened Safety
  import opened Progress

  /** stop_future has set queue pair q's flag and notified it. */
  predicate ToldToStop(s: System, q: nat) {
    match s.spc
    case Running => false
    case Joining(k, turn) => q < k || (q == k && turn == Told)
    case CqStopped => true
    case CqArmed => true
    case WakePosted => true
  }

  /** With the stop flag set, asleep or falling asleep with no notification to wake it. */
  predicate Unheeding(qp: Qp) {
    qp.stop && (qp.dpc.PredFalse? || (qp.dpc.Asleep? && !qp.notified))
  }

  /** The stop request has come and gone without waking the dispatcher. */
  predicate MissedStop(s: System, q: nat)
    requires q < |s.qps|
  {
    ToldToStop(s, q) && Unheeding(s.qps[q])
  }

  /** The stop request is missed exactly when the notification lands between the predicate and
      the sleep, whenever the flag was set. */
  lemma MissedExactlyWhen(cfg: Config, s: System)
    requires Reachable(cfg, s) && Enabled(cfg, s, StopNotify)
    ensures s.spc.k < |Do(cfg, s, StopNotify).qps|
    ensures MissedStop(Do(cfg, s, StopNotify), s.spc.k) <==> s.qps[s.spc.k].dpc == PredFalse
  {
    StopFlags(cfg, s);
  }

  lemma HeededDispatcher(w: Wq, d: DispatcherStep)
    requires WqEnabled(w, d) && d != Post && w.stop && !(w.dpc.PredFalse? || (w.dpc.Asleep? && !w.notified))
    ensures var r := WqDo(w, d); r.stop && !(r.dpc.PredFalse? || (r.dpc.Asleep? && !r.notified))
  {
    match d
    case Exit => case Lock => case TestPredicate => case Sleep => case Wake => case SpuriousWake => case LeaveDrain =>
    case Overflow => case CheckWindow => case Retry => case AddCredits => case Pop =>
  }

  lemma MissedDispatcher(w: Wq, d: DispatcherStep)
    requires WqEnabled(w, d) && w.stop && (w.dpc.PredFalse? || (w.dpc.Asleep? && !w.notified)) && d != SpuriousWake
    ensures d != Post && var r := WqDo(w, d); r.stop && (r.dpc.PredFalse? || (r.dpc.Asleep? && !r.notified))
  {
  }

  /** Outside dispatcher steps the flag stays set, and only a notification changes the rest. */
  ghost predicate StopKeptOn(s: System, step: Step, s': System, q: nat) {
    && q < |s.qps| == |s'.qps| && s'.qps[q].dpc == s.qps[q].dpc
    && (s.qps[q].stop ==> s'.qps[q].stop)
    && (s.qps[q].notified ==> s'.qps[q].notified)
    && (s'.qps[q].notified && !s.qps[q].notified ==> step == Notify(q) || (step == StopNotify && s.spc == Joining(q, Flagged)))
  }

  lemma StopperKeepsStop(cfg: Config, s: System, step: Step, q: nat)
    requires Enabled(cfg, s, step) && q < |s.qps| && OfStopper(step)
    ensures StopKeptOn(s, step, Do(cfg, s, step), q)
  {
    StopperFrame(cfg, s, step, q);
    if !step.StopSet? && !step.StopNotify? && !step.StopPost? {
      StopPhaseFrame(cfg, s, step);
    }
  }

  lemma OthersKeepStop(cfg: Config, s: System, step: Step, q: nat)
    requires Enabled(cfg, s, step) && q < |s.qps| && !step.Dispatch?
    ensures StopKeptOn(s, step, Do(cfg, s, step), q)
  {
    if OfNic(step) {
      NicFrame(cfg, s, step, q);
    } else if OfSubmitter(step) {
      SubmitterFrame(cfg, s, step, q);
    } else if OfPoller(step) {
      PollerFrame(cfg, s, step, q);
    } else {
      StopperKeepsStop(cfg, s, step, q);
    }
  }

  /** Who has been told stays told. */
  lemma ToldStays(cfg: Config, s: System, step: Step, q: nat)
    requires Enabled(cfg, s, step) && ToldToStop(s, q)
    ensures ToldToStop(Do(cfg, s, step), q)
  {
    if !OfStopper(step) {
      StepKeepsPhase(cfg, s, step);
    }
  }

  /** A dispatcher that has heeded its stop request never comes to miss it. */
  lemma HeededStays(cfg: Config, s: System, step: Step, q: nat)
    requires Reachable(cfg, s) && Enabled(cfg, s, step) && q < |s.qps| && ToldToStop(s, q) && !MissedStop(s, q)
    ensures q < |Do(cfg, s, step).qps| && ToldToStop(Do(cfg, s, step), q) && !MissedStop(Do(cfg, s, step), q)
  {
    ToldStays(cfg, s, step, q);
    StopFlags(cfg, s);
    if step.Dispatch? {
      if step.q == q && step.d != Post {
        HeededDispatcher(WqOf(s.qps[q]), step.d);
      }
    } else {
      OthersKeepStop(cfg, s, step, q);
    }
  }

  /** A missed stop request stays missed until the dispatcher wakes for another reason: a new
      submission on its QP, or a spurious wake-up.  stop_future waits for it meanwhile. */
  lemma MissedStays(cfg: Config, s: System, step: Step, q: nat)
    requires Reachable(cfg, s) && Enabled(cfg, s, step) && q < |s.qps| && MissedStop(s, q)
    requires step != Notify(q) && step != Dispatch(q, SpuriousWake)
    ensures q < |Do(cfg, s, step).qps| && MissedStop(Do(cfg, s, step), q)
    ensures s.spc == Joining(q, Told) ==> Do(cfg, s, step).spc == Joining(q, Told)
  {
    ToldStays(cfg, s, step, q);
    if step.Dispatch? {
      if step.q == q {
        MissedDispatcher(WqOf(s.qps[q]), step.d);
      }
    } else {
      OthersKeepStop(cfg, s, step, q);
    }
  }

  /** Flags are set one QP after the other, in order. */
  ghost predicate StopOrder(s: System) {
    && (s.spc.Running? ==> forall q :: 0 <= q < |s.qps| ==> !s.qps[q].stop)
    && (s.spc.Joining? ==> forall q :: 0 <= q < |s.qps| ==>
          (s.qps[q].stop <==> q < s.spc.k || (q == s.spc.k && s.spc.turn != Untold)))
    && (s.stopCq ==> forall q :: 0 <= q < |s.qps| ==> s.qps[q].stop)
    && (s.spc.CqStopped? || s.spc.CqArmed? || s.spc.WakePosted? ==> s.stopCq)
  }

  lemma DispatcherKeepsStop(regions: Regions, q: nat, qp: Qp, d: DispatcherStep)
    requires DispatcherEnabled(qp, d)
    ensures DispatcherDo(regions, q, qp, d).stop == qp.stop
  {
    if d != Post {
      WqKeepsStop(WqOf(qp), d);
    }
  }

  lemma WqKeepsStop(w: Wq, d: DispatcherStep)
    requires WqEnabled(w, d) && d != Post
    ensures WqDo(w, d).stop == w.stop
  {
  }

  lemma StepKeepsFlags(cfg: Config, s: System, step: Step, q: nat)
    requires Enabled(cfg, s, step) && q < |s.qps| && !OfStopper(step)
    ensures PhaseKept(s, Do(cfg, s, step)) && Do(cfg, s, step).qps[q].stop == s.qps[q].stop
  {
    if step.Dispatch? {
      DispatchFrame(cfg, s, step.q, step.d);
      DispatcherKeepsStop(cfg.regions, step.q, s.qps[step.q], step.d);
    } else if OfNic(step) {
      NicFrame(cfg, s, step, q);
    } else if OfPoller(step) {
      PollerFrame(cfg, s, step, q);
    } else {
      SubmitterFrame(cfg, s, step, q);
    }
  }

  lemma StepKeepsPhase(cfg: Config, s: System, step: Step)
    requires Enabled(cfg, s, step) && !OfStopper(step)
    ensures PhaseKept(s, Do(cfg, s, step))
  {
    if |s.qps| > 0 {
      StepKeepsFlags(cfg, s, step, 0);
    }
  }

  lemma TellingKeepsOrder(cfg: Config, s: System, step: Step)
    requires StopOrder(s) && Enabled(cfg, s, step) && (step.StopSet? || step.StopNotify? || step.StopPost?)
    ensures StopOrder(Do(cfg, s, step))
  {
  }

  lemma PhaseKeepsOrder(cfg: Config, s: System, step: Step)
    requires StopOrder(s) && Enabled(cfg, s, step) && (step.StopBegin? || step.StopJoin? || step.StopCq? || step.StopArm?)
    ensures StopOrder(Do(cfg, s, step))
  {
  }

  lemma StopperKeepsOrder(cfg: Config, s: System, step: Step)
    requires StopOrder(s) && Enabled(cfg, s, step) && OfStopper(step)
    ensures StopOrder(Do(cfg, s, step))
  {
    if step.StopSet? || step.StopNotify? || step.StopPost? {
      TellingKeepsOrder(cfg, s, step);
    } else {
      PhaseKeepsOrder(cfg, s, step);
    }
  }

  lemma OrderKept(cfg: Config, s: System, step: Step, s': System)
    requires Next(cfg, s, step, s') && StopOrder(s)
    ensures StopOrder(s')
  {
    if OfStopper(step) {
      StopperKeepsOrder(cfg, s, step);
    } else {
      StepKeepsPhase(cfg, s, step);
      forall q: nat | q < |s.qps|
        ensures s'.qps[q].stop == s.qps[q].stop
      {
        StepKeepsFlags(cfg, s, step, q);
      }
    }
  }

  lemma {:induction false} RunOrder(cfg: Config, states: seq<System>, steps: seq<Step>, n: nat)
    requires IsRun(cfg, states, steps) && states[0] == Init(cfg) && n <= |steps|
    ensures StopOrder(states[n])
  {
    if n > 0 {
      RunOrder(cfg, states, steps, n - 1);
      OrderKept(cfg, states[n - 1], steps[n - 1], states[n]);
    }
  }

  lemma StopFlags(cfg: Config, s: System)
    requires Reachable(cfg, s)
    ensures StopOrder(s)
  {
    var states, steps :| IsRun(cfg, states, steps) && states[0] == Init(cfg) && states[|steps|] == s;
    RunOrder(cfg, states, steps, |steps|);
  }

  /** The race is real: five steps from the start reach a missed stop request. */
  lemma MissedStopReachable(cfg: Config)
    ensures exists s :: Reachable(cfg, s) && s.spc == Joining(0, Told) && |s.qps| > 0 && MissedStop(s, 0)
  {
    var s0 := Init(cfg);
    InitReachable(cfg);
    var s1 := Do(cfg, s0, Dispatch(0, Lock));
    StepReachable(cfg, s0, Dispatch(0, Lock), s1);
    var s2 := Do(cfg, s1, Dispatch(0, TestPredicate));
    StepReachable(cfg, s1, Dispatch(0, TestPredicate), s2);
    AskedTooLate(cfg, s2);
  }

  /** The stopper has set the flag of the dispatcher it is at and notified it. */
  function Asked(s: System): System
    requires s.spc.Joining? && s.spc.k < |s.qps|
  {
    SetQp(s, s.spc.k, StopNotifyDo(StopSetDo(s.qps[s.spc.k]))).(spc := Joining(s.spc.k, Told))
  }

  lemma AskedReached(cfg: Config, s: System)
    requires Reachable(cfg, s) && s.spc.Joining? && s.spc.k < |s.qps| && s.spc.turn == Untold
    ensures Reachable(cfg, Asked(s))
  {
    var s1 := Do(cfg, s, StopSet);
    StepReachable(cfg, s, StopSet, s1);
    StepReachable(cfg, s1, StopNotify, Do(cfg, s1, StopNotify));
    assert Do(cfg, s1, StopNotify) == Asked(s);
  }

  /** Between its predicate and its sleep a dispatcher misses the request. */
  lemma AskedTooLate(cfg: Config, s: System)
    requires Reachable(cfg, s) && s.spc == Running && |s.qps| > 0 && s.qps[0].dpc == PredFalse
    ensures exists r :: Reachable(cfg, r) && r.spc == Joining(0, Told) && |r.qps| > 0 && MissedStop(r, 0)
  {
    var s1 := Do(cfg, s, StopBegin);
    StepReachable(cfg, s, StopBegin, s1);
    AskedReached(cfg, s1);
    assert MissedStop(Asked(s1), 0);
  }

  lemma JoiningCq(cfg: Config, s: System)
    requires Reachable(cfg, s) && Quiet(s) && s.spc.Joining?
    ensures Unhandled(s) == []
  {
    StopFacts(cfg, s);
    WakeFacts(cfg, s);
  }

  lemma RefusedIsStuck(cfg: Config, s: System, q: nat)
    requires Reachable(cfg, s) && Quiet(s) && s.spc.Joining? && q < |s.qps| && Refused(s.qps[q])
    ensures Stuck(s.qps[q])
  {
    var qp := s.qps[q];
    assert QpQuiet(qp);
    PcFacts(cfg, s, q);
    JoiningCq(cfg, s);
    CreditsExact(cfg, s, q);
    WindowExact(|qp.queue[0].batch|, qp.outstanding);
  }

  /** Where stop_future gets stuck, exactly: once it has begun, a system at rest has finished it
      if and only if no dispatcher has missed its request and none is refused by a closed
      window. */
  lemma StopEndsExactlyWhen(cfg: Config, s: System)
    requires Reachable(cfg, s) && Quiet(s) && s.spc != Running
    ensures s.spc == WakePosted <==> forall q :: 0 <= q < |s.qps| ==> !MissedStop(s, q) && !Refused(s.qps[q])
  {
    if s.spc.Joining? {
      StopFlags(cfg, s);
      assert QpQuiet(s.qps[s.spc.k]);
    } else {
      AllExited(cfg, s);
    }
  }

  /** Apart from that race and from queues stopped by SEND and RECV credits, stop_future always
      finishes: a system at rest after it began has joined every dispatcher, posted its
      request, and the poller has returned. */
  lemma StopEnds(cfg: Config, s: System)
    requires Reachable(cfg, s) && Quiet(s) && s.spc != Running
    requires forall q :: 0 <= q < |s.qps| ==> !MissedStop(s, q) && !Stuck(s.qps[q])
    ensures s.spc == WakePosted && s.ppc.Returned?
    ensures forall q :: 0 <= q < |s.qps| ==> s.qps[q].dpc.Exited?
  {
    if s.spc.Joining? {
      forall q: nat | q < |s.qps|
        ensures !Refused(s.qps[q])
      {
        if Refused(s.qps[q]) {
          RefusedIsStuck(cfg, s, q);
        }
      }
    }
    StopEndsExactlyWhen(cfg, s);
    ShutdownEnds(cfg, s);
    AllExited(cfg, s);
  }

  lemma AllExited(cfg: Config, s: System)
    requires Reachable(cfg, s) && s.spc != Running && !s.spc.Joining?
    ensures forall q :: 0 <= q < |s.qps| ==> s.qps[q].dpc.Exited?
  {
    ReachableInv(cfg, s);
  }
}
