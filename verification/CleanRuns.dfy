/** Whole runs without errors: they can always go on, and they all end with local memory as
    the sequential copy loop leaves it. */
module CleanRuns {
  import opened Types
  import opened Chain
  import opened Memory
  import opened Pipeline
  import opened Frames
  import opened QpInvariant
  import opened SystemInvariant
  import opened Delivery
  import opened Placement
  import opened Safety
  import opened Access
  import opened Refinement
  import opened Liveness
  import opened Progress

  /** Every READ submitted stays within our region and the peer's region of its key, and these
      within the memories; what a SEND sends stays within our region; and no field overflows. */
  ghost predicate InBounds(cfg: Config, s: System) {
    && (forall sid, m :: IsReadAssignment(s.subs, sid, m) ==> ReadInBounds(cfg, s.subs[sid].batch[m]))
    && (forall sid, m :: IsSendAssignment(s.subs, sid, m) ==>
          FitsFields(cfg, s.subs[sid].batch[m]) && WithinLocal(cfg.regions, s.subs[sid].batch[m]))
  }

  predicate ReadInBounds(cfg: Config, a: Assignment) {
    && FitsFields(cfg, a) && WithinLocal(cfg.regions, a) && WithinRemote(cfg.regions, a)
    && Fits(TransferFor(cfg.regions, a), |cfg.init|, |cfg.remote|)
  }

  predicate NoneFailed(s: System) {
    forall q :: 0 <= q < |s.qps| ==> !s.qps[q].failed
  }

  lemma RequestFits(cfg: Config, s: System, q: nat, i: nat)
    requires Reachable(cfg, s) && InBounds(cfg, s) && IsRead(s, q, i)
    ensures Fits(TransferOf(s.qps[q].wrs[i]), |s.local|, |cfg.remote|) && Allowed(cfg, s.qps[q].wrs[i])
  {
    var sid, m := RequestOrigin(cfg, s, q, i);
    assert ReadInBounds(cfg, s.subs[sid].batch[m]);
    SentSlot(cfg, s, sid, m);
    LocalSize(cfg, s);
    ReadAdmitted(cfg, s, sid, m);
  }

  lemma SendAllowed(cfg: Config, s: System, q: nat, i: nat)
    requires Reachable(cfg, s) && InBounds(cfg, s) && s.spc == Running
    requires q < |s.qps| && i < |s.qps[q].wrs| && s.qps[q].wrs[i].opcode == SEND
    ensures Allowed(cfg, s.qps[q].wrs[i])
  {
    WakeFlag(cfg, s, q);
    var sid, m := SendOrigin(cfg, s, q, i);
    var w := s.qps[q].wrs[i];
    LocalExactly(cfg.regions, s.subs[sid].batch[m], w.laddr, w.length, w.lkey);
  }

  /** With accesses in bounds the NIC is never forced to fail: the oldest request of a QP in
      order can move its data or, that done, complete. */
  lemma NicCanSucceed(cfg: Config, s: System, q: nat)
    requires Reachable(cfg, s) && InBounds(cfg, s) && s.spc == Running
    requires q < |s.qps| && |s.qps[q].status| < |s.qps[q].wrs| && !s.qps[q].failed
    ensures Enabled(cfg, s, Complete(q)) || Enabled(cfg, s, Execute(q, |s.qps[q].status|))
  {
    PcFacts(cfg, s, q);
    var i := |s.qps[q].status|;
    NoRecvPosted(cfg, s, q, i);
    if s.qps[q].wrs[i].opcode == READ {
      RequestFits(cfg, s, q, i);
    } else {
      SendAllowed(cfg, s, q, i);
    }
  }

  /** Deadlock freedom without errors: some owed step other than a failure is enabled. */
  lemma OwedCleanly(cfg: Config, s: System) returns (step: Step)
    requires Reachable(cfg, s) && InBounds(cfg, s) && NoneFailed(s) && s.spc == Running && !Quiet(s)
    ensures Owed(step) && !step.Fail? && Enabled(cfg, s, step)
  {
    step := SomethingOwed(cfg, s);
    if step.Fail? {
      NicCanSucceed(cfg, s, step.q);
      step := if Enabled(cfg, s, Complete(step.q)) then Complete(step.q) else Execute(step.q, |s.qps[step.q].status|);
    }
  }

  /** What stays the same until something fails or is submitted. */
  ghost predicate ErrorFree(cfg: Config, s: System, subs: seq<Submission>) {
    Reachable(cfg, s) && NoneFailed(s) && s.subs == subs && s.spc == Running
  }

  lemma CompleteKeepsClean(s: System, q: nat)
    requires NoneFailed(s) && q < |s.qps| && |s.qps[q].status| < |s.qps[q].wrs|
    ensures NoneFailed(Retire(s, q, true))
  {
  }

  lemma DataKeepsClean(cfg: Config, s: System, step: Step)
    requires NoneFailed(s) && Enabled(cfg, s, step)
    requires step.Execute? || step.Place? || step.Land? || step.CompleteRecv?
    ensures NoneFailed(Do(cfg, s, step))
  {
  }

  lemma StepKeepsWhole(cfg: Config, s: System, step: Step)
    requires Reachable(cfg, s) && NoneFailed(s) && Enabled(cfg, s, step) && !step.Fail?
    ensures NoneFailed(Do(cfg, s, step))
  {
    if step.Complete? {
      CompleteKeepsClean(s, step.q);
    } else if OfNic(step) {
      DataKeepsClean(cfg, s, step);
    } else if step.Dispatch? {
      DispatchFrame(cfg, s, step.q, step.d);
    } else {
      StopFacts(cfg, s);
      OtherFrames(cfg, s, step, 0);
      forall q: nat | q < |s.qps|
        ensures !Do(cfg, s, step).qps[q].failed
      {
        OtherFrames(cfg, s, step, q);
      }
    }
  }

  lemma OtherFrames(cfg: Config, s: System, step: Step, q: nat)
    requires Enabled(cfg, s, step) && !OfNic(step) && !step.Dispatch? && q < |s.qps|
    ensures |Do(cfg, s, step).qps| == |s.qps| && Do(cfg, s, step).qps[q].failed == s.qps[q].failed
  {
    if OfPoller(step) {
      PollerFrame(cfg, s, step, q);
    } else if OfSubmitter(step) {
      SubmitterFrame(cfg, s, step, q);
    } else {
      StopperFrame(cfg, s, step, q);
    }
  }

  lemma StepKeepsClean(cfg: Config, s: System, step: Step, subs: seq<Submission>)
    requires ErrorFree(cfg, s, subs) && Enabled(cfg, s, step) && !step.Fail? && !step.Acquire? && !step.StopBegin?
    ensures ErrorFree(cfg, Do(cfg, s, step), subs)
  {
    StepReachable(cfg, s, step, Do(cfg, s, step));
    StepKeepsWhole(cfg, s, step);
    StaysRunning(cfg, s, step);
  }

  /** Where an error-free running system comes to rest. */
  lemma RestIsSequential(cfg: Config, s: System)
    requires Reachable(cfg, s) && NoneFailed(s) && Quiet(s) && s.spc == Running && ReadOnly(s) && AllApart(cfg, s)
    ensures CleanlyDrained(s) && AllFit(Requested(cfg.regions, s.subs), |cfg.init|, |cfg.remote|)
    ensures s.local == RunAll(cfg.init, cfg.remote, Requested(cfg.regions, s.subs))
  {
    assert NoRecv(s);
    forall q | 0 <= q < |s.qps|
      ensures QpDrained(s, q)
    {
      ReadOnlyDrains(cfg, s, q);
    }
    DrainedIsSequential(cfg, s);
  }

  lemma {:induction false} RunKeepsClean(cfg: Config, states: seq<System>, steps: seq<Step>, n: nat)
    requires IsRun(cfg, states, steps) && ErrorFree(cfg, states[0], states[0].subs) && n <= |steps|
    requires forall i :: 0 <= i < |steps| ==> !steps[i].Fail? && !steps[i].Acquire? && !steps[i].StopBegin?
    ensures ErrorFree(cfg, states[n], states[0].subs)
  {
    if n > 0 {
      RunKeepsClean(cfg, states, steps, n - 1);
      assert Next(cfg, states[n - 1], steps[n - 1], states[n]);
      StepKeepsClean(cfg, states[n - 1], steps[n - 1], states[0].subs);
    }
  }

  lemma SameSubs(cfg: Config, s: System, r: System)
    requires r.subs == s.subs && ReadOnly(s) && AllApart(cfg, s)
    ensures ReadOnly(r) && AllApart(cfg, r)
  {
    forall sid, m | IsReadAssignment(r.subs, sid, m)
      ensures WritesApart(cfg, r, sid, m)
    {
      assert WritesApart(cfg, s, sid, m);
    }
  }

  /** Whatever the interleaving, a READ-only run without errors that comes to rest leaves local
      memory as the sequential copy loop over all submissions leaves it. */
  lemma EveryCleanRun(cfg: Config, states: seq<System>, steps: seq<Step>)
    requires IsRun(cfg, states, steps) && ErrorFree(cfg, states[0], states[0].subs)
    requires ReadOnly(states[0]) && AllApart(cfg, states[0])
    requires forall i :: 0 <= i < |steps| ==> !steps[i].Fail? && !steps[i].Acquire? && !steps[i].StopBegin?
    requires Quiet(states[|steps|])
    ensures AllFit(Requested(cfg.regions, states[0].subs), |cfg.init|, |cfg.remote|)
    ensures states[|steps|].local == RunAll(cfg.init, cfg.remote, Requested(cfg.regions, states[0].subs))
  {
    RunKeepsClean(cfg, states, steps, |steps|);
    SameSubs(cfg, states[0], states[|steps|]);
    RestIsSequential(cfg, states[|steps|]);
  }

  /** Such a run exists from every error-free state whose accesses are in bounds. */
  lemma {:induction false} CleanRunExists(cfg: Config, s: System) returns (states: seq<System>, steps: seq<Step>)
    requires ErrorFree(cfg, s, s.subs) && InBounds(cfg, s)
    ensures IsRun(cfg, states, steps) && states[0] == s && Quiet(states[|steps|])
    ensures forall i :: 0 <= i < |steps| ==> Owed(steps[i]) && !steps[i].Fail?
    decreases Work(s)
  {
    if Quiet(s) {
      states, steps := [s], [];
    } else {
      var step := OwedCleanly(cfg, s);
      var s' := Do(cfg, s, step);
      NextWork(cfg, s, step, s');
      StepKeepsClean(cfg, s, step, s.subs);
      var rest, more := CleanRunExists(cfg, s');
      states, steps := [s] + rest, [step] + more;
      RunCons(cfg, s, step, rest, more);
    }
  }
}
