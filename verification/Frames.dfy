/** What a step of each actor leaves alone in each queue pair and outside of them. */
module Frames {
  import opened Types
  import opened Pipeline

  predicate SubmitterKept(qp: Qp, r: Qp) {
    && r == qp.(mutex := r.mutex, queue := r.queue, pushed := r.pushed, notified := r.notified)
    && qp.queue <= r.queue && (qp.notified ==> r.notified)
  }

  predicate NicKept(qp: Qp, r: Qp) {
    r == qp.(exec := r.exec, status := r.status, failed := r.failed, rdone := r.rdone, cqd := r.cqd)
  }

  predicate PollerKept(qp: Qp, r: Qp) {
    r == qp.(outstanding := r.outstanding, cqd := r.cqd, called := r.called, fired := r.fired)
  }

  predicate StopperKept(qp: Qp, r: Qp) {
    && r == qp.(stop := r.stop, notified := r.notified, wrs := r.wrs, exec := r.exec, wake := r.wake)
    && (qp.stop ==> r.stop) && (qp.notified ==> r.notified)
  }

  /** Outside the queue pairs and the stop phase. */
  predicate PhaseKept(s: System, s': System) {
    |s'.qps| == |s.qps| && s'.spc == s.spc && s'.stopCq == s.stopCq
  }

  lemma SubmitterFrame(cfg: Config, s: System, step: Step, q: nat)
    requires Enabled(cfg, s, step) && OfSubmitter(step) && q < |s.qps|
    ensures var s' := Do(cfg, s, step);
      && PhaseKept(s, s') && s'.ppc == s.ppc && s'.cq == s.cq && s.subs <= s'.subs && SubmitterKept(s.qps[q], s'.qps[q])
  {
  }

  lemma DispatchFrame(cfg: Config, s: System, q: nat, d: DispatcherStep)
    requires Enabled(cfg, s, Dispatch(q, d))
    ensures var s' := Do(cfg, s, Dispatch(q, d));
      && PhaseKept(s, s') && s'.ppc == s.ppc && s'.cq == s.cq && s'.subs == s.subs
      && s'.qps == s.qps[q := DispatcherDo(cfg.regions, q, s.qps[q], d)]
  {
  }

  lemma RetireFrame(s: System, p: nat, ok: bool, q: nat)
    requires p < |s.qps| && |s.qps[p].status| < |s.qps[p].wrs| && q < |s.qps|
    ensures var s' := Retire(s, p, ok);
      PhaseKept(s, s') && s'.ppc == s.ppc && s'.subs == s.subs && NicKept(s.qps[q], s'.qps[q])
  {
  }

  lemma DataFrame(cfg: Config, s: System, step: Step, q: nat)
    requires Enabled(cfg, s, step) && (step.Execute? || step.Place? || step.Land? || step.CompleteRecv?) && q < |s.qps|
    ensures var s' := Do(cfg, s, step);
      PhaseKept(s, s') && s'.ppc == s.ppc && s'.subs == s.subs && NicKept(s.qps[q], s'.qps[q])
  {
  }

  lemma NicFrame(cfg: Config, s: System, step: Step, q: nat)
    requires Enabled(cfg, s, step) && OfNic(step) && q < |s.qps|
    ensures var s' := Do(cfg, s, step);
      PhaseKept(s, s') && s'.ppc == s.ppc && s'.subs == s.subs && NicKept(s.qps[q], s'.qps[q])
  {
    if step.Complete? || step.Fail? {
      RetireFrame(s, step.q, step.Complete?, q);
    } else {
      DataFrame(cfg, s, step, q);
    }
  }

  lemma HandlingFrame(cfg: Config, s: System, step: Step, q: nat)
    requires Enabled(cfg, s, step) && (step.Skip? || step.Callback? || step.Subtract?) && q < |s.qps|
    ensures var s' := Do(cfg, s, step); PhaseKept(s, s') && s'.subs == s.subs && PollerKept(s.qps[q], s'.qps[q])
  {
  }

  lemma LoopFrame(cfg: Config, s: System, step: Step)
    requires Enabled(cfg, s, step) && OfPoller(step) && !step.Skip? && !step.Callback? && !step.Subtract?
    ensures var s' := Do(cfg, s, step); PhaseKept(s, s') && s'.subs == s.subs && s'.qps == s.qps
  {
  }

  lemma PollerFrame(cfg: Config, s: System, step: Step, q: nat)
    requires Enabled(cfg, s, step) && OfPoller(step) && q < |s.qps|
    ensures var s' := Do(cfg, s, step); PhaseKept(s, s') && s'.subs == s.subs && PollerKept(s.qps[q], s'.qps[q])
  {
    if step.Skip? || step.Callback? || step.Subtract? {
      HandlingFrame(cfg, s, step, q);
    } else {
      LoopFrame(cfg, s, step);
    }
  }

  lemma TellingFrame(cfg: Config, s: System, step: Step, q: nat)
    requires Enabled(cfg, s, step) && (step.StopSet? || step.StopNotify? || step.StopPost?) && q < |s.qps|
    ensures var s' := Do(cfg, s, step);
      |s'.qps| == |s.qps| && s'.ppc == s.ppc && s'.cq == s.cq && s'.subs == s.subs && StopperKept(s.qps[q], s'.qps[q])
  {
  }

  lemma StopPhaseFrame(cfg: Config, s: System, step: Step)
    requires Enabled(cfg, s, step) && OfStopper(step) && !step.StopSet? && !step.StopNotify? && !step.StopPost?
    ensures var s' := Do(cfg, s, step); s'.qps == s.qps && s'.ppc == s.ppc && s'.cq == s.cq && s'.subs == s.subs
  {
  }

  lemma StopperFrame(cfg: Config, s: System, step: Step, q: nat)
    requires Enabled(cfg, s, step) && OfStopper(step) && q < |s.qps|
    ensures var s' := Do(cfg, s, step);
      |s'.qps| == |s.qps| && s'.ppc == s.ppc && s'.cq == s.cq && s'.subs == s.subs && StopperKept(s.qps[q], s'.qps[q])
  {
    if step.StopSet? || step.StopNotify? || step.StopPost? {
      TellingFrame(cfg, s, step, q);
    } else {
      StopPhaseFrame(cfg, s, step);
    }
  }

  /** Callbacks run in the Callback step only. */
  lemma FiredKept(cfg: Config, s: System, step: Step, q: nat)
    requires Enabled(cfg, s, step) && step != Callback && q < |s.qps|
    ensures var s' := Do(cfg, s, step); |s'.qps| == |s.qps| && s.subs <= s'.subs && s'.qps[q].fired == s.qps[q].fired
  {
    if step.Dispatch? {
      DispatchFrame(cfg, s, step.q, step.d);
    } else if OfPoller(step) {
      PollerFires(cfg, s, step, q);
    } else if OfNic(step) {
      NicFrame(cfg, s, step, q);
    } else if OfSubmitter(step) {
      SubmitterFrame(cfg, s, step, q);
    } else {
      StopperFrame(cfg, s, step, q);
    }
  }

  lemma PollerFires(cfg: Config, s: System, step: Step, q: nat)
    requires Enabled(cfg, s, step) && OfPoller(step) && step != Callback && q < |s.qps|
    ensures var s' := Do(cfg, s, step); |s'.qps| == |s.qps| && s'.subs == s.subs && s'.qps[q].fired == s.qps[q].fired
  {
    PollerFrame(cfg, s, step, q);
    if step.Skip? || step.Subtract? {
      HandledFires(cfg, s, step, q);
    } else {
      LoopFrame(cfg, s, step);
    }
  }

  lemma HandledFires(cfg: Config, s: System, step: Step, q: nat)
    requires Enabled(cfg, s, step) && (step.Skip? || step.Subtract?) && q < |s.qps|
    ensures q < |Do(cfg, s, step).qps| && Do(cfg, s, step).qps[q].fired == s.qps[q].fired
  {
  }

  lemma OthersLeavePoller(cfg: Config, s: System, step: Step)
    requires Enabled(cfg, s, step) && !OfPoller(step) && s.qps != []
    ensures Do(cfg, s, step).ppc == s.ppc
  {
    if step.Dispatch? {
      DispatchFrame(cfg, s, step.q, step.d);
    } else if OfNic(step) {
      NicFrame(cfg, s, step, 0);
    } else if OfSubmitter(step) {
      SubmitterFrame(cfg, s, step, 0);
    } else {
      StopperFrame(cfg, s, step, 0);
    }
  }
}
