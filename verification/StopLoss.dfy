/** What stop_future costs: a poller that finds the stop flag set drops what it has polled and
    what is still in the completion queue.  Exactly which callbacks are lost. */
module StopLoss {
  import opened Types
  import opened Split
  import opened Tokens
  import opened Pipeline
  import opened Frames
  import opened QpInvariant
  import opened SystemInvariant
  import opened Placement
  import opened Safety
  import opened Liveness
  import opened Progress

  /** Every READ chunk ever placed on QP q has had its callback. */
  ghost predicate AllCalled(s: System, q: nat) {
    q < |s.qps| && FiredToks(s.qps[q].fired) == ReadToks(q, PlacedOn(s.subs, q))
  }

  lemma OnlyPrefix(a: seq<Token>, b: seq<Token>, c: seq<Token>)
    ensures a + b + [] + c + [] == a <==> b == [] && c == []
  {
    assert |a + b + [] + c + []| == |a| + |b| + |c|;
  }

  /** When stop_future has finished, all READ callbacks of QP q have run if and only if none of
      its completions with a token was dropped by the poller or left in the completion queue,
      and no READ chunk is still queued. */
  lemma AllCalledExactlyWhen(cfg: Config, s: System, q: nat)
    requires Reachable(cfg, s) && Quiet(s) && s.spc == WakePosted && q < |s.qps|
    ensures AllCalled(s, q) <==> WcToks(Of(Unhandled(s), q)) == [] && ReadToks(q, Unposted(s.qps[q])) == []
  {
    var qp := s.qps[q];
    Conservation(cfg, s, q);
    ShutdownEnds(cfg, s);
    assert QpQuiet(qp);
    assert WrToks([]) == [] && ReadToks(q, []) == [];
    OnlyPrefix(FiredToks(qp.fired), WcToks(Awaiting(s, q)), ReadToks(q, Unposted(qp)));
  }

  // ----- What the poller still calls -----

  /** Tokens of QP q in the poller's block whose callback has not run. */
  function HeldToks(ppc: PollerPc, q: nat): seq<Token> {
    if !ppc.Handling? then [] else
    WcToks(if CalledFor(ppc, q) && Of(ppc.wcs, q) != [] then Of(ppc.wcs, q)[1..] else Of(ppc.wcs, q))
  }

  /** Callbacks of QP q that have run or will once the poller has finished its block. */
  function Certain(s: System, q: nat): seq<Token>
    requires q < |s.qps|
  {
    FiredToks(s.qps[q].fired) + HeldToks(s.ppc, q)
  }

  /** The entry at the head of a block, and the others of its own QP. */
  lemma OfHead(wcs: seq<Wc>, q: nat)
    requires wcs != []
    ensures wcs[0].qpi == q ==> Of(wcs, q) == [wcs[0]] + Of(wcs[1..], q) && Of(wcs, q)[1..] == Of(wcs[1..], q)
    ensures wcs[0].qpi == q ==> WcToks(Of(wcs, q)) == OptToks(wcs[0].wrId) + WcToks(Of(wcs[1..], q))
    ensures wcs[0].qpi != q ==> Of(wcs, q) == Of(wcs[1..], q)
  {
    if wcs[0].qpi == q {
      assert ([wcs[0]] + Of(wcs[1..], q))[1..] == Of(wcs[1..], q);
    }
  }

  /** Calling the head's callback takes its token off what is held. */
  lemma CalledHeld(wcs: seq<Wc>, q: nat)
    requires wcs != [] && wcs[0].wrId.Some?
    ensures HeldToks(Handling(wcs, false), q)
         == (if wcs[0].qpi == q then [wcs[0].wrId.value] else []) + HeldToks(Handling(wcs, true), q)
  {
    OfHead(wcs, q);
  }

  /** Going on to the next entry takes nothing off it. */
  lemma HandledKeepsHeld(wcs: seq<Wc>, called: bool, q: nat)
    requires wcs != [] && (called <==> wcs[0].wrId.Some?)
    ensures HeldToks(Handling(wcs[1..], false), q) == HeldToks(Handling(wcs, called), q)
  {
    OfHead(wcs, q);
  }

  lemma CallbackKeepsCertain(cfg: Config, s: System, q: nat)
    requires Reachable(cfg, s) && Enabled(cfg, s, Callback) && q < |s.qps|
    ensures q < |Do(cfg, s, Callback).qps| && Certain(Do(cfg, s, Callback), q) == Certain(s, q)
  {
    var tok, r := s.ppc.wcs[0].wrId.value, Do(cfg, s, Callback);
    EntryQp(cfg, s);
    CalledHeld(s.ppc.wcs, q);
    CallbackFires(cfg, s, q);
    Assoc(FiredToks(s.qps[q].fired), if tok.qpi == q then [tok] else [], HeldToks(r.ppc, q));
  }

  lemma EntryQp(cfg: Config, s: System)
    requires Reachable(cfg, s) && AtEntry(s) && s.ppc.wcs[0].wrId.Some?
    ensures s.ppc.wcs[0].wrId.value.qpi == s.ppc.wcs[0].qpi
  {
    ReachableInv(cfg, s);
    CurrentEntry(cfg, s);
  }

  lemma CallbackFires(cfg: Config, s: System, q: nat)
    requires Enabled(cfg, s, Callback) && q < |s.qps|
    ensures var tok, r := s.ppc.wcs[0].wrId.value, Do(cfg, s, Callback);
      && |r.qps| == |s.qps| && r.ppc == Handling(s.ppc.wcs, true)
      && FiredToks(r.qps[q].fired) == FiredToks(s.qps[q].fired) + if tok.qpi == q then [tok] else []
  {
    assert FiredToks(s.qps[q].fired) + [] == FiredToks(s.qps[q].fired);
  }

  lemma HandledKeepsCertain(cfg: Config, s: System, step: Step, q: nat)
    requires Enabled(cfg, s, step) && (step.Skip? || step.Subtract?) && q < |s.qps|
    ensures q < |Do(cfg, s, step).qps| && Certain(Do(cfg, s, step), q) == Certain(s, q)
  {
    FiredKept(cfg, s, step, q);
    HandledKeepsHeld(s.ppc.wcs, s.ppc.called, q);
  }

  lemma LoopKeepsCertain(cfg: Config, s: System, step: Step, q: nat)
    requires Enabled(cfg, s, step) && OfPoller(step) && !step.Skip? && !step.Callback? && !step.Subtract?
    requires s.stopCq && q < |s.qps|
    ensures q < |Do(cfg, s, step).qps| && Certain(Do(cfg, s, step), q) == Certain(s, q)
  {
    LoopFrame(cfg, s, step);
  }

  /** With the flag set the poller takes no further block. */
  lemma StepKeepsCertain(cfg: Config, s: System, step: Step, q: nat)
    requires Reachable(cfg, s) && Enabled(cfg, s, step) && s.stopCq && q < |s.qps|
    ensures q < |Do(cfg, s, step).qps| && Certain(Do(cfg, s, step), q) == Certain(s, q) && Do(cfg, s, step).stopCq
  {
    FlagStays(cfg, s, step);
    if step.Callback? {
      CallbackKeepsCertain(cfg, s, q);
    } else if step.Skip? || step.Subtract? {
      HandledKeepsCertain(cfg, s, step, q);
    } else if OfPoller(step) {
      LoopKeepsCertain(cfg, s, step, q);
    } else {
      FiredKept(cfg, s, step, q);
      OthersLeavePoller(cfg, s, step);
    }
  }

  lemma FlagStays(cfg: Config, s: System, step: Step)
    requires Enabled(cfg, s, step) && s.stopCq
    ensures Do(cfg, s, step).stopCq
  {
  }

  lemma {:induction false} RunKeepsCertain(cfg: Config, states: seq<System>, steps: seq<Step>, n: nat, q: nat)
    requires IsRun(cfg, states, steps) && Reachable(cfg, states[0]) && n <= |steps|
    requires states[0].stopCq && q < |states[0].qps|
    ensures Reachable(cfg, states[n]) && states[n].stopCq && q < |states[n].qps|
    ensures Certain(states[n], q) == Certain(states[0], q)
  {
    if n > 0 {
      RunKeepsCertain(cfg, states, steps, n - 1, q);
      assert Next(cfg, states[n - 1], steps[n - 1], states[n]);
      StepReachable(cfg, states[n - 1], steps[n - 1], states[n]);
      StepKeepsCertain(cfg, states[n - 1], steps[n - 1], q);
    }
  }

  /** Whatever happens after the poller's stop flag has been set, the callbacks that run are
      those of the block it held then: at rest they have all run, and no others ever do. */
  lemma CalledAfterStop(cfg: Config, states: seq<System>, steps: seq<Step>, n: nat, q: nat)
    requires IsRun(cfg, states, steps) && Reachable(cfg, states[0]) && n <= |steps|
    requires states[0].stopCq && q < |states[0].qps|
    ensures q < |states[n].qps|
    ensures FiredToks(states[n].qps[q].fired) <= FiredToks(states[0].qps[q].fired) + HeldToks(states[0].ppc, q)
    ensures Quiet(states[n]) ==>
      FiredToks(states[n].qps[q].fired) == FiredToks(states[0].qps[q].fired) + HeldToks(states[0].ppc, q)
  {
    RunKeepsCertain(cfg, states, steps, n, q);
    if Quiet(states[n]) {
      assert PollerQuiet(states[n]) && HeldToks(states[n].ppc, q) == [];
    }
  }

  // ----- When nothing is lost -----

  lemma FiredGrows(cfg: Config, s: System, step: Step, q: nat)
    requires Enabled(cfg, s, step) && !step.Acquire? && q < |s.qps|
    ensures var r := Do(cfg, s, step);
      |r.qps| == |s.qps| && r.subs == s.subs && FiredToks(s.qps[q].fired) <= FiredToks(r.qps[q].fired)
  {
    SameSubmissions(cfg, s, step);
    if step.Callback? {
      CallbackFires(cfg, s, q);
    } else {
      FiredKept(cfg, s, step, q);
    }
  }

  lemma SameSubmissions(cfg: Config, s: System, step: Step)
    requires Enabled(cfg, s, step) && !step.Acquire?
    ensures Do(cfg, s, step).subs == s.subs
  {
  }

  lemma {:induction false} RunFiredGrows(cfg: Config, states: seq<System>, steps: seq<Step>, n: nat, q: nat)
    requires IsRun(cfg, states, steps) && n <= |steps| && q < |states[0].qps|
    requires forall i :: 0 <= i < |steps| ==> !steps[i].Acquire?
    ensures |states[n].qps| == |states[0].qps| && states[n].subs == states[0].subs
    ensures FiredToks(states[0].qps[q].fired) <= FiredToks(states[n].qps[q].fired)
  {
    if n > 0 {
      RunFiredGrows(cfg, states, steps, n - 1, q);
      assert Next(cfg, states[n - 1], steps[n - 1], states[n]);
      FiredGrows(cfg, states[n - 1], steps[n - 1], q);
    }
  }

  /** What a caller can check before stop_future: if every queue pair has drained and nothing is
      submitted from then on, no callback is lost, at any point of any continuation. */
  lemma DrainFirst(cfg: Config, states: seq<System>, steps: seq<Step>, n: nat, q: nat)
    requires IsRun(cfg, states, steps) && Reachable(cfg, states[0]) && n <= |steps|
    requires q < |states[0].qps| && QpDrained(states[0], q)
    requires forall i :: 0 <= i < |steps| ==> !steps[i].Acquire?
    ensures AllCalled(states[n], q)
  {
    DrainedFired(cfg, states[0], q);
    RunFiredGrows(cfg, states, steps, n, q);
    RunReaches(cfg, states, steps, n);
    FiredPrefix(cfg, states[n], q);
  }
}
