/** What is in memory: every byte of our memory in every reachable state. */
module Delivery {
  import opened Types
  import opened Split
  import opened Chain
  import opened Memory
  import opened Tokens
  import opened Pipeline
  import opened Frames
  import opened QpInvariant
  import opened SystemInvariant

  predicate IsRead(s: System, q: int, i: int) {
    0 <= q < |s.qps| && 0 <= i < |s.qps[q].wrs| && s.qps[q].wrs[i].opcode == READ
  }

  predicate Writes(s: System, q: int, i: int, a: int) {
    IsRead(s, q, i) && 0 <= a && Hits(TransferOf(s.qps[q].wrs[i]), a)
  }

  predicate Moved(s: System, q: int, i: int) {
    IsRead(s, q, i) && i < |s.qps[q].exec| && s.qps[q].exec[i]
  }

  predicate IsRecv(s: System, q: int, i: int) {
    0 <= q < |s.qps| && 0 <= i < |s.qps[q].rwrs|
  }

  predicate InBuffer(r: RecvWr, a: int) {
    r.laddr <= a < r.laddr + r.length
  }

  /** A peer's message for receive request i may put a byte at `a`. */
  predicate Receives(s: System, q: int, i: int, a: int) {
    IsRecv(s, q, i) && InBuffer(s.qps[q].rwrs[i], a)
  }

  ghost predicate Receivable(s: System, a: int) {
    exists q, i :: Receives(s, q, i, a)
  }

  /** Read request i is the only posted request, reads and receives together, that writes `a`. */
  ghost predicate SoleWriter(s: System, q: int, i: int, a: int) {
    && Writes(s, q, i, a) && !Receivable(s, a)
    && forall p, j :: Writes(s, p, j, a) ==> p == q && j == i
  }

  function SourceByte(cfg: Config, w: Wr, a: nat): (b: Option<Byte>)
    requires Hits(TransferOf(w), a)
  {
    if w.raddr + (a - w.laddr) < |cfg.remote| then Some(cfg.remote[w.raddr + (a - w.laddr)]) else None
  }

  /** Requests whose data has moved were allowed by their keys and fitted into both memories. */
  ghost predicate FitInv(cfg: Config, s: System) {
    && |s.local| == |cfg.init|
    && forall q, i :: Moved(s, q, i) ==>
         && Fits(TransferOf(s.qps[q].wrs[i]), |cfg.init|, |cfg.remote|)
         && Admits(cfg.regions, s.qps[q].wrs[i], 0, s.qps[q].wrs[i].length)
  }

  predicate Untouched(cfg: Config, s: System, a: int) {
    0 <= a < |s.local| == |cfg.init| && s.local[a] == cfg.init[a]
  }

  predicate Delivered(cfg: Config, s: System, q: int, i: int, a: int)
    requires Writes(s, q, i, a)
  {
    a < |s.local| && SourceByte(cfg, s.qps[q].wrs[i], a) == Some(s.local[a])
  }

  /** No posted request, read or receive, writes `a`. */
  ghost predicate Unwritten(s: System, a: int) {
    !Receivable(s, a) && forall q, i :: !Writes(s, q, i, a)
  }

  ghost predicate UnwrittenInv(cfg: Config, s: System) {
    forall a :: 0 <= a < |s.local| && Unwritten(s, a) ==> Untouched(cfg, s, a)
  }

  ghost predicate WrittenInv(cfg: Config, s: System) {
    forall q, i, a :: Moved(s, q, i) && SoleWriter(s, q, i, a) ==> Delivered(cfg, s, q, i, a)
  }

  ghost predicate PartlyInv(cfg: Config, s: System) {
    forall q, i, a :: SoleWriter(s, q, i, a) && a < |s.local| ==> Untouched(cfg, s, a) || Delivered(cfg, s, q, i, a)
  }

  /** A byte that no posted request writes is untouched.  A byte with a single writer among all
      posted requests, and in no receive buffer, holds the remote byte as soon as that request's
      data has moved; before that, or if it fails, it holds either its first or the remote byte. */
  ghost predicate MemInv(cfg: Config, s: System) {
    FitInv(cfg, s) && UnwrittenInv(cfg, s) && WrittenInv(cfg, s) && PartlyInv(cfg, s)
  }

  // ----- What one step does -----

  /** The byte a step writes at `a`, if it writes there. */
  function NewByte(cfg: Config, s: System, step: Step, a: nat): (b: Option<Byte>)
    requires Enabled(cfg, s, step)
  {
    match step
    case Execute(q, i) =>
      if s.qps[q].wrs[i].opcode == READ && Hits(TransferOf(s.qps[q].wrs[i]), a)
      then SourceByte(cfg, s.qps[q].wrs[i], a) else None
    case Place(q, i, from, to) =>
      if Hits(Part(TransferOf(s.qps[q].wrs[i]), from, to), a) then SourceByte(cfg, s.qps[q].wrs[i], a) else None
    case Land(q, data) =>
      var at := s.qps[q].rwrs[s.qps[q].rdone].laddr;
      if at <= a < at + |data| then Some(data[a - at]) else None
    case _ => None
  }

  lemma MemoryAt(cfg: Config, s: System, step: Step, mem: seq<Byte>, a: nat)
    requires Enabled(cfg, s, step) && |mem| == |s.local| && a < |mem|
    ensures MemoryAfter(cfg, s, step, mem)[a] == match NewByte(cfg, s, step, a) { case Some(b) => b case None => mem[a] }
  {
  }

  /** `a` lies in a posted read whose source byte is b. */
  ghost predicate Sourced(cfg: Config, s: System, a: int, b: Byte) {
    exists q, i :: Writes(s, q, i, a) && SourceByte(cfg, s.qps[q].wrs[i], a) == Some(b)
  }

  /** A byte that a step writes belongs to a posted read, which asked for it, or to a posted
      receive buffer. */
  lemma NewByteOrigin(cfg: Config, s: System, step: Step, a: nat)
    requires Enabled(cfg, s, step) && NewByte(cfg, s, step, a).Some?
    ensures Receivable(s, a) || Sourced(cfg, s, a, NewByte(cfg, s, step, a).value)
  {
    match step
    case Execute(q, i) => assert Writes(s, q, i, a);
    case Place(q, i, from, to) => assert Writes(s, q, i, a);
    case Land(q, data) => assert Receives(s, q, s.qps[q].rdone, a);
  }

  /** Both logs only grow. */
  ghost predicate LogsGrow(s: System, s': System) {
    && (forall q, i :: IsRead(s, q, i) ==> IsRead(s', q, i) && s'.qps[q].wrs[i] == s.qps[q].wrs[i])
    && (forall q, i :: IsRecv(s, q, i) ==> IsRecv(s', q, i) && s'.qps[q].rwrs[i] == s.qps[q].rwrs[i])
  }

  lemma GrowReceivable(s: System, s': System, a: int)
    requires LogsGrow(s, s') && Receivable(s, a)
    ensures Receivable(s', a)
  {
    var q, i :| Receives(s, q, i, a);
    assert IsRecv(s, q, i) && Receives(s', q, i, a);
  }

  lemma GrowSourced(cfg: Config, s: System, s': System, a: int, b: Byte)
    requires LogsGrow(s, s') && Sourced(cfg, s, a, b)
    ensures Sourced(cfg, s', a, b)
  {
    var q, i :| Writes(s, q, i, a) && SourceByte(cfg, s.qps[q].wrs[i], a) == Some(b);
    assert IsRead(s, q, i) && Writes(s', q, i, a);
  }

  lemma GrowUnwritten(s: System, s': System, a: int)
    requires LogsGrow(s, s') && Unwritten(s', a)
    ensures Unwritten(s, a)
  {
    if Receivable(s, a) {
      GrowReceivable(s, s', a);
    }
    forall q, i
      ensures !Writes(s, q, i, a)
    {
      assert IsRead(s, q, i) ==> !Writes(s', q, i, a);
    }
  }

  /** A byte's single writer was so before, or is newly posted to a byte nobody wrote. */
  lemma GrowSole(s: System, s': System, q: int, i: int, a: int)
    requires LogsGrow(s, s') && SoleWriter(s', q, i, a)
    ensures SoleWriter(s, q, i, a) || (!IsRead(s, q, i) && Unwritten(s, a))
  {
    if Receivable(s, a) {
      GrowReceivable(s, s', a);
    }
    forall p, j | Writes(s, p, j, a)
      ensures p == q && j == i
    {
      assert IsRead(s, p, j);
      assert Writes(s', p, j, a);
    }
    if IsRead(s, q, i) {
      assert Writes(s, q, i, a);
    }
  }

  /** A changed byte has been written by a posted request. */
  ghost predicate Explained(cfg: Config, s: System, s': System) {
    && |s'.local| == |s.local|
    && forall a :: 0 <= a < |s.local| ==>
         s'.local[a] == s.local[a] || Receivable(s', a) || Sourced(cfg, s', a, s'.local[a])
  }

  ghost predicate WhollyThere(cfg: Config, s: System, q: int, i: int) {
    && IsRead(s, q, i) && Fits(TransferOf(s.qps[q].wrs[i]), |s.local|, |cfg.remote|)
    && Admits(cfg.regions, s.qps[q].wrs[i], 0, s.qps[q].wrs[i].length)
    && forall a :: Writes(s, q, i, a) ==> Delivered(cfg, s, q, i, a)
  }

  /** Data that has moved in this step is there. */
  ghost predicate MovesWhole(cfg: Config, s: System, s': System) {
    forall q, i :: Moved(s', q, i) ==> Moved(s, q, i) || WhollyThere(cfg, s', q, i)
  }

  lemma KeepsFit(cfg: Config, s: System, s': System)
    requires FitInv(cfg, s) && LogsGrow(s, s') && Explained(cfg, s, s') && MovesWhole(cfg, s, s')
    ensures FitInv(cfg, s')
  {
    forall q, i | Moved(s', q, i)
      ensures Fits(TransferOf(s'.qps[q].wrs[i]), |cfg.init|, |cfg.remote|)
      ensures Admits(cfg.regions, s'.qps[q].wrs[i], 0, s'.qps[q].wrs[i].length)
    {
      if Moved(s, q, i) {
        assert IsRead(s, q, i);
      } else {
        assert WhollyThere(cfg, s', q, i);
      }
    }
  }

  lemma KeepsUnwritten(cfg: Config, s: System, s': System)
    requires FitInv(cfg, s) && UnwrittenInv(cfg, s) && LogsGrow(s, s') && Explained(cfg, s, s')
    ensures UnwrittenInv(cfg, s')
  {
    forall a | 0 <= a < |s'.local| && Unwritten(s', a)
      ensures Untouched(cfg, s', a)
    {
      GrowUnwritten(s, s', a);
      assert Untouched(cfg, s, a);
    }
  }

  /** What a single writer's byte holds after the step: what it held, or the byte asked for. */
  lemma SoleByte(cfg: Config, s: System, s': System, q: int, i: int, a: int)
    requires Explained(cfg, s, s') && SoleWriter(s', q, i, a) && a < |s.local|
    ensures s'.local[a] == s.local[a] || Delivered(cfg, s', q, i, a)
  {
    if Sourced(cfg, s', a, s'.local[a]) {
      var p, j :| Writes(s', p, j, a) && SourceByte(cfg, s'.qps[p].wrs[j], a) == Some(s'.local[a]);
      assert p == q && j == i;
    }
  }

  lemma KeepsWritten(cfg: Config, s: System, s': System)
    requires WrittenInv(cfg, s) && LogsGrow(s, s') && Explained(cfg, s, s') && MovesWhole(cfg, s, s')
    ensures WrittenInv(cfg, s')
  {
    forall q, i, a | Moved(s', q, i) && SoleWriter(s', q, i, a)
      ensures Delivered(cfg, s', q, i, a)
    {
      if Moved(s, q, i) {
        GrowSole(s, s', q, i, a);
        assert Delivered(cfg, s, q, i, a);
        SoleByte(cfg, s, s', q, i, a);
      } else {
        assert WhollyThere(cfg, s', q, i) && Writes(s', q, i, a);
      }
    }
  }

  lemma KeepsPartly(cfg: Config, s: System, s': System)
    requires FitInv(cfg, s) && UnwrittenInv(cfg, s) && PartlyInv(cfg, s) && LogsGrow(s, s') && Explained(cfg, s, s')
    ensures PartlyInv(cfg, s')
  {
    forall q, i, a | SoleWriter(s', q, i, a) && a < |s'.local|
      ensures Untouched(cfg, s', a) || Delivered(cfg, s', q, i, a)
    {
      GrowSole(s, s', q, i, a);
      SoleByte(cfg, s, s', q, i, a);
      assert Untouched(cfg, s, a) || (SoleWriter(s, q, i, a) && Delivered(cfg, s, q, i, a));
      assert IsRead(s, q, i) ==> s'.qps[q].wrs[i] == s.qps[q].wrs[i];
    }
  }

  /** As long as a receive is pending, any bytes may come to stand in its buffer, whatever was
      there; the logs, and so the statuses of all reads, stay as they are. */
  lemma LandOverwrites(cfg: Config, s: System, q: nat, data: seq<Byte>)
    requires CanLand(cfg, s, q, data)
    ensures Enabled(cfg, s, Land(q, data))
    ensures var s', at := Do(cfg, s, Land(q, data)), s.qps[q].rwrs[s.qps[q].rdone].laddr;
      && s'.qps == s.qps && at + |data| <= |s'.local| && s'.local[at..at + |data|] == data
  {
    var at := s.qps[q].rwrs[s.qps[q].rdone].laddr;
    assert Written(s.local, at, data)[at..at + |data|] == data;
  }

  // ----- Every step is like that -----

  ghost predicate SameRequests(s: System, s': System) {
    && |s'.qps| == |s.qps|
    && forall q :: 0 <= q < |s.qps| ==> SameLogsAt(s.qps[q], s'.qps[q])
  }

  /** One queue pair's logs grow, by requests whose data has not moved. */
  ghost predicate QpGrows(qp: Qp, r: Qp) {
    && qp.wrs <= r.wrs && qp.exec <= r.exec && qp.rwrs <= r.rwrs && |qp.exec| == |qp.wrs| && |r.exec| == |r.wrs|
    && forall i :: |qp.exec| <= i < |r.exec| ==> !r.exec[i]
  }

  ghost predicate NothingMoves(s: System, s': System) {
    forall q, i :: Moved(s', q, i) ==> Moved(s, q, i)
  }

  lemma OneLogGrows(s: System, q: nat, qp: Qp, s': System)
    requires q < |s.qps| && s'.qps == s.qps[q := qp] && QpGrows(s.qps[q], qp)
    ensures LogsGrow(s, s') && NothingMoves(s, s')
  {
  }

  lemma SameLogs(s: System, s': System)
    requires SameRequests(s, s')
    ensures LogsGrow(s, s') && NothingMoves(s, s')
  {
  }

  predicate SameLogsAt(qp: Qp, r: Qp) {
    r.wrs == qp.wrs && r.exec == qp.exec && r.rwrs == qp.rwrs
  }

  lemma RetireKeepsLogs(s: System, p: nat, ok: bool, q: nat)
    requires p < |s.qps| && |s.qps[p].status| < |s.qps[p].wrs| && q < |s.qps|
    ensures |Retire(s, p, ok).qps| == |s.qps| && SameLogsAt(s.qps[q], Retire(s, p, ok).qps[q])
  {
  }

  lemma DataKeepsLogs(cfg: Config, s: System, step: Step, q: nat)
    requires Enabled(cfg, s, step) && (step.Place? || step.Land? || step.CompleteRecv?) && q < |s.qps|
    ensures |Do(cfg, s, step).qps| == |s.qps| && SameLogsAt(s.qps[q], Do(cfg, s, step).qps[q])
  {
  }

  lemma TellingKeepsLogs(cfg: Config, s: System, step: Step, q: nat)
    requires Enabled(cfg, s, step) && (step.StopSet? || step.StopNotify?) && q < |s.qps|
    ensures |Do(cfg, s, step).qps| == |s.qps| && SameLogsAt(s.qps[q], Do(cfg, s, step).qps[q])
  {
  }

  lemma OthersKeepLogsAt(cfg: Config, s: System, step: Step, q: nat)
    requires Enabled(cfg, s, step) && !step.Dispatch? && !step.Execute? && !step.StopPost? && q < |s.qps|
    ensures |Do(cfg, s, step).qps| == |s.qps| && SameLogsAt(s.qps[q], Do(cfg, s, step).qps[q])
  {
    if step.Complete? || step.Fail? {
      RetireKeepsLogs(s, step.q, step.Complete?, q);
    } else if OfNic(step) {
      DataKeepsLogs(cfg, s, step, q);
    } else if OfPoller(step) {
      PollerFrame(cfg, s, step, q);
    } else if OfSubmitter(step) {
      SubmitterFrame(cfg, s, step, q);
    } else if step.StopSet? || step.StopNotify? {
      TellingKeepsLogs(cfg, s, step, q);
    } else {
      StopPhaseFrame(cfg, s, step);
    }
  }

  lemma OthersKeepLogs(cfg: Config, s: System, step: Step)
    requires Enabled(cfg, s, step) && !step.Dispatch? && !step.Execute? && !step.StopPost? && s.qps != []
    ensures SameRequests(s, Do(cfg, s, step))
  {
    OthersKeepLogsAt(cfg, s, step, 0);
    forall q | 0 <= q < |s.qps|
      ensures SameLogsAt(s.qps[q], Do(cfg, s, step).qps[q])
    {
      OthersKeepLogsAt(cfg, s, step, q);
    }
  }

  lemma DispatcherGrows(regions: Regions, q: nat, qp: Qp, d: DispatcherStep)
    requires DispatcherEnabled(qp, d) && |qp.exec| == |qp.wrs|
    ensures QpGrows(qp, DispatcherDo(regions, q, qp, d))
  {
  }

  lemma LogsKeptOn(cfg: Config, s: System, step: Step)
    requires QpsInv(cfg, s) && Enabled(cfg, s, step) && !step.Execute?
    ensures LogsGrow(s, Do(cfg, s, step)) && NothingMoves(s, Do(cfg, s, step))
  {
    var s' := Do(cfg, s, step);
    if step.Dispatch? {
      DispatcherGrows(cfg.regions, step.q, s.qps[step.q], step.d);
      OneLogGrows(s, step.q, s'.qps[step.q], s');
    } else if step.StopPost? {
      OneLogGrows(s, 0, s'.qps[0], s');
    } else {
      OthersKeepLogs(cfg, s, step);
      SameLogs(s, s');
    }
  }

  lemma ExecuteMoves(cfg: Config, s: System, q: nat, i: nat)
    requires Enabled(cfg, s, Execute(q, i))
    ensures LogsGrow(s, Do(cfg, s, Execute(q, i))) && MovesWhole(cfg, s, Do(cfg, s, Execute(q, i)))
  {
    var s' := Do(cfg, s, Execute(q, i));
    forall p, j | Moved(s', p, j) && !Moved(s, p, j)
      ensures WhollyThere(cfg, s', p, j)
    {
      assert p == q && j == i;
    }
  }

  lemma MemoryOfDo(cfg: Config, s: System, step: Step)
    requires Enabled(cfg, s, step)
    ensures Do(cfg, s, step).local == MemoryAfter(cfg, s, step, s.local)
  {
  }

  lemma StepExplained(cfg: Config, s: System, step: Step)
    requires Enabled(cfg, s, step) && LogsGrow(s, Do(cfg, s, step))
    ensures Explained(cfg, s, Do(cfg, s, step))
  {
    var s' := Do(cfg, s, step);
    MemoryOfDo(cfg, s, step);
    forall a | 0 <= a < |s.local|
      ensures s'.local[a] == s.local[a] || Receivable(s', a) || Sourced(cfg, s', a, s'.local[a])
    {
      MemoryAt(cfg, s, step, s.local, a);
      if NewByte(cfg, s, step, a).Some? {
        NewByteGrows(cfg, s, step, a, s');
      }
    }
  }

  lemma NewByteGrows(cfg: Config, s: System, step: Step, a: nat, s': System)
    requires Enabled(cfg, s, step) && NewByte(cfg, s, step, a).Some? && LogsGrow(s, s')
    ensures Receivable(s', a) || Sourced(cfg, s', a, NewByte(cfg, s, step, a).value)
  {
    NewByteOrigin(cfg, s, step, a);
    if Receivable(s, a) {
      GrowReceivable(s, s', a);
    } else {
      GrowSourced(cfg, s, s', a, NewByte(cfg, s, step, a).value);
    }
  }

  lemma StepMoves(cfg: Config, s: System, step: Step)
    requires QpsInv(cfg, s) && Enabled(cfg, s, step)
    ensures LogsGrow(s, Do(cfg, s, step)) && MovesWhole(cfg, s, Do(cfg, s, step))
  {
    if step.Execute? {
      ExecuteMoves(cfg, s, step.q, step.i);
    } else {
      LogsKeptOn(cfg, s, step);
    }
  }

  lemma MemKept(cfg: Config, s: System, step: Step)
    requires QpsInv(cfg, s) && MemInv(cfg, s) && Enabled(cfg, s, step)
    ensures MemInv(cfg, Do(cfg, s, step))
  {
    var s' := Do(cfg, s, step);
    StepMoves(cfg, s, step);
    StepExplained(cfg, s, step);
    KeepsFit(cfg, s, s');
    KeepsUnwritten(cfg, s, s');
    KeepsWritten(cfg, s, s');
    KeepsPartly(cfg, s, s');
  }

  lemma {:induction false} RunMem(cfg: Config, states: seq<System>, steps: seq<Step>, i: nat)
    requires IsRun(cfg, states, steps) && states[0] == Init(cfg) && i <= |steps|
    ensures MemInv(cfg, states[i])
  {
    if i > 0 {
      RunMem(cfg, states, steps, i - 1);
      InitInv(cfg);
      RunInv(cfg, states, steps, i - 1);
      assert Next(cfg, states[i - 1], steps[i - 1], states[i]);
      MemKept(cfg, states[i - 1], steps[i - 1]);
    }
  }

  lemma ReachableMem(cfg: Config, s: System)
    requires Reachable(cfg, s)
    ensures MemInv(cfg, s)
  {
    var states, steps :| IsRun(cfg, states, steps) && states[0] == Init(cfg) && states[|steps|] == s;
    RunMem(cfg, states, steps, |steps|);
  }

  lemma DeliveredAt(cfg: Config, s: System, q: nat, i: nat, a: nat)
    requires Reachable(cfg, s) && Moved(s, q, i) && SoleWriter(s, q, i, a)
    ensures Delivered(cfg, s, q, i, a)
  {
    ReachableMem(cfg, s);
  }
}
