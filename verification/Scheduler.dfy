/** RDMAScheduler: several contexts behind one submit. */
module Scheduler {
  import opened Types
  import opened Split
  import opened Chain
  import opened Pipeline
  import opened RoundRobin
  import opened Placement
  import opened Safety
  import RC = RdmaContext

  /** The handle that one context's submit has answered: none for an empty batch, otherwise the
      chunk with the end of the batch and the caller's callback. */
  ghost predicate Answered(handle: Option<Chunk>, sid: nat, opcode: OpCode, batch: seq<Assignment>) {
    (handle.None? <==> batch == []) && (handle.Some? ==> RC.LastOfBatch(handle.value, sid, opcode, batch))
  }

  /** For a READ it belongs to the submission's final callback on the queue pair selected. */
  lemma AnsweredIsFinal(s: System, q: nat, batch: seq<Assignment>, handle: Option<Chunk>)
    requires q < |s.qps| && Answered(handle, |s.subs|, READ, batch) && handle.Some?
    ensures var r := RC.Submitted(s, q, READ, batch);
      IsReadAssignment(r.subs, |s.subs|, 0) && FinalToken(r.subs, |s.subs|) == Token(handle.value, q)
  {
    RC.LastIsFinal(s, q, batch, handle.value);
  }

  class RDMAScheduler {
    const rdmaCtxs: seq<RC.RDMAContext>
    var lastRdmaSelection: int
    ghost var selector: Selector   // the counters of both levels

    /** The counters are the selector's: after n submissions, After(k, n). */
    ghost predicate Valid()
      reads this, rdmaCtxs
    {
      && |rdmaCtxs| >= 1 && (forall c, d :: 0 <= c < d < |rdmaCtxs| ==> rdmaCtxs[c] != rdmaCtxs[d])
      && Counters(|rdmaCtxs|, selector) && Mirrors(selector)
    }

    ghost predicate Mirrors(s: Selector)
      reads this, rdmaCtxs
    {
      && |s.lastQp| == |rdmaCtxs| && lastRdmaSelection == s.lastRdma
      && forall c :: 0 <= c < |rdmaCtxs| ==> rdmaCtxs[c].lastQpSelection == s.lastQp[c]
    }

    /** Over contexts on which nothing has been submitted yet. */
    constructor (rdmaCtxs: seq<RC.RDMAContext>)
      requires |rdmaCtxs| >= 1 && (forall c, d :: 0 <= c < d < |rdmaCtxs| ==> rdmaCtxs[c] != rdmaCtxs[d])
      requires forall c :: 0 <= c < |rdmaCtxs| ==> rdmaCtxs[c].lastQpSelection == -1
      ensures Valid() && selector == After(|rdmaCtxs|, 0) && this.rdmaCtxs == rdmaCtxs
    {
      this.rdmaCtxs, lastRdmaSelection, selector := rdmaCtxs, -1, Fresh(|rdmaCtxs|);
    }

    /** selectRdma */
    method SelectRdma() returns (c: nat)
      requires |rdmaCtxs| >= 1 && -1 <= lastRdmaSelection < |rdmaCtxs|
      modifies this`lastRdmaSelection
      ensures c == lastRdmaSelection == (old(lastRdmaSelection) + 1) % |rdmaCtxs|
    {
      lastRdmaSelection := (lastRdmaSelection + 1) % |rdmaCtxs|;
      c := lastRdmaSelection;
    }

    /** The selected context's submit, which leaves the counters as r has them. */
    method SubmitOn(c: nat, ghost q: nat, ghost r: Selector, opcode: OpCode, batch: seq<Assignment>) returns (handle: Option<Chunk>)
      requires c < |rdmaCtxs| && rdmaCtxs[c].Valid() && Registered(rdmaCtxs[c].regions, batch)
      requires forall c, d :: 0 <= c < d < |rdmaCtxs| ==> rdmaCtxs[c] != rdmaCtxs[d]
      requires |batch| + SPLIT_STEP <= 0x8000_0000
      requires rdmaCtxs[c].sys.qps[(rdmaCtxs[c].lastQpSelection + 1) % 4].mutex == Free
      requires |r.lastQp| == |rdmaCtxs| && lastRdmaSelection == r.lastRdma
      requires r.lastQp[c] == (rdmaCtxs[c].lastQpSelection + 1) % 4 == q
      requires forall d :: 0 <= d < |rdmaCtxs| && d != c ==> rdmaCtxs[d].lastQpSelection == r.lastQp[d]
      modifies rdmaCtxs[c], rdmaCtxs[c].qpManagement
      ensures Mirrors(r) && rdmaCtxs[c].Valid()
      ensures rdmaCtxs[c].sys == RC.Submitted(old(rdmaCtxs[c].sys), q, opcode, batch)
      ensures Answered(handle, |old(rdmaCtxs[c].sys.subs)|, opcode, batch)
    {
      handle := rdmaCtxs[c].Submit(opcode, batch);
    }

    /** submitAssignment: the selected context, and no other, gets the batch on the selected
        queue pair; the handle returned holds that context's handle. */
    method SubmitAssignment(opcode: OpCode, batch: seq<Assignment>) returns (handles: seq<Option<Chunk>>)
      requires Valid() && |batch| + SPLIT_STEP <= 0x8000_0000
      requires var t := Select(|rdmaCtxs|, selector).1;
        && rdmaCtxs[t.ctx].Valid() && Registered(rdmaCtxs[t.ctx].regions, batch)
        && rdmaCtxs[t.ctx].sys.qps[t.qp].mutex == Free  // otherwise the lock is awaited
      modifies this, rdmaCtxs[Select(|rdmaCtxs|, selector).1.ctx], rdmaCtxs[Select(|rdmaCtxs|, selector).1.ctx].qpManagement
      ensures Valid() && selector == Select(|rdmaCtxs|, old(selector)).0
      ensures var t := Select(|rdmaCtxs|, old(selector)).1;
        && rdmaCtxs[t.ctx].Valid()
        && rdmaCtxs[t.ctx].sys
           == RC.Submitted(old(rdmaCtxs[Select(|rdmaCtxs|, selector).1.ctx].sys), t.qp, opcode, batch)
      ensures |handles| == 1
      ensures Answered(handles[0], |old(rdmaCtxs[Select(|rdmaCtxs|, selector).1.ctx].sys.subs)|, opcode, batch)
    {
      ghost var r, t := Select(|rdmaCtxs|, selector).0, Select(|rdmaCtxs|, selector).1;
      var c := SelectRdma();
      assert c == t.ctx;
      var handle := SubmitOn(c, t.qp, r, opcode, batch);
      selector := r;
      handles := [handle];
    }
  }
}
