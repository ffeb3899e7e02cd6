/** The two transports against each other: a cleanly drained RDMA pipeline has done what one
    NVLink read_batch call after another would have done. */
module Backends {
  import opened Types
  import opened Chain
  import opened Memory
  import opened Pipeline
  import opened Placement
  import opened Refinement
  import opened Nvlink

  lemma {:induction false} RunAllConcat(local: seq<Byte>, remote: seq<Byte>, a: seq<Transfer>, b: seq<Transfer>)
    requires AllFit(a, |local|, |remote|) && AllFit(b, |local|, |remote|)
    ensures RunAll(local, remote, a + b) == RunAll(RunAll(local, remote, a), remote, b)
    decreases |b|
  {
    if b == [] {
      assert a + b == a;
    } else {
      var n := |b| - 1;
      RunAllConcat(local, remote, a, b[..n]);
      assert (a + b)[..|a + b| - 1] == a + b[..n];
    }
  }

  /** What read_batch is asked to do for one submission. */
  function NvRequested(mrs: map<string, NvMr>, remoteMrs: map<string, NvMr>, sub: Submission): seq<Transfer> {
    if sub.opcode == READ then NvTransfers(mrs, remoteMrs, sub.batch) else []
  }

  ghost predicate NvFits(mrs: map<string, NvMr>, remoteMrs: map<string, NvMr>, subs: seq<Submission>, localSize: nat,
                         remoteSize: nat)
  {
    forall i :: 0 <= i < |subs| ==> AllFit(NvRequested(mrs, remoteMrs, subs[i]), localSize, remoteSize)
  }

  /** One read_batch call for each READ submission, in submission order. */
  ghost function NvRun(local: seq<Byte>, remote: seq<Byte>, mrs: map<string, NvMr>, remoteMrs: map<string, NvMr>,
                       subs: seq<Submission>): (out: seq<Byte>)
    requires NvFits(mrs, remoteMrs, subs, |local|, |remote|)
    ensures |out| == |local|
  {
    if subs == [] then local
    else RunAll(NvRun(local, remote, mrs, remoteMrs, subs[..|subs| - 1]), remote, NvRequested(mrs, remoteMrs, subs[|subs| - 1]))
  }

  /** Every key is registered alike with both transports, and every length fits 32 bits. */
  ghost predicate Alike(regions: Regions, mrs: map<string, NvMr>, remoteMrs: map<string, NvMr>, sub: Submission) {
    forall m :: 0 <= m < |sub.batch| ==>
      SameRegistration(regions, mrs, remoteMrs, sub.batch[m].mrKey) && sub.batch[m].length < TWO32
  }

  lemma SameRequests(regions: Regions, mrs: map<string, NvMr>, remoteMrs: map<string, NvMr>, sub: Submission)
    requires Alike(regions, mrs, remoteMrs, sub)
    ensures RequestedBy(regions, sub) == NvRequested(mrs, remoteMrs, sub)
  {
    forall m | 0 <= m < |sub.batch|
      ensures TransferFor(regions, sub.batch[m]) == NvTransfer(mrs, remoteMrs, sub.batch[m])
    {
      BackendsAgree(regions, mrs, remoteMrs, sub.batch[m]);
    }
  }

  lemma {:induction false} NvRunIsSequential(local: seq<Byte>, remote: seq<Byte>, regions: Regions, mrs: map<string, NvMr>,
                                            remoteMrs: map<string, NvMr>, subs: seq<Submission>)
    requires forall i :: 0 <= i < |subs| ==> Alike(regions, mrs, remoteMrs, subs[i])
    requires AllFit(Requested(regions, subs), |local|, |remote|)
    ensures NvFits(mrs, remoteMrs, subs, |local|, |remote|)
    ensures NvRun(local, remote, mrs, remoteMrs, subs) == RunAll(local, remote, Requested(regions, subs))
  {
    if subs != [] {
      var n := |subs| - 1;
      var front, last := Requested(regions, subs[..n]), RequestedBy(regions, subs[n]);
      SameRequests(regions, mrs, remoteMrs, subs[n]);
      FitSplits(front, last, |local|, |remote|);
      NvRunIsSequential(local, remote, regions, mrs, remoteMrs, subs[..n]);
      RunAllConcat(local, remote, front, last);
      NvFitsNext(mrs, remoteMrs, subs, |local|, |remote|);
      NvRunNext(local, remote, mrs, remoteMrs, subs);
    }
  }

  lemma NvRunNext(local: seq<Byte>, remote: seq<Byte>, mrs: map<string, NvMr>, remoteMrs: map<string, NvMr>,
                  subs: seq<Submission>)
    requires subs != [] && NvFits(mrs, remoteMrs, subs, |local|, |remote|)
    ensures NvRun(local, remote, mrs, remoteMrs, subs)
         == RunAll(NvRun(local, remote, mrs, remoteMrs, subs[..|subs| - 1]), remote, NvRequested(mrs, remoteMrs, subs[|subs| - 1]))
  {
  }

  lemma NvFitsNext(mrs: map<string, NvMr>, remoteMrs: map<string, NvMr>, subs: seq<Submission>, localSize: nat,
                   remoteSize: nat)
    requires subs != [] && NvFits(mrs, remoteMrs, subs[..|subs| - 1], localSize, remoteSize)
    requires AllFit(NvRequested(mrs, remoteMrs, subs[|subs| - 1]), localSize, remoteSize)
    ensures NvFits(mrs, remoteMrs, subs, localSize, remoteSize)
  {
    var n := |subs| - 1;
    forall i | 0 <= i < |subs|
      ensures AllFit(NvRequested(mrs, remoteMrs, subs[i]), localSize, remoteSize)
    {
      assert i < n ==> subs[i] == subs[..n][i];
    }
  }

  lemma FitSplits(a: seq<Transfer>, b: seq<Transfer>, localSize: nat, remoteSize: nat)
    requires AllFit(a + b, localSize, remoteSize)
    ensures AllFit(a, localSize, remoteSize) && AllFit(b, localSize, remoteSize)
  {
    forall i | 0 <= i < |a|
      ensures Fits(a[i], localSize, remoteSize)
    {
      assert (a + b)[i] == a[i];
    }
    forall i | 0 <= i < |b|
      ensures Fits(b[i], localSize, remoteSize)
    {
      assert (a + b)[|a| + i] == b[i];
    }
  }

  /** Whatever order the four queue pairs and the NIC worked in, a cleanly drained pipeline
      leaves local memory as the sequential NVLink loop over the same batches leaves it, the
      buffers of RECV submissions aside. */
  lemma BackendsInterchangeable(cfg: Config, s: System, mrs: map<string, NvMr>, remoteMrs: map<string, NvMr>)
    requires Reachable(cfg, s) && CleanlyDrained(s) && AllApart(cfg, s)
    requires forall i :: 0 <= i < |s.subs| ==> Alike(cfg.regions, mrs, remoteMrs, s.subs[i])
    ensures NvFits(mrs, remoteMrs, s.subs, |cfg.init|, |cfg.remote|)
    ensures MemoryIs(cfg, s, NvRun(cfg.init, cfg.remote, mrs, remoteMrs, s.subs))
  {
    DrainedIsSequential(cfg, s);
    NvRunIsSequential(cfg.init, cfg.remote, cfg.regions, mrs, remoteMrs, s.subs);
  }
}
