/** NVLinkContext::read_batch, the sequential copy loop, and its address arithmetic against
    that of the RDMA path. */
module Nvlink {
  import opened Types
  import opened Chain
  import opened Memory
  import opened Placement

  datatype NvMr = NvMr(addr: nat, offset: nat, length: nat)

  /** operator[] on an unordered_map: an unknown key reads as the zero region. */
  function Lookup(mrs: map<string, NvMr>, key: string): NvMr {
    if key in mrs then mrs[key] else NvMr(0, 0, 0)
  }

  /** The cudaMemcpyAsync call for one assignment, in uint64 arithmetic. */
  function NvTransfer(mrs: map<string, NvMr>, remoteMrs: map<string, NvMr>, a: Assignment): Transfer {
    var source := Lookup(mrs, a.mrKey);
    var target := Lookup(remoteMrs, a.mrKey);
    Transfer(U64(source.addr + U64(source.offset + a.sourceOffset)),
             U64(target.addr + U64(target.offset + a.targetOffset)), a.length)
  }

  function NvTransfers(mrs: map<string, NvMr>, remoteMrs: map<string, NvMr>, batch: seq<Assignment>): (ts: seq<Transfer>)
    ensures |ts| == |batch|
  {
    seq(|batch|, i requires 0 <= i < |batch| => NvTransfer(mrs, remoteMrs, batch[i]))
  }

  /** The RDMA endpoint registers addr + offset; NVLink keeps both and adds at read time. */
  ghost predicate SameRegistration(regions: Regions, mrs: map<string, NvMr>, remoteMrs: map<string, NvMr>, key: string) {
    && key in regions.mrs && key in regions.remoteMrs && key in mrs && key in remoteMrs
    && regions.mrs[key].addr == mrs[key].addr + mrs[key].offset
    && regions.remoteMrs[key].addr == remoteMrs[key].addr + remoteMrs[key].offset
  }

  lemma WrapOnce(x: nat, y: nat, z: nat)
    ensures U64(x + U64(y + z)) == U64(x + y + z)
  {
  }

  /** Both transports compute the same addresses for every assignment, even when the 64-bit
      sums wrap; the lengths agree exactly when they fit the 32-bit field. */
  lemma BackendsAgree(regions: Regions, mrs: map<string, NvMr>, remoteMrs: map<string, NvMr>, a: Assignment)
    requires SameRegistration(regions, mrs, remoteMrs, a.mrKey)
    ensures NvTransfer(mrs, remoteMrs, a).dst == TransferFor(regions, a).dst
    ensures NvTransfer(mrs, remoteMrs, a).src == TransferFor(regions, a).src
    ensures NvTransfer(mrs, remoteMrs, a) == TransferFor(regions, a) <==> a.length < TWO32
  {
    WrapOnce(mrs[a.mrKey].addr, mrs[a.mrKey].offset, a.sourceOffset);
    WrapOnce(remoteMrs[a.mrKey].addr, remoteMrs[a.mrKey].offset, a.targetOffset);
  }

  /** Both maps read the same, though the first may hold more zero regions. */
  ghost predicate SameLookups(mrs: map<string, NvMr>, mrs0: map<string, NvMr>) {
    forall key :: Lookup(mrs, key) == Lookup(mrs0, key)
  }

  lemma SameLookupsOn(a: map<string, NvMr>, b: map<string, NvMr>, c: map<string, NvMr>)
    requires SameLookups(a, b) && SameLookups(b, c)
    ensures SameLookups(a, c)
  {
    forall key
      ensures Lookup(a, key) == Lookup(c, key)
    {
      assert Lookup(a, key) == Lookup(b, key);
    }
  }

  lemma SameTransfer(mrs: map<string, NvMr>, remoteMrs: map<string, NvMr>, mrs0: map<string, NvMr>,
                     remoteMrs0: map<string, NvMr>, batch: seq<Assignment>, i: nat)
    requires SameLookups(mrs, mrs0) && SameLookups(remoteMrs, remoteMrs0) && i < |batch|
    ensures NvTransfer(mrs, remoteMrs, batch[i]) == NvTransfers(mrs0, remoteMrs0, batch)[i]
  {
  }

  lemma NvTransferExact(mrs: map<string, NvMr>, remoteMrs: map<string, NvMr>, a: Assignment)
    ensures var t, mr, remoteMr := NvTransfer(mrs, remoteMrs, a), Lookup(mrs, a.mrKey), Lookup(remoteMrs, a.mrKey);
      && t.dst == (mr.addr + mr.offset + a.sourceOffset) % 0x1_0000_0000_0000_0000
      && t.src == (remoteMr.addr + remoteMr.offset + a.targetOffset) % 0x1_0000_0000_0000_0000
  {
  }

  lemma SameAfterLookup(mrs: map<string, NvMr>, key: string)
    ensures SameLookups(mrs[key := Lookup(mrs, key)], mrs)
  {
  }

  class NVLinkContext {
    var mrs: map<string, NvMr>
    var remoteMrs: map<string, NvMr>

    constructor ()
      ensures mrs == map[] && remoteMrs == map[]
    {
      mrs, remoteMrs := map[], map[];
    }

    method RegisterMemoryRegion(key: string, addr: nat, offset: nat, length: nat)
      modifies this`mrs
      ensures mrs == old(mrs)[key := NvMr(addr, offset, length)]
    {
      mrs := mrs[key := NvMr(addr, offset, length)];
    }

    method RegisterRemoteMemoryRegion(key: string, mapped: nat, offset: nat, length: nat)
      modifies this`remoteMrs
      ensures remoteMrs == old(remoteMrs)[key := NvMr(mapped, offset, length)]
    {
      remoteMrs := remoteMrs[key := NvMr(mapped, offset, length)];
    }

    /** The device copy: memories as arrays, accesses in bounds. */
    method Memcpy(local: array<Byte>, remote: array<Byte>, t: Transfer)
      requires local != remote && Fits(t, local.Length, remote.Length)
      modifies local
      ensures local[..] == Copied(old(local[..]), remote[..], t)
    {
      forall k | 0 <= k < t.len {
        local[t.dst + k] := remote[t.src + k];
      }
      ghost var was := old(local[..]);
      forall a | 0 <= a < local.Length
        ensures local[a] == if Hits(t, a) then remote[t.src + (a - t.dst)] else was[a]
      {
        if Hits(t, a) {
          assert local[t.dst + (a - t.dst)] == remote[t.src + (a - t.dst)];
        }
      }
    }

    /** Looking a key up inserts the zero region for an unknown one, as the source's map does. */
    method ResolveTransfer(a: Assignment) returns (t: Transfer)
      modifies this
      ensures t == old(NvTransfer(mrs, remoteMrs, a)) && t.len == a.length
      ensures SameLookups(mrs, old(mrs)) && SameLookups(remoteMrs, old(remoteMrs))
      ensures mrs == old(mrs)[a.mrKey := if a.mrKey in old(mrs) then old(mrs)[a.mrKey] else NvMr(0, 0, 0)]
      ensures remoteMrs == old(remoteMrs)[a.mrKey := if a.mrKey in old(remoteMrs) then old(remoteMrs)[a.mrKey] else NvMr(0, 0, 0)]
      ensures var mr := mrs[a.mrKey]; t.dst == (mr.addr + mr.offset + a.sourceOffset) % 0x1_0000_0000_0000_0000
      ensures var mr := remoteMrs[a.mrKey]; t.src == (mr.addr + mr.offset + a.targetOffset) % 0x1_0000_0000_0000_0000
    {
      NvTransferExact(mrs, remoteMrs, a);
      SameAfterLookup(mrs, a.mrKey);
      SameAfterLookup(remoteMrs, a.mrKey);
      var source := Lookup(mrs, a.mrKey);
      mrs := mrs[a.mrKey := source];
      var target := Lookup(remoteMrs, a.mrKey);
      remoteMrs := remoteMrs[a.mrKey := target];
      t := Transfer(U64(source.addr + U64(source.offset + a.sourceOffset)),
                    U64(target.addr + U64(target.offset + a.targetOffset)), a.length);
    }

    /** One turn of the loop. */
    method CopyOne(a: Assignment, local: array<Byte>, remote: array<Byte>)
      requires local != remote && Fits(NvTransfer(mrs, remoteMrs, a), local.Length, remote.Length)
      modifies this, local
      ensures local[..] == Copied(old(local[..]), remote[..], old(NvTransfer(mrs, remoteMrs, a)))
      ensures SameLookups(mrs, old(mrs)) && SameLookups(remoteMrs, old(remoteMrs))
    {
      var t := ResolveTransfer(a);
      Memcpy(local, remote, t);
    }

    /** read_batch leaves what its transfers, done one after the other, leave. */
    method ReadBatch(batch: seq<Assignment>, local: array<Byte>, remote: array<Byte>)
      requires local != remote
      requires AllFit(NvTransfers(mrs, remoteMrs, batch), local.Length, remote.Length)
      modifies this, local
      ensures local[..] == RunAll(old(local[..]), remote[..], old(NvTransfers(mrs, remoteMrs, batch)))
      ensures SameLookups(mrs, old(mrs)) && SameLookups(remoteMrs, old(remoteMrs))
    {
      ghost var mrs0, remoteMrs0, ts := mrs, remoteMrs, NvTransfers(mrs, remoteMrs, batch);
      ghost var before, source := local[..], remote[..];
      RunFirstEnds(before, source, ts);
      var i := 0;
      while i < |batch|
        invariant 0 <= i <= |batch|
        invariant SameLookups(mrs, mrs0) && SameLookups(remoteMrs, remoteMrs0)
        invariant remote[..] == source && local[..] == RunFirst(before, source, ts, i)
      {
        SameTransfer(mrs, remoteMrs, mrs0, remoteMrs0, batch, i);
        RunFirstNext(before, source, ts, i);
        ghost var mrs1, remoteMrs1 := mrs, remoteMrs;
        CopyOne(batch[i], local, remote);
        SameLookupsOn(mrs, mrs1, mrs0);
        SameLookupsOn(remoteMrs, remoteMrs1, remoteMrs0);
        i := i + 1;
      }
    }
  }
}
