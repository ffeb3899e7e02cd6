/** Two peers that exchange their endpoint_info through Python and connect. */
module Pairing {
  import opened Types
  import opened Chain
  import opened PyJson
  import opened JsonValues
  import opened JsonHeap
  import opened Endpoint

  ghost predicate InfosFit(infos: seq<RdmaInfo>, mrs: map<string, Mr>) {
    && |infos| == QP_LIST_LEN && (forall q :: 0 <= q < |infos| ==> InfoFits(infos[q]))
    && forall key :: key in mrs ==> MrFits(mrs[key])
  }

  lemma InfoTagged(infos: seq<RdmaInfo>, mrs: map<string, Mr>)
    requires InfosFit(infos, mrs)
    ensures WellTagged(EndpointInfo(infos, mrs))
  {
    forall q | 0 <= q < |infos|
      ensures WellTagged(InfoJson(infos[q]))
    {
      assert WellTagged(GidJson(infos[q].gid));
    }
    forall key | key in mrs
      ensures WellTagged(MrJson(mrs[key]))
    {
    }
    assert WellTagged(MrInfo(mrs));
  }

  lemma Written(infos: seq<RdmaInfo>, mrs: map<string, Mr>)
    ensures var j := Retagged(EndpointInfo(infos, mrs));
      && j.JObject? && "rdma_info" in j.members && "mr_info" in j.members
      && j.members["mr_info"] == Retagged(MrInfo(mrs))
      && j.members["rdma_info"] == JArray(seq(|infos|, q requires 0 <= q < |infos| => Retagged(InfoJson(infos[q]))))
  {
    var list := EndpointInfo(infos, mrs).members["rdma_info"];
    assert Retagged(list).items == seq(|infos|, q requires 0 <= q < |infos| => Retagged(InfoJson(infos[q])));
  }

  lemma MrWritten(mr: Mr)
    ensures MrDescribed(Retagged(MrJson(mr)))
  {
  }

  lemma RegionsWritten(mrs: map<string, Mr>, key: string)
    requires key in mrs
    ensures var doc := Retagged(MrInfo(mrs));
      && doc.JObject? && doc.members.Keys == mrs.Keys && doc.members[key] == Retagged(MrJson(mrs[key]))
      && MrDescribed(doc.members[key])
  {
    var written := map k | k in mrs :: MrJson(mrs[k]);
    assert MrInfo(mrs) == JObject(written);
    MrWritten(mrs[key]);
  }

  /** The peer may call connect on it. */
  lemma InfoDescribed(infos: seq<RdmaInfo>, mrs: map<string, Mr>)
    requires |infos| == QP_LIST_LEN
    ensures Described(Retagged(EndpointInfo(infos, mrs)))
    ensures RegionDocs(Retagged(EndpointInfo(infos, mrs))).Keys == mrs.Keys
  {
    Written(infos, mrs);
    forall key | key in mrs
      ensures MrDescribed(Retagged(MrInfo(mrs)).members[key])
    {
      RegionsWritten(mrs, key);
    }
    if key :| key in mrs {
      RegionsWritten(mrs, key);
    }
  }

  /** Reading a peer's information, as it comes out of the bridge, gives back what the peer
      wrote: every queue pair and every region. */
  lemma InfoArrives(infos: seq<RdmaInfo>, mrs: map<string, Mr>)
    requires InfosFit(infos, mrs)
    ensures var j := Retagged(EndpointInfo(infos, mrs));
      && Described(j) && RegionDocs(j).Keys == mrs.Keys
      && (forall q :: 0 <= q < QP_LIST_LEN ==> ParseInfo(j.members["rdma_info"].items[q]) == Ok(infos[q]))
      && (forall key :: key in mrs ==> ParseMr(RegionDocs(j)[key]) == Ok(RemoteMr(mrs[key].addr, mrs[key].length, mrs[key].rkey)))
  {
    InfoDescribed(infos, mrs);
    Written(infos, mrs);
    var j := Retagged(EndpointInfo(infos, mrs));
    forall q | 0 <= q < QP_LIST_LEN
      ensures ParseInfo(j.members["rdma_info"].items[q]) == Ok(infos[q])
    {
      InfoRoundTrip(infos[q]);
    }
    forall key | key in mrs
      ensures ParseMr(RegionDocs(j)[key]) == Ok(RemoteMr(mrs[key].addr, mrs[key].length, mrs[key].rkey))
    {
      RegionsWritten(mrs, key);
      MrRoundTrip(mrs[key]);
    }
  }

  /** What connect on the peer's information gives one side. */
  ghost predicate ConnectedTo(local: seq<RdmaInfo>, peer: seq<RdmaInfo>, peerMrs: map<string, Mr>, remote: seq<RdmaInfo>,
                              attrs: seq<QpAttr>, before: map<string, RemoteMr>, remoteMrs: map<string, RemoteMr>)
  {
    var j := Retagged(EndpointInfo(peer, peerMrs));
    && Described(j) && |local| == |remote| == |attrs| == QP_LIST_LEN
    && RegionsTaken(before, RegionDocs(j), remoteMrs)
    && forall q :: 0 <= q < QP_LIST_LEN ==> Joined(local[q], j.members["rdma_info"].items[q], remote[q], attrs[q])
  }

  lemma OneSide(local: seq<RdmaInfo>, peer: seq<RdmaInfo>, peerMrs: map<string, Mr>, remote: seq<RdmaInfo>,
                attrs: seq<QpAttr>, before: map<string, RemoteMr>, remoteMrs: map<string, RemoteMr>)
    requires InfosFit(peer, peerMrs) && ConnectedTo(local, peer, peerMrs, remote, attrs, before, remoteMrs)
    ensures forall q :: 0 <= q < QP_LIST_LEN ==>
      && attrs[q].state == RTS && attrs[q].destQpNum == peer[q].qpn && attrs[q].rqPsn == peer[q].psn
      && attrs[q].sqPsn == U32(local[q].psn) && attrs[q].pathMtu == Min(U32(peer[q].mtu), U32(local[q].mtu))
      && (local[q].gidx != -1 ==>
            && attrs[q].isGlobal && attrs[q].dgid == peer[q].gid && attrs[q].sgidIndex == local[q].gidx % 256
            && attrs[q].dlid == 0)
      && (local[q].gidx == -1 ==> !attrs[q].isGlobal && attrs[q].dlid == local[q].lid)
    ensures forall key :: key in peerMrs ==>
      key in remoteMrs && remoteMrs[key] == RemoteMr(peerMrs[key].addr, peerMrs[key].length, peerMrs[key].rkey)
    ensures forall key :: key !in peerMrs ==>
      (key in remoteMrs <==> key in before) && (key in before ==> remoteMrs[key] == before[key])
  {
    InfoArrives(peer, peerMrs);
    var j := Retagged(EndpointInfo(peer, peerMrs));
    forall q | 0 <= q < QP_LIST_LEN
      ensures remote[q] == peer[q] && U32(peer[q].psn) == peer[q].psn
    {
      assert Joined(local[q], j.members["rdma_info"].items[q], remote[q], attrs[q]);
    }
  }

  /** After both sides' connect has returned 0, QP q of one side and QP q of the other send to
      each other: numbers cross, each expects the packet numbers the other starts with, the
      path MTUs are equal, and each knows the other's regions as they were registered.  On
      InfiniBand the address is right only if both ports have the same lid. */
  lemma PeersPaired(a: seq<RdmaInfo>, aMrs: map<string, Mr>, aRemote: seq<RdmaInfo>, aAttrs: seq<QpAttr>,
                    aBefore: map<string, RemoteMr>, aRemoteMrs: map<string, RemoteMr>,
                    b: seq<RdmaInfo>, bMrs: map<string, Mr>, bRemote: seq<RdmaInfo>, bAttrs: seq<QpAttr>,
                    bBefore: map<string, RemoteMr>, bRemoteMrs: map<string, RemoteMr>, q: nat)
    requires InfosFit(a, aMrs) && InfosFit(b, bMrs) && q < QP_LIST_LEN
    requires ConnectedTo(a, b, bMrs, aRemote, aAttrs, aBefore, aRemoteMrs)
    requires ConnectedTo(b, a, aMrs, bRemote, bAttrs, bBefore, bRemoteMrs)
    ensures aAttrs[q].state == bAttrs[q].state == RTS
    ensures aAttrs[q].destQpNum == b[q].qpn && bAttrs[q].destQpNum == a[q].qpn
    ensures aAttrs[q].rqPsn == bAttrs[q].sqPsn && bAttrs[q].rqPsn == aAttrs[q].sqPsn
    ensures aAttrs[q].pathMtu == bAttrs[q].pathMtu
    ensures a[q].gidx != -1 && b[q].gidx != -1 ==>
      && aAttrs[q].dgid == b[q].gid && bAttrs[q].dgid == a[q].gid
      && aAttrs[q].sgidIndex == a[q].gidx % 256 && bAttrs[q].sgidIndex == b[q].gidx % 256
      && aAttrs[q].dlid == bAttrs[q].dlid == 0
    ensures aAttrs[q].maxRdAtomic <= bAttrs[q].maxDestRdAtomic && bAttrs[q].maxRdAtomic <= aAttrs[q].maxDestRdAtomic
    ensures a[q].gidx == -1 ==> (aAttrs[q].dlid == b[q].lid <==> a[q].lid == b[q].lid)
  {
    OneSide(a, b, bMrs, aRemote, aAttrs, aBefore, aRemoteMrs);
    OneSide(b, a, aMrs, bRemote, bAttrs, bBefore, bRemoteMrs);
  }

  /** A read posted after the exchange goes to the place in the peer's registered region that
      the assignment names, with the peer's key. */
  lemma ReadsPeerRegion(local: seq<RdmaInfo>, mrs: map<string, Mr>, peer: seq<RdmaInfo>, peerMrs: map<string, Mr>,
                        remote: seq<RdmaInfo>, attrs: seq<QpAttr>, before: map<string, RemoteMr>,
                        remoteMrs: map<string, RemoteMr>, chunk: Chunk, qpi: nat, i: nat)
    requires InfosFit(peer, peerMrs) && ConnectedTo(local, peer, peerMrs, remote, attrs, before, remoteMrs)
    requires i < |chunk.batch| && chunk.batch[i].mrKey in peerMrs
    ensures var wr, mr := ReadWr(Regions(mrs, remoteMrs), qpi, chunk, i), peerMrs[chunk.batch[i].mrKey];
      wr.raddr == U64(mr.addr + chunk.batch[i].targetOffset) && wr.rkey == mr.rkey
  {
    var key := chunk.batch[i].mrKey;
    assert remoteMrs[key] == RemoteMr(peerMrs[key].addr, peerMrs[key].length, peerMrs[key].rkey) by {
      OneSide(local, peer, peerMrs, remote, attrs, before, remoteMrs);
    }
    ReadTarget(Regions(mrs, remoteMrs), chunk, qpi, i);
  }

  lemma ReadTarget(regions: Regions, chunk: Chunk, qpi: nat, i: nat)
    requires i < |chunk.batch| && chunk.batch[i].mrKey in regions.remoteMrs
    ensures var wr, mr := ReadWr(regions, qpi, chunk, i), regions.remoteMrs[chunk.batch[i].mrKey];
      wr.raddr == U64(mr.addr + chunk.batch[i].targetOffset) && wr.rkey == mr.rkey
  {
  }

  /** A document goes to Python and comes back. */
  method ThroughPython(python: PyHeap, j: Json) returns (k: Json)
    requires python.Valid() && WellTagged(j)
    modifies python
    ensures python.Valid() && k == Retagged(j)
  {
    ghost var base := python.next;
    var r := python.FromJson(j, base);
    BuiltConverts(python.objs, base, r, j);
    var converted := ToJson(python.objs, r);
    k := converted.value;
  }

  /** RDMAEndpoint.connect on the peer's endpoint_info. */
  method ConnectPeer(python: PyHeap, self: Connection, peer: Connection, codes: seq<Codes>) returns (res: Outcome)
    requires self.Valid() && peer.Valid() && self != peer && python.Valid() && |codes| == QP_LIST_LEN
    requires InfosFit(peer.local, peer.mrs)
    modifies python, self
    ensures self.Valid() && python.Valid() && self.mrs == old(self.mrs)
    ensures res == Returned(0) <==>
      !old(self.connected) && forall q :: 0 <= q < QP_LIST_LEN ==> codes[q] == Codes(0, 0, 0)
    ensures res == Returned(0) ==>
      ConnectedTo(self.local, peer.local, peer.mrs, self.remote, self.attrs, old(self.remoteMrs), self.remoteMrs)
  {
    InfoTagged(peer.local, peer.mrs);
    var info := ThroughPython(python, EndpointInfo(peer.local, peer.mrs));
    InfoArrives(peer.local, peer.mrs);
    res := self.Connect(info, codes);
  }

  // ----- RDMAScheduler -----

  /** scheduler_info: one entry for each context, null for none. */
  function SchedulerInfo(infos: seq<Json>): Json {
    if infos == [] then JNull else JArray(infos)
  }

  function Entries(info: Json): seq<Json> {
    if info.JArray? then info.items else []
  }

  /** Through the bridge, entry i is still what context i wrote, and there are as many entries
      as contexts, none included. */
  lemma SchedulerInfoArrives(infos: seq<Json>)
    ensures var j := Retagged(SchedulerInfo(infos));
      && (j.JArray? || j.JNull?) && |Entries(j)| == |infos|
      && forall i :: 0 <= i < |infos| ==> Entries(j)[i] == Retagged(infos[i])
  {
  }

  /** One context's share of a scheduler: its queue pairs and regions, and what connect gave it. */
  datatype Side = Side(local: seq<RdmaInfo>, mrs: map<string, Mr>, remote: seq<RdmaInfo>, attrs: seq<QpAttr>,
                       before: map<string, RemoteMr>, remoteMrs: map<string, RemoteMr>)

  /** scheduler_info of a whole scheduler. */
  function InfoOf(sides: seq<Side>): Json {
    SchedulerInfo(seq(|sides|, i requires 0 <= i < |sides| => EndpointInfo(sides[i].local, sides[i].mrs)))
  }

  ghost predicate SidesFit(sides: seq<Side>) {
    forall i :: 0 <= i < |sides| ==> InfosFit(sides[i].local, sides[i].mrs)
  }

  /** Context i has connected to entry i of the information it was given. */
  ghost predicate SchedulerConnected(sides: seq<Side>, info: Json) {
    && |Entries(info)| == |sides|
    && forall i :: 0 <= i < |sides| ==> ConnectedBy(sides[i], Entries(info)[i])
  }

  ghost predicate ConnectedBy(side: Side, info: Json) {
    && Described(info) && |side.local| == |side.remote| == |side.attrs| == QP_LIST_LEN
    && RegionsTaken(side.before, RegionDocs(info), side.remoteMrs)
    && forall q :: 0 <= q < QP_LIST_LEN ==>
         Joined(side.local[q], info.members["rdma_info"].items[q], side.remote[q], side.attrs[q])
  }

  /** Queue pair q of context a and queue pair q of context b send to each other, and each
      context knows the other's regions as they were registered. */
  ghost predicate Paired(a: Side, b: Side, q: nat)
    requires q < |a.local| == |a.attrs| == |b.local| == |b.attrs|
  {
    && a.attrs[q].state == b.attrs[q].state == RTS
    && a.attrs[q].destQpNum == b.local[q].qpn && b.attrs[q].destQpNum == a.local[q].qpn
    && a.attrs[q].rqPsn == b.attrs[q].sqPsn && b.attrs[q].rqPsn == a.attrs[q].sqPsn
    && a.attrs[q].pathMtu == b.attrs[q].pathMtu
    && (a.local[q].gidx != -1 && b.local[q].gidx != -1 ==>
          && a.attrs[q].dgid == b.local[q].gid && b.attrs[q].dgid == a.local[q].gid
          && a.attrs[q].sgidIndex == a.local[q].gidx % 256 && b.attrs[q].sgidIndex == b.local[q].gidx % 256
          && a.attrs[q].dlid == b.attrs[q].dlid == 0)
    && a.attrs[q].maxRdAtomic <= b.attrs[q].maxDestRdAtomic && b.attrs[q].maxRdAtomic <= a.attrs[q].maxDestRdAtomic
    && (a.local[q].gidx == -1 ==> (a.attrs[q].dlid == b.local[q].lid <==> a.local[q].lid == b.local[q].lid))
    && Knows(a, b) && Knows(b, a)
  }

  ghost predicate Knows(a: Side, b: Side) {
    forall key :: key in b.mrs ==>
      key in a.remoteMrs && a.remoteMrs[key] == RemoteMr(b.mrs[key].addr, b.mrs[key].length, b.mrs[key].rkey)
  }

  lemma SidePaired(a: Side, b: Side, q: nat)
    requires InfosFit(a.local, a.mrs) && InfosFit(b.local, b.mrs) && q < QP_LIST_LEN
    requires ConnectedBy(a, Retagged(EndpointInfo(b.local, b.mrs)))
    requires ConnectedBy(b, Retagged(EndpointInfo(a.local, a.mrs)))
    ensures Paired(a, b, q)
  {
    PeersPaired(a.local, a.mrs, a.remote, a.attrs, a.before, a.remoteMrs,
                b.local, b.mrs, b.remote, b.attrs, b.before, b.remoteMrs, q);
    OneSide(a.local, b.local, b.mrs, a.remote, a.attrs, a.before, a.remoteMrs);
    OneSide(b.local, a.local, a.mrs, b.remote, b.attrs, b.before, b.remoteMrs);
  }

  /** Two schedulers that have connected to each other's scheduler_info, each through the bridge:
      queue pair q of context i is paired with queue pair q of the peer's context i, for every
      i and q. */
  lemma SchedulersPaired(a: seq<Side>, b: seq<Side>, i: nat, q: nat)
    requires SidesFit(a) && SidesFit(b) && q < QP_LIST_LEN
    requires SchedulerConnected(a, Retagged(InfoOf(b))) && SchedulerConnected(b, Retagged(InfoOf(a)))
    ensures |a| == |b|
    ensures i < |a| ==> |a[i].local| == |a[i].attrs| == |b[i].local| == |b[i].attrs| == QP_LIST_LEN && Paired(a[i], b[i], q)
  {
    SchedulerInfoArrives(seq(|a|, j requires 0 <= j < |a| => EndpointInfo(a[j].local, a[j].mrs)));
    SchedulerInfoArrives(seq(|b|, j requires 0 <= j < |b| => EndpointInfo(b[j].local, b[j].mrs)));
    if i < |a| {
      assert ConnectedBy(a[i], Entries(Retagged(InfoOf(b)))[i]);
      assert ConnectedBy(b[i], Entries(Retagged(InfoOf(a)))[i]);
      SidePaired(a[i], b[i], q);
    }
  }

  /** connect returned 0 on context c with this information. */
  ghost predicate Up(c: Connection, info: Json, before: map<string, RemoteMr>)
    reads c
  {
    c.Valid() && c.connected && ConnectedBy(SideOf(c, before), info)
  }

  ghost function SideOf(c: Connection, before: map<string, RemoteMr>): Side
    reads c
  {
    Side(c.local, c.mrs, c.remote, c.attrs, before, c.remoteMrs)
  }

  /** Every verb of one context succeeds. */
  predicate AllZero(codes: seq<Codes>) {
    forall q :: 0 <= q < |codes| ==> codes[q] == Codes(0, 0, 0)
  }

  /** Context c, not connected before, has been through connect on this information. */
  ghost predicate Tried(c: Connection, info: Json, codes: seq<Codes>, before: map<string, RemoteMr>, out: Outcome)
    requires Described(info) && |codes| == QP_LIST_LEN
    reads c
  {
    && out.Returned? && (out == Returned(0) ==> Up(c, info, before))
    && (Readable(info) ==>
          && (AllZero(codes) ==> out == Returned(0)) && (c.connected <==> codes[0].rtr == 0 && codes[0].rts == 0)
          && RegionsTaken(before, RegionDocs(info), c.remoteMrs) && JoinedUpToFailure(c, info, codes))
  }

  /** A queue pair is joined when no verb has failed up to and at it. */
  ghost predicate JoinedUpToFailure(c: Connection, info: Json, codes: seq<Codes>)
    requires Described(info) && |codes| == QP_LIST_LEN
    reads c
  {
    && |c.local| == |c.remote| == |c.attrs| == QP_LIST_LEN
    && forall q :: 0 <= q < QP_LIST_LEN && (forall p :: 0 <= p <= q ==> codes[p] == Codes(0, 0, 0)) ==>
         Joined(c.local[q], info.members["rdma_info"].items[q], c.remote[q], c.attrs[q])
  }

  /** One turn of the loop over the contexts. */
  method ConnectOne(c: Connection, info: Json, codes: seq<Codes>) returns (out: Outcome)
    requires c.Valid() && Described(info) && |codes| == QP_LIST_LEN
    modifies c
    ensures c.Valid() && c.mrs == old(c.mrs)
    ensures out.Returned? ==> !old(c.connected) && Tried(c, info, codes, old(c.remoteMrs), out)
    ensures Readable(info) ==> (out.Returned? <==> !old(c.connected))
    ensures out == Aborted ==> old(c.connected)
  {
    out := c.Connect(info, codes);
  }

  /** RDMAScheduler::connect: context i connects to entry i, in order.  The contexts' own
      return codes are dropped: on readable information it returns 0 whatever the verbs said,
      and only the contexts whose connect returned 0 are up. */
  method ConnectAll(ctxs: seq<Connection>, info: Json, codes: seq<seq<Codes>>)
    returns (res: Outcome, ghost outcomes: seq<Outcome>)
    requires forall i, j :: 0 <= i < j < |ctxs| ==> ctxs[i] != ctxs[j]
    requires forall i :: 0 <= i < |ctxs| ==> ctxs[i].Valid()
    requires info.JArray? || info.JNull?
    requires forall i :: 0 <= i < |Entries(info)| ==> Described(Entries(info)[i])
    requires |codes| == |ctxs| && forall i :: 0 <= i < |codes| ==> |codes[i]| == QP_LIST_LEN
    modifies ctxs
    ensures forall i :: 0 <= i < |ctxs| ==> ctxs[i].Valid()
    ensures |Entries(info)| != |ctxs| ==> res == Aborted
    ensures res == Returned(0) ==> |outcomes| == |ctxs| == |Entries(info)|
    ensures res == Returned(0) ==> forall i :: 0 <= i < |ctxs| && outcomes[i] == Returned(0) ==>
      Up(ctxs[i], Entries(info)[i], old(ctxs[i].remoteMrs))
    ensures forall i :: 0 <= i < |ctxs| ==> ctxs[i].mrs == old(ctxs[i].mrs)
    ensures |Entries(info)| == |ctxs| && (forall i :: 0 <= i < |ctxs| ==> Readable(Entries(info)[i])) ==>
      (res == Returned(0) <==> forall i :: 0 <= i < |ctxs| ==> !old(ctxs[i].connected))
    ensures res == Returned(0) ==> forall i :: 0 <= i < |ctxs| ==>
      && (Readable(Entries(info)[i]) && AllZero(codes[i]) ==> Up(ctxs[i], Entries(info)[i], old(ctxs[i].remoteMrs)))
      && (Readable(Entries(info)[i]) ==>
            && (ctxs[i].connected <==> codes[i][0].rtr == 0 && codes[i][0].rts == 0)
            && JoinedUpToFailure(ctxs[i], Entries(info)[i], codes[i])
            && RegionsTaken(old(ctxs[i].remoteMrs), RegionDocs(Entries(info)[i]), ctxs[i].remoteMrs))
    ensures |Entries(info)| == |ctxs| && res != Returned(0) ==>
      && 1 <= |outcomes| <= |ctxs| && (res == Aborted ==> old(ctxs[|outcomes| - 1].connected))
      && (forall i :: 0 <= i < |outcomes| - 1 ==> !old(ctxs[i].connected))
      && (forall i :: |outcomes| <= i < |ctxs| ==> unchanged(ctxs[i]))
  {
    outcomes := [];
    var items := Entries(info);
    if |ctxs| != |items| {
      return Aborted, outcomes;
    }
    var i := 0;
    while i < |ctxs|
      invariant 0 <= i <= |ctxs| && |outcomes| == i
      invariant forall j :: 0 <= j < |ctxs| ==> ctxs[j].Valid()
      invariant forall j :: i <= j < |ctxs| ==> unchanged(ctxs[j])
      invariant forall j :: 0 <= j < i ==> !old(ctxs[j].connected) && ctxs[j].mrs == old(ctxs[j].mrs)
      invariant forall j :: 0 <= j < i ==> Tried(ctxs[j], items[j], codes[j], old(ctxs[j].remoteMrs), outcomes[j])
    {
      var one := ConnectOne(ctxs[i], items[i], codes[i]);
      outcomes := outcomes + [one];
      if !one.Returned? {
        return one, outcomes;
      }
      i := i + 1;
    }
    return Returned(0), outcomes;
  }

  lemma InfosTagged(sides: seq<Side>)
    requires SidesFit(sides)
    ensures WellTagged(InfoOf(sides))
    ensures |Entries(Retagged(InfoOf(sides)))| == |sides|
    ensures forall i :: 0 <= i < |sides| ==>
      Entries(Retagged(InfoOf(sides)))[i] == Retagged(EndpointInfo(sides[i].local, sides[i].mrs))
      && Described(Entries(Retagged(InfoOf(sides)))[i]) && Readable(Entries(Retagged(InfoOf(sides)))[i])
  {
    SchedulerInfoArrives(seq(|sides|, i requires 0 <= i < |sides| => EndpointInfo(sides[i].local, sides[i].mrs)));
    forall i | 0 <= i < |sides|
      ensures WellTagged(EndpointInfo(sides[i].local, sides[i].mrs))
      ensures Described(Retagged(EndpointInfo(sides[i].local, sides[i].mrs)))
      ensures Readable(Retagged(EndpointInfo(sides[i].local, sides[i].mrs)))
    {
      InfoTagged(sides[i].local, sides[i].mrs);
      InfoArrives(sides[i].local, sides[i].mrs);
    }
  }

  /** scheduler_info: one endpoint_info after the other. */
  method CollectInfo(peers: seq<Connection>, ghost peerSides: seq<Side>) returns (info: Json)
    requires |peerSides| == |peers|
    requires forall i :: 0 <= i < |peers| ==> peerSides[i].local == peers[i].local && peerSides[i].mrs == peers[i].mrs
    ensures info == InfoOf(peerSides)
  {
    var infos: seq<Json> := [];
    var i := 0;
    while i < |peers|
      invariant 0 <= i <= |peers| && |infos| == i
      invariant forall j :: 0 <= j < i ==> infos[j] == EndpointInfo(peerSides[j].local, peerSides[j].mrs)
    {
      infos := infos + [EndpointInfo(peers[i].local, peers[i].mrs)];
      i := i + 1;
    }
    assert infos == seq(|peers|, j requires 0 <= j < |peers| => EndpointInfo(peerSides[j].local, peerSides[j].mrs));
    info := SchedulerInfo(infos);
  }

  /** RDMAScheduler.connect on the peer scheduler's scheduler_info, through Python.  `sides` is
      what each context has afterwards. */
  method ConnectScheduler(python: PyHeap, ctxs: seq<Connection>, peers: seq<Connection>, ghost peerSides: seq<Side>,
                          codes: seq<seq<Codes>>)
    returns (res: Outcome, ghost outcomes: seq<Outcome>, ghost sides: seq<Side>)
    requires python.Valid() && (forall i, j :: 0 <= i < j < |ctxs| ==> ctxs[i] != ctxs[j])
    requires forall i :: 0 <= i < |ctxs| ==> ctxs[i].Valid()
    requires |peerSides| == |peers| && SidesFit(peerSides)
    requires forall i :: 0 <= i < |peers| ==> peerSides[i].local == peers[i].local && peerSides[i].mrs == peers[i].mrs
    requires |codes| == |ctxs| && forall i :: 0 <= i < |codes| ==> |codes[i]| == QP_LIST_LEN
    modifies python, ctxs
    ensures python.Valid() && forall i :: 0 <= i < |ctxs| ==> ctxs[i].Valid()
    ensures |ctxs| != |peers| ==> res == Aborted
    ensures |ctxs| == |peers| ==> (res == Returned(0) <==> forall i :: 0 <= i < |ctxs| ==> !old(ctxs[i].connected))
    ensures |sides| == |ctxs| && forall i :: 0 <= i < |ctxs| ==> sides[i] == SideOf(ctxs[i], old(ctxs[i].remoteMrs))
    ensures res == Returned(0) ==> |outcomes| == |ctxs| == |peers|
    ensures res == Returned(0) ==> forall i :: 0 <= i < |ctxs| ==>
      && (AllZero(codes[i]) ==> ConnectedBy(sides[i], Entries(Retagged(InfoOf(peerSides)))[i]))
      && (ctxs[i].connected <==> codes[i][0].rtr == 0 && codes[i][0].rts == 0)
    ensures |ctxs| == |peers| && (forall i :: 0 <= i < |ctxs| ==> !old(ctxs[i].connected) && AllZero(codes[i])) ==>
      SchedulerConnected(sides, Retagged(InfoOf(peerSides)))
  {
    ghost var befores := seq(|ctxs|, i requires 0 <= i < |ctxs| reads ctxs => ctxs[i].remoteMrs);
    InfosTagged(peerSides);
    var info := CollectInfo(peers, peerSides);
    info := ThroughPython(python, info);
    res, outcomes := ConnectAll(ctxs, info, codes);
    sides := seq(|ctxs|, i requires 0 <= i < |ctxs| reads ctxs => SideOf(ctxs[i], befores[i]));
  }
}
