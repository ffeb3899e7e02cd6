/** The endpoint exchange: rdma_info and mr_info to and from JSON, endpoint_info, and connect,
    with the verbs' return codes as parameters. */
module Endpoint {
  import opened Types
  import opened Chain
  import opened PyJson
  import opened JsonValues

  datatype Gid = Gid(subnetPrefix: nat, interfaceId: nat)

  datatype RdmaInfo = RdmaInfo(qpn: nat, gid: Gid, gidx: int, lid: nat, psn: nat, mtu: nat)

  /** The C++ field widths; a PSN is 24 bits because init masks it. */
  predicate InfoFits(info: RdmaInfo) {
    && info.qpn < TWO32 && info.gid.subnetPrefix < TWO64 && info.gid.interfaceId < TWO64
    && INT64_MIN <= info.gidx <= INT64_MAX && info.lid < 0x1_0000 && info.psn < 0x100_0000 && info.mtu < TWO64
  }

  predicate MrFits(mr: Mr) {
    mr.addr < TWO64 && mr.length < TWO64 && mr.rkey < TWO32
  }

  // ----- To JSON -----

  function GidJson(gid: Gid): Json {
    JObject(map["subnet_prefix" := JUint(gid.subnetPrefix), "interface_id" := JUint(gid.interfaceId)])
  }

  function InfoJson(info: RdmaInfo): Json {
    JObject(map["gid" := GidJson(info.gid), "gidx" := JInt(info.gidx), "lid" := JUint(info.lid),
                "qpn" := JUint(info.qpn), "psn" := JUint(info.psn), "mtu" := JUint(info.mtu)])
  }

  function MrJson(mr: Mr): Json {
    JObject(map["addr" := JUint(mr.addr), "rkey" := JUint(mr.rkey), "length" := JUint(mr.length)])
  }

  /** mr_info starts from a default json, which stays null when no region is registered. */
  function MrInfo(mrs: map<string, Mr>): Json {
    if mrs == map[] then JNull else JObject(map key | key in mrs :: MrJson(mrs[key]))
  }

  function EndpointInfo(infos: seq<RdmaInfo>, mrs: map<string, Mr>): Json {
    JObject(map["rdma_info" := JArray(seq(|infos|, q requires 0 <= q < |infos| => InfoJson(infos[q]))),
                "mr_info" := MrInfo(mrs)])
  }

  // ----- From JSON -----

  /** json["key"] on a document that is copied: an absent key reads as null, and anything but
      an object or null throws. */
  function Member(j: Json, key: string): Result<Json> {
    if j.JNull? then Ok(JNull)
    else if j.JObject? then Ok(if key in j.members then j.members[key] else JNull)
    else Err(Unsupported)
  }

  /** The conversion to an integer type that holds `size` values from `low` on. */
  function Number(j: Json, low: int, size: nat): Result<int>
    requires size > 0
  {
    match j
    case JInt(i) => Ok((i - low) % size + low)
    case JUint(u) => Ok((u - low) % size + low)
    case _ => Err(Unsupported)
  }

  function Field(j: Json, key: string, low: int, size: nat): Result<int>
    requires size > 0
  {
    var member := Member(j, key);
    if member.Err? then Err(member.error) else Number(member.value, low, size)
  }

  /** Numbers of a document lie in the ranges of the C++ types they are read into. */
  lemma NumberExact(j: Json, low: int, size: nat, x: int)
    requires size > 0 && low <= x < low + size && (j == JInt(x) || (x >= 0 && j == JUint(x)))
    ensures Number(j, low, size) == Ok(x)
  {
    SmallModulus(x - low, size);
  }

  /** A number outside them wraps around. */
  lemma NumberWraps(j: Json, low: int, size: nat, i: int)
    requires size > 0 && (j == JInt(i) || (i >= 0 && j == JUint(i)))
    ensures var n := Number(j, low, size);
      n.Ok? && low <= n.value < low + size && exists turns: int :: i == n.value + turns * size
  {
    var n, turns := Number(j, low, size).value, (i - low) / size;
    assert i == n + turns * size;
  }

  lemma SmallModulus(x: int, size: nat)
    requires 0 <= x < size
    ensures x % size == x
  {
  }

  function ParseGid(j: Json): Result<Gid> {
    var subnetPrefix := Field(j, "subnet_prefix", 0, TWO64);
    if subnetPrefix.Err? then Err(subnetPrefix.error) else
    var interfaceId := Field(j, "interface_id", 0, TWO64);
    if interfaceId.Err? then Err(interfaceId.error) else
    Ok(Gid(subnetPrefix.value, interfaceId.value))
  }

  /** rdma_info(json): the fields in the order they are assigned. */
  function ParseInfo(j: Json): Result<RdmaInfo> {
    var member := Member(j, "gid");
    if member.Err? then Err(member.error) else
    var gid := ParseGid(member.value);
    if gid.Err? then Err(gid.error) else
    var gidx := Field(j, "gidx", INT64_MIN, TWO64);
    if gidx.Err? then Err(gidx.error) else
    var lid := Field(j, "lid", 0, 0x1_0000);
    if lid.Err? then Err(lid.error) else
    var qpn := Field(j, "qpn", 0, TWO32);
    if qpn.Err? then Err(qpn.error) else
    var psn := Field(j, "psn", 0, TWO64);
    if psn.Err? then Err(psn.error) else
    var mtu := Field(j, "mtu", 0, TWO64);
    if mtu.Err? then Err(mtu.error) else
    Ok(RdmaInfo(qpn.value, gid.value, gidx.value, lid.value, psn.value, mtu.value))
  }

  /** register_remote_memory_region's reading of one region. */
  function ParseMr(j: Json): Result<RemoteMr> {
    var addr := Field(j, "addr", 0, TWO64);
    if addr.Err? then Err(addr.error) else
    var length := Field(j, "length", 0, TWO64);
    if length.Err? then Err(length.error) else
    var rkey := Field(j, "rkey", 0, TWO32);
    if rkey.Err? then Err(rkey.error) else
    Ok(RemoteMr(addr.value, length.value, rkey.value))
  }

  /** Each field is read from the member of its name, which must be there. */
  lemma InfoByName(j: Json, info: RdmaInfo)
    requires ParseInfo(j) == Ok(info)
    ensures j.JObject? && {"gid", "gidx", "lid", "qpn", "psn", "mtu"} <= j.members.Keys
    ensures Number(j.members["gidx"], INT64_MIN, TWO64) == Ok(info.gidx) && Number(j.members["lid"], 0, 0x1_0000) == Ok(info.lid)
    ensures Number(j.members["qpn"], 0, TWO32) == Ok(info.qpn) && Number(j.members["psn"], 0, TWO64) == Ok(info.psn)
    ensures Number(j.members["mtu"], 0, TWO64) == Ok(info.mtu)
    ensures var gid := j.members["gid"];
      && gid.JObject? && {"subnet_prefix", "interface_id"} <= gid.members.Keys
      && Number(gid.members["subnet_prefix"], 0, TWO64) == Ok(info.gid.subnetPrefix)
      && Number(gid.members["interface_id"], 0, TWO64) == Ok(info.gid.interfaceId)
  {
  }

  lemma MrByName(j: Json, mr: RemoteMr)
    requires ParseMr(j) == Ok(mr)
    ensures j.JObject? && {"addr", "length", "rkey"} <= j.members.Keys
    ensures Number(j.members["addr"], 0, TWO64) == Ok(mr.addr) && Number(j.members["length"], 0, TWO64) == Ok(mr.length)
    ensures Number(j.members["rkey"], 0, TWO32) == Ok(mr.rkey)
  {
  }

  // ----- Through the bridge and back -----

  lemma FieldBridged(m: map<string, Json>, key: string, low: int, size: nat, x: int)
    requires size > 0 && low <= x < low + size && key in m && (m[key] == JInt(x) || (x >= 0 && m[key] == JUint(x)))
    ensures Field(Retagged(JObject(m)), key, low, size) == Ok(x)
  {
    NumberExact(Retagged(m[key]), low, size, x);
  }

  lemma GidRoundTrip(gid: Gid)
    requires gid.subnetPrefix < TWO64 && gid.interfaceId < TWO64
    ensures ParseGid(Retagged(GidJson(gid))) == Ok(gid)
  {
    var m := GidJson(gid).members;
    FieldBridged(m, "subnet_prefix", 0, TWO64, gid.subnetPrefix);
    FieldBridged(m, "interface_id", 0, TWO64, gid.interfaceId);
  }

  lemma AddressFields(info: RdmaInfo)
    requires InfoFits(info)
    ensures var j := Retagged(InfoJson(info));
      && Member(j, "gid") == Ok(Retagged(GidJson(info.gid)))
      && Field(j, "gidx", INT64_MIN, TWO64) == Ok(info.gidx) && Field(j, "lid", 0, 0x1_0000) == Ok(info.lid)
  {
    FieldBridged(InfoJson(info).members, "gidx", INT64_MIN, TWO64, info.gidx);
    FieldBridged(InfoJson(info).members, "lid", 0, 0x1_0000, info.lid);
  }

  lemma QueuePairFields(info: RdmaInfo)
    requires InfoFits(info)
    ensures var j := Retagged(InfoJson(info));
      && Field(j, "qpn", 0, TWO32) == Ok(info.qpn) && Field(j, "psn", 0, TWO64) == Ok(info.psn)
      && Field(j, "mtu", 0, TWO64) == Ok(info.mtu)
  {
    FieldBridged(InfoJson(info).members, "qpn", 0, TWO32, info.qpn);
    FieldBridged(InfoJson(info).members, "psn", 0, TWO64, info.psn);
    FieldBridged(InfoJson(info).members, "mtu", 0, TWO64, info.mtu);
  }

  /** What one peer writes the other reads, even after its integer tags have changed. */
  lemma InfoRoundTrip(info: RdmaInfo)
    requires InfoFits(info)
    ensures ParseInfo(Retagged(InfoJson(info))) == Ok(info)
  {
    GidRoundTrip(info.gid);
    AddressFields(info);
    QueuePairFields(info);
  }

  lemma MrRoundTrip(mr: Mr)
    requires MrFits(mr)
    ensures ParseMr(Retagged(MrJson(mr))) == Ok(RemoteMr(mr.addr, mr.length, mr.rkey))
  {
    var m := MrJson(mr).members;
    FieldBridged(m, "addr", 0, TWO64, mr.addr);
    FieldBridged(m, "length", 0, TWO64, mr.length);
    FieldBridged(m, "rkey", 0, TWO32, mr.rkey);
  }

  // ----- connect -----

  datatype QpState = INIT | RTR | RTS

  datatype QpAttr = QpAttr(state: QpState, pathMtu: nat, destQpNum: nat, rqPsn: nat, sqPsn: nat,
                           isGlobal: bool, dgid: Gid, sgidIndex: nat, dlid: nat, maxDestRdAtomic: nat, maxRdAtomic: nat)

  /** Return codes of the two ibv_modify_qp calls and of ibv_req_notify_cq. */
  datatype Codes = Codes(rtr: int, rts: int, notify: int)

  datatype Outcome = Returned(code: int) | Threw | Aborted

  /** The move to ready-to-receive.  On InfiniBand dlid is the local lid, as in the source. */
  function ToRtr(local: RdmaInfo, remote: RdmaInfo, attr: QpAttr): QpAttr {
    var base := attr.(state := RTR, pathMtu := Min(U32(remote.mtu), U32(local.mtu)), destQpNum := remote.qpn,
                      rqPsn := U32(remote.psn), maxDestRdAtomic := 16);
    if local.gidx == -1 then base.(isGlobal := false, dgid := Gid(0, 0), sgidIndex := 0, dlid := local.lid)
    else base.(isGlobal := true, dgid := remote.gid, sgidIndex := local.gidx % 256, dlid := 0)
  }

  function ToRts(local: RdmaInfo, attr: QpAttr): QpAttr {
    attr.(state := RTS, sqPsn := U32(local.psn), maxRdAtomic := 16)
  }

  /** The documents connect can read without leaving the JSON library's contract. */
  predicate Described(info: Json) {
    && info.JObject? && "mr_info" in info.members && "rdma_info" in info.members
    && info.members["rdma_info"].JArray? && |info.members["rdma_info"].items| >= QP_LIST_LEN
    && (info.members["mr_info"].JNull?
        || (info.members["mr_info"].JObject?
            && forall key :: key in info.members["mr_info"].members ==> MrDescribed(info.members["mr_info"].members[key])))
  }

  predicate MrDescribed(j: Json) {
    j.JObject? && "addr" in j.members && "length" in j.members && "rkey" in j.members
  }

  function RegionDocs(info: Json): map<string, Json>
    requires Described(info)
  {
    if info.members["mr_info"].JNull? then map[] else info.members["mr_info"].members
  }

  /** Every region parses. */
  predicate RegionsParse(info: Json)
    requires Described(info)
  {
    forall key :: key in RegionDocs(info) ==> ParseMr(RegionDocs(info)[key]).Ok?
  }

  /** Every region and every queue pair's information parses. */
  predicate Readable(info: Json)
    requires Described(info)
  {
    RegionsParse(info) && forall q :: 0 <= q < QP_LIST_LEN ==> ParseInfo(info.members["rdma_info"].items[q]).Ok?
  }

  /** Every region of the document is in the table, and no other entry has changed. */
  ghost predicate RegionsTaken(before: map<string, RemoteMr>, doc: map<string, Json>, after: map<string, RemoteMr>) {
    && (forall key :: key in doc ==> key in after && ParseMr(doc[key]) == Ok(after[key]))
    && (forall key :: key !in doc ==> (key in after <==> key in before) && (key in before ==> after[key] == before[key]))
  }

  /** Every entry is as it was, or a region of the document. */
  ghost predicate RegionsPartly(before: map<string, RemoteMr>, doc: map<string, Json>, after: map<string, RemoteMr>) {
    forall key ::
      || (key in after && key in doc && ParseMr(doc[key]) == Ok(after[key]))
      || ((key in after <==> key in before) && (key in before ==> after[key] == before[key]))
  }

  predicate StepOk(j: Json, codes: Codes) {
    ParseInfo(j).Ok? && codes == Codes(0, 0, 0)
  }

  /** QP q is ready to send to the queue pair that j describes.  On RoCE it is addressed by the
      peer's GID, from our own; on InfiniBand by a lid, which is our own. */
  predicate Joined(local: RdmaInfo, j: Json, remote: RdmaInfo, attr: QpAttr) {
    && ParseInfo(j) == Ok(remote) && attr.state == RTS && attr.sqPsn == U32(local.psn) && attr.maxRdAtomic == 16
    && Listens(local, remote, attr)
  }

  /** The attributes of the move to ready-to-receive. */
  predicate Listens(local: RdmaInfo, remote: RdmaInfo, attr: QpAttr) {
    && attr.destQpNum == remote.qpn && attr.rqPsn == U32(remote.psn)
    && attr.pathMtu == Min(U32(remote.mtu), U32(local.mtu)) && attr.maxDestRdAtomic == 16
    && (if local.gidx == -1
        then !attr.isGlobal && attr.dlid == local.lid
        else attr.isGlobal && attr.dgid == remote.gid && attr.sgidIndex == local.gidx % 256 && attr.dlid == 0)
  }

  /** Where a queue pair that could not be connected has stopped: as it was, ready to receive only,
      or joined if nothing but the last verb failed. */
  predicate Halted(local: RdmaInfo, j: Json, codes: Codes, before: QpAttr, remote: RdmaInfo, attr: QpAttr) {
    if ParseInfo(j).Err? || codes.rtr != 0 then attr == before
    else if codes.rts != 0 then ParseInfo(j) == Ok(remote) && attr.state == RTR && Listens(local, remote, attr)
    else Joined(local, j, remote, attr)
  }

  /** Queue pair n is the first whose information does not parse or whose verbs fail. */
  ghost predicate StopsAt(info: Json, codes: seq<Codes>, n: nat)
    requires Described(info) && n < QP_LIST_LEN == |codes|
  {
    && !StepOk(info.members["rdma_info"].items[n], codes[n])
    && forall q :: 0 <= q < n ==> StepOk(info.members["rdma_info"].items[q], codes[q])
  }

  /** Nothing fails up to and at queue pair q. */
  predicate StepsOk(info: Json, codes: seq<Codes>, q: nat)
    requires Described(info) && q < QP_LIST_LEN == |codes|
  {
    forall p :: 0 <= p <= q ==> StepOk(info.members["rdma_info"].items[p], codes[p])
  }

  class Connection {
    const local: seq<RdmaInfo>
    var mrs: map<string, Mr>
    var remoteMrs: map<string, RemoteMr>
    var remote: seq<RdmaInfo>
    var attrs: seq<QpAttr>
    var connected: bool

    predicate Valid()
      reads this
    {
      |local| == |remote| == |attrs| == QP_LIST_LEN
    }

    /** After init has moved every queue pair to INIT. */
    constructor (local: seq<RdmaInfo>)
      requires |local| == QP_LIST_LEN
      ensures Valid() && this.local == local && mrs == map[] && remoteMrs == map[] && !connected
      ensures forall q :: 0 <= q < QP_LIST_LEN ==> attrs[q].state == INIT
    {
      this.local := local;
      mrs, remoteMrs, connected := map[], map[], false;
      remote := seq(QP_LIST_LEN, _ => RdmaInfo(0, Gid(0, 0), 0, 0, 0, 0));
      attrs := seq(QP_LIST_LEN, _ => QpAttr(INIT, 0, 0, 0, 0, false, Gid(0, 0), 0, 0, 0, 0));
    }

    /** RDMAMemoryPool::register_memory_region with the region ibv_reg_mr returned. */
    method RegisterMemoryRegion(key: string, mr: Mr)
      modifies this`mrs
      ensures mrs == old(mrs)[key := mr]
    {
      mrs := mrs[key := mr];
    }

    /** The loop over mr_info; an entry that does not parse throws. */
    method TakeRegions(doc: map<string, Json>) returns (threw: bool)
      modifies this`remoteMrs
      ensures threw <==> exists key :: key in doc && ParseMr(doc[key]).Err?
      ensures !threw ==> RegionsTaken(old(remoteMrs), doc, remoteMrs)
      ensures RegionsPartly(old(remoteMrs), doc, remoteMrs)
    {
      var rest := doc.Keys;
      ghost var done := map[];
      while rest != {}
        invariant rest <= doc.Keys && done == map key | key in doc && key !in rest :: doc[key]
        invariant RegionsTaken(old(remoteMrs), done, remoteMrs)
        decreases rest
      {
        var key :| key in rest;
        var parsed := ParseMr(doc[key]);
        if parsed.Err? {
          return true;
        }
        remoteMrs := remoteMrs[key := parsed.value];
        rest := rest - {key};
        done := done[key := doc[key]];
      }
      assert done == doc;
      return false;
    }

    /** One turn of the loop over the queue pairs. */
    method ConnectQp(q: nat, j: Json, codes: Codes) returns (stop: Option<Outcome>)
      requires Valid() && q < QP_LIST_LEN
      modifies this`remote, this`attrs, this`connected
      ensures Valid() && (stop.None? <==> StepOk(j, codes))
      ensures stop.None? ==> Joined(local[q], j, remote[q], attrs[q]) && connected
      ensures stop.Some? ==> stop.value == if ParseInfo(j).Err? then Threw else Returned(-1)
      ensures stop.Some? ==> Halted(local[q], j, codes, old(attrs)[q], remote[q], attrs[q])
      ensures stop.Some? ==> (connected <==> old(connected) || (ParseInfo(j).Ok? && codes.rtr == 0 && codes.rts == 0))
      ensures forall p :: 0 <= p < QP_LIST_LEN && p != q ==> attrs[p] == old(attrs)[p] && remote[p] == old(remote)[p]
    {
      var parsed := ParseInfo(j);
      if parsed.Err? {
        return Some(Threw);
      }
      remote := remote[q := parsed.value];
      if codes.rtr != 0 {
        return Some(Returned(-1));
      }
      attrs := attrs[q := ToRtr(local[q], remote[q], attrs[q])];
      if codes.rts != 0 {
        return Some(Returned(-1));
      }
      attrs := attrs[q := ToRts(local[q], attrs[q])];
      connected := true;
      if codes.notify != 0 {
        return Some(Returned(-1));
      }
      return None;
    }

    /** connect.  It returns 0 exactly when every region and every queue pair's information
        parses and every verb succeeds; otherwise it stops at the first queue pair that fails,
        with those before it connected and those after it untouched.  The first queue pair to
        be made ready sets connected_, for good, and a connected context aborts. */
    method Connect(info: Json, codes: seq<Codes>) returns (res: Outcome)
      requires Valid() && Described(info) && |codes| == QP_LIST_LEN
      modifies this
      ensures Valid() && mrs == old(mrs)
      ensures res == Returned(0) <==>
        && RegionsParse(info) && !old(connected)
        && (forall q :: 0 <= q < QP_LIST_LEN ==> StepOk(info.members["rdma_info"].items[q], codes[q]))
      ensures res == Returned(0) ==>
        && connected
        && (forall q :: 0 <= q < QP_LIST_LEN ==> Joined(local[q], info.members["rdma_info"].items[q], remote[q], attrs[q]))
      ensures res == Returned(0) || res == Returned(-1) || res == Threw || res == Aborted
      ensures res == Aborted <==> old(connected) && RegionsParse(info)
      ensures connected <==>
        (old(connected) || (RegionsParse(info) && ParseInfo(info.members["rdma_info"].items[0]).Ok?
                            && codes[0].rtr == 0 && codes[0].rts == 0))
      ensures !old(connected) && Readable(info) ==> res.Returned?
      ensures !old(connected) && RegionsParse(info) && res != Returned(0) ==>
        exists n :: 0 <= n < QP_LIST_LEN && StopsAt(info, codes, n)
          && res == (if ParseInfo(info.members["rdma_info"].items[n]).Err? then Threw else Returned(-1))
          && (forall q :: 0 <= q < n ==> Joined(local[q], info.members["rdma_info"].items[q], remote[q], attrs[q]))
          && Halted(local[n], info.members["rdma_info"].items[n], codes[n], old(attrs)[n], remote[n], attrs[n])
          && (forall q :: n < q < QP_LIST_LEN ==> attrs[q] == old(attrs)[q] && remote[q] == old(remote)[q])
      ensures old(connected) || !RegionsParse(info) ==> attrs == old(attrs) && remote == old(remote)
      ensures !RegionsParse(info) ==> res == Threw
      ensures RegionsPartly(old(remoteMrs), RegionDocs(info), remoteMrs)
      ensures !old(connected) && RegionsParse(info) ==>
        forall q :: 0 <= q < QP_LIST_LEN && StepsOk(info, codes, q) ==>
          Joined(local[q], info.members["rdma_info"].items[q], remote[q], attrs[q])
      ensures RegionsParse(info) ==> RegionsTaken(old(remoteMrs), RegionDocs(info), remoteMrs)
    {
      var threw := TakeRegions(RegionDocs(info));
      if threw {
        return Threw;
      }
      if connected {
        return Aborted;
      }
      var items := info.members["rdma_info"].items;
      var q := 0;
      while q < QP_LIST_LEN
        invariant 0 <= q <= QP_LIST_LEN && Valid() && (connected <==> q > 0)
        invariant mrs == old(mrs) && RegionsTaken(old(remoteMrs), RegionDocs(info), remoteMrs)
        invariant forall p :: 0 <= p < q ==> StepOk(items[p], codes[p]) && Joined(local[p], items[p], remote[p], attrs[p])
        invariant forall p :: q <= p < QP_LIST_LEN ==> attrs[p] == old(attrs)[p] && remote[p] == old(remote)[p]
      {
        var stop := ConnectQp(q, items[q], codes[q]);
        if stop.Some? {
          assert StopsAt(info, codes, q);
          return stop.value;
        }
        q := q + 1;
      }
      return Returned(0);
    }
  }

  /** Connecting again to readable information.  The second attempt aborts exactly when the first
      queue pair's two state changes succeeded in the first attempt, even if that attempt
      failed afterwards. */
  method ConnectTwice(self: Connection, info: Json, codes: seq<Codes>, again: seq<Codes>)
    returns (first: Outcome, second: Outcome)
    requires self.Valid() && !self.connected && Described(info) && Readable(info)
    requires |codes| == |again| == QP_LIST_LEN
    modifies self
    ensures first == Returned(0) <==> forall q :: 0 <= q < QP_LIST_LEN ==> codes[q] == Codes(0, 0, 0)
    ensures second == Aborted <==> codes[0].rtr == 0 && codes[0].rts == 0
  {
    first := self.Connect(info, codes);
    second := self.Connect(info, again);
  }
}
