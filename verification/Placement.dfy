/** Where each assignment of each submission ends up: which chunk, which position in its QP's
    FIFO, which slot of the send log; and back. */
module Placement {
  import opened Types
  import opened Split
  import opened Chain
  import opened Memory
  import opened Tokens
  import opened Pipeline
  import opened QpInvariant
  import opened SystemInvariant

  function ChunksOf(subs: seq<Submission>, sid: nat): seq<Chunk>
    requires sid < |subs|
  {
    Chunks(sid, subs[sid].opcode, subs[sid].batch)
  }

  /** Position on QP q of the first chunk of submission `sid`. */
  function First(subs: seq<Submission>, q: nat, sid: nat): nat
    requires sid <= |subs|
  {
    |PlacedOn(subs[..sid], q)|
  }

  lemma {:induction false} PlacedAt(subs: seq<Submission>, sid: nat, j: nat)
    requires sid < |subs| && j < |ChunksOf(subs, sid)|
    ensures var q := subs[sid].q;
      First(subs, q, sid) + j < |PlacedOn(subs, q)| && PlacedOn(subs, q)[First(subs, q, sid) + j] == ChunksOf(subs, sid)[j]
    decreases |subs|
  {
    var n := |subs| - 1;
    if sid < n {
      PlacedAt(subs[..n], sid, j);
      assert subs[..n][..sid] == subs[..sid];
    }
  }

  /** Each position on a QP holds one chunk of one submission, the one its fields name. */
  lemma {:induction false} PlacedOrigin(subs: seq<Submission>, q: nat, p: nat)
    requires p < |PlacedOn(subs, q)|
    ensures var c := PlacedOn(subs, q)[p];
      && c.sid < |subs| && subs[c.sid].q == q && c.idx < |ChunksOf(subs, c.sid)| && c == ChunksOf(subs, c.sid)[c.idx]
      && p == First(subs, q, c.sid) + c.idx
    decreases |subs|
  {
    var n := |subs| - 1;
    if p < |PlacedOn(subs[..n], q)| {
      PlacedOrigin(subs[..n], q, p);
      var c := PlacedOn(subs, q)[p];
      assert subs[..n][..c.sid] == subs[..c.sid];
    }
  }

  /** Index in the log of the first request of the p-th chunk. */
  function Offset(regions: Regions, q: nat, chunks: seq<Chunk>, p: nat): nat
    requires p <= |chunks|
  {
    |SendChains(regions, q, chunks[..p])|
  }

  lemma {:induction false} ChainAt(regions: Regions, q: nat, chunks: seq<Chunk>, p: nat, k: nat)
    requires p < |chunks| && k < |SendChain(regions, q, chunks[p])|
    ensures Offset(regions, q, chunks, p) + k < |SendChains(regions, q, chunks)|
    ensures SendChains(regions, q, chunks)[Offset(regions, q, chunks, p) + k] == SendChain(regions, q, chunks[p])[k]
    decreases |chunks|
  {
    var n := |chunks| - 1;
    if p < n {
      ChainAt(regions, q, chunks[..n], p, k);
      assert chunks[..n][..p] == chunks[..p];
    }
  }

  lemma {:induction false} ChainOrigin(regions: Regions, q: nat, chunks: seq<Chunk>, i: nat) returns (p: nat, k: nat)
    requires i < |SendChains(regions, q, chunks)|
    ensures p < |chunks| && k < |SendChain(regions, q, chunks[p])| && i == Offset(regions, q, chunks, p) + k
    decreases |chunks|
  {
    var n := |chunks| - 1;
    if i < |SendChains(regions, q, chunks[..n])| {
      p, k := ChainOrigin(regions, q, chunks[..n], i);
      assert chunks[..n][..p] == chunks[..p];
    } else {
      p, k := n, i - |SendChains(regions, q, chunks[..n])|;
    }
  }

  /** A later chunk starts after an earlier one has ended. */
  lemma {:induction false} OffsetsGrow(regions: Regions, q: nat, chunks: seq<Chunk>, p: nat, p': nat)
    requires p < p' <= |chunks|
    ensures Offset(regions, q, chunks, p) + |SendChain(regions, q, chunks[p])| <= Offset(regions, q, chunks, p')
    decreases p'
  {
    assert chunks[..p'][..p' - 1] == chunks[..p' - 1];
    if p < p' - 1 {
      OffsetsGrow(regions, q, chunks, p, p' - 1);
    }
  }

  /** (sid, m) names assignment m of READ submission sid. */
  predicate IsReadAssignment(subs: seq<Submission>, sid: int, m: int) {
    0 <= sid < |subs| && subs[sid].opcode == READ && 0 <= m < |subs[sid].batch|
  }

  /** (sid, m) names an assignment of a RECV submission that gets a receive buffer: the first
      of each chunk. */
  predicate IsRecvAssignment(subs: seq<Submission>, sid: int, m: int) {
    0 <= sid < |subs| && subs[sid].opcode == RECV && 0 <= m < |subs[sid].batch| && m % 4096 == 0
  }

  /** Requests for (sid, m) can write to our memory. */
  predicate IsWriter(subs: seq<Submission>, sid: int, m: int) {
    IsReadAssignment(subs, sid, m) || IsRecvAssignment(subs, sid, m)
  }

  /** What an assignment is to copy; for a RECV only the destination counts. */
  function TransferFor(regions: Regions, a: Assignment): Transfer {
    Transfer(LocalAddr(regions, a), RemoteAddr(regions, a), U32(a.length))
  }

  /** Position of the chunk that holds (sid, m). */
  function ChunkPos(subs: seq<Submission>, sid: nat, m: nat): nat
    requires sid < |subs|
  {
    First(subs, subs[sid].q, sid) + m / 4096
  }

  /** Log index of the request that carries (sid, m). */
  function Slot(regions: Regions, subs: seq<Submission>, sid: nat, m: nat): nat
    requires IsReadAssignment(subs, sid, m)
    requires ChunkPos(subs, sid, m) <= |PlacedOn(subs, subs[sid].q)|
  {
    Offset(regions, subs[sid].q, PlacedOn(subs, subs[sid].q), ChunkPos(subs, sid, m)) + m % 4096
  }

  lemma HasSlot(subs: seq<Submission>, sid: nat, m: nat)
    requires IsReadAssignment(subs, sid, m)
    ensures m / 4096 < |ChunksOf(subs, sid)| && m % 4096 < |ChunksOf(subs, sid)[m / 4096].batch|
    ensures ChunksOf(subs, sid)[m / 4096].batch[m % 4096] == subs[sid].batch[m]
    ensures ChunkPos(subs, sid, m) < |PlacedOn(subs, subs[sid].q)|
    ensures PlacedOn(subs, subs[sid].q)[ChunkPos(subs, sid, m)] == ChunksOf(subs, sid)[m / 4096]
  {
    ElementPlace(subs[sid].batch, m);
    PlacedAt(subs, sid, m / 4096);
  }

  lemma SlotHolds(regions: Regions, subs: seq<Submission>, sid: nat, m: nat)
    requires IsReadAssignment(subs, sid, m)
    ensures ChunkPos(subs, sid, m) < |PlacedOn(subs, subs[sid].q)|
    ensures var q := subs[sid].q;
      var log := SendChains(regions, q, PlacedOn(subs, q));
      && Slot(regions, subs, sid, m) < |log|
      && log[Slot(regions, subs, sid, m)] == ReadWr(regions, q, ChunksOf(subs, sid)[m / 4096], m % 4096)
      && log[Slot(regions, subs, sid, m)].opcode == READ
      && TransferOf(log[Slot(regions, subs, sid, m)]) == TransferFor(regions, subs[sid].batch[m])
  {
    HasSlot(subs, sid, m);
    var q := subs[sid].q;
    ChainAt(regions, q, PlacedOn(subs, q), ChunkPos(subs, sid, m), m % 4096);
  }

  lemma ReadOrigin(regions: Regions, q: nat, chunks: seq<Chunk>, i: nat) returns (p: nat, k: nat)
    requires i < |SendChains(regions, q, chunks)| && SendChains(regions, q, chunks)[i].opcode == READ
    ensures p < |chunks| && k < |chunks[p].batch| && chunks[p].opcode == READ && i == Offset(regions, q, chunks, p) + k
  {
    p, k := ChainOrigin(regions, q, chunks, i);
    ChainAt(regions, q, chunks, p, k);
    ReadRequest(regions, q, chunks[p], k);
  }

  /** Every read request in the log carries exactly one assignment, in its own slot. */
  lemma SlotOrigin(regions: Regions, subs: seq<Submission>, q: nat, i: nat) returns (sid: nat, m: nat)
    requires i < |SendChains(regions, q, PlacedOn(subs, q))|
    requires SendChains(regions, q, PlacedOn(subs, q))[i].opcode == READ
    ensures IsReadAssignment(subs, sid, m) && subs[sid].q == q
    ensures ChunkPos(subs, sid, m) < |PlacedOn(subs, q)| && Slot(regions, subs, sid, m) == i
  {
    var placed := PlacedOn(subs, q);
    var p, k := ReadOrigin(regions, q, placed, i);
    PlacedAssignment(subs, q, p, k);
    sid, m := placed[p].sid, Start(placed[p].idx) + k;
    SlotIs(regions, subs, sid, m, p, k);
  }

  lemma SlotIs(regions: Regions, subs: seq<Submission>, sid: nat, m: nat, p: nat, k: nat)
    requires IsReadAssignment(subs, sid, m) && ChunkPos(subs, sid, m) == p < |PlacedOn(subs, subs[sid].q)| && m % 4096 == k
    ensures Slot(regions, subs, sid, m) == Offset(regions, subs[sid].q, PlacedOn(subs, subs[sid].q), p) + k
  {
  }

  lemma ReadRequest(regions: Regions, q: nat, c: Chunk, k: nat)
    requires k < |SendChain(regions, q, c)| && SendChain(regions, q, c)[k].opcode == READ
    ensures c.opcode == READ
  {
  }

  /** Element k of the chunk at position p of a QP is one assignment of one submission. */
  lemma PlacedAssignment(subs: seq<Submission>, q: nat, p: nat, k: nat)
    requires p < |PlacedOn(subs, q)| && k < |PlacedOn(subs, q)[p].batch| && PlacedOn(subs, q)[p].opcode == READ
    ensures var c := PlacedOn(subs, q)[p];
      var m := Start(c.idx) + k;
      IsReadAssignment(subs, c.sid, m) && subs[c.sid].q == q && ChunkPos(subs, c.sid, m) == p && m % 4096 == k
  {
    var c := PlacedOn(subs, q)[p];
    PlacedOrigin(subs, q, p);
    PlaceElement(subs[c.sid].batch, c.idx, k);
  }

  lemma {:induction false} RecvChainOrigin(regions: Regions, chunks: seq<Chunk>, i: nat) returns (p: nat)
    requires i < |RecvChains(regions, chunks)|
    ensures p < |chunks| && chunks[p].opcode == RECV && chunks[p].batch != []
    ensures RecvChains(regions, chunks)[i] == RecvOne(regions, chunks[p])
  {
    var n := |chunks| - 1;
    if i < |RecvChains(regions, chunks[..n])| {
      p := RecvChainOrigin(regions, chunks[..n], i);
    } else {
      p := n;
    }
  }

  lemma FirstOfChunk(sid: nat, opcode: OpCode, batch: seq<Assignment>, j: nat)
    requires j < |Chunks(sid, opcode, batch)| && Chunks(sid, opcode, batch)[j].batch != []
    ensures var c := Chunks(sid, opcode, batch)[j];
      c.opcode == opcode && Start(j) < |batch| && Start(j) % 4096 == 0 && c.batch[0] == batch[Start(j)]
  {
    PlaceElement(batch, j, 0);
  }

  /** The first assignment of the chunk at position p of a QP. */
  lemma FirstAssignment(subs: seq<Submission>, q: nat, p: nat)
    requires p < |PlacedOn(subs, q)| && PlacedOn(subs, q)[p].batch != []
    ensures var c := PlacedOn(subs, q)[p];
      && c.sid < |subs| && subs[c.sid].q == q && c.opcode == subs[c.sid].opcode
      && Start(c.idx) < |subs[c.sid].batch| && Start(c.idx) % 4096 == 0 && c.batch[0] == subs[c.sid].batch[Start(c.idx)]
  {
    var c := PlacedOn(subs, q)[p];
    PlacedOrigin(subs, q, p);
    FirstOfChunk(c.sid, subs[c.sid].opcode, subs[c.sid].batch, c.idx);
  }

  /** The receive buffer of the chunk at position p of a QP is that of one RECV assignment. */
  lemma PlacedBuffer(regions: Regions, subs: seq<Submission>, q: nat, p: nat)
    requires p < |PlacedOn(subs, q)| && PlacedOn(subs, q)[p].opcode == RECV && PlacedOn(subs, q)[p].batch != []
    ensures var c := PlacedOn(subs, q)[p];
      var m := Start(c.idx);
      && IsRecvAssignment(subs, c.sid, m) && subs[c.sid].q == q
      && RecvOne(regions, c).laddr == TransferFor(regions, subs[c.sid].batch[m]).dst
      && RecvOne(regions, c).length == TransferFor(regions, subs[c.sid].batch[m]).len
  {
    FirstAssignment(subs, q, p);
  }

  /** Different assignments have different slots. */
  lemma SlotsDiffer(regions: Regions, subs: seq<Submission>, sid: nat, m: nat, sid': nat, m': nat)
    requires IsReadAssignment(subs, sid, m) && IsReadAssignment(subs, sid', m') && subs[sid].q == subs[sid'].q
    requires ChunkPos(subs, sid, m) < |PlacedOn(subs, subs[sid].q)|
    requires ChunkPos(subs, sid', m') < |PlacedOn(subs, subs[sid].q)|
    requires Slot(regions, subs, sid, m) == Slot(regions, subs, sid', m')
    ensures sid == sid' && m == m'
  {
    var q := subs[sid].q;
    var placed := PlacedOn(subs, q);
    var p, p' := ChunkPos(subs, sid, m), ChunkPos(subs, sid', m');
    HasSlot(subs, sid, m);
    HasSlot(subs, sid', m');
    if p < p' {
      OffsetsGrow(regions, q, placed, p, p');
    } else if p' < p {
      OffsetsGrow(regions, q, placed, p', p);
    }
  }

  /** Within a submission, slots never come after the slot of its final request. */
  lemma SlotsUpToLast(regions: Regions, subs: seq<Submission>, sid: nat, m: nat, final: nat)
    requires IsReadAssignment(subs, sid, m) && final == |subs[sid].batch| - 1
    requires ChunkPos(subs, sid, m) < |PlacedOn(subs, subs[sid].q)|
    requires ChunkPos(subs, sid, final) < |PlacedOn(subs, subs[sid].q)|
    ensures Slot(regions, subs, sid, m) <= Slot(regions, subs, sid, final)
    ensures ChunkPos(subs, sid, m) <= ChunkPos(subs, sid, final)
  {
    var q := subs[sid].q;
    HasSlot(subs, sid, m);
    assert m / 4096 <= final / 4096;
    if m / 4096 < final / 4096 {
      OffsetsGrow(regions, q, PlacedOn(subs, q), ChunkPos(subs, sid, m), ChunkPos(subs, sid, final));
    }
  }
}
