/** Byte memories and the plain copy loop that both transports are measured against. */
module Memory {
  import opened Types

  /** `len` bytes from `src` in the peer's memory to `dst` in ours. */
  datatype Transfer = Transfer(dst: nat, src: nat, len: nat)

  predicate Fits(t: Transfer, localSize: nat, remoteSize: nat) {
    t.dst + t.len <= localSize && t.src + t.len <= remoteSize
  }

  predicate AllFit(ts: seq<Transfer>, localSize: nat, remoteSize: nat) {
    forall i :: 0 <= i < |ts| ==> Fits(ts[i], localSize, remoteSize)
  }

  predicate Hits(t: Transfer, a: nat) {
    t.dst <= a < t.dst + t.len
  }

  predicate Apart(t: Transfer, u: Transfer) {
    t.dst + t.len <= u.dst || u.dst + u.len <= t.dst || t.len == 0 || u.len == 0
  }

  lemma ApartMisses(t: Transfer, u: Transfer, a: nat)
    requires Apart(t, u) && Hits(t, a)
    ensures !Hits(u, a)
  {
  }

  /** memcpy. */
  function Copied(local: seq<Byte>, remote: seq<Byte>, t: Transfer): (out: seq<Byte>)
    requires Fits(t, |local|, |remote|)
    ensures |out| == |local|
    ensures forall a :: 0 <= a < |out| ==> out[a] == if Hits(t, a) then remote[t.src + (a - t.dst)] else local[a]
  {
    local[..t.dst] + remote[t.src..t.src + t.len] + local[t.dst + t.len..]
  }

  /** Bytes from elsewhere written at `at`. */
  function Written(local: seq<Byte>, at: nat, data: seq<Byte>): (out: seq<Byte>)
    requires at + |data| <= |local|
    ensures |out| == |local|
    ensures forall a :: 0 <= a < |out| ==> out[a] == if at <= a < at + |data| then data[a - at] else local[a]
  {
    local[..at] + data + local[at + |data|..]
  }

  /** Bytes from..to of a transfer. */
  function Part(t: Transfer, from: nat, to: nat): (part: Transfer)
    requires from <= to <= t.len
    ensures forall a: nat :: Hits(part, a) ==> Hits(t, a) && part.src + (a - part.dst) == t.src + (a - t.dst)
  {
    Transfer(t.dst + from, t.src + from, to - from)
  }

  /** Transfers done one after the other. */
  function RunAll(local: seq<Byte>, remote: seq<Byte>, ts: seq<Transfer>): (out: seq<Byte>)
    requires AllFit(ts, |local|, |remote|)
    ensures |out| == |local|
  {
    if ts == [] then local
    else Copied(RunAll(local, remote, ts[..|ts| - 1]), remote, ts[|ts| - 1])
  }

  /** The first i transfers of a list. */
  function RunFirst(local: seq<Byte>, remote: seq<Byte>, ts: seq<Transfer>, i: nat): (out: seq<Byte>)
    requires AllFit(ts, |local|, |remote|) && i <= |ts|
    ensures |out| == |local|
  {
    RunAll(local, remote, ts[..i])
  }

  lemma RunFirstNext(local: seq<Byte>, remote: seq<Byte>, ts: seq<Transfer>, i: nat)
    requires AllFit(ts, |local|, |remote|) && i < |ts|
    ensures RunFirst(local, remote, ts, i + 1) == Copied(RunFirst(local, remote, ts, i), remote, ts[i])
  {
    assert ts[..i + 1][..i] == ts[..i];
  }

  lemma RunFirstEnds(local: seq<Byte>, remote: seq<Byte>, ts: seq<Transfer>)
    requires AllFit(ts, |local|, |remote|)
    ensures RunFirst(local, remote, ts, 0) == local && RunFirst(local, remote, ts, |ts|) == RunAll(local, remote, ts)
  {
    assert ts[..|ts|] == ts;
  }

  /** A byte that no transfer hits is left alone. */
  lemma {:induction false} RunAllMisses(local: seq<Byte>, remote: seq<Byte>, ts: seq<Transfer>, a: nat)
    requires AllFit(ts, |local|, |remote|) && a < |local|
    requires forall i :: 0 <= i < |ts| ==> !Hits(ts[i], a)
    ensures RunAll(local, remote, ts)[a] == local[a]
  {
    if ts != [] {
      RunAllMisses(local, remote, ts[..|ts| - 1], a);
    }
  }

  /** A byte ends as the source byte of the last transfer that hits it. */
  lemma {:induction false} RunAllHits(local: seq<Byte>, remote: seq<Byte>, ts: seq<Transfer>, n: nat, a: nat)
    requires AllFit(ts, |local|, |remote|) && n < |ts| && Hits(ts[n], a)
    requires forall i :: n < i < |ts| ==> !Hits(ts[i], a)
    ensures a < |local| && ts[n].src + (a - ts[n].dst) < |remote|
    ensures RunAll(local, remote, ts)[a] == remote[ts[n].src + (a - ts[n].dst)]
  {
    assert Fits(ts[n], |local|, |remote|);
    if n < |ts| - 1 {
      RunAllHits(local, remote, ts[..|ts| - 1], n, a);
    }
  }

  ghost predicate PairwiseApart(ts: seq<Transfer>) {
    forall i, j :: 0 <= i < j < |ts| ==> Apart(ts[i], ts[j])
  }

  lemma HitOnce(ts: seq<Transfer>, n: nat, a: nat)
    requires PairwiseApart(ts) && n < |ts| && Hits(ts[n], a)
    ensures forall i :: 0 <= i < |ts| && i != n ==> !Hits(ts[i], a)
  {
    forall i | 0 <= i < |ts| && i != n
      ensures !Hits(ts[i], a)
    {
      assert if i < n then Apart(ts[i], ts[n]) else Apart(ts[n], ts[i]);
    }
  }

  /** The byte at `a` after disjoint transfers, read off the set of transfers alone. */
  lemma ByteAfter(local: seq<Byte>, remote: seq<Byte>, ts: seq<Transfer>, a: nat)
    requires AllFit(ts, |local|, |remote|) && PairwiseApart(ts) && a < |local|
    ensures forall t :: t in ts && Hits(t, a) ==>
      t.src + (a - t.dst) < |remote| && RunAll(local, remote, ts)[a] == remote[t.src + (a - t.dst)]
    ensures (forall t :: t in ts ==> !Hits(t, a)) ==> RunAll(local, remote, ts)[a] == local[a]
  {
    forall t | t in ts && Hits(t, a)
      ensures t.src + (a - t.dst) < |remote| && RunAll(local, remote, ts)[a] == remote[t.src + (a - t.dst)]
    {
      var n :| 0 <= n < |ts| && ts[n] == t;
      HitOnce(ts, n, a);
      RunAllHits(local, remote, ts, n, a);
    }
    if forall t :: t in ts ==> !Hits(t, a) {
      RunAllMisses(local, remote, ts, a);
    }
  }

  lemma ByteIs(local: seq<Byte>, remote: seq<Byte>, ts: seq<Transfer>, a: nat, b: Byte)
    requires AllFit(ts, |local|, |remote|) && PairwiseApart(ts) && a < |local|
    requires forall t :: t in ts && Hits(t, a) ==> t.src + (a - t.dst) < |remote| && b == remote[t.src + (a - t.dst)]
    requires (forall t :: t in ts ==> !Hits(t, a)) ==> b == local[a]
    ensures RunAll(local, remote, ts)[a] == b
  {
    ByteAfter(local, remote, ts, a);
  }

  /** Disjoint transfers may be done in any order: two lists with the same members have the
      same effect. */
  lemma AnyOrder(local: seq<Byte>, remote: seq<Byte>, ts: seq<Transfer>, us: seq<Transfer>)
    requires AllFit(ts, |local|, |remote|) && AllFit(us, |local|, |remote|)
    requires PairwiseApart(ts) && PairwiseApart(us)
    requires forall t :: t in ts <==> t in us
    ensures RunAll(local, remote, ts) == RunAll(local, remote, us)
  {
    forall a | 0 <= a < |local|
      ensures RunAll(local, remote, ts)[a] == RunAll(local, remote, us)[a]
    {
      ByteAfter(local, remote, ts, a);
      ByteAfter(local, remote, us, a);
    }
  }
}
