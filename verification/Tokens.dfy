/** Projections of request and completion sequences onto the tokens they carry, and the
    credits those tokens stand for. */
module Tokens {
  import opened Types
  import opened Split
  import opened Chain

  lemma Assoc<T>(a: seq<T>, b: seq<T>, c: seq<T>)
    ensures a + (b + c) == a + b + c
  {
  }

  function OptToks(t: Option<Token>): seq<Token> {
    if t.Some? then [t.value] else []
  }

  function WrToks(wrs: seq<Wr>): seq<Token> {
    if wrs == [] then [] else OptToks(wrs[0].wrId) + WrToks(wrs[1..])
  }

  lemma {:induction false} WrToksConcat(a: seq<Wr>, b: seq<Wr>)
    ensures WrToks(a + b) == WrToks(a) + WrToks(b)
  {
    if a == [] {
      assert a + b == b;
    } else {
      WrToksConcat(a[1..], b);
      assert (a + b)[0] == a[0] && (a + b)[1..] == a[1..] + b;
      Assoc(OptToks(a[0].wrId), WrToks(a[1..]), WrToks(b));
    }
  }

  lemma WrToksSnoc(a: seq<Wr>, x: Wr)
    ensures WrToks(a + [x]) == WrToks(a) + OptToks(x.wrId)
  {
    WrToksConcat(a, [x]);
    assert WrToks([x]) == OptToks(x.wrId);
  }

  function WcToks(wcs: seq<Wc>): seq<Token> {
    if wcs == [] then [] else OptToks(wcs[0].wrId) + WcToks(wcs[1..])
  }

  lemma {:induction false} WcToksSnoc(a: seq<Wc>, x: Wc)
    ensures WcToks(a + [x]) == WcToks(a) + OptToks(x.wrId)
  {
    if a == [] {
      assert a + [x] == [x];
      assert WcToks([x][1..]) == [];
    } else {
      WcToksSnoc(a[1..], x);
      Assoc(OptToks(a[0].wrId), WcToks(a[1..]), OptToks(x.wrId));
      assert (a + [x])[1..] == a[1..] + [x];
    }
  }

  /** The completions of QP q, in order. */
  function Of(wcs: seq<Wc>, q: nat): seq<Wc> {
    if wcs == [] then [] else (if wcs[0].qpi == q then [wcs[0]] else []) + Of(wcs[1..], q)
  }

  lemma {:induction false} OfSnoc(a: seq<Wc>, x: Wc, q: nat)
    ensures Of(a + [x], q) == Of(a, q) + if x.qpi == q then [x] else []
  {
    if a == [] {
      assert a + [x] == [x];
      assert Of([x][1..], q) == [];
    } else {
      OfSnoc(a[1..], x, q);
      Assoc(if a[0].qpi == q then [a[0]] else [], Of(a[1..], q), if x.qpi == q then [x] else []);
      assert (a + [x])[1..] == a[1..] + [x];
    }
  }

  function Credits(toks: seq<Token>): nat {
    if toks == [] then 0 else |toks[0].chunk.batch| + Credits(toks[1..])
  }

  lemma {:induction false} CreditsConcat(a: seq<Token>, b: seq<Token>)
    ensures Credits(a + b) == Credits(a) + Credits(b)
  {
    if a == [] {
      assert a + b == b;
    } else {
      CreditsConcat(a[1..], b);
      assert (a + b)[1..] == a[1..] + b;
    }
  }

  /** The tokens that posting `chunks` on QP q creates: one for each READ. */
  function ReadToks(q: nat, chunks: seq<Chunk>): seq<Token> {
    if chunks == [] then []
    else (if chunks[0].opcode == READ then [Token(chunks[0], q)] else []) + ReadToks(q, chunks[1..])
  }

  lemma {:induction false} ReadToksConcat(q: nat, a: seq<Chunk>, b: seq<Chunk>)
    ensures ReadToks(q, a + b) == ReadToks(q, a) + ReadToks(q, b)
  {
    if a == [] {
      assert a + b == b;
    } else {
      ReadToksConcat(q, a[1..], b);
      assert (a + b)[0] == a[0] && (a + b)[1..] == a[1..] + b;
      Assoc(if a[0].opcode == READ then [Token(a[0], q)] else [], ReadToks(q, a[1..]), ReadToks(q, b));
    }
  }

  /** Credits taken by SEND and RECV chunks, which nothing gives back. */
  function Leaked(chunks: seq<Chunk>): nat {
    if chunks == [] then 0
    else (if chunks[|chunks| - 1].opcode == READ then 0 else |chunks[|chunks| - 1].batch|) + Leaked(chunks[..|chunks| - 1])
  }

  lemma LeakedSnoc(a: seq<Chunk>, c: Chunk)
    ensures Leaked(a + [c]) == Leaked(a) + if c.opcode == READ then 0 else |c.batch|
  {
    assert (a + [c])[..|a|] == a;
  }

  /** The send-queue log left by posting `chunks` one after the other. */
  function SendChains(regions: Regions, q: nat, chunks: seq<Chunk>): seq<Wr> {
    if chunks == [] then []
    else SendChains(regions, q, chunks[..|chunks| - 1]) + SendChain(regions, q, chunks[|chunks| - 1])
  }

  lemma SendChainsSnoc(regions: Regions, q: nat, a: seq<Chunk>, c: Chunk)
    ensures SendChains(regions, q, a + [c]) == SendChains(regions, q, a) + SendChain(regions, q, c)
  {
    assert (a + [c])[..|a|] == a;
  }

  /** The receive-queue log left by posting `chunks` one after the other. */
  function RecvChains(regions: Regions, chunks: seq<Chunk>): seq<RecvWr> {
    if chunks == [] then []
    else RecvChains(regions, chunks[..|chunks| - 1]) + RecvChain(regions, chunks[|chunks| - 1])
  }

  lemma RecvChainsSnoc(regions: Regions, a: seq<Chunk>, c: Chunk)
    ensures RecvChains(regions, a + [c]) == RecvChains(regions, a) + RecvChain(regions, c)
  {
    assert (a + [c])[..|a|] == a;
  }

  /** A run of unsignalled requests carries no token. */
  lemma {:induction false} NoToks(wrs: seq<Wr>)
    requires forall i :: 0 <= i < |wrs| ==> wrs[i].wrId == None
    ensures WrToks(wrs) == []
  {
    if wrs != [] {
      NoToks(wrs[1..]);
    }
  }

  /** A READ chain carries exactly its own token, and carries it last; a SEND none. */
  lemma SendChainToks(regions: Regions, q: nat, c: Chunk)
    requires GoodChunk(c)
    ensures WrToks(SendChain(regions, q, c)) == ReadToks(q, [c])
    ensures WrToks(SendChain(regions, q, c)) == if c.opcode == READ then [Token(c, q)] else []
  {
    var chain := SendChain(regions, q, c);
    assert [c][1..] == [];
    if c.opcode == READ {
      var n := |c.batch| - 1;
      assert chain == chain[..n] + [chain[n]];
      NoToks(chain[..n]);
      WrToksSnoc(chain[..n], chain[n]);
    } else {
      NoToks(chain);
    }
  }

  lemma {:induction false} SendChainsToks(regions: Regions, q: nat, chunks: seq<Chunk>)
    requires GoodChunks(chunks)
    ensures WrToks(SendChains(regions, q, chunks)) == ReadToks(q, chunks)
  {
    if chunks != [] {
      var n := |chunks| - 1;
      SendChainsToks(regions, q, chunks[..n]);
      SendChainToks(regions, q, chunks[n]);
      ReadToksConcat(q, chunks[..n], [chunks[n]]);
      assert chunks[..n] + [chunks[n]] == chunks;
      WrToksConcat(SendChains(regions, q, chunks[..n]), SendChain(regions, q, chunks[n]));
      assert SendChains(regions, q, chunks) == SendChains(regions, q, chunks[..n]) + SendChain(regions, q, chunks[n]);
    }
  }
}
