/** RDMAContext::submit, first half: cutting a batch into chunks of at most MAX_SEND_WR/2. */
module Split {
  import opened Types

  newtype Int32 = x: int | -0x8000_0000 <= x < 0x8000_0000

  /** Index of the first element of chunk j. */
  function Start(j: nat): nat {
    4096 * j
  }

  function ChunkCount(n: nat): (c: nat)
    ensures Start(c) < n + SPLIT_STEP && n <= Start(c)
  {
    (n + 4095) / 4096
  }

  /** The j-th piece: from its start up to the end of the batch or of the step. */
  function Piece<T>(batch: seq<T>, j: nat): (piece: seq<T>)
    requires Start(j) < |batch|
    ensures 1 <= |piece| <= SPLIT_STEP
  {
    batch[Start(j)..Min(|batch|, Start(j + 1))]
  }

  function Pieces<T>(batch: seq<T>): (pieces: seq<seq<T>>)
    ensures |pieces| == ChunkCount(|batch|)
  {
    seq(ChunkCount(|batch|), j requires 0 <= j < ChunkCount(|batch|) => Piece(batch, j))
  }

  function Flatten<T>(pieces: seq<seq<T>>): seq<T> {
    if pieces == [] then [] else Flatten(pieces[..|pieces| - 1]) + pieces[|pieces| - 1]
  }

  /** The first k pieces put together are the first k*step elements. */
  lemma {:induction false} FlattenPrefix<T>(batch: seq<T>, k: nat)
    requires k <= ChunkCount(|batch|)
    ensures Flatten(Pieces(batch)[..k]) == batch[..Min(|batch|, Start(k))]
  {
    if k > 0 {
      var prefix := Pieces(batch)[..k];
      assert prefix[..k - 1] == Pieces(batch)[..k - 1];
      FlattenPrefix(batch, k - 1);
    }
  }

  /** Splitting loses, repeats and reorders nothing; an empty batch has no chunk; all
      chunks but the last are full. */
  lemma SplitCorrect<T>(batch: seq<T>)
    ensures Flatten(Pieces(batch)) == batch
    ensures |Pieces(batch)| == 0 <==> batch == []
    ensures forall j :: 0 <= j < |Pieces(batch)| ==>
      1 <= |Pieces(batch)[j]| <= SPLIT_STEP && (j + 1 < |Pieces(batch)| ==> |Pieces(batch)[j]| == SPLIT_STEP)
  {
    FlattenPrefix(batch, ChunkCount(|batch|));
    assert Pieces(batch)[..ChunkCount(|batch|)] == Pieces(batch);
  }

  /** Element m of the batch is element m % step of chunk m / step. */
  lemma ElementPlace<T>(batch: seq<T>, m: nat)
    requires m < |batch|
    ensures m / 4096 < |Pieces(batch)|
    ensures m % 4096 < |Pieces(batch)[m / 4096]|
    ensures Pieces(batch)[m / 4096][m % 4096] == batch[m]
  {
    assert m == Start(m / 4096) + m % 4096;
  }

  lemma PlaceElement<T>(batch: seq<T>, j: nat, k: nat)
    requires j < |Pieces(batch)| && k < |Pieces(batch)[j]|
    ensures Start(j) + k < |batch| && Pieces(batch)[j][k] == batch[Start(j) + k]
    ensures k < 4096
  {
  }

  /** The split loop, with the `int` index of the source. */
  method SplitLoop<T>(batch: seq<T>) returns (pieces: seq<seq<T>>)
    requires |batch| + SPLIT_STEP <= 0x8000_0000  // beyond this the int index overflows
    ensures pieces == Pieces(batch)
  {
    pieces := [];
    var step: Int32 := 8192 / 2;
    var i: Int32 := 0;
    while i as int < |batch|
      invariant 0 <= i as int <= |batch| + SPLIT_STEP - 1
      invariant |pieces| <= ChunkCount(|batch|) && i as int == Start(|pieces|)
      invariant pieces == Pieces(batch)[..|pieces|]
    {
      pieces := pieces + [batch[i as int..Min(|batch|, i as int + step as int)]];
      i := i + step;
    }
    assert Pieces(batch)[..|pieces|] == Pieces(batch);
  }

  /** The RDMAAssignment objects of submission `sid`, in push order. */
  function Chunks(sid: nat, opcode: OpCode, batch: seq<Assignment>): (chunks: seq<Chunk>)
    ensures |chunks| == ChunkCount(|batch|)
    ensures GoodChunks(chunks)
  {
    var pieces := Pieces(batch);
    seq(|pieces|, j requires 0 <= j < |pieces| => Chunk(sid, j, j == |pieces| - 1, opcode, pieces[j]))
  }

  predicate GoodChunk(c: Chunk) {
    1 <= |c.batch| <= SPLIT_STEP
  }

  predicate GoodChunks(cs: seq<Chunk>) {
    forall i :: 0 <= i < |cs| ==> GoodChunk(cs[i])
  }
}
