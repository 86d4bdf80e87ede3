/** Bounded capture of a process output stream. */
module Streams {
  type Byte = b: int | 0 <= b < 256

  /** A SHA-256 object after it absorbed the given bytes. */
  datatype Sha256 = Sha256(absorbed: seq<Byte>)

  /** The stream's contents: reading ends at the first empty block. */
  function Contents(blocks: seq<seq<Byte>>): seq<Byte> {
    if blocks == [] || blocks[0] == [] then [] else blocks[0] + Contents(blocks[1..])
  }

  function Prefix(data: seq<Byte>, limit: nat): seq<Byte> {
    if |data| <= limit then data else data[..limit]
  }

  lemma {:induction false} ContentsSnoc(blocks: seq<seq<Byte>>, i: nat)
    requires i < |blocks| && forall k :: 0 <= k <= i ==> blocks[k] != []
    ensures Contents(blocks[..i + 1]) == Contents(blocks[..i]) + blocks[i]
  {
    if i == 0 {
      assert blocks[..1][1..] == [] && blocks[..0] == [];
    } else {
      ContentsSnoc(blocks[1..], i - 1);
      assert blocks[..i + 1][1..] == blocks[1..][..i] && blocks[..i][1..] == blocks[1..][..i - 1];
      assert blocks[1..][i - 1] == blocks[i];
      assert blocks[0] + (Contents(blocks[1..][..i - 1]) + blocks[i])
        == (blocks[0] + Contents(blocks[1..][..i - 1])) + blocks[i];
    }
  }

  lemma {:induction false} ContentsStops(blocks: seq<seq<Byte>>, i: nat)
    requires i <= |blocks| && (i < |blocks| ==> blocks[i] == [])
    requires forall k :: 0 <= k < i ==> blocks[k] != []
    ensures Contents(blocks) == Contents(blocks[..i])
  {
    if i == 0 {
      assert blocks[..0] == [];
    } else {
      ContentsStops(blocks[1..], i - 1);
      assert blocks[..i][1..] == blocks[1..][..i - 1];
    }
  }

  /** However the stream is cut into blocks: the first `limit` bytes are kept, all of them are hashed and counted. */
  method DigestAndTail(blocks: seq<seq<Byte>>, limit: nat)
    returns (captured: seq<Byte>, digest: Sha256, total: nat, truncated: bool)
    ensures captured == Prefix(Contents(blocks), limit)
    ensures digest == Sha256(Contents(blocks))
    ensures total == |Contents(blocks)|
    ensures captured <= Contents(blocks) && (|captured| == limit || captured == Contents(blocks))
    ensures truncated <==> captured != Contents(blocks)
  {
    digest := Sha256([]);
    captured, total := [], 0;
    var i := 0;
    while i < |blocks| && blocks[i] != []
      invariant 0 <= i <= |blocks| && forall k :: 0 <= k < i ==> blocks[k] != []
      invariant digest == Sha256(Contents(blocks[..i]))
      invariant total == |Contents(blocks[..i])|
      invariant captured == Prefix(Contents(blocks[..i]), limit)
    {
      var block := blocks[i];
      ContentsSnoc(blocks, i);
      total := total + |block|;
      digest := Sha256(digest.absorbed + block);
      if |captured| < limit {
        captured := captured + Prefix(block, limit - |captured|);
      }
      i := i + 1;
    }
    ContentsStops(blocks, i);
    truncated := total > limit;
  }
}
