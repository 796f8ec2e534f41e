/** `MockStreamCompletion`, the stand-in streaming completion of the code
    agent (codex/agents/code/src/lib.rs) and of the backend service
    (codex/backend/orchestrator/src/lib.rs): a cursor over fixed content that
    hands it out ten bytes at a time. */
module MockStream {
  import opened Wrappers

  type byte = b: int | 0 <= b < 256

  const ChunkSize: nat := 10

  function Min(a: int, b: int): int {
    if a <= b then a else b
  }

  /** The chunks still to come from `position` on: each call takes the next
      `ChunkSize` bytes, or what is left when fewer remain. */
  function Chunks(content: seq<byte>, position: nat): seq<seq<byte>>
    decreases |content| - position
  {
    if position >= |content| then []
    else
      var end := Min(position + ChunkSize, |content|);
      [content[position..end]] + Chunks(content, end)
  }

  function Concat(chunks: seq<seq<byte>>): seq<byte> {
    if chunks == [] then [] else chunks[0] + Concat(chunks[1..])
  }

  /** The chunks put back together are exactly the content not yet handed out. */
  lemma {:induction false} ChunksReassemble(content: seq<byte>, position: nat)
    requires position <= |content|
    ensures Concat(Chunks(content, position)) == content[position..]
    decreases |content| - position
  {
    if position < |content| {
      var end := Min(position + ChunkSize, |content|);
      var rest := Chunks(content, end);
      ChunksReassemble(content, end);
      assert Chunks(content, position)[1..] == rest;
      assert content[position..] == content[position..end] + content[end..];
    }
  }

  /** Every chunk holds between one and `ChunkSize` bytes, and there are
      exactly as many chunks as `ChunkSize`-byte blocks, rounded up. */
  lemma {:induction false} ChunkSizes(content: seq<byte>, position: nat)
    requires position <= |content|
    ensures forall i :: 0 <= i < |Chunks(content, position)| ==> 0 < |Chunks(content, position)[i]| <= ChunkSize
    ensures |Chunks(content, position)| == (|content| - position + ChunkSize - 1) / ChunkSize
    decreases |content| - position
  {
    if position < |content| {
      var end := Min(position + ChunkSize, |content|);
      ChunkSizes(content, end);
      var cs := Chunks(content, position);
      forall i | 0 <= i < |cs| ensures 0 < |cs[i]| <= ChunkSize {
        if i > 0 {
          assert cs[i] == Chunks(content, end)[i - 1];
        }
      }
    }
  }

  class StreamCompletion {
    const content: seq<byte>
    var position: nat

    /** The cursor never passes the end of the content. */
    ghost predicate Valid()
      reads this
    {
      position <= |content|
    }

    constructor (content: seq<byte>)
      ensures Valid()
      ensures this.content == content && position == 0
    {
      this.content := content;
      position := 0;
    }

    /** `next`: `None` once the content is used up, otherwise the next chunk,
        after which the chunks still to come are the rest of the old ones. */
    method Next() returns (chunk: Option<seq<byte>>)
      requires Valid()
      modifies this
      ensures Valid()
      ensures chunk.None? <==> old(position) == |content|
      ensures chunk.None? ==> position == old(position)
      ensures chunk.Some? ==>
        && old(position) < position <= old(position) + ChunkSize
        && chunk.value == content[old(position)..position]
      ensures Chunks(content, old(position)) ==
        (if chunk.Some? then [chunk.value] else []) + Chunks(content, position)
    {
      if position >= |content| {
        return None;
      }
      var end := Min(position + ChunkSize, |content|);
      chunk := Some(content[position..end]);
      position := end;
    }
  }
}
