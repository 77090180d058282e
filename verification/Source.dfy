/** The consuming end of an async-iterable stream. */
module Source {
  import opened Bytes

  /** The iterator of a stream, given the chunks that it will still yield. */
  class ChunkSource {
    var rest: seq<Chunk>

    constructor (chunks: seq<Chunk>)
      ensures rest == chunks
    {
      rest := chunks;
    }

    method Next() returns (item: Option<Chunk>)
      modifies this
      ensures old(rest) == [] ==> item == None && rest == []
      ensures old(rest) != [] ==> item == Some(old(rest)[0]) && rest == old(rest)[1..]
    {
      if rest == [] { return None; }
      item := Some(rest[0]);
      rest := rest[1..];
    }
  }
}
