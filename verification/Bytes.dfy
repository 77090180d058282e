/** Bytes, chunks and the few sequence facts that every layer of the stack needs. */
module Bytes {

  type byte = x: int | 0 <= x < 0x100

  /** One Uint8Array handed from layer to layer. */
  type Chunk = seq<byte>

  datatype Option<+T> = None | Some(value: T)

  datatype Result<+T, +E> = Ok(value: T) | Err(error: E)

  /** The bytes of a list of chunks, in order. */
  function Flatten(chunks: seq<Chunk>): Chunk {
    if chunks == [] then [] else chunks[0] + Flatten(chunks[1..])
  }

  /** How many bytes a list of chunks holds. */
  function Size(chunks: seq<Chunk>): nat {
    if chunks == [] then 0 else |chunks[0]| + Size(chunks[1..])
  }

  /** The length of the longest chunk. */
  function MaxLen(chunks: seq<Chunk>): nat {
    if chunks == [] then 0
    else
      var rest := MaxLen(chunks[1..]);
      if |chunks[0]| > rest then |chunks[0]| else rest
  }

  lemma {:induction false} FlattenAppend(a: seq<Chunk>, b: seq<Chunk>)
    ensures Flatten(a + b) == Flatten(a) + Flatten(b)
  {
    if a == [] {
      assert a + b == b;
    } else {
      FlattenAppend(a[1..], b);
      assert (a + b)[1..] == a[1..] + b && (a + b)[0] == a[0];
      assert a[0] + (Flatten(a[1..]) + Flatten(b)) == (a[0] + Flatten(a[1..])) + Flatten(b);
    }
  }

  lemma FlattenOne(c: Chunk)
    ensures Flatten([c]) == c
  {
    assert Flatten([c]) == c + Flatten([]);
  }

  lemma {:induction false} SizeAppend(a: seq<Chunk>, b: seq<Chunk>)
    ensures Size(a + b) == Size(a) + Size(b)
  {
    if a == [] {
      assert a + b == b;
    } else {
      SizeAppend(a[1..], b);
      assert (a + b)[1..] == a[1..] + b;
    }
  }

  lemma {:induction false} SizeIsFlattenLength(chunks: seq<Chunk>)
    ensures |Flatten(chunks)| == Size(chunks)
  {
    if chunks != [] {
      SizeIsFlattenLength(chunks[1..]);
    }
  }

  lemma {:induction false} MaxLenBounds(chunks: seq<Chunk>, c: Chunk)
    requires c in chunks
    ensures |c| <= MaxLen(chunks)
  {
    if c != chunks[0] {
      MaxLenBounds(chunks[1..], c);
    }
  }

  lemma {:induction false} MaxLenAppend(a: seq<Chunk>, b: seq<Chunk>)
    ensures MaxLen(a) <= MaxLen(a + b)
    ensures MaxLen(b) <= MaxLen(a + b)
  {
    if a == [] {
      assert a + b == b;
    } else {
      MaxLenAppend(a[1..], b);
      assert (a + b)[1..] == a[1..] + b;
    }
  }

  /** A prefix of the chunks is a prefix of the bytes. */
  lemma FlattenPrefix(a: seq<Chunk>, b: seq<Chunk>)
    requires a <= b
    ensures Flatten(a) <= Flatten(b)
  {
    FlattenAppend(a, b[|a|..]);
    assert b == a + b[|a|..];
  }

  /**
   * s is t with some elements left out: order is kept and each element of t
   * accounts for at most one element of s.
   */
  ghost predicate Subsequence<T>(s: seq<T>, t: seq<T>)
    decreases |t|
  {
    || s == []
    || (t != [] && ((s[0] == t[0] && Subsequence(s[1..], t[1..])) || Subsequence(s, t[1..])))
  }
}
