/** Byte strings and the one operation the uploader performs on lists of them:
    joining a list of chunks into one body (`b''.join(chunks)`). */
module Bytes {

  newtype byte = x: int | 0 <= x < 256

  type Bytes = seq<byte>

  /** Sum of the lengths of the chunks: what a running byte count should equal. */
  function TotalSize(chunks: seq<Bytes>): nat
    decreases |chunks|
  {
    if chunks == [] then 0
    else TotalSize(chunks[..|chunks| - 1]) + |chunks[|chunks| - 1]|
  }

  /** The chunks joined in order, with nothing between them. */
  function Concat(chunks: seq<Bytes>): (r: Bytes)
    ensures |r| == TotalSize(chunks)
    ensures chunks == [] ==> r == []
    decreases |chunks|
  {
    if chunks == [] then []
    else Concat(chunks[..|chunks| - 1]) + chunks[|chunks| - 1]
  }

  /** Appending one chunk appends its bytes to the join and its length to the total. */
  lemma ConcatSnoc(chunks: seq<Bytes>, c: Bytes)
    ensures Concat(chunks + [c]) == Concat(chunks) + c
    ensures TotalSize(chunks + [c]) == TotalSize(chunks) + |c|
  {
    assert (chunks + [c])[..|chunks|] == chunks;
  }

  /** Joining is associative over list concatenation. */
  lemma {:induction false} ConcatAppend(a: seq<Bytes>, b: seq<Bytes>)
    ensures Concat(a + b) == Concat(a) + Concat(b)
    decreases |b|
  {
    if b == [] {
      assert a + b == a;
    } else {
      var init, last := b[..|b| - 1], b[|b| - 1];
      calc {
        Concat(a + b);
        { assert a + b == (a + init) + [last]; }
        Concat((a + init) + [last]);
        { ConcatSnoc(a + init, last); }
        Concat(a + init) + last;
        { ConcatAppend(a, init); }
        (Concat(a) + Concat(init)) + last;
        Concat(a) + (Concat(init) + last);
        { ConcatSnoc(init, last); assert init + [last] == b; }
        Concat(a) + Concat(b);
      }
    }
  }
}
