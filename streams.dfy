/** Reading a stream `CHUNK_SIZE` bytes at a time, as `send_data` and `body_generator` do. */
module Streams {

  /** `CHUNK_SIZE` in krpc.py. */
  const CHUNK_SIZE: nat := 8192

  /**
   * The successive results of `stream.read(CHUNK_SIZE)` on a file holding `data`, up to (and not
   * including) the empty read that ends the loop.
   */
  function Chunks(data: seq<bv8>): seq<seq<bv8>>
    decreases |data|
  {
    if data == [] then []
    else if |data| <= CHUNK_SIZE then [data]
    else [data[..CHUNK_SIZE]] + Chunks(data[CHUNK_SIZE..])
  }

  function Concat(chunks: seq<seq<bv8>>): seq<bv8> {
    if chunks == [] then [] else chunks[0] + Concat(chunks[1..])
  }

  /** Total number of bytes in a sequence of chunks. */
  function TotalLength(chunks: seq<seq<bv8>>): nat {
    if chunks == [] then 0 else |chunks[0]| + TotalLength(chunks[1..])
  }

  lemma {:induction false} ConcatAppend(a: seq<seq<bv8>>, b: seq<seq<bv8>>)
    ensures Concat(a + b) == Concat(a) + Concat(b)
  {
    if a == [] {
      assert a + b == b;
    } else {
      assert (a + b)[1..] == a[1..] + b;
      ConcatAppend(a[1..], b);
    }
  }

  lemma {:induction false} TotalLengthIsConcatLength(chunks: seq<seq<bv8>>)
    ensures TotalLength(chunks) == |Concat(chunks)|
  {
    if chunks != [] { TotalLengthIsConcatLength(chunks[1..]); }
  }

  /**
   * The chunks put the stream back together byte for byte, and each is non-empty and at most
   * `CHUNK_SIZE` long.
   */
  lemma {:induction false} ChunksReassemble(data: seq<bv8>)
    ensures Concat(Chunks(data)) == data
    ensures forall i :: 0 <= i < |Chunks(data)| ==> 0 < |Chunks(data)[i]| <= CHUNK_SIZE
    decreases |data|
  {
    if |data| > CHUNK_SIZE {
      var rest := Chunks(data[CHUNK_SIZE..]);
      ChunksReassemble(data[CHUNK_SIZE..]);
      assert Chunks(data) == [data[..CHUNK_SIZE]] + rest;
      assert Chunks(data)[1..] == rest;
      assert data[..CHUNK_SIZE] + data[CHUNK_SIZE..] == data;
      forall i | 0 <= i < |Chunks(data)| ensures 0 < |Chunks(data)[i]| <= CHUNK_SIZE {
        if i > 0 { assert Chunks(data)[i] == rest[i - 1]; }
      }
    } else if data != [] {
      assert Chunks(data) == [data];
      assert Concat([data]) == data + Concat([]);
    }
  }

  lemma TakeOneMore<T>(s: seq<T>, i: nat)
    requires i < |s|
    ensures s[..i + 1] == s[..i] + [s[i]]
  {
  }

  lemma DropAppend<T>(a: seq<T>, b: seq<T>)
    requires a != []
    ensures (a + b)[1..] == a[1..] + b && (a + b)[0] == a[0]
  {
  }

  lemma EmptyAppend<T>(a: seq<T>, b: seq<T>)
    requires a == []
    ensures a + b == b
  {
  }

  lemma AppendAssoc<T>(a: seq<T>, b: seq<T>, c: seq<T>)
    ensures (a + b) + c == a + (b + c)
  {
  }

  lemma AppendEmpty<T>(a: seq<T>)
    ensures a + [] == a
  {
  }

  /** A header chunk, some chunks and a trailer chunk carry the header, their bytes and the trailer. */
  lemma FramedConcat(head: seq<bv8>, middle: seq<seq<bv8>>, tail: seq<bv8>)
    ensures Concat([head] + middle + [tail]) == head + Concat(middle) + tail
  {
    ConcatAppend([head], middle);
    ConcatAppend([head] + middle, [tail]);
    assert Concat([head]) == head + Concat([]);
    assert Concat([tail]) == tail + Concat([]);
  }

  /** A header chunk, a stream's chunks and a trailer chunk carry the three texts in order. */
  lemma FramedChunks(head: seq<bv8>, data: seq<bv8>, tail: seq<bv8>)
    ensures Concat([head] + Chunks(data) + [tail]) == head + data + tail
  {
    FramedConcat(head, Chunks(data), tail);
    ChunksReassemble(data);
  }

  /** Reading from position `pos` on: one more chunk, then the rest. */
  lemma ChunksStep(data: seq<bv8>, pos: nat)
    requires pos < |data|
    ensures var n := if |data| - pos <= CHUNK_SIZE then |data| else pos + CHUNK_SIZE;
      Chunks(data[pos..]) == [data[pos..n]] + Chunks(data[n..])
  {
    var n := if |data| - pos <= CHUNK_SIZE then |data| else pos + CHUNK_SIZE;
    if |data| - pos > CHUNK_SIZE {
      assert data[pos..][..CHUNK_SIZE] == data[pos..n];
      assert data[pos..][CHUNK_SIZE..] == data[n..];
    } else {
      assert data[n..] == [] && data[pos..] == data[pos..n];
      assert Chunks(data[pos..]) == [data[pos..]];
      assert Chunks(data[n..]) == [];
    }
  }
}
