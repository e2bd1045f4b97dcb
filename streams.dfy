/**
 * A binary file object (`BinaryIO`: `BytesIO`, a temporary file, an S3 body
 * stream) as the backend uses it: a byte buffer and a position that reads,
 * writes and seeks move.
 */
module Streams {
  /** The size the S3 gateway reads per chunk (1 MiB). */
  const CHUNK_SIZE := 1024 * 1024

  /** `min(a, b)` on naturals. */
  function MinNat(a: nat, b: nat): (r: nat)
    ensures r <= a && r <= b && (r == a || r == b)
  {
    if a <= b then a else b
  }

  /** The bytes `Read(n)` returns from position `pos`: at most `n`, never past the end. */
  function ChunkAt(data: seq<bv8>, pos: nat, n: nat): (chunk: seq<bv8>)
    requires pos <= |data|
    ensures |chunk| == MinNat(n, |data| - pos)
    ensures data[..pos] + chunk == data[..pos + |chunk|]
    ensures chunk == [] <==> n == 0 || pos == |data|
  {
    data[pos..pos + MinNat(n, |data| - pos)]
  }

  /** The buffer after writing `chunk` at `pos`: the bytes before `pos` are kept, the chunk overwrites or extends. */
  function Overwrite(data: seq<bv8>, pos: nat, chunk: seq<bv8>): (r: seq<bv8>)
    requires pos <= |data|
    ensures |r| == if pos + |chunk| <= |data| then |data| else pos + |chunk|
    ensures r[..pos] == data[..pos]
    ensures r[pos..pos + |chunk|] == chunk
    ensures pos == |data| ==> r == data + chunk
  {
    data[..pos] + chunk + (if pos + |chunk| <= |data| then data[pos + |chunk|..] else [])
  }

  class ByteStream {
    var data: seq<bv8>
    var pos: nat

    predicate Valid()
      reads this
    {
      pos <= |data|
    }

    /** `BytesIO(initial)`, or a freshly opened file over these bytes. */
    constructor (initial: seq<bv8>)
      ensures Valid() && data == initial && pos == 0
    {
      data := initial;
      pos := 0;
    }

    /** `seek(0)` */
    method Rewind()
      modifies this`pos
      ensures pos == 0
    {
      pos := 0;
    }

    /** `seek(0, 2)` */
    method SeekEnd()
      modifies this`pos
      ensures pos == |data|
    {
      pos := |data|;
    }

    /** `tell()` */
    method Tell() returns (p: nat)
      ensures p == pos
    {
      p := pos;
    }

    /** `read(n)`: up to `n` bytes from the position, which moves past them. */
    method Read(n: nat) returns (chunk: seq<bv8>)
      requires Valid()
      modifies this`pos
      ensures Valid()
      ensures chunk == ChunkAt(data, old(pos), n)
      ensures pos == old(pos) + |chunk|
    {
      chunk := ChunkAt(data, pos, n);
      pos := pos + |chunk|;
    }

    /** `write(chunk)` at the position, which moves past the written bytes. */
    method Write(chunk: seq<bv8>)
      requires Valid()
      modifies this
      ensures Valid()
      ensures data == Overwrite(old(data), old(pos), chunk)
      ensures pos == old(pos) + |chunk|
    {
      data := Overwrite(data, pos, chunk);
      pos := pos + |chunk|;
    }
  }
}
