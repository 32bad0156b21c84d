/**
 * Where a chunk lives inside an encrypted blob.
 *
 * Every chunk carries up to CHUNK_SIZE bytes of a file plus OVERHEAD bytes of
 * authentication data, and is stored at a fixed stride, so that a file position is
 * computed from the chunk index alone. A blob is a plain byte string: writing past
 * its end leaves a hole of zero bytes, as a sparse file does.
 */
module Slots {
  import opened Outcomes
  import opened Bytes

  const CHUNK_SIZE: nat := 32768
  const OVERHEAD: nat := 28
  const STRIDE: nat := 32796

  /** How many chunks one request may name. */
  const BATCH_CHUNKS: nat := 16

  /** Number of chunks of a file: at least one, even for an empty file. */
  function ChunkCount(size: nat): (n: nat)
    ensures n >= 1
    ensures (n - 1) * CHUNK_SIZE <= size <= n * CHUNK_SIZE
    ensures size > 0 ==> (n - 1) * CHUNK_SIZE < size
  {
    if size == 0 then 1 else (size + CHUNK_SIZE - 1) / CHUNK_SIZE
  }

  /** Bytes of the file carried by chunk `index`. */
  function ContentLength(size: nat, index: nat): (n: nat)
    ensures n <= CHUNK_SIZE
  {
    if size <= index * CHUNK_SIZE then 0
    else if size - index * CHUNK_SIZE < CHUNK_SIZE then size - index * CHUNK_SIZE
    else CHUNK_SIZE
  }

  function PayloadLength(size: nat, index: nat): (n: nat)
    ensures OVERHEAD <= n <= STRIDE
  {
    ContentLength(size, index) + OVERHEAD
  }

  function Offset(index: nat): nat
  {
    index * STRIDE
  }

  function Zeros(n: nat): (s: ByteString)
    ensures |s| == n
    ensures forall i :: 0 <= i < n ==> s[i] == 0
  {
    seq(n, _ => 0)
  }

  /** The blob after `data` was written at byte `offset`. */
  function WriteAt(blob: ByteString, offset: nat, data: ByteString): ByteString
  {
    if offset + |data| <= |blob| then
      blob[..offset] + data + blob[offset + |data|..]
    else if offset <= |blob| then
      blob[..offset] + data
    else
      blob + Zeros(offset - |blob|) + data
  }

  /** A write changes exactly its own bytes; a hole in front of it reads as zero. */
  lemma WrittenBytes(blob: ByteString, offset: nat, data: ByteString)
    ensures
      var r := WriteAt(blob, offset, data);
      && |r| == (if |blob| < offset + |data| then offset + |data| else |blob|)
      && (forall k :: offset <= k < offset + |data| ==> r[k] == data[k - offset])
      && (forall k :: 0 <= k < |r| && !(offset <= k < offset + |data|) ==> r[k] == ByteAt(blob, k))
  {
  }

  /** Byte `k` of a blob, reading holes and the space past the end as zero. */
  function ByteAt(blob: ByteString, k: nat): Byte
  {
    if k < |blob| then blob[k] else 0
  }

  /** What a full read of `length` bytes at `offset` yields; a short read fails. */
  function ReadAt(blob: ByteString, offset: nat, length: nat): Option<ByteString>
  {
    if offset + length <= |blob| then Some(blob[offset..offset + length]) else None
  }

  function ReadSlot(blob: ByteString, index: nat, length: nat): Option<ByteString>
  {
    ReadAt(blob, Offset(index), length)
  }

  function WriteSlot(blob: ByteString, index: nat, data: ByteString): ByteString
  {
    WriteAt(blob, Offset(index), data)
  }

  lemma ReadBackSlot(blob: ByteString, index: nat, data: ByteString)
    ensures ReadSlot(WriteSlot(blob, index, data), index, |data|) == Some(data)
  {
    var r := WriteSlot(blob, index, data);
    WrittenBytes(blob, Offset(index), data);
    assert r[Offset(index)..Offset(index) + |data|] == data;
  }

  /** Slots never overlap: a write inside one slot is invisible through any other. */
  lemma OtherSlotUntouched(blob: ByteString, index: nat, data: ByteString, other: nat, length: nat)
    requires index != other
    requires |data| <= STRIDE && length <= STRIDE
    requires ReadSlot(blob, other, length).Some?
    ensures ReadSlot(WriteSlot(blob, index, data), other, length) == ReadSlot(blob, other, length)
  {
    var r := WriteSlot(blob, index, data);
    var o := Offset(other);
    WrittenBytes(blob, Offset(index), data);
    assert o + STRIDE <= Offset(index) || Offset(index) + STRIDE <= o;
    assert r[o..o + length] == blob[o..o + length];
  }

  /** Writes to different slots commute, byte for byte and including the holes. */
  lemma WritesCommute(blob: ByteString, i: nat, a: ByteString, j: nat, b: ByteString)
    requires i != j
    requires |a| <= STRIDE && |b| <= STRIDE
    ensures WriteSlot(WriteSlot(blob, i, a), j, b) == WriteSlot(WriteSlot(blob, j, b), i, a)
  {
    var x := WriteSlot(blob, i, a);
    var y := WriteSlot(blob, j, b);
    var xy := WriteSlot(x, j, b);
    var yx := WriteSlot(y, i, a);
    WrittenBytes(blob, Offset(i), a);
    WrittenBytes(blob, Offset(j), b);
    WrittenBytes(x, Offset(j), b);
    WrittenBytes(y, Offset(i), a);
    assert Offset(i) + STRIDE <= Offset(j) || Offset(j) + STRIDE <= Offset(i);
    assert |xy| == |yx|;
    forall k | 0 <= k < |xy|
      ensures xy[k] == yx[k]
    {
    }
    assert xy == yx;
  }

  /** Total file content carried by the first `n` chunks. */
  function ContentUpTo(size: nat, n: nat): nat
  {
    if n == 0 then 0 else ContentUpTo(size, n - 1) + ContentLength(size, n - 1)
  }

  lemma {:induction false} ContentPrefix(size: nat, n: nat)
    ensures ContentUpTo(size, n) == if size <= n * CHUNK_SIZE then size else n * CHUNK_SIZE
  {
    if n > 0 {
      ContentPrefix(size, n - 1);
    }
  }

  /** The payloads of a complete file, without their overhead, add up to the file. */
  lemma PayloadsCoverFile(size: nat)
    ensures ContentUpTo(size, ChunkCount(size)) == size
  {
    ContentPrefix(size, ChunkCount(size));
  }

  /** The indices below n. */
  function Below(n: nat): (s: set<nat>)
    ensures forall i: nat :: i in s <==> i < n
  {
    if n == 0 then {} else Below(n - 1) + {n - 1}
  }

  lemma {:induction false} BelowSize(n: nat)
    ensures |Below(n)| == n
  {
    if n > 0 {
      BelowSize(n - 1);
    }
  }

  /** Pigeonhole: `count` different indices below `count` are all of them. */
  lemma CountFillsRange(indices: set<nat>, count: nat)
    requires forall i :: i in indices ==> i < count
    requires |indices| == count
    ensures forall i: nat :: i < count ==> i in indices
  {
    BelowSize(count);
    assert indices <= Below(count);
    if exists i: nat :: i < count && i !in indices {
      var i: nat :| i < count && i !in indices;
      assert indices < Below(count);
      ProperSubsetIsSmaller(indices, Below(count));
    }
  }

  lemma ProperSubsetIsSmaller(a: set<nat>, b: set<nat>)
    requires a < b
    ensures |a| < |b|
  {
    assert |b - a| + |a| == |b| by {
      assert (b - a) + a == b && (b - a) !! a;
    }
    assert b - a != {};
  }
}
