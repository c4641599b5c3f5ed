/** Buffer.h and Buffer.cpp: the byte array updated in place refines a byte queue. */
module Buffers {
  import opened BufferLayout
  import opened Kernel

  const EXTRA: nat := 65536   // sizeof(extrabuf)

  /** std::copy of `bytes` into `block` from position `at`. */
  method CopyIn(block: array<Byte>, at: nat, bytes: Bytes)
    requires at + |bytes| <= block.Length
    modifies block
    ensures block[..] == old(block[..at]) + bytes + old(block[at + |bytes|..])
  {
    var i := 0;
    while i < |bytes|
      invariant 0 <= i <= |bytes|
      invariant block[..at] == old(block[..at])
      invariant block[at..at + i] == bytes[..i]
      invariant block[at + i..] == old(block[at + i..])
    {
      block[at + i] := bytes[i];
      i := i + 1;
    }
    assert block[..] == block[..at] + block[at..at + i] + block[at + i..];
  }

  /**
   std::copy within one block, forward and one byte at a time.  The ranges may
   overlap; the copy is right because the source lies past the destination.
   */
  method CopyDown(block: array<Byte>, from: nat, to: nat, len: nat)
    requires to < from && from + len <= block.Length
    modifies block
    ensures block[..] == old(block[..to]) + old(block[from..from + len]) + old(block[to + len..])
  {
    ghost var before := block[..];
    var i := 0;
    while i < len
      invariant 0 <= i <= len
      invariant forall k :: to <= k < to + i ==> block[k] == before[k - to + from]
      invariant forall k :: 0 <= k < to || to + i <= k < block.Length ==> block[k] == before[k]
    {
      block[to + i] := block[from + i];
      i := i + 1;
    }
    ThreePieces(before, block[..], from, to, len);
  }

  lemma ThreePieces(before: Bytes, after: Bytes, from: nat, to: nat, len: nat)
    requires to < from && from + len <= |before| == |after|
    requires forall k :: to <= k < to + len ==> after[k] == before[k - to + from]
    requires forall k :: 0 <= k < to || to + len <= k < |after| ==> after[k] == before[k]
    ensures after == before[..to] + before[from..from + len] + before[to + len..]
  {
    assert after[to..to + len] == before[from..from + len];
    assert after == after[..to] + after[to..to + len] + after[to + len..];
  }

  class Buffer {
    var data: array<Byte>     // buffer_
    var readerIndex: nat
    var writerIndex: nat

    ghost predicate Valid()
      reads this
    {
      CHEAP_PREPEND <= data.Length && readerIndex <= writerIndex <= data.Length
    }

    /** The abstract byte queue. */
    ghost function Contents(): Bytes
      reads this, data
      requires Valid()
    {
      data[readerIndex..writerIndex]
    }

    ghost function Shape(): (l: Layout)
      reads this
      ensures Valid() ==> l.Valid()
    {
      Layout(data.Length, readerIndex, writerIndex)
    }

    constructor (initialSize: nat)
      ensures Valid() && fresh(data) && Contents() == [] && Shape() == New(initialSize)
    {
      data := new Byte[CHEAP_PREPEND + initialSize](_ => 0);
      readerIndex := CHEAP_PREPEND;
      writerIndex := CHEAP_PREPEND;
    }

    function ReadableBytes(): nat
      reads this
      requires Valid()
    {
      writerIndex - readerIndex
    }

    function WritableBytes(): nat
      reads this
      requires Valid()
    {
      data.Length - writerIndex
    }

    method RetrieveAll()
      requires Valid()
      modifies this`readerIndex, this`writerIndex
      ensures Valid() && Contents() == [] && Shape() == BufferLayout.Retrieve(old(Shape()), old(ReadableBytes()))
    {
      readerIndex := CHEAP_PREPEND;
      writerIndex := CHEAP_PREPEND;
    }

    /** Taking at least what is there empties the buffer. */
    method Retrieve(len: nat)
      requires Valid()
      modifies this`readerIndex, this`writerIndex
      ensures Valid() && Shape() == BufferLayout.Retrieve(old(Shape()), len)
      ensures Contents() == if len < |old(Contents())| then old(Contents())[len..] else []
    {
      if len < ReadableBytes() {
        readerIndex := readerIndex + len;
      } else {
        RetrieveAll();
      }
    }

    /**
     The code copies `len` bytes from peek() without comparing len with the
     readable length; staying inside the vector is all that keeps it safe.
     */
    method RetrieveAsString(len: nat) returns (result: Bytes)
      requires Valid() && readerIndex + len <= data.Length
      modifies this`readerIndex, this`writerIndex
      ensures Valid() && |result| == len && Shape() == BufferLayout.Retrieve(old(Shape()), len)
      ensures len <= |old(Contents())| ==> old(Contents()) == result + Contents()
      ensures len > |old(Contents())| ==> old(Contents()) <= result && Contents() == []
    {
      result := data[readerIndex..readerIndex + len];
      Retrieve(len);
    }

    /** vector::resize to a larger size: a new block, the old bytes, then zeros. */
    method Resize(size: nat)
      requires Valid() && data.Length <= size
      modifies this`data
      ensures fresh(data) && data.Length == size && data[..old(data.Length)] == old(data[..]) && Valid()
    {
      var wider := new Byte[size](_ => 0);
      CopyIn(wider, 0, data[..]);
      assert wider[..data.Length] == wider[..][..data.Length];
      data := wider;
    }

    /** The second branch of makeSPace. */
    method SlideDown()
      requires Valid() && CHEAP_PREPEND < readerIndex
      modifies this`readerIndex, this`writerIndex, data
      ensures Valid() && Contents() == old(Contents())
      ensures Shape() == Layout(data.Length, CHEAP_PREPEND, CHEAP_PREPEND + old(ReadableBytes()))
    {
      var readable := ReadableBytes();
      CopyDown(data, readerIndex, CHEAP_PREPEND, readable);
      readerIndex := CHEAP_PREPEND;
      writerIndex := readerIndex + readable;
    }

    method MakeSpace(len: nat)
      requires Valid() && WritableBytes() < len
      modifies this, data
      ensures Valid() && Contents() == old(Contents()) && WritableBytes() >= len
      ensures Shape() == BufferLayout.MakeSpace(old(Shape()), len)
      ensures fresh(data) || data == old(data)
    {
      if WritableBytes() + readerIndex < len + CHEAP_PREPEND {
        Resize(writerIndex + len);
        assert data[..writerIndex] == old(data[..writerIndex]);
      } else {
        SlideDown();
      }
    }

    method EnsureWritableBytes(len: nat)
      requires Valid()
      modifies this, data
      ensures Valid() && Contents() == old(Contents()) && WritableBytes() >= len
      ensures Shape() == Ensure(old(Shape()), len)
      ensures fresh(data) || data == old(data)
    {
      if WritableBytes() < len {
        MakeSpace(len);
      }
    }

    /** Write into the tail of the vector, behind the readable bytes. */
    method FillTail(bytes: Bytes)
      requires Valid() && |bytes| <= WritableBytes()
      modifies data
      ensures Contents() == old(Contents()) && data[writerIndex..writerIndex + |bytes|] == bytes
    {
      ghost var before := data[..];
      CopyIn(data, writerIndex, bytes);
      assert data[readerIndex..writerIndex] == data[..][readerIndex..writerIndex] == before[readerIndex..writerIndex];
      assert data[writerIndex..writerIndex + |bytes|] == data[..][writerIndex..writerIndex + |bytes|];
    }

    /** Make bytes already written behind the readable ones readable. */
    method HasWritten(ghost bytes: Bytes, n: nat)
      requires Valid() && n == |bytes| <= WritableBytes() && data[writerIndex..writerIndex + n] == bytes
      modifies this`writerIndex
      ensures Valid() && Contents() == old(Contents()) + bytes
      ensures writerIndex == old(writerIndex) + n
    {
      assert data[readerIndex..writerIndex + n] == data[readerIndex..writerIndex] + data[writerIndex..writerIndex + n];
      writerIndex := writerIndex + n;
    }

    method Append(bytes: Bytes)
      requires Valid()
      modifies this, data
      ensures Valid() && Contents() == old(Contents()) + bytes
      ensures Shape() == BufferLayout.Append(old(Shape()), |bytes|)
      ensures fresh(data) || data == old(data)
    {
      EnsureWritableBytes(|bytes|);
      Commit(bytes);
    }

    /** The precondition is the assert of line 81. */
    method Prepend(bytes: Bytes)
      requires Valid() && |bytes| <= readerIndex
      modifies this`readerIndex, data
      ensures Valid() && Contents() == bytes + old(Contents())
      ensures Shape() == BufferLayout.Prepend(old(Shape()), |bytes|)
    {
      readerIndex := readerIndex - |bytes|;
      ghost var before := data[..];
      CopyIn(data, readerIndex, bytes);
      assert data[readerIndex..writerIndex] == data[..][readerIndex..writerIndex];
      assert before[readerIndex + |bytes|..writerIndex] == old(Contents());
    }

    /** How many bytes the iovec array of readFd can take. */
    function ReadRoom(): nat
      reads this
      requires Valid()
    {
      WritableBytes() + if WritableBytes() < EXTRA then EXTRA else 0
    }

    /** Whatever readv delivers into the two blocks ends up, in order, behind the readable bytes. */
    method ReadFd(kernel: ReadResult) returns (n: int, savedErrno: int)
      requires Valid() && (kernel.Arrived? ==> |kernel.data| <= ReadRoom())
      modifies this, data
      ensures Valid() && (fresh(data) || data == old(data))
      ensures kernel.Arrived? ==> n == |kernel.data| && Contents() == old(Contents()) + kernel.data
      ensures kernel.Arrived? ==> Shape() == BufferLayout.ReadFd(old(Shape()), |kernel.data|)
      ensures kernel.ReadFailed? ==> n == -1 && savedErrno == kernel.errno && Contents() == old(Contents()) && Shape() == old(Shape())
    {
      savedErrno := 0;
      match kernel {
        case ReadFailed(errno) =>
          n, savedErrno := -1, errno;
        case Arrived(bytes) =>
          n := |bytes|;
          Receive(bytes);
      }
    }

    method Receive(bytes: Bytes)
      requires Valid() && |bytes| <= ReadRoom()
      modifies this, data
      ensures Valid() && (fresh(data) || data == old(data))
      ensures Contents() == old(Contents()) + bytes && Shape() == BufferLayout.ReadFd(old(Shape()), |bytes|)
    {
      var writable := WritableBytes();
      if |bytes| <= writable {
        Commit(bytes);
      } else {
        Overflow(bytes[..writable], bytes[writable..]);
        assert bytes == bytes[..writable] + bytes[writable..];
      }
    }

    /** The second block is the stack buffer; what landed there is appended. */
    method Overflow(first: Bytes, extrabuf: Bytes)
      requires Valid() && |first| == WritableBytes() && extrabuf != []
      modifies this, data
      ensures Valid() && (fresh(data) || data == old(data))
      ensures Contents() == old(Contents()) + first + extrabuf
      ensures Shape() == BufferLayout.ReadFd(old(Shape()), |first| + |extrabuf|)
    {
      Commit(first);
      Append(extrabuf);
    }

    /** Bytes written into the tail and made readable. */
    method Commit(bytes: Bytes)
      requires Valid() && |bytes| <= WritableBytes()
      modifies this`writerIndex, data
      ensures Valid() && Contents() == old(Contents()) + bytes && writerIndex == old(writerIndex) + |bytes|
    {
      FillTail(bytes);
      HasWritten(bytes, |bytes|);
    }

    /** write(fd, peek(), readableBytes()): the buffer is only read. */
    method WriteFd(kernel: WriteResult) returns (n: int, savedErrno: int, sent: Bytes)
      requires Valid() && (kernel.Wrote? ==> kernel.n <= ReadableBytes())
      ensures kernel.Wrote? ==> n == kernel.n && sent == Contents()[..kernel.n]
      ensures kernel.WriteFailed? ==> n == -1 && savedErrno == kernel.errno && sent == []
    {
      savedErrno, sent := 0, [];
      match kernel {
        case WriteFailed(errno) => n, savedErrno := -1, errno;
        case Wrote(k) => n, sent := k, data[readerIndex..readerIndex + k];
      }
    }
  }
}
