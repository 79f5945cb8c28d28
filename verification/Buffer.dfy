/**
 The Buffer class (src/buffer.h, src/buffer.cc): one heap block, a vector size and two indices,
 all changed in place.  Each method is proved to do to the storage exactly what the function of the
 same name in ByteBuffer does; what that means for the queue of bytes is proved there.
 */
module BufferObject {
  import opened ByteBuffer

  class Buffer {
    var data: array<Byte>
    var size: nat
    var readIndex: nat
    var writeIndex: nat

    ghost predicate Valid()
      reads this
    {
      readIndex <= writeIndex <= data.Length && size <= data.Length
    }

    ghost function Model(): Buf
      reads this, data
    {
      Buf(data[..], size, readIndex, writeIndex)
    }

    ghost predicate Exact()
      reads this
    {
      Valid() && size == data.Length
    }

    constructor (initSize: nat)
      ensures Exact() && fresh(data)
      ensures Model() == New(initSize)
    {
      data := new Byte[initSize](_ => 0);
      size, readIndex, writeIndex := initSize, 0, 0;
      new;
      assert data[..] == Zeros(initSize);
    }

    method PushState(len: nat)
      requires Valid()
      modifies this`readIndex, this`writeIndex
      ensures Valid()
      ensures Model().Contents() == if len <= |old(Model().Contents())| then old(Model().Contents())[len..] else []
      ensures Model() == ByteBuffer.PushState(old(Model()), len)
    {
      PushStateDrops(Model(), len);
      if len < writeIndex - readIndex {
        readIndex := readIndex + len;
      } else {
        readIndex, writeIndex := 0, 0;
      }
    }

    /** The source builds the string from `len` bytes at the read index without looking at the
        write index: asking for more than is readable hands out stale bytes of the block. */
    method Get(len: nat) returns (r: seq<Byte>)
      requires Valid() && readIndex + len <= data.Length
      modifies this`readIndex, this`writeIndex
      ensures Valid()
      ensures Model() == ByteBuffer.PushState(old(Model()), len)
      ensures r == old(data[readIndex..readIndex + len])
      ensures len <= old(Model()).Readable() ==> r == old(Model()).Contents()[..len]
    {
      r := data[readIndex..readIndex + len];
      PushState(len);
    }

    method GetAll() returns (r: seq<Byte>)
      requires Valid()
      modifies this`readIndex, this`writeIndex
      ensures Valid() && r == old(Model()).Contents()
      ensures Model().Contents() == [] && Model().mem == old(Model()).mem && size == old(size)
    {
      r := Get(writeIndex - readIndex);
    }

    /** vector::resize(n) past the current capacity: allocate, copy the `size` elements, zero the
        new ones.  `slack` is the uninitialised tail the allocator adds. */
    method Reallocate(n: nat, slack: seq<Byte>)
      requires Valid() && data.Length < n
      modifies this`data, this`size
      ensures Valid() && fresh(data)
      ensures Model() == Resize(old(Model()), n, slack)
    {
      var block := new Byte[n + |slack|](_ => 0);
      for i := 0 to size
        modifies block
        invariant block[..i] == data[..i]
        invariant forall k :: i <= k < block.Length ==> block[k] == 0
      {
        block[i] := data[i];
        assert block[..i + 1] == block[..i] + [data[i]];
      }
      for i := 0 to |slack|
        modifies block
        invariant block[..size] == data[..size]
        invariant forall k :: size <= k < n ==> block[k] == 0
        invariant block[n..n + i] == slack[..i]
      {
        block[n + i] := slack[i];
        assert block[n..n + i + 1] == block[n..n + i] + [slack[i]];
      }
      assert block[n..] == slack && block[size..n] == Zeros(n - size);
      assert block[..] == data[..size] + Zeros(n - size) + slack;
      data, size := block, n;
    }

    /** The overlapping move of the readable bytes to the front of the block, front to back. */
    method MoveToFront()
      requires Valid()
      modifies this`readIndex, this`writeIndex, data
      ensures Valid() && data == old(data)
      ensures Model() == Compact(old(Model()))
    {
      var readable := writeIndex - readIndex;
      for i := 0 to readable
        modifies data
        invariant data[..i] == old(data[readIndex..readIndex + i])
        invariant data[i..] == old(data[i..])
      {
        var next := data[readIndex + i];
        assert next == data[i..][readIndex] == old(data[readIndex + i]);
        ghost var before := data[..];
        data[i] := next;
        assert data[..i + 1] == before[..i] + [next];
        assert data[i + 1..] == before[i..][1..];
      }
      assert data[..] == data[..readable] + data[readable..];
      readIndex, writeIndex := 0, readable;
    }

    method MakeSpace(len: nat, slack: seq<Byte>)
      requires Valid() && data.Length - writeIndex < len
      modifies this, data
      ensures Valid() && (data == old(data) || fresh(data))
      ensures Model() == ByteBuffer.MakeSpace(old(Model()), len, slack)
    {
      if data.Length - writeIndex + readIndex < len {
        Reallocate(writeIndex + len, slack);
      } else {
        MoveToFront();
      }
    }

    method Put(bytes: seq<Byte>, slack: seq<Byte>)
      requires Valid()
      modifies this, data
      ensures Valid() && (data == old(data) || fresh(data))
      ensures Model() == ByteBuffer.Put(old(Model()), bytes, slack)
    {
      if data.Length - writeIndex < |bytes| {
        MakeSpace(|bytes|, slack);
      }
      assert Model() == CheckBuffer(old(Model()), |bytes|, slack);
      CopyIn(bytes);
      writeIndex := writeIndex + |bytes|;
    }

    /** std::copy (or the kernel's copy) to the write index. */
    method CopyIn(bytes: seq<Byte>)
      requires Valid() && writeIndex + |bytes| <= data.Length
      modifies data
      ensures data[..] == Store(old(data[..]), writeIndex, bytes)
    {
      for i := 0 to |bytes|
        invariant forall k :: 0 <= k < data.Length ==>
          data[k] == if writeIndex <= k < writeIndex + i then bytes[k - writeIndex] else old(data[k])
      {
        data[writeIndex + i] := bytes[i];
      }
      assert data[..] == Store(old(data[..]), writeIndex, bytes);
    }

    /** readv into the block and the stack buffer: the kernel delivers `bytes`, filling the block
        first.  `defined` is false where resetting write_index_ to size() would put it before
        read_index_; the source's arithmetic means nothing from there on, and the method stops with
        the block filled and the indices as they were. */
    method Read(bytes: seq<Byte>, slack: seq<Byte>) returns (n: nat, defined: bool)
      requires Valid() && LegalRead(Model(), |bytes|)
      modifies this, data
      ensures Valid() && (data == old(data) || fresh(data))
      ensures n == |bytes|
      ensures defined <==> ByteBuffer.Read(old(Model()), bytes, slack).Done?
      ensures defined ==> Done(Model()) == ByteBuffer.Read(old(Model()), bytes, slack)
      ensures old(Exact()) ==> defined
    {
      n, defined := |bytes|, true;
      var room := data.Length - writeIndex;
      if n <= room {
        CopyIn(bytes);
        writeIndex := writeIndex + n;
      } else {
        CopyIn(bytes[..room]);
        if size < readIndex {
          defined := false;
        } else {
          writeIndex := size;
          Put(bytes[room..], slack);
        }
      }
    }
  }
}
