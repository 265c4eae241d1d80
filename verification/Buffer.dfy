/** The network buffer: one growable array with a reader and a writer index. */
module Buffers {
  import opened Prelude
  import opened BufferSpec

  class Buffer {
    var buffer: array<Byte>
    var readerIndex: nat
    var writerIndex: nat

    ghost predicate Valid()
      reads this
    {
      CHEAP_PREPEND <= readerIndex <= writerIndex <= buffer.Length
    }

    ghost function View(): (l: Layout)
      reads this, buffer
      requires Valid()
      ensures l.Valid() && l.Writer() == writerIndex
    {
      Layout(buffer.Length, readerIndex, buffer[readerIndex..writerIndex])
    }

    constructor (initialSize: nat := INITIAL_SIZE)
      ensures Valid() && fresh(buffer)
      ensures View() == Fresh(initialSize)
    {
      buffer := new Byte[CHEAP_PREPEND + initialSize](_ => 0);
      readerIndex := CHEAP_PREPEND;
      writerIndex := CHEAP_PREPEND;
    }

    function ReadableBytes(): (n: nat)
      reads this, buffer
      requires Valid()
      ensures n == |View().bytes|
    {
      writerIndex - readerIndex
    }

    function WritableBytes(): (n: nat)
      reads this, buffer
      requires Valid()
      ensures n == View().Writable()
    {
      buffer.Length - writerIndex
    }

    method Retrieve(len: nat)
      requires Valid()
      modifies this`readerIndex, this`writerIndex
      ensures Valid() && View() == BufferSpec.Retrieve(old(View()), len)
    {
      if len < ReadableBytes() {
        readerIndex := readerIndex + len;
        assert buffer[readerIndex..writerIndex] == old(buffer[readerIndex..writerIndex])[len..];
      } else {
        RetrieveAll();
      }
    }

    method RetrieveAll()
      requires Valid()
      modifies this`readerIndex, this`writerIndex
      ensures Valid() && View() == BufferSpec.RetrieveAll(old(View()))
      ensures WritableBytes() == buffer.Length - CHEAP_PREPEND
    {
      readerIndex := CHEAP_PREPEND;
      writerIndex := CHEAP_PREPEND;
    }

    method RetrieveAsString(len: nat) returns (result: seq<Byte>)
      requires Valid() && len <= ReadableBytes()
      modifies this`readerIndex, this`writerIndex
      ensures Valid() && View() == BufferSpec.Retrieve(old(View()), len)
      ensures result + View().bytes == old(View()).bytes
    {
      result := buffer[readerIndex..readerIndex + len];
      Retrieve(len);
    }

    method RetrieveAllAsString() returns (result: seq<Byte>)
      requires Valid()
      modifies this`readerIndex, this`writerIndex
      ensures Valid() && View() == BufferSpec.RetrieveAll(old(View()))
      ensures result == old(View()).bytes
    {
      result := RetrieveAsString(ReadableBytes());
    }

    /** vector::resize to a larger size. */
    method Resize(size: nat)
      requires Valid() && buffer.Length <= size
      modifies this`buffer
      ensures Valid() && fresh(buffer) && View() == old(View()).(size := size)
    {
      ghost var was := View().bytes;
      var from := buffer[..];
      buffer := new Byte[size](i => if 0 <= i < |from| then from[i] else 0);
      assert buffer[readerIndex..writerIndex] == was;
    }

    /** The forward copy reads ahead of what it writes, because the reader is above the prepend area. */
    method SlideDown(readable: nat)
      requires Valid() && readable == ReadableBytes() && CHEAP_PREPEND < readerIndex
      modifies buffer
      ensures buffer[CHEAP_PREPEND..CHEAP_PREPEND + readable] == old(View()).bytes
    {
      ghost var was := View().bytes;
      for i := 0 to readable
        invariant buffer[CHEAP_PREPEND..CHEAP_PREPEND + i] == was[..i]
        invariant buffer[readerIndex + i..writerIndex] == was[i..]
      {
        assert buffer[readerIndex + i] == buffer[readerIndex + i..writerIndex][0];
        buffer[CHEAP_PREPEND + i] := buffer[readerIndex + i];
      }
    }

    method MakeSpace(len: nat)
      requires Valid() && WritableBytes() < len
      modifies this, buffer
      ensures Valid() && View() == BufferSpec.MakeSpace(old(View()), len)
      ensures buffer == old(buffer) || fresh(buffer)
    {
      CompactionMovesDown(View(), len);
      if WritableBytes() + readerIndex < len + CHEAP_PREPEND {
        Resize(writerIndex + len);
      } else {
        var readable := ReadableBytes();
        SlideDown(readable);
        readerIndex := CHEAP_PREPEND;
        writerIndex := readerIndex + readable;
      }
    }

    method EnsureWritableBytes(len: nat)
      requires Valid()
      modifies this, buffer
      ensures Valid() && View() == EnsureWritable(old(View()), len)
      ensures buffer == old(buffer) || fresh(buffer)
    {
      if WritableBytes() < len {
        MakeSpace(len);
      }
    }

    method Append(data: seq<Byte>)
      requires Valid()
      modifies this, buffer
      ensures Valid() && View() == BufferSpec.Append(old(View()), data)
      ensures View().bytes == old(View()).bytes + data
      ensures buffer == old(buffer) || fresh(buffer)
    {
      EnsureWritableMakesRoom(View(), |data|);
      EnsureWritableBytes(|data|);
      CopyIn(data);
      HasWritten(data);
    }

    /** Write `data` behind the writer index; nothing before that index changes. */
    method CopyIn(data: seq<Byte>)
      requires Valid() && |data| <= WritableBytes()
      modifies buffer
      ensures View() == old(View())
      ensures buffer[writerIndex..writerIndex + |data|] == data
    {
      for i := 0 to |data|
        invariant View() == old(View())
        invariant buffer[writerIndex..writerIndex + i] == data[..i]
      {
        buffer[writerIndex + i] := data[i];
      }
    }

    /** The kernel's side of readv: fill the free space of the buffer, then the stack buffer. */
    method Readv(data: seq<Byte>, extra: array<Byte>)
      requires Valid() && extra != buffer && extra.Length == EXTRA_BUF_SIZE
      requires |data| <= ReadCapacity(View())
      modifies buffer, extra
      ensures View() == old(View())
      ensures var n := Min(|data|, WritableBytes());
              && buffer[writerIndex..writerIndex + n] == data[..n]
              && |data| - n <= EXTRA_BUF_SIZE && extra[..|data| - n] == data[n..]
    {
      var n := Min(|data|, WritableBytes());
      CopyIn(data[..n]);
      for i := 0 to |data| - n
        invariant View() == old(View())
        invariant buffer[writerIndex..writerIndex + n] == data[..n]
        invariant extra[..i] == data[n..n + i]
      {
        extra[i] := data[n + i];
      }
    }

    /** Bytes already written behind the writer index become readable. */
    method HasWritten(data: seq<Byte>)
      requires Valid() && |data| <= WritableBytes() && buffer[writerIndex..writerIndex + |data|] == data
      modifies this`writerIndex
      ensures Valid() && View() == old(View()).(bytes := old(View()).bytes + data)
    {
      ghost var was := View().bytes;
      writerIndex := writerIndex + |data|;
      assert buffer[readerIndex..writerIndex] == was + data;
    }

    /** Read once from a descriptor; `answer` is what readv makes of it. */
    method ReadFd(answer: ReadResult) returns (n: int, savedErrno: int)
      requires Valid()
      requires answer.ReadOk? ==> |answer.data| <= ReadCapacity(View())
      modifies this, buffer
      ensures Valid() && View() == Apply(old(View()), OpReadFd(answer))
      ensures answer.ReadOk? ==> savedErrno == 0 && n == |answer.data|
      ensures answer.ReadOk? ==> View().bytes == old(View()).bytes + answer.data
      ensures answer.ReadFailed? ==> n == -1 && savedErrno == answer.errno
      ensures buffer == old(buffer) || fresh(buffer)
    {
      savedErrno := 0;
      var extraBuf := new Byte[EXTRA_BUF_SIZE](_ => 0);
      var writable := WritableBytes();
      match answer
      case ReadFailed(errno) =>
        n, savedErrno := -1, errno;
      case ReadOk(data) =>
        ScatterReadIsExact(View(), data);
        Readv(data, extraBuf);
        n := |data|;
        if n <= writable {
          HasWritten(data);
        } else {
          HasWritten(data[..writable]);
          assert writerIndex == buffer.Length;
          Append(extraBuf[..n - writable]);
        }
    }

    /** One write of all the readable bytes; nothing is offered when there are none. An error is saved for
        the caller, and only then. */
    method WriteFd(answer: WriteResult) returns (n: int, savedErrno: Option<Errno>)
      requires Valid()
      ensures n == WriteCount(View(), answer)
      ensures savedErrno == if n < 0 then Some(answer.errno) else None
      ensures n < 0 <==> View().bytes != [] && answer.WriteFailed?
      ensures View().bytes != [] && answer.Wrote? && answer.n <= |View().bytes| ==> n == answer.n
    {
      savedErrno := None;
      var readable := ReadableBytes();
      if readable == 0 {
        return 0, None;
      }
      if answer.WriteFailed? {
        return -1, Some(answer.errno);
      }
      n := Taken(answer, readable);
    }
  }
}
