/**
 The network Buffer: a growable array with a reserved head, a reader index and a writer index.  Its
 readable bytes are a byte queue; the kernel's readv and write are given as their outcomes.
 */
module NetBuffer {
  import opened Bytes

  const CHEAP_PREPEND: nat := 8
  const EXTRA_SIZE: nat := 65536

  // ---------------------------------------------------------------- the byte queue

  /** retrieve: drop `len` bytes, or everything if there are no more than that. */
  function Dropped(contents: seq<Byte>, len: nat): seq<Byte> {
    if len < |contents| then contents[len..] else []
  }

  datatype Op = Put(bytes: seq<Byte>) | Take(len: nat)

  /** The contents after `ops`, everything put in, and everything taken out. */
  datatype Trace = Trace(contents: seq<Byte>, put: seq<Byte>, taken: seq<Byte>)

  function Replay(ops: seq<Op>): Trace {
    if ops == [] then Trace([], [], [])
    else
      var t := Replay(ops[..|ops| - 1]);
      match ops[|ops| - 1]
      case Put(bytes) => Trace(t.contents + bytes, t.put + bytes, t.taken)
      case Take(len) =>
        var n := if len < |t.contents| then len else |t.contents|;
        Trace(Dropped(t.contents, len), t.put, t.taken + t.contents[..n])
  }

  /** First in, first out: whatever the operations, the bytes taken followed by the bytes left are
      the bytes put in. */
  lemma {:induction false} FirstInFirstOut(ops: seq<Op>)
    ensures Replay(ops).taken + Replay(ops).contents == Replay(ops).put
  {
    if ops != [] {
      var t := Replay(ops[..|ops| - 1]);
      FirstInFirstOut(ops[..|ops| - 1]);
      match ops[|ops| - 1]
      case Put(bytes) => Assoc(t.taken, t.contents, bytes);
      case Take(len) =>
        var n := if len < |t.contents| then len else |t.contents|;
        assert t.contents[..n] + Dropped(t.contents, len) == t.contents;
        Assoc(t.taken, t.contents[..n], Dropped(t.contents, len));
    }
  }

  // ---------------------------------------------------------------- the class

  /** What a system call answers. */
  datatype Io<T> = Done(value: T) | Error(errno: int)

  class Buffer {
    var data: array<Byte>
    var reader: nat
    var writer: nat

    ghost predicate Valid()
      reads this
    {
      CHEAP_PREPEND <= reader <= writer <= data.Length
    }

    ghost function Contents(): seq<Byte>
      requires Valid()
      reads this, data
    {
      data[reader..writer]
    }

    function ReadableBytes(): nat
      requires Valid()
      reads this
    {
      writer - reader
    }

    function WriteableBytes(): nat
      requires Valid()
      reads this
    {
      data.Length - writer
    }

    constructor (initialSize: nat)
      ensures Valid() && fresh(data) && Contents() == [] && data.Length == initialSize + CHEAP_PREPEND
    {
      data := new Byte[initialSize + CHEAP_PREPEND](_ => 0);
      reader, writer := CHEAP_PREPEND, CHEAP_PREPEND;
    }

    method Retrieve(len: nat)
      requires Valid()
      modifies `reader, `writer
      ensures Valid() && Contents() == Dropped(old(Contents()), len)
      ensures if len < |old(Contents())| then writer == old(writer) else reader == writer == CHEAP_PREPEND
    {
      if len < ReadableBytes() {
        reader := reader + len;
      } else {
        RetrieveAll();
      }
    }

    method RetrieveAll()
      requires Valid()
      modifies `reader, `writer
      ensures Valid() && Contents() == [] && reader == writer == CHEAP_PREPEND
    {
      reader, writer := CHEAP_PREPEND, CHEAP_PREPEND;
    }

    /** The source does not test `len`: beyond the readable bytes the result goes on with whatever the array
        holds, as far as the array reaches. */
    method RetrieveAsString(len: nat) returns (result: seq<Byte>)
      requires Valid() && reader + len <= data.Length
      modifies `reader, `writer
      ensures Valid() && |result| == len && Contents() == Dropped(old(Contents()), len)
      ensures if len <= |old(Contents())| then result == old(Contents())[..len] else old(Contents()) <= result
    {
      result := data[reader..reader + len];
      Retrieve(len);
    }

    method RetrieveAllAsString() returns (result: seq<Byte>)
      requires Valid()
      modifies `reader, `writer
      ensures Valid() && result == old(Contents()) && Contents() == []
    {
      result := RetrieveAsString(ReadableBytes());
    }

    method EnsureWriteableBytes(len: nat)
      requires Valid()
      modifies this, data
      ensures Valid() && Contents() == old(Contents()) && WriteableBytes() >= len
      ensures data == old(data) || fresh(data)
      ensures old(WriteableBytes()) >= len ==> data == old(data) && reader == old(reader) && writer == old(writer)
    {
      if WriteableBytes() < len {
        MakeSpace(len);
      }
    }

    /** std::copy of the readable bytes down to the reserved head, over itself. */
    method Compact()
      requires Valid()
      modifies data, `reader, `writer
      ensures Valid() && Contents() == old(Contents()) && reader == CHEAP_PREPEND
    {
      var readable := writer - reader;
      ghost var was := Contents();
      var i := 0;
      while i < readable
        invariant 0 <= i <= readable
        invariant reader == old(reader) && writer == old(writer)
        invariant forall k :: 0 <= k < i ==> data[CHEAP_PREPEND + k] == was[k]
        invariant forall k :: i <= k < readable ==> data[reader + k] == was[k]
      {
        data[CHEAP_PREPEND + i] := data[reader + i];
        i := i + 1;
      }
      reader := CHEAP_PREPEND;
      writer := reader + readable;
    }

    /** buffer_.resize(writerIndex_ + len). */
    method Grow(len: nat)
      requires Valid() && data.Length <= writer + len
      modifies `data
      ensures Valid() && Contents() == old(Contents()) && fresh(data) && data.Length == writer + len
    {
      var bigger := new Byte[writer + len](_ => 0);
      var i := 0;
      while i < data.Length
        invariant 0 <= i <= data.Length && data == old(data) && bigger.Length == writer + len
        invariant forall k :: 0 <= k < i ==> bigger[k] == data[k]
        invariant data[..] == old(data[..])
      {
        bigger[i] := data[i];
        i := i + 1;
      }
      data := bigger;
    }

    /** Grows, or compacts if the freed head and tail together are enough; compaction therefore moves
        bytes down, and leaves at least `len` writeable. */
    method MakeSpace(len: nat)
      requires Valid() && WriteableBytes() < len
      modifies this, data
      ensures Valid() && Contents() == old(Contents()) && WriteableBytes() >= len
      ensures if old(WriteableBytes() + reader) < len + CHEAP_PREPEND
              then fresh(data) && WriteableBytes() == len && reader == old(reader) && writer == old(writer)
              else data == old(data) && old(reader) > CHEAP_PREPEND && reader == CHEAP_PREPEND
    {
      if WriteableBytes() + reader < len + CHEAP_PREPEND {
        Grow(len);
      } else {
        Compact();
      }
    }

    method Append(bytes: seq<Byte>)
      requires Valid()
      modifies this, data
      ensures Valid() && Contents() == old(Contents()) + bytes
      ensures data == old(data) || fresh(data)
    {
      EnsureWriteableBytes(|bytes|);
      Store(bytes);
    }

    /** Bytes stored from the writer index on, which then moves behind them. */
    method Store(bytes: seq<Byte>)
      requires Valid() && |bytes| <= WriteableBytes()
      modifies `writer, data
      ensures Valid() && Contents() == old(Contents()) + bytes
    {
      CopyIn(bytes);
      assert data[reader..writer + |bytes|] == data[reader..writer] + data[writer..writer + |bytes|];
      assert data[reader..writer] == data[..writer][reader..] == old(data[..writer])[reader..];
      writer := writer + |bytes|;
    }

    /** std::copy, or the kernel, writes from the writer index on. */
    method CopyIn(bytes: seq<Byte>)
      requires Valid() && |bytes| <= WriteableBytes()
      modifies data
      ensures data[writer..writer + |bytes|] == bytes
      ensures data[..writer] == old(data[..writer])
    {
      var i := 0;
      while i < |bytes|
        invariant 0 <= i <= |bytes|
        invariant forall k :: 0 <= k < i ==> data[writer + k] == bytes[k]
        invariant forall k :: 0 <= k < writer ==> data[k] == old(data[k])
      {
        data[writer + i] := bytes[i];
        i := i + 1;
      }
    }

    /** readFd: readv delivers at most the writeable space plus, when that is below 64 KB, the 64 KB on
        the stack, or fails.  The two-part read equals one append; a failure changes nothing. */
    method ReadFd(result: Io<seq<Byte>>) returns (n: int, saveErrno: int)
      requires Valid()
      requires result.Done? ==>
                 |result.value| <= WriteableBytes() + (if WriteableBytes() < EXTRA_SIZE then EXTRA_SIZE else 0)
      modifies this, data
      ensures Valid() && (data == old(data) || fresh(data))
      ensures result.Done? ==> n == |result.value| && Contents() == old(Contents()) + result.value
      ensures result.Error? ==> n < 0 && saveErrno == result.errno && Contents() == old(Contents())
    {
      match result {
        case Error(errno) =>
          n, saveErrno := -1, errno;
        case Done(got) =>
          n, saveErrno := |got|, 0;
          TakeIn(got);
      }
    }

    method TakeIn(got: seq<Byte>)
      requires Valid()
      modifies this, data
      ensures Valid() && (data == old(data) || fresh(data)) && Contents() == old(Contents()) + got
    {
      var writeable := WriteableBytes();
      if |got| <= writeable {
        Store(got);
      } else {
        Store(got[..writeable]);
        Assoc(old(Contents()), got[..writeable], got[writeable..]);
        assert got == got[..writeable] + got[writeable..];
        Append(got[writeable..]);
      }
    }

    /** writeFd: the kernel takes a prefix of the readable bytes, or fails; nothing is retrieved yet. */
    method WriteFd(result: Io<nat>) returns (n: int, saveErrno: int, sent: seq<Byte>)
      requires Valid() && (result.Done? ==> result.value <= ReadableBytes())
      ensures result.Done? ==> n == result.value && sent == Contents()[..n]
      ensures result.Error? ==> n < 0 && saveErrno == result.errno && sent == []
    {
      match result {
        case Error(errno) => n, saveErrno, sent := -1, errno, [];
        case Done(count) => n, saveErrno, sent := count, 0, data[reader..reader + count];
      }
    }
  }
}
