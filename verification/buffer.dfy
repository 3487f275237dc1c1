/** The growable byte buffer: one array with a read and a write index, compacted
    and resized in place, proved against the byte queue of BufferModel. */
module Buffers {
  import opened Basics
  import opened Kernel
  import M = BufferModel

  /** `std::copy` within one array, element by element from the front. As the
      standard demands, the destination must not start inside the source. */
  method CopyWithin(a: array<Byte>, first: nat, last: nat, dest: nat)
    requires first <= last <= a.Length && dest + (last - first) <= a.Length
    requires !(first <= dest < last)
    modifies a
    ensures forall i :: 0 <= i < a.Length ==>
      a[i] == if dest <= i < dest + (last - first) then old(a[i - dest + first]) else old(a[i])
  {
    var from, to := first, dest;
    while from < last
      invariant first <= from <= last && to - dest == from - first
      invariant forall i :: 0 <= i < a.Length ==>
        a[i] == if dest <= i < to then old(a[i - dest + first]) else old(a[i])
    {
      a[to] := a[from];
      from, to := from + 1, to + 1;
    }
  }

  /** No CR LF starts before offset `i` of `s`. */
  ghost predicate NoneBefore(s: seq<Byte>, i: int) {
    forall j :: j < i ==> !M.CRLFAt(s, j)
  }

  class Buffer {
    var data: array<Byte>
    var readerIndex: nat
    var writerIndex: nat
    /** The readable bytes. */
    ghost var contents: seq<Byte>
    ghost var initial: nat
    ghost var peak: nat

    /** `contents` stands between the two indices. */
    ghost predicate Holds()
      reads this, data
    {
      && readerIndex <= writerIndex <= data.Length && |contents| == writerIndex - readerIndex
      && forall i :: 0 <= i < |contents| ==> contents[i] == data[readerIndex + i]
    }

    ghost predicate Valid()
      reads this, data
    {
      Holds() && M.Sound(View())
    }

    ghost function Layout(): M.Layout
      reads this
    {
      M.Layout(data.Length, readerIndex, writerIndex)
    }

    ghost function View(): (q: M.Queue)
      reads this
    {
      M.Queue(Layout(), contents, initial, peak)
    }

    constructor (initialSize: nat := M.INITIAL_SIZE)
      ensures Valid() && fresh(data)
      ensures View() == M.Start(initialSize) && contents == []
    {
      data := new Byte[M.CHEAP_PREPEND + initialSize](_ => 0);
      readerIndex, writerIndex := M.CHEAP_PREPEND, M.CHEAP_PREPEND;
      contents, initial, peak := [], initialSize, 0;
    }

    function ReadableBytes(): (n: nat)
      requires Valid()
      reads this, data
      ensures n == |contents|
    {
      writerIndex - readerIndex
    }

    function WritableBytes(): (n: nat)
      requires Holds()
      reads this, data
      ensures n == Layout().Writable()
    {
      data.Length - writerIndex
    }

    /** The readable bytes, copied out. */
    method Peek() returns (s: seq<Byte>)
      requires Valid()
      ensures s == contents
    {
      s := data[readerIndex..writerIndex];
    }

    method Retrieve(len: nat)
      requires Valid()
      modifies this
      ensures Valid() && data == old(data)
      ensures View() == M.Apply(old(View()), M.Retrieve(len))
    {
      M.StepSound(View(), M.Retrieve(len));
      RestIsSuffix(contents, len);
      if len < ReadableBytes() {
        readerIndex := readerIndex + len;
        contents := contents[len..];
      } else {
        RetrieveAll();
      }
    }

    method RetrieveAll()
      requires Valid()
      modifies this
      ensures Valid() && data == old(data)
      ensures View() == old(View()).(layout := M.Layout(data.Length, M.CHEAP_PREPEND, M.CHEAP_PREPEND), contents := [])
    {
      readerIndex, writerIndex := M.CHEAP_PREPEND, M.CHEAP_PREPEND;
      contents := [];
    }

    method RetrieveAsString(len: nat) returns (s: seq<Byte>)
      requires Valid() && len <= |contents|
      modifies this
      ensures Valid() && data == old(data)
      ensures View() == M.Apply(old(View()), M.Retrieve(len))
      ensures s == old(contents)[..len] && contents == old(contents)[len..]
    {
      s := data[readerIndex..readerIndex + len];
      RestIsSuffix(contents, len);
      Retrieve(len);
    }

    method RetrieveAllAsString() returns (s: seq<Byte>)
      requires Valid()
      modifies this
      ensures Valid() && data == old(data)
      ensures s == old(contents) && contents == []
    {
      s := RetrieveAsString(ReadableBytes());
    }

    /** Grow or compact; called only when the writable part is too small. */
    method MakeSpace(len: nat)
      requires Holds() && Layout().Ok() && WritableBytes() < len
      modifies this`data, this`readerIndex, this`writerIndex, data
      ensures Holds() && (data == old(data) || fresh(data))
      ensures Layout() == old(Layout()).MakeSpace(len)
    {
      if readerIndex + WritableBytes() - M.CHEAP_PREPEND < len {
        var bigger := new Byte[writerIndex + len](_ => 0);
        forall i | 0 <= i < data.Length { bigger[i] := data[i]; }
        data := bigger;
      } else {
        var readable := writerIndex - readerIndex;
        CopyWithin(data, readerIndex, writerIndex, M.CHEAP_PREPEND);
        readerIndex := M.CHEAP_PREPEND;
        writerIndex := readerIndex + readable;
      }
    }

    method EnsureWritableBytes(len: nat)
      requires Valid()
      modifies this, data
      ensures Valid() && (data == old(data) || fresh(data))
      ensures View() == M.Apply(old(View()), M.Reserve(len))
      ensures contents == old(contents) && WritableBytes() >= len
    {
      M.StepSound(View(), M.Reserve(len));
      M.EnsureBounds(Layout(), len);
      peak := Max(peak, |contents| + len);
      if WritableBytes() < len {
        MakeSpace(len);
      }
    }

    method Append(bytes: seq<Byte>)
      requires Valid()
      modifies this, data
      ensures Valid() && (data == old(data) || fresh(data))
      ensures View() == M.Apply(old(View()), M.Append(bytes))
    {
      M.StepSound(View(), M.Append(bytes));
      EnsureWritableBytes(|bytes|);
      Fill(bytes);
    }

    /** Copy `bytes` to the writable part and advance the write index. */
    method Fill(bytes: seq<Byte>)
      requires Holds() && |bytes| <= WritableBytes()
      modifies this`writerIndex, this`contents, data
      ensures Holds() && writerIndex == old(writerIndex) + |bytes| && contents == old(contents) + bytes
    {
      forall i | 0 <= i < |bytes| { data[writerIndex + i] := bytes[i]; }
      writerIndex := writerIndex + |bytes|;
      contents := contents + bytes;
    }

    /** Scattered read: the writable part first, then a 64 KiB side buffer whose
        share is appended afterwards. */
    method ReadFd(r: ReadOutcome) returns (n: int, savedErrno: Option<Errno>)
      requires Valid()
      requires r.Got? ==> M.Legal(View(), M.Read(r.bytes))
      modifies this, data
      ensures Valid() && (data == old(data) || fresh(data))
      ensures r.Got? ==> n == |r.bytes| && savedErrno == None
      ensures r.Got? ==> View() == M.Apply(old(View()), M.Read(r.bytes))
      ensures r.ReadFailed? ==> n == -1 && savedErrno == Some(r.errno) && View() == old(View())
    {
      var extrabuf := new Byte[M.EXTRA_SIZE](_ => 0);
      var writable := WritableBytes();
      savedErrno := None;
      var errno;
      n, errno := ReadV(r, data, writerIndex, extrabuf, writable < M.EXTRA_SIZE);
      if n < 0 {
        savedErrno := Some(errno);
      } else if n <= writable {
        TakeDirect(r.bytes);
      } else {
        TakeOverflow(r.bytes, writable, extrabuf);
      }
    }

    /** The direct branch of `ReadFd`: everything fitted into the writable part. */
    method TakeDirect(bytes: seq<Byte>)
      requires Valid() && |bytes| <= WritableBytes()
      requires forall i :: 0 <= i < |bytes| ==> data[writerIndex + i] == bytes[i]
      modifies this`writerIndex, this`contents, this`peak
      ensures Valid() && View() == M.Apply(old(View()), M.Read(bytes))
    {
      M.StepSound(View(), M.Read(bytes));
      peak := Max(peak, |contents| + |bytes|);
      writerIndex := writerIndex + |bytes|;
      contents := contents + bytes;
    }

    /** The overflow branch of `ReadFd`: the array is full up to its end and the
        rest of the bytes sits in the side buffer. */
    method TakeOverflow(bytes: seq<Byte>, writable: nat, extrabuf: array<Byte>)
      requires Valid() && M.Legal(View(), M.Read(bytes)) && extrabuf != data
      requires writable == WritableBytes() < |bytes| && |bytes| - writable <= extrabuf.Length
      requires forall i :: 0 <= i < writable ==> data[writerIndex + i] == bytes[i]
      requires forall i :: 0 <= i < |bytes| - writable ==> extrabuf[i] == bytes[writable + i]
      modifies this, data
      ensures Valid() && (data == old(data) || fresh(data))
      ensures View() == M.Apply(old(View()), M.Read(bytes))
    {
      M.SpilledRead(View(), bytes);
      TakeDirect(bytes[..writable]);
      assert extrabuf[..|bytes| - writable] == bytes[writable..];
      Append(extrabuf[..|bytes| - writable]);
    }

    method WriteFd(socket: Socket, w: WriteOutcome) returns (n: int, savedErrno: Option<Errno>)
      requires Valid()
      modifies this, socket
      ensures Valid() && data == old(data)
      ensures socket.net == OnWrite(old(socket.net), old(contents), w)
      ensures n == (if w.Wrote? then w.Taken(|old(contents)|) else -1)
      ensures savedErrno == (if w.Wrote? then None else Some(w.errno))
      ensures View() == if w.Wrote? then M.Apply(old(View()), M.Retrieve(n)) else old(View())
    {
      savedErrno := None;
      var errno;
      var bytes := Peek();
      n, errno := socket.Write(bytes, w);
      if n < 0 {
        savedErrno := Some(errno);
      } else {
        Retrieve(n);
      }
    }

    /** The least CR LF offset among the readable bytes, or none. */
    method FindCRLF() returns (r: Option<nat>)
      requires Valid()
      ensures M.IsFirstCRLF(contents, r)
    {
      var i := readerIndex;
      while i + 1 < writerIndex
        invariant readerIndex <= i
        invariant NoneBefore(contents, i - readerIndex)
      {
        assert data[i] == contents[i - readerIndex] && data[i + 1] == contents[i + 1 - readerIndex];
        if data[i] == M.CR && data[i + 1] == M.LF {
          assert M.CRLFAt(contents, i - readerIndex);
          return Some(i - readerIndex);
        }
        i := i + 1;
        assert !M.CRLFAt(contents, i - 1 - readerIndex);
      }
      return None;
    }
  }
}
