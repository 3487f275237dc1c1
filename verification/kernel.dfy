/** The kernel side of a connected stream socket, as far as the library can tell:
    what it took for transmission and when the write half was shut. */
module Kernel {
  import opened Basics

  datatype Net = Net(wire: seq<Byte>, shutdowns: nat, lateWrites: nat)

  /** `write(fd, bytes)`: take the prefix that the outcome names. A call made after
      the write half was shut is counted as late, whatever its outcome. */
  function OnWrite(net: Net, bytes: seq<Byte>, w: WriteOutcome): Net {
    Net(net.wire + bytes[..w.Taken(|bytes|)], net.shutdowns,
        if net.shutdowns > 0 then net.lateWrites + 1 else net.lateWrites)
  }

  function OnShutdownWrite(net: Net): Net {
    net.(shutdowns := net.shutdowns + 1)
  }

  class Socket {
    ghost var net: Net

    constructor ()
      ensures net == Net([], 0, 0)
    {
      net := Net([], 0, 0);
    }

    method Write(bytes: seq<Byte>, w: WriteOutcome) returns (n: int, errno: Errno)
      modifies this
      ensures net == OnWrite(old(net), bytes, w)
      ensures w.Wrote? ==> n == w.Taken(|bytes|)
      ensures w.WriteFailed? ==> n == -1 && errno == w.errno
    {
      net := OnWrite(net, bytes, w);
      match w {
        case Wrote(_) => n, errno := w.Taken(|bytes|), OtherErrno;
        case WriteFailed(e) => n, errno := -1, e;
      }
    }

    method ShutdownWrite()
      modifies this
      ensures net == OnShutdownWrite(old(net))
    {
      net := OnShutdownWrite(net);
    }
  }

  /** `readv` over two areas: the first is filled before the second. */
  method ReadV(r: ReadOutcome, first: array<Byte>, offset: nat, second: array<Byte>, useSecond: bool)
    returns (n: int, errno: Errno)
    requires offset <= first.Length && first != second
    requires r.Got? ==> |r.bytes| <= first.Length - offset + (if useSecond then second.Length else 0)
    modifies first, second
    ensures forall i :: 0 <= i < offset ==> first[i] == old(first[i])
    ensures r.ReadFailed? ==> n == -1 && errno == r.errno
    ensures r.ReadFailed? ==> forall i :: 0 <= i < first.Length ==> first[i] == old(first[i])
    ensures r.Got? ==> n == |r.bytes|
    ensures r.Got? ==> var k := Min(|r.bytes|, first.Length - offset);
      && (forall i :: 0 <= i < k ==> first[offset + i] == r.bytes[i])
      && (forall i :: 0 <= i < |r.bytes| - k ==> second[i] == r.bytes[k + i])
  {
    match r {
      case ReadFailed(e) => n, errno := -1, e;
      case Got(bytes) =>
        n, errno := |bytes|, OtherErrno;
        var k := Min(|bytes|, first.Length - offset);
        forall i | 0 <= i < k { first[offset + i] := bytes[i]; }
        forall i | 0 <= i < |bytes| - k { second[i] := bytes[k + i]; }
    }
  }
}
