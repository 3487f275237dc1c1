/** Types shared by every layer: bytes, options, and the outcomes of the
    system calls that the library makes. */
module Basics {
  newtype Byte = x: int | 0 <= x < 256

  datatype Option<+T> = None | Some(value: T)

  function Min(a: int, b: int): int { if a <= b then a else b }

  function Max(a: int, b: int): int { if a <= b then b else a }

  /** The errno classes that the library tells apart after a failed `write`. */
  datatype Errno = WouldBlock | BrokenPipe | ConnReset | OtherErrno

  /** What the kernel answers to `write`. `Wrote(n)` takes a prefix of at most
      `n` bytes, so every prefix of every message is covered by some outcome. */
  datatype WriteOutcome = Wrote(n: nat) | WriteFailed(errno: Errno) {
    /** The bytes taken when `len` bytes are offered; 0 when the call fails. */
    function Taken(len: nat): (t: nat)
      ensures t <= len
    {
      if Wrote? then Min(n, len) else 0
    }
  }

  /** What the kernel answers to `readv`; `Got([])` is end of file. */
  datatype ReadOutcome = Got(bytes: seq<Byte>) | ReadFailed(errno: Errno)

  /** What is left of `s` when `n` elements, or all there are, have been taken. */
  function Rest<T>(s: seq<T>, n: nat): (r: seq<T>)
    ensures |r| == if n < |s| then |s| - n else 0
  {
    if n == 0 || s == [] then s else Rest(s[1..], n - 1)
  }

  lemma {:induction false} RestIsSuffix<T>(s: seq<T>, n: nat)
    ensures Rest(s, n) == if n < |s| then s[n..] else []
  {
    if n != 0 && s != [] {
      RestIsSuffix(s[1..], n - 1);
      if n < |s| { assert s[1..][n - 1..] == s[n..]; }
    }
  }

  /** The `n` elements, or all there are, that stand before `Rest(s, n)`. */
  function Front<T>(s: seq<T>, n: nat): (r: seq<T>)
    ensures |r| == if n < |s| then n else |s|
  {
    if n == 0 || s == [] then [] else [s[0]] + Front(s[1..], n - 1)
  }

  lemma {:induction false} FrontAndRest<T>(s: seq<T>, n: nat)
    ensures Front(s, n) == (if n < |s| then s[..n] else s)
    ensures Front(s, n) + Rest(s, n) == s
  {
    if n != 0 && s != [] {
      FrontAndRest(s[1..], n - 1);
      assert s == [s[0]] + s[1..];
      if n < |s| { assert s[..n] == [s[0]] + s[1..][..n - 1]; }
    }
  }

  /** Taking twice is taking once. */
  lemma {:induction false} TakenTwice<T>(s: seq<T>, a: nat, b: nat)
    ensures Rest(Rest(s, a), b) == Rest(s, a + b)
    ensures Front(s, a) + Front(Rest(s, a), b) == Front(s, a + b)
  {
    if a == 0 || s == [] {
      assert [] + Front(s, b) == Front(s, b);
    } else {
      TakenTwice(s[1..], a - 1, b);
      Prepended(s[0], Front(s[1..], a - 1), Front(Rest(s, a), b));
    }
  }

  lemma Prepended<T>(x: T, a: seq<T>, b: seq<T>)
    ensures ([x] + a) + b == [x] + (a + b)
  {
  }
}
