/** The value model of a Buffer: where its two indices stand, what it holds, and
    what has passed through it since construction. */
module BufferModel {
  import opened Basics

  const CHEAP_PREPEND: nat := 8
  const INITIAL_SIZE: nat := 1024
  const EXTRA_SIZE: nat := 65536
  const CR: Byte := 13
  const LF: Byte := 10

  /** The backing size and the two indices. */
  datatype Layout = Layout(size: nat, reader: nat, writer: nat) {
    predicate Ok() {
      CHEAP_PREPEND <= reader <= writer <= size
    }

    function Readable(): int { writer - reader }

    function Writable(): int { size - writer }

    /** The most that one `readv` may deliver: the side buffer is offered only
        when the writable part is smaller than it. */
    function ReadCapacity(): int {
      if Writable() < EXTRA_SIZE then Writable() + EXTRA_SIZE else Writable()
    }

    function MakeSpace(len: nat): Layout
      requires Ok()
    {
      if reader + Writable() - CHEAP_PREPEND < len then
        Layout(writer + len, reader, writer)
      else
        Layout(size, CHEAP_PREPEND, CHEAP_PREPEND + Readable())
    }

    function Ensure(len: nat): Layout
      requires Ok()
    {
      if Writable() < len then MakeSpace(len) else this
    }

    function Append(len: nat): Layout
      requires Ok()
    {
      var l := Ensure(len);
      Layout(l.size, l.reader, l.writer + len)
    }

    function Retrieve(len: nat): Layout
      requires Ok()
    {
      if len < Readable() then
        Layout(size, reader + len, writer)
      else
        Layout(size, CHEAP_PREPEND, CHEAP_PREPEND)
    }

    function Read(n: nat): Layout
      requires Ok()
    {
      if n <= Writable() then
        Layout(size, reader, writer + n)
      else
        Layout(size, reader, size).Append(n - Writable())
    }
  }

  /** A buffer: its layout, what it holds, the size it was made for, and the largest
      demand (readable plus incoming or reserved bytes) it has met so far. */
  datatype Queue = Queue(layout: Layout, contents: seq<Byte>, initial: nat, peak: nat)

  datatype Op =
    | Reserve(len: nat)
    | Append(bytes: seq<Byte>)
    | Read(bytes: seq<Byte>)
    | Retrieve(len: nat)

  function Start(initial: nat): Queue {
    Queue(Layout(CHEAP_PREPEND + initial, CHEAP_PREPEND, CHEAP_PREPEND), [], initial, 0)
  }

  /** A read delivers no more than the areas offered to it can hold. */
  predicate Legal(q: Queue, op: Op) {
    q.layout.Ok() && (op.Read? ==> |op.bytes| <= q.layout.ReadCapacity())
  }

  function Apply(q: Queue, op: Op): Queue
    requires Legal(q, op)
  {
    match op
    case Reserve(len) =>
      q.(layout := q.layout.Ensure(len), peak := Max(q.peak, |q.contents| + len))
    case Append(bytes) =>
      q.(layout := q.layout.Append(|bytes|), contents := q.contents + bytes,
      peak := Max(q.peak, |q.contents| + |bytes|))
    case Read(bytes) =>
      q.(layout := q.layout.Read(|bytes|), contents := q.contents + bytes,
      peak := Max(q.peak, |q.contents| + |bytes|))
    case Retrieve(len) =>
      q.(layout := q.layout.Retrieve(len), contents := Rest(q.contents, len))
  }

  function Incoming(op: Op): seq<Byte> {
    if op.Append? || op.Read? then op.bytes else []
  }

  function Outgoing(q: Queue, op: Op): seq<Byte> {
    if op.Retrieve? then q.contents[..Min(op.len, |q.contents|)] else []
  }

  predicate LegalRun(q: Queue, ops: seq<Op>)
    decreases |ops|
  {
    ops != [] ==> Legal(q, ops[0]) && LegalRun(Apply(q, ops[0]), ops[1..])
  }

  function Run(q: Queue, ops: seq<Op>): Queue
    requires LegalRun(q, ops)
    decreases |ops|
  {
    if ops == [] then q else Run(Apply(q, ops[0]), ops[1..])
  }

  /** All bytes put in, and all bytes taken out, in order. */
  function BytesIn(ops: seq<Op>): seq<Byte> {
    if ops == [] then [] else Incoming(ops[0]) + BytesIn(ops[1..])
  }

  function BytesOut(q: Queue, ops: seq<Op>): seq<Byte>
    requires LegalRun(q, ops)
    decreases |ops|
  {
    if ops == [] then [] else Outgoing(q, ops[0]) + BytesOut(Apply(q, ops[0]), ops[1..])
  }

  /** The largest backing size of a buffer made for `initial` bytes whose largest
      demand was `peak`. */
  function SizeBound(initial: nat, peak: nat): nat {
    if peak <= initial then CHEAP_PREPEND + initial
    else Max(2 * peak + CHEAP_PREPEND - 2, peak + CHEAP_PREPEND)
  }

  /** What every buffer keeps: ordered indices around its contents, a reader that is
      back at the start when nothing is left, and a backing size bounded by the
      largest demand it ever met. */
  predicate Sound(q: Queue) {
    && q.layout.Ok()
    && |q.contents| == q.layout.Readable()
    && (q.contents == [] ==> q.layout.reader == CHEAP_PREPEND)
    && |q.contents| <= q.peak
    && CHEAP_PREPEND + q.initial <= q.layout.size <= SizeBound(q.initial, q.peak)
  }

  /** Making space for `len` bytes leaves room for them, keeps the readable count,
      grows only when the demand exceeds all the space there is, and then to a size
      bounded by the demand, and compacts only when the reader has moved past the
      prepend area, so that copying forward never overwrites a byte before it is
      read. */
  lemma EnsureBounds(l: Layout, len: nat)
    requires l.Ok() && (l.Readable() == 0 ==> l.reader == CHEAP_PREPEND)
    ensures var m := l.Ensure(len); var demand := l.Readable() + len;
      && m.Ok() && m.Writable() >= len && m.Readable() == l.Readable()
      && (l.Readable() == 0 ==> m.reader == CHEAP_PREPEND)
      && (m.size == l.size ||
          (l.size < m.size <= SizeBound(0, demand) && demand > l.size - CHEAP_PREPEND))
      && (m != l && m.size == l.size ==> l.reader > CHEAP_PREPEND)
  {
  }

  /** A read appends exactly its byte count within the same growth bound, whether
      or not it spilled into the side buffer. */
  lemma ReadBounds(l: Layout, n: nat)
    requires l.Ok() && (l.Readable() == 0 ==> l.reader == CHEAP_PREPEND)
    ensures var m := l.Read(n); var demand := l.Readable() + n;
      && m.Ok() && m.Readable() == demand
      && (demand == 0 ==> m.reader == CHEAP_PREPEND)
      && (m.size == l.size ||
          (l.size < m.size <= SizeBound(0, demand) && demand > l.size - CHEAP_PREPEND))
  {
    if n > l.Writable() {
      EnsureBounds(Layout(l.size, l.reader, l.size), n - l.Writable());
    }
  }

  /** A size that is unchanged, or grown within the bound of a demand that exceeded
      all the space there was, is within the bound of the new peak. */
  lemma GrowthIsBounded(q: Queue, demand: nat, size: nat)
    requires Sound(q) && q.layout.size <= size
    requires size == q.layout.size
          || (size <= SizeBound(0, demand) && demand > q.layout.size - CHEAP_PREPEND)
    ensures size <= SizeBound(q.initial, Max(q.peak, demand))
  {
  }

  lemma ReserveSound(q: Queue, len: nat)
    requires Sound(q)
    ensures Sound(Apply(q, Reserve(len)))
  {
    EnsureBounds(q.layout, len);
    GrowthIsBounded(q, |q.contents| + len, q.layout.Ensure(len).size);
  }

  lemma AppendSound(q: Queue, bytes: seq<Byte>)
    requires Sound(q)
    ensures Sound(Apply(q, Append(bytes)))
  {
    EnsureBounds(q.layout, |bytes|);
    GrowthIsBounded(q, |q.contents| + |bytes|, q.layout.Append(|bytes|).size);
  }

  lemma ReadSound(q: Queue, bytes: seq<Byte>)
    requires Sound(q) && Legal(q, Read(bytes))
    ensures Sound(Apply(q, Read(bytes)))
  {
    ReadBounds(q.layout, |bytes|);
    GrowthIsBounded(q, |q.contents| + |bytes|, q.layout.Read(|bytes|).size);
  }

  lemma StepSound(q: Queue, op: Op)
    requires Sound(q) && Legal(q, op)
    ensures Sound(Apply(q, op))
  {
    match op
    case Reserve(len) => ReserveSound(q, len);
    case Append(bytes) => AppendSound(q, bytes);
    case Read(bytes) => ReadSound(q, bytes);
    case Retrieve(_) =>
  }

  lemma StepConserves(q: Queue, op: Op)
    requires Legal(q, op)
    ensures q.contents + Incoming(op) == Outgoing(q, op) + Apply(q, op).contents
  {
    match op
    case Reserve(_) => assert q.contents + [] == [] + q.contents;
    case Append(bytes) =>
    case Read(bytes) =>
    case Retrieve(len) => RestIsSuffix(q.contents, len);
  }

  /** A read that does not fit is the same as filling the writable part and then
      appending the rest. */
  lemma SpilledRead(q: Queue, bytes: seq<Byte>)
    requires Sound(q) && Legal(q, Read(bytes)) && q.layout.Writable() < |bytes|
    ensures var k := q.layout.Writable();
      && Legal(q, Read(bytes[..k]))
      && var q1 := Apply(q, Read(bytes[..k]));
         q1.layout == Layout(q.layout.size, q.layout.reader, q.layout.size)
         && Legal(q1, Append(bytes[k..])) && Apply(q1, Append(bytes[k..])) == Apply(q, Read(bytes))
  {
    var k := q.layout.Writable();
    assert bytes == bytes[..k] + bytes[k..];
    assert (q.contents + bytes[..k]) + bytes[k..] == q.contents + bytes;
  }

  lemma {:induction false} RunSound(q: Queue, ops: seq<Op>)
    requires Sound(q) && LegalRun(q, ops)
    ensures Sound(Run(q, ops)) && Run(q, ops).initial == q.initial
    decreases |ops|
  {
    if ops != [] {
      StepSound(q, ops[0]);
      RunSound(Apply(q, ops[0]), ops[1..]);
    }
  }

  lemma Chain(a: seq<Byte>, in1: seq<Byte>, in2: seq<Byte>, out1: seq<Byte>, b: seq<Byte>, out2: seq<Byte>, c: seq<Byte>)
    requires a + in1 == out1 + b && b + in2 == out2 + c
    ensures a + (in1 + in2) == (out1 + out2) + c
  {
    calc {
      a + (in1 + in2);
      (a + in1) + in2;
      (out1 + b) + in2;
      out1 + (b + in2);
      out1 + (out2 + c);
      (out1 + out2) + c;
    }
  }

  lemma {:induction false} RunConserves(q: Queue, ops: seq<Op>)
    requires LegalRun(q, ops)
    ensures q.contents + BytesIn(ops) == BytesOut(q, ops) + Run(q, ops).contents
    decreases |ops|
  {
    if ops == [] {
      assert q.contents + [] == [] + q.contents;
    } else {
      var q1, rest := Apply(q, ops[0]), ops[1..];
      StepConserves(q, ops[0]);
      RunConserves(q1, rest);
      Chain(q.contents, Incoming(ops[0]), BytesIn(rest), Outgoing(q, ops[0]), q1.contents,
            BytesOut(q1, rest), Run(q1, rest).contents);
    }
  }

  /** Over every run from construction: bytes come out in the order they went in,
      none is lost or invented, and memory stays within the stated bound. */
  lemma WholeRun(initial: nat, ops: seq<Op>)
    requires LegalRun(Start(initial), ops)
    ensures var q := Run(Start(initial), ops);
      && BytesIn(ops) == BytesOut(Start(initial), ops) + q.contents
      && 8 <= q.layout.reader <= q.layout.writer <= q.layout.size
      && q.layout.writer - q.layout.reader == |q.contents|
      && q.layout.size <= SizeBound(initial, q.peak)
      && SizeBound(initial, q.peak) <= Max(8 + initial, 2 * q.peak + 7)
  {
    RunSound(Start(initial), ops);
    RunConserves(Start(initial), ops);
    assert [] + BytesIn(ops) == BytesIn(ops);
  }

  /** What one `readv` is offered: the writable part, and 64 KiB more when that is less. */
  lemma Offered(l: Layout)
    requires l.Ok()
    ensures l.ReadCapacity() == (if l.size - l.writer < 65536 then l.size - l.writer + 65536 else l.size - l.writer)
    ensures l.ReadCapacity() >= 65536
  {
  }

  /** The bound is exact: for every initial size and every demand some run ends at it,
      by dropping all but one of `peak - 1` bytes and then asking for one byte more
      than the space this has freed. */
  lemma BoundIsAttained(initial: nat, peak: nat)
    ensures exists ops ::
      && LegalRun(Start(initial), ops)
      && Run(Start(initial), ops).peak == peak
      && Run(Start(initial), ops).layout.size == SizeBound(initial, peak)
  {
    var q := Start(initial);
    if peak <= initial || peak == 1 {
      var ops := [Reserve(peak)];
      RunOne(q, Reserve(peak));
      assert LegalRun(q, ops);
    } else {
      var n := peak - 1;
      var append, drop := Append(seq(n, _ => 0)), Retrieve(n - 1);
      var q1 := Apply(q, append);
      assert q1.layout == Layout(n + CHEAP_PREPEND, CHEAP_PREPEND, n + CHEAP_PREPEND);
      var q2 := Apply(q1, drop);
      RunOne(q2, Reserve(n));
      RunMore(q1, drop, [Reserve(n)]);
      RunMore(q, append, [drop, Reserve(n)]);
      assert LegalRun(q, [append, drop, Reserve(n)]);
    }
  }

  lemma RunOne(q: Queue, op: Op)
    requires Legal(q, op)
    ensures LegalRun(q, [op]) && Run(q, [op]) == Apply(q, op)
  {
    assert [op][1..] == [];
  }

  lemma RunMore(q: Queue, op: Op, ops: seq<Op>)
    requires Legal(q, op) && LegalRun(Apply(q, op), ops)
    ensures LegalRun(q, [op] + ops) && Run(q, [op] + ops) == Run(Apply(q, op), ops)
  {
    assert ([op] + ops)[1..] == ops;
  }

  // ---------------------------------------------------------------- CR LF search

  predicate CRLFAt(s: seq<Byte>, i: int) {
    0 <= i && i + 1 < |s| && s[i] == 13 && s[i + 1] == 10
  }

  /** `r` is the search result for `s`: the least CR LF offset, or none. */
  ghost predicate IsFirstCRLF(s: seq<Byte>, r: Option<nat>) {
    match r
    case None => forall i :: !CRLFAt(s, i)
    case Some(k) => CRLFAt(s, k) && forall i :: i < k ==> !CRLFAt(s, i)
  }

  /** Appending never moves a match that was already there, and a match that
      appears only now starts no earlier than the last byte held before. */
  lemma AppendKeepsFirstCRLF(s: seq<Byte>, more: seq<Byte>, r: Option<nat>, r': Option<nat>)
    requires IsFirstCRLF(s, r) && IsFirstCRLF(s + more, r')
    ensures r.Some? ==> r' == r
    ensures r.None? && r'.Some? ==> r'.value + 1 >= |s|
  {
    forall i | CRLFAt(s + more, i) && i + 1 < |s| ensures CRLFAt(s, i) {}
    if r.Some? {
      assert CRLFAt(s + more, r.value);
    }
  }
}
