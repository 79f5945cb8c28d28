/**
 The storage of a Buffer (src/buffer.h, src/buffer.cc) as a value: the bytes of a std::vector's
 block, its size, and the two indices.  Every operation of the class is a function here, including
 what the vector does when it reallocates, so that questions about whole runs can be asked.
 */
module ByteBuffer {

  newtype Byte = b: int | 0 <= b < 256

  const INITIAL_SIZE: nat := 1024
  const EXTRA_BUF: nat := 65536

  /** `mem` is the whole allocated block (its length is the capacity); `mem[..size]` are the
      vector's elements.  KCheapPrepend is 0, so an empty buffer has both indices at 0. */
  datatype Buf = Buf(mem: seq<Byte>, size: nat, read: nat, write: nat) {

    ghost predicate Valid() {
      read <= write <= |mem| && size <= |mem|
    }

    /** capacity() == size(): what a vector that grows to exactly the requested size guarantees. */
    ghost predicate Exact() {
      Valid() && size == |mem|
    }

    function Readable(): nat
      requires read <= write
    {
      write - read
    }

    /** The source subtracts from capacity(), not from size(). */
    function Writable(): nat
      requires write <= |mem|
    {
      |mem| - write
    }

    function Contents(): seq<Byte>
      requires read <= write <= |mem|
    {
      mem[read..write]
    }
  }

  function Zeros(n: nat): (z: seq<Byte>)
    ensures |z| == n && forall i :: 0 <= i < n ==> z[i] == 0
  {
    seq(n, _ => 0)
  }

  function New(initSize: nat): Buf {
    Buf(Zeros(initSize), initSize, 0, 0)
  }

  function PushState(b: Buf, len: nat): Buf
    requires b.Valid()
  {
    if len < b.Readable() then b.(read := b.read + len) else b.(read := 0, write := 0)
  }

  /** vector::resize to a larger size.  Only the first `size` elements survive a reallocation; the
      new elements are zero; `slack` is the uninitialised rest of the new block. */
  function Resize(b: Buf, n: nat, slack: seq<Byte>): Buf
    requires b.Valid() && b.size <= n
  {
    if n <= |b.mem| then
      b.(mem := b.mem[..b.size] + Zeros(n - b.size) + b.mem[n..], size := n)
    else
      b.(mem := b.mem[..b.size] + Zeros(n - b.size) + slack, size := n)
  }

  predicate NeedsGrowth(b: Buf, len: nat)
    requires b.read <= b.write <= |b.mem|
  {
    b.Writable() < len && b.Writable() + b.read < len
  }

  function Compact(b: Buf): Buf
    requires b.Valid()
  {
    Buf(b.Contents() + b.mem[b.Readable()..], b.size, 0, b.Readable())
  }

  function MakeSpace(b: Buf, len: nat, slack: seq<Byte>): Buf
    requires b.Valid()
  {
    if b.Writable() + b.read < len then Resize(b, b.write + len, slack) else Compact(b)
  }

  function CheckBuffer(b: Buf, len: nat, slack: seq<Byte>): (r: Buf)
    requires b.Valid()
    ensures r.Valid() && len <= r.Writable()
  {
    if b.Writable() < len then MakeSpace(b, len, slack) else b
  }

  function Store(mem: seq<Byte>, at: nat, data: seq<Byte>): seq<Byte>
    requires at + |data| <= |mem|
  {
    mem[..at] + data + mem[at + |data|..]
  }

  function Put(b: Buf, data: seq<Byte>, slack: seq<Byte>): (r: Buf)
    requires b.Valid()
    ensures r.Valid()
  {
    var c := CheckBuffer(b, |data|, slack);
    c.(mem := Store(c.mem, c.write, data), write := c.write + |data|)
  }

  /** What readv may deliver: anything up to the space offered. */
  ghost predicate LegalRead(b: Buf, n: nat)
    requires b.Valid()
  {
    n <= b.Writable() + (if b.Writable() < EXTRA_BUF then EXTRA_BUF else 0)
  }

  /** `Undefined` is the case where resetting write_index_ to size() puts it before read_index_. */
  datatype Outcome = Undefined | Done(buf: Buf)

  function Read(b: Buf, bytes: seq<Byte>, slack: seq<Byte>): Outcome
    requires b.Valid()
  {
    var room := b.Writable();
    if |bytes| <= room then
      Done(b.(mem := Store(b.mem, b.write, bytes), write := b.write + |bytes|))
    else
      var full := b.(mem := Store(b.mem, b.write, bytes[..room]), write := b.size);
      if b.size < b.read then Undefined else Done(Put(full, bytes[room..], slack))
  }

  // ----- one operation -----

  /** Growth keeps the readable bytes unless some of them lie past size() (and are not zero). */
  ghost predicate SurvivesGrowth(b: Buf)
    requires b.Valid()
  {
    forall i :: b.read <= i < b.write && b.size <= i ==> b.mem[i] == 0
  }

  lemma GrowthKeepsContentsIff(b: Buf, n: nat, slack: seq<Byte>)
    requires b.Valid() && |b.mem| < n
    ensures Resize(b, n, slack).Contents() == b.Contents() <==> SurvivesGrowth(b)
  {
    var r := Resize(b, n, slack);
    assert forall i :: b.read <= i < b.write ==>
      r.mem[i] == if i < b.size then b.mem[i] else 0;
    if r.Contents() == b.Contents() {
      forall i | b.read <= i < b.write && b.size <= i ensures b.mem[i] == 0 {
        assert b.Contents()[i - b.read] == r.Contents()[i - b.read];
      }
    }
  }

  /** put() appends exactly its argument, through in-place compaction and through growth, if and
      only if it does not have to grow or no live byte lies past size(). */
  lemma PutAppendsIff(b: Buf, data: seq<Byte>, slack: seq<Byte>)
    requires b.Valid()
    ensures Put(b, data, slack).Contents() == b.Contents() + data
            <==> (NeedsGrowth(b, |data|) ==> SurvivesGrowth(b))
  {
    var c := CheckBuffer(b, |data|, slack);
    var r := Put(b, data, slack);
    assert r.Contents() == c.Contents() + data;
    if NeedsGrowth(b, |data|) {
      GrowthKeepsContentsIff(b, b.write + |data|, slack);
      assert |c.Contents()| == |b.Contents()|;
      if r.Contents() == b.Contents() + data {
        assert c.Contents() == r.Contents()[..|c.Contents()|] == b.Contents();
      }
    } else {
      assert c.Contents() == b.Contents();
    }
  }

  /** A scatter read that fits the buffer always appends what was read; one that spills into the
      stack buffer does so if and only if capacity() == size(). */
  lemma ReadAppendsIff(b: Buf, bytes: seq<Byte>, slack: seq<Byte>)
    requires b.Valid()
    ensures var o := Read(b, bytes, slack);
            (o.Done? && o.buf.Valid() && o.buf.Contents() == b.Contents() + bytes)
            <==> (|bytes| <= b.Writable() || b.size == |b.mem|)
  {
    var room := b.Writable();
    if |bytes| <= room {
      assert Read(b, bytes, slack).buf.Contents() == b.Contents() + bytes;
    } else if b.read <= b.size {
      var full := b.(mem := Store(b.mem, b.write, bytes[..room]), write := b.size);
      var rest := bytes[room..];
      assert |Put(full, rest, slack).Contents()| == b.size - b.read + |rest|;
      if b.size == |b.mem| {
        PutAppendsIff(full, rest, slack);
        assert full.Contents() == b.Contents() + bytes[..room];
        assert b.Contents() + bytes[..room] + rest == b.Contents() + bytes;
      }
    }
  }

  /** Where put() puts things.  What fits behind the write index moves nothing; what fits the block moves the
      readable bytes to its front; only what does not fit reallocates, and then size() is exactly what is
      needed, whatever else the allocator adds. */
  lemma PutSpace(b: Buf, data: seq<Byte>, slack: seq<Byte>)
    requires b.Valid()
    ensures var r := Put(b, data, slack);
            && (|r.mem| > |b.mem| <==> NeedsGrowth(b, |data|))
            && (!NeedsGrowth(b, |data|) ==> |r.mem| == |b.mem| && r.size == b.size)
            && (|data| <= b.Writable() ==> r.read == b.read && r.mem[..b.write] == b.mem[..b.write])
            && (b.Writable() < |data| && !NeedsGrowth(b, |data|) ==> r.read == 0)
            && (NeedsGrowth(b, |data|) ==> r.read == b.read && r.write == r.size && r.mem[r.size..] == slack)
  {
  }

  /** A new buffer takes a kilobyte before it grows. */
  lemma FirstPutGrowsIff(data: seq<Byte>, slack: seq<Byte>)
    ensures |Put(New(INITIAL_SIZE), data, slack).mem| > |New(INITIAL_SIZE).mem| <==> |data| > 1024
  {
    PutSpace(New(INITIAL_SIZE), data, slack);
  }

  /** One read may always bring 64K, and what does not fit the block comes with less than twice that. */
  lemma ReadBounds(b: Buf, n: nat)
    requires b.Valid()
    ensures n <= 65536 ==> LegalRead(b, n)
    ensures LegalRead(b, n) && n > b.Writable() ==> n < 2 * 65536 && b.Writable() < 65536
  {
  }

  /** A scatter read that fits moves nothing and does not grow. */
  lemma ReadInPlace(b: Buf, bytes: seq<Byte>, slack: seq<Byte>)
    requires b.Valid() && |bytes| <= b.Writable()
    ensures var o := Read(b, bytes, slack);
            o.Done? && |o.buf.mem| == |b.mem| && o.buf.size == b.size && o.buf.read == b.read
            && o.buf.mem[..b.write] == b.mem[..b.write] && o.buf.write == b.write + |bytes|
  {
  }

  lemma FirstGrowth()
    ensures Put(Put(New(2), [1, 2], []), [3], [9]) == Buf([1, 2, 3, 9], 3, 0, 3)
  {
    assert Put(New(2), [1, 2], []) == Buf([1, 2], 2, 0, 2);
  }

  /** With libstdc++'s doubling (capacity = size + max(size, growth)) four ordinary puts already
      lose a byte: the fourth lands past size(), and the fifth reallocates without copying it. */
  lemma DoublingGrowthLosesBytes()
    ensures var b1 := Put(New(2), [1, 2], []);
            var b2 := Put(b1, [3], [9]);         // resize(3) with capacity 4
            var b3 := Put(b2, [4], []);          // fits the capacity, past size()
            var b4 := Put(b3, [5], [9]);         // resize(5) with capacity 6
            b2.size == 3 && |b2.mem| == 4 && |b4.mem| == 6
            && b3.Contents() == [1, 2, 3, 4]
            && b4.Contents() == [1, 2, 3, 0, 5]
  {
    FirstGrowth();
    var b2 := Buf([1, 2, 3, 9], 3, 0, 3);
    var b3 := Put(b2, [4], []);
    assert b3 == Buf([1, 2, 3, 4], 3, 0, 4);
    var b4 := Put(b3, [5], [9]);
    assert b4 == Buf([1, 2, 3, 0, 5, 9], 5, 0, 5);
  }

  // ----- whole runs with exact growth -----

  datatype Op =
    | OpPut(data: seq<Byte>)
    | OpGet(len: nat)
    | OpGetAll
    | OpPushState(len: nat)
    | OpRead(bytes: seq<Byte>)

  ghost predicate LegalOp(b: Buf, op: Op)
    requires b.Valid()
  {
    match op
    case OpGet(len) => len <= b.Readable()
    case OpRead(bytes) => LegalRead(b, |bytes|)
    case _ => true
  }

  /** The buffer after the operation and the bytes handed to the caller. */
  ghost function Apply(b: Buf, op: Op): (Buf, seq<Byte>)
    requires b.Exact() && LegalOp(b, op)
  {
    match op
    case OpPut(data) => (Put(b, data, []), [])
    case OpGet(len) => (PushState(b, len), b.mem[b.read..b.read + len])
    case OpGetAll => (PushState(b, b.Readable()), b.Contents())
    case OpPushState(len) => (PushState(b, len), [])
    case OpRead(bytes) =>
      var o := Read(b, bytes, []);
      if o.Done? then (o.buf, []) else (b, [])
  }

  /** The reference: a FIFO queue of bytes. */
  ghost function QueueApply(q: seq<Byte>, op: Op): (seq<Byte>, seq<Byte>) {
    match op
    case OpPut(data) => (q + data, [])
    case OpGet(len) => if len <= |q| then (q[len..], q[..len]) else ([], q)
    case OpGetAll => ([], q)
    case OpPushState(len) => if len <= |q| then (q[len..], []) else ([], [])
    case OpRead(bytes) => (q + bytes, [])
  }

  /** put with exact growth: contents, and how much storage it can ask for. */
  lemma PutExact(b: Buf, data: seq<Byte>)
    requires b.Exact()
    ensures var r := Put(b, data, []);
            r.Exact() && r.Contents() == b.Contents() + data
            && |r.mem| <= Max(|b.mem|, 2 * (b.Readable() + |data|))
  {
    PutAppendsIff(b, data, []);
  }

  lemma ReadExact(b: Buf, bytes: seq<Byte>)
    requires b.Exact()
    ensures var o := Read(b, bytes, []);
            o.Done? && o.buf.Exact() && o.buf.Contents() == b.Contents() + bytes
            && |o.buf.mem| <= Max(|b.mem|, 2 * (b.Readable() + |bytes|))
  {
    ReadAppendsIff(b, bytes, []);
    var room := b.Writable();
    if room < |bytes| {
      var full := b.(mem := Store(b.mem, b.write, bytes[..room]), write := b.size);
      PutExact(full, bytes[room..]);
    }
  }

  lemma SliceOfSlice(m: seq<Byte>, i: nat, j: nat, len: nat)
    requires i + len <= j <= |m|
    ensures m[i..j][..len] == m[i..i + len]
  {
  }

  lemma StepRefinesQueue(b: Buf, op: Op)
    requires b.Exact() && LegalOp(b, op)
    ensures Apply(b, op).0.Exact()
    ensures Apply(b, op).0.Contents() == QueueApply(b.Contents(), op).0
    ensures Apply(b, op).1 == QueueApply(b.Contents(), op).1
    ensures |Apply(b, op).0.mem| <= Max(|b.mem|, 2 * |QueueApply(b.Contents(), op).0|)
  {
    match op
    case OpPut(data) => PutExact(b, data);
    case OpRead(bytes) => ReadExact(b, bytes);
    case OpGet(len) =>
      PushStateDrops(b, len);
      SliceOfSlice(b.mem, b.read, b.write, len);
    case OpGetAll => PushStateDrops(b, b.Readable());
    case OpPushState(len) => PushStateDrops(b, len);
  }

  ghost predicate LegalRun(b: Buf, ops: seq<Op>)
    requires b.Exact()
    decreases |ops|
  {
    ops == [] || (
      LegalOp(b, ops[0]) &&
      (StepRefinesQueue(b, ops[0]); LegalRun(Apply(b, ops[0]).0, ops[1..])))
  }

  ghost function Run(b: Buf, ops: seq<Op>): (r: (Buf, seq<Byte>))
    requires b.Exact() && LegalRun(b, ops)
    decreases |ops|
  {
    if ops == [] then (b, [])
    else
      StepRefinesQueue(b, ops[0]);
      var s := Apply(b, ops[0]);
      var rest := Run(s.0, ops[1..]);
      (rest.0, s.1 + rest.1)
  }

  ghost function QueueRun(q: seq<Byte>, ops: seq<Op>): (seq<Byte>, seq<Byte>)
    decreases |ops|
  {
    if ops == [] then (q, [])
    else
      var s := QueueApply(q, ops[0]);
      var rest := QueueRun(s.0, ops[1..]);
      (rest.0, s.1 + rest.1)
  }

  /** For every sequence of operations and every legal readv count, the readable region and
      everything handed out are those of a byte queue. */
  lemma {:induction false} RunRefinesQueue(b: Buf, ops: seq<Op>)
    requires b.Exact() && LegalRun(b, ops)
    ensures Run(b, ops).0.Exact()
    ensures Run(b, ops).0.Contents() == QueueRun(b.Contents(), ops).0
    ensures Run(b, ops).1 == QueueRun(b.Contents(), ops).1
    decreases |ops|
  {
    if ops != [] {
      StepRefinesQueue(b, ops[0]);
      RunRefinesQueue(Apply(b, ops[0]).0, ops[1..]);
    }
  }

  // ----- whole runs with any growth -----

  /** An operation and, should it reallocate, the uninitialised tail the vector gets. */
  datatype SlackOp = SlackOp(op: Op, slack: seq<Byte>)

  ghost function ApplySlack(b: Buf, x: SlackOp): Outcome
    requires b.Valid()
  {
    match x.op
    case OpPut(data) => Done(Put(b, data, x.slack))
    case OpGet(len) => Done(PushState(b, len))
    case OpGetAll => Done(PushState(b, b.Readable()))
    case OpPushState(len) => Done(PushState(b, len))
    case OpRead(bytes) => Read(b, bytes, x.slack)
  }

  /** The test a caller could make before an operation: no growing put with a live byte past size()
      that is not zero, and no spilling read with capacity() beyond size(). */
  ghost predicate Harmless(b: Buf, op: Op)
    requires b.Valid()
  {
    match op
    case OpPut(data) => NeedsGrowth(b, |data|) ==> SurvivesGrowth(b)
    case OpRead(bytes) => |bytes| <= b.Writable() || b.size == |b.mem|
    case _ => true
  }

  ghost predicate HarmlessThroughout(b: Buf, xs: seq<SlackOp>)
    requires b.Valid()
    decreases |xs|
  {
    xs == [] || (
      Harmless(b, xs[0].op) &&
      var o := ApplySlack(b, xs[0]);
      o.Done? && o.buf.Valid() && HarmlessThroughout(o.buf, xs[1..]))
  }

  /** After every operation of the run the readable region is what the queue says. */
  ghost predicate QueueThroughout(b: Buf, q: seq<Byte>, xs: seq<SlackOp>)
    requires b.Valid()
    decreases |xs|
  {
    b.Contents() == q && (xs == [] || (
      var o := ApplySlack(b, xs[0]);
      o.Done? && o.buf.Valid() && QueueThroughout(o.buf, QueueApply(q, xs[0].op).0, xs[1..])))
  }

  lemma SlackStepIff(b: Buf, x: SlackOp)
    requires b.Valid()
    ensures var o := ApplySlack(b, x);
            (o.Done? && o.buf.Valid() && o.buf.Contents() == QueueApply(b.Contents(), x.op).0) <==> Harmless(b, x.op)
  {
    match x.op
    case OpPut(data) => PutAppendsIff(b, data, x.slack);
    case OpRead(bytes) => ReadAppendsIff(b, bytes, x.slack);
    case OpGet(len) => PushStateDrops(b, len);
    case OpGetAll => PushStateDrops(b, b.Readable());
    case OpPushState(len) => PushStateDrops(b, len);
  }

  /** Consuming everything makes the whole block writable again; consuming less makes none of it so. */
  lemma PushStateDrops(b: Buf, len: nat)
    requires b.Valid()
    ensures var r := PushState(b, len);
            r.Valid() && r.mem == b.mem && r.size == b.size
            && r.Contents() == (if len <= b.Readable() then b.Contents()[len..] else [])
            && r.Writable() == if len < b.Readable() then b.Writable() else |b.mem|
  {
  }

  /** However the vector grows, a run is that of a byte queue at every point if and only if every one
      of its operations is harmless where it is made. */
  lemma {:induction false} AnyGrowthRefinesQueueIff(b: Buf, xs: seq<SlackOp>)
    requires b.Valid()
    ensures QueueThroughout(b, b.Contents(), xs) <==> HarmlessThroughout(b, xs)
    decreases |xs|
  {
    if xs != [] {
      SlackStepIff(b, xs[0]);
      var o := ApplySlack(b, xs[0]);
      if o.Done? && o.buf.Valid() {
        AnyGrowthRefinesQueueIff(o.buf, xs[1..]);
        if Harmless(b, xs[0].op) {
          assert o.buf.Contents() == QueueApply(b.Contents(), xs[0].op).0;
        } else {
          NotAQueue(o.buf, QueueApply(b.Contents(), xs[0].op).0, xs[1..]);
        }
      }
    }
  }

  lemma NotAQueue(b: Buf, q: seq<Byte>, xs: seq<SlackOp>)
    requires b.Valid() && b.Contents() != q
    ensures !QueueThroughout(b, q, xs)
  {
  }

  function Max(a: nat, b: nat): nat {
    if a < b then b else a
  }

  /** The largest number of readable bytes at any point of a run, in terms of the queue alone. */
  ghost function Peak(q: seq<Byte>, ops: seq<Op>): nat
    decreases |ops|
  {
    if ops == [] then |q| else Max(|q|, Peak(QueueApply(q, ops[0]).0, ops[1..]))
  }

  /** Storage never exceeds the larger of what there was and twice the peak backlog. */
  lemma {:induction false} StorageBound(b: Buf, ops: seq<Op>)
    requires b.Exact() && LegalRun(b, ops)
    ensures |Run(b, ops).0.mem| <= Max(|b.mem|, 2 * Peak(b.Contents(), ops))
    decreases |ops|
  {
    if ops != [] {
      StepRefinesQueue(b, ops[0]);
      StorageBound(Apply(b, ops[0]).0, ops[1..]);
    }
  }
}
