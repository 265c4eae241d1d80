/** What a Buffer does, on values: the layout of its storage and the byte queue it stands for. */
module BufferSpec {
  import opened Prelude

  const CHEAP_PREPEND := 8
  const INITIAL_SIZE := 1024
  const EXTRA_BUF_SIZE := 65536

  /** The size of the storage, the reader index and the readable bytes; the writer index follows. */
  datatype Layout = Layout(size: nat, reader: nat, bytes: seq<Byte>) {
    function Writer(): nat {
      reader + |bytes|
    }

    function Writable(): int {
      size - Writer()
    }

    predicate Valid() {
      CHEAP_PREPEND <= reader && Writer() <= size
    }
  }

  /** The answer of readv: the bytes in the order they arrived (none at end of file) or an errno. */
  datatype ReadResult = ReadOk(data: seq<Byte>) | ReadFailed(errno: int)

  datatype Errno = WouldBlock | BrokenPipe | ConnReset | OtherErrno

  /** The answer of write. */
  datatype WriteResult = Wrote(n: nat) | WriteFailed(errno: Errno)

  /** How much of `len` offered bytes a write took; the kernel never takes more than it was offered. */
  function Taken(answer: WriteResult, len: nat): nat {
    if answer.Wrote? then Min(answer.n, len) else 0
  }

  /** The result of writeFd. */
  function WriteCount(l: Layout, answer: WriteResult): int {
    if l.bytes == [] then 0 else if answer.Wrote? then Taken(answer, |l.bytes|) else -1
  }

  function Fresh(initialSize: nat): Layout {
    Layout(CHEAP_PREPEND + initialSize, CHEAP_PREPEND, [])
  }

  /** Grow to the end of the request, or slide the readable bytes back to the prepend area. */
  function MakeSpace(l: Layout, len: nat): Layout {
    if l.Writable() + l.reader < len + CHEAP_PREPEND
    then l.(size := l.Writer() + len)
    else l.(reader := CHEAP_PREPEND)
  }

  function EnsureWritable(l: Layout, len: nat): Layout {
    if l.Writable() < len then MakeSpace(l, len) else l
  }

  function Append(l: Layout, data: seq<Byte>): Layout {
    var e := EnsureWritable(l, |data|);
    e.(bytes := e.bytes + data)
  }

  function Retrieve(l: Layout, len: nat): Layout {
    if len < |l.bytes| then Layout(l.size, l.reader + len, l.bytes[len..]) else RetrieveAll(l)
  }

  function RetrieveAll(l: Layout): Layout {
    Layout(l.size, CHEAP_PREPEND, [])
  }

  /** How many iovecs readFd offers. */
  function IovCount(l: Layout): nat {
    if l.Writable() < EXTRA_BUF_SIZE then 2 else 1
  }

  /** How many bytes those iovecs can take. */
  function ReadCapacity(l: Layout): int {
    l.Writable() + if IovCount(l) == 2 then EXTRA_BUF_SIZE else 0
  }

  predicate Spills(l: Layout, n: nat) {
    l.Writable() < n
  }

  /** A read of |data| bytes: in place when they fit, else fill up and append the stack buffer. */
  function ReadFd(l: Layout, data: seq<Byte>): Layout
    requires l.Valid()
  {
    if Spills(l, |data|)
    then Append(l.(bytes := l.bytes + data[..l.Writable()]), data[l.Writable()..])
    else l.(bytes := l.bytes + data)
  }

  /** One call on a Buffer. */
  datatype Op =
    | OpAppend(data: seq<Byte>)
    | OpRetrieve(len: nat)
    | OpRetrieveAsString(len: nat)
    | OpRetrieveAll
    | OpReadFd(result: ReadResult)

  /** What the caller owes retrieveAsString, and what the kernel promises of readv. */
  predicate Legal(l: Layout, op: Op) {
    match op
    case OpRetrieveAsString(len) => len <= |l.bytes|
    case OpReadFd(ReadOk(data)) => |data| <= ReadCapacity(l)
    case _ => true
  }

  function Apply(l: Layout, op: Op): Layout
    requires l.Valid()
  {
    match op
    case OpAppend(data) => Append(l, data)
    case OpRetrieve(len) => Retrieve(l, len)
    case OpRetrieveAsString(len) => Retrieve(l, len)
    case OpRetrieveAll => RetrieveAll(l)
    case OpReadFd(ReadOk(data)) => ReadFd(l, data)
    case OpReadFd(ReadFailed(_)) => l
  }

  /** The same calls on a plain byte queue. */
  function QueueApply(q: seq<Byte>, op: Op): seq<Byte> {
    match op
    case OpAppend(data) => q + data
    case OpRetrieve(len) => q[Min(len, |q|)..]
    case OpRetrieveAsString(len) => q[Min(len, |q|)..]
    case OpRetrieveAll => []
    case OpReadFd(ReadOk(data)) => q + data
    case OpReadFd(ReadFailed(_)) => q
  }

  /** That queue: what is put in at the end comes out at the front, whole and in order, and no sooner. */
  lemma QueueIsAQueue(a: seq<Byte>, b: seq<Byte>, errno: int)
    ensures QueueApply(a, OpAppend(b)) == a + b == QueueApply(a, OpReadFd(ReadOk(b)))
    ensures QueueApply(a + b, OpRetrieve(|a|)) == b == QueueApply(a + b, OpRetrieveAsString(|a|))
    ensures forall n: nat :: n >= |a| ==> QueueApply(a, OpRetrieve(n)) == [] == QueueApply(a, OpRetrieveAsString(n))
    ensures QueueApply(a, OpRetrieveAll) == [] && QueueApply(a, OpReadFd(ReadFailed(errno))) == a
  {
  }

  function QueueRun(q: seq<Byte>, ops: seq<Op>): seq<Byte>
    decreases |ops|
  {
    if ops == [] then q else QueueRun(QueueApply(q, ops[0]), ops[1..])
  }

  lemma EnsureWritableMakesRoom(l: Layout, len: nat)
    requires l.Valid()
    ensures var e := EnsureWritable(l, len);
            && e.Valid() && e.bytes == l.bytes && len <= e.Writable() && l.size <= e.size
            && e.size <= Max(l.size, 2 * (|l.bytes| + len) + CHEAP_PREPEND - 1)
  {
  }

  /** The compaction branch is reached only with the reader strictly above the prepend area. */
  lemma CompactionMovesDown(l: Layout, len: nat)
    requires l.Valid() && l.Writable() < len
    ensures l.Writable() + l.reader >= len + CHEAP_PREPEND ==> l.reader > CHEAP_PREPEND
    ensures l.Writable() + l.reader < len + CHEAP_PREPEND ==> l.Writer() + len > l.size
  {
  }

  /** One legal call keeps the indices ordered and does to the bytes what it does to a queue. */
  lemma ApplyRefinesQueue(l: Layout, op: Op)
    requires l.Valid() && Legal(l, op)
    ensures Apply(l, op).Valid()
    ensures Apply(l, op).bytes == QueueApply(l.bytes, op)
    ensures l.size <= Apply(l, op).size
    ensures Apply(l, op).size <= Max(l.size, 2 * |Apply(l, op).bytes| + CHEAP_PREPEND - 1)
  {
    match op
    case OpAppend(data) => EnsureWritableMakesRoom(l, |data|);
    case OpReadFd(ReadOk(data)) =>
      if Spills(l, |data|) {
        var w := l.Writable();
        var full := l.(bytes := l.bytes + data[..w]);
        EnsureWritableMakesRoom(full, |data| - w);
        assert l.bytes + data[..w] + data[w..] == l.bytes + data;
      }
    case _ =>
  }

  /** Runs of calls, every one legal where it is made. */
  predicate LegalRun(l: Layout, ops: seq<Op>)
    requires l.Valid()
    decreases |ops|
  {
    ops == [] || (Legal(l, ops[0]) && (ApplyRefinesQueue(l, ops[0]); LegalRun(Apply(l, ops[0]), ops[1..])))
  }

  function Run(l: Layout, ops: seq<Op>): (r: Layout)
    requires l.Valid() && LegalRun(l, ops)
    ensures r.Valid()
    decreases |ops|
  {
    if ops == [] then l else
      ApplyRefinesQueue(l, ops[0]);
      Run(Apply(l, ops[0]), ops[1..])
  }

  /** The most bytes that were ever readable between two calls of a run. */
  function PeakBytes(l: Layout, ops: seq<Op>): nat
    requires l.Valid() && LegalRun(l, ops)
    decreases |ops|
  {
    if ops == [] then |l.bytes| else
      ApplyRefinesQueue(l, ops[0]);
      Max(|l.bytes|, PeakBytes(Apply(l, ops[0]), ops[1..]))
  }

  /** Over every run a Buffer is a byte queue, whatever compaction and growth did to its storage. */
  lemma {:induction false} BufferIsAByteQueue(l: Layout, ops: seq<Op>)
    requires l.Valid() && LegalRun(l, ops)
    ensures Run(l, ops).bytes == QueueRun(l.bytes, ops)
    decreases |ops|
  {
    if ops != [] {
      ApplyRefinesQueue(l, ops[0]);
      BufferIsAByteQueue(Apply(l, ops[0]), ops[1..]);
    }
  }

  /** Over every run the storage never shrinks, and is bounded by the peak of its readable bytes. */
  lemma {:induction false} BufferSpaceBound(l: Layout, ops: seq<Op>)
    requires l.Valid() && LegalRun(l, ops)
    ensures l.size <= Run(l, ops).size <= Max(l.size, 2 * PeakBytes(l, ops) + CHEAP_PREPEND - 1)
    decreases |ops|
  {
    if ops != [] {
      var m := Apply(l, ops[0]);
      ApplyRefinesQueue(l, ops[0]);
      BufferSpaceBound(m, ops[1..]);
    }
  }

  /** Scatter reads: no byte is lost or reordered, and the stack buffer is never overrun. */
  lemma ScatterReadIsExact(l: Layout, data: seq<Byte>)
    requires l.Valid() && |data| <= ReadCapacity(l)
    ensures ReadFd(l, data).Valid() && ReadFd(l, data).bytes == l.bytes + data
    ensures Spills(l, |data|) ==> IovCount(l) == 2 && |data| - l.Writable() <= EXTRA_BUF_SIZE
    ensures ReadCapacity(l) >= EXTRA_BUF_SIZE
  {
    ApplyRefinesQueue(l, OpReadFd(ReadOk(data)));
  }

  // ----- Layout, in numbers -----

  lemma NewBufferIs()
    ensures Fresh(INITIAL_SIZE) == Layout(1032, 8, [])
    ensures forall n: nat :: Fresh(n).size == n + 8 && Fresh(n).reader == 8 && Fresh(n).bytes == []
  {
  }

  /** Room is there, or is made by moving the bytes down to index 8 when they and the new ones fit behind it,
      or else by growing just to the end of the new ones. */
  lemma AppendMovesOrGrows(l: Layout, data: seq<Byte>)
    requires l.Valid()
    ensures var e := Append(l, data);
            && (|data| <= l.size - l.Writer() ==> e.size == l.size && e.reader == l.reader)
            && (l.size - l.Writer() < |data| <= l.size - |l.bytes| - 8 ==> e.size == l.size && e.reader == 8)
            && (|data| > l.size - l.Writer() && |data| > l.size - |l.bytes| - 8 ==>
                  e.size == l.Writer() + |data| && e.reader == l.reader)
  {
  }

  /** Bytes taken from the front move the reader only; taking the last moves both indices back to 8. */
  lemma RetrieveMoves(l: Layout, len: nat)
    requires l.Valid()
    ensures Retrieve(l, len).size == l.size && RetrieveAll(l).size == l.size
    ensures len < |l.bytes| ==> Retrieve(l, len).reader == l.reader + len && Retrieve(l, len).Writer() == l.Writer()
    ensures len >= |l.bytes| ==> Retrieve(l, len).reader == Retrieve(l, len).Writer() == 8
    ensures RetrieveAll(l).reader == RetrieveAll(l).Writer() == 8
  {
  }

  /** The second iovec, of 65536 bytes, is offered exactly while fewer are writable in the buffer itself. */
  lemma IovecsOffered(l: Layout)
    requires l.Valid()
    ensures var writable := l.size - l.reader - |l.bytes|;
            && IovCount(l) == (if writable < 65536 then 2 else 1)
            && ReadCapacity(l) == writable + (if writable < 65536 then 65536 else 0)
  {
  }

  /** A read in place moves nothing but the writer; a spill goes the way of an append of the rest to a full
      buffer. */
  lemma ReadMovesOrGrows(l: Layout, data: seq<Byte>)
    requires l.Valid() && |data| <= ReadCapacity(l)
    ensures var rest := |data| - (l.size - l.Writer());
            var e := ReadFd(l, data);
            && (rest <= 0 ==> e.size == l.size && e.reader == l.reader)
            && (0 < rest <= l.reader - 8 ==> e.size == l.size && e.reader == 8)
            && (rest > 0 && rest > l.reader - 8 ==> e.size == l.size + rest && e.reader == l.reader)
  {
  }

  /** Anything may be asked of a buffer at any time, but no more as a string than is readable, and no more of a
      read than was offered. */
  lemma AlwaysLegal(l: Layout, data: seq<Byte>, len: nat, errno: int)
    ensures Legal(l, OpAppend(data)) && Legal(l, OpRetrieve(len)) && Legal(l, OpRetrieveAll)
    ensures Legal(l, OpReadFd(ReadFailed(errno)))
    ensures Legal(l, OpRetrieveAsString(len)) <==> len <= |l.bytes|
    ensures Legal(l, OpReadFd(ReadOk(data))) <==> |data| <= ReadCapacity(l)
  {
  }

  /** What writeFd answers, from what write did: the bytes it took of those offered, -1, or 0 for nothing to
      offer. */
  lemma WriteCountIsTheAnswer(l: Layout, answer: WriteResult)
    ensures l.bytes == [] ==> WriteCount(l, answer) == 0
    ensures l.bytes != [] && answer.WriteFailed? ==> WriteCount(l, answer) == -1
    ensures l.bytes != [] && answer.Wrote? && answer.n <= |l.bytes| ==> WriteCount(l, answer) == answer.n
    ensures l.bytes != [] && answer.Wrote? && answer.n > |l.bytes| ==> WriteCount(l, answer) == |l.bytes|
  {
  }
}
