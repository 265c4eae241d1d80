/** What a TcpConnection does, on values: its handlers as functions of the state and of the kernel's answers. */
module ConnectionSpec {
  import opened Prelude
  import opened BufferSpec
  import opened EPollSpec

  const DEFAULT_HIGH_WATER_MARK: nat := 67108864

  datatype State = Connecting | Connected | Disconnecting | Disconnected

  /** What happened so far; no branch of the program reads it.
      `kept` are the messages sendInLoop took on, in its execution order; `shuts` says, for every
      SHUT_WR, how many bytes the kernel had been given by then; `doubled` that the close handler
      ran on an already closed connection; `destroyed` that connectDestroyed ran. */
  datatype History = History(
    kept: seq<seq<Byte>>,
    toKernel: seq<Byte>,
    shuts: seq<nat>,
    received: seq<Byte>,
    consumed: seq<Byte>,
    ups: nat,
    downs: nat,
    doubled: bool,
    destroyed: bool)

  datatype Conn = Conn(
    state: State,
    tied: bool,
    chan: Slice,
    input: Layout,
    output: Layout,
    writeCompleteSet: bool,
    highWaterSet: bool,
    mark: nat,
    hist: History)

  /** Calls that leave the connection: functors queued on its loop, and the server's callbacks. */
  datatype Effect =
    | QueueWriteComplete
    | QueueHighWater(len: nat)
    | ConnectionChanged(up: bool)
    | CloseCallback

  datatype Out = Out(c: Conn, fx: seq<Effect>)

  /** A call made by a user callback on the loop thread. */
  datatype UserCall = SendCall(msg: seq<Byte>, answer: WriteResult) | ShutdownCall | RetrieveCall(len: nat)

  const NO_HISTORY := History([], [], [], [], [], 0, 0, false, false)

  function Created(writeCompleteSet: bool, highWaterSet: bool, mark: nat): Conn {
    Conn(Connecting, false, UNREGISTERED, Fresh(INITIAL_SIZE), Fresh(INITIAL_SIZE),
         writeCompleteSet, highWaterSet, mark, NO_HISTORY)
  }

  predicate IsWriting(c: Conn) {
    Has(c.chan.events, WRITE_EVENT)
  }

  predicate IsUp(c: Conn) {
    c.state == Connected || c.state == Disconnecting
  }

  function Backlog(c: Conn): nat {
    |c.output.bytes|
  }

  function SetMask(c: Conn, change: Change): Conn {
    c.(chan := SliceSet(c.chan, Changed(change, c.chan.events)))
  }

  // ----- Output -----

  /** sendInLoop writes directly only when nothing is waiting. */
  predicate WritesDirectly(c: Conn) {
    !IsWriting(c) && c.output.bytes == []
  }

  /** A broken pipe or a reset on the direct write loses the whole message. */
  predicate DropsMessage(c: Conn, answer: WriteResult) {
    WritesDirectly(c) && answer.WriteFailed? && (answer.errno == BrokenPipe || answer.errno == ConnReset)
  }

  /** What was not written waits in the output buffer, with the channel writing. */
  function BufferRest(c: Conn, rest: seq<Byte>): Out {
    var oldLen := Backlog(c);
    var crossed := oldLen + |rest| >= c.mark && oldLen < c.mark && c.highWaterSet;
    var d := c.(output := Append(c.output, rest));
    Out(if IsWriting(d) then d else SetMask(d, EnableWriting),
        if crossed then [QueueHighWater(oldLen + |rest|)] else [])
  }

  /** How much of a message sendInLoop writes directly. */
  function DirectlyWritten(c: Conn, msg: seq<Byte>, answer: WriteResult): (n: nat)
    ensures n <= |msg| && (n > 0 ==> c.output.bytes == [])
  {
    if WritesDirectly(c) then Taken(answer, |msg|) else 0
  }

  function SendInLoop(c: Conn, msg: seq<Byte>, answer: WriteResult): Out {
    if c.state == Disconnected || DropsMessage(c, answer) then Out(c, []) else
    var nwrote := DirectlyWritten(c, msg, answer);
    var d := c.(hist := c.hist.(kept := c.hist.kept + [msg], toKernel := c.hist.toKernel + msg[..nwrote]));
    if nwrote < |msg| then BufferRest(d, msg[nwrote..])
    else Out(d, if WritesDirectly(c) && answer.Wrote? && c.writeCompleteSet then [QueueWriteComplete] else [])
  }

  function Send(c: Conn, msg: seq<Byte>, answer: WriteResult): Out {
    if c.state == Connected then SendInLoop(c, msg, answer) else Out(c, [])
  }

  function ShutdownInLoop(c: Conn): Conn {
    if IsWriting(c) then c
    else c.(hist := c.hist.(shuts := c.hist.shuts + [|c.hist.toKernel|]))
  }

  function Shutdown(c: Conn): Conn {
    if c.state == Connected then ShutdownInLoop(c.(state := Disconnecting)) else c
  }

  /** The kernel has taken the first `n` waiting bytes. */
  function Sent(c: Conn, n: nat): Conn
    requires n <= Backlog(c)
  {
    c.(output := Retrieve(c.output, n), hist := c.hist.(toKernel := c.hist.toKernel + c.output.bytes[..n]))
  }

  /** The output buffer has just run empty. */
  function Drained(c: Conn): Out {
    var d := SetMask(c, DisableWriting);
    Out(if d.state == Disconnecting then ShutdownInLoop(d) else d,
        if d.writeCompleteSet then [QueueWriteComplete] else [])
  }

  function HandleWrite(c: Conn, answer: WriteResult): Out {
    var n := WriteCount(c.output, answer);
    if !IsWriting(c) || n <= 0 then Out(c, []) else
    var d := Sent(c, n);
    if d.output.bytes != [] then Out(d, []) else Drained(d)
  }

  // ----- Input -----

  /** The user takes bytes out of the input buffer. */
  function Consume(c: Conn, len: nat): Conn {
    var n := Min(len, |c.input.bytes|);
    c.(input := Retrieve(c.input, len), hist := c.hist.(consumed := c.hist.consumed + c.input.bytes[..n]))
  }

  function Call(c: Conn, call: UserCall): Out {
    match call
    case SendCall(msg, answer) => Send(c, msg, answer)
    case ShutdownCall => Out(Shutdown(c), [])
    case RetrieveCall(len) => Out(Consume(c, len), [])
  }

  function CallAll(c: Conn, calls: seq<UserCall>): Out
    decreases |calls|
  {
    if calls == [] then Out(c, []) else
    var first := Call(c, calls[0]);
    var others := CallAll(first.c, calls[1..]);
    Out(others.c, first.fx + others.fx)
  }

  /** What the kernel can deliver of `data` into the buffers readFd offers. */
  function Delivered(c: Conn, data: seq<Byte>): seq<Byte>
    requires c.input.Valid()
  {
    data[..Min(|data|, ReadCapacity(c.input))]
  }

  /** readFd, and then the message callback, end of file or the error report. */
  function HandleRead(c: Conn, answer: ReadResult, calls: seq<UserCall>): Out
    requires c.input.Valid()
  {
    match answer
    case ReadFailed(_) => Out(c, [])
    case ReadOk(offered) =>
      var data := Delivered(c, offered);
      var d := c.(input := ReadFd(c.input, data), hist := c.hist.(received := c.hist.received + data));
      if data == [] then HandleClose(d) else CallAll(d, calls)
  }

  // ----- Lifecycle -----

  function Establish(c: Conn): Out {
    var d := c.(state := Connected, tied := true, hist := c.hist.(ups := c.hist.ups + 1));
    Out(SetMask(d, EnableReading), [ConnectionChanged(true)])
  }

  function HandleClose(c: Conn): Out {
    var h := c.hist.(downs := c.hist.downs + 1, doubled := c.hist.doubled || c.state == Disconnected);
    Out(SetMask(c.(state := Disconnected, hist := h), DisableAll), [ConnectionChanged(false), CloseCallback])
  }

  function Destroy(c: Conn): Out {
    var gone := c.hist.(destroyed := true);
    if c.state == Connected then
      var d := SetMask(c.(state := Disconnected, hist := gone.(downs := gone.downs + 1)), DisableAll);
      Out(d.(chan := SliceRemove(d.chan)), [ConnectionChanged(false)])
    else
      Out(c.(chan := SliceRemove(c.chan), hist := gone), [])
  }

  // ----- Dispatch -----

  /** The handlers a report selects, in the order handleEventWithGuard tests for them. */
  predicate SelectsClose(revents: Mask) {
    Has(revents, EPOLLHUP) && !Has(revents, EPOLLIN)
  }

  predicate SelectsRead(revents: Mask) {
    Has(revents, EPOLLIN | EPOLLPRI)
  }

  predicate SelectsWrite(revents: Mask) {
    Has(revents, EPOLLOUT)
  }

  /** One report: its events, and the answers its handlers get. */
  datatype Event = Event(revents: Mask, read: ReadResult, calls: seq<UserCall>, write: WriteResult)

  /** The error handler only reports, so it leaves no trace here. */
  function HandleEvent(c: Conn, ev: Event): Out
    requires c.input.Valid()
  {
    var a := if SelectsClose(ev.revents) then HandleClose(c) else Out(c, []);
    var b := if SelectsRead(ev.revents) then HandleRead(a.c, ev.read, ev.calls) else Out(a.c, []);
    var d := if SelectsWrite(ev.revents) then HandleWrite(b.c, ev.write) else Out(b.c, []);
    Out(d.c, a.fx + b.fx + d.fx)
  }

  // ----- Runs -----

  /** What can happen to a connection, handler by handler. The last three are for other threads:
      shutdown stores the new state where it is called, and the functors that shutdown and send
      queue run later. */
  datatype Step =
    | EstablishStep
    | CloseStep
    | ReadStep(read: ReadResult, calls: seq<UserCall>)
    | WriteStep(write: WriteResult)
    | CallStep(call: UserCall)
    | DestroyStep
    | PostedSend(msg: seq<Byte>, answer: WriteResult)
    | ShutdownElsewhere
    | PostedShutdown

  function Next(c: Conn, step: Step): Out
    requires c.input.Valid()
  {
    match step
    case EstablishStep => Establish(c)
    case CloseStep => HandleClose(c)
    case ReadStep(read, calls) => HandleRead(c, read, calls)
    case WriteStep(write) => HandleWrite(c, write)
    case CallStep(call) => Call(c, call)
    case DestroyStep => Destroy(c)
    case PostedSend(msg, answer) => SendInLoop(c, msg, answer)
    case ShutdownElsewhere => Out(if c.state == Connected then c.(state := Disconnecting) else c, [])
    case PostedShutdown => Out(ShutdownInLoop(c), [])
  }

  /** The order the server keeps: established once and first, no handler before that or after
      connectDestroyed, connectDestroyed only on a closed connection. */
  predicate Enabled(c: Conn, step: Step) {
    match step
    case EstablishStep => c.state == Connecting
    case CloseStep => c.state != Connecting && !c.hist.destroyed
    case ReadStep(_, _) => c.state != Connecting && !c.hist.destroyed
    case WriteStep(_) => c.state != Connecting && !c.hist.destroyed
    case CallStep(_) => true
    case DestroyStep => c.state == Connected || c.state == Disconnected
    case PostedSend(_, _) => c.state != Connecting
    case ShutdownElsewhere => true
    case PostedShutdown => c.state == Disconnecting || c.state == Disconnected
  }

  predicate LegalSteps(c: Conn, steps: seq<Step>)
    decreases |steps|
  {
    steps == [] || (c.input.Valid() && Enabled(c, steps[0]) && LegalSteps(Next(c, steps[0]).c, steps[1..]))
  }

  function RunSteps(c: Conn, steps: seq<Step>): Out
    requires LegalSteps(c, steps)
    decreases |steps|
  {
    if steps == [] then Out(c, []) else
    var first := Next(c, steps[0]);
    var others := RunSteps(first.c, steps[1..]);
    Out(others.c, first.fx + others.fx)
  }
}
