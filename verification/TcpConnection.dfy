/** A connection as an object: two buffers, a channel of a shared poller, and its state. */
module TcpConnections {
  import opened Prelude
  import opened BufferSpec
  import opened EPollSpec
  import opened PollerBooks
  import opened ConnectionSpec
  import opened Buffers
  import opened EPoll

  class TcpConnection {
    const channel: Channel
    const inputBuffer: Buffer
    const outputBuffer: Buffer
    var state: State
    var tied: bool
    var writeCompleteSet: bool
    var highWaterSet: bool
    var highWaterMark: nat
    ghost var hist: History

    ghost function Poller(): EPollPoller {
      channel.poller
    }

    ghost function Repr(): set<object>
      reads this, inputBuffer, outputBuffer
    {
      {this, channel, Poller(), inputBuffer, inputBuffer.buffer, outputBuffer, outputBuffer.buffer}
    }

    ghost predicate Valid()
      reads this, inputBuffer, outputBuffer, Poller(), Poller().live
    {
      && inputBuffer.Valid() && outputBuffer.Valid()
      && inputBuffer != outputBuffer && inputBuffer.buffer != outputBuffer.buffer
      && channel in Poller().live && EPollSpec.Inv(Poller().View())
    }

    ghost function View(): Conn
      reads this, channel, inputBuffer, inputBuffer.buffer, outputBuffer, outputBuffer.buffer, Poller(), Poller().live
      requires Valid()
    {
      Conn(state, tied, SliceOf(Poller().View(), channel), inputBuffer.View(), outputBuffer.View(),
           writeCompleteSet, highWaterSet, highWaterMark, hist)
    }

    /** A connection over a channel that its poller has just adopted. */
    constructor (channel: Channel, writeCompleteSet: bool, highWaterSet: bool, mark: nat := DEFAULT_HIGH_WATER_MARK)
      requires channel in channel.poller.live && EPollSpec.Inv(channel.poller.View())
      requires SliceOf(channel.poller.View(), channel) == UNREGISTERED
      ensures Valid() && View() == Created(writeCompleteSet, highWaterSet, mark)
      ensures this.channel == channel && fresh(Repr() - {channel, channel.poller})
    {
      this.channel := channel;
      state, tied := Connecting, false;
      this.writeCompleteSet, this.highWaterSet, this.highWaterMark := writeCompleteSet, highWaterSet, mark;
      hist := NO_HISTORY;
      var i := new Buffer();
      var o := new Buffer();
      inputBuffer, outputBuffer := i, o;
    }

    /** A connection over a descriptor that no live channel of the poller has: its channel is made and adopted,
        and the other channels of the poller stay as they are. */
    static method Open(poller: EPollPoller, fd: int, writeCompleteSet: bool, highWaterSet: bool, mark: nat)
      returns (conn: TcpConnection)
      requires EPollSpec.Inv(poller.View()) && forall c :: c in poller.live ==> c.fd != fd
      modifies poller
      ensures fresh(conn) && conn.Valid() && conn.Poller() == poller && conn.channel.fd == fd
      ensures conn.View() == Created(writeCompleteSet, highWaterSet, mark)
      ensures fresh(conn.channel) && poller.live == old(poller.live) + {conn.channel}
      ensures forall j :: j in old(poller.live) ==> SliceOf(poller.View(), j) == old(SliceOf(poller.View(), j))
    {
      hide EPollSpec.Inv, SliceOf, Created, UNREGISTERED;
      var channel := new Channel(poller, fd);
      CreateIsLocal(poller.View(), channel, fd);
      poller.Adopt(channel);
      conn := new TcpConnection(channel, writeCompleteSet, highWaterSet, mark);
    }

    /** A change of this channel's mask, with no effect on the other channels of the poller. */
    method SetMask(change: Change)
      requires Valid()
      modifies channel, Poller()
      ensures Valid() && View() == ConnectionSpec.SetMask(old(View()), change)
      ensures Poller().live == old(Poller().live)
      ensures forall j :: j in Poller().live && j != channel ==>
                SliceOf(Poller().View(), j) == old(SliceOf(Poller().View(), j))
    {
      SetIsLocal(Poller().View(), channel, Changed(change, channel.events));
      channel.Set(change);
    }

    method RemoveChannel()
      requires Valid()
      modifies channel, Poller()
      ensures Valid() && View() == old(View()).(chan := SliceRemove(old(View()).chan))
      ensures Poller().live == old(Poller().live)
      ensures forall j :: j in Poller().live && j != channel ==>
                SliceOf(Poller().View(), j) == old(SliceOf(Poller().View(), j))
    {
      RemoveIsLocal(Poller().View(), channel);
      channel.Remove();
    }

    method SetState(s: State)
      requires Valid()
      modifies this`state
      ensures Valid() && Repr() == old(Repr()) && View() == old(View()).(state := s)
    {
      state := s;
    }

    method GoUp()
      requires Valid()
      modifies this`state, this`tied, this`hist
      ensures Valid() && Repr() == old(Repr())
      ensures var was := old(View());
              View() == was.(state := Connected, tied := true, hist := was.hist.(ups := was.hist.ups + 1))
    {
      hide EPollSpec.Inv, SliceOf;
      state := Connected;
      tied := true;
      hist := hist.(ups := hist.ups + 1);
    }

    ghost method Note(h: History)
      requires Valid()
      modifies this`hist
      ensures Valid() && Repr() == old(Repr()) && View() == old(View()).(hist := h)
    {
      hist := h;
    }

    method AppendOutput(data: seq<Byte>)
      requires Valid()
      modifies outputBuffer, outputBuffer.buffer
      ensures Valid() && fresh(Repr() - old(Repr()))
      ensures View() == old(View()).(output := BufferSpec.Append(old(View()).output, data))
    {
      outputBuffer.Append(data);
    }

    method NoteSent(n: nat)
      requires Valid() && n <= Waiting()
      modifies outputBuffer, this`hist
      ensures Valid() && Repr() == old(Repr()) && View() == Sent(old(View()), n)
    {
      hide EPollSpec.Inv, SliceOf, BufferSpec.Retrieve;
      hist := hist.(toKernel := hist.toKernel + View().output.bytes[..n]);
      outputBuffer.Retrieve(n);
    }

    method WriteOutput(answer: WriteResult) returns (n: int)
      requires Valid()
      ensures n == WriteCount(View().output, answer)
    {
      var savedErrno;
      n, savedErrno := outputBuffer.WriteFd(answer);
    }

    function Writing(): (b: bool)
      reads this, inputBuffer, outputBuffer, inputBuffer.buffer, outputBuffer.buffer, channel, Poller(), Poller().live
      requires Valid()
      ensures b == ConnectionSpec.IsWriting(View())
    {
      channel.IsWriting()
    }

    function Waiting(): (n: nat)
      reads this, inputBuffer, outputBuffer, inputBuffer.buffer, outputBuffer.buffer, channel, Poller(), Poller().live
      requires Valid()
      ensures n == Backlog(View())
    {
      outputBuffer.ReadableBytes()
    }

    // ----- Output -----

    method BufferRest(rest: seq<Byte>) returns (fx: seq<Effect>)
      requires Valid()
      modifies Repr()
      ensures Valid() && fresh(Repr() - old(Repr())) && Poller().live == old(Poller().live)
      ensures Out(View(), fx) == ConnectionSpec.BufferRest(old(View()), rest)
    {
      hide EPollSpec.Inv, SliceOf, SliceSet, Changed, BufferSpec.Append, Has, ConnectionSpec.IsWriting, Valid;
      fx := [];
      var oldLen := Waiting();
      if oldLen + |rest| >= highWaterMark && oldLen < highWaterMark && highWaterSet {
        fx := [QueueHighWater(oldLen + |rest|)];
      }
      AppendOutput(rest);
      if !Writing() {
        SetMask(EnableWriting);
      }
    }

    /** The direct write, if nothing is waiting: how much it took, whether the message is lost, and whether
        its completion is to be reported. */
    method WriteDirectly(msg: seq<Byte>, answer: WriteResult)
      returns (nwrote: nat, remaining: nat, faultError: bool, complete: bool)
      requires Valid()
      ensures nwrote == DirectlyWritten(View(), msg, answer) && remaining == |msg| - nwrote
      ensures (faultError <==> DropsMessage(View(), answer)) && !(faultError && complete)
      ensures complete <==> WritesDirectly(View()) && answer.Wrote? && remaining == 0 && writeCompleteSet
    {
      nwrote, remaining, faultError, complete := 0, |msg|, false, false;
      if !Writing() && Waiting() == 0 {
        match answer
        case Wrote(_) =>
          nwrote := Taken(answer, |msg|);
          remaining := |msg| - nwrote;
          complete := remaining == 0 && writeCompleteSet;
        case WriteFailed(errno) =>
          if errno != WouldBlock {
            if errno == BrokenPipe || errno == ConnReset {
              faultError := true;
            }
          }
      }
    }

    method SendInLoop(msg: seq<Byte>, answer: WriteResult) returns (fx: seq<Effect>)
      requires Valid()
      modifies Repr()
      ensures Valid() && fresh(Repr() - old(Repr())) && Poller().live == old(Poller().live)
      ensures Out(View(), fx) == ConnectionSpec.SendInLoop(old(View()), msg, answer)
    {
      hide EPollSpec.Inv, SliceOf, SliceSet, Changed, BufferSpec.Append, BufferSpec.Retrieve, Has;
      hide ConnectionSpec.IsWriting, Valid;
      hide ConnectionSpec.BufferRest, DirectlyWritten, DropsMessage, WritesDirectly, Taken;
      fx := [];
      if state != Disconnected {
        var nwrote, remaining, faultError, complete := WriteDirectly(msg, answer);
        if complete {
          fx := [QueueWriteComplete];
        }
        if !faultError {
          var more := AfterDirectWrite(msg, nwrote);
          fx := fx + more;
        }
      }
    }

    /** The message is kept; what the direct write did not take has to wait. */
    method AfterDirectWrite(msg: seq<Byte>, nwrote: nat) returns (fx: seq<Effect>)
      requires Valid() && nwrote <= |msg|
      modifies Repr()
      ensures Valid() && fresh(Repr() - old(Repr())) && Poller().live == old(Poller().live)
      ensures var h := old(View()).hist;
              var d := old(View()).(hist := h.(kept := h.kept + [msg], toKernel := h.toKernel + msg[..nwrote]));
              Out(View(), fx) == if nwrote < |msg| then ConnectionSpec.BufferRest(d, msg[nwrote..]) else Out(d, [])
    {
      hide EPollSpec.Inv, SliceOf, SliceSet, Changed, Has, Valid, ConnectionSpec.BufferRest;
      fx := [];
      Note(hist.(kept := hist.kept + [msg], toKernel := hist.toKernel + msg[..nwrote]));
      if nwrote < |msg| {
        fx := BufferRest(msg[nwrote..]);
      }
    }

    method Send(msg: seq<Byte>, answer: WriteResult) returns (fx: seq<Effect>)
      requires Valid()
      modifies Repr()
      ensures Valid() && fresh(Repr() - old(Repr())) && Poller().live == old(Poller().live)
      ensures Out(View(), fx) == ConnectionSpec.Send(old(View()), msg, answer)
    {
      fx := [];
      if state == Connected {
        fx := SendInLoop(msg, answer);
      }
    }

    /** send on another thread: what is queued for the loop, which runs it as sendInLoop. */
    method PostSend(msg: seq<Byte>) returns (posted: Option<seq<Byte>>)
      requires Valid()
      ensures posted.Some? <==> View().state == Connected
      ensures posted.Some? ==> posted.value == msg && forall answer :: Enabled(View(), PostedSend(msg, answer))
    {
      posted := if state == Connected then Some(msg) else None;
    }

    /** shutdown on another thread: the state is stored there, and shutdownInLoop is queued. */
    method PostShutdown() returns (posted: bool)
      requires Valid()
      modifies this`state
      ensures Valid() && Repr() == old(Repr()) && (posted <==> old(state) == Connected)
      ensures View() == Next(old(View()), ShutdownElsewhere).c
    {
      posted := state == Connected;
      if posted {
        SetState(Disconnecting);
      }
    }

    method ShutdownInLoop()
      requires Valid()
      modifies this`hist
      ensures Valid() && View() == ConnectionSpec.ShutdownInLoop(old(View()))
    {
      if !Writing() {
        Note(hist.(shuts := hist.shuts + [|hist.toKernel|]));
      }
    }

    method Shutdown()
      requires Valid()
      modifies this`state, this`hist
      ensures Valid() && View() == ConnectionSpec.Shutdown(old(View()))
    {
      if state == Connected {
        SetState(Disconnecting);
        ShutdownInLoop();
      }
    }

    method Drained() returns (fx: seq<Effect>)
      requires Valid()
      modifies this`hist, channel, Poller()
      ensures Valid() && Repr() == old(Repr()) && Poller().live == old(Poller().live)
      ensures Out(View(), fx) == ConnectionSpec.Drained(old(View()))
    {
      hide EPollSpec.Inv, SliceOf, SliceSet, Changed, BufferSpec.Append, BufferSpec.Retrieve, Has;
      hide ConnectionSpec.IsWriting, Valid;
      hide ConnectionSpec.ShutdownInLoop;
      SetMask(DisableWriting);
      fx := if writeCompleteSet then [QueueWriteComplete] else [];
      if state == Disconnecting {
        ShutdownInLoop();
      }
    }

    method HandleWrite(answer: WriteResult) returns (fx: seq<Effect>)
      requires Valid()
      modifies Repr()
      ensures Valid() && fresh(Repr() - old(Repr())) && Poller().live == old(Poller().live)
      ensures Out(View(), fx) == ConnectionSpec.HandleWrite(old(View()), answer)
    {
      hide EPollSpec.Inv, SliceOf, SliceSet, Changed, BufferSpec.Append, BufferSpec.Retrieve, Has;
      hide ConnectionSpec.IsWriting, Valid;
      hide ConnectionSpec.Drained, Sent;
      fx := [];
      if Writing() {
        var n := WriteOutput(answer);
        if n > 0 {
          fx := AfterSent(n);
        }
      }
    }

    /** The kernel took `n` of the waiting bytes. */
    method AfterSent(n: nat) returns (fx: seq<Effect>)
      requires Valid() && n <= Waiting()
      modifies this`hist, outputBuffer, channel, Poller()
      ensures Valid() && Repr() == old(Repr()) && Poller().live == old(Poller().live)
      ensures var d := Sent(old(View()), n);
              Out(View(), fx) == if d.output.bytes != [] then Out(d, []) else ConnectionSpec.Drained(d)
    {
      hide EPollSpec.Inv, SliceOf, SliceSet, Changed, BufferSpec.Append, BufferSpec.Retrieve, Has;
      hide ConnectionSpec.IsWriting, Valid;
      hide ConnectionSpec.Drained, Sent;
      fx := [];
      NoteSent(n);
      if Waiting() == 0 {
        fx := Drained();
      }
    }

    // ----- Input -----

    /** The user takes bytes out of the input buffer. */
    method Consume(len: nat)
      requires Valid()
      modifies this`hist, inputBuffer
      ensures Valid() && Repr() == old(Repr()) && View() == ConnectionSpec.Consume(old(View()), len)
    {
      hist := hist.(consumed := hist.consumed + inputBuffer.View().bytes[..Min(len, inputBuffer.ReadableBytes())]);
      inputBuffer.Retrieve(len);
    }

    method Call(call: UserCall) returns (fx: seq<Effect>)
      requires Valid()
      modifies Repr()
      ensures Valid() && fresh(Repr() - old(Repr())) && Poller().live == old(Poller().live)
      ensures Out(View(), fx) == ConnectionSpec.Call(old(View()), call)
    {
      fx := [];
      match call
      case SendCall(msg, answer) => fx := Send(msg, answer);
      case ShutdownCall => Shutdown();
      case RetrieveCall(len) => Consume(len);
    }

    /** A message callback, as the calls it makes. */
    method RunCalls(calls: seq<UserCall>) returns (fx: seq<Effect>)
      requires Valid()
      modifies Repr()
      ensures Valid() && fresh(Repr() - old(Repr())) && Poller().live == old(Poller().live)
      ensures Out(View(), fx) == CallAll(old(View()), calls)
    {
      fx := [];
      ghost var start := View();
      for i := 0 to |calls|
        invariant Valid() && fresh(Repr() - old(Repr())) && Poller().live == old(Poller().live)
        invariant CallAll(start, calls) == Out(CallAll(View(), calls[i..]).c, fx + CallAll(View(), calls[i..]).fx)
      {
        assert calls[i..][1..] == calls[i + 1..];
        var more := Call(calls[i]);
        fx := fx + more;
      }
    }

    method HandleRead(answer: ReadResult, calls: seq<UserCall>) returns (fx: seq<Effect>)
      requires Valid()
      modifies Repr()
      ensures Valid() && fresh(Repr() - old(Repr())) && Poller().live == old(Poller().live)
      ensures Out(View(), fx) == ConnectionSpec.HandleRead(old(View()), answer, calls)
    {
      hide EPollSpec.Inv, SliceOf, SliceSet, Changed, BufferSpec.Append, BufferSpec.Retrieve, Has;
      hide ConnectionSpec.IsWriting, Valid;
      hide BufferSpec.ReadFd, ConnectionSpec.HandleClose, CallAll;
      fx := [];
      var n := ReadInput(answer);
      if n > 0 {
        fx := RunCalls(calls);
      } else if n == 0 {
        fx := HandleClose();
      }
    }

    /** readFd, with what the kernel can deliver of its answer. */
    method ReadInput(answer: ReadResult) returns (n: int)
      requires Valid()
      modifies this`hist, inputBuffer, inputBuffer.buffer
      ensures Valid() && fresh(Repr() - old(Repr())) && Poller().live == old(Poller().live)
      ensures answer.ReadFailed? ==> n == -1 && View() == old(View())
      ensures answer.ReadOk? ==>
                var was := old(View());
                var data := Delivered(was, answer.data);
                n == |data| && View() == was.(input := BufferSpec.ReadFd(was.input, data),
                                              hist := was.hist.(received := was.hist.received + data))
    {
      hide EPollSpec.Inv, SliceOf;
      var delivered := answer;
      if answer.ReadOk? {
        var capacity := ReadCapacityOf(inputBuffer);
        delivered := ReadOk(answer.data[..Min(|answer.data|, capacity)]);
        hist := hist.(received := hist.received + delivered.data);
      }
      var savedErrno;
      n, savedErrno := inputBuffer.ReadFd(delivered);
    }

    static method ReadCapacityOf(b: Buffer) returns (capacity: nat)
      requires b.Valid()
      ensures capacity == ReadCapacity(b.View())
    {
      capacity := b.WritableBytes();
      if capacity < EXTRA_BUF_SIZE {
        capacity := capacity + EXTRA_BUF_SIZE;
      }
    }

    // ----- Lifecycle -----

    method ConnectEstablished() returns (fx: seq<Effect>)
      requires Valid()
      modifies this, channel, Poller()
      ensures Valid() && Repr() == old(Repr()) && Poller().live == old(Poller().live)
      ensures Out(View(), fx) == Establish(old(View()))
    {
      hide EPollSpec.Inv, SliceOf, SliceSet, Changed, BufferSpec.Append, BufferSpec.Retrieve, Has;
      hide ConnectionSpec.IsWriting, Valid;
      GoUp();
      SetMask(EnableReading);
      fx := [ConnectionChanged(true)];
    }

    method HandleClose() returns (fx: seq<Effect>)
      requires Valid()
      modifies this, channel, Poller()
      ensures Valid() && Repr() == old(Repr()) && Poller().live == old(Poller().live)
      ensures Out(View(), fx) == ConnectionSpec.HandleClose(old(View()))
    {
      hide EPollSpec.Inv, SliceOf, SliceSet, Changed, BufferSpec.Append, BufferSpec.Retrieve, Has;
      hide ConnectionSpec.IsWriting, Valid;
      Note(hist.(downs := hist.downs + 1, doubled := hist.doubled || state == Disconnected));
      SetState(Disconnected);
      SetMask(DisableAll);
      fx := [ConnectionChanged(false), CloseCallback];
    }

    method GoDown()
      requires Valid()
      modifies this`state, this`hist, channel, Poller()
      ensures Valid() && Repr() == old(Repr()) && Poller().live == old(Poller().live)
      ensures var was := old(View());
              var h := was.hist.(downs := was.hist.downs + 1);
              View() == ConnectionSpec.SetMask(was.(state := Disconnected, hist := h), DisableAll)
    {
      hide EPollSpec.Inv, SliceOf, SliceSet, Changed, Valid;
      Note(hist.(downs := hist.downs + 1));
      SetState(Disconnected);
      SetMask(DisableAll);
    }

    method ConnectDestroyed() returns (fx: seq<Effect>)
      requires Valid()
      modifies this, channel, Poller()
      ensures Valid() && Repr() == old(Repr()) && Poller().live == old(Poller().live)
      ensures Out(View(), fx) == Destroy(old(View()))
    {
      hide EPollSpec.Inv, SliceOf, SliceSet, Changed, BufferSpec.Append, BufferSpec.Retrieve, Has;
      hide ConnectionSpec.IsWriting, Valid;
      fx := [];
      if state == Connected {
        GoDown();
        fx := [ConnectionChanged(false)];
      }
      Note(hist.(destroyed := true));
      RemoveChannel();
    }

    // ----- Dispatch -----

    /** The first two tests of handleEventWithGuard. */
    method CloseAndRead(ev: Event) returns (fx: seq<Effect>)
      requires Valid()
      modifies Repr()
      ensures Valid() && fresh(Repr() - old(Repr())) && Poller().live == old(Poller().live)
      ensures var was := old(View());
              var a := if SelectsClose(ev.revents) then ConnectionSpec.HandleClose(was) else Out(was, []);
              var b := if SelectsRead(ev.revents) then ConnectionSpec.HandleRead(a.c, ev.read, ev.calls)
                       else Out(a.c, []);
              View() == b.c && fx == a.fx + b.fx
    {
      hide EPollSpec.Inv, SliceOf, SliceSet, Changed, BufferSpec.Append, BufferSpec.Retrieve, Has;
      hide ConnectionSpec.IsWriting, Valid;
      hide ConnectionSpec.HandleClose, ConnectionSpec.HandleRead;
      fx := [];
      if Has(ev.revents, EPOLLHUP) && !Has(ev.revents, EPOLLIN) {
        fx := HandleClose();
      }
      if Has(ev.revents, EPOLLIN | EPOLLPRI) {
        var more := HandleRead(ev.read, ev.calls);
        fx := fx + more;
      }
    }

    method HandleEventWithGuard(ev: Event) returns (fx: seq<Effect>)
      requires Valid()
      modifies Repr()
      ensures Valid() && fresh(Repr() - old(Repr())) && Poller().live == old(Poller().live)
      ensures Out(View(), fx) == HandleEvent(old(View()), ev)
    {
      hide EPollSpec.Inv, SliceOf, SliceSet, Changed, BufferSpec.Append, BufferSpec.Retrieve, Has;
      hide ConnectionSpec.IsWriting, Valid;
      hide ConnectionSpec.HandleClose, ConnectionSpec.HandleRead, ConnectionSpec.HandleWrite, SelectsClose, SelectsRead;
      fx := CloseAndRead(ev);
      if Has(ev.revents, EPOLLOUT) {
        var more := HandleWrite(ev.write);
        fx := fx + more;
      }
    }
  }
}
