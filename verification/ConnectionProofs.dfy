/** What holds of a connection in every reachable state, and over every run. */
module ConnectionProofs {
  import opened Prelude
  import opened BufferSpec
  import opened EPollSpec
  import opened ConnectionSpec

  // ----- The invariant -----

  /** The mask of an open connection: reading always, writing exactly while bytes are waiting. */
  function OpenMask(c: Conn): Mask {
    if c.output.bytes == [] then READ_EVENT else READ_EVENT | WRITE_EVENT
  }

  /** An open connection, from its state down to the kernel. */
  predicate StackOpen(c: Conn) {
    c.tied && c.chan == Slice(OpenMask(c), Added, Some(OpenMask(c)), true)
  }

  /** A closed connection: no mask, and nothing of it in the poller or the kernel. */
  predicate StackClosed(c: Conn) {
    c.chan.events == NONE_EVENT && c.chan.status != Added && c.chan.interest == None && !c.chan.listed
  }

  /** Every layer agrees with the state of the connection. */
  predicate StackAgrees(c: Conn) {
    match c.state
    case Connecting => !c.tied && c.chan == UNREGISTERED && c.output.bytes == []
    case Connected => StackOpen(c)
    case Disconnecting => StackOpen(c)
    case Disconnected => StackClosed(c)
  }

  /** How often the connection callback has run. */
  predicate CallbacksCounted(c: Conn) {
    match c.state
    case Connecting => c.hist.ups == 0 && c.hist.downs == 0
    case Disconnected => c.hist.ups == 1 && c.hist.downs >= 1
    case _ => c.hist.ups == 1 && c.hist.downs == 0
  }

  /** Every kept byte is with the kernel or waiting, in order; every received one taken or waiting. */
  predicate StreamsConserved(c: Conn) {
    && c.hist.toKernel + c.output.bytes == Flatten(c.hist.kept)
    && c.hist.received == c.hist.consumed + c.input.bytes
  }

  /** The layers against each other. `doubled` runs are those where a close arrives twice; even
      there the channel and the kernel tell the same story. */
  predicate LayersAgree(c: Conn) {
    && c.input.Valid() && c.output.Valid() && c.chan.Valid()
    && CallbacksCounted(c)
    && (c.state != Disconnected ==> StackAgrees(c) && !c.hist.doubled && !c.hist.destroyed)
    && (c.state == Disconnected ==> c.chan.events == NONE_EVENT && !c.chan.listed)
    && (if c.hist.doubled then c.hist.downs >= 2 else StackAgrees(c) && c.hist.downs <= 1)
    && (c.state == Disconnected ==> (c.hist.destroyed <==> c.chan.status == New))
  }

  predicate ConnInv(c: Conn) {
    LayersAgree(c) && StreamsConserved(c)
  }

  lemma {:induction false} CreatedInv(writeCompleteSet: bool, highWaterSet: bool, mark: nat)
    ensures ConnInv(Created(writeCompleteSet, highWaterSet, mark))
  {
  }

  lemma FlattenSnoc(messages: seq<seq<Byte>>, msg: seq<Byte>)
    ensures Flatten(messages + [msg]) == Flatten(messages) + msg
  {
    assert (messages + [msg])[..|messages|] == messages;
  }

  lemma AppendIsQueue(l: Layout, data: seq<Byte>)
    requires l.Valid()
    ensures Append(l, data).Valid() && Append(l, data).bytes == l.bytes + data
  {
    ApplyRefinesQueue(l, OpAppend(data));
  }

  // ----- Every operation keeps it -----

  lemma BufferRestKeeps(c: Conn, rest: seq<Byte>)
    requires LayersAgree(c) && IsUp(c) && rest != []
    ensures var d := BufferRest(c, rest).c;
            LayersAgree(d) && d.state == c.state && d.hist == c.hist && d.input == c.input
            && d.output.bytes == c.output.bytes + rest
  {
    AppendIsQueue(c.output, rest);
    hide Append;
  }

  /** A direct write may take a prefix of the message only because nothing was waiting. */
  lemma SplitKeepsOrder(sent: seq<Byte>, waiting: seq<Byte>, msg: seq<Byte>, n: nat)
    requires n <= |msg| && (n == 0 || waiting == [])
    ensures sent + msg[..n] + (waiting + msg[n..]) == sent + waiting + msg
    ensures n == |msg| ==> sent + msg[..n] + waiting == sent + waiting + msg
  {
  }

  lemma SendInLoopKeepsInv(c: Conn, msg: seq<Byte>, answer: WriteResult)
    requires ConnInv(c) && c.state != Connecting
    ensures ConnInv(SendInLoop(c, msg, answer).c)
    ensures SendInLoop(c, msg, answer).c.state == c.state
  {
    var nwrote := DirectlyWritten(c, msg, answer);
    var d := c.(hist := c.hist.(kept := c.hist.kept + [msg], toKernel := c.hist.toKernel + msg[..nwrote]));
    FlattenSnoc(c.hist.kept, msg);
    SplitKeepsOrder(c.hist.toKernel, c.output.bytes, msg, nwrote);
    assert LayersAgree(d);
    if nwrote < |msg| && IsUp(c) {
      BufferRestKeeps(d, msg[nwrote..]);
    }
    hide BufferRest, DirectlyWritten, Flatten;
  }

  lemma ShutdownKeepsInv(c: Conn)
    requires ConnInv(c)
    ensures ConnInv(Shutdown(c)) && ConnInv(ShutdownInLoop(c))
    ensures c.state == Connected ==> ConnInv(c.(state := Disconnecting))
  {
  }

  lemma RetrieveIsQueue(l: Layout, n: nat)
    requires l.Valid() && n <= |l.bytes|
    ensures Retrieve(l, n).Valid() && Retrieve(l, n).bytes == l.bytes[n..]
  {
  }

  lemma HandleWriteKeepsLayers(c: Conn, answer: WriteResult)
    requires LayersAgree(c)
    ensures LayersAgree(HandleWrite(c, answer).c)
    ensures HandleWrite(c, answer).c.state == c.state
  {
    var n := WriteCount(c.output, answer);
    if n > 0 {
      RetrieveIsQueue(c.output, n);
    }
    hide Retrieve, WriteCount;
  }

  lemma HandleWriteKeepsInv(c: Conn, answer: WriteResult)
    requires ConnInv(c)
    ensures ConnInv(HandleWrite(c, answer).c)
    ensures HandleWrite(c, answer).c.state == c.state
  {
    HandleWriteKeepsLayers(c, answer);
    var n := WriteCount(c.output, answer);
    if IsWriting(c) && n > 0 {
      assert c.hist.toKernel + c.output.bytes == c.hist.toKernel + c.output.bytes[..n] + Retrieve(c.output, n).bytes;
    }
  }

  lemma ConsumeKeepsInv(c: Conn, len: nat)
    requires ConnInv(c)
    ensures ConnInv(Consume(c, len))
  {
    var n := Min(len, |c.input.bytes|);
    assert c.input.bytes == c.input.bytes[..n] + Retrieve(c.input, len).bytes;
  }

  lemma CallKeepsInv(c: Conn, call: UserCall)
    requires ConnInv(c)
    ensures ConnInv(Call(c, call).c)
  {
    match call
    case SendCall(msg, answer) =>
      if c.state == Connected {
        SendInLoopKeepsInv(c, msg, answer);
      }
    case ShutdownCall => ShutdownKeepsInv(c);
    case RetrieveCall(len) => ConsumeKeepsInv(c, len);
  }

  lemma {:induction false} CallAllKeepsInv(c: Conn, calls: seq<UserCall>)
    requires ConnInv(c)
    ensures ConnInv(CallAll(c, calls).c)
    decreases |calls|
  {
    if calls != [] {
      CallKeepsInv(c, calls[0]);
      CallAllKeepsInv(Call(c, calls[0]).c, calls[1..]);
    }
  }

  lemma HandleCloseKeepsInv(c: Conn)
    requires ConnInv(c) && c.state != Connecting && !c.hist.destroyed
    ensures ConnInv(HandleClose(c).c)
  {
  }

  lemma HandleReadKeepsInv(c: Conn, answer: ReadResult, calls: seq<UserCall>)
    requires ConnInv(c) && c.state != Connecting && !c.hist.destroyed
    ensures ConnInv(HandleRead(c, answer, calls).c)
  {
    if answer.ReadOk? {
      var data := Delivered(c, answer.data);
      ScatterReadIsExact(c.input, data);
      var d := c.(input := ReadFd(c.input, data), hist := c.hist.(received := c.hist.received + data));
      assert ConnInv(d);
      if data != [] {
        CallAllKeepsInv(d, calls);
      }
    }
  }

  lemma EstablishKeepsInv(c: Conn)
    requires ConnInv(c) && c.state == Connecting
    ensures ConnInv(Establish(c).c)
  {
  }

  lemma DestroyKeepsInv(c: Conn)
    requires ConnInv(c) && (c.state == Connected || c.state == Disconnected)
    ensures ConnInv(Destroy(c).c)
  {
  }

  lemma NextKeepsInv(c: Conn, step: Step)
    requires ConnInv(c) && Enabled(c, step)
    ensures ConnInv(Next(c, step).c)
  {
    match step
    case EstablishStep => EstablishKeepsInv(c);
    case CloseStep => HandleCloseKeepsInv(c);
    case ReadStep(read, calls) => HandleReadKeepsInv(c, read, calls);
    case WriteStep(write) => HandleWriteKeepsInv(c, write);
    case CallStep(call) => CallKeepsInv(c, call);
    case DestroyStep => DestroyKeepsInv(c);
    case PostedSend(msg, answer) => SendInLoopKeepsInv(c, msg, answer);
    case ShutdownElsewhere => ShutdownKeepsInv(c);
    case PostedShutdown => ShutdownKeepsInv(c);
  }

  lemma {:induction false} StepsKeepInv(c: Conn, steps: seq<Step>)
    requires ConnInv(c) && LegalSteps(c, steps)
    ensures ConnInv(RunSteps(c, steps).c)
    decreases |steps|
  {
    if steps != [] {
      NextKeepsInv(c, steps[0]);
      StepsKeepInv(Next(c, steps[0]).c, steps[1..]);
    }
  }
}
