/** What each operation does to a connection, told by its state, its bytes and what the kernel was given. */
module ConnectionLaws {
  import opened Prelude
  import opened BufferSpec
  import opened EPollSpec
  import opened ConnectionSpec
  import opened ConnectionProofs
  import opened ConnectionTheorems
  import opened ConnectionOutput
  import opened ConnectionCallbacks
  import opened ConnectionCompletions

  // ----- Bytes given to the kernel -----

  /** With nothing waiting, the kernel is given exactly what write() took of the message, and the rest waits. */
  lemma DirectWriteGives(c: Conn, msg: seq<Byte>, n: nat)
    requires ConnInv(c) && IsUp(c) && c.output.bytes == [] && n <= |msg|
    ensures var d := SendInLoop(c, msg, Wrote(n)).c;
            && d.hist == c.hist.(kept := c.hist.kept + [msg], toKernel := c.hist.toKernel + msg[..n])
            && d.output.bytes == msg[n..] && d == c.(output := d.output, chan := d.chan, hist := d.hist)
  {
    OpenMaskWriting(c);
    AppendIsQueue(c.output, msg[n..]);
    hide Append, SliceSet, Changed, IsWriting, StreamsConserved;
  }

  /** A write that would block, or fails in another way short of losing the peer, gives nothing: all waits. */
  lemma BlockedWriteGivesNothing(c: Conn, msg: seq<Byte>, errno: Errno)
    requires ConnInv(c) && IsUp(c) && c.output.bytes == [] && (errno == WouldBlock || errno == OtherErrno)
    ensures var d := SendInLoop(c, msg, WriteFailed(errno)).c;
            && d.hist == c.hist.(kept := c.hist.kept + [msg])
            && d.output.bytes == msg && d == c.(output := d.output, chan := d.chan, hist := d.hist)
  {
    OpenMaskWriting(c);
    AppendIsQueue(c.output, msg);
    assert msg[0..] == msg && c.hist.toKernel + msg[..0] == c.hist.toKernel;
    hide Append, SliceSet, Changed, IsWriting, StreamsConserved;
  }

  /** A lost peer loses the message and nothing else. */
  lemma BrokenWriteDrops(c: Conn, msg: seq<Byte>, errno: Errno)
    requires ConnInv(c) && IsUp(c) && c.output.bytes == [] && (errno == BrokenPipe || errno == ConnReset)
    ensures SendInLoop(c, msg, WriteFailed(errno)) == Out(c, [])
  {
    OpenMaskWriting(c);
  }

  /** Behind waiting bytes a message waits, whatever write() would have answered: it is not asked. */
  lemma SendBehindWaits(c: Conn, msg: seq<Byte>, answer: WriteResult)
    requires ConnInv(c) && IsUp(c) && c.output.bytes != []
    ensures var d := SendInLoop(c, msg, answer).c;
            && d.hist == c.hist.(kept := c.hist.kept + [msg])
            && d.output.bytes == c.output.bytes + msg && d == c.(output := d.output, chan := d.chan, hist := d.hist)
  {
    OpenMaskWriting(c);
    AppendIsQueue(c.output, msg);
    assert msg[0..] == msg && c.hist.toKernel + msg[..0] == c.hist.toKernel;
    hide Append, SliceSet, Changed, IsWriting, StreamsConserved;
  }

  /** In any state, reachable or not: while the channel is writing, a send asks nothing of write() and leaves the
      channel to itself. */
  lemma WritingChannelIsLeft(c: Conn, msg: seq<Byte>, answer: WriteResult)
    requires c.chan.events & 0x4 != 0
    ensures var d := SendInLoop(c, msg, answer).c;
            d.chan == c.chan && d.hist.toKernel == c.hist.toKernel
  {
    assert IsWriting(c);
    assert c.hist.toKernel + msg[..0] == c.hist.toKernel;
    hide Append, SliceSet, Changed;
  }

  /** send takes messages only while Connected, and then it is sendInLoop; a closed connection takes none. */
  lemma SendOnlyWhileConnected(c: Conn, msg: seq<Byte>, answer: WriteResult)
    ensures c.state == Connected ==> Call(c, SendCall(msg, answer)) == SendInLoop(c, msg, answer)
    ensures c.state != Connected ==> Call(c, SendCall(msg, answer)) == Out(c, [])
    ensures c.state == Disconnected ==> SendInLoop(c, msg, answer) == Out(c, [])
  {
  }

  /** A drain gives the kernel exactly what write() took of the waiting bytes, from the front. */
  lemma DrainGives(c: Conn, n: nat)
    requires ConnInv(c) && IsUp(c) && 0 < n <= |c.output.bytes|
    ensures var d := HandleWrite(c, Wrote(n)).c;
            && d.hist.toKernel == c.hist.toKernel + c.output.bytes[..n] && d.output.bytes == c.output.bytes[n..]
            && d.hist == c.hist.(toKernel := d.hist.toKernel, shuts := d.hist.shuts)
            && d == c.(output := d.output, chan := d.chan, hist := d.hist)
  {
    OpenMaskWriting(c);
    hide SliceSet, Changed, IsWriting, StreamsConserved;
  }

  /** No other writable event gives it anything, or changes anything. */
  lemma IdleDrainGivesNothing(c: Conn, answer: WriteResult)
    requires ConnInv(c) && c.state != Connecting
    requires answer.WriteFailed? || answer.n == 0 || c.output.bytes == [] || c.state == Disconnected
    ensures HandleWrite(c, answer) == Out(c, [])
  {
    if IsUp(c) { OpenMaskWriting(c); }
    hide SliceSet, Changed, StreamsConserved, CallbacksCounted;
  }

  /** The bytes a step has write() take: as many as it answers, and at most those it is offered. */
  function Answered(c: Conn, step: Step): nat {
    match step
    case CallStep(SendCall(msg, Wrote(n))) =>
      if c.state == Connected && c.output.bytes == [] then (if n <= |msg| then n else |msg|) else 0
    case PostedSend(msg, Wrote(n)) =>
      if IsUp(c) && c.output.bytes == [] then (if n <= |msg| then n else |msg|) else 0
    case WriteStep(Wrote(n)) =>
      if IsUp(c) then (if n <= |c.output.bytes| then n else |c.output.bytes|) else 0
    case _ => 0
  }

  function AnsweredInAll(c: Conn, parts: seq<Step>): nat
    requires LegalSteps(c, parts)
    decreases |parts|
  {
    if parts == [] then 0 else Answered(c, parts[0]) + AnsweredInAll(Next(c, parts[0]).c, parts[1..])
  }

  /** An answer above what was offered counts as all of it. */
  lemma TooMuchIsAll(c: Conn, msg: seq<Byte>, n: nat)
    ensures n > |msg| ==> SendInLoop(c, msg, Wrote(n)) == SendInLoop(c, msg, Wrote(|msg|))
    ensures n > |c.output.bytes| ==> HandleWrite(c, Wrote(n)) == HandleWrite(c, Wrote(|c.output.bytes|))
  {
    hide SliceSet, Changed, Append, Retrieve, Has;
  }

  lemma SendGives(c: Conn, msg: seq<Byte>, answer: WriteResult)
    requires ConnInv(c) && c.state != Connecting
    ensures |SendInLoop(c, msg, answer).c.hist.toKernel| == |c.hist.toKernel| + Answered(c, PostedSend(msg, answer))
  {
    hide ConnInv, SendInLoop;
    if c.state == Disconnected {
      SendOnlyWhileConnected(c, msg, answer);
    } else if c.output.bytes != [] {
      SendBehindWaits(c, msg, answer);
    } else {
      match answer
      case Wrote(n) =>
        TooMuchIsAll(c, msg, n);
        DirectWriteGives(c, msg, if n <= |msg| then n else |msg|);
      case WriteFailed(errno) =>
        if errno == BrokenPipe || errno == ConnReset {
          BrokenWriteDrops(c, msg, errno);
        } else {
          BlockedWriteGivesNothing(c, msg, errno);
        }
    }
  }

  lemma DrainGivesAnswered(c: Conn, answer: WriteResult)
    requires ConnInv(c) && c.state != Connecting
    ensures |HandleWrite(c, answer).c.hist.toKernel| == |c.hist.toKernel| + Answered(c, WriteStep(answer))
  {
    hide ConnInv, HandleWrite;
    if answer.WriteFailed? || answer.n == 0 || c.output.bytes == [] || c.state == Disconnected {
      IdleDrainGivesNothing(c, answer);
    } else {
      TooMuchIsAll(c, [], answer.n);
      DrainGives(c, if answer.n <= |c.output.bytes| then answer.n else |c.output.bytes|);
    }
  }

  predicate SameOutput(c: Conn, d: Conn) {
    d.hist.toKernel == c.hist.toKernel && d.hist.kept == c.hist.kept && d.output == c.output
  }

  lemma ReadLeavesOutput(c: Conn, read: ReadResult)
    requires ConnInv(c)
    ensures SameOutput(c, HandleRead(c, read, []).c) && SameOutput(c, HandleClose(c).c)
  {
    hide SliceSet, Changed, ReadFd, StackAgrees, CallbacksCounted, StreamsConserved;
  }

  lemma LifeLeavesOutput(c: Conn)
    ensures SameOutput(c, Establish(c).c) && SameOutput(c, Destroy(c).c) && SameOutput(c, ShutdownInLoop(c))
    ensures SameOutput(c, Shutdown(c))
  {
    hide SliceSet, Changed, Has;
  }

  /** Steps that are not writes give the kernel nothing, keep no message, and leave the waiting bytes. */
  lemma OtherStepsGiveNothing(c: Conn, step: Step)
    requires ConnInv(c) && Enabled(c, step) && InParts(step)
    requires !step.WriteStep? && !step.PostedSend? && !(step.CallStep? && step.call.SendCall?)
    ensures SameOutput(c, Next(c, step).c)
  {
    LifeLeavesOutput(c);
    if step.ReadStep? || step.CloseStep? { ReadLeavesOutput(c, if step.ReadStep? then step.read else ReadOk([])); }
    hide HandleRead, HandleClose, Establish, Destroy, ShutdownInLoop, Shutdown, Retrieve;
    hide StackAgrees, CallbacksCounted, StreamsConserved;
  }

  lemma NextGivesAnswered(c: Conn, step: Step)
    requires ConnInv(c) && Enabled(c, step) && InParts(step)
    ensures |Next(c, step).c.hist.toKernel| == |c.hist.toKernel| + Answered(c, step)
  {
    match step
    case WriteStep(answer) => DrainGivesAnswered(c, answer); hide HandleWrite, ConnInv;
    case PostedSend(msg, answer) => SendGives(c, msg, answer); hide SendInLoop, ConnInv;
    case CallStep(SendCall(msg, answer)) =>
      if c.state != Connecting { SendGives(c, msg, answer); }
      SendOnlyWhileConnected(c, msg, answer);
      hide SendInLoop, ConnInv, Call;
    case _ => OtherStepsGiveNothing(c, step); hide Next, ConnInv, Enabled;
  }

  lemma {:induction false} StepsGiveAnswered(c: Conn, parts: seq<Step>)
    requires ConnInv(c) && LegalSteps(c, parts) && AllInParts(parts)
    ensures |RunSteps(c, parts).c.hist.toKernel| == |c.hist.toKernel| + AnsweredInAll(c, parts)
    decreases |parts|
  {
    if parts != [] {
      NextKeepsInv(c, parts[0]);
      NextGivesAnswered(c, parts[0]);
      StepsGiveAnswered(Next(c, parts[0]).c, parts[1..]);
      hide Next, Enabled, ConnInv, Answered;
    }
  }

  /** Over any run, the sends of message callbacks included: the kernel was given as many bytes as its answers
      say, and with what waits they are the kept messages. */
  lemma KernelWasGivenWhatItAnswered(wc: bool, hw: bool, mark: nat, steps: seq<Step>)
    requires LegalSteps(Created(wc, hw, mark), steps)
    ensures var c := Created(wc, hw, mark);
            var h := RunSteps(c, steps).c.hist;
            && LegalSteps(c, AllParts(steps)) && |h.toKernel| == AnsweredInAll(c, AllParts(steps))
            && h.toKernel <= Flatten(h.kept)
  {
    var c := Created(wc, hw, mark);
    CreatedInv(wc, hw, mark);
    PartsMakeUpRun(c, steps);
    PartsAreInParts(steps);
    StepsGiveAnswered(c, AllParts(steps));
    StepsKeepInv(c, steps);
  }

  // ----- Half-close -----

  /** A loop-thread shutdown of a Connected connection, whatever waits: it is Disconnecting from then on, SHUT_WR
      is issued at once exactly when nothing waits, and nothing else changes. In any other state nothing does. */
  lemma ShutdownDoes(c: Conn)
    requires ConnInv(c)
    ensures var shuts := if c.output.bytes == [] then c.hist.shuts + [|c.hist.toKernel|] else c.hist.shuts;
            Call(c, ShutdownCall) ==
              Out(if c.state == Connected then c.(state := Disconnecting, hist := c.hist.(shuts := shuts)) else c, [])
  {
    if c.state == Connected { OpenMaskWriting(c); }
    hide StreamsConserved, Has;
  }

  /** The functor that another thread's shutdown queued does that second part by itself, also after a close. */
  lemma PostedShutdownDoes(c: Conn)
    requires ConnInv(c) && Enabled(c, PostedShutdown)
    ensures Next(c, PostedShutdown) ==
              Out(if c.state == Disconnecting && c.output.bytes != [] then c
                  else c.(hist := c.hist.(shuts := c.hist.shuts + [|c.hist.toKernel|])), [])
    ensures Next(c, ShutdownElsewhere) == Out(if c.state == Connected then c.(state := Disconnecting) else c, [])
  {
    if c.state == Disconnecting { OpenMaskWriting(c); }
    hide StreamsConserved, CallbacksCounted;
  }

  /** A shutdown on the loop thread, with any backlog, and then quiet steps with as many successful writes as
      bytes wait: SHUT_WR is issued exactly once, after the last byte. */
  lemma ShutdownIsCarriedOut(c: Conn, steps: seq<Step>)
    requires ConnInv(c) && HalfCloseSound(c) && c.state == Connected
    requires LegalSteps(Call(c, ShutdownCall).c, steps) && AllQuiet(steps)
    requires SuccessfulWrites(steps) >= |c.output.bytes|
    ensures var d := RunSteps(Call(c, ShutdownCall).c, steps).c;
            && d.state == Disconnecting && d.output.bytes == [] && d.hist.shuts == [|d.hist.toKernel|]
            && d.hist.toKernel == Flatten(d.hist.kept)
  {
    hide ConnInv, HalfCloseSound, Call;
    CallKeepsInv(c, ShutdownCall);
    CallKeepsHalfClose(c, ShutdownCall);
    ShutdownDoes(c);
    var b := Call(c, ShutdownCall).c;
    QuietIsOnLoop(steps);
    HalfCloseDrains(b, steps);
    StepsKeepInv(b, steps);
    StepsKeepHalfClose(b, steps);
    SoundAndDrained(RunSteps(b, steps).c);
  }

  lemma QuietIsOnLoop(steps: seq<Step>)
    requires AllQuiet(steps)
    ensures AllOnLoop(steps)
  {
  }

  lemma SoundAndDrained(c: Conn)
    requires ConnInv(c) && HalfCloseSound(c) && c.output.bytes == [] && |c.hist.shuts| == 1
    ensures c.hist.shuts == [|c.hist.toKernel|] && c.hist.toKernel == Flatten(c.hist.kept)
  {
    NothingWaitsMeansSent(c);
  }

  // ----- Input -----

  /** Up to 65536 bytes are taken from the kernel at once, whole and in order, and become readable. */
  lemma ReadTakes(c: Conn, data: seq<Byte>)
    requires ConnInv(c) && 0 < |data| <= 65536
    ensures var d := HandleRead(c, ReadOk(data), []).c;
            && d.input.bytes == c.input.bytes + data
            && d == c.(input := d.input, hist := c.hist.(received := c.hist.received + data))
  {
    ScatterReadIsExact(c.input, data);
    assert data[..|data|] == data;
    hide ReadFd, StackAgrees, CallbacksCounted, StreamsConserved;
  }

  /** The callback then runs on that state; an error changes nothing; the end of the file is the close handler. */
  lemma ReadThenCalls(c: Conn, data: seq<Byte>, errno: int, calls: seq<UserCall>)
    requires ConnInv(c)
    ensures data != [] ==>
              HandleRead(c, ReadOk(data), calls) == CallAll(HandleRead(c, ReadOk(data), []).c, calls)
    ensures HandleRead(c, ReadFailed(errno), calls) == Out(c, [])
    ensures HandleRead(c, ReadOk([]), calls) == HandleClose(c)
  {
    if data != [] { ConnectionCompletions.ReadThenCalls(c, ReadOk(data), calls); }
    EmptyReadIsClose(c, calls);
    hide ReadFd, HandleClose, StackAgrees, CallbacksCounted, StreamsConserved, CallAll;
  }

  lemma EmptyReadIsClose(c: Conn, calls: seq<UserCall>)
    requires ConnInv(c)
    ensures HandleRead(c, ReadOk([]), calls) == HandleClose(c)
  {
    ScatterReadIsExact(c.input, []);
    assert c.input.bytes + [] == c.input.bytes && c.hist.received + [] == c.hist.received;
    assert ReadFd(c.input, []) == c.input;
    hide HandleClose, StackAgrees, CallbacksCounted, StreamsConserved;
  }

  /** What the user retrieves is the front of what is readable. */
  lemma RetrieveTakes(c: Conn, len: nat)
    ensures var k := if len <= |c.input.bytes| then len else |c.input.bytes|;
            var o := Call(c, RetrieveCall(len));
            && o.c.input.bytes == c.input.bytes[k..] && o.fx == []
            && o.c == c.(input := o.c.input, hist := c.hist.(consumed := c.hist.consumed + c.input.bytes[..k]))
  {
  }

  // ----- Life -----

  lemma NewConnectionIs(wc: bool, hw: bool, mark: nat)
    ensures var c := Created(wc, hw, mark);
            && c.state == Connecting && !c.tied && c.chan == Slice(0, New, None, false)
            && c.input == Layout(1032, 8, []) && c.output == Layout(1032, 8, [])
            && c.writeCompleteSet == wc && c.highWaterSet == hw && c.mark == mark
    ensures DEFAULT_HIGH_WATER_MARK == 64 * 1024 * 1024
  {
  }

  /** Established: Connected and tied, asking for 0x3, and the user told once. */
  lemma EstablishDoes(c: Conn)
    requires ConnInv(c) && c.state == Connecting
    ensures var h := c.hist.(ups := c.hist.ups + 1);
            Establish(c) == Out(c.(state := Connected, tied := true, chan := Slice(3, Added, Some(3), true), hist := h),
                                [ConnectionChanged(true)])
  {
    hide StreamsConserved;
  }

  /** Closed: the user is told first and then the server; buffers and settings stay. */
  lemma CloseDoes(c: Conn)
    requires ConnInv(c)
    ensures var o := HandleClose(c);
            && o.fx == [ConnectionChanged(false), CloseCallback]
            && o.c.state == Disconnected && o.c.chan.events == 0 && o.c.hist.downs == c.hist.downs + 1
            && o.c.hist == c.hist.(downs := o.c.hist.downs, doubled := o.c.hist.doubled)
            && o.c == c.(state := Disconnected, chan := o.c.chan, hist := o.c.hist)
  {
    hide SliceSet, StreamsConserved, StackAgrees, CallbacksCounted;
    assert SliceSet(c.chan, 0).events == 0 by { SliceSetEvents(c.chan, 0); }
  }

  lemma SliceSetEvents(s: Slice, events: Mask)
    ensures SliceSet(s, events).events == events
  {
  }

  /** Destroyed: off the poller; the user is told only if no close came before, and the server is not told. */
  lemma DestroyDoes(c: Conn)
    requires ConnInv(c)
    ensures var o := Destroy(c);
            && o.fx == (if c.state == Connected then [ConnectionChanged(false)] else [])
            && o.c.state == (if c.state == Connected then Disconnected else c.state)
            && o.c.chan.status == New && o.c.chan.interest == None && !o.c.chan.listed
            && o.c.hist == c.hist.(destroyed := true, downs := c.hist.downs + |o.fx|)
            && o.c == c.(state := o.c.state, chan := o.c.chan, hist := o.c.hist)
  {
    hide SliceSet, StreamsConserved, StackAgrees, CallbacksCounted;
  }

  /** What a connection must always be ready for: any call of its user; the events of a connection that has been
      established and not destroyed; and its destruction, closed or not, unless a half-close is under way. */
  lemma AlwaysReady(c: Conn, call: UserCall, read: ReadResult, calls: seq<UserCall>, write: WriteResult)
    ensures Enabled(c, CallStep(call)) && Enabled(c, ShutdownElsewhere)
    ensures c.state == Connecting ==> Enabled(c, EstablishStep)
    ensures c.state != Connecting && !c.hist.destroyed ==>
              Enabled(c, CloseStep) && Enabled(c, ReadStep(read, calls)) && Enabled(c, WriteStep(write))
    ensures c.state == Connected || c.state == Disconnected ==> Enabled(c, DestroyStep)
  {
  }

  // ----- Which reports run which handlers, in the bits of the epoll interface -----

  lemma SelectionIs(revents: Mask)
    ensures SelectsClose(revents) <==> revents & 0x10 != 0 && revents & 0x1 == 0
    ensures SelectsRead(revents) <==> revents & 0x3 != 0
    ensures SelectsWrite(revents) <==> revents & 0x4 != 0
  {
  }

  /** Data is read exactly for reports of 0x1 or 0x2. */
  lemma DataIsReadIff(c: Conn, revents: Mask, data: seq<Byte>, write: WriteResult)
    requires ConnInv(c) && IsUp(c) && 0 < |data| <= 65536
    ensures HandleEvent(c, Event(revents, ReadOk(data), [], write)).c.hist.received ==
              if revents & 0x3 != 0 then c.hist.received + data else c.hist.received
  {
    hide ConnInv, SelectsClose, SelectsRead, SelectsWrite, HandleClose, HandleRead, HandleWrite;
    SelectionIs(revents);
    var ev := Event(revents, ReadOk(data), [], write);
    var a := AfterClose(c, ev);
    CloseKeeps(c, ev);
    ReadTakes(a, data);
    var b := AfterRead(a, ev);
    WriteLeavesInput(b, write);
  }

  lemma CloseKeeps(c: Conn, ev: Event)
    requires ConnInv(c) && IsUp(c)
    ensures var a := AfterClose(c, ev);
            && ConnInv(a) && a.input.Valid() && a.hist.received == c.hist.received
            && a.input == c.input && a.output == c.output
            && a.hist.toKernel == c.hist.toKernel
            && (SelectsClose(ev.revents) ==> a.state == Disconnected) && (!SelectsClose(ev.revents) ==> a == c)
  {
    if SelectsClose(ev.revents) {
      CloseDoes(c);
      HandleCloseKeepsInv(c);
    }
    hide HandleClose, ConnInv, SelectsClose;
  }

  lemma WriteLeavesInput(c: Conn, answer: WriteResult)
    ensures var d := HandleWrite(c, answer).c;
            d.hist.received == c.hist.received && d.input == c.input && d.state == c.state
  {
    hide SliceSet, Changed, Retrieve, Has;
  }

  /** Waiting bytes are written exactly for reports of 0x4, unless the same report closes the connection. */
  lemma BacklogIsWrittenIff(c: Conn, revents: Mask, errno: int, n: nat)
    requires ConnInv(c) && IsUp(c) && 0 < n <= |c.output.bytes| && !(revents & 0x10 != 0 && revents & 0x1 == 0)
    ensures var d := HandleEvent(c, Event(revents, ReadFailed(errno), [], Wrote(n))).c;
            if revents & 0x4 != 0
            then d.hist.toKernel == c.hist.toKernel + c.output.bytes[..n] && d.output.bytes == c.output.bytes[n..]
            else d.hist.toKernel == c.hist.toKernel && d.output.bytes == c.output.bytes
  {
    SelectionIs(revents);
    ReadThenCalls(c, [], errno, []);
    DrainGives(c, n);
    hide ConnInv, SelectsClose, SelectsRead, SelectsWrite, HandleClose, HandleRead, HandleWrite;
  }

  /** With no end of file, a report closes the connection exactly when it carries 0x10 and not 0x1; with one,
      exactly when it carries that or 0x1 or 0x2. */
  lemma ReportClosesIff(c: Conn, revents: Mask, errno: int, write: WriteResult)
    requires ConnInv(c) && IsUp(c)
    ensures HandleEvent(c, Event(revents, ReadFailed(errno), [], write)).c.state == Disconnected <==>
              revents & 0x10 != 0 && revents & 0x1 == 0
    ensures HandleEvent(c, Event(revents, ReadOk([]), [], write)).c.state == Disconnected <==> revents & 0x13 != 0
  {
    hide ConnInv, SelectsClose, SelectsRead, SelectsWrite, HandleClose, HandleRead, HandleWrite;
    SelectionIs(revents);
    assert revents & 0x13 != 0 <==> revents & 0x10 != 0 || revents & 0x3 != 0;
    assert revents & 0x3 == 0 ==> revents & 0x1 == 0;
    var failed := Event(revents, ReadFailed(errno), [], write);
    var ended := Event(revents, ReadOk([]), [], write);
    CloseKeeps(c, failed);
    CloseKeeps(c, ended);
    var a := AfterClose(c, failed);
    ReadThenCalls(a, [], errno, []);
    CloseDoes(a);
    WriteLeavesInput(a, write);
    WriteLeavesInput(AfterRead(a, ended), write);
  }

  /** A report that carries none of 0x1, 0x2, 0x4 and 0x10 runs no handler that changes anything. */
  lemma OtherReportsDoNothing(c: Conn, ev: Event)
    requires ConnInv(c) && ev.revents & 0x17 == 0
    ensures HandleEvent(c, ev) == Out(c, [])
  {
    SelectionIs(ev.revents);
    assert ev.revents & 0x10 == 0 && ev.revents & 0x3 == 0 && ev.revents & 0x4 == 0;
    hide ConnInv, SelectsClose, SelectsRead, SelectsWrite;
  }

  /** Any part of what is asked for when reading or writing is enabled runs that handler; and nothing is asked
      for when all is disabled. */
  lemma AskedIsHandled(revents: Mask)
    ensures revents & Changed(EnableReading, 0) != 0 <==> SelectsRead(revents)
    ensures revents & Changed(EnableWriting, 0) != 0 <==> SelectsWrite(revents)
    ensures Changed(EnableReading, 0) == 0x3 && Changed(EnableWriting, 0) == 0x4
    ensures forall events :: Changed(DisableAll, events) == 0
  {
  }
}
