/** Output of a connection over whole runs: the byte stream, the half-close, and the callbacks about it. */
module ConnectionOutput {
  import opened Prelude
  import opened BufferSpec
  import opened EPollSpec
  import opened ConnectionSpec
  import opened ConnectionProofs
  import opened ConnectionTheorems

  // ----- The stream -----

  /** In every reachable state the kernel has been given a prefix of the kept messages, in the order
      sendInLoop took them, and the rest waits in the output buffer; input likewise. */
  lemma StreamConservation(wc: bool, hw: bool, mark: nat, steps: seq<Step>)
    requires LegalSteps(Created(wc, hw, mark), steps)
    ensures var c := Reached(wc, hw, mark, steps);
            && c.hist.toKernel + c.output.bytes == Flatten(c.hist.kept)
            && c.hist.received == c.hist.consumed + c.input.bytes
  {
    StepsKeepInv(Created(wc, hw, mark), steps);
  }

  /** Which messages are kept: all but those for a closed connection and those a broken direct write
      loses, and a kept one is appended once, whole. The others leave both streams alone. */
  lemma SendKeepsOrDrops(c: Conn, msg: seq<Byte>, answer: WriteResult)
    ensures var d := SendInLoop(c, msg, answer).c;
            && d.hist.kept ==
                 (if c.state == Disconnected || DropsMessage(c, answer) then c.hist.kept else c.hist.kept + [msg])
            && (c.state == Disconnected || DropsMessage(c, answer) ==> d == c)
            && (DropsMessage(c, answer) ==> c.output.bytes == [])
  {
    hide Append, SliceSet, Changed, Taken, DirectlyWritten;
  }

  // ----- Half-close by callers on the loop thread -----

  /** The steps of callers on the loop thread. */
  predicate OnLoop(step: Step) {
    !step.PostedSend? && !step.ShutdownElsewhere? && !step.PostedShutdown?
  }

  predicate AllOnLoop(steps: seq<Step>) {
    forall i :: 0 <= i < |steps| ==> OnLoop(steps[i])
  }

  /** No SHUT_WR yet, and one is owed only while bytes wait; or exactly one, after the last byte. */
  predicate HalfCloseSound(c: Conn) {
    if c.hist.shuts == [] then c.state == Disconnecting ==> c.output.bytes != []
    else
      && c.hist.shuts == [|c.hist.toKernel|]
      && c.output.bytes == []
      && (c.state == Disconnecting || c.state == Disconnected)
  }

  lemma OpenMaskWriting(c: Conn)
    requires StackOpen(c)
    ensures IsWriting(c) <==> c.output.bytes != []
  {
  }

  lemma SendKeepsHalfClose(c: Conn, msg: seq<Byte>, answer: WriteResult)
    requires ConnInv(c) && HalfCloseSound(c)
    ensures HalfCloseSound(Send(c, msg, answer).c)
  {
    if c.state == Connected { OpenMaskWriting(c); }
    hide Append, SliceSet, Changed, Taken, Flatten, DirectlyWritten;
  }

  lemma ShutdownKeepsHalfClose(c: Conn)
    requires ConnInv(c) && HalfCloseSound(c)
    ensures HalfCloseSound(Shutdown(c))
  {
    if c.state == Connected {
      OpenMaskWriting(c);
    }
    hide Flatten, Has;
  }

  lemma {:induction false} CallAllKeepsHalfClose(c: Conn, calls: seq<UserCall>)
    requires ConnInv(c) && HalfCloseSound(c)
    ensures HalfCloseSound(CallAll(c, calls).c)
    decreases |calls|
  {
    if calls != [] {
      CallKeepsInv(c, calls[0]);
      CallKeepsHalfClose(c, calls[0]);
      CallAllKeepsHalfClose(Call(c, calls[0]).c, calls[1..]);
      hide Call;
    }
  }

  lemma CallKeepsHalfClose(c: Conn, call: UserCall)
    requires ConnInv(c) && HalfCloseSound(c)
    ensures HalfCloseSound(Call(c, call).c)
  {
    match call
    case SendCall(msg, answer) => SendKeepsHalfClose(c, msg, answer);
    case ShutdownCall => ShutdownKeepsHalfClose(c);
    case RetrieveCall(len) =>
  }

  lemma HandleWriteKeepsHalfClose(c: Conn, answer: WriteResult)
    requires ConnInv(c) && HalfCloseSound(c)
    ensures HalfCloseSound(HandleWrite(c, answer).c)
  {
    if IsUp(c) { OpenMaskWriting(c); }
    HandleWriteKeepsInv(c, answer);
    var d := HandleWrite(c, answer).c;
    if IsUp(d) { OpenMaskWriting(d); }
    hide Retrieve, Changed, SliceSet, Flatten;
  }

  lemma HandleReadKeepsHalfClose(c: Conn, answer: ReadResult, calls: seq<UserCall>)
    requires ConnInv(c) && HalfCloseSound(c) && c.state != Connecting && !c.hist.destroyed
    ensures HalfCloseSound(HandleRead(c, answer, calls).c)
  {
    if answer.ReadOk? {
      var data := Delivered(c, answer.data);
      ScatterReadIsExact(c.input, data);
      var d := c.(input := ReadFd(c.input, data), hist := c.hist.(received := c.hist.received + data));
      if data != [] {
        CallAllKeepsHalfClose(d, calls);
      }
    }
    hide ReadFd, SliceSet, Flatten;
  }

  lemma NextKeepsHalfClose(c: Conn, step: Step)
    requires ConnInv(c) && HalfCloseSound(c) && Enabled(c, step) && OnLoop(step)
    ensures HalfCloseSound(Next(c, step).c)
  {
    hide SliceSet, Flatten, ConnInv, Changed;
    match step
    case ReadStep(read, calls) => HandleReadKeepsHalfClose(c, read, calls);
    case WriteStep(write) => HandleWriteKeepsHalfClose(c, write);
    case CallStep(call) => CallKeepsHalfClose(c, call);
    case _ =>
  }

  lemma {:induction false} StepsKeepHalfClose(c: Conn, steps: seq<Step>)
    requires ConnInv(c) && HalfCloseSound(c) && LegalSteps(c, steps) && AllOnLoop(steps)
    ensures HalfCloseSound(RunSteps(c, steps).c)
    decreases |steps|
  {
    if steps != [] {
      NextKeepsInv(c, steps[0]);
      NextKeepsHalfClose(c, steps[0]);
      StepsKeepHalfClose(Next(c, steps[0]).c, steps[1..]);
      hide Next, Enabled;
    }
  }

  /** With loop-thread callers: SHUT_WR is issued at most once; it was issued when every kept byte had
      reached the kernel; and the kernel has been given nothing since. */
  lemma GracefulHalfClose(wc: bool, hw: bool, mark: nat, steps: seq<Step>)
    requires LegalSteps(Created(wc, hw, mark), steps) && AllOnLoop(steps)
    ensures var h := Reached(wc, hw, mark, steps).hist;
            |h.shuts| <= 1 && (|h.shuts| == 1 ==> h.toKernel == Flatten(h.kept) && h.shuts[0] == |h.toKernel|)
  {
    StepsKeepHalfClose(Created(wc, hw, mark), steps);
    StreamConservation(wc, hw, mark, steps);
  }

  /** A send queued by another thread keeps that promise exactly when it finds no SHUT_WR issued, or
      has nothing to write, or is refused or dropped. The answers that break it are those of a socket that
      would still take bytes, or asks to be tried again, after SHUT_WR; Linux answers with a broken pipe. */
  lemma PostedSendKeepsHalfCloseIff(c: Conn, msg: seq<Byte>, answer: WriteResult)
    requires ConnInv(c) && HalfCloseSound(c) && c.state != Connecting
    ensures HalfCloseSound(SendInLoop(c, msg, answer).c) <==>
              c.hist.shuts == [] || msg == [] || c.state == Disconnected || DropsMessage(c, answer)
  {
    if IsUp(c) {
      OpenMaskWriting(c);
      var nwrote := DirectlyWritten(c, msg, answer);
      AppendIsQueue(c.output, msg[nwrote..]);
    }
    hide Append, SliceSet, Changed, Flatten, Has;
  }

  /** After the half-close a write meets a broken pipe, and then the late message is lost whole. */
  lemma LateSendIsLost(c: Conn, msg: seq<Byte>)
    requires ConnInv(c) && HalfCloseSound(c) && IsUp(c) && c.hist.shuts != []
    ensures SendInLoop(c, msg, WriteFailed(BrokenPipe)) == Out(c, [])
  {
    OpenMaskWriting(c);
  }
}
