/** Runs that end where one would not expect: each starts with a new connection. */
module ConnectionFailures {
  import opened Prelude
  import opened BufferSpec
  import opened EPollSpec
  import opened ConnectionSpec
  import opened ConnectionProofs
  import opened ConnectionTheorems
  import opened ConnectionOutput

  lemma FirstStep(c: Conn, step: Step, rest: seq<Step>)
    requires c.input.Valid() && Enabled(c, step) && LegalSteps(Next(c, step).c, rest)
    ensures LegalSteps(c, [step] + rest) && RunSteps(c, [step] + rest).c == RunSteps(Next(c, step).c, rest).c
  {
    PrependStep(c, true, step, rest);
  }

  function Opened(wc: bool, hw: bool, mark: nat): Conn {
    Establish(Created(wc, hw, mark)).c
  }

  lemma OpenedIsOpen(wc: bool, hw: bool, mark: nat)
    ensures var c := Opened(wc, hw, mark);
            && ConnInv(c) && c.state == Connected && WritesDirectly(c) && c.output.bytes == []
            && c.hist == NO_HISTORY.(ups := 1)
  {
    CreatedInv(wc, hw, mark);
    EstablishKeepsInv(Created(wc, hw, mark));
    OpenMaskWriting(Opened(wc, hw, mark));
  }

  /** A run of a new connection that is established first. */
  lemma RunFromOpened(wc: bool, hw: bool, mark: nat, rest: seq<Step>)
    requires LegalSteps(Opened(wc, hw, mark), rest)
    ensures LegalSteps(Created(wc, hw, mark), [EstablishStep] + rest)
    ensures Reached(wc, hw, mark, [EstablishStep] + rest) == RunSteps(Opened(wc, hw, mark), rest).c
  {
    CreatedInv(wc, hw, mark);
    FirstStep(Created(wc, hw, mark), EstablishStep, rest);
  }

  lemma OneStepRun(c: Conn, step: Step)
    requires c.input.Valid() && Enabled(c, step)
    ensures LegalSteps(c, [step]) && RunSteps(c, [step]).c == Next(c, step).c
  {
    hide Next, Enabled;
    FirstStep(c, step, []);
    assert [step] + [] == [step];
  }

  /** A message is lost, and the connection stays Connected. */
  lemma SendIsLost(wc: bool, hw: bool, mark: nat, b: Byte)
    ensures var run := [EstablishStep] + [CallStep(SendCall([b], WriteFailed(BrokenPipe)))];
            && LegalSteps(Created(wc, hw, mark), run)
            && var c := Reached(wc, hw, mark, run);
               c.state == Connected && c.hist.kept == [] && c.hist.toKernel == [] && c.output.bytes == []
  {
    OpenedIsOpen(wc, hw, mark);
    hide ConnInv, Opened, LegalSteps, RunSteps, IsWriting;
    var send := CallStep(SendCall([b], WriteFailed(BrokenPipe)));
    InputOf(Opened(wc, hw, mark));
    OneStepRun(Opened(wc, hw, mark), send);
    RunFromOpened(wc, hw, mark, [send]);
  }

  lemma InputOf(c: Conn)
    requires ConnInv(c)
    ensures c.input.Valid()
  {
  }

  /** Half-closed at once, by a shutdown on the loop thread. */
  lemma OpenedThenShut(wc: bool, hw: bool, mark: nat)
    ensures var c := Shutdown(Opened(wc, hw, mark));
            && ConnInv(c) && c.state == Disconnecting && WritesDirectly(c) && c.output.bytes == []
            && c.hist == NO_HISTORY.(ups := 1, shuts := [0])
  {
    OpenedIsOpen(wc, hw, mark);
    ShutdownKeepsInv(Opened(wc, hw, mark));
    hide ConnInv, Opened, Has;
  }

  /** The run in which `msg` is posted while the connection is Connected, and its functor runs after the loop
      thread has half-closed. */
  function LateSend(msg: seq<Byte>, answer: WriteResult): seq<Step> {
    [EstablishStep] + ([CallStep(ShutdownCall)] + [PostedSend(msg, answer)])
  }

  lemma LateSendRuns(wc: bool, hw: bool, mark: nat, msg: seq<Byte>, answer: WriteResult)
    ensures LegalSteps(Created(wc, hw, mark), LateSend(msg, answer))
    ensures Reached(wc, hw, mark, LateSend(msg, answer)) == SendInLoop(Shutdown(Opened(wc, hw, mark)), msg, answer).c
  {
    OpenedIsOpen(wc, hw, mark);
    OpenedThenShut(wc, hw, mark);
    hide ConnInv, Opened, Shutdown, SendInLoop, LegalSteps, RunSteps, WritesDirectly;
    var c := Opened(wc, hw, mark);
    InputOf(c);
    InputOf(Shutdown(c));
    OneStepRun(Shutdown(c), PostedSend(msg, answer));
    FirstStep(c, CallStep(ShutdownCall), [PostedSend(msg, answer)]);
    RunFromOpened(wc, hw, mark, [CallStep(ShutdownCall)] + [PostedSend(msg, answer)]);
  }

  /** A socket that still took bytes would be given one after SHUT_WR. */
  lemma LateSendBreaksHalfClose(wc: bool, hw: bool, mark: nat, b: Byte)
    ensures var run := LateSend([b], Wrote(1));
            && LegalSteps(Created(wc, hw, mark), run)
            && var c := Reached(wc, hw, mark, run);
               c.hist.shuts == [0] && c.hist.toKernel == [b] && !HalfCloseSound(c)
  {
    LateSendRuns(wc, hw, mark, [b], Wrote(1));
    OpenedThenShut(wc, hw, mark);
    hide ConnInv, Opened, Shutdown, LegalSteps, RunSteps, IsWriting, Reached;
  }

  /** On Linux the write meets a broken pipe: a message posted while Connected is lost. */
  lemma PostedSendIsLost(wc: bool, hw: bool, mark: nat, b: Byte)
    ensures var run := LateSend([b], WriteFailed(BrokenPipe));
            && LegalSteps(Created(wc, hw, mark), run)
            && Opened(wc, hw, mark).state == Connected
            && var c := Reached(wc, hw, mark, run);
               c.hist.shuts == [0] && c.hist.kept == [] && c.hist.toKernel == [] && c.output.bytes == []
  {
    LateSendRuns(wc, hw, mark, [b], WriteFailed(BrokenPipe));
    OpenedIsOpen(wc, hw, mark);
    OpenedThenShut(wc, hw, mark);
    hide ConnInv, Opened, Shutdown, LegalSteps, RunSteps, IsWriting, Reached;
  }

  /** connectDestroyed in that state would leave it Disconnecting with nothing registered. */
  lemma DestroyWhileHalfClosing(wc: bool, hw: bool, mark: nat)
    ensures var c := Destroy(Shutdown(Opened(wc, hw, mark))).c;
            c.state == Disconnecting && c.chan.interest == None && !StackAgrees(c)
  {
    OpenedThenShut(wc, hw, mark);
    DestroyAgreesIff(Shutdown(Opened(wc, hw, mark)));
    hide ConnInv, Opened, Shutdown, StackAgrees;
  }

  // ----- Two half-closes -----

  /** A byte waits; another thread shuts down; the drain half-closes, and so does that thread's functor. */
  function ShutTwice(b: Byte): seq<Step> {
    [EstablishStep] + ([CallStep(SendCall([b], WriteFailed(WouldBlock)))]
      + ([ShutdownElsewhere] + ([WriteStep(Wrote(1))] + [PostedShutdown])))
  }

  lemma OneByteWaits(wc: bool, hw: bool, mark: nat, b: Byte)
    ensures var c := SendInLoop(Opened(wc, hw, mark), [b], WriteFailed(WouldBlock)).c;
            && ConnInv(c) && c.state == Connected && c.output.bytes == [b]
            && c.hist == NO_HISTORY.(ups := 1, kept := [[b]])
  {
    var c := Opened(wc, hw, mark);
    OpenedIsOpen(wc, hw, mark);
    SendInLoopKeepsInv(c, [b], WriteFailed(WouldBlock));
    AppendIsQueue(c.output, [b]);
    hide ConnInv, Opened, Append, SliceSet, Changed, IsWriting;
  }

  lemma DrainedOnce(c: Conn)
    requires ConnInv(c) && c.state == Disconnecting && |c.output.bytes| == 1 && c.hist.shuts == []
    ensures var d := HandleWrite(c, Wrote(1)).c;
            && ConnInv(d) && d.state == Disconnecting && !IsWriting(d)
            && d.hist.shuts == [|c.hist.toKernel| + 1] && d.hist.toKernel == c.hist.toKernel + c.output.bytes
  {
    OpenMaskWriting(c);
    HandleWriteKeepsInv(c, Wrote(1));
    OpenMaskWriting(HandleWrite(c, Wrote(1)).c);
    assert c.output.bytes[..1] == c.output.bytes;
    hide SliceSet, Changed, Has, StreamsConserved, CallbacksCounted;
  }

  lemma ShutdownElsewhereShutsTwice(wc: bool, hw: bool, mark: nat, b: Byte)
    ensures LegalSteps(Created(wc, hw, mark), ShutTwice(b))
    ensures Reached(wc, hw, mark, ShutTwice(b)).hist.shuts == [1, 1]
  {
    var c1 := Opened(wc, hw, mark);
    var c2 := SendInLoop(c1, [b], WriteFailed(WouldBlock)).c;
    OpenedIsOpen(wc, hw, mark);
    OneByteWaits(wc, hw, mark, b);
    hide Opened, SendInLoop, LegalSteps, RunSteps, WritesDirectly, IsWriting;
    var c3 := c2.(state := Disconnecting);
    ElsewhereKeepsInv(c2);
    DrainedOnce(c3);
    hide ConnInv, HandleWrite;
    var c4 := HandleWrite(c3, Wrote(1)).c;
    InputOf(c1);
    InputOf(c2);
    InputOf(c3);
    InputOf(c4);
    OneStepRun(c4, PostedShutdown);
    FirstStep(c3, WriteStep(Wrote(1)), [PostedShutdown]);
    FirstStep(c2, ShutdownElsewhere, [WriteStep(Wrote(1))] + [PostedShutdown]);
    FirstStep(c1, CallStep(SendCall([b], WriteFailed(WouldBlock))),
      [ShutdownElsewhere] + ([WriteStep(Wrote(1))] + [PostedShutdown]));
    RunFromOpened(wc, hw, mark, [CallStep(SendCall([b], WriteFailed(WouldBlock)))]
      + ([ShutdownElsewhere] + ([WriteStep(Wrote(1))] + [PostedShutdown])));
  }

  lemma ElsewhereKeepsInv(c: Conn)
    requires ConnInv(c) && c.state == Connected
    ensures ConnInv(c.(state := Disconnecting))
  {
    NextKeepsInv(c, ShutdownElsewhere);
  }
}
