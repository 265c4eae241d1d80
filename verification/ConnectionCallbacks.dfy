/** Lifecycle, draining and callback accounting of a connection, over whole runs. */
module ConnectionCallbacks {
  import opened Prelude
  import opened BufferSpec
  import opened EPollSpec
  import opened ConnectionSpec
  import opened ConnectionProofs
  import opened ConnectionTheorems
  import opened ConnectionOutput

  // ----- Lifecycle -----

  function Rank(s: State): nat {
    match s
    case Connecting => 0
    case Connected => 1
    case Disconnecting => 2
    case Disconnected => 3
  }

  lemma CallAdvances(c: Conn, call: UserCall)
    ensures Rank(c.state) <= Rank(Call(c, call).c.state)
  {
    hide Append, Retrieve, SliceSet, Changed, Has, Taken;
  }

  lemma {:induction false} CallAllAdvances(c: Conn, calls: seq<UserCall>)
    ensures Rank(c.state) <= Rank(CallAll(c, calls).c.state)
    decreases |calls|
  {
    if calls != [] {
      CallAdvances(c, calls[0]);
      CallAllAdvances(Call(c, calls[0]).c, calls[1..]);
      hide Call;
    }
  }

  lemma NextAdvances(c: Conn, step: Step)
    requires ConnInv(c) && Enabled(c, step)
    ensures Rank(c.state) <= Rank(Next(c, step).c.state)
  {
    match step
    case ReadStep(read, calls) =>
      if read.ReadOk? {
        var data := Delivered(c, read.data);
        CallAllAdvances(c.(input := ReadFd(c.input, data), hist := c.hist.(received := c.hist.received + data)), calls);
      }
      hide ReadFd, SliceSet, Changed, LayersAgree, StreamsConserved;
    case WriteStep(write) => HandleWriteKeepsInv(c, write);
    case CallStep(call) => CallAdvances(c, call);
    case PostedSend(msg, answer) => SendInLoopKeepsInv(c, msg, answer);
    case _ => hide LayersAgree, StreamsConserved;
  }

  /** Over any run the state only moves forward. */
  lemma {:induction false} StateOnlyAdvances(c: Conn, steps: seq<Step>)
    requires ConnInv(c) && LegalSteps(c, steps)
    ensures Rank(c.state) <= Rank(RunSteps(c, steps).c.state)
    decreases |steps|
  {
    if steps != [] {
      NextKeepsInv(c, steps[0]);
      NextAdvances(c, steps[0]);
      StateOnlyAdvances(Next(c, steps[0]).c, steps[1..]);
      hide Next, Enabled;
    }
  }

  /** What another thread posted while the connection was Connected can run whenever the loop gets to it. */
  lemma PostedRunsWhenever(c: Conn, steps: seq<Step>, msg: seq<Byte>, answer: WriteResult)
    requires ConnInv(c) && LegalSteps(c, steps)
    ensures var d := RunSteps(c, steps).c;
            && (c.state == Connected ==> Enabled(d, PostedSend(msg, answer)))
            && (c.state == Disconnecting ==> Enabled(d, PostedShutdown))
  {
    StateOnlyAdvances(c, steps);
  }

  /** The effects account for the ups and downs that the history records. */
  predicate Accounts(c: Conn, o: Out) {
    && multiset(o.fx)[ConnectionChanged(true)] == o.c.hist.ups - c.hist.ups
    && multiset(o.fx)[ConnectionChanged(false)] == o.c.hist.downs - c.hist.downs
    && multiset(o.fx)[CloseCallback] <= multiset(o.fx)[ConnectionChanged(false)]
  }

  lemma CallAccounts(c: Conn, call: UserCall)
    ensures Accounts(c, Call(c, call))
  {
    hide Append, Retrieve, SliceSet, Changed, Has, Taken;
  }

  lemma {:induction false} CallAllAccounts(c: Conn, calls: seq<UserCall>)
    ensures Accounts(c, CallAll(c, calls))
    decreases |calls|
  {
    if calls != [] {
      CallAccounts(c, calls[0]);
      CallAllAccounts(Call(c, calls[0]).c, calls[1..]);
      hide Call;
    }
  }

  lemma SendInLoopAccounts(c: Conn, msg: seq<Byte>, answer: WriteResult)
    ensures Accounts(c, SendInLoop(c, msg, answer))
  {
    hide Append, SliceSet, Changed, Has, Taken, DirectlyWritten;
  }

  lemma HandleWriteAccounts(c: Conn, answer: WriteResult)
    ensures Accounts(c, HandleWrite(c, answer))
  {
    hide Retrieve, SliceSet, Changed, Has;
  }

  lemma HandleCloseAccounts(c: Conn)
    ensures Accounts(c, HandleClose(c))
  {
    hide SliceSet, Changed;
  }

  lemma HandleReadAccounts(c: Conn, read: ReadResult, calls: seq<UserCall>)
    requires ConnInv(c)
    ensures Accounts(c, HandleRead(c, read, calls))
  {
    if read.ReadOk? {
      var data := Delivered(c, read.data);
      var d := c.(input := ReadFd(c.input, data), hist := c.hist.(received := c.hist.received + data));
      CallAllAccounts(d, calls);
      HandleCloseAccounts(d);
    }
    hide ReadFd, HandleClose, CallAll, StackAgrees, CallbacksCounted, StreamsConserved;
  }

  lemma NextAccounts(c: Conn, step: Step)
    requires ConnInv(c) && Enabled(c, step)
    ensures Accounts(c, Next(c, step))
  {
    hide SliceSet, Changed, StackAgrees, CallbacksCounted, StreamsConserved, HandleRead, HandleWrite, SendInLoop, Call;
    match step
    case ReadStep(read, calls) => HandleReadAccounts(c, read, calls);
    case WriteStep(write) => HandleWriteAccounts(c, write);
    case CallStep(call) => CallAccounts(c, call);
    case PostedSend(msg, answer) => SendInLoopAccounts(c, msg, answer);
    case _ =>
  }

  lemma {:induction false} StepsAccount(c: Conn, steps: seq<Step>)
    requires ConnInv(c) && LegalSteps(c, steps)
    ensures Accounts(c, RunSteps(c, steps))
    decreases |steps|
  {
    if steps != [] {
      NextKeepsInv(c, steps[0]);
      NextAccounts(c, steps[0]);
      StepsAccount(Next(c, steps[0]).c, steps[1..]);
      hide Next, Enabled;
    }
  }

  // ----- Draining -----

  /** Handlers that do not close the connection, run for loop-thread callers. */
  predicate Quiet(step: Step) {
    step.WriteStep? || step.CallStep? || (step.ReadStep? && !EndOfFile(step.read))
  }

  predicate AllQuiet(steps: seq<Step>) {
    forall i :: 0 <= i < |steps| ==> Quiet(steps[i])
  }

  predicate WritesSome(step: Step) {
    step.WriteStep? && step.write.Wrote? && step.write.n > 0
  }

  function SuccessfulWrites(steps: seq<Step>): nat {
    if steps == [] then 0 else (if WritesSome(steps[0]) then 1 else 0) + SuccessfulWrites(steps[1..])
  }

  lemma {:induction false} CallAllWhileDraining(c: Conn, calls: seq<UserCall>)
    requires c.state == Disconnecting
    ensures var d := CallAll(c, calls).c;
            d.state == Disconnecting && d.output == c.output && d.hist.shuts == c.hist.shuts
    decreases |calls|
  {
    if calls != [] {
      CallAllWhileDraining(Call(c, calls[0]).c, calls[1..]);
    }
  }

  /** While a half-close waits, the backlog never grows and every successful write shrinks it. */
  lemma NextWhileDraining(c: Conn, step: Step)
    requires ConnInv(c) && c.state == Disconnecting && Enabled(c, step) && Quiet(step)
    ensures var d := Next(c, step).c;
            && d.state == Disconnecting && Backlog(d) <= Backlog(c)
            && (WritesSome(step) && Backlog(c) > 0 ==> Backlog(d) < Backlog(c))
  {
    match step
    case WriteStep(write) =>
      OpenMaskWriting(c);
      hide SliceSet, Changed, LayersAgree, StreamsConserved;
    case ReadStep(read, calls) =>
      if read.ReadOk? {
        var data := Delivered(c, read.data);
        ScatterReadIsExact(c.input, data);
        var h := c.hist.(received := c.hist.received + data);
        CallAllWhileDraining(c.(input := ReadFd(c.input, data), hist := h), calls);
      }
      hide ReadFd, LayersAgree, StreamsConserved;
    case CallStep(call) =>
  }

  /** After as many successful writes as bytes were waiting, the backlog is gone, writing is off, and
      SHUT_WR has been issued exactly once. */
  lemma {:induction false} HalfCloseDrains(c: Conn, steps: seq<Step>)
    requires ConnInv(c) && HalfCloseSound(c) && c.state == Disconnecting
    requires LegalSteps(c, steps) && AllQuiet(steps)
    ensures var d := RunSteps(c, steps).c;
            && d.state == Disconnecting && Backlog(d) <= Backlog(c) - Min(Backlog(c), SuccessfulWrites(steps))
            && (SuccessfulWrites(steps) >= Backlog(c) ==> Backlog(d) == 0 && !IsWriting(d) && |d.hist.shuts| == 1)
    decreases |steps|
  {
    if steps == [] {
      if Backlog(c) == 0 { OpenMaskWriting(c); }
    } else {
      var d := Next(c, steps[0]).c;
      NextKeepsInv(c, steps[0]);
      NextKeepsHalfClose(c, steps[0]);
      NextWhileDraining(c, steps[0]);
      HalfCloseDrains(d, steps[1..]);
      hide Next, Enabled, LayersAgree, StreamsConserved;
    }
  }

  // ----- A shutdown on another thread -----

  /** While the state is Disconnecting, SHUT_WR is issued by a drain that leaves nothing waiting, and by
      nothing else. */
  lemma NextWhileShutting(c: Conn, step: Step)
    requires ConnInv(c) && c.state == Disconnecting && Enabled(c, step) && Quiet(step)
    ensures var d := Next(c, step).c;
            |d.hist.shuts| == |c.hist.shuts| + (if Backlog(c) > 0 && Backlog(d) == 0 then 1 else 0)
  {
    OpenMaskWriting(c);
    match step
    case WriteStep(write) =>
      HandleWriteKeepsInv(c, write);
      OpenMaskWriting(HandleWrite(c, write).c);
      hide SliceSet, Changed, LayersAgree, StreamsConserved, Has, Retrieve;
    case ReadStep(read, calls) =>
      if read.ReadOk? {
        var data := Delivered(c, read.data);
        var h := c.hist.(received := c.hist.received + data);
        CallAllWhileDraining(c.(input := ReadFd(c.input, data), hist := h), calls);
      }
      hide ReadFd, LayersAgree, StreamsConserved;
    case CallStep(call) =>
  }

  lemma {:induction false} StepsWhileShutting(c: Conn, steps: seq<Step>)
    requires ConnInv(c) && c.state == Disconnecting && LegalSteps(c, steps) && AllQuiet(steps)
    ensures var d := RunSteps(c, steps).c;
            && ConnInv(d) && d.state == Disconnecting && Backlog(d) <= Backlog(c)
            && |d.hist.shuts| == |c.hist.shuts| + (if Backlog(c) > 0 && Backlog(d) == 0 then 1 else 0)
    decreases |steps|
  {
    if steps != [] {
      NextKeepsInv(c, steps[0]);
      NextWhileDraining(c, steps[0]);
      NextWhileShutting(c, steps[0]);
      StepsWhileShutting(Next(c, steps[0]).c, steps[1..]);
      hide Next, Enabled, LayersAgree, StreamsConserved;
    }
  }

  /** Another thread's shutdown stores the state, handlers run, and then the functor it queued. That
      half-closes twice exactly when bytes were waiting and the handlers drained them, once when none were
      waiting, and else not yet: the drain already sees the new state. */
  lemma ShutdownElsewhereShutsTwiceIff(c: Conn, steps: seq<Step>)
    requires ConnInv(c) && c.state == Connected && c.hist.shuts == []
    requires LegalSteps(Next(c, ShutdownElsewhere).c, steps) && AllQuiet(steps)
    ensures var d := RunSteps(Next(c, ShutdownElsewhere).c, steps).c;
            && d.input.Valid() && Enabled(d, PostedShutdown)
            && |Next(d, PostedShutdown).c.hist.shuts| ==
                 (if Backlog(d) > 0 then 0 else if Backlog(c) > 0 then 2 else 1)
  {
    NextKeepsInv(c, ShutdownElsewhere);
    StepsWhileShutting(Next(c, ShutdownElsewhere).c, steps);
    OpenMaskWriting(RunSteps(Next(c, ShutdownElsewhere).c, steps).c);
    hide RunSteps, StackAgrees, CallbacksCounted, StreamsConserved, IsWriting;
  }

  // ----- Callback accounting -----

  /** How many high-water functors a piece of a run queues. */
  function HighWaters(fx: seq<Effect>): nat {
    if fx == [] then 0 else (if fx[|fx| - 1].QueueHighWater? then 1 else 0) + HighWaters(fx[..|fx| - 1])
  }

  lemma {:induction false} HighWatersConcat(a: seq<Effect>, b: seq<Effect>)
    ensures HighWaters(a + b) == HighWaters(a) + HighWaters(b)
    decreases |b|
  {
    if b == [] {
      assert a + b == a;
    } else {
      assert (a + b)[..|a + b| - 1] == a + b[..|b| - 1];
      HighWatersConcat(a, b[..|b| - 1]);
    }
  }

  predicate AtMark(c: Conn) {
    c.mark <= Backlog(c)
  }

  function Crossing(c: Conn, d: Conn): nat {
    if !AtMark(c) && AtMark(d) then 1 else 0
  }

  lemma OneEffect(e: Effect)
    ensures HighWaters([]) == 0 && HighWaters([e]) == if e.QueueHighWater? then 1 else 0
  {
    assert [e][..0] == [];
  }

  lemma BufferRestCrosses(c: Conn, rest: seq<Byte>)
    requires c.output.Valid() && rest != []
    ensures var o := BufferRest(c, rest);
            && o.c.mark == c.mark && o.c.highWaterSet == c.highWaterSet && o.c.output.Valid()
            && Backlog(o.c) == Backlog(c) + |rest|
            && (c.highWaterSet ==> HighWaters(o.fx) == Crossing(c, o.c))
  {
    AppendIsQueue(c.output, rest);
    OneEffect(QueueHighWater(Backlog(c) + |rest|));
    hide Append, SliceSet, Changed, Has, HighWaters;
  }

  lemma SendCrosses(c: Conn, msg: seq<Byte>, answer: WriteResult)
    requires c.output.Valid()
    ensures var o := SendInLoop(c, msg, answer);
            && o.c.mark == c.mark && o.c.highWaterSet == c.highWaterSet && o.c.output.Valid()
            && Backlog(c) <= Backlog(o.c)
            && (c.highWaterSet ==> HighWaters(o.fx) == Crossing(c, o.c))
  {
    var nwrote := DirectlyWritten(c, msg, answer);
    var d := c.(hist := c.hist.(kept := c.hist.kept + [msg], toKernel := c.hist.toKernel + msg[..nwrote]));
    if nwrote < |msg| {
      BufferRestCrosses(d, msg[nwrote..]);
    }
    OneEffect(QueueWriteComplete);
    hide BufferRest, DirectlyWritten, WritesDirectly, HighWaters;
  }

  /** The length a high-water functor carries is the backlog right after the send that queued it. */
  lemma HighWaterTellsBacklog(c: Conn, msg: seq<Byte>, answer: WriteResult, len: nat)
    requires c.output.Valid() && QueueHighWater(len) in SendInLoop(c, msg, answer).fx
    ensures len == Backlog(SendInLoop(c, msg, answer).c) && len >= c.mark
  {
    AppendIsQueue(c.output, msg[DirectlyWritten(c, msg, answer)..]);
    hide Append, SliceSet, Changed, Has, DirectlyWritten;
  }

  lemma {:induction false} CallAllCrosses(c: Conn, calls: seq<UserCall>)
    requires c.output.Valid() && c.highWaterSet
    ensures var o := CallAll(c, calls);
            && o.c.mark == c.mark && o.c.highWaterSet && o.c.output.Valid()
            && Backlog(c) <= Backlog(o.c) && HighWaters(o.fx) == Crossing(c, o.c)
    decreases |calls|
  {
    if calls != [] {
      CallCrosses(c, calls[0]);
      var first := Call(c, calls[0]);
      CallAllCrosses(first.c, calls[1..]);
      HighWatersConcat(first.fx, CallAll(first.c, calls[1..]).fx);
      hide Call, HighWaters;
    }
  }

  lemma CallCrosses(c: Conn, call: UserCall)
    requires c.output.Valid() && c.highWaterSet
    ensures var o := Call(c, call);
            && o.c.mark == c.mark && o.c.highWaterSet && o.c.output.Valid()
            && Backlog(c) <= Backlog(o.c) && HighWaters(o.fx) == Crossing(c, o.c)
  {
    if call.SendCall? { SendCrosses(c, call.msg, call.answer); }
    hide SendInLoop;
  }

  lemma ReadCrosses(c: Conn, read: ReadResult, calls: seq<UserCall>)
    requires ConnInv(c) && c.highWaterSet
    ensures var o := HandleRead(c, read, calls);
            o.c.mark == c.mark && o.c.highWaterSet && HighWaters(o.fx) == Crossing(c, o.c)
  {
    if read.ReadOk? {
      var data := Delivered(c, read.data);
      ScatterReadIsExact(c.input, data);
      CallAllCrosses(c.(input := ReadFd(c.input, data), hist := c.hist.(received := c.hist.received + data)), calls);
    }
    hide ReadFd, SliceSet, Changed, LayersAgree, StreamsConserved;
  }

  lemma WriteCrosses(c: Conn, answer: WriteResult)
    requires ConnInv(c) && c.highWaterSet
    ensures var o := HandleWrite(c, answer);
            o.c.mark == c.mark && o.c.highWaterSet && HighWaters(o.fx) == Crossing(c, o.c)
  {
    OneEffect(QueueWriteComplete);
    hide SliceSet, Changed, LayersAgree, StreamsConserved, Has, HighWaters;
  }

  /** A step queues a high-water functor exactly when it takes the backlog from below the mark to it. */
  lemma NextCrosses(c: Conn, step: Step)
    requires ConnInv(c) && c.highWaterSet && Enabled(c, step)
    ensures var o := Next(c, step);
            o.c.mark == c.mark && o.c.highWaterSet && HighWaters(o.fx) == Crossing(c, o.c)
  {
    hide SliceSet, Changed, SendInLoop, HandleRead, HandleWrite, StackAgrees, CallbacksCounted, StreamsConserved;
    match step
    case ReadStep(read, calls) => ReadCrosses(c, read, calls);
    case WriteStep(write) => WriteCrosses(c, write);
    case CallStep(call) => CallCrosses(c, call);
    case PostedSend(msg, answer) => SendCrosses(c, msg, answer);
    case _ =>
  }

  /** How often a run brings the backlog back below the mark. */
  function Drops(c: Conn, steps: seq<Step>): nat
    requires LegalSteps(c, steps)
    decreases |steps|
  {
    if steps == [] then 0 else Crossing(Next(c, steps[0]).c, c) + Drops(Next(c, steps[0]).c, steps[1..])
  }

  /** With the mark and the callback fixed, high-water functors and drains below the mark alternate:
      between two of the former there is one of the latter. */
  lemma {:induction false} HighWaterAlternates(c: Conn, steps: seq<Step>)
    requires ConnInv(c) && c.highWaterSet && LegalSteps(c, steps)
    ensures var o := RunSteps(c, steps);
            && o.c.mark == c.mark
            && HighWaters(o.fx) + (if AtMark(c) then 1 else 0) == Drops(c, steps) + (if AtMark(o.c) then 1 else 0)
    decreases |steps|
  {
    if steps != [] {
      NextKeepsInv(c, steps[0]);
      NextCrosses(c, steps[0]);
      var first := Next(c, steps[0]);
      HighWaterAlternates(first.c, steps[1..]);
      HighWatersConcat(first.fx, RunSteps(first.c, steps[1..]).fx);
      hide Next, Enabled, HighWaters;
    }
  }

  lemma SendCompleteIff(c: Conn, msg: seq<Byte>, answer: WriteResult)
    ensures QueueWriteComplete in SendInLoop(c, msg, answer).fx <==>
              c.writeCompleteSet && c.state != Disconnected && WritesDirectly(c) && answer.Wrote? && |msg| <= answer.n
    ensures QueueWriteComplete in SendInLoop(c, msg, answer).fx ==> Backlog(SendInLoop(c, msg, answer).c) == 0
  {
    hide SliceSet, Changed, Append, Has, IsWriting;
  }

  /** With nothing waiting, the kernel has been given all that was kept. */
  lemma NothingWaitsMeansSent(c: Conn)
    requires StreamsConserved(c) && Backlog(c) == 0
    ensures c.hist.toKernel == Flatten(c.hist.kept)
  {
    hide Flatten;
    assert c.hist.toKernel + [] == c.hist.toKernel;
  }

  /** A direct write queues the write-complete functor exactly when it took the whole message, and then
      nothing kept is unsent. */
  lemma SendCompleteMeansSent(c: Conn, msg: seq<Byte>, answer: WriteResult)
    requires ConnInv(c) && c.state != Connecting
    ensures var o := SendInLoop(c, msg, answer);
            && (QueueWriteComplete in o.fx ==> o.c.hist.toKernel == Flatten(o.c.hist.kept))
            && (QueueWriteComplete in o.fx <==>
                  c.writeCompleteSet && c.state != Disconnected && WritesDirectly(c) && answer.Wrote?
                      && |msg| <= answer.n)
  {
    hide SendInLoop, LayersAgree, Flatten, StreamsConserved;
    SendInLoopKeepsInv(c, msg, answer);
    SendCompleteIff(c, msg, answer);
    if Backlog(SendInLoop(c, msg, answer).c) == 0 {
      NothingWaitsMeansSent(SendInLoop(c, msg, answer).c);
    }
  }

  /** A drain queues it exactly when it took the last waiting byte. */
  lemma DrainCompleteMeansSent(c: Conn, answer: WriteResult)
    requires ConnInv(c)
    ensures var o := HandleWrite(c, answer);
            && (QueueWriteComplete in o.fx ==> o.c.hist.toKernel == Flatten(o.c.hist.kept))
            && (QueueWriteComplete in o.fx <==> c.writeCompleteSet && Backlog(o.c) == 0 && Backlog(c) > 0)
  {
    HandleWriteKeepsInv(c, answer);
    if IsUp(c) { OpenMaskWriting(c); }
    hide SliceSet, Changed, Append, Flatten;
  }
}
