/** Write-complete callbacks over whole runs, the sends of message callbacks included. */
module ConnectionCompletions {
  import opened Prelude
  import opened BufferSpec
  import opened EPollSpec
  import opened ConnectionSpec
  import opened ConnectionProofs
  import opened ConnectionCallbacks

  // ----- Runs without calls inside handlers -----

  function CallSteps(calls: seq<UserCall>): seq<Step> {
    if calls == [] then [] else [CallStep(calls[0])] + CallSteps(calls[1..])
  }

  /** A read, and then the calls of its message callback one by one. */
  function Parts(step: Step): seq<Step> {
    match step
    case ReadStep(read, calls) =>
      [ReadStep(read, [])] + (if read.ReadOk? && read.data != [] then CallSteps(calls) else [])
    case _ => [step]
  }

  function AllParts(steps: seq<Step>): seq<Step> {
    if steps == [] then [] else Parts(steps[0]) + AllParts(steps[1..])
  }

  lemma {:induction false} CallsAreSteps(c: Conn, calls: seq<UserCall>)
    requires ConnInv(c)
    ensures LegalSteps(c, CallSteps(calls)) && RunSteps(c, CallSteps(calls)) == CallAll(c, calls)
    decreases |calls|
  {
    if calls != [] {
      CallKeepsInv(c, calls[0]);
      InputOf(c);
      hide Call, ConnInv;
      CallsAreSteps(Call(c, calls[0]).c, calls[1..]);
      StepThenRun(c, CallStep(calls[0]), CallSteps(calls[1..]));
      assert CallSteps(calls) == [CallStep(calls[0])] + CallSteps(calls[1..]);
      hide RunSteps, LegalSteps, CallSteps;
    }
  }

  lemma InputOf(c: Conn)
    requires ConnInv(c)
    ensures c.input.Valid()
  {
  }

  lemma StepThenRun(c: Conn, step: Step, rest: seq<Step>)
    requires c.input.Valid() && Enabled(c, step) && LegalSteps(Next(c, step).c, rest)
    ensures LegalSteps(c, [step] + rest)
    ensures Joins(Next(c, step), RunSteps(Next(c, step).c, rest), RunSteps(c, [step] + rest))
    ensures RunSteps(c, [step] + rest).c == RunSteps(Next(c, step).c, rest).c
  {
    hide Next, Enabled;
    assert ([step] + rest)[1..] == rest;
  }

  lemma StepOfRun(c: Conn, steps: seq<Step>)
    requires steps != [] && LegalSteps(c, steps)
    ensures c.input.Valid() && Enabled(c, steps[0]) && LegalSteps(Next(c, steps[0]).c, steps[1..])
    ensures steps == [steps[0]] + steps[1..]
  {
    hide Next, Enabled;
  }

  /** `whole` is the outcome of `first` and then `more`. */
  predicate Joins(first: Out, more: Out, whole: Out) {
    whole.c == more.c && whole.fx == first.fx + more.fx
  }

  lemma JoinsPrepend(d: Out, a: Out, a': Out, b: Out, e: Out, e': Out)
    requires Joins(d, a, a') && Joins(a, b, e) && Joins(d, e, e')
    ensures Joins(a', b, e')
  {
    assert d.fx + (a.fx + b.fx) == d.fx + a.fx + b.fx;
  }

  lemma NothingFirst(c: Conn, rest: seq<Step>)
    requires LegalSteps(c, rest)
    ensures LegalSteps(c, []) && RunSteps(c, []) == Out(c, []) && [] + rest == rest
    ensures Joins(RunSteps(c, []), RunSteps(c, rest), RunSteps(c, [] + rest))
  {
    hide Next, Enabled;
    assert [] + rest == rest;
  }

  lemma {:induction false} RunInTwo(c: Conn, first: seq<Step>, rest: seq<Step>)
    requires LegalSteps(c, first) && LegalSteps(RunSteps(c, first).c, rest)
    ensures LegalSteps(c, first + rest)
    ensures Joins(RunSteps(c, first), RunSteps(RunSteps(c, first).c, rest), RunSteps(c, first + rest))
    decreases |first|
  {
    hide Next, Enabled, RunSteps, LegalSteps, Joins;
    if first == [] {
      NothingFirst(c, []);
      NothingFirst(c, rest);
    } else {
      var step, more := first[0], first[1..];
      StepOfRun(c, first);
      var d := Next(c, step);
      StepThenRun(c, step, more);
      var a := RunSteps(d.c, more);
      RunInTwo(d.c, more, rest);
      StepThenRun(c, step, more + rest);
      assert first + rest == [step] + (more + rest);
      JoinsPrepend(d, a, RunSteps(c, first), RunSteps(a.c, rest), RunSteps(d.c, more + rest),
        RunSteps(c, first + rest));
    }
  }

  lemma OneStepRun(c: Conn, step: Step)
    requires c.input.Valid() && Enabled(c, step)
    ensures LegalSteps(c, [step]) && RunSteps(c, [step]) == Next(c, step)
  {
    hide Next, Enabled;
    assert [step][1..] == [];
    assert RunSteps(Next(c, step).c, []) == Out(Next(c, step).c, []);
  }

  lemma PartsMakeUpStep(c: Conn, step: Step)
    requires ConnInv(c) && Enabled(c, step)
    ensures LegalSteps(c, Parts(step)) && RunSteps(c, Parts(step)) == Next(c, step)
  {
    assert c.input.Valid();
    if step.ReadStep? && step.read.ReadOk? && step.read.data != [] {
      ReadInParts(c, step.read, step.calls);
    } else {
      var whole := if step.ReadStep? then ReadStep(step.read, []) else step;
      assert Enabled(c, whole) && Next(c, whole) == Next(c, step) by {
        hide HandleClose, ConnInv, ReadFd, HandleWrite, Call, Establish, Destroy, SendInLoop;
      }
      OneStepRun(c, whole);
      assert Parts(step) == [whole];
    }
    hide Next, Enabled, ConnInv, LegalSteps, RunSteps;
  }

  lemma ReadInParts(c: Conn, read: ReadResult, calls: seq<UserCall>)
    requires ConnInv(c) && c.state != Connecting && !c.hist.destroyed && read.ReadOk? && read.data != []
    ensures var parts := [ReadStep(read, [])] + CallSteps(calls);
            LegalSteps(c, parts) && RunSteps(c, parts) == HandleRead(c, read, calls)
  {
    var step := ReadStep(read, []);
    assert c.input.Valid();
    OneStepRun(c, step);
    NextKeepsInv(c, step);
    var d := HandleRead(c, read, []);
    ReadThenCalls(c, read, calls);
    CallsAreSteps(d.c, calls);
    hide HandleRead, ConnInv, CallAll, LegalSteps, RunSteps;
    RunInTwo(c, [step], CallSteps(calls));
  }

  lemma ReadThenCalls(c: Conn, read: ReadResult, calls: seq<UserCall>)
    requires ConnInv(c) && read.ReadOk? && read.data != []
    ensures HandleRead(c, read, []).fx == []
    ensures HandleRead(c, read, calls) == CallAll(HandleRead(c, read, []).c, calls)
  {
    hide ReadFd, HandleClose, StackAgrees, CallbacksCounted, StreamsConserved, Call;
  }

  /** Every run is the run of its parts. */
  lemma {:induction false} PartsMakeUpRun(c: Conn, steps: seq<Step>)
    requires ConnInv(c) && LegalSteps(c, steps)
    ensures LegalSteps(c, AllParts(steps)) && RunSteps(c, AllParts(steps)) == RunSteps(c, steps)
    decreases |steps|
  {
    if steps != [] {
      PartsMakeUpStep(c, steps[0]);
      NextKeepsInv(c, steps[0]);
      PartsMakeUpRun(Next(c, steps[0]).c, steps[1..]);
      hide Next, Enabled, ConnInv, Parts;
      RunInTwo(c, Parts(steps[0]), AllParts(steps[1..]));
    }
  }

  // ----- Completions -----

  predicate TakesWhole(c: Conn, msg: seq<Byte>, answer: WriteResult) {
    c.state != Disconnected && WritesDirectly(c) && answer.Wrote? && |msg| <= answer.n
  }

  /** The step hands the kernel the last byte of what is kept: a whole message at once, or the end of the
      backlog. */
  predicate Completes(c: Conn, step: Step)
    requires c.input.Valid()
  {
    c.writeCompleteSet &&
    match step
    case CallStep(SendCall(msg, answer)) => c.state == Connected && TakesWhole(c, msg, answer)
    case PostedSend(msg, answer) => TakesWhole(c, msg, answer)
    case WriteStep(_) => Backlog(c) > 0 && Backlog(Next(c, step).c) == 0
    case _ => false
  }

  predicate InParts(step: Step) {
    step.ReadStep? ==> step.calls == []
  }

  predicate AllInParts(steps: seq<Step>) {
    forall i :: 0 <= i < |steps| ==> InParts(steps[i])
  }

  function Completions(c: Conn, steps: seq<Step>): nat
    requires LegalSteps(c, steps)
    decreases |steps|
  {
    if steps == [] then 0 else
    (if Completes(c, steps[0]) then 1 else 0) + Completions(Next(c, steps[0]).c, steps[1..])
  }

  /** Nothing kept is unsent. */
  predicate AllSent(c: Conn) {
    c.hist.toKernel == Flatten(c.hist.kept)
  }

  /** Nothing kept is unsent right after any completing step of the run. */
  predicate SentAtCompletions(c: Conn, steps: seq<Step>)
    requires LegalSteps(c, steps)
    decreases |steps|
  {
    steps != [] ==>
      && (Completes(c, steps[0]) ==> AllSent(Next(c, steps[0]).c))
      && SentAtCompletions(Next(c, steps[0]).c, steps[1..])
  }

  lemma SendCompletions(c: Conn, msg: seq<Byte>, answer: WriteResult)
    requires ConnInv(c) && c.state != Connecting
    ensures var o := SendInLoop(c, msg, answer);
            && multiset(o.fx)[QueueWriteComplete] == (if c.writeCompleteSet && TakesWhole(c, msg, answer) then 1 else 0)
            && (c.writeCompleteSet && TakesWhole(c, msg, answer) ==> AllSent(o.c))
  {
    SendCompleteMeansSent(c, msg, answer);
    AtMostOne(c, msg, answer);
    hide SendInLoop, ConnInv, Flatten, WritesDirectly;
  }

  lemma AtMostOne(c: Conn, msg: seq<Byte>, answer: WriteResult)
    ensures multiset(SendInLoop(c, msg, answer).fx)[QueueWriteComplete] <= 1
    ensures multiset(HandleWrite(c, answer).fx)[QueueWriteComplete] <= 1
  {
    hide SliceSet, Changed, Append, Retrieve, Has, WritesDirectly, DirectlyWritten;
  }

  lemma WriteCompletions(c: Conn, answer: WriteResult)
    requires ConnInv(c)
    ensures var o := HandleWrite(c, answer);
            var completes := c.writeCompleteSet && Backlog(c) > 0 && Backlog(o.c) == 0;
            multiset(o.fx)[QueueWriteComplete] == (if completes then 1 else 0) && (completes ==> AllSent(o.c))
  {
    DrainCompleteMeansSent(c, answer);
    AtMostOne(c, [], answer);
    hide HandleWrite, ConnInv, Flatten;
  }

  lemma NextCompletes(c: Conn, step: Step)
    requires ConnInv(c) && Enabled(c, step) && InParts(step)
    ensures c.input.Valid()
    ensures multiset(Next(c, step).fx)[QueueWriteComplete] == (if Completes(c, step) then 1 else 0)
    ensures Completes(c, step) ==> AllSent(Next(c, step).c)
  {
    match step
    case WriteStep(answer) => WriteCompletions(c, answer); hide HandleWrite, AllSent;
    case CallStep(call) =>
      if call.SendCall? && c.state == Connected { SendCompletions(c, call.msg, call.answer); }
      hide SendInLoop, AllSent, TakesWhole;
    case PostedSend(msg, answer) => SendCompletions(c, msg, answer); hide SendInLoop, AllSent, TakesWhole;
    case _ => hide SliceSet, Changed, ReadFd, StackAgrees, CallbacksCounted, StreamsConserved;
  }

  lemma {:induction false} StepsComplete(c: Conn, steps: seq<Step>)
    requires ConnInv(c) && LegalSteps(c, steps) && AllInParts(steps)
    ensures multiset(RunSteps(c, steps).fx)[QueueWriteComplete] == Completions(c, steps)
    ensures SentAtCompletions(c, steps)
    decreases |steps|
  {
    if steps != [] {
      NextCompletes(c, steps[0]);
      NextKeepsInv(c, steps[0]);
      StepsComplete(Next(c, steps[0]).c, steps[1..]);
      hide Next, Enabled, ConnInv, Completes, AllSent;
    }
  }

  lemma {:induction false} CallStepsInParts(calls: seq<UserCall>)
    ensures AllInParts(CallSteps(calls))
    decreases |calls|
  {
    if calls != [] { CallStepsInParts(calls[1..]); }
  }

  lemma {:induction false} PartsAreInParts(steps: seq<Step>)
    ensures AllInParts(AllParts(steps))
    decreases |steps|
  {
    if steps != [] {
      PartsAreInParts(steps[1..]);
      if steps[0].ReadStep? { CallStepsInParts(steps[0].calls); }
      hide InParts, CallSteps;
    }
  }

  /** Over any run, part by part: the write-complete functors queued are as many as the steps and calls that
      hand the kernel the last byte of what is kept, and after each of these nothing kept is unsent. */
  lemma WriteCompletesCounted(wc: bool, hw: bool, mark: nat, steps: seq<Step>)
    requires LegalSteps(Created(wc, hw, mark), steps)
    ensures var c := Created(wc, hw, mark);
            var parts := AllParts(steps);
            && LegalSteps(c, parts) && RunSteps(c, parts) == RunSteps(c, steps)
            && multiset(RunSteps(c, steps).fx)[QueueWriteComplete] == Completions(c, parts)
            && SentAtCompletions(c, parts)
  {
    var c := Created(wc, hw, mark);
    CreatedInv(wc, hw, mark);
    PartsMakeUpRun(c, steps);
    PartsAreInParts(steps);
    StepsComplete(c, AllParts(steps));
  }
}
