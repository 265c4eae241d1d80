/** One event loop as a protocol: its own program counter, and the threads that enqueue on it. */
module LoopSpec {

  /** Where the loop thread is: before loop(), testing m_quit, in epoll_wait, handling events, about to
      swap the queue, running the batch, or after loop(). */
  datatype Pc = Idle | Testing | Polling | Dispatching | Swapping | Running | Stopped

  /** Whether the loop thread enqueued a functor outside loop(). */
  datatype Mark = Early | Timely

  const EVENTFD_MAX: nat := 0xffff_ffff_ffff_fffe

  /** `owes` are the threads between a push or a quit store and their wakeup write. `early` marks the
      pending functors that the loop thread enqueued outside loop(); `enqueued` and `executed` record
      the run. */
  datatype Loop<F> = Loop(
    self: nat,
    pc: Pc,
    quit: bool,
    calling: bool,
    eventfd: nat,
    pending: seq<F>,
    batch: seq<F>,
    owes: set<nat>,
    early: seq<Mark>,
    enqueued: seq<F>,
    executed: seq<F>)

  function Fresh<F>(self: nat): Loop<F> {
    Loop(self, Idle, false, false, 0, [], [], {}, [], [], [])
  }

  /** The atomic steps, of the loop thread and then of any thread `t`. */
  datatype Step<F> =
    | StartLoop
    | TestQuit
    | PollReturns
    | ReadEventfd
    | BeginPending
    | SwapPending
    | RunFunctor
    | EndPending
    | Push(t: nat, f: F)
    | StoreQuit(t: nat)
    | WriteEventfd(t: nat)

  /** The loop thread runs user code before and after loop(), in handlers and in functors. */
  predicate InUserCode(pc: Pc) {
    pc == Idle || pc == Dispatching || pc == Running || pc == Stopped
  }

  predicate Enabled<F>(s: Loop<F>, step: Step<F>) {
    match step
    case StartLoop => s.self !in s.owes && (s.pc == Idle || s.pc == Stopped)
    case TestQuit => s.pc == Testing
    case PollReturns => s.pc == Polling
    case ReadEventfd => s.self !in s.owes && s.pc == Dispatching
    case BeginPending => s.self !in s.owes && s.pc == Dispatching
    case SwapPending => s.pc == Swapping
    case RunFunctor => s.self !in s.owes && s.pc == Running && s.batch != []
    case EndPending => s.self !in s.owes && s.pc == Running && s.batch == []
    case Push(t, _) => t !in s.owes && (t == s.self ==> InUserCode(s.pc))
    case StoreQuit(t) => t !in s.owes && (t == s.self ==> InUserCode(s.pc))
    case WriteEventfd(t) => t in s.owes
  }

  /** queueInLoop wakes the loop for another thread, or while functors are being called. */
  predicate MustWake<F>(s: Loop<F>, t: nat) {
    t != s.self || s.calling
  }

  function Next<F>(s: Loop<F>, step: Step<F>): Loop<F> {
    match step
    case StartLoop => s.(pc := Testing, quit := false)
    case TestQuit => s.(pc := if s.quit then Stopped else Polling)
    case PollReturns => s.(pc := Dispatching)
    case ReadEventfd => s.(eventfd := 0)
    case BeginPending => s.(pc := Swapping, calling := true)
    case SwapPending => s.(pc := Running, batch := s.pending, pending := [], early := [])
    case RunFunctor =>
      if s.batch == [] then s else s.(batch := s.batch[1..], executed := s.executed + [s.batch[0]])
    case EndPending => s.(pc := Testing, calling := false)
    case Push(t, f) =>
      s.(pending := s.pending + [f], enqueued := s.enqueued + [f],
         early := s.early + [if t == s.self && (s.pc == Idle || s.pc == Stopped) then Early else Timely],
         owes := if MustWake(s, t) then s.owes + {t} else s.owes)
    case StoreQuit(t) => s.(quit := true, owes := if t != s.self then s.owes + {t} else s.owes)
    case WriteEventfd(t) =>
      s.(eventfd := if s.eventfd < EVENTFD_MAX then s.eventfd + 1 else s.eventfd, owes := s.owes - {t})
  }

  predicate LegalRun<F>(s: Loop<F>, steps: seq<Step<F>>)
    decreases |steps|
  {
    steps == [] || (Enabled(s, steps[0]) && LegalRun(Next(s, steps[0]), steps[1..]))
  }

  function Run<F>(s: Loop<F>, steps: seq<Step<F>>): Loop<F>
    decreases |steps|
  {
    if steps == [] then s else Run(Next(s, steps[0]), steps[1..])
  }

  // ----- The invariant -----

  /** A poll would return at once, or somebody is about to make it return. */
  predicate Signalled<F>(s: Loop<F>) {
    s.eventfd > 0 || s.owes != {}
  }

  ghost predicate LoopInv<F>(s: Loop<F>) {
    && |s.early| == |s.pending|
    && (s.calling <==> s.pc == Swapping || s.pc == Running)
    && (s.batch != [] ==> s.pc == Running)
    && (s.self in s.owes ==> s.pc == Running)
    && s.eventfd <= EVENTFD_MAX
    && s.enqueued == s.executed + s.batch + s.pending
    && (Timely in s.early && s.pc != Dispatching && s.pc != Swapping ==> Signalled(s))
    && (s.quit && s.pc == Polling ==> Signalled(s))
  }

  lemma NextKeepsInv<F>(s: Loop<F>, step: Step<F>)
    requires LoopInv(s) && Enabled(s, step)
    ensures LoopInv(Next(s, step)) && Next(s, step).self == s.self
  {
    match step
    case Push(t, f) =>
      assert s.executed + s.batch + s.pending + [f] == s.executed + s.batch + (s.pending + [f]);
    case RunFunctor =>
      assert s.executed + s.batch == s.executed + [s.batch[0]] + s.batch[1..];
    case SwapPending =>
      assert s.executed + [] + s.pending == s.executed + s.pending + [];
    case WriteEventfd(t) => assert Next(s, step).eventfd > 0;
    case _ =>
  }

  lemma {:induction false} RunKeepsInv<F>(s: Loop<F>, steps: seq<Step<F>>)
    requires LoopInv(s) && LegalRun(s, steps)
    ensures LoopInv(Run(s, steps)) && Run(s, steps).self == s.self
    decreases |steps|
  {
    if steps != [] {
      NextKeepsInv(s, steps[0]);
      RunKeepsInv(Next(s, steps[0]), steps[1..]);
    }
  }

  // ----- No lost wakeup -----

  /** Over every run: a loop is never at its poll with a functor enqueued in or from outside loop()'s
      own thread, or with m_quit set, unless its eventfd is readable or a wakeup write is on its way. */
  lemma NoLostWakeup<F>(self: nat, steps: seq<Step<F>>)
    requires LegalRun(Fresh<F>(self), steps)
    ensures var s := Run(Fresh<F>(self), steps);
            s.pc == Polling && (s.quit || Timely in s.early) ==> Signalled(s)
  {
    RunKeepsInv(Fresh<F>(self), steps);
  }

  /** The loop thread enqueues only while loop() runs. */
  predicate NoEarlyPush<F>(s: Loop<F>, steps: seq<Step<F>>)
    decreases |steps|
  {
    steps != [] ==>
      && (steps[0].Push? && steps[0].t == s.self ==> s.pc != Idle && s.pc != Stopped)
      && NoEarlyPush(Next(s, steps[0]), steps[1..])
  }

  lemma {:induction false} NoEarlyMarks<F>(s: Loop<F>, steps: seq<Step<F>>)
    requires Early !in s.early && NoEarlyPush(s, steps)
    ensures Early !in Run(s, steps).early
    decreases |steps|
  {
    if steps != [] {
      NoEarlyMarks(Next(s, steps[0]), steps[1..]);
    }
  }

  /** In those runs no functor at all waits at a poll that nothing will end. */
  lemma NoFunctorForgotten<F>(self: nat, steps: seq<Step<F>>)
    requires LegalRun(Fresh<F>(self), steps) && NoEarlyPush(Fresh<F>(self), steps)
    ensures var s := Run(Fresh<F>(self), steps);
            s.pc == Polling && s.pending != [] ==> Signalled(s)
  {
    RunKeepsInv(Fresh<F>(self), steps);
    NoEarlyMarks(Fresh<F>(self), steps);
    var s := Run(Fresh<F>(self), steps);
    if s.pending != [] {
      assert s.early[0] in s.early && (s.early[0] == Early || s.early[0] == Timely);
    }
  }

  /** At a poll that nothing will end, the loop is not quitting, and every functor that waits was enqueued
      by the loop thread outside loop(). */
  lemma SilentPollHoldsOnlyEarly<F>(self: nat, steps: seq<Step<F>>)
    requires LegalRun(Fresh<F>(self), steps)
    ensures var s := Run(Fresh<F>(self), steps);
            s.pc == Polling && !Signalled(s) ==>
              !s.quit && |s.early| == |s.pending| && forall i :: 0 <= i < |s.early| ==> s.early[i] == Early
  {
    RunKeepsInv(Fresh<F>(self), steps);
    var s := Run(Fresh<F>(self), steps);
    if s.pc == Polling && !Signalled(s) {
      forall i | 0 <= i < |s.early|
        ensures s.early[i] == Early
      {
        assert s.early[i] in s.early;
      }
    }
  }

  /** Such a run exists: enqueue on the loop thread, then start the loop. */
  lemma EarlyPushCanStall<F>(self: nat, f: F)
    ensures var steps := [Push(self, f), StartLoop, TestQuit];
            var s := Run(Fresh<F>(self), steps);
            LegalRun(Fresh<F>(self), steps) && s.pc == Polling && s.pending == [f] && !Signalled(s)
  {
    var last: seq<Step<F>> := [TestQuit];
    var rest: seq<Step<F>> := [StartLoop] + last;
    var s1 := Next(Fresh<F>(self), Push(self, f));
    var s2 := Next(s1, StartLoop);
    assert rest[1..] == last && last[1..] == [] && ([Push(self, f)] + rest)[1..] == rest;
    assert LegalRun(s2, last) && Run(s2, last) == Next(s2, TestQuit);
    assert LegalRun(s1, rest) && Run(s1, rest) == Run(s2, last);
    assert [Push(self, f), StartLoop, TestQuit] == [Push(self, f)] + rest;
  }

  /** A step by which its thread comes to owe the loop a wakeup. */
  predicate Wakes<F>(s: Loop<F>, step: Step<F>) {
    match step
    case Push(t, _) => MustWake(s, t)
    case StoreQuit(t) => t != s.self
    case _ => false
  }

  predicate SomeWakes<F>(s: Loop<F>, steps: seq<Step<F>>)
    decreases |steps|
  {
    steps != [] && (Wakes(s, steps[0]) || SomeWakes(Next(s, steps[0]), steps[1..]))
  }

  /** Before the poll has returned: the eventfd is not read, and the queue not swapped. */
  predicate BeforeDispatch<F>(steps: seq<Step<F>>) {
    forall i :: 0 <= i < |steps| ==> !steps[i].ReadEventfd? && !steps[i].SwapPending?
  }

  lemma {:induction false} SignalledIff<F>(s: Loop<F>, steps: seq<Step<F>>)
    requires LoopInv(s) && LegalRun(s, steps) && BeforeDispatch(steps)
    ensures var e := Run(s, steps);
            && s.pending <= e.pending && e.self == s.self
            && (Signalled(e) <==> Signalled(s) || SomeWakes(s, steps))
    decreases |steps|
  {
    if steps != [] {
      NextKeepsInv(s, steps[0]);
      SignalledIff(Next(s, steps[0]), steps[1..]);
    }
  }

  /** A functor that is enqueued outside loop() and meets a poll: whatever other threads do meanwhile, it waits
      there for nothing exactly when the loop's own thread enqueued it, the loop was not signalled already,
      and nobody has woken it since. */
  lemma EarlyPushStallsIff<F>(s: Loop<F>, t: nat, f: F, steps: seq<Step<F>>)
    requires LoopInv(s) && (s.pc == Idle || s.pc == Stopped) && Enabled(s, Push(t, f))
    requires LegalRun(Next(s, Push(t, f)), steps) && BeforeDispatch(steps)
    ensures var e := Run(Next(s, Push(t, f)), steps);
            && f in e.pending
            && (!Signalled(e) <==> t == s.self && !Signalled(s) && !SomeWakes(Next(s, Push(t, f)), steps))
  {
    var m := Next(s, Push(t, f));
    NextKeepsInv(s, Push(t, f));
    SignalledIff(m, steps);
    assert m.pending[|s.pending|] == f;
  }

  // ----- The queue -----

  /** Over every run the functors ever enqueued are, in order, those executed, the rest of the batch and
      the pending ones: none is lost, repeated or overtaken. */
  lemma QueueIsExact<F>(self: nat, steps: seq<Step<F>>)
    requires LegalRun(Fresh<F>(self), steps)
    ensures var s := Run(Fresh<F>(self), steps);
            s.enqueued == s.executed + s.batch + s.pending
  {
    RunKeepsInv(Fresh<F>(self), steps);
  }

  predicate NoSwap<F>(steps: seq<Step<F>>) {
    forall i :: 0 <= i < |steps| ==> !steps[i].SwapPending?
  }

  function Calls<F>(steps: seq<Step<F>>): nat {
    if steps == [] then 0 else (if steps[0].RunFunctor? then 1 else 0) + Calls(steps[1..])
  }

  lemma {:induction false} BatchOnlyShrinks<F>(s: Loop<F>, steps: seq<Step<F>>)
    requires LoopInv(s) && LegalRun(s, steps) && NoSwap(steps)
    ensures var t := Run(s, steps);
            t.executed + t.batch == s.executed + s.batch && Calls(steps) + |t.batch| == |s.batch|
    decreases |steps|
  {
    if steps != [] {
      var m := Next(s, steps[0]);
      NextKeepsInv(s, steps[0]);
      BatchOnlyShrinks(m, steps[1..]);
      if steps[0].RunFunctor? {
        assert m.executed + m.batch == s.executed + s.batch;
      }
    }
  }

  /** From a swap to the end of its batch, whatever is enqueued meanwhile and by whom, exactly the
      functors present at the swap are called, each once and in order. */
  lemma BatchRunsWhatWasSwapped<F>(s: Loop<F>, steps: seq<Step<F>>)
    requires LoopInv(s) && s.pc == Swapping
    requires LegalRun(Next(s, SwapPending), steps) && NoSwap(steps)
    ensures var t := Run(Next(s, SwapPending), steps);
            && t.executed + t.batch == s.executed + s.pending && Calls(steps) <= |s.pending|
            && (t.pc == Testing ==> t.executed == s.executed + s.pending && Calls(steps) == |s.pending|)
  {
    var m := Next(s, SwapPending);
    NextKeepsInv(s, SwapPending);
    BatchOnlyShrinks(m, steps);
    RunKeepsInv(m, steps);
  }
}
