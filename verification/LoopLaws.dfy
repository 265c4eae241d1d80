/** The state of a loop, read off the steps that led to it. */
module LoopLaws {
  import opened LoopSpec

  lemma {:induction false} RunLast<F>(s: Loop<F>, steps: seq<Step<F>>)
    requires LegalRun(s, steps) && steps != []
    ensures var before := steps[..|steps| - 1];
            var last := steps[|steps| - 1];
            LegalRun(s, before) && Enabled(Run(s, before), last) && Run(s, steps) == Next(Run(s, before), last)
    decreases |steps|
  {
    hide Next, Enabled;
    if |steps| > 1 {
      RunLast(Next(s, steps[0]), steps[1..]);
      assert steps[..|steps| - 1][1..] == steps[1..][..|steps| - 2];
      assert steps[|steps| - 1] == steps[1..][|steps| - 2];
    } else {
      assert steps[..0] == [] && steps[1..] == [];
    }
  }

  // ----- Quitting -----

  /** A quit was stored, and the loop has not begun since. */
  predicate QuitAsked<F>(steps: seq<Step<F>>) {
    exists i :: 0 <= i < |steps| && steps[i].StoreQuit? && NotBegunSince(steps, i)
  }

  predicate NotBegunSince<F>(steps: seq<Step<F>>, i: int) {
    forall j :: 0 <= j < |steps| && i < j ==> !steps[j].StartLoop?
  }

  lemma QuitAskedLast<F>(steps: seq<Step<F>>)
    requires steps != []
    ensures var last := steps[|steps| - 1];
            QuitAsked(steps) <==> last.StoreQuit? || (!last.StartLoop? && QuitAsked(steps[..|steps| - 1]))
  {
    var before := steps[..|steps| - 1];
    var last := steps[|steps| - 1];
    if last.StoreQuit? {
      assert NotBegunSince(steps, |steps| - 1);
    }
    if QuitAsked(before) && !last.StartLoop? {
      var i :| 0 <= i < |before| && before[i].StoreQuit? && NotBegunSince(before, i);
      assert steps[i].StoreQuit? && NotBegunSince(steps, i);
    }
    if QuitAsked(steps) && !last.StoreQuit? {
      var i :| 0 <= i < |steps| && steps[i].StoreQuit? && NotBegunSince(steps, i);
      assert i < |before| && before[i].StoreQuit? && NotBegunSince(before, i);
    }
  }

  /** Over any run: m_quit is set exactly when a quit was stored since the loop last began, and a loop that has
      stopped was told to. */
  lemma {:induction false} QuitIff<F>(self: nat, steps: seq<Step<F>>)
    requires LegalRun(Fresh<F>(self), steps)
    ensures var s := Run(Fresh<F>(self), steps);
            (s.quit <==> QuitAsked(steps)) && (s.pc == Stopped ==> s.quit)
    decreases |steps|
  {
    if steps != [] {
      RunLast(Fresh<F>(self), steps);
      QuitAskedLast(steps);
      QuitIff(self, steps[..|steps| - 1]);
      hide QuitAsked, LegalRun, Run;
    }
  }

  /** At its test a loop stops exactly when a quit was stored since it last began; otherwise it polls. */
  lemma StopsIff<F>(self: nat, steps: seq<Step<F>>)
    requires LegalRun(Fresh<F>(self), steps + [TestQuit])
    ensures LegalRun(Fresh<F>(self), steps)
    ensures Run(Fresh<F>(self), steps + [TestQuit]).pc == if QuitAsked(steps) then Stopped else Polling
  {
    RunLast(Fresh<F>(self), steps + [TestQuit]);
    assert (steps + [TestQuit])[..|steps|] == steps;
    QuitIff(self, steps);
    hide QuitAsked, LegalRun, Run;
  }

  // ----- The eventfd -----

  /** How many wakeups were written since the counter was last read, up to where it saturates. */
  function Unread<F>(steps: seq<Step<F>>): nat {
    if steps == [] then 0 else
    var before := Unread(steps[..|steps| - 1]);
    match steps[|steps| - 1]
    case ReadEventfd => 0
    case WriteEventfd(_) => if before < 0xffff_ffff_ffff_fffe then before + 1 else before
    case _ => before
  }

  lemma {:induction false} EventfdIsUnread<F>(self: nat, steps: seq<Step<F>>)
    requires LegalRun(Fresh<F>(self), steps)
    ensures Run(Fresh<F>(self), steps).eventfd == Unread(steps)
    decreases |steps|
  {
    if steps != [] {
      RunLast(Fresh<F>(self), steps);
      EventfdIsUnread(self, steps[..|steps| - 1]);
      hide LegalRun, Run;
    }
  }

  // ----- Who owes a wakeup -----

  /** Thread `t` pushed or stored a quit, and has not written its wakeup since. */
  predicate WakeupDue<F>(steps: seq<Step<F>>, t: nat) {
    exists i :: 0 <= i < |steps| && AsksToWake(steps[i], t) && NotWokenSince(steps, t, i)
  }

  predicate AsksToWake<F>(step: Step<F>, t: nat) {
    (step.Push? || step.StoreQuit?) && step.t == t
  }

  predicate NotWokenSince<F>(steps: seq<Step<F>>, t: nat, i: int) {
    forall j :: 0 <= j < |steps| && i < j ==> steps[j] != WriteEventfd(t)
  }

  lemma WakeupDueLast<F>(steps: seq<Step<F>>, t: nat)
    requires steps != []
    ensures var last := steps[|steps| - 1];
            WakeupDue(steps, t) <==>
              || AsksToWake(last, t)
              || (last != WriteEventfd(t) && WakeupDue(steps[..|steps| - 1], t))
  {
    var before := steps[..|steps| - 1];
    var last := steps[|steps| - 1];
    if AsksToWake(last, t) {
      assert NotWokenSince(steps, t, |steps| - 1);
    }
    if WakeupDue(before, t) && last != WriteEventfd(t) {
      var i :| 0 <= i < |before| && AsksToWake(before[i], t) && NotWokenSince(before, t, i);
      assert NotWokenSince(steps, t, i) && steps[i] == before[i];
    }
    if WakeupDue(steps, t) && !AsksToWake(last, t) {
      var i :| 0 <= i < |steps| && AsksToWake(steps[i], t) && NotWokenSince(steps, t, i);
      assert i < |before| && NotWokenSince(before, t, i) && before[i] == steps[i];
    }
  }

  /** Over any run: another thread owes the loop a wakeup exactly from its push or quit to its write. */
  lemma {:induction false} OtherOwesIff<F>(self: nat, steps: seq<Step<F>>, t: nat)
    requires LegalRun(Fresh<F>(self), steps) && t != self
    ensures t in Run(Fresh<F>(self), steps).owes <==> WakeupDue(steps, t)
    decreases |steps|
  {
    if steps != [] {
      var before := steps[..|steps| - 1];
      RunLast(Fresh<F>(self), steps);
      WakeupDueLast(steps, t);
      SelfIs(self, before);
      OtherOwesIff(self, before, t);
      hide WakeupDue, LegalRun, Run;
    }
  }

  lemma SelfIs<F>(self: nat, steps: seq<Step<F>>)
    requires LegalRun(Fresh<F>(self), steps)
    ensures Run(Fresh<F>(self), steps).self == self
  {
    RunKeepsInv(Fresh<F>(self), steps);
  }

  /** The loop's own thread owes one exactly for what it pushes while functors are being called: at those times
      nothing else would take it past the next poll. */
  lemma OwnPushOwesIff<F>(s: Loop<F>, f: F)
    requires LoopInv(s) && Enabled(s, Push(s.self, f))
    ensures s.self in Next(s, Push(s.self, f)).owes <==> s.pc == Running
    ensures Next(s, StoreQuit(s.self)).owes == s.owes
  {
  }

  // ----- Where the loop is -----

  /** The place after the loop thread's last own step: the order of loop(). */
  function PlaceAfter<F>(steps: seq<Step<F>>): Pc {
    if steps == [] then Idle else
    var before := steps[..|steps| - 1];
    match steps[|steps| - 1]
    case StartLoop => Testing
    case TestQuit => if QuitAsked(before) then Stopped else Polling
    case PollReturns => Dispatching
    case BeginPending => Swapping
    case SwapPending => Running
    case EndPending => Testing
    case _ => PlaceAfter(before)
  }

  lemma {:induction false} PlaceIs<F>(self: nat, steps: seq<Step<F>>)
    requires LegalRun(Fresh<F>(self), steps)
    ensures Run(Fresh<F>(self), steps).pc == PlaceAfter(steps)
    decreases |steps|
  {
    if steps != [] {
      RunLast(Fresh<F>(self), steps);
      PlaceIs(self, steps[..|steps| - 1]);
      QuitIff(self, steps[..|steps| - 1]);
      hide QuitAsked, LegalRun, Run;
    }
  }

  /** Wherever the loop's thread is, and whatever the others did, it can go on: a loop() that is not at its poll
      or stopped has a next step, and it is the one the order of loop() says. */
  lemma LoopGoesOn<F>(s: Loop<F>)
    requires LoopInv(s)
    ensures s.self in s.owes ==> Enabled(s, WriteEventfd(s.self))
    ensures s.self !in s.owes ==>
              match s.pc
              case Idle => Enabled(s, StartLoop)
              case Testing => Enabled(s, TestQuit)
              case Polling => Enabled(s, PollReturns)
              case Dispatching => Enabled(s, ReadEventfd) && Enabled(s, BeginPending)
              case Swapping => Enabled(s, SwapPending)
              case Running => Enabled(s, if s.batch == [] then EndPending else RunFunctor)
              case Stopped => Enabled(s, StartLoop)
  {
  }

  /** Any other thread can push, store a quit, and write a wakeup it owes, wherever the loop is. */
  lemma OthersGoOn<F>(s: Loop<F>, t: nat, f: F)
    requires t != s.self
    ensures if t in s.owes then Enabled(s, WriteEventfd(t)) else Enabled(s, Push(t, f)) && Enabled(s, StoreQuit(t))
  {
  }

  // ----- The queue -----

  /** The functors pushed, in order. */
  function Pushed<F>(steps: seq<Step<F>>): seq<F> {
    if steps == [] then [] else
    Pushed(steps[..|steps| - 1]) + (if steps[|steps| - 1].Push? then [steps[|steps| - 1].f] else [])
  }

  /** How many functors were called. */
  function Called<F>(steps: seq<Step<F>>): nat {
    if steps == [] then 0 else
    Called(steps[..|steps| - 1]) + (if steps[|steps| - 1].RunFunctor? then 1 else 0)
  }

  /** How many were pushed when the queue was last swapped. */
  function Swapped<F>(steps: seq<Step<F>>): nat {
    if steps == [] then 0 else
    var before := steps[..|steps| - 1];
    if steps[|steps| - 1].SwapPending? then |Pushed(before)| else Swapped(before)
  }

  lemma NextQueue<F>(s: Loop<F>, step: Step<F>)
    requires LoopInv(s) && Enabled(s, step)
    ensures var e := Next(s, step);
            && e.enqueued == s.enqueued + (if step.Push? then [step.f] else [])
            && |e.executed| == |s.executed| + (if step.RunFunctor? then 1 else 0)
            && |e.executed| + |e.batch| == if step.SwapPending? then |s.enqueued| else |s.executed| + |s.batch|
  {
  }

  lemma {:induction false} QueueLengths<F>(self: nat, steps: seq<Step<F>>)
    requires LegalRun(Fresh<F>(self), steps)
    ensures var s := Run(Fresh<F>(self), steps);
            s.enqueued == Pushed(steps) && |s.executed| == Called(steps) && |s.executed| + |s.batch| == Swapped(steps)
    decreases |steps|
  {
    hide LegalRun, Run, Next, Enabled, LoopInv;
    if steps == [] {
      NoSteps(Fresh<F>(self));
    } else {
      var before := steps[..|steps| - 1];
      RunLast(Fresh<F>(self), steps);
      QueueLengths(self, before);
      RunKeepsInv(Fresh<F>(self), before) by { FreshInv<F>(self); }
      NextQueue(Run(Fresh<F>(self), before), steps[|steps| - 1]);
    }
  }

  lemma NoSteps<F>(s: Loop<F>)
    ensures LegalRun(s, []) && Run(s, []) == s
  {
  }

  lemma FreshInv<F>(self: nat)
    ensures LoopInv(Fresh<F>(self))
  {
  }

  /** Over any run: the functors called are the first ones pushed, as many as there were calls; the batch is the
      rest of those pushed by the last swap; and those pushed since are pending. */
  lemma QueueIsPushed<F>(self: nat, steps: seq<Step<F>>)
    requires LegalRun(Fresh<F>(self), steps)
    ensures var s := Run(Fresh<F>(self), steps);
            && s.executed + s.batch + s.pending == Pushed(steps)
            && |s.executed| == Called(steps) && |s.executed| + |s.batch| == Swapped(steps)
  {
    QueueLengths(self, steps);
    RunKeepsInv(Fresh<F>(self), steps);
    hide LegalRun, Run, Pushed, Called, Swapped;
  }
}
