/** The event loop as an object whose every atomic step is a step of the protocol, with other threads
    stepping in between. */
module EventLoops {
  import opened LoopSpec

  lemma {:induction false} RunSnoc<F>(s: Loop<F>, steps: seq<Step<F>>, step: Step<F>)
    requires LegalRun(s, steps) && Enabled(Run(s, steps), step)
    ensures LegalRun(s, steps + [step]) && Run(s, steps + [step]) == Next(Run(s, steps), step)
    decreases |steps|
  {
    hide Next, Enabled;
    if steps == [] {
      assert [step][1..] == [] && steps + [step] == [step];
      assert Run(Next(s, step), []) == Next(s, step);
    } else {
      assert (steps + [step])[1..] == steps[1..] + [step];
      RunSnoc(Next(s, steps[0]), steps[1..], step);
    }
  }

  /** One turn of loop(): whether the poll reports the wakeup descriptor, what the handlers enqueue, and
      what the functors enqueue when called. */
  datatype Turn<!F> = Turn(wakeup: bool, handlers: seq<F>, body: F -> seq<F>)

  /** Each of `fs` is in `s` at `n` or later. */
  ghost predicate Since<F>(fs: seq<F>, s: seq<F>, n: nat) {
    n <= |s| && forall f :: f in fs ==> f in s[n..]
  }

  lemma SinceEarlier<F>(fs: seq<F>, s: seq<F>, n: nat, s': seq<F>, m: nat)
    requires Since(fs, s, n) && m <= n && s <= s'
    ensures Since(fs, s', m)
  {
    forall f | f in fs
      ensures f in s'[m..]
    {
      var k :| 0 <= k < |s[n..]| && s[n..][k] == f;
      assert s'[m..][k + n - m] == f;
    }
  }

  /** All that the handlers of these turns enqueue is in `ran`. */
  ghost predicate HandlersRan<F>(turns: seq<Turn<F>>, ran: seq<F>) {
    forall i, f :: 0 <= i < |turns| && f in turns[i].handlers ==> f in ran
  }

  lemma NoTurns<F>(turns: seq<Turn<F>>)
    ensures HandlersRan(turns[..0], [])
  {
  }

  lemma HandlersRanMore<F>(turns: seq<Turn<F>>, n: nat, ran: seq<F>, more: seq<F>)
    requires n < |turns| && HandlersRan(turns[..n], ran) && forall f :: f in turns[n].handlers ==> f in more
    ensures HandlersRan(turns[..n + 1], ran + more)
  {
  }

  lemma SignalledAtPoll<F>(s: Loop<F>)
    requires LoopInv(s)
    ensures s.pc == Polling && (s.quit || Timely in s.early) ==> Signalled(s)
  {
  }

  class EventLoop<F(0)> {
    const threadId: nat
    var quit: bool
    var callingPendingFunctors: bool
    var wakeupFd: nat
    var pendingFunctors: seq<F>
    // How many points of interference there have been.
    var points: nat
    // The threads that are between a push or a quit store and their wakeup write.
    var owes: set<nat>
    // Where the loop thread is, and its local batch.
    var pc: Pc
    var batch: seq<F>
    ghost var early: seq<Mark>
    ghost var enqueued: seq<F>
    ghost var executed: seq<F>
    // The atomic steps so far.
    ghost var trace: seq<Step<F>>

    ghost function View(): Loop<F>
      reads this
    {
      Loop(threadId, pc, quit, callingPendingFunctors, wakeupFd, pendingFunctors, batch, owes, early,
           enqueued, executed)
    }

    /** The object is where a legal run of the protocol leads. */
    ghost predicate Valid()
      reads this
    {
      && LegalRun(Fresh<F>(threadId), trace) && View() == Run(Fresh<F>(threadId), trace)
      && LoopInv(View())
    }

    constructor (threadId: nat)
      ensures Valid() && View() == Fresh<F>(threadId) && trace == []
    {
      this.threadId := threadId;
      quit, callingPendingFunctors, wakeupFd, pendingFunctors := false, false, 0, [];
      points := 0;
      pc, batch, owes, early, enqueued, executed, trace := Idle, [], {}, [], [], [], [];
    }

    /** The fields have just taken `step` from `was`. */
    ghost method Took(was: Loop<F>, step: Step<F>)
      requires LegalRun(Fresh<F>(threadId), trace) && was == Run(Fresh<F>(threadId), trace) && LoopInv(was)
      requires Enabled(was, step) && View() == Next(was, step)
      modifies this`trace
      ensures Valid() && View() == old(View()) && trace == old(trace) + [step]
    {
      RunSnoc(Fresh<F>(threadId), trace, step);
      NextKeepsInv(was, step);
      trace := trace + [step];
    }

    // ----- Atomic steps -----

    /** The locked part of queueInLoop, and its test whether to wake the loop. */
    method Push(t: nat, f: F) returns (mustWake: bool)
      requires Valid() && Enabled(View(), LoopSpec.Push(t, f))
      modifies this
      ensures Valid() && View() == Next(old(View()), LoopSpec.Push(t, f)) && trace == old(trace) + [LoopSpec.Push(t, f)]
      ensures mustWake <==> t in owes
    {
      hide LegalRun, LoopSpec.Run;
      ghost var was := View();
      pendingFunctors := pendingFunctors + [f];
      mustWake := t != threadId || callingPendingFunctors;
      enqueued := enqueued + [f];
      early := early + [if t == threadId && (pc == Idle || pc == Stopped) then Early else Timely];
      if mustWake {
        owes := owes + {t};
      }
      Took(was, LoopSpec.Push(t, f));
    }

    method StoreQuit(t: nat) returns (mustWake: bool)
      requires Valid() && Enabled(View(), LoopSpec.StoreQuit(t))
      modifies this
      ensures Valid() && View() == Next(old(View()), LoopSpec.StoreQuit(t))
      ensures trace == old(trace) + [LoopSpec.StoreQuit(t)] && (mustWake <==> t in owes) && quit
    {
      ghost var was := View();
      quit := true;
      mustWake := t != threadId;
      if mustWake {
        owes := owes + {t};
      }
      Took(was, LoopSpec.StoreQuit(t));
    }

    /** wakeup: the write fails, harmlessly, when the counter is at its maximum. */
    method Wakeup(t: nat)
      requires Valid() && t in owes
      modifies this
      ensures Valid() && View() == Next(old(View()), WriteEventfd(t)) && trace == old(trace) + [WriteEventfd(t)]
    {
      ghost var was := View();
      if wakeupFd < EVENTFD_MAX {
        wakeupFd := wakeupFd + 1;
      }
      owes := owes - {t};
      Took(was, WriteEventfd(t));
    }

    /** A point where the threads other than `t` may step: `others(k)` is what they try at the k-th such
        point. The loop's own steps are among them unless `t` is its thread. */
    method Interfere(t: nat, others: nat -> seq<Step<F>>)
      requires Valid()
      modifies this
      ensures Valid() && old(trace) <= trace && old(enqueued) <= enqueued && (t in owes <==> t in old(owes))
      ensures t == threadId ==> LoopStands(old(View()))
    {
      var steps := others(points);
      points := points + 1;
      for i := 0 to |steps|
        invariant Valid() && old(trace) <= trace && old(enqueued) <= enqueued && (t in owes <==> t in old(owes))
        invariant t == threadId ==> LoopStands(old(View()))
      {
        OtherStep(t, steps[i]);
      }
    }

    /** The loop thread is where it was, and what was pending still is. */
    ghost predicate LoopStands(was: Loop<F>)
      reads this
    {
      && pc == was.pc && batch == was.batch && executed == was.executed && was.pending <= pendingFunctors
      && was.enqueued <= enqueued
      && (was.quit ==> quit)
    }

    method OtherStep(t: nat, step: Step<F>)
      requires Valid()
      modifies this
      ensures Valid() && old(trace) <= trace && old(enqueued) <= enqueued && (t in owes <==> t in old(owes))
      ensures t == threadId ==> LoopStands(old(View()))
    {
      hide LegalRun, LoopInv, LoopSpec.Run;
      match step
      case Push(u, f) =>
        if u != t && u !in owes && (u == threadId ==> InUserCode(pc)) { var _ := Push(u, f); }
      case StoreQuit(u) =>
        if u != t && u !in owes && (u == threadId ==> InUserCode(pc)) { var _ := StoreQuit(u); }
      case WriteEventfd(u) =>
        if u != t && u in owes { Wakeup(u); }
      case _ =>
        if t != threadId { LoopThreadStep(step); }
    }

    /** A step that the loop thread takes by itself, if it is at that point. */
    method LoopThreadStep(step: Step<F>)
      requires Valid()
      modifies this
      ensures Valid() && old(trace) <= trace && enqueued == old(enqueued) && owes == old(owes)
    {
      hide LegalRun, LoopInv, LoopSpec.Run;
      var free := threadId !in owes;
      match step
      case StartLoop => if free && (pc == Idle || pc == Stopped) { StartLoop(); }
      case TestQuit => if pc == Testing { var _ := TestQuit(); }
      case PollReturns => if pc == Polling { PollReturns(); }
      case ReadEventfd => if free && pc == Dispatching { HandleRead(); }
      case BeginPending => if free && pc == Dispatching { BeginPending(); }
      case SwapPending => if pc == Swapping { var _ := SwapPending(); }
      case RunFunctor => if free && pc == Running && batch != [] { CallFunctor(); }
      case EndPending => if free && pc == Running && batch == [] { EndPending(); }
      case _ =>
    }

    /** One atomic step of the loop thread. */
    ghost predicate Stepped(was: Loop<F>, step: Step<F>)
      reads this
    {
      Valid() && View() == Next(was, step)
    }

    method StartLoop()
      requires Valid() && Enabled(View(), LoopSpec.StartLoop)
      modifies this
      ensures Stepped(old(View()), LoopSpec.StartLoop) && trace == old(trace) + [LoopSpec.StartLoop] && !quit
      ensures pc == Testing && executed == old(executed) && pendingFunctors == old(pendingFunctors) && owes == old(owes)
    {
      ghost var was := View();
      quit := false;
      pc := Testing;
      Took(was, LoopSpec.StartLoop);
    }

    method TestQuit() returns (stop: bool)
      requires Valid() && pc == Testing
      modifies this
      ensures Stepped(old(View()), LoopSpec.TestQuit) && trace == old(trace) + [LoopSpec.TestQuit]
      ensures (stop <==> old(quit)) && quit == old(quit) && pc == (if stop then Stopped else Polling)
      ensures executed == old(executed) && pendingFunctors == old(pendingFunctors) && owes == old(owes)
    {
      ghost var was := View();
      stop := quit;
      pc := if quit then Stopped else Polling;
      Took(was, LoopSpec.TestQuit);
    }

    method PollReturns()
      requires Valid() && pc == Polling
      modifies this
      ensures Stepped(old(View()), LoopSpec.PollReturns) && trace == old(trace) + [LoopSpec.PollReturns]
    {
      ghost var was := View();
      pc := Dispatching;
      Took(was, LoopSpec.PollReturns);
    }

    /** The read callback of the wakeup channel empties the counter. */
    method HandleRead()
      requires Valid() && pc == Dispatching && threadId !in owes
      modifies this
      ensures Stepped(old(View()), ReadEventfd) && trace == old(trace) + [ReadEventfd] && wakeupFd == 0
    {
      ghost var was := View();
      wakeupFd := 0;
      Took(was, ReadEventfd);
    }

    method BeginPending()
      requires Valid() && pc == Dispatching && threadId !in owes
      modifies this
      ensures Stepped(old(View()), LoopSpec.BeginPending) && trace == old(trace) + [LoopSpec.BeginPending]
      ensures pc == Swapping && View() == old(View()).(pc := Swapping, calling := true) && enqueued == old(enqueued)
    {
      ghost var was := View();
      callingPendingFunctors := true;
      pc := Swapping;
      Took(was, LoopSpec.BeginPending);
    }

    method SwapPending() returns (functors: seq<F>)
      requires Valid() && pc == Swapping
      modifies this
      ensures Stepped(old(View()), LoopSpec.SwapPending) && trace == old(trace) + [LoopSpec.SwapPending]
      ensures functors == batch == old(pendingFunctors)
      ensures pc == Running && executed == old(executed) && owes == old(owes) && enqueued == old(enqueued)
    {
      ghost var was := View();
      functors := pendingFunctors;
      pendingFunctors, early := [], [];
      batch := functors;
      pc := Running;
      Took(was, LoopSpec.SwapPending);
    }

    method CallFunctor()
      requires Valid() && pc == Running && threadId !in owes && batch != []
      modifies this
      ensures Stepped(old(View()), RunFunctor) && trace == old(trace) + [RunFunctor]
      ensures pc == Running && owes == old(owes) && batch == old(batch)[1..] && enqueued == old(enqueued)
      ensures executed == old(executed) + [old(batch)[0]]
    {
      ghost var was := View();
      executed := executed + [batch[0]];
      batch := batch[1..];
      Took(was, RunFunctor);
    }

    method EndPending()
      requires Valid() && pc == Running && threadId !in owes && batch == []
      modifies this
      ensures Stepped(old(View()), LoopSpec.EndPending) && trace == old(trace) + [LoopSpec.EndPending]
      ensures pc == Testing && owes == old(owes) && executed == old(executed) && enqueued == old(enqueued)
    {
      ghost var was := View();
      callingPendingFunctors := false;
      pc := Testing;
      Took(was, LoopSpec.EndPending);
    }

    // ----- The methods, with other threads in between -----

    /** queueInLoop on thread `t`, the loop's own or another; `others` step between the push and the
        wakeup. */
    method QueueInLoop(t: nat, f: F, others: nat -> seq<Step<F>>)
      requires Valid() && t !in owes && (t == threadId ==> InUserCode(pc))
      modifies this
      ensures Valid() && t !in owes && old(trace) + [LoopSpec.Push(t, f)] <= trace && old(enqueued) + [f] <= enqueued
      ensures t == threadId ==> LoopStands(old(View())) && old(pendingFunctors) + [f] <= pendingFunctors
    {
      hide LegalRun, LoopInv, LoopSpec.Run;
      var mustWake := Push(t, f);
      Interfere(t, others);
      if mustWake {
        Wakeup(t);
      }
    }

    /** runInLoop: on the loop's own thread the caller runs the functor itself. */
    method RunInLoop(t: nat, f: F, others: nat -> seq<Step<F>>) returns (atOnce: bool)
      requires Valid() && t !in owes && (t == threadId ==> InUserCode(pc))
      modifies this
      ensures Valid() && t !in owes && (atOnce <==> t == threadId)
      ensures if atOnce then View() == old(View()) && trace == old(trace)
              else old(trace) + [LoopSpec.Push(t, f)] <= trace && old(enqueued) + [f] <= enqueued
    {
      atOnce := t == threadId;
      if !atOnce {
        QueueInLoop(t, f, others);
      }
    }

    /** quit on thread `t`. */
    method Quit(t: nat, others: nat -> seq<Step<F>>)
      requires Valid() && t !in owes && (t == threadId ==> InUserCode(pc))
      modifies this
      ensures Valid() && t !in owes && old(trace) + [LoopSpec.StoreQuit(t)] <= trace && (t == threadId ==> quit)
    {
      hide LegalRun, LoopInv, LoopSpec.Run;
      var mustWake := StoreQuit(t);
      Interfere(t, others);
      if mustWake {
        Wakeup(t);
      }
    }

    method QueueAll(fs: seq<F>, others: nat -> seq<Step<F>>)
      requires Valid() && threadId !in owes && (pc == Dispatching || pc == Running)
      modifies this
      ensures Valid() && old(trace) <= trace && threadId !in owes && LoopStands(old(View()))
      ensures (forall f :: f in fs ==> f in pendingFunctors) && Since(fs, enqueued, |old(enqueued)|)
    {
      hide LegalRun, LoopInv, LoopSpec.Run;
      for i := 0 to |fs|
        invariant Valid() && old(trace) <= trace && threadId !in owes && LoopStands(old(View()))
        invariant forall k :: 0 <= k < i ==> fs[k] in pendingFunctors && fs[k] in enqueued[|old(enqueued)|..]
      {
        ghost var n, m := |pendingFunctors|, |enqueued|;
        QueueInLoop(threadId, fs[i], others);
        assert pendingFunctors[n] == fs[i] && enqueued[m] == fs[i] == enqueued[|old(enqueued)|..][m - |old(enqueued)|];
      }
    }

    /** doPendingFunctors: whatever the functors enqueue (`body`) and other threads do, it calls exactly
        the functors it swapped out, and these start with all that were pending when it began. */
    method DoPendingFunctors(body: F -> seq<F>, others: nat -> seq<Step<F>>) returns (functors: seq<F>)
      requires Valid() && pc == Dispatching && threadId !in owes
      modifies this
      ensures Valid() && old(trace) <= trace && old(enqueued) <= enqueued && threadId !in owes && pc == Testing
      ensures executed == old(executed) + functors && old(pendingFunctors) <= functors
      ensures forall i :: 0 <= i < |functors| ==> Since(body(functors[i]), enqueued, |old(enqueued)|)
    {
      hide Next, LegalRun, LoopInv, LoopSpec.Run, Since;
      BeginPending();
      Interfere(threadId, others);
      functors := SwapPending();
      assert executed + functors[0..] == old(executed) + functors;
      for i := 0 to |functors|
        invariant Valid() && old(trace) <= trace && old(enqueued) <= enqueued && threadId !in owes && pc == Running
        invariant batch == functors[i..] && executed == old(executed) + functors[..i]
        invariant forall k :: 0 <= k < i ==> Since(body(functors[k]), enqueued, |old(enqueued)|)
      {
        ghost var before := enqueued;
        Interfere(threadId, others);
        CallFunctor();
        ghost var n := |enqueued|;
        QueueAll(body(functors[i]), others);
        SinceEarlier(body(functors[i]), enqueued, n, enqueued, |old(enqueued)|);
        forall k | 0 <= k < i
          ensures Since(body(functors[k]), enqueued, |old(enqueued)|)
        {
          SinceEarlier(body(functors[k]), before, |old(enqueued)|, enqueued, |old(enqueued)|);
        }
      }
      EndPending();
    }

    /** loop(), for at most `turns`: each turn taken executes what was pending at its poll and what its handlers
        enqueued. It ends stopped, because it was told to, or at its poll with all turns taken; and every state
        it went through is one of a legal run of the protocol. */
    method RunLoop(turns: seq<Turn<F>>, others: nat -> seq<Step<F>>) returns (taken: nat, ran: seq<F>)
      requires Valid() && threadId !in owes && (pc == Idle || pc == Stopped)
      modifies this
      ensures Valid() && old(trace) <= trace && executed == old(executed) + ran
      ensures taken <= |turns| && ((pc == Stopped && quit) || (pc == Polling && taken == |turns|))
      ensures taken > 0 ==> old(pendingFunctors) <= ran
      ensures HandlersRan(turns[..taken], ran)
      ensures pc == Polling && (quit || Timely in early) ==> Signalled(View())
    {
      hide LegalRun, LoopSpec.Run, Next, LoopInv, HandlersRan;
      assert HandlersRan(turns[..0], []) by { NoTurns(turns); }
      StartLoop();
      Interfere(threadId, others);
      var stop := TestQuit();
      taken, ran := 0, [];
      while !stop && taken < |turns|
        invariant Valid() && old(trace) <= trace && threadId !in owes && taken <= |turns|
        invariant pc == (if stop then Stopped else Polling) && (stop ==> quit) && executed == old(executed) + ran
        invariant taken == 0 ==> ran == [] && old(pendingFunctors) <= pendingFunctors
        invariant taken > 0 ==> old(pendingFunctors) <= ran
        invariant HandlersRan(turns[..taken], ran)
      {
        Interfere(threadId, others);
        var functors := OneTurn(turns[taken], others);
        HandlersRanMore(turns, taken, ran, functors);
        ran := ran + functors;
        stop := TestQuit();
        taken := taken + 1;
      }
      SignalledAtPoll(View());
    }

    /** One turn: what was pending at the poll and what the handlers enqueue is executed in it, each functor
        that is swapped out once and in order; a reported wakeup is read. */
    method OneTurn(turn: Turn<F>, others: nat -> seq<Step<F>>) returns (functors: seq<F>)
      requires Valid() && pc == Polling && threadId !in owes
      modifies this
      ensures Valid() && old(trace) <= trace && threadId !in owes && pc == Testing
      ensures executed == old(executed) + functors && old(pendingFunctors) <= functors
      ensures forall f :: f in turn.handlers ==> f in functors
      ensures var first := if turn.wakeup then [LoopSpec.PollReturns, ReadEventfd] else [LoopSpec.PollReturns];
              old(trace) + first <= trace
    {
      hide LegalRun, LoopInv, LoopSpec.Run;
      PollReturns();
      if turn.wakeup {
        HandleRead();
      }
      QueueAll(turn.handlers, others);
      functors := DoPendingFunctors(turn.body, others);
    }
  }
}
