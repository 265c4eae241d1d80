/** A run of the server, as each of its loops lives through it. */
module LoopStories {
  import opened Prelude
  import B = BufferSpec
  import C = ConnectionSpec
  import L = LoopSpec
  import Q = LoopLaws
  import S = ServerSpec
  import opened ReactorSpec
  import opened ReactorProofs
  import opened ReactorSteps
  import opened Ownership
  import opened Lifetime
  import TD = Teardown

  /** What running the first task of thread `t` does to loop `l`: another loop's thread, or its own, may push. */
  function PushOf(t: nat, m: Micro, l: nat): Option<L.Step<Functor>> {
    match m
    case RunIn(u, f) => if u == l && u != t then Some(L.Push(t, f)) else None
    case QueueIn(u, f) => if u == l then Some(L.Push(t, f)) else None
    case _ => None
  }

  /** The step of the loop protocol that an action is for loop `l`. */
  function LoopStepOf(r: Reactor, a: Action, l: nat): Option<L.Step<Functor>> {
    match a
    case LoopStep(x, step) => if x == l then Some(step) else None
    case Poll(x, _) => if x == l then Some(L.PollReturns) else None
    case Dispatch(x) =>
      if x == l && x < |r.threads| && r.threads[x].active != [] && r.threads[x].active[0].Wakeup?
      then Some(L.ReadEventfd) else None
    case RunFunctor(x) => if x == l then Some(L.RunFunctor) else None
    case Exec(x, _, _) =>
      if x < |r.threads| && r.threads[x].todo != [] then PushOf(x, r.threads[x].todo[0], l) else None
    case UserCall(_, _, _) => None
    case WakeUp(x, t) => if x == l then Some(L.WriteEventfd(t)) else None
    case Post(t, x, f) => if x == l then Some(L.Push(t, f)) else None
    case Quit(t, x) => if x == l then Some(L.StoreQuit(t)) else None
  }

  predicate LivesLoop(s: L.Loop<Functor>, step: Option<L.Step<Functor>>, s': L.Loop<Functor>) {
    match step
    case None => s' == s
    case Some(st) => L.Enabled(s, st) && s' == L.Next(s, st)
  }

  lemma PushIsLived(r: Reactor, t: nat, u: nat, f: Functor)
    requires t < |r.threads| && r.threads[t].todo != [] && Free(r, t) && u < |r.threads| && Inv(r)
    ensures L.Enabled(r.threads[u].loop, L.Push(t, f))
  {
    ThreadIsOk(r, t);
    ThreadIsOk(r, u);
    hide Inv, Tokens, TokensOk, TodosOk, ActivesOk, L.LoopInv;
  }

  lemma HandledLeavesLoops(r: Reactor, l: nat, c: nat, out: C.Out, rest: seq<Micro>, x: nat)
    requires l < |r.threads| && c < |r.nodes| && x < |r.threads|
    ensures var q := Handled(r, l, c, out, rest); |q.threads| == |r.threads| && q.threads[x].loop == r.threads[x].loop
  {
    hide Pushes;
  }

  lemma ExecIsLived(r: Reactor, t: nat, read: B.ReadResult, write: B.WriteResult, l: nat)
    requires l < |r.threads| && Inv(r) && Enabled(r, Exec(t, read, write))
    ensures var q := Next(r, Exec(t, read, write));
            |q.threads| == |r.threads|
            && LivesLoop(r.threads[l].loop, LoopStepOf(r, Exec(t, read, write), l), q.threads[l].loop)
  {
    hide Inv, Handled, S.Apply, C.Establish, C.Destroy, C.HandleClose, C.HandleRead, C.HandleWrite, Running;
    hide L.Next, L.Enabled;
    var m := r.threads[t].todo[0];
    var rest := r.threads[t].todo[1..];
    if Holds(m) { TD.HeadTarget(r, t); }
    if m.RunIn? || m.QueueIn? {
      PushIsLived(r, t, m.loop, m.f);
    } else if TD.ChangesConn(m) {
      ConnTaskLeavesLoops(r, t, read, write, l);
    }
  }

  lemma ConnTaskLeavesLoops(r: Reactor, t: nat, read: B.ReadResult, write: B.WriteResult, l: nat)
    requires l < |r.threads| && t < |r.threads| && r.threads[t].todo != [] && TD.ChangesConn(r.threads[t].todo[0])
    ensures var q := ExecNext(r, t, read, write); |q.threads| == |r.threads| && q.threads[l].loop == r.threads[l].loop
  {
    hide Pushes, C.Establish, C.Destroy, C.HandleClose, C.HandleRead, C.HandleWrite;
  }

  /** Every action is, for each loop of the server, at most one step of the loop protocol, and a legal one. */
  lemma ActionIsLoopStep(r: Reactor, a: Action, l: nat)
    requires l < |r.threads| && Inv(r) && Enabled(r, a)
    ensures |Next(r, a).threads| == |r.threads|
    ensures LivesLoop(r.threads[l].loop, LoopStepOf(r, a, l), Next(r, a).threads[l].loop)
  {
    hide Inv, Pushes, Owned, ExecNext, C.Call, Handlers, S.Apply, C.Created, FreshDescriptor, FreshName, NextHome;
    hide Running, L.Next, Handled, Reportable, OncePerChannel;
    match a
    case Exec(t, read, write) => ExecIsLived(r, t, read, write, l);
    case UserCall(x, c, call) => HandledLeavesLoops(r, x, c, C.Call(r.nodes[c].conn, call), r.threads[x].todo, l);
    case Post(t, x, f) => PostIsLived(r, t, x, f);
    case Quit(t, x) => QuitIsEnabled(r, t, x);
    case Dispatch(x) => DispatchIsLived(r, x);
    case _ =>
  }

  lemma PostIsLived(r: Reactor, t: nat, l: nat, f: Functor)
    requires Inv(r) && Enabled(r, Post(t, l, f))
    ensures L.Enabled(r.threads[l].loop, L.Push(t, f))
  {
    hide Inv, Owned;
    SelfOfThread(r, l);
  }

  lemma DispatchIsLived(r: Reactor, l: nat)
    requires Inv(r) && Enabled(r, Dispatch(l))
    ensures L.Enabled(r.threads[l].loop, L.ReadEventfd)
  {
    ThreadIsOk(r, l);
    hide Inv, Tokens, TokensOk, TodosOk, ActivesOk, L.LoopInv, Owned, FreshDescriptor, FreshName;
  }

  function AsSteps(step: Option<L.Step<Functor>>): seq<L.Step<Functor>> {
    if step.Some? then [step.value] else []
  }

  /** What a run does to loop `l`. */
  ghost function LoopStory(r: Reactor, actions: seq<Action>, l: nat): seq<L.Step<Functor>>
    requires LegalRun(r, actions)
    decreases |actions|
  {
    if actions == [] then [] else
    AsSteps(LoopStepOf(r, actions[0], l)) + LoopStory(Next(r, actions[0]), actions[1..], l)
  }

  lemma StepThenRest(s: L.Loop<Functor>, step: Option<L.Step<Functor>>, s': L.Loop<Functor>, rest: seq<L.Step<Functor>>)
    requires LivesLoop(s, step, s') && L.LegalRun(s', rest)
    ensures L.LegalRun(s, AsSteps(step) + rest) && L.Run(s, AsSteps(step) + rest) == L.Run(s', rest)
  {
    hide L.Next, L.Enabled;
    if step.Some? {
      assert ([step.value] + rest)[1..] == rest;
    } else {
      assert [] + rest == rest;
    }
  }

  lemma {:induction false} LoopStoryFrom(r: Reactor, actions: seq<Action>, l: nat)
    requires l < |r.threads| && Inv(r) && OwnKeys(r) && LegalRun(r, actions)
    ensures l < |Run(r, actions).threads|
    ensures L.LegalRun(r.threads[l].loop, LoopStory(r, actions, l))
    ensures L.Run(r.threads[l].loop, LoopStory(r, actions, l)) == Run(r, actions).threads[l].loop
    decreases |actions|
  {
    if actions != [] {
      hide Next, Enabled, Inv, OwnKeys, LoopStepOf, LivesLoop, AsSteps;
      var q := Next(r, actions[0]);
      NextKeepsAll(r, actions[0]);
      ActionIsLoopStep(r, actions[0], l);
      LoopStoryFrom(q, actions[1..], l);
      StepThenRest(r.threads[l].loop, LoopStepOf(r, actions[0], l), q.threads[l].loop, LoopStory(q, actions[1..], l));
    }
  }

  /** Every run of the server is, for each of its loops, a legal run of the loop protocol from a fresh loop: what is
      proved of those runs holds in the server. So each loop of it stops at its test exactly when a quit was
      stored since it began, its counter holds the unread wakeups, and it calls what was pushed. */
  lemma ServerLoopsAreLoops(loops: nat, setup: Setup, actions: seq<Action>, l: nat)
    requires loops > 0 && l < loops && LegalRun(Start(loops, setup), actions)
    ensures var story := LoopStory(Start(loops, setup), actions, l);
            && l < |Reached(loops, setup, actions).threads| && L.LegalRun(L.Fresh(l), story)
            && var s := Reached(loops, setup, actions).threads[l].loop;
               && s == L.Run(L.Fresh(l), story)
               && (s.quit <==> Q.QuitAsked(story)) && (s.pc == L.Stopped ==> s.quit) && s.eventfd == Q.Unread(story)
               && s.enqueued == Q.Pushed(story) && |s.executed| == Q.Called(story)
  {
    hide Inv, OwnKeys, LegalRun, Run, LoopStory, Q.QuitAsked, Q.Unread, Q.Pushed, Q.Called, L.Run, L.LegalRun;
    StartInv(loops, setup);
    StartKeys(loops, setup);
    assert Start(loops, setup).threads[l].loop == L.Fresh(l);
    LoopStoryFrom(Start(loops, setup), actions, l);
    var story := LoopStory(Start(loops, setup), actions, l);
    Q.QuitIff<Functor>(l, story);
    Q.EventfdIsUnread<Functor>(l, story);
    Q.QueueLengths<Functor>(l, story);
  }
}
