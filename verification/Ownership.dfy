/** Who holds a connection: a connection that nobody holds stays so, and its descriptor and its name may be
    given again. */
module Ownership {
  import B = BufferSpec
  import C = ConnectionSpec
  import E = EPollSpec
  import L = LoopSpec
  import S = ServerSpec
  import opened ReactorSpec
  import opened ReactorProofs
  import opened ReactorSteps

  /** The connection an action is about. */
  ghost predicate About(r: Reactor, a: Action, c: nat) {
    match a
    case Exec(l, _, _) =>
      && l < |r.threads| && r.threads[l].todo != []
      && Holds(r.threads[l].todo[0]) && Subject(r.threads[l].todo[0]) == c
    case UserCall(_, d, _) => c == d
    case Post(_, _, f) => !f.User? && f.c == c
    case RunFunctor(l) =>
      && l < |r.threads| && r.threads[l].loop.batch != []
      && !r.threads[l].loop.batch[0].User? && r.threads[l].loop.batch[0].c == c
    case Dispatch(l) =>
      l < |r.threads| && r.threads[l].active != [] &&
      (match r.threads[l].active[0]
       case Wakeup => false
       case Accept(_, _, _, _) => c == |r.nodes|
       case Events(d, _) => c == d)
    case _ => false
  }

  lemma InTokens(t: Thread, m: Micro)
    requires m in t.todo || (m.Body? && m.f in t.loop.batch)
    ensures m in Tokens(t)
  {
    if m !in t.todo {
      var i :| 0 <= i < |t.loop.batch| && t.loop.batch[i] == m.f;
      assert Bodies(t.loop.batch)[i] == m;
    }
  }

  /** What an action is about is held, unless it is new. */
  lemma AboutIsOwned(r: Reactor, a: Action, c: nat)
    requires Inv(r) && Enabled(r, a) && About(r, a, c) && c < |r.nodes|
    ensures Owned(r, c)
  {
    hide Inv, Tokens, Live, L.Enabled, Free;
    match a
    case Exec(l, _, _) =>
      InTokens(r.threads[l], r.threads[l].todo[0]);
    case RunFunctor(l) =>
      InTokens(r.threads[l], Body(r.threads[l].loop.batch[0]));
      assert Subject(Body(r.threads[l].loop.batch[0])) == c;
    case Dispatch(l) =>
      EventIsLive(r, l);
      LiveIsOwned(r, c);
    case _ =>
  }

  lemma EventIsLive(r: Reactor, l: nat)
    requires Inv(r) && l < |r.threads| && r.threads[l].active != [] && r.threads[l].active[0].Events?
    ensures r.threads[l].active[0].c < |r.nodes| && !r.nodes[r.threads[l].active[0].c].conn.hist.destroyed
  {
    hide NodesOk, S.TableInv, DistinctFds, L.LoopInv, Tokens, TokensOk, TodosOk;
    ThreadIsOk(r, l);
    HeadActive(r.nodes, l, r.threads[l]);
  }

  // ----- New tokens are about what the action is about -----

  ghost predicate OnlyAbout(r: Reactor, a: Action, t: Thread, u: Thread) {
    forall m :: m in Tokens(u) && Holds(m) ==> m in Tokens(t) || About(r, a, Subject(m))
  }

  lemma TodoIsAbout(t: Thread, added: seq<Micro>, c: nat)
    requires t.todo != [] && forall i :: 0 <= i < |added| ==> Subject(added[i]) == c
    ensures forall m :: m in Tokens(t.(todo := added + t.todo[1..])) ==> m in Tokens(t) || Subject(m) == c
  {
    TokensAfterTodo(t, added);
    hide Tokens;
  }

  lemma PushIsAbout(t: Thread, who: nat, f: Functor)
    ensures forall m :: m in Tokens(t.(loop := L.Next(t.loop, L.Push(who, f)))) ==> m in Tokens(t) || m == Body(f)
  {
    TokensAfterPush(t, who, f);
    hide Tokens;
  }

  lemma PushesAreAbout(c: nat, home: nat, fx: seq<C.Effect>)
    ensures forall i :: 0 <= i < |Pushes(c, home, fx)| ==> Subject(Pushes(c, home, fx)[i]) == c
  {
    PushesAre(c, home, fx);
    hide Pushes;
  }

  lemma HandledIsAbout(r: Reactor, l: nat, c: nat, out: C.Out, x: nat)
    requires l < |r.threads| && r.threads[l].todo != [] && c < |r.nodes| && x < |r.threads|
    ensures var q := Handled(r, l, c, out, r.threads[l].todo[1..]);
            && |q.threads| == |r.threads|
            && forall m :: m in Tokens(q.threads[x]) ==> m in Tokens(r.threads[x]) || Subject(m) == c
  {
    PushesAreAbout(c, r.nodes[c].home, out.fx);
    TodoIsAbout(r.threads[l], Pushes(c, r.nodes[c].home, out.fx), c);
    hide Tokens, Pushes;
  }

  lemma HandedOverIsAbout(r: Reactor, l: nat, u: nat, f: Functor, x: nat)
    requires l < |r.threads| && r.threads[l].todo != [] && x < |r.threads|
    ensures var q := PushTo(SetTodo(r, l, r.threads[l].todo[1..]), l, u, f);
            && |q.threads| == |r.threads|
            && forall m :: m in Tokens(q.threads[x]) ==> m in Tokens(r.threads[x]) || m == Body(f)
  {
    hide Tokens, L.Next;
    assert [] + r.threads[l].todo[1..] == r.threads[l].todo[1..];
    TokensAfterTodo(r.threads[l], []);
    var r1 := SetTodo(r, l, r.threads[l].todo[1..]);
    if u < |r.threads| { PushIsAbout(r1.threads[u], l, f); }
  }

  lemma ExecIsAbout(r: Reactor, l: nat, read: B.ReadResult, write: B.WriteResult, x: nat)
    requires l < |r.threads| && r.threads[l].todo != [] && x < |r.threads|
    ensures var q := ExecNext(r, l, read, write);
            var head := r.threads[l].todo[0];
            && |q.threads| == |r.threads|
            && forall m :: m in Tokens(q.threads[x]) ==>
                 m in Tokens(r.threads[x]) || (Holds(head) && Subject(m) == Subject(head))
  {
    hide Tokens, PushTo, Handled, S.Apply, C.Establish, C.Destroy, C.HandleClose, C.HandleRead, C.HandleWrite;
    var m := r.threads[l].todo[0];
    var rest := r.threads[l].todo[1..];
    var c := Subject(m);
    assert [] + rest == rest;
    TokensAfterTodo(r.threads[l], []);
    if c < |r.nodes| && r.nodes[c].conn.input.Valid() {
      var conn := r.nodes[c].conn;
      match m
      case RunIn(u, f) =>
        TodoIsAbout(r.threads[l], Running(f), c);
        HandedOverIsAbout(r, l, u, f, x);
      case QueueIn(u, f) => HandedOverIsAbout(r, l, u, f, x);
      case Body(Remove(_)) => TodoIsAbout(r.threads[l], [QueueIn(r.nodes[c].home, Destroy(c))], c);
      case Body(Establish(_)) => HandledIsAbout(r, l, c, C.Establish(conn), x);
      case Body(Destroy(_)) => HandledIsAbout(r, l, c, C.Destroy(conn), x);
      case OnClose(_) => HandledIsAbout(r, l, c, C.HandleClose(conn), x);
      case OnRead(_, _) => HandledIsAbout(r, l, c, C.HandleRead(conn, read, []), x);
      case OnWrite(_) => HandledIsAbout(r, l, c, C.HandleWrite(conn, write), x);
      case _ =>
    }
  }

  lemma FilledIsAbout(t: Thread, u: Thread, c: nat)
    requires t.todo == [] && u.loop.pending == t.loop.pending && u.loop.batch == t.loop.batch
    requires forall i :: 0 <= i < |u.todo| ==> Subject(u.todo[i]) == c
    ensures u.todo == [] ==> Tokens(u) == Tokens(t)
    ensures forall m :: m in Tokens(u) ==> m in Tokens(t) || Subject(m) == c
  {
    hide Bodies, Subject;
  }

  lemma HandlersAreAbout(c: nat, revents: E.Mask)
    ensures forall i :: 0 <= i < |Handlers(c, revents)| ==> Subject(Handlers(c, revents)[i]) == c
  {
    hide C.SelectsClose, C.SelectsRead, C.SelectsWrite;
  }

  lemma DispatchIsAbout(r: Reactor, l: nat, x: nat)
    requires Enabled(r, Dispatch(l)) && x < |r.threads|
    ensures |Next(r, Dispatch(l)).threads| == |r.threads|
    ensures OnlyAbout(r, Dispatch(l), r.threads[x], Next(r, Dispatch(l)).threads[x])
  {
    hide Free, FreshDescriptor, Owned, S.Apply, Tokens, NextHome, Handlers;
    var t := r.threads[l];
    var u := Next(r, Dispatch(l)).threads[l];
    match t.active[0]
    case Wakeup => FilledIsAbout(t, u, 0);
    case Accept(_, _, _, _) => FilledIsAbout(t, u, |r.nodes|);
    case Events(c, revents) => HandlersAreAbout(c, revents); FilledIsAbout(t, u, c);
  }

  lemma NextIsAbout(r: Reactor, a: Action, x: nat)
    requires x < |r.threads| && Inv(r) && Enabled(r, a)
    ensures |Next(r, a).threads| == |r.threads| && OnlyAbout(r, a, r.threads[x], Next(r, a).threads[x])
  {
    hide Inv, Tokens, PushTo, Pushes, Free, Owned, DispatchNext, ExecNext, C.Call, L.Next, L.Enabled;
    hide ThreadOk, Reportable;
    ThreadIsOk(r, x);
    match a
    case Exec(l, read, write) => ExecIsAbout(r, l, read, write, x);
    case Dispatch(l) => DispatchIsAbout(r, l, x);
    case LoopStep(l, step) => if l == x { LoopStepKeepsThread(r.nodes, l, r.threads[l], step); }
    case Poll(l, report) => if l == x { PollTokens(r.threads[l], report); }
    case RunFunctor(l) => if l == x { RunHasBatch(r, l); TokensAfterRun(r.threads[l]); }
    case UserCall(l, c, call) => UserCallIsAbout(r, l, c, C.Call(r.nodes[c].conn, call), x);
    case WakeUp(l, t) => if l == x { QuietStepKeepsThread(r.nodes, l, r.threads[l], L.WriteEventfd(t)); }
    case Quit(t, l) =>
      QuitIsEnabled(r, t, l);
      if l == x { QuietStepKeepsThread(r.nodes, l, r.threads[l], L.StoreQuit(t)); }
    case Post(t, l, f) =>
      PushIsAbout(r.threads[l], t, f);
      PushSize(r, t, l, f, x);
  }

  lemma PollTokens(t: Thread, report: seq<Active>)
    ensures Tokens(Thread(L.Next(t.loop, L.PollReturns), report, t.todo)) == Tokens(t)
  {
  }

  lemma PushSize(r: Reactor, who: nat, u: nat, f: Functor, x: nat)
    requires u < |r.threads| && x < |r.threads|
    ensures var q := PushTo(r, who, u, f);
            |q.threads| == |r.threads|
            && q.threads[x] ==
                 (if x == u then r.threads[u].(loop := L.Next(r.threads[u].loop, L.Push(who, f))) else r.threads[x])
  {
    hide L.Next;
  }

  lemma RunHasBatch(r: Reactor, l: nat)
    requires Enabled(r, RunFunctor(l))
    ensures r.threads[l].todo == [] && r.threads[l].loop.batch != []
  {
  }

  lemma UserCallIsAbout(r: Reactor, l: nat, c: nat, out: C.Out, x: nat)
    requires l < |r.threads| && c < |r.nodes| && x < |r.threads|
    ensures var q := Handled(r, l, c, out, r.threads[l].todo);
            && |q.threads| == |r.threads|
            && forall m :: m in Tokens(q.threads[x]) ==> m in Tokens(r.threads[x]) || Subject(m) == c
  {
    PushesAreAbout(c, r.nodes[c].home, out.fx);
    hide Pushes, Bodies;
  }

  // ----- Held once, and never again -----

  lemma TableOnlyAdds(r: Reactor, a: Action, c: nat)
    requires Inv(r) && Enabled(r, a) && c < |r.nodes| && Next(r, a).table.Contains(c)
    ensures r.table.Contains(c)
  {
    hide ThreadsOk, NodesOk, DistinctFds, Free, Owned, Pushes, L.Next, C.Call, FreshDescriptor, Reportable;
    hide L.Enabled, Handlers;
    hide C.Establish, C.Destroy, C.HandleClose, C.HandleRead, C.HandleWrite, S.ConnName;
  }

  /** A connection that nobody holds is never held again. */
  lemma NextOwned(r: Reactor, a: Action, c: nat)
    requires Inv(r) && Enabled(r, a) && c < |r.nodes| && Owned(Next(r, a), c)
    ensures Owned(r, c)
  {
    hide Inv, Next, Enabled, Tokens, About;
    var q := Next(r, a);
    if q.table.Contains(c) {
      TableOnlyAdds(r, a, c);
    } else {
      Sizes(r, a);
      var l: nat, m :| l < |q.threads| && m in Tokens(q.threads[l]) && Holds(m) && Subject(m) == c;
      NextIsAbout(r, a, l);
      if About(r, a, c) { AboutIsOwned(r, a, c); }
    }
  }

  lemma Sizes(r: Reactor, a: Action)
    requires Inv(r) && Enabled(r, a)
    ensures |Next(r, a).threads| == |r.threads| > 0
  {
    hide Next, Enabled, ThreadsOk, NodesOk, DistinctFds, S.TableInv;
    NextIsAbout(r, a, 0);
  }

  /** Connections that somebody holds have descriptors of their own. */
  ghost predicate OwnFds(r: Reactor) {
    forall c: nat, d: nat ::
      c < |r.nodes| && d < |r.nodes| && Owned(r, c) && Owned(r, d) && r.nodes[c].fd == r.nodes[d].fd ==> c == d
  }

  lemma NextKeepsIdentity(r: Reactor, a: Action)
    requires Enabled(r, a)
    ensures |r.nodes| <= |Next(r, a).nodes| <= |r.nodes| + 1 && Next(r, a).setup == r.setup
    ensures forall c: nat ::
            c < |r.nodes| ==> Next(r, a).nodes[c].fd == r.nodes[c].fd && Next(r, a).nodes[c].home == r.nodes[c].home
    ensures |Next(r, a).nodes| > |r.nodes| ==>
              && a.Dispatch? && r.threads[a.l].active[0].Accept?
              && Next(r, a).nodes[|r.nodes|].fd == r.threads[a.l].active[0].fd
  {
    hide Free, Owned, Pushes, L.Next, C.Call, FreshDescriptor, Reportable, L.Enabled, Handlers, S.Apply;
    hide C.Created, NextHome;
    hide C.Establish, C.Destroy, C.HandleClose, C.HandleRead, C.HandleWrite;
  }

  /** So they have names of their own, and none has the descriptor of a loop's wakeup or of the acceptor. */
  ghost predicate OwnKeys(r: Reactor) {
    && OwnFds(r) && NamesOk(r)
    && forall c: nat :: c < |r.nodes| && Owned(r, c) ==>
         r.nodes[c].fd !in r.setup.wakeFds && r.nodes[c].fd != r.setup.acceptFd
  }

  lemma AcceptIsFresh(r: Reactor, a: Action)
    requires Enabled(r, a) && a.Dispatch? && r.threads[a.l].active[0].Accept?
    ensures FreshDescriptor(r, r.threads[a.l].active[0].fd) && FreshName(r)
  {
    hide Owned, FreshDescriptor, FreshName;
  }

  lemma TableKeepsNames(r: Reactor, a: Action, c: nat)
    requires Inv(r) && Enabled(r, a) && c < |Next(r, a).nodes|
    requires c < |r.nodes| ==> Owned(r, c) && S.HasOwnName(r.table, c)
    ensures S.HasOwnName(Next(r, a).table, c)
  {
    hide ThreadsOk, NodesOk, DistinctFds, Free, Owned, Pushes, L.Next, C.Call, FreshDescriptor, Reportable;
    hide L.Enabled, Handlers;
    hide C.Establish, C.Destroy, C.HandleClose, C.HandleRead, C.HandleWrite, S.ConnName;
  }

  lemma OldAreOwned(r: Reactor, a: Action)
    requires Inv(r) && Enabled(r, a)
    ensures forall c: nat :: c < |r.nodes| && Owned(Next(r, a), c) ==> Owned(r, c)
  {
    hide Inv, Next, Enabled, Owned;
    forall c: nat | c < |r.nodes| && Owned(Next(r, a), c)
      ensures Owned(r, c)
    {
      NextOwned(r, a, c);
    }
  }

  lemma NextKeepsFds(r: Reactor, a: Action)
    requires Inv(r) && OwnKeys(r) && Enabled(r, a)
    ensures var q := Next(r, a);
            && OwnFds(q)
            && forall c: nat :: c < |q.nodes| && Owned(q, c) ==>
                 q.nodes[c].fd !in q.setup.wakeFds && q.nodes[c].fd != q.setup.acceptFd
  {
    hide Inv, Next, Enabled, Owned, NamesOk, FreshName;
    NextKeepsIdentity(r, a);
    OldAreOwned(r, a);
    if |Next(r, a).nodes| > |r.nodes| { AcceptIsFresh(r, a); }
  }

  lemma NextKeepsNames(r: Reactor, a: Action)
    requires Inv(r) && NamesOk(r) && Enabled(r, a)
    ensures NamesOk(Next(r, a))
  {
    hide Inv, Next, Enabled, Owned, S.HasOwnName;
    OldAreOwned(r, a);
    forall c: nat | c < |Next(r, a).nodes| && Owned(Next(r, a), c)
      ensures S.HasOwnName(Next(r, a).table, c)
    {
      TableKeepsNames(r, a, c);
    }
  }

  lemma NextKeepsOwnKeys(r: Reactor, a: Action)
    requires Inv(r) && OwnKeys(r) && Enabled(r, a)
    ensures OwnKeys(Next(r, a)) && Next(r, a).setup == r.setup
  {
    hide Inv, Next, Enabled, Owned, NamesOk, OwnFds;
    NextKeepsIdentity(r, a);
    NextKeepsFds(r, a);
    NextKeepsNames(r, a);
  }

  /** Every step of every thread keeps the invariant of the whole server. */
  lemma NextKeepsAll(r: Reactor, a: Action)
    requires Inv(r) && OwnKeys(r) && Enabled(r, a)
    ensures Inv(Next(r, a)) && OwnKeys(Next(r, a)) && Next(r, a).setup == r.setup
  {
    NextKeepsOwnKeys(r, a);
    NextKeepsInv(r, a);
    hide Next, Enabled, Inv;
  }

  /** Every run keeps the invariant of the whole server. */
  lemma {:induction false} RunKeepsInv(r: Reactor, actions: seq<Action>)
    requires Inv(r) && OwnKeys(r) && LegalRun(r, actions)
    ensures Inv(Run(r, actions)) && OwnKeys(Run(r, actions)) && Run(r, actions).setup == r.setup
    decreases |actions|
  {
    if actions != [] {
      NextKeepsAll(r, actions[0]);
      RunKeepsInv(Next(r, actions[0]), actions[1..]);
      hide Next, Enabled, Inv, OwnKeys;
    }
  }

  lemma StartKeys(loops: nat, setup: Setup)
    ensures OwnKeys(Start(loops, setup))
  {
  }
}
