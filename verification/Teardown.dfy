/** No closed connection is forgotten: its removal and its destruction are always on their way. */
module Teardown {
  import B = BufferSpec
  import C = ConnectionSpec
  import P = ConnectionProofs
  import T = ConnectionTheorems
  import O = ConnectionOutput
  import L = LoopSpec
  import S = ServerSpec
  import opened ReactorSpec
  import opened ReactorProofs
  import opened ReactorSteps
  import opened Ownership
  import opened Lifetime

  ghost predicate Somewhere(r: Reactor, m: Micro) {
    exists l: nat :: l < |r.threads| && m in Tokens(r.threads[l])
  }

  ghost predicate RemovalAhead(r: Reactor, c: nat) {
    Somewhere(r, RunIn(0, Remove(c))) || Somewhere(r, Body(Remove(c)))
  }

  ghost predicate DestructionAhead(r: Reactor, c: nat) {
    c < |r.nodes| && (Somewhere(r, QueueIn(r.nodes[c].home, Destroy(c))) || Somewhere(r, Body(Destroy(c))))
  }

  /** Every closed connection that is still in the map is about to be removed from it. */
  ghost predicate Departing(r: Reactor) {
    forall c: nat :: c < |r.nodes| && Closed(r.nodes[c]) && c !in r.table.removed ==> RemovalAhead(r, c)
  }

  // ----- Nothing a thread is bound to do gets lost -----

  /** What the action uses up of the tokens of thread `x`. */
  function Spent(r: Reactor, a: Action, x: nat): multiset<Micro> {
    if a.Exec? && a.l == x && x < |r.threads| && r.threads[x].todo != []
    then multiset{r.threads[x].todo[0]} else multiset{}
  }

  lemma TodoKeepsTokens(r: Reactor, l: nat, added: seq<Micro>, x: nat)
    requires l < |r.threads| && r.threads[l].todo != [] && x < |r.threads|
    ensures var q := SetTodo(r, l, added + r.threads[l].todo[1..]);
            Tokens(r.threads[x]) - (if x == l then multiset{r.threads[l].todo[0]} else multiset{}) <=
                Tokens(q.threads[x])
    ensures forall m :: m in added ==> m in Tokens(SetTodo(r, l, added + r.threads[l].todo[1..]).threads[l])
  {
    TokensAfterTodo(r.threads[l], added);
    hide Tokens;
  }

  lemma PushKeepsTokens(r: Reactor, who: nat, u: nat, f: Functor, x: nat)
    requires u < |r.threads| && x < |r.threads|
    ensures Tokens(r.threads[x]) <= Tokens(PushTo(r, who, u, f).threads[x])
    ensures Body(f) in Tokens(PushTo(r, who, u, f).threads[u]) && |PushTo(r, who, u, f).threads| == |r.threads|
  {
    TokensAfterPush(r.threads[u], who, f);
    hide Tokens, L.Next;
  }

  lemma HandedOver(r: Reactor, l: nat, u: nat, f: Functor, x: nat)
    requires l < |r.threads| && r.threads[l].todo != [] && u < |r.threads| && x < |r.threads|
    ensures var q := PushTo(SetTodo(r, l, r.threads[l].todo[1..]), l, u, f);
            && Tokens(r.threads[x]) - (if x == l then multiset{r.threads[l].todo[0]} else multiset{}) <=
                 Tokens(q.threads[x])
            && Body(f) in Tokens(q.threads[u]) && |q.threads| == |r.threads|
  {
    hide Tokens, L.Next, PushTo;
    assert [] + r.threads[l].todo[1..] == r.threads[l].todo[1..];
    TodoKeepsTokens(r, l, [], x);
    PushKeepsTokens(SetTodo(r, l, r.threads[l].todo[1..]), l, u, f, x);
  }

  lemma HandledKeepsTokens(r: Reactor, l: nat, c: nat, out: C.Out, x: nat)
    requires l < |r.threads| && r.threads[l].todo != [] && c < |r.nodes| && x < |r.threads|
    ensures var q := Handled(r, l, c, out, r.threads[l].todo[1..]);
            && Tokens(r.threads[x]) - (if x == l then multiset{r.threads[l].todo[0]} else multiset{}) <=
                 Tokens(q.threads[x])
            && |q.threads| == |r.threads|
  {
    TodoKeepsTokens(SetConn(r, c, out.c), l, Pushes(c, r.nodes[c].home, out.fx), x);
    hide Tokens, Pushes;
  }

  /** Tasks that run a handler or a part of a connection's life. */
  predicate ChangesConn(m: Micro) {
    IsHandler(m) || (m.Body? && (m.f.Establish? || m.f.Destroy?))
  }

  lemma ConnTaskKeepsTokens(r: Reactor, l: nat, read: B.ReadResult, write: B.WriteResult, x: nat)
    requires l < |r.threads| && r.threads[l].todo != [] && x < |r.threads| && ChangesConn(r.threads[l].todo[0])
    requires Subject(r.threads[l].todo[0]) < |r.nodes| && r.nodes[Subject(r.threads[l].todo[0])].conn.input.Valid()
    ensures var q := ExecNext(r, l, read, write);
            && |q.threads| == |r.threads|
            && Tokens(r.threads[x]) - Spent(r, Exec(l, read, write), x) <= Tokens(q.threads[x])
  {
    hide Tokens, C.Establish, C.Destroy, C.HandleClose, C.HandleRead, C.HandleWrite, Handled;
    var m := r.threads[l].todo[0];
    var conn := r.nodes[Subject(m)].conn;
    match m
    case Body(Establish(c)) => HandledKeepsTokens(r, l, c, C.Establish(conn), x);
    case Body(Destroy(c)) => HandledKeepsTokens(r, l, c, C.Destroy(conn), x);
    case OnClose(c) => HandledKeepsTokens(r, l, c, C.HandleClose(conn), x);
    case OnRead(c, _) => HandledKeepsTokens(r, l, c, C.HandleRead(conn, read, []), x);
    case OnWrite(c) => HandledKeepsTokens(r, l, c, C.HandleWrite(conn, write), x);
  }

  lemma PlainTaskKeepsTokens(r: Reactor, l: nat, read: B.ReadResult, write: B.WriteResult, x: nat)
    requires l < |r.threads| && r.threads[l].todo != [] && x < |r.threads| && !ChangesConn(r.threads[l].todo[0])
    requires var m := r.threads[l].todo[0];
             Holds(m) ==> Subject(m) < |r.nodes| && r.nodes[Subject(m)].conn.input.Valid()
    requires var m := r.threads[l].todo[0]; m.RunIn? || m.QueueIn? ==> m.loop < |r.threads|
    ensures var q := ExecNext(r, l, read, write);
            && |q.threads| == |r.threads|
            && Tokens(r.threads[x]) - Spent(r, Exec(l, read, write), x) <= Tokens(q.threads[x])
  {
    hide Tokens, PushTo, S.Apply, Handled, Running;
    var m, rest := r.threads[l].todo[0], r.threads[l].todo[1..];
    assert [] + rest == rest;
    TodoKeepsTokens(r, l, [], x);
    match m
    case RunIn(u, f) => if u == l { TodoKeepsTokens(r, l, Running(f), x); } else { HandedOver(r, l, u, f, x); }
    case QueueIn(u, f) => HandedOver(r, l, u, f, x);
    case Body(Remove(c)) => TodoKeepsTokens(r, l, [QueueIn(r.nodes[c].home, Destroy(c))], x);
    case _ =>
  }

  lemma ExecKeepsTokens(r: Reactor, l: nat, read: B.ReadResult, write: B.WriteResult, x: nat)
    requires Inv(r) && Enabled(r, Exec(l, read, write)) && x < |r.threads|
    ensures var q := Next(r, Exec(l, read, write));
            && |q.threads| == |r.threads|
            && Tokens(r.threads[x]) - Spent(r, Exec(l, read, write), x) <= Tokens(q.threads[x])
  {
    hide Tokens, Inv, Free, ExecNext, Spent;
    if Holds(r.threads[l].todo[0]) { HeadTarget(r, l); }
    if ChangesConn(r.threads[l].todo[0]) {
      ConnTaskKeepsTokens(r, l, read, write, x);
    } else {
      PlainTaskKeepsTokens(r, l, read, write, x);
    }
  }

  /** The connection at hand exists, and so does the loop that a functor is for. */
  lemma HeadTarget(r: Reactor, l: nat)
    requires Inv(r) && l < |r.threads| && r.threads[l].todo != [] && Holds(r.threads[l].todo[0])
    ensures var m := r.threads[l].todo[0];
            && Subject(m) < |r.nodes| && r.nodes[Subject(m)].conn.input.Valid()
            && (m.RunIn? || m.QueueIn? ==> m.loop < |r.threads|)
            && (m.Body? && (m.f.Remove? || m.f.Destroy?) ==> Closed(r.nodes[Subject(m)]))
            && (m.Body? && m.f.Establish? ==> m in Tokens(r.threads[l]))
  {
    hide ThreadsOk, NodesOk, S.TableInv, DistinctFds, Tokens, P.ConnInv, O.HalfCloseSound, Closed;
    HeadOk(r, l);
    var c := Subject(r.threads[l].todo[0]);
    NodeIsOk(r, c);
    InputValid(r.nodes[c].conn);
  }

  lemma DispatchKeepsTokens(r: Reactor, l: nat, x: nat)
    requires Inv(r) && Enabled(r, Dispatch(l)) && x < |r.threads|
    ensures var q := Next(r, Dispatch(l));
            |q.threads| == |r.threads| && Tokens(r.threads[x]) <= Tokens(q.threads[x])
  {
    hide Inv, Free, FreshDescriptor, Handlers, Owned, S.Apply, Bodies, NextHome;
  }

  lemma NextKeepsTokens(r: Reactor, a: Action, x: nat)
    requires Inv(r) && Enabled(r, a) && x < |r.threads|
    ensures |Next(r, a).threads| == |r.threads|
    ensures Tokens(r.threads[x]) - Spent(r, a, x) <= Tokens(Next(r, a).threads[x])
  {
    hide Tokens, Inv, PushTo, Pushes, Free, Owned, DispatchNext, ExecNext, C.Call, L.Next, L.Enabled;
    hide ThreadOk, Reportable;
    ThreadIsOk(r, x);
    match a
    case Exec(l, read, write) => ExecKeepsTokens(r, l, read, write, x);
    case Dispatch(l) => DispatchKeepsTokens(r, l, x);
    case LoopStep(l, step) => if l == x { LoopStepKeepsThread(r.nodes, l, r.threads[l], step); }
    case Poll(l, report) => if l == x { PollTokens(r.threads[l], report); }
    case RunFunctor(l) => if l == x { RunTokens(r.threads[l]); }
    case UserCall(l, c, call) =>
      if l == x { CallTokens(r.threads[l], Pushes(c, r.nodes[c].home, C.Call(r.nodes[c].conn, call).fx)); }
    case WakeUp(l, t) => if l == x { QuietStepKeepsThread(r.nodes, l, r.threads[l], L.WriteEventfd(t)); }
    case Quit(t, l) =>
      QuitIsEnabled(r, t, l);
      if l == x { QuietStepKeepsThread(r.nodes, l, r.threads[l], L.StoreQuit(t)); }
    case Post(t, l, f) => PushKeepsTokens(r, t, l, f, x);
  }

  lemma RunTokens(t: Thread)
    requires t.todo == [] && L.Enabled(t.loop, L.RunFunctor)
    ensures Tokens(t) <= Tokens(Thread(L.Next(t.loop, L.RunFunctor), t.active, Running(t.loop.batch[0])))
  {
    TokensAfterRun(t);
    hide Tokens, L.Next;
  }

  lemma CallTokens(t: Thread, added: seq<Micro>)
    ensures Tokens(t) <= Tokens(t.(todo := added + t.todo))
  {
    hide Bodies;
  }

  lemma HeldUnlessSpent(r: Reactor, a: Action, l: nat, m: Micro)
    requires Inv(r) && Enabled(r, a) && l < |r.threads| && m in Tokens(r.threads[l])
    ensures (Holds(m) ==> Owned(Next(r, a), Subject(m))) || m in Spent(r, a, l)
  {
    hide Inv, Next, Enabled, Tokens;
    NextKeepsTokens(r, a, l);
    if m !in Spent(r, a, l) {
      assert m in Tokens(r.threads[l]) - Spent(r, a, l);
      assert m in Tokens(Next(r, a).threads[l]);
    }
  }

  /** Only the connection whose task has just been done can lose its last holder by it. */
  lemma OnlyItsOwnIsLost(r: Reactor, a: Action, c: nat)
    requires Inv(r) && NamesOk(r) && Enabled(r, a) && c < |r.nodes| && Owned(r, c) && !Owned(Next(r, a), c)
    ensures a.Exec? && a.l < |r.threads| && r.threads[a.l].todo != [] && Subject(r.threads[a.l].todo[0]) == c
  {
    hide Inv, NamesOk, Next, Tokens;
    if r.table.Contains(c) {
      TableLosesOnlyItsOwn(r, a, c);
    } else {
      var l: nat, m :| l < |r.threads| && m in Tokens(r.threads[l]) && Holds(m) && Subject(m) == c;
      HeldUnlessSpent(r, a, l, m);
    }
  }

  lemma TableLosesOnlyItsOwn(r: Reactor, a: Action, c: nat)
    requires Inv(r) && NamesOk(r) && Enabled(r, a) && c < |r.nodes|
    requires r.table.Contains(c) && !Next(r, a).table.Contains(c)
    ensures a.Exec? && a.l < |r.threads| && r.threads[a.l].todo != [] && Subject(r.threads[a.l].todo[0]) == c
  {
    hide ThreadsOk, NodesOk, DistinctFds, Free, Owned, Pushes, L.Next, C.Call, FreshDescriptor, Reportable;
    hide L.Enabled, Handlers;
    hide C.Establish, C.Destroy, C.HandleClose, C.HandleRead, C.HandleWrite, S.ConnName;
    MappedAreOwned(r);
    if a.Exec? { ErasedHasOwnName(r, a.l); }
  }

  lemma ErasedHasOwnName(r: Reactor, l: nat)
    requires Inv(r) && NamesOk(r) && l < |r.threads| && r.threads[l].todo != []
    ensures Holds(r.threads[l].todo[0]) ==> S.HasOwnName(r.table, Subject(r.threads[l].todo[0]))
  {
    hide Inv, Owned, S.HasOwnName;
    HeadExists(r, l);
    if Holds(r.threads[l].todo[0]) { HeadIsOwned(r, l); }
  }

  // ----- Closing a connection -----

  lemma {:induction false} PushesRemoval(c: nat, home: nat, fx: seq<C.Effect>)
    requires C.CloseCallback in fx
    ensures RunIn(0, Remove(c)) in Pushes(c, home, fx)
    decreases |fx|
  {
    if fx[0] != C.CloseCallback {
      PushesRemoval(c, home, fx[1..]);
    }
  }

  /** A handler that closes a connection tells the server so. */
  lemma ClosersReport(c: C.Conn, read: B.ReadResult, write: B.WriteResult)
    requires P.ConnInv(c) && c.state != C.Connecting && !c.hist.destroyed && c.state != C.Disconnected
    ensures C.CloseCallback in C.HandleClose(c).fx
    ensures C.HandleRead(c, read, []).c.state == C.Disconnected ==> C.CloseCallback in C.HandleRead(c, read, []).fx
    ensures C.HandleWrite(c, write).c.state != C.Disconnected
  {
    T.HandleReadLife(c, read, []);
    T.HandleWriteLife(c, write);
    hide C.HandleWrite, P.LayersAgree, P.StreamsConserved, B.ReadFd;
  }

  /** The only steps that close a connection are its handlers. */
  lemma ClosingIsReported(r: Reactor, a: Action, c: nat)
    requires Inv(r) && Enabled(r, a) && c < |r.nodes| && !Closed(r.nodes[c])
    requires c < |Next(r, a).nodes| && Closed(Next(r, a).nodes[c])
    ensures a.Exec? && a.l < |Next(r, a).threads| && RunIn(0, Remove(c)) in Tokens(Next(r, a).threads[a.l])
  {
    hide Tokens, Inv, Pushes, Free, Owned, P.ConnInv, C.HandleClose, C.HandleRead, C.HandleWrite, C.Call;
    hide S.Apply, Handlers;
    hide L.Next, L.Enabled, FreshDescriptor, Reportable, C.Destroy;
    NodeIsOk(r, c);
    match a
    case UserCall(l, d, call) => T.CallKeepsLife(r.nodes[d].conn, call);
    case Exec(l, read, write) => ExecClosing(r, l, read, write, c);
    case _ =>
  }

  lemma ExecClosing(r: Reactor, l: nat, read: B.ReadResult, write: B.WriteResult, c: nat)
    requires Inv(r) && l < |r.threads| && r.threads[l].todo != [] && c < |r.nodes| && !Closed(r.nodes[c])
    requires |ExecNext(r, l, read, write).nodes| == |r.nodes| && Closed(ExecNext(r, l, read, write).nodes[c])
    ensures l < |ExecNext(r, l, read, write).threads|
    ensures RunIn(0, Remove(c)) in Tokens(ExecNext(r, l, read, write).threads[l])
  {
    hide Tokens, Inv, Pushes, P.ConnInv, C.HandleClose, C.HandleRead, C.HandleWrite, S.Apply, C.Destroy, L.Next;
    HeadOk(r, l);
    HeadTarget(r, l);
    NodeIsOk(r, c);
    var m := r.threads[l].todo[0];
    var conn := r.nodes[c].conn;
    if IsHandler(m) && Subject(m) == c {
      ClosersReport(conn, read, write);
      var fx := if m.OnClose? then C.HandleClose(conn).fx else C.HandleRead(conn, read, []).fx;
      PushesRemoval(c, r.nodes[c].home, fx);
      TodoKeepsTokens(r, l, Pushes(c, r.nodes[c].home, fx), l);
    }
  }

  // ----- Every step keeps departures under way -----

  lemma RemovalHandedOn(r: Reactor, l: nat, read: B.ReadResult, write: B.WriteResult, c: nat)
    requires Inv(r) && Enabled(r, Exec(l, read, write)) && c < |r.nodes|
    requires r.threads[l].todo[0] == RunIn(0, Remove(c)) || r.threads[l].todo[0] == Body(Remove(c))
    ensures var q := Next(r, Exec(l, read, write));
            RemovalAhead(q, c) || c in q.table.removed
  {
    hide Tokens, Inv, Pushes, Free, Owned, L.Next;
    HeadTarget(r, l);
    HandedOver(r, l, 0, Remove(c), 0);
    TodoKeepsTokens(r, l, Running(Remove(c)), l);
  }

  lemma NextOnlyAdds(r: Reactor, a: Action)
    requires Inv(r) && Enabled(r, a)
    ensures |r.nodes| <= |Next(r, a).nodes| && r.table.removed <= Next(r, a).table.removed
    ensures forall c: nat :: |r.nodes| <= c < |Next(r, a).nodes| ==> !Closed(Next(r, a).nodes[c])
  {
    hide Tokens, Inv, Pushes, Free, Owned, C.HandleClose, C.HandleRead, C.HandleWrite, C.Call, Handlers;
    hide L.Next, L.Enabled, FreshDescriptor, Reportable, C.Destroy, C.Establish;
  }

  lemma StillAhead(r: Reactor, a: Action, m: Micro)
    requires Inv(r) && Enabled(r, a) && Somewhere(r, m)
    ensures Somewhere(Next(r, a), m) || (a.Exec? && r.threads[a.l].todo[0] == m)
  {
    hide Tokens, Inv, Next, Free, Owned;
    var l: nat :| l < |r.threads| && m in Tokens(r.threads[l]);
    NextKeepsTokens(r, a, l);
    if !(a.Exec? && r.threads[a.l].todo[0] == m) {
      assert m in Tokens(r.threads[l]) - Spent(r, a, l);
    }
  }

  lemma NextKeepsDeparting(r: Reactor, a: Action)
    requires Inv(r) && Departing(r) && Enabled(r, a)
    ensures Departing(Next(r, a))
  {
    hide Inv, Next, Tokens, Free, Owned;
    NextOnlyAdds(r, a);
    var q := Next(r, a);
    forall c: nat | c < |q.nodes| && Closed(q.nodes[c]) && c !in q.table.removed
      ensures RemovalAhead(q, c)
    {
      if !Closed(r.nodes[c]) {
        ClosingIsReported(r, a, c);
      } else {
        var m := if Somewhere(r, RunIn(0, Remove(c))) then RunIn(0, Remove(c)) else Body(Remove(c));
        StillAhead(r, a, m);
        if !Somewhere(q, m) {
          RemovalHandedOn(r, a.l, a.read, a.write, c);
        }
      }
    }
  }

  lemma {:induction false} RunKeepsDeparting(r: Reactor, actions: seq<Action>)
    requires Inv(r) && OwnKeys(r) && Departing(r) && LegalRun(r, actions)
    ensures Departing(Run(r, actions))
    decreases |actions|
  {
    if actions != [] {
      NextKeepsAll(r, actions[0]);
      NextKeepsDeparting(r, actions[0]);
      RunKeepsDeparting(Next(r, actions[0]), actions[1..]);
      hide Next, Enabled, Inv, OwnKeys, Departing;
    }
  }

  /** In every reachable state a closed connection has been destroyed, or a functor that removes or
      destroys it is queued, running or about to be handed over. */
  lemma NoClosedConnectionForgotten(loops: nat, setup: Setup, actions: seq<Action>, c: nat)
    requires loops > 0 && LegalRun(Start(loops, setup), actions) && c < |Reached(loops, setup, actions).nodes|
    ensures var r := Reached(loops, setup, actions);
            r.nodes[c].conn.state == C.Disconnected ==>
              r.nodes[c].conn.hist.destroyed || RemovalAhead(r, c) || DestructionAhead(r, c)
  {
    StartInv(loops, setup);
    StartKeys(loops, setup);
    RunKeepsDeparting(Start(loops, setup), actions);
    var r := Reached(loops, setup, actions);
    ReachedInv(loops, setup, actions);
    NodeIsOk(r, c);
    hide Inv, Reached, LegalRun, Tokens, P.ConnInv, O.HalfCloseSound, Run;
  }

  /** Every thread has worked off what it was bound to do. */
  ghost predicate Quiet(r: Reactor) {
    forall l: nat :: l < |r.threads| ==> Tokens(r.threads[l]) == multiset{}
  }

  /** When nothing is left to be done, the map and the epoll sets hold exactly the open connections. */
  lemma QuietServerHoldsOpenConnections(loops: nat, setup: Setup, actions: seq<Action>, c: nat)
    requires loops > 0 && LegalRun(Start(loops, setup), actions) && c < |Reached(loops, setup, actions).nodes|
    requires Quiet(Reached(loops, setup, actions))
    ensures var r := Reached(loops, setup, actions);
            && (r.table.Contains(c) <==> C.IsUp(r.nodes[c].conn))
            && (Registered(r, c) <==> C.IsUp(r.nodes[c].conn))
  {
    StartInv(loops, setup);
    StartKeys(loops, setup);
    RunKeepsDeparting(Start(loops, setup), actions);
    ReachedInv(loops, setup, actions);
    QuietNode(Reached(loops, setup, actions), c);
    hide Inv, Reached, LegalRun, Run, Quiet, Departing;
  }

  lemma QuietNode(r: Reactor, c: nat)
    requires Inv(r) && Departing(r) && Quiet(r) && c < |r.nodes|
    ensures r.table.Contains(c) <==> C.IsUp(r.nodes[c].conn)
    ensures Registered(r, c) <==> C.IsUp(r.nodes[c].conn)
  {
    hide ThreadsOk, NodesOk, DistinctFds, Tokens, O.HalfCloseSound, P.StreamsConserved;
    NodeIsOk(r, c);
    var node := r.nodes[c];
    QuietBooks(node, c, c in r.table.removed);
    assert c in r.table.removed ==> !r.table.Contains(c);
    assert Closed(node) && c !in r.table.removed ==> RemovalAhead(r, c);
  }

  /** In empty books nothing is being established or destroyed. */
  lemma QuietBooks(node: Node, c: nat, removed: bool)
    requires NodeOk(node, c, removed, multiset{}, multiset{})
    ensures node.conn.state != C.Connecting && (removed ==> Closed(node) && node.conn.hist.destroyed)
    ensures C.IsUp(node.conn) ==> node.conn.chan.interest.Some?
    ensures Closed(node) && node.conn.hist.destroyed ==> node.conn.chan.interest.None?
  {
    hide O.HalfCloseSound, P.StreamsConserved, P.CallbacksCounted;
  }
}
