/** Reports in the whole server: the order in which their handlers run, and which of them close twice. */
module ServerReports {
  import opened Prelude
  import B = BufferSpec
  import E = EPollSpec
  import C = ConnectionSpec
  import P = ConnectionProofs
  import T = ConnectionTheorems
  import O = ConnectionOutput
  import L = LoopSpec
  import S = ServerSpec
  import opened ReactorSpec
  import opened ReactorProofs
  import opened ReactorSteps
  import opened Ownership
  import opened Lifetime

  // ----- Handlers still to run -----

  function HandlersIn(todo: seq<Micro>): seq<Micro> {
    if todo == [] then [] else (if IsHandler(todo[0]) then [todo[0]] else []) + HandlersIn(todo[1..])
  }

  predicate NoHandlers(added: seq<Micro>) {
    forall i :: 0 <= i < |added| ==> !IsHandler(added[i])
  }

  lemma {:induction false} HandlersInPrepend(added: seq<Micro>, rest: seq<Micro>)
    requires NoHandlers(added)
    ensures HandlersIn(added + rest) == HandlersIn(rest)
    decreases |added|
  {
    if added == [] {
      assert added + rest == rest;
    } else {
      assert (added + rest)[1..] == added[1..] + rest;
      HandlersInPrepend(added[1..], rest);
    }
  }

  lemma {:induction false} HandlersInTodo(todo: seq<Micro>)
    ensures forall m :: m in HandlersIn(todo) ==> m in todo && IsHandler(m)
    decreases |todo|
  {
    if todo != [] {
      HandlersInTodo(todo[1..]);
    }
  }

  lemma HandlersOfReport(c: nat, revents: E.Mask)
    ensures HandlersIn(Handlers(c, revents) + [Hold(c)]) == Handlers(c, revents)
  {
    hide C.SelectsClose, C.SelectsRead, C.SelectsWrite;
    var w := if C.SelectsWrite(revents) then [OnWrite(c)] else [];
    var rw := (if C.SelectsRead(revents) then [OnRead(c, revents)] else []) + w;
    HandlersInPrepend([Hold(c)], []);
    assert [Hold(c)] + [] == [Hold(c)];
    HandlersInFirst(C.SelectsWrite(revents), OnWrite(c), [Hold(c)]);
    HandlersInFirst(C.SelectsRead(revents), OnRead(c, revents), w + [Hold(c)]);
    HandlersInFirst(C.SelectsClose(revents), OnClose(c), rw + [Hold(c)]);
    assert rw + [Hold(c)] == (if C.SelectsRead(revents) then [OnRead(c, revents)] else []) + (w + [Hold(c)]);
    assert Handlers(c, revents) + [Hold(c)] ==
        (if C.SelectsClose(revents) then [OnClose(c)] else []) + (rw + [Hold(c)]);
    hide HandlersIn;
  }

  lemma HandlersInFirst(on: bool, m: Micro, rest: seq<Micro>)
    requires IsHandler(m)
    ensures HandlersIn((if on then [m] else []) + rest) == (if on then [m] else []) + HandlersIn(rest)
  {
    assert on ==> ([m] + rest)[1..] == rest;
    assert !on ==> [] + rest == rest;
  }

  // ----- What is left of one report -----

  /** The connection is not closed, or a close has come twice already. */
  predicate NotYetClosed(node: Node) {
    node.conn.hist.doubled || !Closed(node)
  }

  /** The read and write handlers of a report on `c` that selects the close handler, or that does not. */
  predicate ReadAndWrite(c: nat, hs: seq<Micro>, closes: bool) {
    || hs == [] || hs == [OnWrite(c)]
    || (hs[0].OnRead? && hs[0].c == c && C.SelectsRead(hs[0].revents) && C.SelectsClose(hs[0].revents) == closes
        && (hs[1..] == [] || hs[1..] == [OnWrite(c)]))
  }

  /** The handlers still to run are the rest of one report; a read that follows the close handler of its
      report finds the connection closed, and no other handler does. */
  predicate HandlersOk(nodes: seq<Node>, hs: seq<Micro>) {
    hs != [] ==>
      var c := Subject(hs[0]);
      && c < |nodes| && IsHandler(hs[0])
      && (hs[0].OnClose? ==> NotYetClosed(nodes[c]) && ReadAndWrite(c, hs[1..], true))
      && (hs[0].OnRead? ==>
            var closes := C.SelectsClose(hs[0].revents);
            ReadAndWrite(c, hs, closes) && if closes then Closed(nodes[c]) else NotYetClosed(nodes[c]))
      && (hs[0].OnWrite? ==> hs[1..] == [])
  }

  /** The reports not yet dispatched are of other connections, none of them closed. */
  predicate ReportsOk(nodes: seq<Node>, active: seq<Active>, hs: seq<Micro>) {
    && OncePerChannel(active)
    && forall i :: 0 <= i < |active| && active[i].Events? ==>
         active[i].c < |nodes| && NotYetClosed(nodes[active[i].c]) && (hs != [] ==> active[i].c != Subject(hs[0]))
  }

  predicate Orderly(nodes: seq<Node>, t: Thread) {
    HandlersOk(nodes, HandlersIn(t.todo)) && ReportsOk(nodes, t.active, HandlersIn(t.todo))
  }

  ghost predicate AllOrderly(r: Reactor) {
    forall l: nat :: l < |r.threads| ==> Orderly(r.nodes, r.threads[l])
  }

  // ----- Steps that leave closing alone -----

  /** The connections of threads other than `l` are as they were, as far as closing goes. */
  ghost predicate SameElsewhere(nodes: seq<Node>, nodes': seq<Node>, l: nat) {
    |nodes| <= |nodes'| && forall c: nat :: c < |nodes| && nodes[c].home != l ==> SameClosing(nodes[c], nodes'[c])
  }

  predicate SameClosing(node: Node, node': Node) {
    (Closed(node) <==> Closed(node')) && node.conn.hist.doubled == node'.conn.hist.doubled
  }

  lemma OrderlyElsewhere(r: Reactor, q: Reactor, l: nat, x: nat)
    requires Inv(r) && x < |r.threads| && x != l && Orderly(r.nodes, r.threads[x]) && SameElsewhere(r.nodes, q.nodes, l)
    ensures forall t: Thread :: t.active == r.threads[x].active && t.todo == r.threads[x].todo ==> Orderly(q.nodes, t)
  {
    hide ThreadsOk, NodesOk, S.TableInv, DistinctFds, Tokens, Live, ThreadOk, SameClosing, TokensOk;
    var t := r.threads[x];
    ThreadIsOk(r, x);
    var hs := HandlersIn(t.todo);
    HandlersInTodo(t.todo);
    if hs != [] {
      HandlerIsLive(r.nodes, x, t, hs[0]);
      assert SameClosing(r.nodes[Subject(hs[0])], q.nodes[Subject(hs[0])]);
    }
    ActivesAtHome(r.nodes, x, t);
    hide HandlersIn, ReadAndWrite;
    assert HandlersOk(q.nodes, hs) by { SameClosingMeans(); }
    assert ReportsOk(q.nodes, t.active, hs) by { SameClosingMeans(); }
  }

  lemma SameClosingMeans()
    ensures forall n, n' ::
            SameClosing(n, n') ==> (Closed(n) <==> Closed(n')) && (NotYetClosed(n) <==> NotYetClosed(n'))
  {
  }

  lemma ActivesAtHome(nodes: seq<Node>, l: nat, t: Thread)
    requires ThreadOk(nodes, l, t)
    ensures forall i :: 0 <= i < |t.active| && t.active[i].Events? ==>
              t.active[i].c < |nodes| && nodes[t.active[i].c].home == l
  {
    hide L.LoopInv, TokensOk, TodosOk, Live;
    forall i | 0 <= i < |t.active| && t.active[i].Events?
      ensures t.active[i].c < |nodes| && nodes[t.active[i].c].home == l
    {
      assert ActiveOk(nodes, l, t.active[i]);
    }
  }

  /** What a thread's own step may do besides: take away reports or start with none, and leave handlers. */
  lemma OrderlyHere(nodes: seq<Node>, nodes': seq<Node>, t: Thread, u: Thread)
    requires Orderly(nodes, t) && u.active == t.active && HandlersIn(u.todo) == HandlersIn(t.todo)
    requires |nodes| <= |nodes'| && forall c: nat :: c < |nodes| ==> SameClosing(nodes[c], nodes'[c])
    ensures Orderly(nodes', u)
  {
    hide HandlersIn, ReadAndWrite, SameClosing, NotYetClosed, Closed;
    SameClosingMeans();
  }

  lemma AllOrderlyFrom(r: Reactor, q: Reactor, l: nat)
    requires Inv(r) && AllOrderly(r) && |q.threads| == |r.threads| && l < |r.threads|
    requires SameElsewhere(r.nodes, q.nodes, l) && Orderly(q.nodes, q.threads[l])
    requires forall x: nat :: x < |r.threads| && x != l ==>
               q.threads[x].active == r.threads[x].active && q.threads[x].todo == r.threads[x].todo
    ensures AllOrderly(q)
  {
    hide Inv, Orderly, SameElsewhere;
    forall x: nat | x < |q.threads|
      ensures Orderly(q.nodes, q.threads[x])
    {
      if x != l { OrderlyElsewhere(r, q, l, x); }
    }
  }

  lemma SameClosingRefl()
    ensures forall n :: SameClosing(n, n)
  {
  }

  /** A loop step, a push and a wakeup leave reports and handlers alone. */
  lemma LoopKeepsOrderly(r: Reactor, l: nat, step: L.Step<Functor>)
    requires AllOrderly(r) && l < |r.threads|
    ensures AllOrderly(StepLoop(r, l, step))
  {
    hide HandlersIn, HandlersOk, ReportsOk;
    var q := StepLoop(r, l, step);
    forall x: nat | x < |q.threads|
      ensures Orderly(q.nodes, q.threads[x])
    {
      assert Orderly(r.nodes, r.threads[x]);
    }
  }

  lemma PollKeepsOrderly(r: Reactor, l: nat, report: seq<Active>)
    requires Inv(r) && AllOrderly(r) && Enabled(r, Poll(l, report))
    ensures AllOrderly(Next(r, Poll(l, report)))
  {
    hide NodesOk, S.TableInv, DistinctFds, L.Next;
    var q := Next(r, Poll(l, report));
    ThreadIsOk(r, l);
    assert r.threads[l].todo == [];
    forall i | 0 <= i < |report| && report[i].Events?
      ensures report[i].c < |r.nodes| && NotYetClosed(r.nodes[report[i].c])
    {
      assert Reportable(r, l, report[i]);
      RegisteredNotYetClosed(r, report[i].c);
    }
    hide ThreadsOk;
    SameClosingRefl();
    assert q.nodes == r.nodes;
    AllOrderlyFrom(r, q, l);
  }

  lemma RegisteredNotYetClosed(r: Reactor, c: nat)
    requires Inv(r) && Registered(r, c)
    ensures NotYetClosed(r.nodes[c])
  {
    hide Inv, Tokens, P.StreamsConserved, P.CallbacksCounted;
    NodeIsOk(r, c);
  }

  lemma DispatchKeepsOrderly(r: Reactor, l: nat)
    requires Inv(r) && AllOrderly(r) && Enabled(r, Dispatch(l))
    ensures AllOrderly(Next(r, Dispatch(l)))
  {
    hide Inv, Owned, Free, FreshDescriptor, HandlersIn, HandlersOk, ReportsOk, L.Next, Handlers, NextHome;
    hide S.Apply, C.Created;
    var t := r.threads[l];
    var q := Next(r, Dispatch(l));
    assert Orderly(r.nodes, t);
    var rest := t.active[1..];
    NothingLeft(r.nodes, t, rest);
    SameClosingRefl();
    match t.active[0]
    case Wakeup => AllOrderlyFrom(r, q, l);
    case Accept(_, _, _, _) =>
      NoHandlersAfter(q.threads[l].todo);
      OrderlyHere(r.nodes, q.nodes, Thread(t.loop, rest, []), q.threads[l]);
      AllOrderlyFrom(r, q, l);
    case Events(c, revents) =>
      ReportTaken(r.nodes, t);
      AllOrderlyFrom(r, q, l);
  }

  lemma NoHandlersAfter(added: seq<Micro>)
    requires NoHandlers(added)
    ensures HandlersIn(added) == [] == HandlersIn([])
  {
    HandlersInPrepend(added, []);
    assert added + [] == added;
  }

  lemma NothingLeft(nodes: seq<Node>, t: Thread, rest: seq<Active>)
    requires Orderly(nodes, t) && t.todo == [] && t.active != [] && rest == t.active[1..]
    ensures forall u: Thread :: u.active == rest && u.todo == [] ==> Orderly(nodes, u)
  {
    hide NotYetClosed;
  }

  /** The handlers of a report are in order, and no later report is of the same connection. */
  lemma ReportTaken(nodes: seq<Node>, t: Thread)
    requires Orderly(nodes, t) && t.todo == [] && t.active != [] && t.active[0].Events?
    ensures var c, revents := t.active[0].c, t.active[0].revents;
            forall u: Thread :: u.active == t.active[1..] && u.todo == Handlers(c, revents) + [Hold(c)] ==>
                Orderly(nodes, u)
  {
    var c, revents := t.active[0].c, t.active[0].revents;
    HandlersOfReport(c, revents);
    hide HandlersIn, C.SelectsClose, C.SelectsRead, C.SelectsWrite, NotYetClosed, Closed;
    assert forall i :: 1 <= i < |t.active| ==> !SameChannel(t.active[0], t.active[i]);
  }

  lemma RunFunctorKeepsOrderly(r: Reactor, l: nat)
    requires Inv(r) && AllOrderly(r) && Enabled(r, RunFunctor(l))
    ensures AllOrderly(Next(r, RunFunctor(l)))
  {
    hide Inv, Free, HandlersIn, HandlersOk, ReportsOk, L.Next;
    var t := r.threads[l];
    var q := Next(r, RunFunctor(l));
    assert Orderly(r.nodes, t);
    SameClosingRefl();
    NoHandlersAfter(Running(t.loop.batch[0]));
    OrderlyHere(r.nodes, r.nodes, t, q.threads[l]);
    AllOrderlyFrom(r, q, l);
  }

  // ----- Steps that may close -----

  /** Running the read handler of a report that also selected the close handler, at the end of the file. */
  predicate ExecClosesTwice(r: Reactor, a: Action, c: nat) {
    && a.Exec? && a.l < |r.threads| && r.threads[a.l].todo != []
    && var m := r.threads[a.l].todo[0];
       m.OnRead? && m.c == c && C.SelectsClose(m.revents) && T.EndOfFile(a.read)
  }

  predicate Doubled(r: Reactor, c: nat) {
    c < |r.nodes| && r.nodes[c].conn.hist.doubled
  }

  /** A close has come twice to just those connections it came to before, and those this step adds. */
  ghost predicate DoublesBy(r: Reactor, a: Action, q: Reactor) {
    forall c: nat :: Doubled(q, c) <==> Doubled(r, c) || ExecClosesTwice(r, a, c)
  }

  /** The state of one connection changes, and its thread has `added` to do in place of its first task. */
  lemma OneNodeKeepsOrderly(r: Reactor, l: nat, c: nat, conn: C.Conn, added: seq<Micro>)
    requires l < |r.threads| && r.threads[l].todo != [] && !IsHandler(r.threads[l].todo[0]) && NoHandlers(added)
    requires c < |r.nodes| && SameClosing(r.nodes[c], r.nodes[c].(conn := conn))
    requires r.nodes[c].home == l || conn == r.nodes[c].conn
    requires Inv(r) && AllOrderly(r)
    ensures AllOrderly(SetTodo(SetConn(r, c, conn), l, added + r.threads[l].todo[1..]))
  {
    hide Inv, HandlersOk, ReportsOk, SameClosing;
    var t := r.threads[l];
    var q := SetTodo(SetConn(r, c, conn), l, added + t.todo[1..]);
    SameClosingRefl();
    HandlersInPrepend(added, t.todo[1..]);
    OrderlyHere(r.nodes, q.nodes, t, q.threads[l]);
    hide Orderly;
    AllOrderlyFrom(r, q, l);
  }

  /** The first handler of a report has run; closing, if it was the close handler. */
  lemma OrderlyAfterHandler(nodes: seq<Node>, node': Node, t: Thread, u: Thread)
    requires Orderly(nodes, t) && HandlersIn(t.todo) != [] && u.active == t.active
    requires HandlersIn(u.todo) == HandlersIn(t.todo)[1..]
    requires HandlersIn(t.todo)[0].OnClose? ==> Closed(node')
    ensures Subject(HandlersIn(t.todo)[0]) < |nodes| && Orderly(nodes[Subject(HandlersIn(t.todo)[0]) := node'], u)
  {
    hide HandlersIn, NotYetClosed, Closed, C.SelectsClose, C.SelectsRead;
  }

  /** What running a handler does to its connection, as far as closing goes. */
  lemma HandlerCloses(c: C.Conn, read: B.ReadResult, write: B.WriteResult)
    requires P.ConnInv(c) && c.state != C.Connecting && !c.hist.destroyed
    ensures var d := C.HandleClose(c).c;
            d.state == C.Disconnected && (d.hist.doubled <==> c.hist.doubled || c.state == C.Disconnected)
    ensures var d := C.HandleRead(c, read, []).c;
            d.hist.doubled <==> c.hist.doubled || (T.EndOfFile(read) && c.state == C.Disconnected)
    ensures C.HandleWrite(c, write).c.hist.doubled == c.hist.doubled
  {
    T.HandleReadLife(c, read, []);
    T.HandleWriteLife(c, write);
    hide C.HandleRead, C.HandleWrite, P.StackAgrees, P.CallbacksCounted, P.StreamsConserved, E.SliceSet;
  }

  function HandlerOut(m: Micro, conn: C.Conn, read: B.ReadResult, write: B.WriteResult): C.Out
    requires conn.input.Valid() && IsHandler(m)
  {
    match m
    case OnClose(_) => C.HandleClose(conn)
    case OnRead(_, _) => C.HandleRead(conn, read, [])
    case OnWrite(_) => C.HandleWrite(conn, write)
  }

  /** The node at hand is closed a second time exactly by a read that follows its close handler. */
  lemma HandlerDoubles(nodes: seq<Node>, t: Thread, read: B.ReadResult, write: B.WriteResult)
    requires Orderly(nodes, t) && t.todo != [] && IsHandler(t.todo[0]) && Subject(t.todo[0]) < |nodes|
    requires var conn := nodes[Subject(t.todo[0])].conn;
             P.ConnInv(conn) && conn.state != C.Connecting && !conn.hist.destroyed && conn.input.Valid()
    ensures var m := t.todo[0];
            var conn := nodes[Subject(m)].conn;
            && HandlersIn(t.todo) == [m] + HandlersIn(t.todo[1..])
            && (HandlerOut(m, conn, read, write).c.hist.doubled <==>
                  conn.hist.doubled || (m.OnRead? && C.SelectsClose(m.revents) && T.EndOfFile(read)))
            && (m.OnClose? ==> HandlerOut(m, conn, read, write).c.state == C.Disconnected)
  {
    var m := t.todo[0];
    HandlerCloses(nodes[Subject(m)].conn, read, write);
    assert HandlersIn(t.todo) == [m] + HandlersIn(t.todo[1..]);
    hide HandlersIn, ReportsOk, ReadAndWrite, C.HandleClose, C.HandleRead, C.HandleWrite, P.ConnInv, C.SelectsClose;
  }

  lemma HandlerKeepsOrderly(r: Reactor, l: nat, read: B.ReadResult, write: B.WriteResult)
    requires l < |r.threads| && r.threads[l].todo != [] && IsHandler(r.threads[l].todo[0])
    requires Inv(r) && AllOrderly(r)
    ensures var q := ExecNext(r, l, read, write);
            AllOrderly(q) && DoublesBy(r, Exec(l, read, write), q)
  {
    hide Inv, Orderly, P.ConnInv, Pushes, C.HandleClose, C.HandleRead, C.HandleWrite, HandlersIn;
    hide C.SelectsClose, T.EndOfFile, Closed;
    var t := r.threads[l];
    var m := t.todo[0];
    var c := Subject(m);
    HandlerTarget(r, l, c);
    assert Orderly(r.nodes, t);
    HandlerDoubles(r.nodes, t, read, write);
    var out := HandlerOut(m, r.nodes[c].conn, read, write);
    var q := Handled(r, l, c, out, t.todo[1..]);
    assert q == ExecNext(r, l, read, write);
    PushesAreNoHandlers(c, r.nodes[c].home, out.fx);
    HandlersInPrepend(Pushes(c, r.nodes[c].home, out.fx), t.todo[1..]);
    assert Closed(q.nodes[c]) <==> q.nodes[c].conn.state == C.Disconnected by { ClosedMeans(); }
    OrderlyAfterHandler(r.nodes, q.nodes[c], t, q.threads[l]);
    SameClosingRefl();
    AllOrderlyFrom(r, q, l);
  }

  lemma ClosedMeans()
    ensures forall n :: Closed(n) <==> n.conn.state == C.Disconnected
  {
  }

  lemma PushesAreNoHandlers(c: nat, home: nat, fx: seq<C.Effect>)
    ensures NoHandlers(Pushes(c, home, fx))
  {
    PushesAre(c, home, fx);
    hide Pushes;
  }

  /** The connection of a handler that is about to run. */
  lemma HandlerTarget(r: Reactor, l: nat, c: nat)
    requires l < |r.threads| && r.threads[l].todo != [] && IsHandler(r.threads[l].todo[0]) && Inv(r)
    requires c == Subject(r.threads[l].todo[0])
    ensures c < |r.nodes| && r.nodes[c].home == l && P.ConnInv(r.nodes[c].conn) && r.nodes[c].conn.input.Valid()
    ensures r.nodes[c].conn.state != C.Connecting && !r.nodes[c].conn.hist.destroyed
  {
    hide Inv, Tokens, P.ConnInv, O.HalfCloseSound;
    HeadOk(r, l);
    NodeIsOk(r, c);
    InputValid(r.nodes[c].conn);
  }

  /** Only reports, handlers and the closing of connections matter to the order. */
  lemma SameParts(q: Reactor, q': Reactor)
    requires AllOrderly(q) && q'.threads == q.threads && q'.nodes == q.nodes
    ensures AllOrderly(q')
  {
    hide Orderly;
  }

  /** Establishing and destroying leave closing alone. */
  lemma LifeKeepsClosing(node: Node)
    ensures node.conn.state == C.Connecting ==> SameClosing(node, node.(conn := C.Establish(node.conn).c))
    ensures Closed(node) ==> SameClosing(node, node.(conn := C.Destroy(node.conn).c))
    ensures C.Establish(node.conn).fx == [C.ConnectionChanged(true)] && (Closed(node) ==> C.Destroy(node.conn).fx == [])
  {
    hide E.SliceSet, E.Changed;
  }

  /** A functor of the user's own changes nothing here. */
  lemma UserKeepsOrderly(r: Reactor, l: nat, read: B.ReadResult, write: B.WriteResult)
    requires l < |r.threads| && r.threads[l].todo != [] && !Holds(r.threads[l].todo[0])
    requires Inv(r) && AllOrderly(r)
    ensures AllOrderly(ExecNext(r, l, read, write))
  {
    hide Inv, HandlersOk, ReportsOk, SameClosing;
    var t := r.threads[l];
    var q := SetTodo(r, l, t.todo[1..]);
    SameClosingRefl();
    HandlersInPrepend([t.todo[0]], t.todo[1..]);
    assert [t.todo[0]] + t.todo[1..] == t.todo;
    OrderlyHere(r.nodes, r.nodes, t, q.threads[l]);
    hide Orderly;
    AllOrderlyFrom(r, q, l);
  }

  lemma LifeKeepsOrderly(r: Reactor, l: nat, read: B.ReadResult, write: B.WriteResult)
    requires l < |r.threads| && r.threads[l].todo != []
    requires var m := r.threads[l].todo[0]; m.Body? && (m.f.Establish? || m.f.Destroy?)
    requires Inv(r) && AllOrderly(r)
    ensures AllOrderly(ExecNext(r, l, read, write))
  {
    hide Inv, AllOrderly, P.ConnInv, Pushes, C.Establish, C.Destroy, Tokens, SameClosing, O.HalfCloseSound;
    var m := r.threads[l].todo[0];
    var c := Subject(m);
    HeadOk(r, l);
    NodeIsOk(r, c);
    InputValid(r.nodes[c].conn);
    var node := r.nodes[c];
    LifeKeepsClosing(node);
    if m.f.Establish? { EstablishMeetsConnecting(r, l, c); }
    hide NodeOk, TodoOk;
    var out := if m.f.Establish? then C.Establish(node.conn) else C.Destroy(node.conn);
    NoPushes(c, node.home, out.fx);
    OneNodeKeepsOrderly(r, l, c, out.c, []);
  }

  lemma OrdinaryKeepsOrderly(r: Reactor, l: nat, read: B.ReadResult, write: B.WriteResult)
    requires l < |r.threads| && r.threads[l].todo != []
    requires !IsHandler(r.threads[l].todo[0]) && Holds(r.threads[l].todo[0])
    requires Inv(r) && AllOrderly(r)
    ensures AllOrderly(ExecNext(r, l, read, write))
  {
    hide Inv, AllOrderly, P.ConnInv, Tokens, S.Apply, L.Next, O.HalfCloseSound, SameClosing, NodeOk, TokenOk, TodoOk;
    hide Handled, Running, NoHandlers;
    var t := r.threads[l];
    var m := t.todo[0];
    var rest := t.todo[1..];
    if m.Body? && (m.f.Establish? || m.f.Destroy?) {
      LifeKeepsOrderly(r, l, read, write);
    } else {
      HeadExists(r, l);
      var c := Subject(m);
      InputOfNode(r, c);
      var node := r.nodes[c];
      SameClosingRefl();
      OrdinaryAdded(m, node.home);
      assert SetConn(r, c, node.conn) == r && [] + rest == rest;
      OneNodeKeepsOrderly(r, l, c, node.conn, []);
      match m
      case RunIn(u, f) =>
        OneNodeKeepsOrderly(r, l, c, node.conn, Running(f));
        if u < |r.threads| { LoopKeepsOrderly(SetTodo(r, l, rest), u, L.Push(l, f)); }
      case QueueIn(u, f) =>
        if u < |r.threads| { LoopKeepsOrderly(SetTodo(r, l, rest), u, L.Push(l, f)); }
      case Body(Remove(_)) =>
        OneNodeKeepsOrderly(r, l, c, node.conn, [QueueIn(node.home, Destroy(c))]);
        SameParts(SetTodo(r, l, [QueueIn(node.home, Destroy(c))] + rest), ExecNext(r, l, read, write));
      case _ =>
    }
  }

  lemma OrdinaryAdded(m: Micro, home: nat)
    ensures NoHandlers([]) && NoHandlers([QueueIn(home, Destroy(Subject(m)))])
    ensures m.RunIn? ==> NoHandlers(Running(m.f))
  {
  }

  lemma LifeKeepsDoubled(c: C.Conn)
    ensures C.Establish(c).c.hist.doubled == c.hist.doubled == C.Destroy(c).c.hist.doubled
  {
    hide E.SliceSet, E.Changed;
  }

  lemma OrdinaryDoublesNone(r: Reactor, l: nat, read: B.ReadResult, write: B.WriteResult)
    requires l < |r.threads| && r.threads[l].todo != [] && !IsHandler(r.threads[l].todo[0])
    ensures DoublesBy(r, Exec(l, read, write), ExecNext(r, l, read, write))
  {
    hide Pushes, C.Establish, C.Destroy, S.Apply, L.Next;
    if Subject(r.threads[l].todo[0]) < |r.nodes| {
      LifeKeepsDoubled(r.nodes[Subject(r.threads[l].todo[0])].conn);
    }
  }

  lemma UserCallKeepsOrderly(r: Reactor, l: nat, c: nat, call: C.UserCall)
    requires Inv(r) && AllOrderly(r) && Enabled(r, UserCall(l, c, call))
    ensures var q := Next(r, UserCall(l, c, call));
            AllOrderly(q) && DoublesBy(r, UserCall(l, c, call), q)
  {
    hide Inv, Orderly, Pushes, C.Call, HandlersIn, Owned, Free;
    var t := r.threads[l];
    var q := Next(r, UserCall(l, c, call));
    var out := C.Call(r.nodes[c].conn, call);
    T.CallKeepsLife(r.nodes[c].conn, call);
    SameClosingRefl();
    PushesAreNoHandlers(c, l, out.fx);
    HandlersInPrepend(Pushes(c, l, out.fx), t.todo);
    assert Orderly(r.nodes, t);
    OrderlyHere(r.nodes, q.nodes, t, q.threads[l]);
    AllOrderlyFrom(r, q, l);
  }

  /** Every step keeps reports and handlers in order; and a close comes twice to a connection exactly when
      its read handler, called for a report that selected the close handler too, finds the end of the file. */
  lemma NextKeepsOrderly(r: Reactor, a: Action)
    requires Inv(r) && AllOrderly(r) && Enabled(r, a)
    ensures AllOrderly(Next(r, a)) && DoublesBy(r, a, Next(r, a))
  {
    hide Inv, Orderly, AllOrderly, Owned, Free, L.Next, L.Enabled, HandlersIn, IsHandler, ExecNext, C.Call;
    hide Pushes, S.Apply;
    match a
    case LoopStep(l, step) => LoopKeepsOrderly(r, l, step);
    case Poll(l, report) => PollKeepsOrderly(r, l, report);
    case Dispatch(l) => DispatchKeepsOrderly(r, l); DispatchDoublesNone(r, l);
    case RunFunctor(l) => RunFunctorKeepsOrderly(r, l);
    case Exec(l, read, write) =>
      if IsHandler(r.threads[l].todo[0]) {
        HandlerKeepsOrderly(r, l, read, write);
      } else {
        if Holds(r.threads[l].todo[0]) {
          OrdinaryKeepsOrderly(r, l, read, write);
        } else {
          UserKeepsOrderly(r, l, read, write);
        }
        OrdinaryDoublesNone(r, l, read, write);
      }
    case UserCall(l, c, call) => UserCallKeepsOrderly(r, l, c, call);
    case WakeUp(l, t) => LoopKeepsOrderly(r, l, L.WriteEventfd(t));
    case Post(t, l, f) => LoopKeepsOrderly(r, l, L.Push(t, f));
    case Quit(t, l) => LoopKeepsOrderly(r, l, L.StoreQuit(t));
  }

  lemma DispatchDoublesNone(r: Reactor, l: nat)
    requires Enabled(r, Dispatch(l))
    ensures DoublesBy(r, Dispatch(l), Next(r, Dispatch(l)))
  {
    hide Owned, Free, L.Next, Handlers, S.Apply, FreshDescriptor;
  }

  // ----- Runs -----

  /** Somewhere in the run a report closes connection `c` twice. */
  ghost predicate RunClosesTwice(r: Reactor, actions: seq<Action>, c: nat)
    requires LegalRun(r, actions)
    decreases |actions|
  {
    actions != [] && (ExecClosesTwice(r, actions[0], c) || RunClosesTwice(Next(r, actions[0]), actions[1..], c))
  }

  lemma {:induction false} RunDoubles(r: Reactor, actions: seq<Action>, c: nat)
    requires Inv(r) && OwnKeys(r) && AllOrderly(r) && LegalRun(r, actions)
    ensures Doubled(Run(r, actions), c) <==> Doubled(r, c) || RunClosesTwice(r, actions, c)
    decreases |actions|
  {
    if actions != [] {
      NextKeepsAll(r, actions[0]);
      NextKeepsOrderly(r, actions[0]);
      RunDoubles(Next(r, actions[0]), actions[1..], c);
      hide Next, Enabled, Inv, OwnKeys, AllOrderly, ExecClosesTwice, Doubled;
    }
  }

  lemma StartOrderly(loops: nat, setup: Setup)
    ensures AllOrderly(Start(loops, setup))
  {
  }

  /** In every interleaving, a connection is closed twice exactly when, for a report that selects both the
      close and the read handler, the read finds the end of the file. */
  lemma ClosedTwiceIff(loops: nat, setup: Setup, actions: seq<Action>, c: nat)
    requires loops > 0 && LegalRun(Start(loops, setup), actions) && c < |Reached(loops, setup, actions).nodes|
    ensures Reached(loops, setup, actions).nodes[c].conn.hist.downs >= 2 <==>
              RunClosesTwice(Start(loops, setup), actions, c)
  {
    hide Inv, AllOrderly, LegalRun, Run, RunClosesTwice;
    StartInv(loops, setup);
    StartKeys(loops, setup);
    StartOrderly(loops, setup);
    RunDoubles(Start(loops, setup), actions, c);
    ReachedInv(loops, setup, actions);
    DoubledCounts(Reached(loops, setup, actions), c);
  }

  lemma DoubledCounts(r: Reactor, c: nat)
    requires Inv(r) && c < |r.nodes|
    ensures Doubled(r, c) <==> r.nodes[c].conn.hist.downs >= 2
  {
    hide Inv, Tokens, P.StackAgrees, P.StreamsConserved, O.HalfCloseSound;
    NodeIsOk(r, c);
  }

  /** In every reachable state of the server each connection keeps its own promises: the layers agree, the
      streams are conserved, and the half-close is graceful; and unless some report closed it twice, it is
      told of its close once, when it is closed, and then absent from m_channels and the kernel set. */
  lemma ServerConnectionsSound(loops: nat, setup: Setup, actions: seq<Action>, c: nat)
    requires loops > 0 && LegalRun(Start(loops, setup), actions) && c < |Reached(loops, setup, actions).nodes|
    ensures var conn := Reached(loops, setup, actions).nodes[c].conn;
            && (C.IsUp(conn) ==> P.StackOpen(conn))
            && (!RunClosesTwice(Start(loops, setup), actions, c) ==>
                  && (conn.state == C.Disconnected ==> P.StackClosed(conn))
                  && conn.hist.downs == (if conn.state == C.Disconnected then 1 else 0))
            && conn.hist.toKernel + conn.output.bytes == Flatten(conn.hist.kept)
            && |conn.hist.shuts| <= 1 && (|conn.hist.shuts| == 1 ==> conn.hist.toKernel == Flatten(conn.hist.kept))
  {
    ClosedTwiceIff(loops, setup, actions, c);
    var r := Reached(loops, setup, actions);
    ReachedInv(loops, setup, actions);
    NodeIsOk(r, c);
    hide Reached, LegalRun, Inv, Tokens, Flatten, P.StackOpen, P.StackClosed, RunClosesTwice;
  }

  // ----- Servers that see no such report -----

  /** EPOLLHUP and EPOLLPRI without EPOLLIN. */
  predicate HangsUpUrgently(revents: E.Mask) {
    E.Has(revents, E.EPOLLHUP) && E.Has(revents, E.EPOLLPRI) && !E.Has(revents, E.EPOLLIN)
  }

  lemma UrgentHangUpSelectsBoth(revents: E.Mask)
    ensures HangsUpUrgently(revents) <==> C.SelectsClose(revents) && C.SelectsRead(revents)
  {
  }

  predicate CalmReport(report: seq<Active>) {
    forall i :: 0 <= i < |report| && report[i].Events? ==> !HangsUpUrgently(report[i].revents)
  }

  predicate CalmTodo(todo: seq<Micro>) {
    forall i :: 0 <= i < |todo| && todo[i].OnRead? ==> !C.SelectsClose(todo[i].revents)
  }

  ghost predicate Calm(r: Reactor) {
    forall l: nat :: l < |r.threads| ==> CalmReport(r.threads[l].active) && CalmTodo(r.threads[l].todo)
  }

  /** No poll of the run reports a hang-up with urgent data and without readable data. */
  predicate CalmRun(actions: seq<Action>) {
    forall i :: 0 <= i < |actions| && actions[i].Poll? ==> CalmReport(actions[i].report)
  }

  lemma CalmHandlers(c: nat, revents: E.Mask)
    requires !HangsUpUrgently(revents)
    ensures CalmTodo(Handlers(c, revents) + [Hold(c)])
  {
    UrgentHangUpSelectsBoth(revents);
    hide HangsUpUrgently, C.SelectsClose, C.SelectsRead, C.SelectsWrite;
  }

  lemma CalmPrepend(added: seq<Micro>, rest: seq<Micro>)
    requires NoHandlers(added) && CalmTodo(rest)
    ensures CalmTodo(added + rest)
  {
    hide C.SelectsClose;
  }

  lemma CalmFrom(r: Reactor, q: Reactor, l: nat)
    requires Calm(r) && |q.threads| == |r.threads| && l < |r.threads|
    requires CalmReport(q.threads[l].active) && CalmTodo(q.threads[l].todo)
    requires forall x: nat :: x < |r.threads| && x != l ==>
               q.threads[x].active == r.threads[x].active && q.threads[x].todo == r.threads[x].todo
    ensures Calm(q)
  {
    hide CalmReport, CalmTodo;
  }

  lemma HandledIsCalm(r: Reactor, l: nat, c: nat, out: C.Out, rest: seq<Micro>)
    requires Calm(r) && l < |r.threads| && c < |r.nodes| && CalmTodo(rest)
    ensures Calm(Handled(r, l, c, out, rest))
  {
    hide Pushes, CalmReport, CalmTodo;
    PushesAreNoHandlers(c, r.nodes[c].home, out.fx);
    CalmPrepend(Pushes(c, r.nodes[c].home, out.fx), rest);
    CalmFrom(r, Handled(r, l, c, out, rest), l);
  }

  lemma TodoIsCalm(r: Reactor, l: nat, added: seq<Micro>, rest: seq<Micro>)
    requires Calm(r) && l < |r.threads| && NoHandlers(added) && CalmTodo(rest)
    ensures Calm(SetTodo(r, l, added + rest))
  {
    hide CalmReport, CalmTodo;
    CalmPrepend(added, rest);
    CalmFrom(r, SetTodo(r, l, added + rest), l);
  }

  lemma ExecIsCalm(r: Reactor, l: nat, read: B.ReadResult, write: B.WriteResult)
    requires Calm(r) && l < |r.threads| && r.threads[l].todo != []
    ensures Calm(ExecNext(r, l, read, write))
  {
    var m := r.threads[l].todo[0];
    var rest := r.threads[l].todo[1..];
    var c := Subject(m);
    assert CalmTodo(rest);
    hide C.Establish, C.Destroy, C.HandleClose, C.HandleRead, C.HandleWrite, S.Apply, L.Next, CalmReport;
    hide CalmTodo, Handled, Calm;
    assert [] + rest == rest;
    TodoIsCalm(r, l, [], rest);
    if c < |r.nodes| && r.nodes[c].conn.input.Valid() {
      match m
      case RunIn(u, f) =>
        TodoIsCalm(r, l, Running(f), rest);
        PushIsCalm(SetTodo(r, l, rest), l, u, f);
      case QueueIn(u, f) => PushIsCalm(SetTodo(r, l, rest), l, u, f);
      case Body(Remove(_)) =>
        TodoIsCalm(r.(table := S.Apply(r.table, S.Erase(c))), l, [QueueIn(r.nodes[c].home, Destroy(c))],
            rest) by { TableIsCalm(r); }
      case Body(Establish(_)) => HandledIsCalm(r, l, c, C.Establish(r.nodes[c].conn), rest);
      case Body(Destroy(_)) => HandledIsCalm(r, l, c, C.Destroy(r.nodes[c].conn), rest);
      case OnClose(_) => HandledIsCalm(r, l, c, C.HandleClose(r.nodes[c].conn), rest);
      case OnRead(_, _) => HandledIsCalm(r, l, c, C.HandleRead(r.nodes[c].conn, read, []), rest);
      case OnWrite(_) => HandledIsCalm(r, l, c, C.HandleWrite(r.nodes[c].conn, write), rest);
      case _ =>
    }
  }

  lemma TableIsCalm(r: Reactor)
    requires Calm(r)
    ensures forall table :: Calm(r.(table := table))
  {
    hide CalmReport, CalmTodo;
  }

  lemma LoopIsCalm(r: Reactor, l: nat, step: L.Step<Functor>)
    requires Calm(r) && l < |r.threads|
    ensures Calm(StepLoop(r, l, step))
  {
    hide CalmReport, CalmTodo;
  }

  lemma PushIsCalm(r: Reactor, who: nat, u: nat, f: Functor)
    requires Calm(r)
    ensures Calm(PushTo(r, who, u, f))
  {
    hide Calm;
    if u < |r.threads| { LoopIsCalm(r, u, L.Push(who, f)); }
  }

  lemma DispatchIsCalm(r: Reactor, l: nat)
    requires Calm(r) && Enabled(r, Dispatch(l))
    ensures Calm(Next(r, Dispatch(l)))
  {
    hide Owned, Free, FreshDescriptor, Handlers, NextHome, S.Apply, C.Created, L.Next, HangsUpUrgently, C.SelectsClose;
    var t := r.threads[l];
    var q := Next(r, Dispatch(l));
    assert CalmReport(t.active[1..]) && CalmTodo([]);
    if t.active[0].Events? { CalmHandlers(t.active[0].c, t.active[0].revents); }
    assert CalmTodo(q.threads[l].todo);
    CalmFrom(r, q, l);
  }

  lemma NextIsCalm(r: Reactor, a: Action)
    requires Calm(r) && Enabled(r, a) && (a.Poll? ==> CalmReport(a.report))
    ensures Calm(Next(r, a))
  {
    hide Owned, Free, L.Next, L.Enabled, ExecNext, DispatchNext, C.Call, Handled, CalmReport, CalmTodo, Calm;
    hide Reportable;
    match a
    case LoopStep(l, step) => LoopIsCalm(r, l, step);
    case Poll(l, report) => PollIsCalm(r, l, report);
    case Dispatch(l) => DispatchIsCalm(r, l);
    case RunFunctor(l) => FunctorIsCalm(r, l);
    case Exec(l, read, write) => ExecIsCalm(r, l, read, write);
    case UserCall(l, c, call) =>
      HandledIsCalm(r, l, c, C.Call(r.nodes[c].conn, call), r.threads[l].todo) by { CalmThread(r, l); }
    case WakeUp(l, t) => LoopIsCalm(r, l, L.WriteEventfd(t));
    case Post(t, l, f) => LoopIsCalm(r, l, L.Push(t, f));
    case Quit(t, l) => LoopIsCalm(r, l, L.StoreQuit(t));
  }

  lemma CalmThread(r: Reactor, l: nat)
    requires Calm(r) && l < |r.threads|
    ensures CalmTodo(r.threads[l].todo) && CalmReport(r.threads[l].active)
  {
  }

  lemma PollIsCalm(r: Reactor, l: nat, report: seq<Active>)
    requires Calm(r) && Enabled(r, Poll(l, report)) && CalmReport(report)
    ensures Calm(Next(r, Poll(l, report)))
  {
    hide CalmReport, CalmTodo, L.Next, Reportable;
  }

  lemma FunctorIsCalm(r: Reactor, l: nat)
    requires Calm(r) && Enabled(r, RunFunctor(l))
    ensures Calm(Next(r, RunFunctor(l)))
  {
    hide CalmReport, L.Next, Free;
    CalmFrom(r, Next(r, RunFunctor(l)), l);
  }

  lemma {:induction false} CalmRunClosesOnce(r: Reactor, actions: seq<Action>, c: nat)
    requires Calm(r) && LegalRun(r, actions) && CalmRun(actions)
    ensures !RunClosesTwice(r, actions, c)
    decreases |actions|
  {
    if actions != [] {
      NextIsCalm(r, actions[0]);
      assert !ExecClosesTwice(r, actions[0], c);
      CalmRunClosesOnce(Next(r, actions[0]), actions[1..], c);
      hide Next, Enabled, Calm, ExecClosesTwice;
    }
  }

  /** In every run in which no report carries EPOLLHUP and EPOLLPRI without EPOLLIN, a connection is closed
      once at most: a closed one has had one close callback, and is absent from m_channels and the kernel. */
  lemma CalmServerClosesOnce(loops: nat, setup: Setup, actions: seq<Action>, c: nat)
    requires loops > 0 && LegalRun(Start(loops, setup), actions) && c < |Reached(loops, setup, actions).nodes|
    requires CalmRun(actions)
    ensures var conn := Reached(loops, setup, actions).nodes[c].conn;
            && conn.hist.downs == (if conn.state == C.Disconnected then 1 else 0)
            && (conn.state == C.Disconnected ==> P.StackClosed(conn))
  {
    hide Calm, LegalRun, RunClosesTwice, Reached, P.StackOpen, P.StackClosed;
    StartIsCalm(loops, setup);
    CalmRunClosesOnce(Start(loops, setup), actions, c);
    ServerConnectionsSound(loops, setup, actions, c);
  }

  lemma StartIsCalm(loops: nat, setup: Setup)
    ensures Calm(Start(loops, setup))
  {
  }
}
