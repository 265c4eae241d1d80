/** The whole server as one machine: a base loop (0) and io loops, each run by a thread that works off
    what its handler or functor has left to do, and the connections handed between them. */
module ReactorSpec {
  import opened BufferSpec
  import E = EPollSpec
  import C = ConnectionSpec
  import L = LoopSpec
  import S = ServerSpec

  /** The functors that are enqueued. Those of the server and of the connections, and callbacks, hold a
      reference to connection `c`. A functor of the user's own need not hold any; `c` just tells it apart. */
  datatype Functor = Establish(c: nat) | Remove(c: nat) | Destroy(c: nat) | Callback(c: nat) | User(c: nat)

  /** What a thread still has to do before its handler or functor returns. `OnRead` carries the report it
      is called for; `Hold` is a reference kept until then, by the tie guard or the running functor. */
  datatype Micro =
    | RunIn(loop: nat, f: Functor)
    | QueueIn(loop: nat, f: Functor)
    | Body(f: Functor)
    | OnClose(c: nat)
    | OnRead(c: nat, revents: E.Mask)
    | OnWrite(c: nat)
    | Hold(c: nat)

  /** An entry of m_activeChannels. A new connection comes with the descriptor accept gave it and with
      the callbacks and mark its user sets. */
  datatype Active =
    | Wakeup
    | Accept(fd: int, writeComplete: bool, highWater: bool, mark: nat)
    | Events(c: nat, revents: E.Mask)

  datatype Thread = Thread(loop: L.Loop<Functor>, active: seq<Active>, todo: seq<Micro>)

  /** A connection, its descriptor and its io loop. */
  datatype Node = Node(fd: int, home: nat, conn: C.Conn)

  /** The name connections begin with, the descriptors that the loops wake up by, and the acceptor's. */
  datatype Setup = Setup(prefix: string, wakeFds: seq<int>, acceptFd: int)

  /** `turns` counts the loops the pool has handed out. */
  datatype Reactor = Reactor(setup: Setup, threads: seq<Thread>, nodes: seq<Node>, table: S.Table, turns: nat)

  datatype Action =
    | LoopStep(l: nat, step: L.Step<Functor>)
    | Poll(l: nat, report: seq<Active>)
    | Dispatch(l: nat)
    | RunFunctor(l: nat)
    | Exec(l: nat, read: ReadResult, write: WriteResult)
    | UserCall(l: nat, c: nat, call: C.UserCall)
    | WakeUp(l: nat, t: nat)
    | Post(t: nat, l: nat, f: Functor)
    | Quit(t: nat, l: nat)

  // ----- Ownership -----

  function Bodies(fs: seq<Functor>): seq<Micro> {
    seq(|fs|, i requires 0 <= i < |fs| => Body(fs[i]))
  }

  /** Everything a thread is bound to do: what is left of the running code, and the queued functors. */
  function Tokens(t: Thread): multiset<Micro> {
    multiset(t.todo) + multiset(Bodies(t.loop.pending)) + multiset(Bodies(t.loop.batch))
  }

  function Subject(m: Micro): nat {
    match m
    case RunIn(_, f) => f.c
    case QueueIn(_, f) => f.c
    case Body(f) => f.c
    case OnClose(c) => c
    case OnRead(c, _) => c
    case OnWrite(c) => c
    case Hold(c) => c
  }

  /** A functor of the user's own holds no connection. */
  predicate Holds(m: Micro) {
    !(m.Body? && m.f.User?)
  }

  /** Some shared_ptr to the connection is left: in m_connections, in a functor, or in running code. */
  ghost predicate Owned(r: Reactor, c: nat) {
    || r.table.Contains(c)
    || exists l: nat, m :: l < |r.threads| && m in Tokens(r.threads[l]) && Holds(m) && Subject(m) == c
  }

  /** What a thread does to run a functor. */
  function Running(f: Functor): seq<Micro> {
    [Body(f)] + if f.User? then [] else [Hold(f.c)]
  }

  predicate Registered(r: Reactor, c: nat) {
    c < |r.nodes| && r.nodes[c].conn.chan.interest.Some?
  }

  // ----- Steps -----

  /** The thread is not between a push and its wakeup write. */
  predicate Free(r: Reactor, t: nat) {
    forall l: nat :: l < |r.threads| ==> t !in r.threads[l].loop.owes
  }

  predicate Reportable(r: Reactor, l: nat, a: Active)
    requires l < |r.threads|
  {
    match a
    case Wakeup => r.threads[l].loop.eventfd > 0
    case Accept(_, _, _, _) => l == 0
    case Events(c, _) => Registered(r, c) && r.nodes[c].home == l
  }

  predicate SameChannel(a: Active, b: Active) {
    (a.Wakeup? && b.Wakeup?) || (a.Accept? && b.Accept?) || (a.Events? && b.Events? && a.c == b.c)
  }

  /** epoll_wait reports a channel once, with all of its events. */
  predicate OncePerChannel(report: seq<Active>) {
    forall i, j :: 0 <= i < j < |report| ==> !SameChannel(report[i], report[j])
  }

  ghost predicate Enabled(r: Reactor, a: Action) {
    match a
    case LoopStep(l, step) =>
      && l < |r.threads| && Free(r, l) && r.threads[l].todo == [] && r.threads[l].active == []
      && (step.StartLoop? || step.TestQuit? || step.BeginPending? || step.SwapPending? || step.EndPending?)
      && L.Enabled(r.threads[l].loop, step)
    case Poll(l, report) =>
      && l < |r.threads| && r.threads[l].loop.pc == L.Polling
      && OncePerChannel(report) && forall i :: 0 <= i < |report| ==> Reportable(r, l, report[i])
    case Dispatch(l) =>
      && l < |r.threads| && Free(r, l) && r.threads[l].todo == [] && r.threads[l].active != []
      && r.threads[l].loop.pc == L.Dispatching
      && (r.threads[l].active[0].Accept? ==> FreshDescriptor(r, r.threads[l].active[0].fd) && FreshName(r))
    case RunFunctor(l) =>
      && l < |r.threads| && Free(r, l) && r.threads[l].todo == [] && L.Enabled(r.threads[l].loop, L.RunFunctor)
    case Exec(l, _, _) => l < |r.threads| && Free(r, l) && r.threads[l].todo != []
    case UserCall(l, c, _) =>
      && l < |r.threads| && Free(r, l) && r.threads[l].todo != []
      && c < |r.nodes| && r.nodes[c].home == l && Owned(r, c)
    case WakeUp(l, t) => l < |r.threads| && t in r.threads[l].loop.owes
    case Post(t, l, f) =>
      && l < |r.threads| && Free(r, t) && InUserCode(r, t)
      && (f.User? || (f.Callback? && f.c < |r.nodes| && r.nodes[f.c].home == l && Owned(r, f.c)))
    case Quit(t, l) =>
      l < |r.threads| && Free(r, t) && InUserCode(r, t)
  }

  /** The kernel gives a new connection no descriptor that is still open. */
  ghost predicate FreshDescriptor(r: Reactor, fd: int) {
    && fd !in r.setup.wakeFds && fd != r.setup.acceptFd
    && forall c: nat :: c < |r.nodes| && Owned(r, c) ==> r.nodes[c].fd != fd
  }

  /** No connection that somebody holds has the name of the next one: so it is below 2^32 connections, and
      after that as long as the counter meets no name still in use. */
  ghost predicate FreshName(r: Reactor) {
    forall c: nat :: c < |r.nodes| && Owned(r, c) ==> r.table.NameOf(c) != r.table.NameOf(r.table.created)
  }

  /** A loop's thread is in user code in its handlers and functors, and outside loop(). */
  predicate InUserCode(r: Reactor, t: nat) {
    t < |r.threads| ==> r.threads[t].todo != [] || r.threads[t].loop.pc == L.Idle || r.threads[t].loop.pc == L.Stopped
  }

  function SetThread(r: Reactor, l: nat, t: Thread): Reactor
    requires l < |r.threads|
  {
    r.(threads := r.threads[l := t])
  }

  function SetTodo(r: Reactor, l: nat, todo: seq<Micro>): Reactor
    requires l < |r.threads|
  {
    SetThread(r, l, r.threads[l].(todo := todo))
  }

  function StepLoop(r: Reactor, l: nat, step: L.Step<Functor>): Reactor
    requires l < |r.threads|
  {
    SetThread(r, l, r.threads[l].(loop := L.Next(r.threads[l].loop, step)))
  }

  /** Thread `who` pushes onto the queue of loop `l`. */
  function PushTo(r: Reactor, who: nat, l: nat, f: Functor): Reactor {
    if l < |r.threads| then StepLoop(r, l, L.Push(who, f)) else r
  }

  function SetConn(r: Reactor, c: nat, conn: C.Conn): Reactor
    requires c < |r.nodes|
  {
    r.(nodes := r.nodes[c := r.nodes[c].(conn := conn)])
  }

  /** What the connection's calls out of a handler come to: functors for its own loop, and the server's
      close callback, which removes the connection on the base loop. */
  function Pushes(c: nat, home: nat, fx: seq<C.Effect>): seq<Micro> {
    if fx == [] then [] else
    (match fx[0]
     case QueueWriteComplete => [QueueIn(home, Callback(c))]
     case QueueHighWater(_) => [QueueIn(home, Callback(c))]
     case ConnectionChanged(_) => []
     case CloseCallback => [RunIn(0, Remove(c))])
    + Pushes(c, home, fx[1..])
  }

  function Handled(r: Reactor, l: nat, c: nat, out: C.Out, rest: seq<Micro>): Reactor
    requires l < |r.threads| && c < |r.nodes|
  {
    SetTodo(SetConn(r, c, out.c), l, Pushes(c, r.nodes[c].home, out.fx) + rest)
  }

  /** getNextLoop: the base loop, or the io loops in turn. */
  function NextHome(r: Reactor): nat {
    if |r.threads| <= 1 then 0 else 1 + r.turns % (|r.threads| - 1)
  }

  /** TcpServer::newConnection. */
  function NewConnection(r: Reactor, l: nat, a: Active): Reactor
    requires l < |r.threads| && a.Accept?
  {
    var c := |r.nodes|;
    var home := NextHome(r);
    var node := Node(a.fd, home, C.Created(a.writeComplete, a.highWater, a.mark));
    SetTodo(r.(nodes := r.nodes + [node], table := S.Apply(r.table, S.Insert), turns := r.turns + 1), l,
            [RunIn(home, Establish(c)), Hold(c)])
  }

  function Handlers(c: nat, revents: E.Mask): seq<Micro> {
    (if C.SelectsClose(revents) then [OnClose(c)] else [])
    + (if C.SelectsRead(revents) then [OnRead(c, revents)] else [])
    + (if C.SelectsWrite(revents) then [OnWrite(c)] else [])
  }

  ghost function DispatchNext(r: Reactor, l: nat): Reactor
    requires l < |r.threads| && r.threads[l].active != []
  {
    var t := r.threads[l].(active := r.threads[l].active[1..]);
    match r.threads[l].active[0]
    case Wakeup => SetThread(r, l, t.(loop := L.Next(t.loop, L.ReadEventfd)))
    case Accept(_, _, _, _) => NewConnection(SetThread(r, l, t), l, r.threads[l].active[0])
    case Events(c, revents) =>
      if c < |r.nodes| && r.nodes[c].conn.tied && !Owned(r, c) then SetThread(r, l, t)
      else SetThread(r, l, t.(todo := Handlers(c, revents) + [Hold(c)]))
  }

  function ExecNext(r: Reactor, l: nat, read: ReadResult, write: WriteResult): Reactor
    requires l < |r.threads| && r.threads[l].todo != []
  {
    var m := r.threads[l].todo[0];
    var rest := r.threads[l].todo[1..];
    if Subject(m) >= |r.nodes| || !r.nodes[Subject(m)].conn.input.Valid() then SetTodo(r, l, rest) else
    var c := Subject(m);
    var conn := r.nodes[c].conn;
    match m
    case RunIn(u, f) =>
      if u == l then SetTodo(r, l, Running(f) + rest) else PushTo(SetTodo(r, l, rest), l, u, f)
    case QueueIn(u, f) => PushTo(SetTodo(r, l, rest), l, u, f)
    case Body(Establish(_)) => Handled(r, l, c, C.Establish(conn), rest)
    case Body(Remove(_)) =>
      SetTodo(r.(table := S.Apply(r.table, S.Erase(c))), l, [QueueIn(r.nodes[c].home, Destroy(c))] + rest)
    case Body(Destroy(_)) => Handled(r, l, c, C.Destroy(conn), rest)
    case Body(Callback(_)) => SetTodo(r, l, rest)
    case Body(User(_)) => SetTodo(r, l, rest)
    case OnClose(_) => Handled(r, l, c, C.HandleClose(conn), rest)
    case OnRead(_, _) => Handled(r, l, c, C.HandleRead(conn, read, []), rest)
    case OnWrite(_) => Handled(r, l, c, C.HandleWrite(conn, write), rest)
    case Hold(_) => SetTodo(r, l, rest)
  }

  ghost function Next(r: Reactor, a: Action): Reactor
    requires Enabled(r, a)
  {
    match a
    case LoopStep(l, step) => StepLoop(r, l, step)
    case Poll(l, report) => SetThread(StepLoop(r, l, L.PollReturns), l,
        StepLoop(r, l, L.PollReturns).threads[l].(active := report))
    case Dispatch(l) => DispatchNext(r, l)
    case RunFunctor(l) =>
      var t := r.threads[l];
      SetThread(r, l, Thread(L.Next(t.loop, L.RunFunctor), t.active, Running(t.loop.batch[0])))
    case Exec(l, read, write) => ExecNext(r, l, read, write)
    case UserCall(l, c, call) => Handled(r, l, c, C.Call(r.nodes[c].conn, call), r.threads[l].todo)
    case WakeUp(l, t) => StepLoop(r, l, L.WriteEventfd(t))
    case Post(t, l, f) => PushTo(r, t, l, f)
    case Quit(t, l) => StepLoop(r, l, L.StoreQuit(t))
  }

  function Start(loops: nat, setup: Setup): Reactor {
    var threads := seq(loops, l requires 0 <= l => Thread(L.Fresh(l), [], []));
    Reactor(setup, threads, [], S.Table(setup.prefix, map[], 0, {}), 0)
  }

  ghost predicate LegalRun(r: Reactor, actions: seq<Action>)
    decreases |actions|
  {
    actions == [] || (Enabled(r, actions[0]) && LegalRun(Next(r, actions[0]), actions[1..]))
  }

  ghost function Run(r: Reactor, actions: seq<Action>): Reactor
    requires LegalRun(r, actions)
    decreases |actions|
  {
    if actions == [] then r else Run(Next(r, actions[0]), actions[1..])
  }
}
