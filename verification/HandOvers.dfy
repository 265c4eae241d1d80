/** What the server hands over, counted: callbacks, removals and destructions, from their cause to their call. */
module HandOvers {
  import B = BufferSpec
  import C = ConnectionSpec
  import M = ConnectionCompletions
  import L = LoopSpec
  import S = ServerSpec
  import opened ReactorSpec
  import opened ReactorProofs
  import opened ReactorSteps
  import opened Ownership
  import opened Lifetime
  import opened Stories
  import TD = Teardown

  // ----- The tokens of a thread, exactly -----

  /** What an action gives thread `x` to do. */
  ghost function Gained(r: Reactor, a: Action, x: nat): multiset<Micro>
    requires x < |r.threads|
  {
    match a
    case Exec(l, read, write) =>
      if l < |r.threads| && r.threads[l].todo != [] then GainedByTask(r, l, read, write, x) else multiset{}
    case UserCall(l, c, call) =>
      if x == l && c < |r.nodes|
      then multiset(Pushes(c, r.nodes[c].home, C.Call(r.nodes[c].conn, call).fx)) else multiset{}
    case Post(_, l, f) => if x == l then multiset{Body(f)} else multiset{}
    case RunFunctor(l) =>
      if x == l && r.threads[l].loop.batch != [] then Kept(r.threads[l].loop.batch[0]) else multiset{}
    case Dispatch(l) => if x == l && Enabled(r, a) then multiset(Next(r, a).threads[l].todo) else multiset{}
    case _ => multiset{}
  }

  ghost function GainedByTask(r: Reactor, l: nat, read: B.ReadResult, write: B.WriteResult, x: nat): multiset<Micro>
    requires l < |r.threads| && r.threads[l].todo != []
  {
    var m := r.threads[l].todo[0];
    var c := Subject(m);
    match m
    case RunIn(u, f) => if u == l then (if x == l then multiset(Running(f)) else multiset{}) else To(x, u, f)
    case QueueIn(u, f) => To(x, u, f)
    case Body(Remove(_)) =>
      if x == l && c < |r.nodes| then multiset{QueueIn(r.nodes[c].home, Destroy(c))} else multiset{}
    case _ =>
      var step := TaskStep(m, read, write);
      if x == l && step.Some? && c < |r.nodes| && r.nodes[c].conn.input.Valid()
      then multiset(Pushes(c, r.nodes[c].home, C.Next(r.nodes[c].conn, step.value).fx)) else multiset{}
  }

  function To(x: nat, u: nat, f: Functor): multiset<Micro> {
    if x == u then multiset{Body(f)} else multiset{}
  }

  /** The tokens of `u` are those of `t` without `spent` and with `gained`. */
  ghost predicate Turns(t: Thread, u: Thread, spent: multiset<Micro>, gained: multiset<Micro>) {
    spent <= Tokens(t) && Tokens(u) == Tokens(t) - spent + gained
  }

  lemma TodoTurns(t: Thread, added: seq<Micro>)
    requires t.todo != []
    ensures Turns(t, t.(todo := added + t.todo[1..]), multiset{t.todo[0]}, multiset(added))
  {
    TokensAfterTodo(t, added);
    hide Tokens;
  }

  lemma PushTurns(t: Thread, u: Thread, v: Thread, who: nat, f: Functor, spent: multiset<Micro>)
    requires Turns(t, u, spent, multiset{}) && v == u.(loop := L.Next(u.loop, L.Push(who, f)))
    ensures Turns(t, v, spent, multiset{Body(f)})
  {
    TokensAfterPush(u, who, f);
    hide Tokens, L.Next;
  }

  lemma NoTurn(t: Thread)
    ensures Turns(t, t, multiset{}, multiset{})
  {
    hide Tokens;
  }

  lemma HandedOverTurns(r: Reactor, l: nat, u: nat, f: Functor, x: nat)
    requires l < |r.threads| && r.threads[l].todo != [] && u < |r.threads| && x < |r.threads|
    ensures var q := PushTo(SetTodo(r, l, r.threads[l].todo[1..]), l, u, f);
            && |q.threads| == |r.threads|
            && Turns(r.threads[x], q.threads[x], if x == l then multiset{r.threads[l].todo[0]} else multiset{},
                     To(x, u, f))
  {
    hide Turns, L.Next;
    var rest := r.threads[l].todo[1..];
    assert [] + rest == rest;
    var t := r.threads[l];
    TodoTurns(t, []);
    NoTurn(r.threads[x]);
    var r1 := SetTodo(r, l, rest);
    var q := PushTo(r1, l, u, f);
    if x == u {
      PushTurns(r.threads[x], r1.threads[x], q.threads[x], l, f, if x == l then multiset{t.todo[0]} else multiset{});
    }
  }

  lemma HandledTurns(r: Reactor, l: nat, c: nat, out: C.Out, x: nat)
    requires l < |r.threads| && r.threads[l].todo != [] && c < |r.nodes| && x < |r.threads|
    ensures var q := Handled(r, l, c, out, r.threads[l].todo[1..]);
            && |q.threads| == |r.threads|
            && Turns(r.threads[x], q.threads[x], if x == l then multiset{r.threads[l].todo[0]} else multiset{},
                     if x == l then multiset(Pushes(c, r.nodes[c].home, out.fx)) else multiset{})
  {
    TodoTurns(r.threads[l], Pushes(c, r.nodes[c].home, out.fx));
    NoTurn(r.threads[x]);
    hide Turns, Pushes;
  }

  lemma ConnTaskTurns(r: Reactor, l: nat, read: B.ReadResult, write: B.WriteResult, x: nat)
    requires l < |r.threads| && r.threads[l].todo != [] && x < |r.threads| && TD.ChangesConn(r.threads[l].todo[0])
    requires Subject(r.threads[l].todo[0]) < |r.nodes| && r.nodes[Subject(r.threads[l].todo[0])].conn.input.Valid()
    ensures var q := ExecNext(r, l, read, write);
            && |q.threads| == |r.threads|
            && Turns(r.threads[x], q.threads[x], if x == l then multiset{r.threads[l].todo[0]} else multiset{},
                     GainedByTask(r, l, read, write, x))
  {
    hide Turns, C.Establish, C.Destroy, C.HandleClose, C.HandleRead, C.HandleWrite, Handled, Pushes;
    var m := r.threads[l].todo[0];
    var conn := r.nodes[Subject(m)].conn;
    match m
    case Body(Establish(c)) => HandledTurns(r, l, c, C.Establish(conn), x);
    case Body(Destroy(c)) => HandledTurns(r, l, c, C.Destroy(conn), x);
    case OnClose(c) => HandledTurns(r, l, c, C.HandleClose(conn), x);
    case OnRead(c, _) => HandledTurns(r, l, c, C.HandleRead(conn, read, []), x);
    case OnWrite(c) => HandledTurns(r, l, c, C.HandleWrite(conn, write), x);
  }

  lemma PlainTaskTurns(r: Reactor, l: nat, read: B.ReadResult, write: B.WriteResult, x: nat)
    requires l < |r.threads| && r.threads[l].todo != [] && x < |r.threads| && !TD.ChangesConn(r.threads[l].todo[0])
    requires var m := r.threads[l].todo[0];
             Holds(m) ==> Subject(m) < |r.nodes| && r.nodes[Subject(m)].conn.input.Valid()
    requires var m := r.threads[l].todo[0]; m.RunIn? || m.QueueIn? ==> m.loop < |r.threads|
    ensures var q := ExecNext(r, l, read, write);
            && |q.threads| == |r.threads|
            && Turns(r.threads[x], q.threads[x], if x == l then multiset{r.threads[l].todo[0]} else multiset{},
                     GainedByTask(r, l, read, write, x))
  {
    hide Turns, PushTo, S.Apply, Handled, Running, Pushes, C.Next;
    var t := r.threads[l];
    var m, rest := t.todo[0], t.todo[1..];
    assert [] + rest == rest;
    TodoTurns(t, []);
    NoTurn(r.threads[x]);
    match m
    case RunIn(u, f) => if u == l { TodoTurns(t, Running(f)); } else { HandedOverTurns(r, l, u, f, x); }
    case QueueIn(u, f) => HandedOverTurns(r, l, u, f, x);
    case Body(Remove(c)) => TodoTurns(t, [QueueIn(r.nodes[c].home, Destroy(c))]);
    case _ =>
  }

  ghost predicate ActionTurns(r: Reactor, a: Action, x: nat)
    requires x < |r.threads| && Enabled(r, a)
  {
    && |Next(r, a).threads| == |r.threads|
    && Turns(r.threads[x], Next(r, a).threads[x], TD.Spent(r, a, x), Gained(r, a, x))
  }

  lemma ExecTurns(r: Reactor, l: nat, read: B.ReadResult, write: B.WriteResult, x: nat)
    requires x < |r.threads| && Inv(r) && Enabled(r, Exec(l, read, write))
    ensures ActionTurns(r, Exec(l, read, write), x)
  {
    hide Inv, Free, ExecNext, GainedByTask, Turns;
    if Holds(r.threads[l].todo[0]) { TD.HeadTarget(r, l); }
    if TD.ChangesConn(r.threads[l].todo[0]) {
      ConnTaskTurns(r, l, read, write, x);
    } else {
      PlainTaskTurns(r, l, read, write, x);
    }
  }

  lemma FillTurns(t: Thread, u: Thread)
    requires t.todo == [] && u.loop.pending == t.loop.pending && u.loop.batch == t.loop.batch
    ensures Turns(t, u, multiset{}, multiset(u.todo))
  {
    hide Bodies;
  }

  lemma SameTurns(t: Thread, u: Thread)
    requires Tokens(u) == Tokens(t)
    ensures Turns(t, u, multiset{}, multiset{})
  {
    hide Tokens;
  }

  lemma DispatchTurns(r: Reactor, l: nat, x: nat)
    requires x < |r.threads| && Enabled(r, Dispatch(l))
    ensures ActionTurns(r, Dispatch(l), x)
  {
    hide Turns, Free, FreshDescriptor, FreshName, Owned, S.Apply, NextHome, Handlers, C.Created;
    NoTurn(r.threads[x]);
    FillTurns(r.threads[l], Next(r, Dispatch(l)).threads[l]);
  }

  lemma CallTurns(r: Reactor, l: nat, c: nat, out: C.Out, x: nat)
    requires l < |r.threads| && c < |r.nodes| && x < |r.threads|
    ensures var q := Handled(r, l, c, out, r.threads[l].todo);
            && |q.threads| == |r.threads|
            && Turns(r.threads[x], q.threads[x], multiset{},
                     if x == l then multiset(Pushes(c, r.nodes[c].home, out.fx)) else multiset{})
  {
    hide Pushes, Bodies;
  }

  /** Every action takes just what it spends from what a thread is bound to do, and gives it just what it gains. */
  lemma NextTurns(r: Reactor, a: Action, x: nat)
    requires x < |r.threads| && Inv(r) && Enabled(r, a)
    ensures ActionTurns(r, a, x)
  {
    hide Inv, PushTo, Pushes, Free, Owned, DispatchNext, ExecNext, C.Call, L.Next, L.Enabled, ThreadOk, Reportable;
    hide Turns, GainedByTask;
    ThreadIsOk(r, x);
    NoTurn(r.threads[x]);
    match a
    case Exec(l, read, write) => ExecTurns(r, l, read, write, x);
    case Dispatch(l) => DispatchTurns(r, l, x);
    case UserCall(l, c, call) => CallTurns(r, l, c, C.Call(r.nodes[c].conn, call), x);
    case LoopStep(l, step) =>
      if l == x { LoopStepKeepsThread(r.nodes, l, r.threads[l], step); SameTurns(r.threads[x], Next(r, a).threads[x]); }
    case Poll(l, report) =>
      if l == x { PollTokens(r.threads[l], report); SameTurns(r.threads[x], Next(r, a).threads[x]); }
    case RunFunctor(l) => if l == x { RunHasBatch(r, l); RunTurns(r.threads[l]); }
    case WakeUp(l, t) =>
      if l == x {
        QuietStepKeepsThread(r.nodes, l, r.threads[l], L.WriteEventfd(t));
        SameTurns(r.threads[x], Next(r, a).threads[x]);
      }
    case Quit(t, l) =>
      QuitIsEnabled(r, t, l);
      if l == x {
        QuietStepKeepsThread(r.nodes, l, r.threads[l], L.StoreQuit(t));
        SameTurns(r.threads[x], Next(r, a).threads[x]);
      }
    case Post(t, l, f) =>
      PushSize(r, t, l, f, x);
      if l == x { PushTurns(r.threads[x], r.threads[x], Next(r, a).threads[x], t, f, multiset{}); }
  }

  lemma RunTurns(t: Thread)
    requires t.todo == [] && t.loop.batch != []
    ensures var f := t.loop.batch[0];
            Turns(t, Thread(L.Next(t.loop, L.RunFunctor), t.active, Running(f)), multiset{}, Kept(f))
  {
    TokensAfterRun(t);
    hide Tokens, L.Next, Running, Kept;
  }

  // ----- What connections ask for -----

  /** How many functors for the user's callbacks these effects queue. */
  function Callbacks(fx: seq<C.Effect>): nat {
    if fx == [] then 0 else
    (if fx[0] == C.QueueWriteComplete || fx[0].QueueHighWater? then 1 else 0) + Callbacks(fx[1..])
  }

  function Tellings(fx: seq<C.Effect>): nat {
    if fx == [] then 0 else (if fx[0] == C.CloseCallback then 1 else 0) + Tellings(fx[1..])
  }

  lemma {:induction false} CountsConcat(a: seq<C.Effect>, b: seq<C.Effect>)
    ensures Callbacks(a + b) == Callbacks(a) + Callbacks(b) && Tellings(a + b) == Tellings(a) + Tellings(b)
    decreases |a|
  {
    if a == [] {
      assert a + b == b;
    } else {
      assert (a + b)[1..] == a[1..] + b;
      CountsConcat(a[1..], b);
    }
  }

  lemma {:induction false} PushesCount(c: nat, home: nat, fx: seq<C.Effect>)
    ensures var pushes := multiset(Pushes(c, home, fx));
            && pushes[QueueIn(home, Callback(c))] == Callbacks(fx) && pushes[RunIn(0, Remove(c))] == Tellings(fx)
    decreases |fx|
  {
    if fx != [] {
      PushesCount(c, home, fx[1..]);
      PushesHead(c, home, fx);
      hide Pushes;
    }
  }

  lemma PushesHead(c: nat, home: nat, fx: seq<C.Effect>)
    requires fx != []
    ensures multiset(Pushes(c, home, fx)) ==
              (match fx[0]
               case QueueWriteComplete => multiset{QueueIn(home, Callback(c))}
               case QueueHighWater(_) => multiset{QueueIn(home, Callback(c))}
               case ConnectionChanged(_) => multiset{}
               case CloseCallback => multiset{RunIn(0, Remove(c))})
              + multiset(Pushes(c, home, fx[1..]))
  {
    var whole, rest := Pushes(c, home, fx), Pushes(c, home, fx[1..]);
    assert whole == whole[..|whole| - |rest|] + rest;
    assert [] + rest == rest;
  }

  /** They ask for nothing else, and only for their own connection. */
  lemma PushesOnly(c: nat, home: nat, fx: seq<C.Effect>, m: Micro)
    requires m != QueueIn(home, Callback(c)) && m != RunIn(0, Remove(c))
    ensures multiset(Pushes(c, home, fx))[m] == 0
  {
    PushesAre(c, home, fx);
    hide Pushes;
    assert m !in Pushes(c, home, fx);
  }

  /** What an action has connection `c` ask for. */
  function AskedFor(r: Reactor, a: Action, c: nat): seq<C.Effect> {
    match StepOf(r, a, c)
    case Some(step) => if c < |r.nodes| && r.nodes[c].conn.input.Valid() then C.Next(r.nodes[c].conn, step).fx else []
    case None => []
  }

  // ----- Gains, token by token -----

  /** The action hands functor `f` over to loop `x`. */
  predicate HandsTo(r: Reactor, a: Action, x: nat, f: Functor) {
    a.Exec? && a.l < |r.threads| && r.threads[a.l].todo != [] && HandsOver(r.threads[a.l].todo[0], x, f)
  }

  lemma RunningCount(f: Functor, g: Functor)
    ensures multiset(Running(f))[Body(g)] == (if f == g then 1 else 0)
    ensures forall m: Micro :: m.RunIn? || m.QueueIn? ==> multiset(Running(f))[m] == 0
  {
    RunningIs(f);
    hide Running;
  }

  lemma DispatchGains(r: Reactor, l: nat, m: Micro)
    requires Enabled(r, Dispatch(l)) && (m.Body? || m.QueueIn? || (m.RunIn? && !m.f.Establish?))
    ensures multiset(Next(r, Dispatch(l)).threads[l].todo)[m] == 0
  {
    hide Free, FreshDescriptor, FreshName, Owned, S.Apply, NextHome, C.Created;
    hide C.SelectsClose, C.SelectsRead, C.SelectsWrite;
    assert m !in Next(r, Dispatch(l)).threads[l].todo;
  }

  lemma GainedBody(r: Reactor, a: Action, x: nat, f: Functor)
    requires x < |r.threads| && Enabled(r, a)
    ensures Gained(r, a, x)[Body(f)] ==
              (if HandsTo(r, a, x, f) then 1 else 0) + (if a.Post? && a.l == x && a.f == f then 1 else 0)
  {
    hide Enabled, Pushes, Running, C.Next, C.Call, TaskStep, Next;
    match a
    case Exec(l, read, write) =>
      if l < |r.threads| && r.threads[l].todo != [] { TaskGainsBody(r, l, read, write, x, f); }
    case UserCall(l, c, call) =>
      if c < |r.nodes| { PushesOnly(c, r.nodes[c].home, C.Call(r.nodes[c].conn, call).fx, Body(f)); }
    case Dispatch(l) => DispatchGains(r, l, Body(f));
    case _ =>
  }

  lemma TaskGainsBody(r: Reactor, l: nat, read: B.ReadResult, write: B.WriteResult, x: nat, f: Functor)
    requires l < |r.threads| && r.threads[l].todo != []
    ensures GainedByTask(r, l, read, write, x)[Body(f)] == if HandsOver(r.threads[l].todo[0], x, f) then 1 else 0
  {
    hide Pushes, Running, C.Next, TaskStep;
    var m := r.threads[l].todo[0];
    var c := Subject(m);
    if m.RunIn? { RunningCount(m.f, f); }
    if TaskStep(m, read, write).Some? && c < |r.nodes| && r.nodes[c].conn.input.Valid() {
      PushesOnly(c, r.nodes[c].home, C.Next(r.nodes[c].conn, TaskStep(m, read, write).value).fx, Body(f));
    }
  }

  /** Connection `c` asks on its own thread, and nobody else asks for it. */
  lemma GainedAsked(r: Reactor, a: Action, x: nat, c: nat)
    requires x < |r.threads| && c < |r.nodes| && Inv(r) && Enabled(r, a)
    ensures var home := r.nodes[c].home;
            && Gained(r, a, x)[QueueIn(home, Callback(c))] == (if x == home then Callbacks(AskedFor(r, a, c)) else 0)
            && Gained(r, a, x)[RunIn(0, Remove(c))] == (if x == home then Tellings(AskedFor(r, a, c)) else 0)
  {
    hide Inv, Free, Owned, Pushes, Running, C.Next, C.Call, TaskStep, Next, Callbacks, Tellings;
    match a
    case Exec(l, read, write) => TaskGainsAsked(r, l, read, write, x, c);
    case UserCall(l, d, call) =>
      CallGainsAsked(r, l, d, call, x, c);
    case Dispatch(l) =>
      DispatchGains(r, l, QueueIn(r.nodes[c].home, Callback(c)));
      DispatchGains(r, l, RunIn(0, Remove(c)));
      NothingAsked();
    case _ => NothingAsked();
  }

  lemma NothingAsked()
    ensures Callbacks([]) == 0 && Tellings([]) == 0
  {
  }

  lemma PushesOfOthers(d: nat, home: nat, fx: seq<C.Effect>, c: nat, home': nat)
    ensures c != d ==> multiset(Pushes(d, home, fx))[QueueIn(home', Callback(c))] == 0
    ensures c != d ==> multiset(Pushes(d, home, fx))[RunIn(0, Remove(c))] == 0
    ensures c == d && home == home' ==> multiset(Pushes(d, home, fx))[QueueIn(home', Callback(c))] == Callbacks(fx)
    ensures c == d ==> multiset(Pushes(d, home, fx))[RunIn(0, Remove(c))] == Tellings(fx)
  {
    hide Pushes, Callbacks, Tellings;
    PushesCount(d, home, fx);
    if c != d {
      PushesOnly(d, home, fx, QueueIn(home', Callback(c)));
      PushesOnly(d, home, fx, RunIn(0, Remove(c)));
    }
  }

  lemma CallGainsAsked(r: Reactor, l: nat, d: nat, call: C.UserCall, x: nat, c: nat)
    requires x < |r.threads| && c < |r.nodes| && Inv(r) && Enabled(r, UserCall(l, d, call))
    ensures var home := r.nodes[c].home;
            var a := UserCall(l, d, call);
            && Gained(r, a, x)[QueueIn(home, Callback(c))] == (if x == home then Callbacks(AskedFor(r, a, c)) else 0)
            && Gained(r, a, x)[RunIn(0, Remove(c))] == (if x == home then Tellings(AskedFor(r, a, c)) else 0)
  {
    hide Inv, Free, Owned, Pushes, C.Call, Callbacks, Tellings;
    NothingAsked();
    InputOfNode(r, d);
    PushesOfOthers(d, r.nodes[d].home, C.Call(r.nodes[d].conn, call).fx, c, r.nodes[c].home);
  }

  lemma TaskGainsAsked(r: Reactor, l: nat, read: B.ReadResult, write: B.WriteResult, x: nat, c: nat)
    requires x < |r.threads| && c < |r.nodes| && Inv(r) && l < |r.threads| && r.threads[l].todo != []
    ensures var home := r.nodes[c].home;
            var a := Exec(l, read, write);
            var gained := GainedByTask(r, l, read, write, x);
            && gained[QueueIn(home, Callback(c))] == (if x == home then Callbacks(AskedFor(r, a, c)) else 0)
            && gained[RunIn(0, Remove(c))] == (if x == home then Tellings(AskedFor(r, a, c)) else 0)
  {
    hide Inv, Pushes, Running, C.Next, Callbacks, Tellings, Tokens;
    NothingAsked();
    var m := r.threads[l].todo[0];
    var d := Subject(m);
    HeadOk(r, l);
    var step := TaskStep(m, read, write);
    if m.RunIn? { RunningCount(m.f, m.f); }
    if step.Some? {
      InputOfNode(r, d);
      PushesOfOthers(d, r.nodes[d].home, C.Next(r.nodes[d].conn, step.value).fx, c, r.nodes[c].home);
    }
  }

  lemma GainedDestruction(r: Reactor, a: Action, x: nat, c: nat)
    requires x < |r.threads| && c < |r.nodes| && Inv(r) && Enabled(r, a)
    ensures Gained(r, a, x)[QueueIn(r.nodes[c].home, Destroy(c))] == if x == 0 then Called(r, a, Remove(c)) else 0
  {
    hide Inv, Free, Owned, Pushes, Running, C.Next, C.Call, Next, Tokens;
    var m := QueueIn(r.nodes[c].home, Destroy(c));
    match a
    case Exec(l, read, write) =>
      HeadOk(r, l);
      var head := r.threads[l].todo[0];
      var d := Subject(head);
      if head.RunIn? { RunningCount(head.f, head.f); }
      var step := TaskStep(head, read, write);
      if step.Some? {
        InputOfNode(r, d);
        PushesOnly(d, r.nodes[d].home, C.Next(r.nodes[d].conn, step.value).fx, m);
      }
    case UserCall(l, d, call) => PushesOnly(d, r.nodes[d].home, C.Call(r.nodes[d].conn, call).fx, m);
    case Dispatch(l) => DispatchGains(r, l, m);
    case _ =>
  }

  /** The action calls functor `f`. */
  function Called(r: Reactor, a: Action, f: Functor): nat {
    if a.Exec? && a.l < |r.threads| && r.threads[a.l].todo != [] && r.threads[a.l].todo[0] == Body(f) then 1 else 0
  }

  // ----- From cause to call -----

  /** A functor on its way: thread `src` is to hand it over by `hand`, and loop `dst` is to call it. */
  datatype Flow = Flow(src: nat, hand: Micro, dst: nat, f: Functor)

  function CallbackFlow(c: nat, home: nat): Flow {
    Flow(home, QueueIn(home, Callback(c)), home, Callback(c))
  }

  function RemovalFlow(c: nat, home: nat): Flow {
    Flow(home, RunIn(0, Remove(c)), 0, Remove(c))
  }

  function DestructionFlow(c: nat, home: nat): Flow {
    Flow(0, QueueIn(home, Destroy(c)), home, Destroy(c))
  }

  predicate IsFlow(c: nat, home: nat, w: Flow) {
    w == CallbackFlow(c, home) || w == RemovalFlow(c, home) || w == DestructionFlow(c, home)
  }

  /** How many are on their way: still to be handed over, or queued, in the batch, or about to be called. */
  ghost function Waiting(r: Reactor, w: Flow): nat
    requires w.src < |r.threads| && w.dst < |r.threads|
  {
    Tokens(r.threads[w.src])[w.hand] + Tokens(r.threads[w.dst])[Body(w.f)]
  }

  predicate PostsIt(a: Action, w: Flow) {
    a.Post? && a.l == w.dst && a.f == w.f
  }

  /** Functors are handed over and called where their flow says. */
  lemma FlowPlaces(r: Reactor, a: Action, c: nat, w: Flow)
    requires c < |r.nodes| && Inv(r) && Enabled(r, a) && IsFlow(c, r.nodes[c].home, w)
    ensures HandsTo(r, a, w.dst, w.f) <==> a.Exec? && a.l == w.src && r.threads[a.l].todo[0] == w.hand
    ensures Called(r, a, w.f) == 1 <==> a.Exec? && a.l == w.dst && r.threads[a.l].todo[0] == Body(w.f)
    ensures w.src < |r.threads| && w.dst < |r.threads|
  {
    hide Inv, Free, Owned, Tokens;
    TargetExists(r, c);
    BaseExists(r);
    if a.Exec? { HeadOk(r, a.l); }
  }

  lemma BaseExists(r: Reactor)
    requires Inv(r)
    ensures |r.threads| > 0
  {
    hide ThreadsOk, NodesOk, DistinctFds, S.TableInv;
  }

  lemma NextWaiting(r: Reactor, a: Action, c: nat, w: Flow)
    requires c < |r.nodes| && Inv(r) && Enabled(r, a) && IsFlow(c, r.nodes[c].home, w)
    ensures w.src < |r.threads| == |Next(r, a).threads| && w.dst < |r.threads|
    ensures Waiting(Next(r, a), w) + Called(r, a, w.f) ==
              Waiting(r, w) + Gained(r, a, w.src)[w.hand] + (if PostsIt(a, w) then 1 else 0)
  {
    hide Inv, Next, Enabled, Tokens, Gained, IsFlow;
    FlowPlaces(r, a, c, w);
    NextTurns(r, a, w.src);
    NextTurns(r, a, w.dst);
    GainedBody(r, a, w.dst, w.f);
    HandIsNoBody(c, r.nodes[c].home, w);
  }

  lemma HandIsNoBody(c: nat, home: nat, w: Flow)
    requires IsFlow(c, home, w)
    ensures w.hand != Body(w.f)
  {
  }

  /** One action: what is asked for or caused is on its way or called, and nothing else is. */
  lemma NextFlows(r: Reactor, a: Action, c: nat)
    requires c < |r.nodes| && Inv(r) && Enabled(r, a)
    ensures var home := r.nodes[c].home;
            var q := Next(r, a);
            && home < |r.threads| == |q.threads|
            && Waiting(q, CallbackFlow(c, home)) + Called(r, a, Callback(c)) ==
                 Waiting(r, CallbackFlow(c, home)) + Callbacks(AskedFor(r, a, c))
                 + (if PostsIt(a, CallbackFlow(c, home)) then 1 else 0)
            && Waiting(q, RemovalFlow(c, home)) + Called(r, a, Remove(c)) ==
                 Waiting(r, RemovalFlow(c, home)) + Tellings(AskedFor(r, a, c))
            && Waiting(q, DestructionFlow(c, home)) + Called(r, a, Destroy(c)) ==
                 Waiting(r, DestructionFlow(c, home)) + Called(r, a, Remove(c))
  {
    hide Inv, Next, Enabled, Waiting, Called, Gained, Callbacks, Tellings, AskedFor;
    var home := r.nodes[c].home;
    NextWaiting(r, a, c, CallbackFlow(c, home));
    NextWaiting(r, a, c, RemovalFlow(c, home));
    NextWaiting(r, a, c, DestructionFlow(c, home));
    GainedAsked(r, a, home, c);
    GainedDestruction(r, a, 0, c);
    PostsOnlyCallbacks(r, a);
  }

  lemma PostsOnlyCallbacks(r: Reactor, a: Action)
    requires Enabled(r, a)
    ensures a.Post? ==> !a.f.Remove? && !a.f.Destroy? && !a.f.Establish?
  {
  }

  // ----- Runs -----

  ghost function CalledIn(r: Reactor, actions: seq<Action>, f: Functor): nat
    requires LegalRun(r, actions)
    decreases |actions|
  {
    if actions == [] then 0 else Called(r, actions[0], f) + CalledIn(Next(r, actions[0]), actions[1..], f)
  }

  /** How often `f` was posted on loop `l` from outside the connections. */
  function PostedIn(actions: seq<Action>, l: nat, f: Functor): nat {
    if actions == [] then 0 else
    (if actions[0].Post? && actions[0].l == l && actions[0].f == f then 1 else 0) + PostedIn(actions[1..], l, f)
  }

  lemma StoryEffects(r: Reactor, actions: seq<Action>, c: nat)
    requires actions != [] && c < |r.nodes| && Inv(r) && OwnKeys(r) && LegalRun(r, actions)
    ensures c < |Next(r, actions[0]).nodes|
    ensures C.LegalSteps(r.nodes[c].conn, Story(r, actions, c))
    ensures var rest := Story(Next(r, actions[0]), actions[1..], c);
            var conn := Next(r, actions[0]).nodes[c].conn;
            && C.LegalSteps(conn, rest)
            && C.RunSteps(r.nodes[c].conn, Story(r, actions, c)).fx ==
                 AskedFor(r, actions[0], c) + C.RunSteps(conn, rest).fx
  {
    hide Inv, OwnKeys, Next, Enabled, StepOf, C.Next, C.Enabled, C.LegalSteps, C.RunSteps;
    var q := Next(r, actions[0]);
    NextKeepsAll(r, actions[0]);
    ActionIsLived(r, actions[0], c);
    StoryFrom(r, actions, c);
    StoryFrom(q, actions[1..], c);
    var rest := Story(q, actions[1..], c);
    match StepOf(r, actions[0], c)
    case Some(step) => M.StepThenRun(r.nodes[c].conn, step, rest); hide OwnFds;
    case None =>
      var fx := C.RunSteps(q.nodes[c].conn, rest).fx;
      assert [] + rest == rest && [] + fx == fx;
  }

  datatype Counts = Counts(callbacks: nat, removals: nat, destructions: nat)

  ghost function WaitingNow(r: Reactor, c: nat, home: nat): Counts
    requires home < |r.threads|
  {
    Counts(Waiting(r, CallbackFlow(c, home)), Waiting(r, RemovalFlow(c, home)), Waiting(r, DestructionFlow(c, home)))
  }

  ghost function CalledNow(r: Reactor, a: Action, c: nat): Counts {
    Counts(Called(r, a, Callback(c)), Called(r, a, Remove(c)), Called(r, a, Destroy(c)))
  }

  ghost function CalledCounts(r: Reactor, actions: seq<Action>, c: nat): Counts
    requires LegalRun(r, actions)
  {
    Counts(CalledIn(r, actions, Callback(c)), CalledIn(r, actions, Remove(c)), CalledIn(r, actions, Destroy(c)))
  }

  /** The books of connection `c`: as many callbacks are on their way (`after`) or called as were on their way
      (`before`), were asked for, or were posted from outside; as many removals as the server was told of closes;
      and as many destructions as removals called. */
  predicate Balanced(before: Counts, after: Counts, called: Counts, fx: seq<C.Effect>, posted: nat) {
    && after.callbacks + called.callbacks == before.callbacks + Callbacks(fx) + posted
    && after.removals + called.removals == before.removals + Tellings(fx)
    && after.destructions + called.destructions == before.destructions + called.removals
  }

  lemma BalancedTwice(a: Counts, b: Counts, c: Counts, called: Counts, more: Counts,
                      fx: seq<C.Effect>, later: seq<C.Effect>, posted: nat, postedLater: nat)
    requires Balanced(a, b, called, fx, posted) && Balanced(b, c, more, later, postedLater)
    ensures Balanced(a, c, Counts(called.callbacks + more.callbacks, called.removals + more.removals,
                                  called.destructions + more.destructions), fx + later, posted + postedLater)
  {
    CountsConcat(fx, later);
    hide Callbacks, Tellings;
  }

  lemma NextBalances(r: Reactor, a: Action, c: nat)
    requires c < |r.nodes| && Inv(r) && Enabled(r, a)
    ensures r.nodes[c].home < |r.threads| == |Next(r, a).threads|
    ensures Balanced(WaitingNow(r, c, r.nodes[c].home), WaitingNow(Next(r, a), c, r.nodes[c].home), CalledNow(r, a, c),
                     AskedFor(r, a, c), if PostsIt(a, CallbackFlow(c, r.nodes[c].home)) then 1 else 0)
  {
    hide Inv, Next, Enabled, Waiting, Called, Callbacks, Tellings, AskedFor;
    NextFlows(r, a, c);
  }

  lemma {:induction false} RunBalances(r: Reactor, actions: seq<Action>, c: nat)
    requires c < |r.nodes| && Inv(r) && OwnKeys(r) && LegalRun(r, actions)
    ensures C.LegalSteps(r.nodes[c].conn, Story(r, actions, c))
    ensures r.nodes[c].home < |r.threads| == |Run(r, actions).threads|
    ensures var home := r.nodes[c].home;
            Balanced(WaitingNow(r, c, home), WaitingNow(Run(r, actions), c, home), CalledCounts(r, actions, c),
                     C.RunSteps(r.nodes[c].conn, Story(r, actions, c)).fx, PostedIn(actions, home, Callback(c)))
    decreases |actions|
  {
    hide Inv, OwnKeys, Next, Enabled, Waiting, Called, Balanced, AskedFor, C.LegalSteps, C.RunSteps;
    TargetExists(r, c);
    StoryFrom(r, actions, c);
    if actions == [] {
      StoryEnds(r, c);
      NothingBalances(WaitingNow(r, c, r.nodes[c].home));
    } else {
      var q := Next(r, actions[0]);
      NextKeepsAll(r, actions[0]);
      NextKeepsIdentity(r, actions[0]);
      StoryEffects(r, actions, c);
      NextBalances(r, actions[0], c);
      RunBalances(q, actions[1..], c);
      var home := r.nodes[c].home;
      BalancedTwice(WaitingNow(r, c, home), WaitingNow(q, c, home), WaitingNow(Run(r, actions), c, home),
        CalledNow(r, actions[0], c), CalledCounts(q, actions[1..], c),
        AskedFor(r, actions[0], c), C.RunSteps(q.nodes[c].conn, Story(q, actions[1..], c)).fx,
        if PostsIt(actions[0], CallbackFlow(c, home)) then 1 else 0, PostedIn(actions[1..], home, Callback(c)));
    }
  }

  lemma StoryEnds(r: Reactor, c: nat)
    requires c < |r.nodes|
    ensures C.LegalSteps(r.nodes[c].conn, Story(r, [], c)) && C.RunSteps(r.nodes[c].conn, Story(r, [], c)).fx == []
  {
  }

  lemma NothingBalances(a: Counts)
    ensures Balanced(a, a, Counts(0, 0, 0), [], 0)
  {
  }

  // ----- From the start -----

  /** Nothing is on its way for a connection that does not exist, or has just been made. */
  lemma NothingYet(r: Reactor, c: nat, m: Micro, x: nat)
    requires |r.nodes| <= c && x < |r.threads| && Holds(m) && Subject(m) == c && Inv(r)
    ensures Tokens(r.threads[x])[m] == 0
  {
    hide Inv, Tokens;
    ThreadIsOk(r, x);
    NoTokensYet(r.nodes, x, r.threads[x], m);
  }

  lemma NewHasNothing(r: Reactor, a: Action, c: nat)
    requires Inv(r) && OwnKeys(r) && Enabled(r, a) && |r.nodes| <= c < |Next(r, a).nodes|
    ensures var q := Next(r, a);
            q.nodes[c].home < |q.threads| && WaitingNow(q, c, q.nodes[c].home) == Counts(0, 0, 0)
  {
    hide Inv, OwnKeys, Next, Enabled, Tokens, Gained, Waiting;
    var q := Next(r, a);
    NextKeepsAll(r, a);
    NextKeepsIdentity(r, a);
    TargetExists(q, c);
    BaseExists(r);
    NewWaitsFor(r, a, c, CallbackFlow(c, q.nodes[c].home));
    NewWaitsFor(r, a, c, RemovalFlow(c, q.nodes[c].home));
    NewWaitsFor(r, a, c, DestructionFlow(c, q.nodes[c].home));
  }

  lemma NewWaitsFor(r: Reactor, a: Action, c: nat, w: Flow)
    requires Inv(r) && Enabled(r, a) && |r.nodes| <= c < |Next(r, a).nodes| && w.src < |Next(r, a).threads|
    requires w.dst < |Next(r, a).threads| && IsFlow(c, Next(r, a).nodes[c].home, w)
    ensures Waiting(Next(r, a), w) == 0
  {
    hide Inv, Next, Enabled, Tokens, Gained;
    NextKeepsIdentity(r, a);
    NextTurns(r, a, 0) by { BaseExists(r); }
    NextTurns(r, a, w.src);
    NextTurns(r, a, w.dst);
    NothingYet(r, c, w.hand, w.src);
    NothingYet(r, c, Body(w.f), w.dst);
    AcceptGains(r, a, w);
  }

  lemma AcceptGains(r: Reactor, a: Action, w: Flow)
    requires Enabled(r, a) && a.Dispatch? && w.src < |r.threads| && w.dst < |r.threads|
    requires (w.hand.QueueIn? || (w.hand.RunIn? && !w.hand.f.Establish?))
    ensures Gained(r, a, w.src)[w.hand] == 0 && Gained(r, a, w.dst)[Body(w.f)] == 0
  {
    DispatchGains(r, a.l, w.hand);
    DispatchGains(r, a.l, Body(w.f));
    hide Next, Enabled;
  }

  /** Some new connection lives through `steps` to become `conn`, with the books balanced. */
  ghost predicate BegotBalanced(conn: C.Conn, steps: seq<C.Step>, after: Counts, called: Counts, posted: nat) {
    exists wc: bool, hw: bool, mark: nat ::
      && C.LegalSteps(C.Created(wc, hw, mark), steps)
      && var o := C.RunSteps(C.Created(wc, hw, mark), steps);
         o.c == conn && Balanced(Counts(0, 0, 0), after, called, o.fx, posted)
  }

  lemma NewRunBalances(r: Reactor, actions: seq<Action>, c: nat)
    requires Inv(r) && OwnKeys(r) && LegalRun(r, actions) && c < |r.nodes| && r.nodes[c].home < |r.threads|
    requires WaitingNow(r, c, r.nodes[c].home) == Counts(0, 0, 0)
    requires exists wc: bool, hw: bool, mark: nat :: r.nodes[c].conn == C.Created(wc, hw, mark)
    ensures c < |Run(r, actions).nodes| && r.nodes[c].home < |Run(r, actions).threads|
    ensures BegotBalanced(Run(r, actions).nodes[c].conn, Story(r, actions, c),
                          WaitingNow(Run(r, actions), c, r.nodes[c].home), CalledCounts(r, actions, c),
                          PostedIn(actions, r.nodes[c].home, Callback(c)))
  {
    hide Inv, OwnKeys, LegalRun, Run, Waiting, Balanced, C.LegalSteps, C.RunSteps, C.Created, CalledIn;
    StoryFrom(r, actions, c);
    RunBalances(r, actions, c);
  }

  lemma {:induction false} RunKeepsHome(r: Reactor, actions: seq<Action>, c: nat)
    requires LegalRun(r, actions) && c < |r.nodes|
    ensures c < |Run(r, actions).nodes| && Run(r, actions).nodes[c].home == r.nodes[c].home
    decreases |actions|
  {
    if actions != [] {
      NextKeepsIdentity(r, actions[0]);
      RunKeepsHome(Next(r, actions[0]), actions[1..], c);
      hide Next, Enabled;
    }
  }

  lemma NoneCalledYet(r: Reactor, a: Action, c: nat, home: nat)
    requires |r.nodes| <= c && Inv(r) && Enabled(r, a)
    ensures CalledNow(r, a, c) == Counts(0, 0, 0) && !PostsIt(a, CallbackFlow(c, home))
  {
    hide Inv, Free, Owned;
    if a.Exec? { HeadExists(r, a.l); }
  }

  lemma {:induction false} LaterBalances(r: Reactor, actions: seq<Action>, c: nat)
    requires Inv(r) && OwnKeys(r) && LegalRun(r, actions) && |r.nodes| <= c < |Run(r, actions).nodes|
    ensures var e := Run(r, actions);
            e.nodes[c].home < |e.threads|
            && BegotBalanced(e.nodes[c].conn, Story(r, actions, c), WaitingNow(e, c, e.nodes[c].home),
                             CalledCounts(r, actions, c), PostedIn(actions, e.nodes[c].home, Callback(c)))
    decreases |actions|
  {
    hide Next, Enabled, Inv, OwnKeys, BegotBalanced, Waiting, Called;
    var q := Next(r, actions[0]);
    NextKeepsAll(r, actions[0]);
    NoneCalledYet(r, actions[0], c, Run(r, actions).nodes[c].home);
    assert [] + Story(q, actions[1..], c) == Story(q, actions[1..], c);
    if c < |q.nodes| {
      NewIsCreated(r, actions[0], c);
      NewHasNothing(r, actions[0], c);
      RunKeepsHome(q, actions[1..], c);
      NewRunBalances(q, actions[1..], c);
    } else {
      LaterBalances(q, actions[1..], c);
    }
  }

  /** Over every run of the server, for each of its connections: the callback functors on their way or called are
      as many as its handlers and calls asked for, and as were posted from outside; the removals are as many as
      the server was told of closes; and the destructions as many as removals called. None is lost, and none
      made up. */
  lemma HandOversBalance(loops: nat, setup: Setup, actions: seq<Action>, c: nat)
    requires loops > 0 && LegalRun(Start(loops, setup), actions) && c < |Reached(loops, setup, actions).nodes|
    ensures var start := Start(loops, setup);
            var e := Reached(loops, setup, actions);
            e.nodes[c].home < |e.threads|
            && BegotBalanced(e.nodes[c].conn, Story(start, actions, c), WaitingNow(e, c, e.nodes[c].home),
                             CalledCounts(start, actions, c), PostedIn(actions, e.nodes[c].home, Callback(c)))
  {
    hide Inv, OwnKeys, LegalRun, BegotBalanced, WaitingNow, CalledCounts;
    StartInv(loops, setup);
    StartKeys(loops, setup);
    LaterBalances(Start(loops, setup), actions, c);
  }
}
