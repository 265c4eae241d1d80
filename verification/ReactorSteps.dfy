/** Every action of the server machine keeps its invariant. */
module ReactorSteps {
  import opened BufferSpec
  import E = EPollSpec
  import C = ConnectionSpec
  import P = ConnectionProofs
  import T = ConnectionTheorems
  import O = ConnectionOutput
  import L = LoopSpec
  import S = ServerSpec
  import opened ReactorSpec
  import opened ReactorProofs

  // ----- Handlers and user calls -----

  lemma {:induction false} PushesAre(c: nat, home: nat, fx: seq<C.Effect>)
    ensures forall i :: 0 <= i < |Pushes(c, home, fx)| ==>
              var m := Pushes(c, home, fx)[i];
              m == QueueIn(home, Callback(c)) || (m == RunIn(0, Remove(c)) && C.CloseCallback in fx)
    decreases |fx|
  {
    if fx != [] {
      PushesAre(c, home, fx[1..]);
    }
  }

  /** A handler's outcome: the state follows, and the server hears of a close only from a closed one. */
  predicate SoundOut(out: C.Out, c: C.Conn) {
    Follows(out.c, c) && (C.CloseCallback in out.fx ==> out.c.state == C.Disconnected)
  }

  lemma CallIsSound(c: C.Conn, call: C.UserCall)
    requires P.ConnInv(c) && O.HalfCloseSound(c)
    ensures SoundOut(C.Call(c, call), c)
  {
    P.CallKeepsInv(c, call);
    O.CallKeepsHalfClose(c, call);
    T.CallKeepsLife(c, call);
    CallNeverCloses(c, call);
    hide C.Call, P.LayersAgree, P.StreamsConserved, O.HalfCloseSound;
  }

  lemma CallNeverCloses(c: C.Conn, call: C.UserCall)
    ensures C.CloseCallback !in C.Call(c, call).fx
    ensures c.state == C.Disconnected ==> C.Call(c, call).c.state == C.Disconnected
  {
    hide Append, Retrieve, E.SliceSet, E.Changed, E.Has, Taken;
  }

  lemma HandlersAreSound(c: C.Conn, read: ReadResult, write: WriteResult)
    requires P.ConnInv(c) && O.HalfCloseSound(c) && c.state != C.Connecting && !c.hist.destroyed
    ensures SoundOut(C.HandleClose(c), c)
    ensures SoundOut(C.HandleRead(c, read, []), c)
    ensures SoundOut(C.HandleWrite(c, write), c)
  {
    CloseIsSound(c);
    ReadIsSound(c, read);
    WriteIsSound(c, write);
    hide SoundOut;
  }

  lemma CloseIsSound(c: C.Conn)
    requires P.ConnInv(c) && O.HalfCloseSound(c) && c.state != C.Connecting && !c.hist.destroyed
    ensures SoundOut(C.HandleClose(c), c)
  {
    P.HandleCloseKeepsInv(c);
    hide P.LayersAgree, P.StreamsConserved, E.SliceSet, E.Changed;
  }

  lemma ReadIsSound(c: C.Conn, read: ReadResult)
    requires P.ConnInv(c) && O.HalfCloseSound(c) && c.state != C.Connecting && !c.hist.destroyed
    ensures SoundOut(C.HandleRead(c, read, []), c)
  {
    P.HandleReadKeepsInv(c, read, []);
    O.HandleReadKeepsHalfClose(c, read, []);
    T.HandleReadLife(c, read, []);
    hide P.StreamsConserved, O.HalfCloseSound, E.SliceSet, E.Changed, ReadFd, P.StackAgrees, P.CallbacksCounted;
  }

  lemma WriteIsSound(c: C.Conn, write: WriteResult)
    requires P.ConnInv(c) && O.HalfCloseSound(c) && c.state != C.Connecting && !c.hist.destroyed
    ensures SoundOut(C.HandleWrite(c, write), c)
  {
    P.HandleWriteKeepsInv(c, write);
    O.HandleWriteKeepsHalfClose(c, write);
    hide P.LayersAgree, P.StreamsConserved, O.HalfCloseSound, E.SliceSet, E.Changed, Retrieve, E.Has;
  }

  /** What a handler pushes is allowed where it runs. */
  lemma PushesAllowed(nodes: seq<Node>, l: nat, pc: L.Pc, c: nat, fx: seq<C.Effect>)
    requires c < |nodes| && nodes[c].home == l && (C.CloseCallback in fx ==> Closed(nodes[c]))
    ensures Allowed(nodes, l, pc, Pushes(c, l, fx)) && NoSpecials(Pushes(c, l, fx))
  {
    PushesAre(c, l, fx);
    hide Pushes;
  }

  lemma HandledKeepsInv(r: Reactor, l: nat, c: nat, out: C.Out)
    requires Inv(r) && l < |r.threads| && c < |r.nodes| && r.nodes[c].home == l
    requires SoundOut(out, r.nodes[c].conn) && r.threads[l].todo != [] && !Special(r.threads[l].todo[0])
    ensures Inv(Handled(r, l, c, out, r.threads[l].todo[1..]))
  {
    ChangeConn(r, c, out.c);
    var q := SetConn(r, c, out.c);
    var t := q.threads[l];
    PushesAllowed(q.nodes, l, t.loop.pc, c, out.fx);
    TodoKeepsThread(q.nodes, l, t, Pushes(c, l, out.fx));
    ReplaceOrdinary(Tokens(t), t.todo[0], Pushes(c, l, out.fx));
    hide Tokens, ThreadOk, NodesOk, ThreadsOk, DistinctFds, S.TableInv, Follows, Pushes;
    ChangeThread(q, l, t.(todo := Pushes(c, l, out.fx) + t.todo[1..]));
  }

  lemma UserCallIsSound(r: Reactor, c: nat, call: C.UserCall)
    requires Inv(r) && c < |r.nodes|
    ensures SoundOut(C.Call(r.nodes[c].conn, call), r.nodes[c].conn)
  {
    hide ThreadsOk, Tokens, DistinctFds, S.TableInv, P.ConnInv, O.HalfCloseSound, C.Call, SoundOut;
    assert NodeOk(r.nodes[c], c, c in r.table.removed, Tokens(r.threads[0]), Tokens(r.threads[r.nodes[c].home]));
    CallIsSound(r.nodes[c].conn, call);
  }

  /** A call made in the middle of running code: its pushes come first. */
  lemma UserCallKeepsInv(r: Reactor, l: nat, c: nat, call: C.UserCall)
    requires Inv(r) && Enabled(r, UserCall(l, c, call))
    ensures Inv(Next(r, UserCall(l, c, call)))
  {
    hide Tokens, ThreadOk, NodesOk, DistinctFds, S.TableInv, Follows, Pushes, C.Call, Owned, Free;
    var out := C.Call(r.nodes[c].conn, call);
    UserCallIsSound(r, c, call);
    ChangeConn(r, c, out.c);
    var q := SetConn(r, c, out.c);
    var t := q.threads[l];
    PushesAllowed(q.nodes, l, t.loop.pc, c, out.fx);
    PrependKeepsThread(q.nodes, l, t, Pushes(c, l, out.fx));
    ChangeThread(q, l, t.(todo := Pushes(c, l, out.fx) + t.todo));
  }

  lemma PrependKeepsThread(nodes: seq<Node>, l: nat, t: Thread, added: seq<Micro>)
    requires ThreadOk(nodes, l, t) && t.todo != [] && Allowed(nodes, l, t.loop.pc, added) && NoSpecials(added)
    ensures ThreadOk(nodes, l, t.(todo := added + t.todo))
    ensures SameSpecials(Tokens(t), Tokens(t.(todo := added + t.todo)))
  {
    var u := t.(todo := added + t.todo);
    assert Tokens(u) == Tokens(t) + multiset(added);
    forall m | m in added
      ensures !Special(m) && TokenOk(nodes, l, m) && TodoOk(t.loop.pc, m)
    {
    }
    hide Tokens, TokenOk, TodoOk, L.LoopInv, Special;
  }

  // ----- Steps of one loop -----

  lemma SameTokens(a: multiset<Micro>)
    ensures SameSpecials(a, a)
  {
  }

  lemma LoopStepKeepsInv(r: Reactor, l: nat, step: L.Step<Functor>)
    requires Inv(r) && Enabled(r, LoopStep(l, step))
    ensures Inv(Next(r, LoopStep(l, step)))
  {
    var t := r.threads[l];
    assert ThreadOk(r.nodes, l, t);
    LoopStepKeepsThread(r.nodes, l, t, step);
    SameTokens(Tokens(t));
    hide Tokens, ThreadOk, NodesOk, DistinctFds, S.TableInv;
    ChangeThread(r, l, t.(loop := L.Next(t.loop, step)));
  }

  lemma QuietStepKeepsInv(r: Reactor, l: nat, step: L.Step<Functor>)
    requires Inv(r) && l < |r.threads| && L.Enabled(r.threads[l].loop, step)
    requires step.StoreQuit? || step.WriteEventfd? || step.ReadEventfd?
    ensures Inv(StepLoop(r, l, step))
  {
    var t := r.threads[l];
    assert ThreadOk(r.nodes, l, t);
    QuietStepKeepsThread(r.nodes, l, t, step);
    SameTokens(Tokens(t));
    hide Tokens, ThreadOk, NodesOk, DistinctFds, S.TableInv;
    ChangeThread(r, l, t.(loop := L.Next(t.loop, step)));
  }

  lemma PollKeepsThread(nodes: seq<Node>, l: nat, t: Thread, report: seq<Active>)
    requires ThreadOk(nodes, l, t) && t.loop.pc == L.Polling && ActivesOk(nodes, l, report)
    ensures var u := Thread(L.Next(t.loop, L.PollReturns), report, t.todo);
            ThreadOk(nodes, l, u) && Tokens(u) == Tokens(t)
  {
    L.NextKeepsInv(t.loop, L.PollReturns);
    hide TokenOk, ActiveOk;
  }

  lemma ReportIsLive(r: Reactor, l: nat, report: seq<Active>)
    requires Inv(r) && Enabled(r, Poll(l, report))
    ensures ActivesOk(r.nodes, l, report)
  {
    hide Inv, Live;
    forall i | 0 <= i < |report|
      ensures ActiveOk(r.nodes, l, report[i])
    {
      assert Reportable(r, l, report[i]);
      if report[i].Events? {
        RegisteredIsLive(r, report[i].c);
      }
    }
  }

  lemma PollKeepsInv(r: Reactor, l: nat, report: seq<Active>)
    requires Inv(r) && Enabled(r, Poll(l, report))
    ensures Inv(Next(r, Poll(l, report)))
  {
    ReportIsLive(r, l, report);
    hide Tokens, ThreadOk, NodesOk, DistinctFds, S.TableInv, ActivesOk, Reportable, L.Next;
    var t := r.threads[l];
    var u := Thread(L.Next(t.loop, L.PollReturns), report, t.todo);
    PollKeepsThread(r.nodes, l, t, report);
    SameTokens(Tokens(t));
    ChangeThread(r, l, u);
    assert Next(r, Poll(l, report)).threads == r.threads[l := u];
  }

  /** The kernel knows only connections that are established and not destroyed. */
  lemma RegisteredIsLive(r: Reactor, c: nat)
    requires Inv(r) && Registered(r, c)
    ensures Live(r.nodes[c])
  {
    assert NodeOk(r.nodes[c], c, c in r.table.removed, Tokens(r.threads[0]), Tokens(r.threads[r.nodes[c].home]));
  }

  lemma RunKeepsThread(nodes: seq<Node>, l: nat, t: Thread)
    requires ThreadOk(nodes, l, t) && t.todo == [] && L.Enabled(t.loop, L.RunFunctor)
    ensures var f := t.loop.batch[0];
            var u := Thread(L.Next(t.loop, L.RunFunctor), t.active, Running(f));
            ThreadOk(nodes, l, u) && SameSpecials(Tokens(t), Tokens(u))
  {
    var f := t.loop.batch[0];
    var loop := L.Next(t.loop, L.RunFunctor);
    L.NextKeepsInv(t.loop, L.RunFunctor);
    assert loop.pc == t.loop.pc;
    TokensAfterRun(t);
    HeadIsToken(t);
    hide Tokens, L.LoopInv, L.Next, TokenOk, Special;
    assert TokenOk(nodes, l, Body(f));
    FunctorHeld(nodes, l, f);
    assert TodosOk(t.loop.pc, Running(f));
    assert TokensOk(nodes, l, Tokens(t) + Kept(f));
  }

  lemma HeadIsToken(t: Thread)
    requires t.loop.batch != []
    ensures Body(t.loop.batch[0]) in Tokens(t)
  {
    assert Bodies(t.loop.batch)[0] in Tokens(t);
  }

  lemma FunctorHeld(nodes: seq<Node>, l: nat, f: Functor)
    requires TokenOk(nodes, l, Body(f))
    ensures !f.User? ==> TokenOk(nodes, l, Hold(f.c))
    ensures !Special(Hold(f.c))
  {
  }

  lemma RunFunctorKeepsInv(r: Reactor, l: nat)
    requires Inv(r) && Enabled(r, RunFunctor(l))
    ensures Inv(Next(r, RunFunctor(l)))
  {
    hide Tokens, ThreadOk, NodesOk, DistinctFds, S.TableInv, L.Next;
    var t := r.threads[l];
    RunKeepsThread(r.nodes, l, t);
    ChangeThread(r, l, Thread(L.Next(t.loop, L.RunFunctor), t.active, Running(t.loop.batch[0])));
  }

  lemma PostKeepsInv(r: Reactor, t: nat, l: nat, f: Functor)
    requires Inv(r) && Enabled(r, Post(t, l, f))
    ensures Inv(Next(r, Post(t, l, f)))
  {
    hide Tokens, NodesOk, DistinctFds, S.TableInv, L.Next, L.LoopInv, Owned, TokensOk;
    var u := r.threads[l];
    assert ThreadOk(r.nodes, l, u);
    PushKeepsThread(r.nodes, l, u, t, f);
    assert SameSpecials(Tokens(u), Tokens(u) + multiset{Body(f)});
    ChangeThread(r, l, u.(loop := L.Next(u.loop, L.Push(t, f))));
  }

  lemma QuitIsEnabled(r: Reactor, t: nat, l: nat)
    requires Inv(r) && Enabled(r, Quit(t, l))
    ensures L.Enabled(r.threads[l].loop, L.StoreQuit(t))
  {
    hide Tokens, NodesOk, DistinctFds, S.TableInv, L.LoopInv, TokensOk;
    ThreadIsOk(r, l);
  }

  // ----- Passing a functor on -----

  /** The functor that a thread is about to hand over, and the loop it is for. */
  predicate HandsOver(m: Micro, u: nat, f: Functor) {
    m == RunIn(u, f) || m == QueueIn(u, f)
  }

  lemma HandOverTarget(nodes: seq<Node>, l: nat, m: Micro, u: nat, f: Functor)
    requires TokenOk(nodes, l, m) && HandsOver(m, u, f)
    ensures !f.User? && TokenOk(nodes, u, Body(f)) && f.c < |nodes| && u == (if f.Remove? then 0 else nodes[f.c].home)
    ensures Special(m) ==>
            l == 0 && u == nodes[f.c].home && (m.RunIn? <==> f.Establish?) && (m.QueueIn? <==> f.Destroy?)
    ensures Special(m) <==> Special(Body(f))
  {
  }

  lemma HeadOk(r: Reactor, l: nat)
    requires Inv(r) && l < |r.threads| && r.threads[l].todo != []
    ensures TokenOk(r.nodes, l, r.threads[l].todo[0]) && TodoOk(r.threads[l].loop.pc, r.threads[l].todo[0])
    ensures r.threads[l].todo[0] in Tokens(r.threads[l])
    ensures r.threads[l].loop.pc == L.Dispatching || r.threads[l].loop.pc == L.Running
  {
    hide NodesOk, DistinctFds, S.TableInv, TokenOk, TodoOk, Tokens;
    var t := r.threads[l];
    assert ThreadOk(r.nodes, l, t);
    TodoKeepsThread(r.nodes, l, t, []);
    TokensAfterTodo(t, []);
  }

  /** The tokens of thread `x` when thread `l` gives up `m` and thread `u` gains `b`. */
  function Passed(tokens: multiset<Micro>, x: nat, l: nat, m: Micro, u: nat, b: Micro): multiset<Micro> {
    (if x == l then tokens - multiset{m} else tokens) + (if x == u then multiset{b} else multiset{})
  }

  lemma PassedChanges(tokens: multiset<Micro>, x: nat, l: nat, m: Micro, u: nat, f: Functor)
    requires HandsOver(m, u, f)
    ensures SameBut(f.c, tokens, Passed(tokens, x, l, m, u, Body(f)))
    ensures !Special(m) && !Special(Body(f)) ==> SameSpecials(tokens, Passed(tokens, x, l, m, u, Body(f)))
  {
    hide Special;
  }

  /** In a connection's books, handing a functor over replaces one token by another. */
  lemma HandOverKeepsNode(node: Node, c: nat, removed: bool, l: nat, m: Micro, u: nat, f: Functor,
                          base: multiset<Micro>, io: multiset<Micro>)
    requires NodeOk(node, c, removed, base, io) && HandsOver(m, u, f)
    requires Special(m) <==> Special(Body(f))
    requires Special(m) ==> l == 0 && m in base && (m.RunIn? <==> f.Establish?) && (m.QueueIn? <==> f.Destroy?)
    requires Special(m) && f.c == c ==> u == node.home
    ensures NodeOk(node, c, removed, Passed(base, 0, l, m, u, Body(f)), Passed(io, node.home, l, m, u, Body(f)))
  {
    PassedChanges(base, 0, l, m, u, f);
    PassedChanges(io, node.home, l, m, u, f);
    hide P.ConnInv, O.HalfCloseSound, Closed, NodeOk, Passed;
    if f.c != c {
      NodeOkCarriesBut(f.c, node, c, removed, base, io, Passed(base, 0, l, m, u, Body(f)),
          Passed(io, node.home, l, m, u, Body(f)));
    } else if !Special(m) {
      NodeOkCarries(node, c, removed, base, io, Passed(base, 0, l, m, u, Body(f)),
          Passed(io, node.home, l, m, u, Body(f)));
    } else {
      OwnHandOver(node, c, removed, m, f, base, io);
    }
  }

  lemma OwnHandOver(node: Node, c: nat, removed: bool, m: Micro, f: Functor, base: multiset<Micro>, io: multiset<Micro>)
    requires NodeOk(node, c, removed, base, io) && HandsOver(m, node.home, f) && f.c == c && m in base
    requires Special(m) && (m.RunIn? <==> f.Establish?) && (m.QueueIn? <==> f.Destroy?)
    ensures NodeOk(node, c, removed, Passed(base, 0, 0, m, node.home, Body(f)),
            Passed(io, node.home, 0, m, node.home, Body(f)))
  {
    hide P.ConnInv, O.HalfCloseSound, Closed;
  }

  /** Both ends of a hand-over. */
  lemma PassedOn(r: Reactor, q: Reactor, l: nat, m: Micro, u: nat, f: Functor)
    requires Inv(r) && q.nodes == r.nodes && q.table == r.table && |q.threads| == |r.threads| && ThreadsOk(q)
    requires l < |r.threads| && r.threads[l].todo != [] && r.threads[l].todo[0] == m && HandsOver(m, u, f)
    requires forall x: nat :: x < |r.threads| ==>
               SameSpecials(Passed(Tokens(r.threads[x]), x, l, m, u, Body(f)), Tokens(q.threads[x]))
    ensures Inv(q)
  {
    hide ThreadsOk, Tokens, SameSpecials, S.TableInv, DistinctFds, TokenOk, Special, Passed, TodoOk;
    HeadOk(r, l);
    HandOverTarget(r.nodes, l, m, u, f);
    forall c: nat | c < |q.nodes|
      ensures NodeOk(q.nodes[c], c, c in q.table.removed, Tokens(q.threads[0]), Tokens(q.threads[q.nodes[c].home]))
    {
      var node := r.nodes[c];
      var base, io := Tokens(r.threads[0]), Tokens(r.threads[node.home]);
      HandOverKeepsNode(node, c, c in r.table.removed, l, m, u, f, base, io);
      NodeOkCarries(node, c, c in r.table.removed, Passed(base, 0, l, m, u, Body(f)),
          Passed(io, node.home, l, m, u, Body(f)),
                    Tokens(q.threads[0]), Tokens(q.threads[node.home]));
    }
    hide NodeOk;
  }

  /** Thread `u` once thread `l` has given up its first token and pushed its functor. */
  lemma PushedThread(r: Reactor, l: nat, u: nat, f: Functor)
    requires Inv(r) && l < |r.threads| && u < |r.threads| && Free(r, l) && r.threads[l].todo != []
    requires TokenOk(r.nodes, u, Body(f))
    ensures var t := r.threads[l].(todo := r.threads[l].todo[1..]);
            var w := if u == l then t else r.threads[u];
            var w' := w.(loop := L.Next(w.loop, L.Push(l, f)));
            && ThreadOk(r.nodes, l, t) && Tokens(t) == Tokens(r.threads[l]) - multiset{r.threads[l].todo[0]}
            && ThreadOk(r.nodes, u, w') && Tokens(w') == Tokens(w) + multiset{Body(f)}
  {
    hide NodesOk, ThreadsOk, S.TableInv, DistinctFds, TokenOk, TodoOk, Tokens, ThreadOk, L.LoopInv, L.Next;
    HeadOk(r, l);
    var t := r.threads[l].(todo := r.threads[l].todo[1..]);
    ThreadIsOk(r, l);
    ThreadIsOk(r, u);
    TodoKeepsThread(r.nodes, l, r.threads[l], []);
    assert [] + r.threads[l].todo[1..] == r.threads[l].todo[1..];
    var w := if u == l then t else r.threads[u];
    LoopOfThread(r.nodes, u, w);
    PushKeepsThread(r.nodes, u, w, l, f);
  }

  lemma PushOnKeepsInv(r: Reactor, l: nat, u: nat, f: Functor)
    requires Inv(r) && l < |r.threads| && Free(r, l)
    requires r.threads[l].todo != [] && HandsOver(r.threads[l].todo[0], u, f)
    ensures Inv(PushTo(SetTodo(r, l, r.threads[l].todo[1..]), l, u, f))
  {
    hide NodesOk, ThreadsOk, S.TableInv, DistinctFds, TokenOk, TodoOk, Tokens, ThreadOk, Special, Free, L.Next;
    var m := r.threads[l].todo[0];
    HeadOk(r, l);
    HandOverTarget(r.nodes, l, m, u, f);
    TargetExists(r, f.c);
    PushedThread(r, l, u, f);
    var q := PushTo(SetTodo(r, l, r.threads[l].todo[1..]), l, u, f);
    forall x: nat | x < |r.threads|
      ensures SameSpecials(Passed(Tokens(r.threads[x]), x, l, m, u, Body(f)), Tokens(q.threads[x]))
      ensures ThreadOk(q.nodes, x, q.threads[x])
    {
      ThreadIsOk(r, x);
      SameTokens(Tokens(q.threads[x]));
    }
    ThreadsFrom(q);
    PassedOn(r, q, l, m, u, f);
  }

  lemma TargetExists(r: Reactor, c: nat)
    requires Inv(r) && c < |r.nodes|
    ensures r.nodes[c].home < |r.threads|
  {
  }

  lemma LoopOfThread(nodes: seq<Node>, l: nat, t: Thread)
    requires ThreadOk(nodes, l, t)
    ensures t.loop.self == l && L.LoopInv(t.loop)
  {
  }

  /** runInLoop on the loop's own thread runs the functor on the spot. */
  lemma InlineKeepsInv(r: Reactor, l: nat, f: Functor)
    requires Inv(r) && l < |r.threads| && r.threads[l].todo != [] && r.threads[l].todo[0] == RunIn(l, f)
    ensures Inv(SetTodo(r, l, Running(f) + r.threads[l].todo[1..]))
  {
    hide NodesOk, S.TableInv, DistinctFds, Tokens, ThreadOk;
    var m := r.threads[l].todo[0];
    HeadOk(r, l);
    HandOverTarget(r.nodes, l, m, l, f);
    var t := r.threads[l];
    assert TodoOk(t.loop.pc, Body(f));
    TodoKeepsThread(r.nodes, l, t, Running(f));
    hide TokenOk, TodoOk;
    var q := SetTodo(r, l, Running(f) + t.todo[1..]);
    forall x: nat | x < |r.threads|
      ensures SameSpecials(Passed(Tokens(r.threads[x]), x, l, m, l, Body(f)), Tokens(q.threads[x]))
      ensures ThreadOk(q.nodes, x, q.threads[x])
    {
      if x == l {
        RunningIs(f);
      }
    }
    PassedOn(r, q, l, m, l, f);
  }

  // ----- Bodies of functors -----

  lemma ThreadIsOk(r: Reactor, l: nat)
    requires Inv(r) && l < |r.threads|
    ensures ThreadOk(r.nodes, l, r.threads[l])
  {
  }

  lemma NodeIsOk(r: Reactor, c: nat)
    requires Inv(r) && c < |r.nodes|
    ensures r.nodes[c].home < |r.threads|
    ensures NodeOk(r.nodes[c], c, c in r.table.removed, Tokens(r.threads[0]), Tokens(r.threads[r.nodes[c].home]))
  {
  }

  /** Running the body of a functor takes its token away; the books of other connections stay. */
  lemma BodyTaken(t: Thread, f: Functor, added: seq<Micro>)
    requires t.todo != [] && t.todo[0] == Body(f)
    requires forall i :: 0 <= i < |added| ==> Subject(added[i]) == f.c
    ensures SameBut(f.c, Tokens(t), Tokens(t.(todo := added + t.todo[1..])))
  {
    TokensAfterTodo(t, added);
    forall x | Special(x) && Subject(x) != f.c
      ensures multiset(added)[x] == 0
    {
      assert x !in added;
    }
    hide Tokens, Special;
  }

  /** All of it, for a body that changes its own connection. */
  lemma OwnBodyOthers(r: Reactor, l: nat, f: Functor, conn: C.Conn)
    requires Inv(r) && l < |r.threads| && r.threads[l].todo != [] && r.threads[l].todo[0] == Body(f) && f.c < |r.nodes|
    ensures var q := SetTodo(SetConn(r, f.c, conn), l, r.threads[l].todo[1..]);
            forall c: nat :: c < |r.nodes| && c != f.c ==>
              q.nodes[c].home < |q.threads|
              && NodeOk(q.nodes[c], c, c in q.table.removed, Tokens(q.threads[0]), Tokens(q.threads[q.nodes[c].home]))
  {
    hide Tokens, NodesOk, ThreadsOk, S.TableInv, DistinctFds, NodeOk;
    var t := r.threads[l];
    BodyTaken(t, f, []);
    assert [] + t.todo[1..] == t.todo[1..];
    var q := SetTodo(SetConn(r, f.c, conn), l, t.todo[1..]);
    forall x: nat | x < |r.threads|
      ensures SameBut(f.c, Tokens(r.threads[x]), Tokens(q.threads[x]))
    {
    }
    OthersOk(r, q, f.c);
  }

  lemma OwnBodyThreads(r: Reactor, l: nat, f: Functor, conn: C.Conn)
    requires Inv(r) && l < |r.threads| && r.threads[l].todo != [] && r.threads[l].todo[0] == Body(f)
    requires f.c < |r.nodes| && r.nodes[f.c].home == l
    requires r.nodes[f.c].conn.state == C.Disconnected ==> conn.state == C.Disconnected
    requires Live(r.nodes[f.c]) ==> r.threads[l].loop.pc == L.Running
    ensures ThreadsOk(SetTodo(SetConn(r, f.c, conn), l, r.threads[l].todo[1..]))
  {
    hide Tokens, NodesOk, ThreadsOk, S.TableInv, DistinctFds, ThreadOk;
    var q := SetTodo(SetConn(r, f.c, conn), l, r.threads[l].todo[1..]);
    ThreadIsOk(r, l);
    TodoKeepsThread(r.nodes, l, r.threads[l], []);
    assert [] + r.threads[l].todo[1..] == r.threads[l].todo[1..];
    forall x: nat | x < |r.threads|
      ensures ThreadOk(q.nodes, x, q.threads[x])
    {
      ThreadIsOk(r, x);
      ThreadOkCarries(r.nodes, q.nodes, x, q.threads[x]);
    }
    ThreadsFrom(q);
  }

  lemma ThreadsFrom(q: Reactor)
    requires forall x: nat :: x < |q.threads| ==> ThreadOk(q.nodes, x, q.threads[x])
    ensures ThreadsOk(q)
  {
  }

  /** The one establishment to come is the one at hand, so its connection is Connecting. */
  lemma EstablishMeetsConnecting(r: Reactor, l: nat, c: nat)
    requires Inv(r) && l < |r.threads| && Body(Establish(c)) in Tokens(r.threads[l])
    ensures c < |r.nodes| && r.nodes[c].home == l && r.nodes[c].conn.state == C.Connecting
    ensures Tokens(r.threads[l])[Body(Establish(c))] == 1 && RunIn(l, Establish(c)) !in Tokens(r.threads[0])
    ensures P.ConnInv(r.nodes[c].conn) && O.HalfCloseSound(r.nodes[c].conn) && c !in r.table.removed
    ensures !r.nodes[c].conn.hist.destroyed
  {
    hide Tokens, P.LayersAgree, P.StreamsConserved, O.HalfCloseSound, Inv;
    ThreadIsOk(r, l);
    assert TokenOk(r.nodes, l, Body(Establish(c)));
    NodeIsOk(r, c);
    ConnectingNotDestroyed(r.nodes[c].conn);
  }

  lemma ConnectingNotDestroyed(c: C.Conn)
    requires P.ConnInv(c) && c.state != C.Disconnected
    ensures !c.hist.destroyed
  {
  }

  lemma EstablishIsSound(c: C.Conn)
    requires P.ConnInv(c) && O.HalfCloseSound(c) && c.state == C.Connecting
    ensures var o := C.Establish(c);
            && P.ConnInv(o.c) && O.HalfCloseSound(o.c) && o.c.state == C.Connected && !o.c.hist.destroyed
            && o.fx == [C.ConnectionChanged(true)]
  {
    P.EstablishKeepsInv(c);
    hide P.StreamsConserved, P.LayersAgree;
  }

  lemma NoPushes(c: nat, home: nat, fx: seq<C.Effect>)
    requires fx == [] || (|fx| == 1 && fx[0].ConnectionChanged?)
    ensures Pushes(c, home, fx) == []
  {
    if fx != [] { assert Pushes(c, home, fx[1..]) == []; }
  }

  lemma EstablishBodyKeepsInv(r: Reactor, l: nat, c: nat)
    requires Inv(r) && l < |r.threads| && r.threads[l].todo != [] && r.threads[l].todo[0] == Body(Establish(c))
    ensures c < |r.nodes|
    ensures Inv(Handled(r, l, c, C.Establish(r.nodes[c].conn), r.threads[l].todo[1..]))
  {
    hide NodesOk, S.TableInv, Tokens, ThreadsOk, Pushes, P.ConnInv, O.HalfCloseSound, C.Establish, ThreadOk;
    HeadOk(r, l);
    EstablishMeetsConnecting(r, l, c);
    var out := C.Establish(r.nodes[c].conn);
    var rest := r.threads[l].todo[1..];
    EstablishIsSound(r.nodes[c].conn);
    NoPushes(c, r.nodes[c].home, out.fx);
    assert [] + rest == rest;
    var q := SetTodo(SetConn(r, c, out.c), l, rest);
    OwnBodyOthers(r, l, Establish(c), out.c);
    OwnBodyThreads(r, l, Establish(c), out.c);
    TokensAfterTodo(r.threads[l], []);
    NodesFromOthers(r, q, c);
    FdsKeep(r.nodes, q.nodes);
  }

  lemma NodesFromOthers(r: Reactor, q: Reactor, c0: nat)
    requires |q.nodes| == |r.nodes| && c0 < |q.nodes| && |q.threads| > 0 && q.nodes[c0].home < |q.threads|
    requires forall c: nat :: c < |r.nodes| && c != c0 ==>
              q.nodes[c].home < |q.threads|
              && NodeOk(q.nodes[c], c, c in q.table.removed, Tokens(q.threads[0]), Tokens(q.threads[q.nodes[c].home]))
    requires NodeOk(q.nodes[c0], c0, c0 in q.table.removed, Tokens(q.threads[0]), Tokens(q.threads[q.nodes[c0].home]))
    ensures NodesOk(q)
  {
  }

  lemma FdsKeep(nodes: seq<Node>, nodes': seq<Node>)
    requires DistinctFds(nodes) && |nodes| == |nodes'|
    requires forall c: nat :: c < |nodes| ==>
               nodes'[c].fd == nodes[c].fd && (nodes[c].conn.hist.destroyed ==> nodes'[c].conn.hist.destroyed)
    ensures DistinctFds(nodes')
  {
  }

  lemma DestroyIsSound(c: C.Conn)
    requires P.ConnInv(c) && O.HalfCloseSound(c) && c.state == C.Disconnected
    ensures var o := C.Destroy(c);
            && P.ConnInv(o.c) && O.HalfCloseSound(o.c) && o.c.state == C.Disconnected && o.c.hist.destroyed
                 && o.fx == []
  {
    P.DestroyKeepsInv(c);
    hide P.StreamsConserved, P.LayersAgree;
  }

  lemma DestroyBodyKeepsInv(r: Reactor, l: nat, c: nat)
    requires Inv(r) && l < |r.threads| && r.threads[l].todo != [] && r.threads[l].todo[0] == Body(Destroy(c))
    ensures c < |r.nodes|
    ensures Inv(Handled(r, l, c, C.Destroy(r.nodes[c].conn), r.threads[l].todo[1..]))
  {
    hide S.TableInv, Tokens, ThreadsOk, Pushes, P.ConnInv, O.HalfCloseSound, C.Destroy, ThreadOk;
    HeadOk(r, l);
    var node := r.nodes[c];
    NodeIsOk(r, c);
    hide NodesOk;
    var out := C.Destroy(node.conn);
    var rest := r.threads[l].todo[1..];
    DestroyIsSound(node.conn);
    NoPushes(c, node.home, out.fx);
    assert [] + rest == rest;
    var q := SetTodo(SetConn(r, c, out.c), l, rest);
    OwnBodyOthers(r, l, Destroy(c), out.c);
    OwnBodyThreads(r, l, Destroy(c), out.c);
    TokensAfterTodo(r.threads[l], []);
    NodesFromOthers(r, q, c);
    FdsKeep(r.nodes, q.nodes);
  }

  lemma RemoveBodyKeepsInv(r: Reactor, l: nat, c: nat)
    requires Inv(r) && l < |r.threads| && r.threads[l].todo != [] && r.threads[l].todo[0] == Body(Remove(c))
    requires NamesOk(r)
    ensures c < |r.nodes|
    ensures Inv(SetTodo(r.(table := S.Apply(r.table, S.Erase(c))), l,
                        [QueueIn(r.nodes[c].home, Destroy(c))] + r.threads[l].todo[1..]))
  {
    hide S.TableInv, Tokens, ThreadsOk, NodesOk, P.ConnInv, O.HalfCloseSound, ThreadOk, DistinctFds, S.Apply;
    HeadOk(r, l);
    NodeIsOk(r, c);
    var t := r.threads[l];
    var m := QueueIn(r.nodes[c].home, Destroy(c));
    HeadIsOwned(r, l);
    assert S.HasOwnName(r.table, c);
    EraseFacts(r.table, c);
    BodyTaken(t, Remove(c), [m]);
    TokensAfterTodo(t, [m]);
    var q := SetTodo(r.(table := S.Apply(r.table, S.Erase(c))), l, [m] + t.todo[1..]);
    forall x: nat | x < |r.threads|
      ensures SameBut(c, Tokens(r.threads[x]), Tokens(q.threads[x]))
    {
    }
    OthersOk(r, q, c);
    ThreadIsOk(r, l);
    TodoKeepsThread(r.nodes, l, t, [m]);
    forall x: nat | x < |r.threads|
      ensures ThreadOk(q.nodes, x, q.threads[x])
    {
      ThreadIsOk(r, x);
    }
    ThreadsFrom(q);
    RemovedNodeOk(r.nodes[c], c, c in r.table.removed, Tokens(r.threads[0]), Tokens(r.threads[r.nodes[c].home]),
                  Tokens(q.threads[0]), Tokens(q.threads[r.nodes[c].home]));
    NodesFromOthers(r, q, c);
  }

  lemma HeadIsOwned(r: Reactor, l: nat)
    requires l < |r.threads| && r.threads[l].todo != [] && Holds(r.threads[l].todo[0])
    ensures Owned(r, Subject(r.threads[l].todo[0]))
  {
    assert r.threads[l].todo[0] in Tokens(r.threads[l]);
  }

  lemma EraseFacts(t: S.Table, c: nat)
    requires S.TableInv(t) && c < t.created && S.HasOwnName(t, c)
    ensures var u := S.Apply(t, S.Erase(c));
            S.TableInv(u) && u.created == t.created && u.removed == t.removed + {c}
  {
    S.OwnEraseKeepsTable(t, c);
  }

  /** Once erased from the map, a connection is held by the functor that will destroy it. */
  lemma RemovedNodeOk(node: Node, c: nat, removed: bool, base: multiset<Micro>, io: multiset<Micro>,
                      base': multiset<Micro>, io': multiset<Micro>)
    requires NodeOk(node, c, removed, base, io) && Closed(node)
    requires base' == base - multiset{Body(Remove(c))} + multiset([QueueIn(node.home, Destroy(c))])
    requires if node.home == 0 then io == base && io' == base' else io' == io
    ensures NodeOk(node, c, true, base', io')
  {
    assert QueueIn(node.home, Destroy(c)) in multiset([QueueIn(node.home, Destroy(c))]);
    hide P.ConnInv, O.HalfCloseSound, Closed;
  }

  // ----- Dispatch -----

  lemma HandlersAllowed(nodes: seq<Node>, l: nat, c: nat, revents: E.Mask)
    requires c < |nodes| && nodes[c].home == l && Live(nodes[c])
    ensures var todo := Handlers(c, revents) + [Hold(c)];
            Allowed(nodes, l, L.Dispatching, todo) && NoSpecials(todo)
  {
    hide C.SelectsClose, C.SelectsRead, C.SelectsWrite, Live;
  }

  lemma FillKeepsThread(nodes: seq<Node>, l: nat, t: Thread, active: seq<Active>, todo: seq<Micro>)
    requires ThreadOk(nodes, l, t) && t.todo == [] && t.loop.pc == L.Dispatching
    requires ActivesOk(nodes, l, active) && Allowed(nodes, l, L.Dispatching, todo)
    ensures ThreadOk(nodes, l, Thread(t.loop, active, todo))
    ensures Tokens(Thread(t.loop, active, todo)) == Tokens(t) + multiset(todo)
  {
    var u := Thread(t.loop, active, todo);
    assert Tokens(u) == Tokens(t) + multiset(todo);
    hide Tokens, TokenOk, TodoOk, L.LoopInv, ActiveOk;
  }

  lemma AddOrdinary(tokens: multiset<Micro>, added: seq<Micro>)
    requires NoSpecials(added)
    ensures SameSpecials(tokens, tokens + multiset(added))
  {
    forall x | Special(x)
      ensures multiset(added)[x] == 0
    {
      assert x !in added;
    }
    hide Special;
  }

  lemma HeadActive(nodes: seq<Node>, l: nat, t: Thread)
    requires ThreadOk(nodes, l, t) && t.active != []
    ensures ActiveOk(nodes, l, t.active[0]) && ActivesOk(nodes, l, t.active[1..])
  {
    hide L.LoopInv, TokensOk, TodosOk, ActiveOk;
  }

  /** An event is handed to its connection's handlers, or dropped when the tie guard fails. */
  lemma EventsKeepInv(r: Reactor, l: nat)
    requires Inv(r) && Enabled(r, Dispatch(l)) && r.threads[l].active[0].Events?
    ensures Inv(Next(r, Dispatch(l)))
  {
    hide Tokens, NodesOk, ThreadsOk, S.TableInv, DistinctFds, ThreadOk, Owned, Free, Handlers, FreshDescriptor;
    var t := r.threads[l];
    var c, revents := t.active[0].c, t.active[0].revents;
    ThreadIsOk(r, l);
    HeadActive(r.nodes, l, t);
    HandlersAllowed(r.nodes, l, c, revents);
    FillKeepsThread(r.nodes, l, t, t.active[1..], []);
    FillKeepsThread(r.nodes, l, t, t.active[1..], Handlers(c, revents) + [Hold(c)]);
    AddOrdinary(Tokens(t), []);
    AddOrdinary(Tokens(t), Handlers(c, revents) + [Hold(c)]);
    ChangeThread(r, l, Thread(t.loop, t.active[1..], []));
    ChangeThread(r, l, Thread(t.loop, t.active[1..], Handlers(c, revents) + [Hold(c)]));
  }

  lemma WakeupKeepsInv(r: Reactor, l: nat)
    requires Inv(r) && Enabled(r, Dispatch(l)) && r.threads[l].active[0].Wakeup?
    ensures Inv(Next(r, Dispatch(l)))
  {
    hide Tokens, NodesOk, ThreadsOk, S.TableInv, DistinctFds, ThreadOk, FreshDescriptor, L.Next;
    var t := r.threads[l];
    ThreadIsOk(r, l);
    HeadActive(r.nodes, l, t);
    FillKeepsThread(r.nodes, l, t, t.active[1..], []);
    var u := Thread(t.loop, t.active[1..], []);
    LoopOfThread(r.nodes, l, t);
    QuietStepKeepsThread(r.nodes, l, u, L.ReadEventfd);
    AddOrdinary(Tokens(t), []);
    ChangeThread(r, l, u.(loop := L.Next(t.loop, L.ReadEventfd)));
  }

  // ----- New connections -----

  lemma NoTokensYet(nodes: seq<Node>, l: nat, t: Thread, m: Micro)
    requires ThreadOk(nodes, l, t) && Holds(m) && Subject(m) >= |nodes|
    ensures Tokens(t)[m] == 0
  {
    hide Tokens, L.LoopInv;
    assert m in Tokens(t) ==> TokenOk(nodes, l, m);
  }

  lemma CreatedIsSound(wc: bool, hw: bool, mark: nat)
    ensures var conn := C.Created(wc, hw, mark);
            P.ConnInv(conn) && O.HalfCloseSound(conn) && conn.state == C.Connecting && !conn.hist.destroyed
  {
  }

  lemma InsertFacts(t: S.Table)
    requires S.TableInv(t) && t.NameOf(t.created) !in t.entries
    ensures var u := S.Apply(t, S.Insert);
            S.TableInv(u) && u.created == t.created + 1 && u.removed == t.removed && t.created !in t.removed
  {
    S.FreeInsertKeepsTable(t);
  }

  lemma MappedAreOwned(r: Reactor)
    requires Inv(r)
    ensures forall name :: name in r.table.entries ==>
              var c := r.table.entries[name];
              c < |r.nodes| && Owned(r, c) && name == r.table.NameOf(c)
  {
    hide ThreadsOk, NodesOk, DistinctFds, S.ConnName, Tokens;
    forall name | name in r.table.entries
      ensures Owned(r, r.table.entries[name])
    {
      assert r.table.Contains(r.table.entries[name]);
    }
  }

  /** A name that no held connection has is not in the map. */
  lemma NameIsFree(r: Reactor)
    requires Inv(r) && FreshName(r)
    ensures r.table.NameOf(r.table.created) !in r.table.entries
  {
    hide Inv, Owned;
    MappedAreOwned(r);
  }

  lemma NextHomeExists(r: Reactor)
    requires |r.threads| > 0
    ensures NextHome(r) < |r.threads|
    ensures forall threads: seq<Thread> :: |threads| == |r.threads| ==> NextHome(r.(threads := threads)) == NextHome(r)
  {
  }

  lemma NewFdDistinct(r: Reactor, node: Node)
    requires Inv(r) && FreshDescriptor(r, node.fd)
    ensures DistinctFds(r.nodes + [node])
  {
    hide ThreadsOk, NodesOk, S.TableInv, Owned;
    forall c: nat | c < |r.nodes| && !r.nodes[c].conn.hist.destroyed
      ensures r.nodes[c].fd != node.fd
    {
      LiveIsOwned(r, c);
    }
  }

  lemma NewNodeOk(node: Node, c: nat, base: multiset<Micro>, io: multiset<Micro>, base': multiset<Micro>,
      io': multiset<Micro>)
    requires P.ConnInv(node.conn) && O.HalfCloseSound(node.conn) && node.conn.state == C.Connecting
    requires base[RunIn(node.home, Establish(c))] == 0 && base[Body(Establish(c))] == 0 && io[Body(Establish(c))] == 0
    requires base' == base + multiset([RunIn(node.home, Establish(c)), Hold(c)])
    requires if node.home == 0 then io == base && io' == base' else io' == io
    ensures NodeOk(node, c, false, base', io')
  {
    hide P.ConnInv, O.HalfCloseSound;
  }

  lemma NewTodoAllowed(nodes: seq<Node>, c: nat)
    requires c < |nodes|
    ensures Allowed(nodes, 0, L.Dispatching, [RunIn(nodes[c].home, Establish(c)), Hold(c)])
  {
  }

  lemma AcceptKeepsInv(r: Reactor, l: nat)
    requires Inv(r) && Enabled(r, Dispatch(l)) && r.threads[l].active[0].Accept?
    ensures Inv(Next(r, Dispatch(l)))
  {
    hide Tokens, NodesOk, ThreadsOk, S.TableInv, DistinctFds, ThreadOk, FreshDescriptor, Free, P.ConnInv;
    hide O.HalfCloseSound;
    hide NextHome, S.Apply, C.Created, Special, SameBut;
    var t := r.threads[l];
    var c, home := |r.nodes|, NextHome(r);
    var a := t.active[0];
    var node := Node(a.fd, home, C.Created(a.writeComplete, a.highWater, a.mark));
    var todo := [RunIn(home, Establish(c)), Hold(c)];
    var q := Next(r, Dispatch(l));
    ThreadIsOk(r, l);
    HeadActive(r.nodes, l, t);
    NameIsFree(r);
    InsertFacts(r.table);
    NextHomeExists(r);
    CreatedIsSound(a.writeComplete, a.highWater, a.mark);
    NewFdDistinct(r, node);
    forall x: nat | x < |r.threads|
      ensures ThreadOk(q.nodes, x, r.threads[x])
      ensures Tokens(r.threads[x])[RunIn(home, Establish(c))] == 0 && Tokens(r.threads[x])[Body(Establish(c))] == 0
    {
      ThreadIsOk(r, x);
      ThreadOkCarries(r.nodes, q.nodes, x, r.threads[x]);
      NoTokensYet(r.nodes, x, r.threads[x], RunIn(home, Establish(c)));
      NoTokensYet(r.nodes, x, r.threads[x], Body(Establish(c)));
    }
    HeadActive(q.nodes, l, t);
    assert q.nodes == r.nodes + [node] && q.nodes[c] == node && l == 0;
    NewTodoAllowed(q.nodes, c);
    FillKeepsThread(q.nodes, l, t, t.active[1..], todo);
    ThreadsFrom(q);
    AddAbout(Tokens(t), c, todo);
    forall x: nat | x < |r.threads|
      ensures SameBut(c, Tokens(r.threads[x]), Tokens(q.threads[x]))
    {
      AddAbout(Tokens(r.threads[x]), c, []);
      assert Tokens(r.threads[x]) + multiset([]) == Tokens(r.threads[x]);
    }
    OthersOk(r, q, c);
    NewNodeOk(node, c, Tokens(r.threads[0]), Tokens(r.threads[home]), Tokens(q.threads[0]), Tokens(q.threads[home]));
    NodesWithNew(r, q);
  }

  lemma AddAbout(tokens: multiset<Micro>, c: nat, added: seq<Micro>)
    requires forall i :: 0 <= i < |added| ==> Subject(added[i]) == c
    ensures SameBut(c, tokens, tokens + multiset(added))
  {
    forall x | Special(x) && Subject(x) != c
      ensures multiset(added)[x] == 0
    {
      assert x !in added;
    }
    hide Special, Subject;
  }

  lemma NodesWithNew(r: Reactor, q: Reactor)
    requires |q.nodes| == |r.nodes| + 1 && |q.threads| > 0
    requires forall c: nat :: c < |r.nodes| && c != |r.nodes| ==>
              q.nodes[c].home < |q.threads|
              && NodeOk(q.nodes[c], c, c in q.table.removed, Tokens(q.threads[0]), Tokens(q.threads[q.nodes[c].home]))
    requires var c := |r.nodes|;
             q.nodes[c].home < |q.threads|
             && NodeOk(q.nodes[c], c, c in q.table.removed, Tokens(q.threads[0]), Tokens(q.threads[q.nodes[c].home]))
    ensures NodesOk(q)
  {
    hide NodeOk, Tokens;
  }

  // ----- All actions -----

  lemma OrdinaryKeepsInv(r: Reactor, l: nat)
    requires Inv(r) && l < |r.threads| && r.threads[l].todo != [] && !Special(r.threads[l].todo[0])
    ensures Inv(SetTodo(r, l, r.threads[l].todo[1..]))
  {
    hide Tokens, NodesOk, ThreadsOk, S.TableInv, DistinctFds, ThreadOk, Special;
    var t := r.threads[l];
    ThreadIsOk(r, l);
    TodoKeepsThread(r.nodes, l, t, []);
    ReplaceOrdinary(Tokens(t), t.todo[0], []);
    assert [] + t.todo[1..] == t.todo[1..];
    ChangeThread(r, l, t.(todo := t.todo[1..]));
  }

  lemma HandlerKeepsInv(r: Reactor, l: nat, read: ReadResult, write: WriteResult)
    requires Inv(r) && l < |r.threads| && r.threads[l].todo != [] && IsHandler(r.threads[l].todo[0])
    ensures Inv(ExecNext(r, l, read, write))
  {
    hide Tokens, NodesOk, ThreadsOk, S.TableInv, DistinctFds, ThreadOk, P.ConnInv, O.HalfCloseSound;
    hide C.HandleClose, C.HandleRead, C.HandleWrite, Handled, SoundOut;
    HeadOk(r, l);
    var c := Subject(r.threads[l].todo[0]);
    var conn := r.nodes[c].conn;
    NodeIsOk(r, c);
    HandlersAreSound(conn, read, write);
    InputValid(conn);
    match r.threads[l].todo[0]
    case OnClose(_) => HandledKeepsInv(r, l, c, C.HandleClose(conn));
    case OnRead(_, _) => HandledKeepsInv(r, l, c, C.HandleRead(conn, read, []));
    case OnWrite(_) => HandledKeepsInv(r, l, c, C.HandleWrite(conn, write));
  }

  lemma InputValid(c: C.Conn)
    requires P.ConnInv(c)
    ensures c.input.Valid()
  {
  }

  lemma InputOfNode(r: Reactor, c: nat)
    requires c < |r.nodes| && Inv(r)
    ensures r.nodes[c].conn.input.Valid()
  {
    hide Inv, P.ConnInv, Tokens;
    NodeIsOk(r, c);
    InputValid(r.nodes[c].conn);
  }

  lemma ExecKeepsInv(r: Reactor, l: nat, read: ReadResult, write: WriteResult)
    requires Inv(r) && NamesOk(r) && Enabled(r, Exec(l, read, write))
    ensures Inv(ExecNext(r, l, read, write))
  {
    hide NamesOk;
    hide Tokens, NodesOk, ThreadsOk, S.TableInv, DistinctFds, ThreadOk, P.ConnInv, O.HalfCloseSound, TokenOk, TodoOk;
    hide C.Establish, C.Destroy, C.HandleClose, C.HandleRead, C.HandleWrite, Handled, PushTo, S.Apply, Free;
    HeadOk(r, l);
    HeadExists(r, l);
    var m := r.threads[l].todo[0];
    var c := Subject(m);
    if Holds(m) {
      NodeIsOk(r, c);
      InputValid(r.nodes[c].conn);
    }
    match m
    case RunIn(u, f) => if u == l { InlineKeepsInv(r, l, f); } else { PushOnKeepsInv(r, l, u, f); }
    case QueueIn(u, f) => PushOnKeepsInv(r, l, u, f);
    case Body(Establish(_)) => EstablishBodyKeepsInv(r, l, c);
    case Body(Remove(_)) => RemoveBodyKeepsInv(r, l, c);
    case Body(Destroy(_)) => DestroyBodyKeepsInv(r, l, c);
    case Body(Callback(_)) => OrdinaryKeepsInv(r, l);
    case Body(User(_)) => OrdinaryKeepsInv(r, l);
    case Hold(_) => OrdinaryKeepsInv(r, l);
    case _ => HandlerKeepsInv(r, l, read, write);
  }

  lemma HeadExists(r: Reactor, l: nat)
    requires Inv(r) && l < |r.threads| && r.threads[l].todo != []
    ensures Holds(r.threads[l].todo[0]) ==> Subject(r.threads[l].todo[0]) < |r.nodes|
  {
    HeadOk(r, l);
  }

  lemma NextKeepsInv(r: Reactor, a: Action)
    requires Inv(r) && NamesOk(r) && Enabled(r, a)
    ensures Inv(Next(r, a))
  {
    hide Inv, NamesOk, StepLoop, PushTo, Handled, DispatchNext, ExecNext, Free, Owned;
    match a
    case LoopStep(l, step) => LoopStepKeepsInv(r, l, step);
    case Poll(l, report) => PollKeepsInv(r, l, report);
    case Dispatch(l) =>
      match r.threads[l].active[0] {
        case Wakeup => WakeupKeepsInv(r, l);
        case Accept(_, _, _, _) => AcceptKeepsInv(r, l);
        case Events(_, _) => EventsKeepInv(r, l);
      }
    case RunFunctor(l) => RunFunctorKeepsInv(r, l);
    case Exec(l, read, write) => ExecKeepsInv(r, l, read, write);
    case UserCall(l, c, call) => UserCallKeepsInv(r, l, c, call);
    case WakeUp(l, t) => QuietStepKeepsInv(r, l, L.WriteEventfd(t));
    case Post(t, l, f) => PostKeepsInv(r, t, l, f);
    case Quit(t, l) => QuitIsEnabled(r, t, l); QuietStepKeepsInv(r, l, L.StoreQuit(t));
  }

  lemma StartInv(loops: nat, setup: Setup)
    requires loops > 0
    ensures Inv(Start(loops, setup))
  {
    var r := Start(loops, setup);
    forall l: nat | l < loops
      ensures ThreadOk(r.nodes, l, r.threads[l])
    {
      assert Tokens(r.threads[l]) == multiset{};
    }
  }
}
