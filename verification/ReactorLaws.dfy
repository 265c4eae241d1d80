/** What the whole server can do next, and what it does with a new connection. */
module ReactorLaws {
  import B = BufferSpec
  import E = EPollSpec
  import C = ConnectionSpec
  import W = ConnectionLaws
  import L = LoopSpec
  import S = ServerSpec
  import opened ReactorSpec
  import opened ReactorProofs
  import opened ReactorSteps
  import opened Lifetime

  /** Accepting makes one connection, with the accepted descriptor and its user's settings, on the loop whose turn
      it is; it is entered in the map, and its establishment is the thread's next task. */
  lemma AcceptMakes(r: Reactor, fd: int, wc: bool, hw: bool, mark: nat, l: nat)
    requires Inv(r) && Enabled(r, Dispatch(l)) && r.threads[l].active[0] == Accept(fd, wc, hw, mark)
    ensures var q := Next(r, Dispatch(l));
            var c := |r.nodes|;
            var home := if |r.threads| == 1 then 0 else 1 + r.turns % (|r.threads| - 1);
            && q.nodes == r.nodes + [Node(fd, home, C.Created(wc, hw, mark))] && q.turns == r.turns + 1
            && q.table.Contains(c) && q.table.created == c + 1 && q.table.removed == r.table.removed
            && q.threads[l].todo == [RunIn(home, Establish(c)), Hold(c)]
            && q.threads[l].active == r.threads[l].active[1..] && q.threads[l].loop == r.threads[l].loop
            && forall x: nat :: x < |r.threads| && x != l ==> q.threads[x] == r.threads[x]
  {
    hide ThreadsOk, NodesOk, DistinctFds, Owned, FreshDescriptor, FreshName, Free, S.ConnName, C.Created;
  }

  /** The order in which one report runs its handlers. */
  function Place(m: Micro): nat {
    match m
    case OnClose(_) => 0
    case OnRead(_, _) => 1
    case OnWrite(_) => 2
    case _ => 3
  }

  /** In the bits of the interface: a report runs the close handler iff it carries 0x10 and not 0x1, the read
      handler iff it carries any of 0x3, the write handler iff it carries 0x4; each once, in that order, for its
      own connection, and nothing else. */
  lemma HandlersOfBits(c: nat, revents: E.Mask)
    ensures OnClose(c) in Handlers(c, revents) <==> revents & 0x10 != 0 && revents & 0x1 == 0
    ensures OnRead(c, revents) in Handlers(c, revents) <==> revents & 0x3 != 0
    ensures OnWrite(c) in Handlers(c, revents) <==> revents & 0x4 != 0
    ensures forall m :: m in Handlers(c, revents) ==> m == OnClose(c) || m == OnRead(c, revents) || m == OnWrite(c)
    ensures var hs := Handlers(c, revents); forall i, j :: 0 <= i < j < |hs| ==> Place(hs[i]) < Place(hs[j])
  {
    W.SelectionIs(revents);
    hide C.SelectsClose, C.SelectsRead, C.SelectsWrite;
  }

  /** What thread `l` can do next; `fd` is what accept answers if it comes to that. */
  function OwnNext(r: Reactor, l: nat, owed: nat): Action
    requires l < |r.threads|
  {
    var t := r.threads[l];
    if owed < |r.threads| && l in r.threads[owed].loop.owes then WakeUp(owed, l)
    else if t.todo != [] then Exec(l, B.ReadFailed(0), B.WriteFailed(B.WouldBlock))
    else if t.active != [] then Dispatch(l)
    else
      match t.loop.pc
      case Idle => LoopStep(l, L.StartLoop)
      case Testing => LoopStep(l, L.TestQuit)
      case Polling => Poll(l, [])
      case Dispatching => LoopStep(l, L.BeginPending)
      case Swapping => LoopStep(l, L.SwapPending)
      case Running => if t.loop.batch != [] then RunFunctor(l) else LoopStep(l, L.EndPending)
      case Stopped => LoopStep(l, L.StartLoop)
  }

  /** No thread is ever stuck: wherever it is, and whatever the others did, its next step can be taken; only an
      accepted connection has to come with a descriptor and a name not in use. */
  lemma NoThreadStuck(loops: nat, setup: Setup, actions: seq<Action>, l: nat)
    requires loops > 0 && LegalRun(Start(loops, setup), actions) && l < |Reached(loops, setup, actions).threads|
    ensures var r := Reached(loops, setup, actions);
            var t := r.threads[l];
            exists owed: nat ::
              || Enabled(r, OwnNext(r, l, owed))
              || (t.active != [] && t.active[0].Accept? && !(FreshDescriptor(r, t.active[0].fd) && FreshName(r)))
  {
    var r := Reached(loops, setup, actions);
    ReachedInv(loops, setup, actions);
    hide LegalRun, Reached, Inv, FreshDescriptor, FreshName;
    if Free(r, l) {
      FreeThreadGoesOn(r, l);
      assert OwnNext(r, l, |r.threads|) == OwnNext(r, l, |r.threads|);
    } else {
      var owed: nat :| owed < |r.threads| && l in r.threads[owed].loop.owes;
      assert Enabled(r, OwnNext(r, l, owed));
    }
  }

  lemma FreeThreadGoesOn(r: Reactor, l: nat)
    requires l < |r.threads| && Inv(r) && Free(r, l)
    ensures var t := r.threads[l];
            || Enabled(r, OwnNext(r, l, |r.threads|))
            || (t.active != [] && t.active[0].Accept? && !(FreshDescriptor(r, t.active[0].fd) && FreshName(r)))
  {
    ThreadIsOk(r, l);
    hide Inv, Owned, FreshDescriptor, FreshName, Tokens, TokensOk, ActivesOk, TodosOk;
    LoopIsAt(r.threads[l].loop);
  }

  lemma LoopIsAt(s: L.Loop<Functor>)
    requires L.LoopInv(s)
    ensures s.batch != [] ==> s.pc == L.Running
  {
  }

  /** A poll may report any registered channel of its loop with any events, the wakeup when it was written, and on
      the base loop the acceptor; alone or together. */
  lemma AnythingRegisteredIsReportable(r: Reactor, l: nat, c: nat, revents: E.Mask)
    requires l < |r.threads| && r.threads[l].loop.pc == L.Polling && Registered(r, c) && r.nodes[c].home == l
    ensures Enabled(r, Poll(l, [Events(c, revents)]))
    ensures r.threads[l].loop.eventfd > 0 ==>
              Enabled(r, Poll(l, [Wakeup, Events(c, revents)])) && Enabled(r, Poll(l, [Wakeup]))
    ensures l == 0 ==> forall fd, wc, hw, mark :: Enabled(r, Poll(l, [Accept(fd, wc, hw, mark), Events(c, revents)]))
  {
  }

  /** Any thread in user code that owes no wakeup may post and quit; and running code may call any connection of
      its own loop that somebody holds. */
  lemma UsersMayCall(r: Reactor, t: nat, l: nat, c: nat, call: C.UserCall, tag: nat)
    requires l < |r.threads| && Free(r, t) && InUserCode(r, t)
    ensures Enabled(r, Post(t, l, User(tag))) && Enabled(r, Quit(t, l))
    ensures c < |r.nodes| && r.nodes[c].home == l && Owned(r, c) ==> Enabled(r, Post(t, l, Callback(c)))
    ensures t == l && r.threads[l].todo != [] && c < |r.nodes| && r.nodes[c].home == l && Owned(r, c) ==>
              Enabled(r, UserCall(l, c, call))
  {
    hide Owned;
  }

  /** A thread is in user code exactly when it runs no loop, or its loop() is not running, or it is in the middle
      of a handler or a functor. */
  lemma InUserCodeIff(r: Reactor, t: nat)
    ensures t >= |r.threads| ==> InUserCode(r, t)
    ensures t < |r.threads| && (r.threads[t].loop.pc == L.Idle || r.threads[t].loop.pc == L.Stopped) ==>
              InUserCode(r, t)
    ensures t < |r.threads| && r.threads[t].loop.pc != L.Idle && r.threads[t].loop.pc != L.Stopped ==>
              (InUserCode(r, t) <==> r.threads[t].todo != [])
  {
  }

  /** The next report is taken off the list; it runs its handlers, with the connection held meanwhile, unless the
      connection is tied and nobody holds it any more: then it does nothing. */
  lemma TieGuardHolds(r: Reactor, l: nat, c: nat, revents: E.Mask)
    requires l < |r.threads| && r.threads[l].active != [] && c < |r.nodes|
    requires r.threads[l].active[0] == Events(c, revents)
    ensures var q := DispatchNext(r, l);
            var t := r.threads[l].(active := r.threads[l].active[1..]);
            q == r.(threads := r.threads[l :=
              if r.nodes[c].conn.tied && !Owned(r, c) then t else t.(todo := Handlers(c, revents) + [Hold(c)])])
  {
    hide Owned, Handlers;
  }

  /** A posted functor goes to the end of that loop's queue and nowhere else. */
  lemma PostEnqueues(r: Reactor, t: nat, l: nat, f: Functor)
    requires Enabled(r, Post(t, l, f))
    ensures var q := Next(r, Post(t, l, f));
            && q.threads[l].loop.pending == r.threads[l].loop.pending + [f]
            && q.threads[l].loop.enqueued == r.threads[l].loop.enqueued + [f]
            && q.nodes == r.nodes && q.table == r.table
            && forall x: nat :: x < |r.threads| && x != l ==> q.threads[x] == r.threads[x]
  {
    hide Owned, Free;
  }
}
