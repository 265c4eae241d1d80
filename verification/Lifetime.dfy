/** What holds of the whole server in every reachable state, for any interleaving of its threads. */
module Lifetime {
  import opened Prelude
  import B = BufferSpec
  import E = EPollSpec
  import C = ConnectionSpec
  import P = ConnectionProofs
  import O = ConnectionOutput
  import L = LoopSpec
  import S = ServerSpec
  import TP = ThreadPool
  import opened ReactorSpec
  import opened ReactorProofs
  import opened ReactorSteps
  import opened Ownership

  /** The server after a run of `loops` threads. */
  ghost function Reached(loops: nat, setup: Setup, actions: seq<Action>): Reactor
    requires loops > 0 && LegalRun(Start(loops, setup), actions)
  {
    Run(Start(loops, setup), actions)
  }

  lemma ReachedInv(loops: nat, setup: Setup, actions: seq<Action>)
    requires loops > 0 && LegalRun(Start(loops, setup), actions)
    ensures Inv(Reached(loops, setup, actions)) && OwnKeys(Reached(loops, setup, actions))
    ensures Reached(loops, setup, actions).setup == setup
  {
    hide Inv, OwnKeys;
    StartInv(loops, setup);
    StartKeys(loops, setup);
    RunKeepsInv(Start(loops, setup), actions);
  }

  /** An event of connection `c` is still to be handled by thread `l`. */
  ghost predicate EventAhead(r: Reactor, l: nat, c: nat)
    requires l < |r.threads|
  {
    || (exists i :: 0 <= i < |r.threads[l].active| && r.threads[l].active[i].Events? && r.threads[l].active[i].c == c)
    || OnClose(c) in r.threads[l].todo || OnWrite(c) in r.threads[l].todo
    || (exists revents :: OnRead(c, revents) in r.threads[l].todo)
  }

  lemma HandlerIsLive(nodes: seq<Node>, l: nat, t: Thread, m: Micro)
    requires ThreadOk(nodes, l, t) && m in t.todo && IsHandler(m)
    ensures Subject(m) < |nodes| && nodes[Subject(m)].home == l && Live(nodes[Subject(m)])
  {
    hide L.LoopInv, Live, Bodies, ActivesOk, TodosOk;
    assert m in Tokens(t);
    assert TokenOk(nodes, l, m);
  }

  lemma EventAheadIsLive(r: Reactor, l: nat, c: nat)
    requires Inv(r) && l < |r.threads| && EventAhead(r, l, c)
    ensures c < |r.nodes| && r.nodes[c].home == l && Live(r.nodes[c])
  {
    hide NodesOk, ThreadsOk, DistinctFds, S.TableInv, L.LoopInv, Tokens, TokensOk, TodosOk, Live;
    var t := r.threads[l];
    ThreadIsOk(r, l);
    if OnClose(c) in t.todo {
      HandlerIsLive(r.nodes, l, t, OnClose(c));
    } else if OnWrite(c) in t.todo {
      HandlerIsLive(r.nodes, l, t, OnWrite(c));
    } else if revents :| OnRead(c, revents) in t.todo {
      HandlerIsLive(r.nodes, l, t, OnRead(c, revents));
    } else {
      var i :| 0 <= i < |t.active| && t.active[i].Events? && t.active[i].c == c;
      assert ActiveOk(r.nodes, l, t.active[i]);
    }
  }

  /** Every channel in an epoll set, in the part of an active list not yet dispatched, or in the middle of
      its handlers, belongs to a connection that is established, not destroyed, and still owned by the
      connection map, a queued or running functor, or the tie guard: so the guard never fails, and no
      event reaches a destroyed connection. */
  lemma NoEventOutlivesItsConnection(loops: nat, setup: Setup, actions: seq<Action>, l: nat, c: nat)
    requires loops > 0 && LegalRun(Start(loops, setup), actions)
    ensures var r := Reached(loops, setup, actions);
            Registered(r, c) || (l < |r.threads| && EventAhead(r, l, c)) ==>
              c < |r.nodes| && r.nodes[c].conn.state != C.Connecting && !r.nodes[c].conn.hist.destroyed && Owned(r, c)
  {
    var r := Reached(loops, setup, actions);
    ReachedInv(loops, setup, actions);
    hide Inv, EventAhead, Owned, Reached, LegalRun;
    if Registered(r, c) {
      RegisteredIsLive(r, c);
      LiveIsOwned(r, c);
    } else if l < |r.threads| && EventAhead(r, l, c) {
      EventAheadIsLive(r, l, c);
      LiveIsOwned(r, c);
    }
  }

  /** A connection that nobody owns any more has been through connectDestroyed: it is out of the map, and
      its channel is New, out of m_channels and out of every epoll set. */
  lemma DestructionFollowsRemoval(loops: nat, setup: Setup, actions: seq<Action>, c: nat)
    requires loops > 0 && LegalRun(Start(loops, setup), actions)
    requires c < |Reached(loops, setup, actions).nodes| && !Owned(Reached(loops, setup, actions), c)
    ensures var r := Reached(loops, setup, actions);
            var conn := r.nodes[c].conn;
            && conn.hist.destroyed && conn.state == C.Disconnected && !r.table.Contains(c)
            && conn.chan == E.Slice(E.NONE_EVENT, E.New, None, false)
  {
    var r := Reached(loops, setup, actions);
    ReachedInv(loops, setup, actions);
    NodeIsOk(r, c);
    hide Inv, Reached, LegalRun, Tokens, P.StreamsConserved, O.HalfCloseSound;
    if !r.nodes[c].conn.hist.destroyed {
      LiveIsOwned(r, c);
    }
  }

  /** A connection that is Connecting has exactly one establishment ahead, on its way from the base
      thread or on its own loop, and nothing else can be done to it before; after it there is none. */
  lemma EstablishedOnceAndFirst(loops: nat, setup: Setup, actions: seq<Action>, c: nat)
    requires loops > 0 && LegalRun(Start(loops, setup), actions) && c < |Reached(loops, setup, actions).nodes|
    ensures var r := Reached(loops, setup, actions);
            var home := r.nodes[c].home;
            && home < |r.threads|
            && Tokens(r.threads[0])[RunIn(home, Establish(c))] + Tokens(r.threads[home])[Body(Establish(c))]
                 == (if r.nodes[c].conn.state == C.Connecting then 1 else 0)
            && (r.nodes[c].conn.state == C.Connecting ==>
                  r.table.Contains(c) && Body(Destroy(c)) !in Tokens(r.threads[home])
                      && Body(Remove(c)) !in Tokens(r.threads[0]))
  {
    var r := Reached(loops, setup, actions);
    ReachedInv(loops, setup, actions);
    NodeIsOk(r, c);
    OnlyClosedAreRemoved(r, c);
    hide Reached, LegalRun, Tokens, P.ConnInv, O.HalfCloseSound, ThreadsOk, NodesOk, DistinctFds;
  }

  lemma OnlyClosedAreRemoved(r: Reactor, c: nat)
    requires Inv(r) && c < |r.nodes| && r.nodes[c].home < |r.threads|
    ensures Body(Destroy(c)) in Tokens(r.threads[r.nodes[c].home]) || Body(Remove(c)) in Tokens(r.threads[0]) ==>
            Closed(r.nodes[c])
  {
    hide Tokens, NodesOk, ThreadsOk, S.TableInv, DistinctFds, L.LoopInv, Closed;
    var home := r.nodes[c].home;
    ThreadIsOk(r, 0);
    ThreadIsOk(r, home);
    assert Body(Destroy(c)) in Tokens(r.threads[home]) ==> TokenOk(r.nodes, home, Body(Destroy(c)));
    assert Body(Remove(c)) in Tokens(r.threads[0]) ==> TokenOk(r.nodes, 0, Body(Remove(c)));
  }

  lemma TokenIsOk(nodes: seq<Node>, l: nat, t: Thread, m: Micro)
    requires ThreadOk(nodes, l, t)
    ensures m in Tokens(t) ==> TokenOk(nodes, l, m)
  {
    hide Tokens, TokenOk, L.LoopInv, TodosOk, ActivesOk;
  }

  /** Removal and destruction are only ever under way for closed connections, each on its own loop. */
  lemma OnlyClosedAreTakenDown(loops: nat, setup: Setup, actions: seq<Action>, l: nat, c: nat)
    requires loops > 0 && LegalRun(Start(loops, setup), actions) && l < |Reached(loops, setup, actions).threads|
    ensures var r := Reached(loops, setup, actions);
            && (Body(Remove(c)) in Tokens(r.threads[l]) ==>
                 l == 0 && c < |r.nodes| && r.nodes[c].conn.state == C.Disconnected)
            && (Body(Destroy(c)) in Tokens(r.threads[l]) ==>
                  c < |r.nodes| && l == r.nodes[c].home && r.nodes[c].conn.state == C.Disconnected)
  {
    hide Reached, LegalRun, Inv, Tokens, ThreadOk, Run;
    var r := Reached(loops, setup, actions);
    ReachedInv(loops, setup, actions);
    ThreadIsOk(r, l);
    TokenIsOk(r.nodes, l, r.threads[l], Body(Remove(c)));
    TokenIsOk(r.nodes, l, r.threads[l], Body(Destroy(c)));
  }

  /** Channels in epoll sets have distinct descriptors, although the kernel reuses those of destroyed
      connections: this is what the poller's books rest on. */
  lemma RegisteredDescriptorsDistinct(loops: nat, setup: Setup, actions: seq<Action>, c: nat, d: nat)
    requires loops > 0 && LegalRun(Start(loops, setup), actions)
    ensures var r := Reached(loops, setup, actions);
            Registered(r, c) && Registered(r, d) && c != d ==> r.nodes[c].fd != r.nodes[d].fd
  {
    var r := Reached(loops, setup, actions);
    ReachedInv(loops, setup, actions);
    hide Reached, LegalRun, ThreadsOk, NodesOk, S.TableInv;
    if Registered(r, c) && Registered(r, d) {
      RegisteredIsLive(r, c);
      RegisteredIsLive(r, d);
    }
  }

  /** In every reachable state, connections that anybody holds have distinct descriptors, destroyed ones
      included; and a connection that nobody holds any more is never held again. */
  lemma HeldDescriptorsDistinct(loops: nat, setup: Setup, actions: seq<Action>, c: nat, d: nat)
    requires loops > 0 && LegalRun(Start(loops, setup), actions)
    ensures var r := Reached(loops, setup, actions);
            c < |r.nodes| && d < |r.nodes| && c != d && Owned(r, c) && Owned(r, d) ==> r.nodes[c].fd != r.nodes[d].fd
  {
    hide Inv, LegalRun, Reached, Owned, NamesOk;
    ReachedInv(loops, setup, actions);
  }

  /** No loop of the server waits in its poll with m_quit set, or with a functor that another thread, or its
      own inside loop(), enqueued, unless its eventfd is readable or a wakeup write is on its way; and every
      queue is exact. */
  lemma ServerLosesNoWakeup(loops: nat, setup: Setup, actions: seq<Action>, l: nat)
    requires loops > 0 && LegalRun(Start(loops, setup), actions) && l < |Reached(loops, setup, actions).threads|
    ensures var s := Reached(loops, setup, actions).threads[l].loop;
            && (s.pc == L.Polling && (L.Timely in s.early || s.quit) ==> L.Signalled(s))
            && |s.early| == |s.pending| && s.enqueued == s.executed + s.batch + s.pending
  {
    var r := Reached(loops, setup, actions);
    ReachedInv(loops, setup, actions);
    ThreadIsOk(r, l);
    hide Reached, LegalRun, Inv, TokensOk;
  }

  /** No loop thread enqueues on its own loop outside loop(). */
  ghost predicate NoEarlyPosts(r: Reactor, actions: seq<Action>)
    requires LegalRun(r, actions)
    decreases |actions|
  {
    actions != [] ==> !EarlyPost(r, actions[0]) && NoEarlyPosts(Next(r, actions[0]), actions[1..])
  }

  predicate EarlyPost(r: Reactor, a: Action) {
    a.Post? && a.t == a.l && a.l < |r.threads| && r.threads[a.l].todo == []
  }

  ghost predicate NoneEarly(r: Reactor) {
    forall l: nat :: l < |r.threads| ==> L.Early !in r.threads[l].loop.early
  }

  lemma StepIsNotEarly(r: Reactor, l: nat, step: L.Step<Functor>)
    requires NoneEarly(r) && l < |r.threads|
    requires step.Push? && step.t == l ==> r.threads[l].loop.pc == L.Dispatching || r.threads[l].loop.pc == L.Running
    requires r.threads[l].loop.self == l
    ensures NoneEarly(StepLoop(r, l, step))
  {
  }

  /** Loops, and what they are at, are as they were. */
  lemma SameLoopsNotEarly(r: Reactor, q: Reactor)
    requires NoneEarly(r) && |q.threads| == |r.threads|
    requires forall l: nat :: l < |r.threads| ==> q.threads[l].loop.early == r.threads[l].loop.early
    ensures NoneEarly(q)
  {
  }

  lemma PushIsNotEarly(r: Reactor, l: nat, todo: seq<Micro>, u: nat, f: Functor)
    requires l < |r.threads| && r.threads[l].todo != [] && Inv(r) && NoneEarly(r)
    ensures NoneEarly(PushTo(SetTodo(r, l, todo), l, u, f))
  {
    var q := SetTodo(r, l, todo);
    ThreadIsOk(r, l);
    if u < |r.threads| { ThreadIsOk(r, u); }
    hide Inv, Tokens, L.LoopInv, TokensOk, TodosOk, ActivesOk, L.Next;
    SameLoopsNotEarly(r, q);
    if u < |r.threads| { StepIsNotEarly(q, u, L.Push(l, f)); }
  }

  lemma ExecIsNotEarly(r: Reactor, l: nat, read: B.ReadResult, write: B.WriteResult)
    requires l < |r.threads| && r.threads[l].todo != [] && Inv(r) && NoneEarly(r)
    ensures NoneEarly(ExecNext(r, l, read, write))
  {
    hide Inv, Pushes, C.Establish, C.Destroy, C.HandleClose, C.HandleRead, C.HandleWrite, S.Apply, PushTo, Running;
    var m := r.threads[l].todo[0];
    if m.RunIn? || m.QueueIn? { PushIsNotEarly(r, l, r.threads[l].todo[1..], m.loop, m.f); }
  }

  lemma NextIsNotEarly(r: Reactor, a: Action)
    requires Inv(r) && NoneEarly(r) && Enabled(r, a) && !EarlyPost(r, a)
    ensures NoneEarly(Next(r, a))
  {
    hide Inv, Pushes, Owned, Free, C.Call, Handlers, ExecNext;
    hide S.Apply, C.Created, FreshDescriptor, FreshName, Reportable, NextHome, PushTo, Running;
    match a
    case Exec(l, read, write) => ExecIsNotEarly(r, l, read, write);
    case Post(t, l, f) =>
      SelfOfThread(r, l);
      StepIsNotEarly(r, l, L.Push(t, f));
      PushIs(r, t, l, f);
    case _ =>
  }

  lemma PushIs(r: Reactor, t: nat, l: nat, f: Functor)
    requires l < |r.threads|
    ensures PushTo(r, t, l, f) == StepLoop(r, l, L.Push(t, f))
  {
  }

  lemma SelfOfThread(r: Reactor, l: nat)
    requires l < |r.threads| && Inv(r)
    ensures r.threads[l].loop.self == l
    ensures r.threads[l].todo != [] ==> r.threads[l].loop.pc == L.Dispatching || r.threads[l].loop.pc == L.Running
  {
    hide Tokens, NodesOk, S.TableInv, DistinctFds, L.LoopInv, TokensOk;
    ThreadIsOk(r, l);
  }

  lemma {:induction false} RunIsNotEarly(r: Reactor, actions: seq<Action>)
    requires Inv(r) && OwnKeys(r) && NoneEarly(r) && LegalRun(r, actions) && NoEarlyPosts(r, actions)
    ensures NoneEarly(Run(r, actions))
    decreases |actions|
  {
    if actions != [] {
      NextIsNotEarly(r, actions[0]);
      NextKeepsAll(r, actions[0]);
      RunIsNotEarly(Next(r, actions[0]), actions[1..]);
      hide Next, Enabled, Inv, OwnKeys, NoneEarly, EarlyPost;
    }
  }

  /** In runs without such posts no loop of the server waits in its poll with any functor queued, unless its
      eventfd is readable or a wakeup write is on its way. */
  lemma ServerForgetsNoFunctor(loops: nat, setup: Setup, actions: seq<Action>, l: nat)
    requires loops > 0 && LegalRun(Start(loops, setup), actions) && l < |Reached(loops, setup, actions).threads|
    requires NoEarlyPosts(Start(loops, setup), actions)
    ensures var s := Reached(loops, setup, actions).threads[l].loop;
            s.pc == L.Polling && (s.pending != [] || s.quit) ==> L.Signalled(s)
  {
    hide Inv, OwnKeys, LegalRun, Run, NoEarlyPosts;
    StartInv(loops, setup);
    StartKeys(loops, setup);
    RunIsNotEarly(Start(loops, setup), actions);
    ServerLosesNoWakeup(loops, setup, actions, l);
    var s := Reached(loops, setup, actions).threads[l].loop;
    assert s.pending != [] ==> s.early[0] in s.early && (s.early[0] == L.Early || s.early[0] == L.Timely);
  }

  /** The map holds exactly those created and not yet removed. */
  lemma ServerMapExact(loops: nat, setup: Setup, actions: seq<Action>, c: nat)
    requires loops > 0 && LegalRun(Start(loops, setup), actions) && c < |Reached(loops, setup, actions).nodes|
    ensures var r := Reached(loops, setup, actions);
            (r.table.Contains(c) <==> c !in r.table.removed) && r.table.created == |r.nodes|
  {
    ReachedInv(loops, setup, actions);
    hide Reached, LegalRun, ThreadsOk, NodesOk, DistinctFds;
  }

  // ----- Names in use -----

  /** Below 2^32 connections the next name is always fresh. */
  lemma NamesAreFreshBelow(r: Reactor)
    requires Inv(r) && |r.nodes| < S.INT_RANGE
    ensures FreshName(r)
  {
    hide ThreadsOk, NodesOk, DistinctFds, Owned, S.ConnName;
    forall c: nat | c < |r.nodes|
      ensures r.table.NameOf(c) != r.table.NameOf(r.table.created)
    {
      S.NamesDiffer(r.table, c, r.table.created);
    }
  }

  /** Some queued or running code holds the connection. */
  ghost predicate HeldByCode(r: Reactor, c: nat) {
    exists l: nat, m :: l < |r.threads| && m in Tokens(r.threads[l]) && Holds(m) && Subject(m) == c
  }

  /** Without that guard, a new connection takes the last owner from a connection in the map exactly when that
      one has the new name and no code holds it; it stays in the kernel set if it was there. */
  lemma AcceptOrphansIff(r: Reactor, l: nat, a: Active, c: nat)
    requires l < |r.threads| && r.threads[l].todo == [] && a.Accept? && c < |r.nodes|
    requires Inv(r) && r.table.Contains(c)
    ensures var q := NewConnection(r, l, a);
            && c < |q.nodes| && (Registered(q, c) <==> Registered(r, c))
            && (!Owned(q, c) <==> r.table.NameOf(c) == r.table.NameOf(r.table.created) && !HeldByCode(r, c))
  {
    hide ThreadsOk, NodesOk, DistinctFds, S.ConnName, Tokens, NextHome, C.Created;
    var q := NewConnection(r, l, a);
    FilledIsAbout(r.threads[l], q.threads[l], |r.nodes|);
    FilledKeeps(r.threads[l], q.threads[l]);
    if HeldByCode(r, c) {
      var x: nat, m :| x < |r.threads| && m in Tokens(r.threads[x]) && Holds(m) && Subject(m) == c;
      assert m in Tokens(q.threads[x]);
    }
  }

  lemma FilledKeeps(t: Thread, u: Thread)
    requires t.todo == [] && u.loop == t.loop
    ensures forall m :: m in Tokens(t) ==> m in Tokens(u)
  {
    hide Bodies;
  }

  // ----- Round robin -----

  function HomeOf(threads: nat, k: nat): nat {
    if threads <= 1 then 0 else 1 + k % (threads - 1)
  }

  ghost predicate HomesInTurn(r: Reactor) {
    r.turns == |r.nodes| && forall k: nat :: k < |r.nodes| ==> r.nodes[k].home == HomeOf(|r.threads|, k)
  }

  lemma AcceptKeepsHomes(r: Reactor, l: nat)
    requires Enabled(r, Dispatch(l)) && HomesInTurn(r) && r.threads[l].active[0].Accept?
    ensures HomesInTurn(Next(r, Dispatch(l))) && |Next(r, Dispatch(l)).threads| == |r.threads|
  {
    hide S.Apply, Owned, C.Created, FreshDescriptor, FreshName, Free;
  }

  lemma OthersKeepTurns(r: Reactor, a: Action)
    requires Enabled(r, a) && !(a.Dispatch? && r.threads[a.l].active[0].Accept?)
    ensures var q := Next(r, a);
            q.turns == r.turns && |q.threads| == |r.threads| && |q.nodes| == |r.nodes|
  {
    hide L.Next, Pushes, C.Establish, C.Destroy, C.HandleClose, C.HandleRead, C.HandleWrite, C.Call, Handlers;
    hide S.Apply, Owned, C.Created, FreshDescriptor, FreshName, Free, Running, Reportable, L.Enabled, InUserCode;
  }

  lemma NextKeepsHomes(r: Reactor, a: Action)
    requires HomesInTurn(r) && Enabled(r, a)
    ensures HomesInTurn(Next(r, a)) && |Next(r, a).threads| == |r.threads|
  {
    if a.Dispatch? && r.threads[a.l].active[0].Accept? {
      AcceptKeepsHomes(r, a.l);
    } else {
      OthersKeepTurns(r, a);
      NextKeepsIdentity(r, a);
    }
    hide Next, Enabled;
  }

  lemma {:induction false} RunKeepsHomes(r: Reactor, actions: seq<Action>)
    requires HomesInTurn(r) && LegalRun(r, actions)
    ensures HomesInTurn(Run(r, actions)) && |Run(r, actions).threads| == |r.threads|
    decreases |actions|
  {
    if actions != [] {
      NextKeepsHomes(r, actions[0]);
      RunKeepsHomes(Next(r, actions[0]), actions[1..]);
      hide Next, Enabled, HomesInTurn;
    }
  }

  /** The k-th connection lives on io loop k mod n, or on the base loop when there are no others. */
  lemma ConnectionsInTurn(loops: nat, setup: Setup, actions: seq<Action>, k: nat)
    requires loops > 0 && LegalRun(Start(loops, setup), actions) && k < |Reached(loops, setup, actions).nodes|
    ensures Reached(loops, setup, actions).nodes[k].home == if loops == 1 then 0 else 1 + k % (loops - 1)
  {
    RunKeepsHomes(Start(loops, setup), actions);
    hide LegalRun, Run;
  }

  function ConnectionsOn(nodes: seq<Node>, l: nat): nat {
    if nodes == [] then 0 else
    ConnectionsOn(nodes[..|nodes| - 1], l) + (if nodes[|nodes| - 1].home == l then 1 else 0)
  }

  lemma {:induction false} HomesAreTurns(nodes: seq<Node>, n: nat, i: nat)
    requires i < n && forall k: nat :: k < |nodes| ==> nodes[k].home == 1 + k % n
    ensures ConnectionsOn(nodes, 1 + i) == TP.Turns(n, i, |nodes|)
    decreases |nodes|
  {
    if nodes != [] {
      HomesAreTurns(nodes[..|nodes| - 1], n, i);
    }
  }

  /** Whatever the run, each io loop has been given the floor or the ceiling of its share of the connections,
      the earlier loops the ceiling. */
  lemma ConnectionsBalanced(loops: nat, setup: Setup, actions: seq<Action>, i: nat)
    requires loops > 1 && i < loops - 1 && LegalRun(Start(loops, setup), actions)
    ensures var nodes := Reached(loops, setup, actions).nodes;
            ConnectionsOn(nodes, 1 + i) == |nodes| / (loops - 1) + (if i < |nodes| % (loops - 1) then 1 else 0)
  {
    hide LegalRun, Run, ConnectionsOn;
    RunKeepsHomes(Start(loops, setup), actions);
    var nodes := Reached(loops, setup, actions).nodes;
    HomesAreTurns(nodes, loops - 1, i);
    TP.RoundRobinBalanced(loops - 1, i, |nodes|);
  }
}
