/** The invariant of the whole server, and that every step of every thread keeps it. */
module ReactorProofs {
  import C = ConnectionSpec
  import P = ConnectionProofs
  import O = ConnectionOutput
  import L = LoopSpec
  import S = ServerSpec
  import opened ReactorSpec

  // ----- Tokens -----

  lemma BodiesSnoc(fs: seq<Functor>, f: Functor)
    ensures Bodies(fs + [f]) == Bodies(fs) + [Body(f)]
  {
  }

  lemma BodiesHead(fs: seq<Functor>)
    requires fs != []
    ensures Bodies(fs) == [Body(fs[0])] + Bodies(fs[1..])
  {
  }

  lemma TokensAfterPush(t: Thread, who: nat, f: Functor)
    ensures Tokens(t.(loop := L.Next(t.loop, L.Push(who, f)))) == Tokens(t) + multiset{Body(f)}
  {
    BodiesSnoc(t.loop.pending, f);
    hide Bodies;
  }

  lemma TokensAfterTodo(t: Thread, added: seq<Micro>)
    requires t.todo != []
    ensures Tokens(t.(todo := added + t.todo[1..])) == Tokens(t) - multiset{t.todo[0]} + multiset(added)
    ensures t.todo[0] in Tokens(t)
  {
    assert t.todo == [t.todo[0]] + t.todo[1..];
    hide Bodies;
  }

  lemma TokensAfterSwap(t: Thread)
    requires t.loop.batch == []
    ensures Tokens(t.(loop := L.Next(t.loop, L.SwapPending))) == Tokens(t)
  {
    assert Bodies([]) == [];
    hide Bodies;
  }

  /** The reference that running a functor takes along. */
  function Kept(f: Functor): multiset<Micro> {
    if f.User? then multiset{} else multiset{Hold(f.c)}
  }

  lemma RunningIs(f: Functor)
    ensures multiset(Running(f)) == multiset{Body(f)} + Kept(f)
  {
    assert [Body(f)] + [] == [Body(f)];
    assert multiset([Body(f), Hold(f.c)]) == multiset{Body(f)} + multiset{Hold(f.c)};
  }

  lemma TokensAfterRun(t: Thread)
    requires t.todo == [] && t.loop.batch != []
    ensures var f := t.loop.batch[0];
            Tokens(Thread(L.Next(t.loop, L.RunFunctor), t.active, Running(f))) == Tokens(t) + Kept(f)
  {
    BodiesHead(t.loop.batch);
    RunningIs(t.loop.batch[0]);
    hide Bodies, Running, Kept;
  }

  // ----- The invariant -----

  predicate Closed(node: Node) {
    node.conn.state == C.Disconnected
  }

  /** Established, and connectDestroyed has not run. */
  predicate Live(node: Node) {
    node.conn.state != C.Connecting && !node.conn.hist.destroyed
  }

  predicate IsHandler(m: Micro) {
    m.OnClose? || m.OnRead? || m.OnWrite?
  }

  /** Where a token can be, and what it says of its connection. */
  predicate TokenOk(nodes: seq<Node>, l: nat, m: Micro) {
    Holds(m) ==>
      && Subject(m) < |nodes|
      && var node := nodes[Subject(m)];
         match m
         case RunIn(u, f) =>
           (f.Establish? && l == 0 && u == node.home) || (f.Remove? && l == node.home && u == 0 && Closed(node))
         case QueueIn(u, f) =>
           u == node.home && ((f.Destroy? && l == 0 && Closed(node)) || (f.Callback? && l == node.home))
         case Body(f) => l == (if f.Remove? then 0 else node.home) && (f.Remove? || f.Destroy? ==> Closed(node))
         case Hold(_) => true
         case _ => l == node.home && Live(node)
  }

  /** Handlers run while events are dispatched, and connectDestroyed while functors are called. */
  predicate TodoOk(pc: L.Pc, m: Micro) {
    (IsHandler(m) ==> pc == L.Dispatching) && (m.Body? && m.f.Destroy? ==> pc == L.Running)
  }

  predicate ActiveOk(nodes: seq<Node>, l: nat, a: Active) {
    && (a.Accept? ==> l == 0)
    && (a.Events? ==> a.c < |nodes| && nodes[a.c].home == l && Live(nodes[a.c]))
  }

  ghost predicate TokensOk(nodes: seq<Node>, l: nat, tokens: multiset<Micro>) {
    forall m :: m in tokens ==> TokenOk(nodes, l, m)
  }

  ghost predicate ActivesOk(nodes: seq<Node>, l: nat, active: seq<Active>) {
    forall i :: 0 <= i < |active| ==> ActiveOk(nodes, l, active[i])
  }

  ghost predicate TodosOk(pc: L.Pc, todo: seq<Micro>) {
    forall i :: 0 <= i < |todo| ==> TodoOk(pc, todo[i])
  }

  ghost predicate ThreadOk(nodes: seq<Node>, l: nat, t: Thread) {
    && t.loop.self == l && L.LoopInv(t.loop)
    && (t.todo != [] ==> t.loop.pc == L.Dispatching || t.loop.pc == L.Running)
    && (t.active != [] ==> t.loop.pc == L.Dispatching)
    && TokensOk(nodes, l, Tokens(t)) && TodosOk(t.loop.pc, t.todo) && ActivesOk(nodes, l, t.active)
  }

  /** `base` and `io` are the tokens of the base thread and of the connection's own. There is exactly one
      establishment to come for a connection that is Connecting, and a removed connection has been
      destroyed or is about to be. */
  predicate NodeOk(node: Node, c: nat, removed: bool, base: multiset<Micro>, io: multiset<Micro>) {
    && P.ConnInv(node.conn) && O.HalfCloseSound(node.conn)
    && base[RunIn(node.home, Establish(c))] + io[Body(Establish(c))] ==
         (if node.conn.state == C.Connecting then 1 else 0)
    && (removed ==> Closed(node))
    && (removed && !node.conn.hist.destroyed ==> QueueIn(node.home, Destroy(c)) in base || Body(Destroy(c)) in io)
  }

  ghost predicate NodesOk(r: Reactor) {
    forall c: nat :: c < |r.nodes| ==>
      r.nodes[c].home < |r.threads|
      && NodeOk(r.nodes[c], c, c in r.table.removed, Tokens(r.threads[0]), Tokens(r.threads[r.nodes[c].home]))
  }

  ghost predicate ThreadsOk(r: Reactor) {
    forall l: nat :: l < |r.threads| ==> ThreadOk(r.nodes, l, r.threads[l])
  }

  /** Connections that are not destroyed have descriptors of their own. */
  ghost predicate DistinctFds(nodes: seq<Node>) {
    forall c: nat, d: nat ::
      c < |nodes| && d < |nodes| && !nodes[c].conn.hist.destroyed && !nodes[d].conn.hist.destroyed
          && nodes[c].fd == nodes[d].fd
      ==> c == d
  }

  ghost predicate Inv(r: Reactor) {
    && |r.threads| > 0 && r.table.created == |r.nodes| && S.TableInv(r.table)
    && ThreadsOk(r) && NodesOk(r) && DistinctFds(r.nodes)
  }

  /** A connection that somebody holds has a name of its own, as far as the map goes. */
  ghost predicate NamesOk(r: Reactor) {
    forall c: nat :: c < |r.nodes| && Owned(r, c) ==> S.HasOwnName(r.table, c)
  }

  /** A connection that is not destroyed is owned. */
  lemma LiveIsOwned(r: Reactor, c: nat)
    requires Inv(r) && c < |r.nodes| && !r.nodes[c].conn.hist.destroyed
    ensures Owned(r, c)
  {
    var home := r.nodes[c].home;
    if c !in r.table.removed {
      assert r.table.Contains(c);
    } else if QueueIn(home, Destroy(c)) in Tokens(r.threads[0]) {
      assert Subject(QueueIn(home, Destroy(c))) == c;
    } else {
      assert Body(Destroy(c)) in Tokens(r.threads[home]);
      assert Subject(Body(Destroy(c))) == c;
    }
  }

  // ----- Changing one thread -----

  /** The tokens that NodeOk counts. */
  predicate Special(m: Micro) {
    match m
    case RunIn(_, f) => f.Establish?
    case QueueIn(_, f) => f.Destroy?
    case Body(f) => f.Establish? || f.Destroy?
    case _ => false
  }

  ghost predicate SameSpecials(a: multiset<Micro>, b: multiset<Micro>) {
    forall m :: Special(m) ==> a[m] == b[m]
  }

  lemma NodeOkCarries(node: Node, c: nat, removed: bool, base: multiset<Micro>, io: multiset<Micro>,
                      base': multiset<Micro>, io': multiset<Micro>)
    requires NodeOk(node, c, removed, base, io) && SameSpecials(base, base') && SameSpecials(io, io')
    ensures NodeOk(node, c, removed, base', io')
  {
    assert Special(RunIn(node.home, Establish(c))) && Special(Body(Establish(c)));
    assert Special(QueueIn(node.home, Destroy(c))) && Special(Body(Destroy(c)));
  }

  /** Two books that differ at most about connection `c0`. */
  ghost predicate SameBut(c0: nat, a: multiset<Micro>, b: multiset<Micro>) {
    forall m :: Special(m) && Subject(m) != c0 ==> a[m] == b[m]
  }

  lemma NodeOkCarriesBut(c0: nat, node: Node, c: nat, removed: bool, base: multiset<Micro>, io: multiset<Micro>,
                         base': multiset<Micro>, io': multiset<Micro>)
    requires NodeOk(node, c, removed, base, io) && c != c0 && SameBut(c0, base, base') && SameBut(c0, io, io')
    ensures NodeOk(node, c, removed, base', io')
  {
    assert Special(RunIn(node.home, Establish(c))) && Special(Body(Establish(c)));
    assert Special(QueueIn(node.home, Destroy(c))) && Special(Body(Destroy(c)));
    hide P.ConnInv, O.HalfCloseSound, Closed;
  }

  lemma OthersOk(r: Reactor, q: Reactor, c0: nat)
    requires Inv(r) && |q.threads| == |r.threads| && |r.nodes| <= |q.nodes|
    requires forall c: nat :: c < |r.nodes| && c != c0 ==>
               q.nodes[c] == r.nodes[c] && (c in q.table.removed <==> c in r.table.removed)
    requires forall x: nat :: x < |r.threads| ==> SameBut(c0, Tokens(r.threads[x]), Tokens(q.threads[x]))
    ensures forall c: nat :: c < |r.nodes| && c != c0 ==>
              q.nodes[c].home < |q.threads|
              && NodeOk(q.nodes[c], c, c in q.table.removed, Tokens(q.threads[0]), Tokens(q.threads[q.nodes[c].home]))
  {
    hide ThreadsOk, Tokens, SameBut, S.TableInv, DistinctFds;
    forall c: nat | c < |r.nodes| && c != c0
      ensures q.nodes[c].home < |q.threads|
      ensures NodeOk(q.nodes[c], c, c in q.table.removed, Tokens(q.threads[0]), Tokens(q.threads[q.nodes[c].home]))
    {
      NodeOkCarriesBut(c0, r.nodes[c], c, c in r.table.removed, Tokens(r.threads[0]),
          Tokens(r.threads[r.nodes[c].home]),
                       Tokens(q.threads[0]), Tokens(q.threads[r.nodes[c].home]));
    }
    hide NodeOk;
  }

  lemma ChangeThread(r: Reactor, l: nat, t: Thread)
    requires Inv(r) && l < |r.threads| && ThreadOk(r.nodes, l, t)
    requires SameSpecials(Tokens(r.threads[l]), Tokens(t))
    ensures Inv(SetThread(r, l, t))
  {
    hide ThreadOk, Tokens;
    var q := SetThread(r, l, t);
    forall c: nat | c < |q.nodes|
      ensures NodeOk(q.nodes[c], c, c in q.table.removed, Tokens(q.threads[0]), Tokens(q.threads[q.nodes[c].home]))
    {
      var home := r.nodes[c].home;
      NodeOkCarries(r.nodes[c], c, c in r.table.removed, Tokens(r.threads[0]), Tokens(r.threads[home]),
                    Tokens(q.threads[0]), Tokens(q.threads[home]));
    }
    hide NodeOk;
  }

  // ----- Keeping one thread in order -----

  lemma LoopStepKeepsThread(nodes: seq<Node>, l: nat, t: Thread, step: L.Step<Functor>)
    requires ThreadOk(nodes, l, t) && t.todo == [] && t.active == [] && L.Enabled(t.loop, step)
    requires !step.Push? && !step.RunFunctor?
    ensures var u := t.(loop := L.Next(t.loop, step));
            ThreadOk(nodes, l, u) && Tokens(u) == Tokens(t)
  {
    L.NextKeepsInv(t.loop, step);
    if step.SwapPending? { TokensAfterSwap(t); }
    hide Tokens, TokensOk;
  }

  /** Steps that other threads make, and those inside a handler, that leave queue and place alone. */
  lemma QuietStepKeepsThread(nodes: seq<Node>, l: nat, t: Thread, step: L.Step<Functor>)
    requires ThreadOk(nodes, l, t) && L.Enabled(t.loop, step)
    requires step.StoreQuit? || step.WriteEventfd? || step.ReadEventfd?
    ensures var u := t.(loop := L.Next(t.loop, step));
            ThreadOk(nodes, l, u) && Tokens(u) == Tokens(t)
  {
    L.NextKeepsInv(t.loop, step);
  }

  lemma PushKeepsThread(nodes: seq<Node>, l: nat, t: Thread, who: nat, f: Functor)
    requires ThreadOk(nodes, l, t) && TokenOk(nodes, l, Body(f))
    requires L.Enabled(t.loop, L.Push(who, f))
    ensures var u := t.(loop := L.Next(t.loop, L.Push(who, f)));
            ThreadOk(nodes, l, u) && Tokens(u) == Tokens(t) + multiset{Body(f)}
  {
    L.NextKeepsInv(t.loop, L.Push(who, f));
    TokensAfterPush(t, who, f);
    hide Tokens, TokenOk;
  }

  /** What running code may still have to do. */
  ghost predicate Allowed(nodes: seq<Node>, l: nat, pc: L.Pc, added: seq<Micro>) {
    forall i :: 0 <= i < |added| ==> TokenOk(nodes, l, added[i]) && TodoOk(pc, added[i])
  }

  lemma TodoKeepsThread(nodes: seq<Node>, l: nat, t: Thread, added: seq<Micro>)
    requires ThreadOk(nodes, l, t) && t.todo != [] && Allowed(nodes, l, t.loop.pc, added)
    ensures ThreadOk(nodes, l, t.(todo := added + t.todo[1..]))
    ensures Tokens(t.(todo := added + t.todo[1..])) == Tokens(t) - multiset{t.todo[0]} + multiset(added)
    ensures TokenOk(nodes, l, t.todo[0]) && TodoOk(t.loop.pc, t.todo[0])
  {
    TokensAfterTodo(t, added);
    hide Tokens, TokenOk, TodoOk, L.LoopInv;
  }

  // ----- Specials -----

  ghost predicate NoSpecials(added: seq<Micro>) {
    forall i :: 0 <= i < |added| ==> !Special(added[i])
  }

  lemma ReplaceOrdinary(tokens: multiset<Micro>, m: Micro, added: seq<Micro>)
    requires !Special(m) && NoSpecials(added)
    ensures SameSpecials(tokens, tokens - multiset{m} + multiset(added))
  {
    forall x | Special(x)
      ensures multiset(added)[x] == 0
    {
      assert x !in added;
    }
    hide Special;
  }

  // ----- Changing one connection -----

  lemma HandlersAreInTodo(t: Thread, m: Micro)
    requires IsHandler(m) && m in Tokens(t)
    ensures m in t.todo
  {
  }

  /** What one connection may become while thread `l` runs at `pc`: closed connections stay closed, and
      those the thread handles stay live. */
  predicate NodeCarries(node: Node, node': Node, l: nat, pc: L.Pc) {
    && node'.home == node.home && (Closed(node) ==> Closed(node'))
    && (Live(node) ==> Live(node') || node.home != l || pc == L.Running)
  }

  lemma TokenCarries(nodes: seq<Node>, nodes': seq<Node>, l: nat, pc: L.Pc, m: Micro)
    requires TokenOk(nodes, l, m) && (IsHandler(m) ==> pc == L.Dispatching)
    requires |nodes| <= |nodes'| && (Holds(m) ==> NodeCarries(nodes[Subject(m)], nodes'[Subject(m)], l, pc))
    ensures TokenOk(nodes', l, m)
  {
    hide Closed, Live;
  }

  lemma ThreadOkCarries(nodes: seq<Node>, nodes': seq<Node>, l: nat, t: Thread)
    requires ThreadOk(nodes, l, t) && |nodes| <= |nodes'|
    requires forall c: nat :: c < |nodes| ==> NodeCarries(nodes[c], nodes'[c], l, t.loop.pc)
    ensures ThreadOk(nodes', l, t)
  {
    hide L.LoopInv, Closed, Live, Tokens;
    forall m | m in Tokens(t)
      ensures TokenOk(nodes', l, m)
    {
      assert TokenOk(nodes, l, m);
      if IsHandler(m) {
        HandlersAreInTodo(t, m);
        var i :| 0 <= i < |t.todo| && t.todo[i] == m;
        assert TodoOk(t.loop.pc, t.todo[i]);
      }
      TokenCarries(nodes, nodes', l, t.loop.pc, m);
    }
    hide TokenOk;
  }

  /** What every handler promises of the state it leaves. */
  predicate Follows(d: C.Conn, c: C.Conn) {
    && P.ConnInv(d) && O.HalfCloseSound(d)
    && (d.state == C.Connecting <==> c.state == C.Connecting)
    && (c.state == C.Disconnected ==> d.state == C.Disconnected)
    && d.hist.destroyed == c.hist.destroyed
  }

  lemma ChangeConn(r: Reactor, c: nat, conn: C.Conn)
    requires Inv(r) && c < |r.nodes| && Follows(conn, r.nodes[c].conn)
    ensures Inv(SetConn(r, c, conn))
  {
    hide P.ConnInv, O.HalfCloseSound, Tokens, S.TableInv;
    var q := SetConn(r, c, conn);
    forall l: nat | l < |r.threads|
      ensures ThreadOk(q.nodes, l, q.threads[l])
    {
      ThreadOkCarries(r.nodes, q.nodes, l, r.threads[l]);
    }
    hide ThreadOk;
  }
}
