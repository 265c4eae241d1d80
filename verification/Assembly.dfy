/** The poller of each loop of the server, put together from what each channel knows of itself. */
module Assembly {
  import opened Prelude
  import B = BufferSpec
  import E = EPollSpec
  import K = PollerBooks
  import H = PollerShares
  import C = ConnectionSpec
  import P = ConnectionProofs
  import O = ConnectionOutput
  import opened ReactorSpec
  import opened ReactorProofs
  import opened ReactorSteps
  import opened Ownership
  import opened Lifetime
  import TD = Teardown
  import N = Stories

  /** The channels a loop may have: of connections, the one it wakes up by, and the acceptor's. */
  datatype Key = OfConn(c: nat) | OfWakeup | OfAcceptor

  // ----- What one action does to a channel -----

  /** What a mask change or a removal makes of a channel. */
  ghost predicate ChangedBy(chan: E.Slice, op: E.Op<Key>, chan': E.Slice) {
    match op
    case Set(_, change) => chan' == E.SliceSet(chan, E.Changed(change, chan.events))
    case Remove(_) => chan' == E.SliceRemove(chan)
    case _ => false
  }

  /** One mask change, one removal, or nothing. */
  ghost predicate ChangedOnce(chan: E.Slice, c: nat, chan': E.Slice) {
    || chan' == chan
    || (exists change: E.Change :: ChangedBy(chan, E.Set(OfConn(c), change), chan'))
    || ChangedBy(chan, E.Remove(OfConn(c)), chan')
  }

  lemma SetChanges(conn: C.Conn, c: nat, change: E.Change)
    ensures ChangedOnce(conn.chan, c, C.SetMask(conn, change).chan)
  {
    assert ChangedBy(conn.chan, E.Set(OfConn(c), change), C.SetMask(conn, change).chan);
  }

  lemma SendChangesOnce(conn: C.Conn, c: nat, msg: seq<Byte>, answer: B.WriteResult)
    ensures ChangedOnce(conn.chan, c, C.SendInLoop(conn, msg, answer).c.chan)
  {
    hide ChangedOnce, E.Has, E.SliceSet, E.Changed, B.Append;
    SetChanges(conn, c, E.EnableWriting);
    assert ChangedOnce(conn.chan, c, conn.chan) by { Unchanged(conn.chan, c); }
  }

  lemma Unchanged(chan: E.Slice, c: nat)
    ensures ChangedOnce(chan, c, chan)
  {
  }

  lemma WriteChangesOnce(conn: C.Conn, c: nat, answer: B.WriteResult)
    ensures ChangedOnce(conn.chan, c, C.HandleWrite(conn, answer).c.chan)
  {
    hide ChangedOnce, E.Has, E.SliceSet, E.Changed, B.Retrieve;
    SetChanges(conn, c, E.DisableWriting);
    Unchanged(conn.chan, c);
  }

  lemma StepChangesOnce(conn: C.Conn, c: nat, step: C.Step)
    requires conn.input.Valid() && O.OnLoop(step)
    requires (step.ReadStep? ==> step.calls == []) && (step.DestroyStep? ==> conn.state == C.Disconnected)
    ensures ChangedOnce(conn.chan, c, C.Next(conn, step).c.chan)
  {
    Unchanged(conn.chan, c);
    match step
    case EstablishStep => SetChanges(conn, c, E.EnableReading); hide ChangedOnce, E.SliceSet, E.Changed;
    case CloseStep => SetChanges(conn, c, E.DisableAll); hide ChangedOnce, E.SliceSet, E.Changed;
    case ReadStep(_, _) => SetChanges(conn, c, E.DisableAll); hide ChangedOnce, E.SliceSet, E.Changed, B.ReadFd;
    case WriteStep(answer) => WriteChangesOnce(conn, c, answer);
    case CallStep(call) =>
      if call.SendCall? { SendChangesOnce(conn, c, call.msg, call.answer); }
      hide ChangedOnce, E.SliceSet, E.Changed, C.SendInLoop, B.Retrieve;
    case DestroyStep => assert ChangedBy(conn.chan, E.Remove(OfConn(c)), C.Next(conn, step).c.chan);
  }

  /** In the server a connection is destroyed only when it is closed, and reads run its calls apart. */
  lemma StepsAreSingle(r: Reactor, a: Action, c: nat, step: C.Step)
    requires c < |r.nodes| && Inv(r) && Enabled(r, a) && N.StepOf(r, a, c) == Some(step)
    ensures (step.ReadStep? ==> step.calls == []) && (step.DestroyStep? ==> r.nodes[c].conn.state == C.Disconnected)
    ensures About(r, a, c)
  {
    hide Inv, Owned, Free, Tokens;
    if a.Exec? { TD.HeadTarget(r, a.l); }
  }

  lemma ActionChangesOnce(r: Reactor, a: Action, c: nat)
    requires c < |r.nodes| && Inv(r) && Enabled(r, a)
    ensures c < |Next(r, a).nodes| && ChangedOnce(r.nodes[c].conn.chan, c, Next(r, a).nodes[c].conn.chan)
    ensures !About(r, a, c) ==> Next(r, a).nodes[c].conn.chan == r.nodes[c].conn.chan
  {
    hide Inv, Next, Enabled, N.StepOf, About, ChangedOnce, C.Next;
    N.ActionIsLived(r, a, c);
    match N.StepOf(r, a, c)
    case None => Unchanged(r.nodes[c].conn.chan, c);
    case Some(step) =>
      StepsAreSingle(r, a, c, step);
      StepChangesOnce(r.nodes[c].conn, c, step);
  }

  lemma AboutOne(r: Reactor, a: Action, c: nat, d: nat)
    requires About(r, a, c) && About(r, a, d)
    ensures c == d
  {
  }

  // ----- The poller of a loop -----

  /** The connections whose channels loop `l` may know: on that loop, and somebody holds them. */
  ghost predicate Knows(r: Reactor, l: nat, c: nat) {
    c < |r.nodes| && r.nodes[c].home == l && Owned(r, c)
  }

  /** A channel that is there from the start, is reading, and stays so. */
  const READING := E.Slice(E.READ_EVENT, E.Added, Some(E.READ_EVENT), true)

  ghost function OwnKeysOf(r: Reactor, l: nat): set<Key> {
    (if l < |r.setup.wakeFds| then {OfWakeup} else {}) + (if l == 0 then {OfAcceptor} else {})
  }

  ghost function ConnKeys(r: Reactor, l: nat): set<Key> {
    set c: nat | c < |r.nodes| && Knows(r, l, c) :: OfConn(c)
  }

  /** The channels of loop `l`: its own, and those of these connections. */
  ghost function SharesAmong(r: Reactor, l: nat, keys: set<Key>): H.Shares<Key> {
    map k | k in keys && (k.OfConn? ==> k.c < |r.nodes|) ::
      match k
      case OfConn(c) => H.Share(r.nodes[c].fd, r.nodes[c].conn.chan)
      case OfWakeup => H.Share(if l < |r.setup.wakeFds| then r.setup.wakeFds[l] else 0, READING)
      case OfAcceptor => H.Share(r.setup.acceptFd, READING)
  }

  ghost function SharesOf(r: Reactor, l: nat): H.Shares<Key> {
    SharesAmong(r, l, ConnKeys(r, l) + OwnKeysOf(r, l))
  }

  ghost function PollerOf(r: Reactor, l: nat): E.Poller<Key> {
    H.PollerOf(SharesOf(r, l))
  }

  /** The acceptor has a descriptor of its own. */
  predicate SetupOk(setup: Setup) {
    setup.acceptFd !in setup.wakeFds
  }

  lemma SliceIsValid(r: Reactor, c: nat)
    requires c < |r.nodes| && Inv(r)
    ensures r.nodes[c].conn.chan.Valid()
  {
    hide Tokens, Inv, P.StreamsConserved, P.StackAgrees, P.CallbacksCounted;
    NodeIsOk(r, c);
  }

  lemma SharesAreBookable(r: Reactor, l: nat)
    requires Inv(r) && OwnKeys(r) && SetupOk(r.setup)
    ensures H.Bookable(SharesOf(r, l))
  {
    hide Inv, Owned, E.Slice.Valid, NamesOk;
    assert READING.Valid() by { ReadingIsValid(); }
    forall k | k in SharesOf(r, l)
      ensures SharesOf(r, l)[k].slice.Valid()
    {
      if k.OfConn? { SliceIsValid(r, k.c); }
    }
  }

  lemma ReadingIsValid()
    ensures READING.Valid()
  {
  }

  // ----- One action -----

  /** At most one operation on a channel, and then at most one channel dropped. */
  ghost predicate StepsTo(p: E.Poller<Key>, q: E.Poller<Key>) {
    exists ops: seq<E.Op<Key>> ::
      |ops| <= 2 && (forall i :: 0 < i < |ops| ==> ops[i].Drop?) && E.LegalRun(p, ops) && K.SameBooks(E.Run(p, ops), q)
  }

  /** `ops`, at most one, take `p` to `q`. */
  ghost predicate OneOp(p: E.Poller<Key>, ops: seq<E.Op<Key>>, q: E.Poller<Key>) {
    if ops == [] then K.SameBooks(p, q)
    else |ops| == 1 && E.Legal(p, ops[0]) && K.SameBooks(E.Apply(p, ops[0]), q)
  }

  lemma OneOpRuns(p: E.Poller<Key>, ops: seq<E.Op<Key>>, q: E.Poller<Key>)
    requires OneOp(p, ops, q)
    ensures E.LegalRun(p, ops) && K.SameBooks(E.Run(p, ops), q)
  {
    hide E.Apply, E.Legal, K.SameBooks;
    if ops != [] {
      assert ops[1..] == [];
      assert E.Run(E.Apply(p, ops[0]), ops[1..]) == E.Apply(p, ops[0]);
    }
  }

  lemma TwoSteps(p: E.Poller<Key>, first: seq<E.Op<Key>>, m: E.Poller<Key>, second: seq<E.Op<Key>>, q: E.Poller<Key>)
    requires OneOp(p, first, m) && OneOp(m, second, q) && (second != [] ==> second[0].Drop?)
    ensures StepsTo(p, q)
  {
    OneOpRuns(p, first, m);
    OneOpRuns(m, second, q);
    hide E.Apply, E.Legal, K.SameBooks, E.Run, E.LegalRun;
    K.SameBooksRun(E.Run(p, first), m, second);
    K.RunInTwo(p, first, second);
    K.SameBooksTransitive(E.Run(E.Run(p, first), second), E.Run(m, second), q);
    assert E.LegalRun(p, first + second) && K.SameBooks(E.Run(p, first + second), q);
  }

  /** The channels of loop `l` after an action, before any is dropped. */
  ghost function Between(r: Reactor, a: Action, l: nat): H.Shares<Key>
    requires Enabled(r, a)
  {
    var q := Next(r, a);
    var added := if |q.nodes| > |r.nodes| && q.nodes[|r.nodes|].home == l then {OfConn(|r.nodes|)} else {};
    SharesAmong(q, l, ConnKeys(r, l) + added + OwnKeysOf(r, l))
  }

  /** The connections of loop `l`, and what they are to it, differ at most in the channel of `c`. */
  lemma BetweenChanges(r: Reactor, a: Action, l: nat, c: nat)
    requires Inv(r) && Enabled(r, a) && OfConn(c) in SharesOf(r, l)
    requires |Next(r, a).nodes| == |r.nodes|
    requires forall d: nat :: d < |r.nodes| && d != c ==> Next(r, a).nodes[d].conn.chan == r.nodes[d].conn.chan
    ensures Between(r, a, l) ==
              SharesOf(r, l)[OfConn(c) := H.Share(SharesOf(r, l)[OfConn(c)].fd, Next(r, a).nodes[c].conn.chan)]
  {
    hide Inv, Owned, Next, Enabled;
    NextKeepsIdentity(r, a);
  }

  lemma BetweenStays(r: Reactor, a: Action, l: nat)
    requires Inv(r) && Enabled(r, a) && |r.nodes| <= |Next(r, a).nodes| <= |r.nodes| + 1
    requires forall d: nat :: d < |r.nodes| && Knows(r, l, d) ==> Next(r, a).nodes[d].conn.chan == r.nodes[d].conn.chan
    requires |Next(r, a).nodes| > |r.nodes| ==> Next(r, a).nodes[|r.nodes|].conn.chan == E.UNREGISTERED
    ensures var q := Next(r, a);
            Between(r, a, l) ==
              if |q.nodes| > |r.nodes| && q.nodes[|r.nodes|].home == l
              then SharesOf(r, l)[OfConn(|r.nodes|) := H.Share(q.nodes[|r.nodes|].fd, E.UNREGISTERED)]
              else SharesOf(r, l)
  {
    hide Inv, Owned, Next, Enabled;
    NextKeepsIdentity(r, a);
  }

  /** A new connection's descriptor is no other channel's. */
  lemma NewIsBookable(r: Reactor, l: nat, fd: int)
    requires Inv(r) && H.Bookable(SharesOf(r, l)) && FreshDescriptor(r, fd)
    ensures H.Bookable(SharesOf(r, l)[OfConn(|r.nodes|) := H.Share(fd, E.UNREGISTERED)])
  {
    hide Inv, Owned, E.Slice.Valid;
    assert E.UNREGISTERED.Valid() by { UnregisteredIsValid(); }
  }

  lemma UnregisteredIsValid()
    ensures E.UNREGISTERED.Valid()
  {
  }

  /** What the action does to the channels of loop `l`. */
  lemma ChannelsChange(r: Reactor, a: Action, l: nat) returns (ops: seq<E.Op<Key>>)
    requires Inv(r) && OwnKeys(r) && SetupOk(r.setup) && Enabled(r, a)
    ensures H.Bookable(Between(r, a, l)) && OneOp(PollerOf(r, l), ops, H.PollerOf(Between(r, a, l)))
  {
    hide Inv, Owned, OwnKeys, Next, Enabled, H.Bookable, E.Legal, E.Apply, K.SameBooks, H.PollerOf, Between, SharesOf;
    hide ChangedOnce, FreshDescriptor, FreshName, E.SliceSet, E.Changed, E.SliceRemove;
    var q := Next(r, a);
    SharesAreBookable(r, l);
    NextKeepsIdentity(r, a);
    if c: nat :| c < |r.nodes| && Knows(r, l, c) && q.nodes[c].conn.chan != r.nodes[c].conn.chan {
      ops := OneChannelChanges(r, a, l, c);
    } else {
      if |q.nodes| > |r.nodes| { NewIsUnregistered(r, a); AcceptIsFresh(r, a); }
      BetweenStays(r, a, l);
      if |q.nodes| > |r.nodes| && q.nodes[|r.nodes|].home == l {
        var fd := q.nodes[|r.nodes|].fd;
        NewIsBookable(r, l, fd);
        NewIsUnknown(r, l);
        H.NewIsCreate(SharesOf(r, l), OfConn(|r.nodes|), fd);
        ops := [E.Create(OfConn(|r.nodes|), fd)];
      } else {
        ops := [];
        SameBooksRefl(PollerOf(r, l));
      }
    }
  }

  lemma SameBooksRefl(p: E.Poller<Key>)
    ensures K.SameBooks(p, p)
  {
  }

  lemma NewIsUnknown(r: Reactor, l: nat)
    ensures OfConn(|r.nodes|) !in SharesOf(r, l)
  {
  }

  lemma OneChannelChanges(r: Reactor, a: Action, l: nat, c: nat) returns (ops: seq<E.Op<Key>>)
    requires Enabled(r, a) && c < |r.nodes| <= |Next(r, a).nodes| && Knows(r, l, c)
    requires Next(r, a).nodes[c].conn.chan != r.nodes[c].conn.chan && Inv(r) && H.Bookable(SharesOf(r, l))
    ensures H.Bookable(Between(r, a, l)) && OneOp(PollerOf(r, l), ops, H.PollerOf(Between(r, a, l)))
  {
    hide Inv, Owned, Next, Enabled, H.Bookable, E.Legal, E.Apply, K.SameBooks, H.PollerOf, Between;
    hide E.SliceSet, E.Changed, E.SliceRemove;
    ActionChangesOnce(r, a, c);
    OnlyOneChanges(r, a, c);
    NoneIsNew(r, a, c);
    BetweenChanges(r, a, l, c);
    var chan, chan' := r.nodes[c].conn.chan, Next(r, a).nodes[c].conn.chan;
    var shares := SharesOf(r, l);
    assert OfConn(c) in shares && shares[OfConn(c)].slice == chan by { KnownIsShare(r, l, c); }
    hide SharesOf, ChangedBy;
    if change: E.Change :| ChangedBy(chan, E.Set(OfConn(c), change), chan') {
      ops := [E.Set(OfConn(c), change)];
      ChangeIs(chan, OfConn(c), change, chan');
      H.SetIsSet(shares, OfConn(c), change);
    } else {
      ops := [E.Remove(OfConn(c))];
      ChangeIs(chan, OfConn(c), E.DisableAll, chan');
      H.RemoveIsRemove(shares, OfConn(c));
    }
  }

  lemma KnownIsShare(r: Reactor, l: nat, c: nat)
    requires Knows(r, l, c)
    ensures OfConn(c) in SharesOf(r, l) && SharesOf(r, l)[OfConn(c)] == H.Share(r.nodes[c].fd, r.nodes[c].conn.chan)
  {
    hide Owned;
    assert OfConn(c) in ConnKeys(r, l);
  }

  lemma ChangeIs(chan: E.Slice, k: Key, change: E.Change, chan': E.Slice)
    ensures ChangedBy(chan, E.Set(k, change), chan') ==> chan' == E.SliceSet(chan, E.Changed(change, chan.events))
    ensures ChangedBy(chan, E.Remove(k), chan') ==> chan' == E.SliceRemove(chan)
  {
  }

  lemma OnlyOneChanges(r: Reactor, a: Action, c: nat)
    requires Enabled(r, a) && c < |r.nodes| <= |Next(r, a).nodes|
    requires Next(r, a).nodes[c].conn.chan != r.nodes[c].conn.chan && Inv(r)
    ensures forall d: nat :: d < |r.nodes| && d != c ==> Next(r, a).nodes[d].conn.chan == r.nodes[d].conn.chan
  {
    hide Inv, Next, Enabled, About;
    NextKeepsIdentity(r, a);
    ActionChangesOnce(r, a, c);
    forall d: nat | d < |r.nodes| && d != c
      ensures Next(r, a).nodes[d].conn.chan == r.nodes[d].conn.chan
    {
      ActionChangesOnce(r, a, d);
      if About(r, a, d) { AboutOne(r, a, c, d); }
    }
  }

  /** An action that makes a connection changes no channel. */
  lemma NoneIsNew(r: Reactor, a: Action, c: nat)
    requires Enabled(r, a) && c < |r.nodes| <= |Next(r, a).nodes|
    requires Next(r, a).nodes[c].conn.chan != r.nodes[c].conn.chan && Inv(r)
    ensures |Next(r, a).nodes| == |r.nodes|
  {
    hide Inv, Next, Enabled, About;
    NextKeepsIdentity(r, a);
    ActionChangesOnce(r, a, c);
    if |Next(r, a).nodes| > |r.nodes| { AcceptIsAboutNew(r, a, c); }
  }

  lemma AcceptIsAboutNew(r: Reactor, a: Action, c: nat)
    requires Enabled(r, a) && a.Dispatch? && r.threads[a.l].active[0].Accept?
    ensures About(r, a, c) <==> c == |r.nodes|
  {
    hide Owned, Free, FreshDescriptor;
  }

  lemma NewIsUnregistered(r: Reactor, a: Action)
    requires Inv(r) && Enabled(r, a) && |Next(r, a).nodes| > |r.nodes|
    ensures Next(r, a).nodes[|r.nodes|].conn.chan == E.UNREGISTERED
  {
    hide Inv, Next, Enabled, C.LegalSteps;
    N.NewIsCreated(r, a, |r.nodes|);
  }

  /** What is dropped: at most the connection whose task was done, and its channel is New. */
  lemma ChannelsLost(r: Reactor, a: Action, l: nat) returns (ops: seq<E.Op<Key>>)
    requires Inv(r) && OwnKeys(r) && Enabled(r, a) && H.Bookable(Between(r, a, l))
    ensures OneOp(H.PollerOf(Between(r, a, l)), ops, PollerOf(Next(r, a), l))
    ensures ops != [] ==> ops[0].Drop?
  {
    hide Inv, OwnKeys, Next, Enabled, H.Bookable, Owned, E.Legal, E.Apply, K.SameBooks, H.PollerOf, Between, SharesOf;
    var q := Next(r, a);
    NextKeepsIdentity(r, a);
    if c: nat :| c < |q.nodes| && OfConn(c) in Between(r, a, l) && !Knows(q, l, c) {
      ops := [E.Drop(OfConn(c))];
      LostIsNew(r, a, l, c);
      AfterLoss(r, a, l, c);
      H.LostIsDrop(Between(r, a, l), OfConn(c));
    } else {
      ops := [];
      AfterNoLoss(r, a, l);
      SameBooksRefl(PollerOf(q, l));
    }
  }

  /** Who may be known to loop `l` after an action was known before, or is new. */
  lemma KnownBetween(r: Reactor, a: Action, l: nat)
    requires Inv(r) && Enabled(r, a)
    ensures forall c: nat :: Knows(Next(r, a), l, c) ==> OfConn(c) in Between(r, a, l)
    ensures forall c: nat :: OfConn(c) in Between(r, a, l) ==>
              c < |Next(r, a).nodes| && Next(r, a).nodes[c].home == l && (c < |r.nodes| ==> Owned(r, c))
  {
    hide Inv, Next, Enabled, Owned;
    NextKeepsIdentity(r, a);
    forall c: nat | Knows(Next(r, a), l, c)
      ensures OfConn(c) in Between(r, a, l)
    {
      if c < |r.nodes| {
        NextOwned(r, a, c);
        assert OfConn(c) in ConnKeys(r, l);
      }
    }
  }

  lemma AfterNoLoss(r: Reactor, a: Action, l: nat)
    requires Inv(r) && Enabled(r, a)
    requires forall c: nat :: c < |Next(r, a).nodes| && OfConn(c) in Between(r, a, l) ==> Knows(Next(r, a), l, c)
    ensures SharesOf(Next(r, a), l) == Between(r, a, l)
  {
    hide Inv, Next, Enabled, Owned;
    NextKeepsIdentity(r, a);
    KnownBetween(r, a, l);
    var q := Next(r, a);
    forall k: Key
      ensures k in SharesOf(q, l) <==> k in Between(r, a, l)
    {
      if k.OfConn? && k in Between(r, a, l) { assert k in ConnKeys(q, l); }
    }
  }

  lemma AfterLoss(r: Reactor, a: Action, l: nat, c: nat)
    requires Inv(r) && OwnKeys(r) && Enabled(r, a) && OfConn(c) in Between(r, a, l) && !Knows(Next(r, a), l, c)
    ensures SharesOf(Next(r, a), l) == Between(r, a, l) - {OfConn(c)}
  {
    hide Inv, OwnKeys, Next, Enabled, Owned;
    NextKeepsIdentity(r, a);
    KnownBetween(r, a, l);
    var q := Next(r, a);
    forall k: Key
      ensures k in SharesOf(q, l) <==> k in Between(r, a, l) - {OfConn(c)}
    {
      if k.OfConn? && k.c != c && k in Between(r, a, l) {
        LostIsOne(r, a, l, c, k.c);
        assert k in ConnKeys(q, l);
      }
    }
  }

  lemma LostIsOne(r: Reactor, a: Action, l: nat, c: nat, d: nat)
    requires Inv(r) && OwnKeys(r) && Enabled(r, a) && d != c
    requires OfConn(c) in Between(r, a, l) && !Knows(Next(r, a), l, c) && OfConn(d) in Between(r, a, l)
    ensures Knows(Next(r, a), l, d)
  {
    hide Inv, Next, Enabled, Owned, Between, NamesOk, OwnFds;
    KnownBetween(r, a, l);
    NewIsHeld(r, a);
    if !Owned(Next(r, a), d) {
      TD.OnlyItsOwnIsLost(r, a, c);
      TD.OnlyItsOwnIsLost(r, a, d);
    }
  }

  lemma NewIsHeld(r: Reactor, a: Action)
    requires Inv(r) && OwnKeys(r) && Enabled(r, a)
    ensures forall c: nat :: |r.nodes| <= c < |Next(r, a).nodes| ==> Owned(Next(r, a), c)
  {
    hide Inv, OwnKeys, Next, Enabled, Owned;
    var q := Next(r, a);
    NextKeepsAll(r, a);
    forall c: nat | |r.nodes| <= c < |q.nodes|
      ensures Owned(q, c)
    {
      N.NewIsCreated(r, a, c);
      LiveIsOwned(q, c);
    }
  }

  lemma LostIsNew(r: Reactor, a: Action, l: nat, c: nat)
    requires Inv(r) && OwnKeys(r) && Enabled(r, a) && OfConn(c) in Between(r, a, l) && !Knows(Next(r, a), l, c)
    ensures Between(r, a, l)[OfConn(c)].slice.status == E.New
  {
    hide Inv, OwnKeys, Next, Enabled, Owned;
    var q := Next(r, a);
    NextKeepsAll(r, a);
    KnownBetween(r, a, l);
    if !q.nodes[c].conn.hist.destroyed { LiveIsOwned(q, c); }
    DestroyedIsNew(q, c);
  }

  lemma DestroyedIsNew(r: Reactor, c: nat)
    requires c < |r.nodes| && Inv(r)
    ensures r.nodes[c].conn.hist.destroyed ==> r.nodes[c].conn.chan.status == E.New
  {
    hide Tokens, Inv, P.StreamsConserved, P.StackAgrees, P.CallbacksCounted, O.HalfCloseSound;
    NodeIsOk(r, c);
  }

  /** Every action of the server is, for the poller of each loop, at most one channel operation and then at
      most one channel dropped, all of them legal: the mask changes a connection makes by itself are those
      the poller makes for it, also when a destroyed connection is removed once more. */
  lemma ServerStepsArePollerSteps(r: Reactor, a: Action, l: nat)
    requires Inv(r) && OwnKeys(r) && SetupOk(r.setup) && Enabled(r, a)
    ensures StepsTo(PollerOf(r, l), PollerOf(Next(r, a), l))
  {
    hide Inv, OwnKeys, Next, Enabled, H.Bookable, OneOp, StepsTo, Owned, H.PollerOf, Between, SharesOf;
    var first := ChannelsChange(r, a, l);
    var second := ChannelsLost(r, a, l);
    TwoSteps(PollerOf(r, l), first, H.PollerOf(Between(r, a, l)), second, PollerOf(Next(r, a), l));
  }

  // ----- Runs -----

  /** Some legal run of channel operations from an empty poller leads to `p`. */
  ghost predicate Kept(p: E.Poller<Key>) {
    exists ops: seq<E.Op<Key>> :: E.LegalRun(E.Empty<Key>(), ops) && K.SameBooks(E.Run(E.Empty<Key>(), ops), p)
  }

  lemma KeptStep(p: E.Poller<Key>, q: E.Poller<Key>)
    requires Kept(p) && StepsTo(p, q)
    ensures Kept(q)
  {
    hide E.Run, E.LegalRun, K.SameBooks;
    var ops: seq<E.Op<Key>> :| E.LegalRun(E.Empty<Key>(), ops) && K.SameBooks(E.Run(E.Empty<Key>(), ops), p);
    var more: seq<E.Op<Key>> :| E.LegalRun(p, more) && K.SameBooks(E.Run(p, more), q);
    K.SameBooksRun(E.Run(E.Empty<Key>(), ops), p, more);
    K.RunInTwo(E.Empty<Key>(), ops, more);
    K.SameBooksTransitive(E.Run(E.Run(E.Empty<Key>(), ops), more), E.Run(p, more), q);
    assert E.LegalRun(E.Empty<Key>(), ops + more) && K.SameBooks(E.Run(E.Empty<Key>(), ops + more), q);
  }

  lemma {:induction false} RunKeepsKept(r: Reactor, actions: seq<Action>, l: nat)
    requires Inv(r) && OwnKeys(r) && SetupOk(r.setup) && LegalRun(r, actions) && Kept(PollerOf(r, l))
    ensures Kept(PollerOf(Run(r, actions), l))
    decreases |actions|
  {
    if actions != [] {
      hide Next, Enabled, Inv, OwnKeys, Kept, PollerOf, StepsTo;
      NextKeepsAll(r, actions[0]);
      ServerStepsArePollerSteps(r, actions[0], l);
      KeptStep(PollerOf(r, l), PollerOf(Next(r, actions[0]), l));
      RunKeepsKept(Next(r, actions[0]), actions[1..], l);
    }
  }

  lemma KeptOp(p: E.Poller<Key>, op: E.Op<Key>, q: E.Poller<Key>)
    requires Kept(p) && E.Legal(p, op) && K.SameBooks(E.Apply(p, op), q)
    ensures Kept(q)
  {
    hide Kept, E.Legal, E.Apply, K.SameBooks, StepsTo;
    SameBooksRefl(q);
    TwoSteps(p, [op], q, [], q);
    KeptStep(p, q);
  }

  /** The channel of a loop's wakeup, and the acceptor's: made, and set to reading. */
  lemma KeptReading(shares: H.Shares<Key>, k: Key, fd: int)
    requires Kept(H.PollerOf(shares)) && k !in shares && H.Bookable(shares)
    requires forall j :: j in shares ==> shares[j].fd != fd
    ensures H.Bookable(shares[k := H.Share(fd, READING)]) && Kept(H.PollerOf(shares[k := H.Share(fd, READING)]))
  {
    hide Kept, H.PollerOf, E.Legal, E.Apply, K.SameBooks, E.Slice.Valid;
    var made := shares[k := H.Share(fd, E.UNREGISTERED)];
    UnregisteredIsValid();
    assert H.Bookable(made);
    H.NewIsCreate(shares, k, fd);
    KeptOp(H.PollerOf(shares), E.Create(k, fd), H.PollerOf(made));
    H.SetIsSet(made, k, E.EnableReading);
    ReadingIsSet();
    assert made[k := H.Share(fd, READING)] == shares[k := H.Share(fd, READING)];
    KeptOp(H.PollerOf(made), E.Set(k, E.EnableReading), H.PollerOf(shares[k := H.Share(fd, READING)]));
  }

  lemma ReadingIsSet()
    ensures E.SliceSet(E.UNREGISTERED, E.Changed(E.EnableReading, E.UNREGISTERED.events)) == READING
  {
  }

  lemma EmptyIsKept()
    ensures H.Bookable<Key>(map[]) && Kept(H.PollerOf<Key>(map[]))
  {
    var p := H.PollerOf<Key>(map[]);
    assert p.chans == map[] && p.kernel == map[] && p.listed == map[];
    assert E.LegalRun(E.Empty<Key>(), []) && E.Run(E.Empty<Key>(), []) == E.Empty<Key>();
    assert K.SameBooks(E.Empty<Key>(), p);
  }

  lemma StartIsKept(loops: nat, setup: Setup, l: nat)
    requires SetupOk(setup)
    ensures Kept(PollerOf(Start(loops, setup), l))
  {
    hide Kept, H.PollerOf, H.Bookable, READING;
    EmptyIsKept();
    var wake: H.Shares<Key> := map[];
    if l < |setup.wakeFds| {
      KeptReading(wake, OfWakeup, setup.wakeFds[l]);
      wake := wake[OfWakeup := H.Share(setup.wakeFds[l], READING)];
    }
    if l == 0 {
      KeptReading(wake, OfAcceptor, setup.acceptFd);
      wake := wake[OfAcceptor := H.Share(setup.acceptFd, READING)];
    }
    StartShares(loops, setup, l);
    assert wake == SharesOf(Start(loops, setup), l);
  }

  lemma StartShares(loops: nat, setup: Setup, l: nat)
    ensures ConnKeys(Start(loops, setup), l) == {}
  {
  }

  /** In every reachable state the channels of a loop - its wakeup, the acceptor's on the base loop, and those of
      its connections - make up one poller, which a legal run of channel operations made; each connection's
      view of its own channel is that poller's; and the loop never stops listening to its wakeup. */
  lemma PollersAssemble(loops: nat, setup: Setup, actions: seq<Action>, l: nat)
    requires loops > 0 && LegalRun(Start(loops, setup), actions) && SetupOk(setup)
    ensures var r := Reached(loops, setup, actions);
            var p := PollerOf(r, l);
            && E.Inv(p) && Kept(p)
            && (forall c: nat :: OfConn(c) in p.chans <==> Knows(r, l, c))
            && (forall c: nat :: Knows(r, l, c) ==> E.SliceOf(p, OfConn(c)) == r.nodes[c].conn.chan)
            && (l < |setup.wakeFds| ==> OfWakeup in p.chans && E.SliceOf(p, OfWakeup) == READING)
            && (l == 0 ==> OfAcceptor in p.chans && E.SliceOf(p, OfAcceptor) == READING)
  {
    hide Inv, OwnKeys, LegalRun, Reached, Kept, H.PollerOf, H.Bookable, E.Inv, E.SliceOf, Owned;
    var r := Reached(loops, setup, actions);
    ReachedInv(loops, setup, actions);
    ReachedIsKept(loops, setup, actions, l);
    SharesAreBookable(r, l);
    H.BooksAreRight(SharesOf(r, l));
    ConnKeysAre(r, l);
  }

  lemma ConnKeysAre(r: Reactor, l: nat)
    ensures forall c: nat :: OfConn(c) in SharesOf(r, l) <==> Knows(r, l, c)
    ensures forall c: nat :: Knows(r, l, c) ==>
              SharesOf(r, l)[OfConn(c)] == H.Share(r.nodes[c].fd, r.nodes[c].conn.chan)
  {
    hide Owned;
    forall c: nat | Knows(r, l, c)
      ensures OfConn(c) in SharesOf(r, l)
    {
      KnownIsShare(r, l, c);
    }
  }

  lemma ReachedIsKept(loops: nat, setup: Setup, actions: seq<Action>, l: nat)
    requires loops > 0 && LegalRun(Start(loops, setup), actions) && SetupOk(setup)
    ensures Kept(PollerOf(Reached(loops, setup, actions), l))
  {
    hide Inv, OwnKeys, LegalRun, Run, Kept, PollerOf;
    StartInv(loops, setup);
    StartKeys(loops, setup);
    StartIsKept(loops, setup, l);
    RunKeepsKept(Start(loops, setup), actions, l);
  }
}
