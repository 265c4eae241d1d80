/** When two pollers are the same to every operation, and what makes up a poller. */
module PollerBooks {
  import opened EPollSpec

  /** Two pollers that no operation can tell apart: `fromNew` matters only for Added channels. */
  ghost predicate SameBooks<K>(p: Poller<K>, q: Poller<K>) {
    && p.chans == q.chans && p.listed == q.listed && p.kernel == q.kernel && p.faults == q.faults
    && forall k :: k in p.chans && p.chans[k].status == Added ==> (k in p.fromNew <==> k in q.fromNew)
  }

  lemma KernelFromSlices<K>(p: Poller<K>, q: Poller<K>, fd: int)
    requires Inv(p) && Inv(q) && p.chans == q.chans && fd in p.kernel
    ensures fd in q.kernel && q.kernel[fd] == p.kernel[fd]
  {
    var k := p.kernel[fd].channel;
    assert q.chans[k].status == Added;
  }

  lemma ListFromSlices<K>(p: Poller<K>, q: Poller<K>, fd: int)
    requires Inv(p) && Inv(q) && p.chans == q.chans && fd in p.listed
    requires forall k :: k in p.chans ==> SliceOf(p, k) == SliceOf(q, k)
    ensures fd in q.listed && q.listed[fd] == p.listed[fd]
  {
    var k := p.listed[fd];
    assert HasChannel(p, k);
    assert SliceOf(p, k) == SliceOf(q, k);
  }

  /** What the channels of a poller know of themselves makes up the whole poller. */
  lemma SlicesDetermine<K>(p: Poller<K>, q: Poller<K>)
    requires Inv(p) && Inv(q) && p.chans.Keys == q.chans.Keys
    requires forall k :: k in p.chans ==> p.chans[k].fd == q.chans[k].fd && SliceOf(p, k) == SliceOf(q, k)
    ensures SameBooks(p, q)
  {
    assert p.faults == 0 == q.faults;
    hide Inv;
    forall k | k in p.chans
      ensures p.chans[k] == q.chans[k]
    {
      assert SliceOf(p, k) == SliceOf(q, k);
    }
    assert p.chans == q.chans;
    forall fd | fd in p.kernel ensures fd in q.kernel && q.kernel[fd] == p.kernel[fd] { KernelFromSlices(p, q, fd); }
    forall fd | fd in q.kernel ensures fd in p.kernel { KernelFromSlices(q, p, fd); }
    forall fd | fd in p.listed ensures fd in q.listed && q.listed[fd] == p.listed[fd] { ListFromSlices(p, q, fd); }
    forall fd | fd in q.listed ensures fd in p.listed { ListFromSlices(q, p, fd); }
    forall k | k in p.chans && p.chans[k].status == Added
      ensures k in p.fromNew <==> k in q.fromNew
    {
      FromNewIsListed(p, k);
      FromNewIsListed(q, k);
      assert SliceOf(p, k).listed == SliceOf(q, k).listed;
    }
  }

  lemma FromNewIsListed<K>(p: Poller<K>, k: K)
    requires Inv(p) && k in p.chans && p.chans[k].status == Added
    ensures k in p.fromNew <==> SliceOf(p, k).listed
  {
  }

  lemma SameBooksTransitive<K>(p: Poller<K>, q: Poller<K>, r: Poller<K>)
    requires SameBooks(p, q) && SameBooks(q, r)
    ensures SameBooks(p, r)
  {
  }

  lemma SameBooksCtl<K>(p: Poller<K>, q: Poller<K>, op: CtlOp, k: K)
    requires SameBooks(p, q) && k in p.chans
    ensures SameBooks(EpollCtl(p, op, k), EpollCtl(q, op, k)) && EpollCtl(p, op, k).chans == p.chans
  {
  }

  lemma SameBooksOff<K>(p: Poller<K>, q: Poller<K>, k: K, status: Status)
    requires SameBooks(p, q) && k in p.chans && status != Added
    ensures SameBooks(SetStatus(p, k, status), SetStatus(q, k, status))
  {
  }

  lemma SameBooksAdded<K>(p: Poller<K>, q: Poller<K>, k: K)
    requires SameBooks(p, q) && k in p.chans
    ensures var fd := p.chans[k].fd;
            var p1 := p.(listed := p.listed[fd := k], fromNew := p.fromNew + {k});
            var q1 := q.(listed := q.listed[fd := k], fromNew := q.fromNew + {k});
            SameBooks(SetStatus(p1, k, Added), SetStatus(q1, k, Added))
    ensures var p1, q1 := p.(fromNew := p.fromNew - {k}), q.(fromNew := q.fromNew - {k});
            SameBooks(SetStatus(p1, k, Added), SetStatus(q1, k, Added))
  {
  }

  lemma SameBooksUpdate<K>(p: Poller<K>, q: Poller<K>, k: K)
    requires SameBooks(p, q) && k in p.chans
    ensures SameBooks(UpdateChannel(p, k), UpdateChannel(q, k))
  {
    SameBooksAdded(p, q, k);
    SameBooksCtl(p, q, CtlMod, k);
    SameBooksCtl(p, q, CtlDel, k);
    var fd := p.chans[k].fd;
    match p.chans[k].status
    case New =>
      var p1 := p.(listed := p.listed[fd := k], fromNew := p.fromNew + {k});
      var q1 := q.(listed := q.listed[fd := k], fromNew := q.fromNew + {k});
      SameBooksCtl(SetStatus(p1, k, Added), SetStatus(q1, k, Added), CtlAdd, k);
      hide SameBooks, EpollCtl;
    case Deleted =>
      var p1, q1 := p.(fromNew := p.fromNew - {k}), q.(fromNew := q.fromNew - {k});
      SameBooksCtl(SetStatus(p1, k, Added), SetStatus(q1, k, Added), CtlAdd, k);
      hide SameBooks, EpollCtl;
    case Added =>
      SameBooksOff(EpollCtl(p, CtlDel, k), EpollCtl(q, CtlDel, k), k, Deleted);
      hide EpollCtl;
  }

  lemma SameBooksEvents<K>(p: Poller<K>, q: Poller<K>, k: K, events: Mask)
    requires SameBooks(p, q) && k in p.chans
    ensures SameBooks(SetEvents(p, k, events), SetEvents(q, k, events))
  {
  }

  lemma SameBooksRemove<K>(p: Poller<K>, q: Poller<K>, k: K)
    requires SameBooks(p, q) && k in p.chans
    ensures SameBooks(RemoveChannel(p, k), RemoveChannel(q, k))
  {
    var p1 := p.(listed := p.listed - {p.chans[k].fd});
    var q1 := q.(listed := q.listed - {q.chans[k].fd});
    assert SameBooks(p1, q1);
    hide EpollCtl, SetStatus;
    SameBooksCtl(p1, q1, CtlDel, k);
    var p2 := if p.chans[k].status == Added then EpollCtl(p1, CtlDel, k) else p1;
    var q2 := if p.chans[k].status == Added then EpollCtl(q1, CtlDel, k) else q1;
    SameBooksOff(p2, q2, k, New);
    hide SameBooks;
  }

  lemma SameBooksApply<K>(p: Poller<K>, q: Poller<K>, op: Op<K>)
    requires SameBooks(p, q) && Legal(q, op)
    ensures Legal(p, op) && SameBooks(Apply(p, op), Apply(q, op))
  {
    match op
    case Create(_, _) =>
    case Drop(_) =>
    case Remove(k) => SameBooksRemove(p, q, k);
    case Set(k, change) =>
      hide UpdateChannel, SetEvents, Changed;
      var events := Changed(change, p.chans[k].events);
      SameBooksEvents(p, q, k, events);
      SameBooksUpdate(SetEvents(p, k, events), SetEvents(q, k, events), k) by { EventsKeepChans(p, k, events); }
  }

  lemma EventsKeepChans<K>(p: Poller<K>, k: K, events: Mask)
    requires k in p.chans
    ensures SetEvents(p, k, events).chans.Keys == p.chans.Keys
  {
  }

  lemma {:induction false} SameBooksRun<K>(p: Poller<K>, q: Poller<K>, ops: seq<Op<K>>)
    requires SameBooks(p, q) && LegalRun(q, ops)
    ensures LegalRun(p, ops) && SameBooks(Run(p, ops), Run(q, ops))
    decreases |ops|
  {
    if ops != [] {
      SameBooksApply(p, q, ops[0]);
      SameBooksRun(Apply(p, ops[0]), Apply(q, ops[0]), ops[1..]);
      hide Apply, Legal, SameBooks;
    }
  }

  lemma {:induction false} RunInTwo<K>(p: Poller<K>, ops: seq<Op<K>>, more: seq<Op<K>>)
    requires LegalRun(p, ops) && LegalRun(Run(p, ops), more)
    ensures LegalRun(p, ops + more) && Run(p, ops + more) == Run(Run(p, ops), more)
    decreases |ops|
  {
    hide Apply, Legal;
    if ops == [] {
      assert ops + more == more;
    } else {
      assert (ops + more)[1..] == ops[1..] + more;
      RunInTwo(Apply(p, ops[0]), ops[1..], more);
    }
  }

  /** The birth and the death of a channel touch no other channel. */
  lemma CreateIsLocal<K>(p: Poller<K>, k: K, fd: int)
    requires Inv(p) && Legal(p, Create(k, fd))
    ensures var q := Apply(p, Create(k, fd));
            && Inv(q) && q.chans.Keys == p.chans.Keys + {k} && q.chans[k].fd == fd && SliceOf(q, k) == UNREGISTERED
            && (forall j :: j in p.chans ==> q.chans[j].fd == p.chans[j].fd && SliceOf(q, j) == SliceOf(p, j))
  {
    ApplyKeepsInv(p, Create(k, fd));
  }

  lemma DropIsLocal<K>(p: Poller<K>, k: K)
    requires Inv(p) && Legal(p, Drop(k))
    ensures var q := Apply(p, Drop(k));
            && Inv(q) && q.chans.Keys == p.chans.Keys - {k}
            && (forall j :: j in q.chans ==> q.chans[j].fd == p.chans[j].fd && SliceOf(q, j) == SliceOf(p, j))
  {
    ApplyKeepsInv(p, Drop(k));
  }

  /** A change of mask and a removal leave descriptors as they are. */
  lemma FdsStay<K>(p: Poller<K>, k: K, change: Change)
    requires Inv(p) && k in p.chans
    ensures forall j :: j in p.chans ==>
              && j in Apply(p, Set(k, change)).chans && Apply(p, Set(k, change)).chans[j].fd == p.chans[j].fd
              && j in Apply(p, Remove(k)).chans && Apply(p, Remove(k)).chans[j].fd == p.chans[j].fd
  {
    SetSettles(p, k, Changed(change, p.chans[k].events));
    RemoveSettles(p, k);
    hide UpdateChannel, RemoveChannel, Changed, Inv;
  }
}
