/** The poller against the kernel's interest set, on values. `K` names channel objects. */
module EPollSpec {
  import opened Prelude

  type Mask = bv32

  const EPOLLIN: Mask := 0x1
  const EPOLLPRI: Mask := 0x2
  const EPOLLOUT: Mask := 0x4
  const EPOLLHUP: Mask := 0x10

  const NONE_EVENT: Mask := 0
  const READ_EVENT: Mask := EPOLLIN | EPOLLPRI
  const WRITE_EVENT: Mask := EPOLLOUT

  predicate Has(events: Mask, bits: Mask) {
    events & bits != 0
  }

  datatype Status = New | Added | Deleted

  datatype Chan = Chan(fd: int, events: Mask, status: Status)

  datatype Interest<K> = Interest(mask: Mask, channel: K)

  datatype CtlOp = CtlAdd | CtlMod | CtlDel

  /** `listed` is m_channels, `kernel` the epoll set by descriptor, `faults` the failed epoll_ctl
      calls; `fromNew` records the channels whose last ADD was made from New. */
  datatype Poller<K(==)> = Poller(
    chans: map<K, Chan>,
    listed: map<int, K>,
    kernel: map<int, Interest<K>>,
    fromNew: set<K>,
    faults: nat)

  /** epoll_ctl: ADD refuses a known descriptor, MOD and DEL an unknown one. */
  function EpollCtl<K>(p: Poller<K>, op: CtlOp, k: K): Poller<K>
    requires k in p.chans
  {
    var fd := p.chans[k].fd;
    var entry := Interest(p.chans[k].events, k);
    match op
    case CtlAdd => if fd in p.kernel then p.(faults := p.faults + 1) else p.(kernel := p.kernel[fd := entry])
    case CtlMod => if fd in p.kernel then p.(kernel := p.kernel[fd := entry]) else p.(faults := p.faults + 1)
    case CtlDel => if fd in p.kernel then p.(kernel := p.kernel - {fd}) else p.(faults := p.faults + 1)
  }

  /** A call the kernel refuses is counted and changes nothing else; any other changes just that descriptor's
      entry, to the channel and its mask or to none. */
  lemma EpollCtlIs<K>(p: Poller<K>, op: CtlOp, k: K)
    requires k in p.chans
    ensures var fd := p.chans[k].fd;
            var q := EpollCtl(p, op, k);
            var refused := op == CtlAdd <==> fd in p.kernel;
            && q == p.(kernel := q.kernel, faults := q.faults) && q.faults == p.faults + (if refused then 1 else 0)
            && (refused ==> q.kernel == p.kernel)
            && (!refused && op == CtlDel ==> q.kernel == p.kernel - {fd})
            && (!refused && op != CtlDel ==> q.kernel == p.kernel[fd := Interest(p.chans[k].events, k)])
  {
  }

  function SetStatus<K>(p: Poller<K>, k: K, status: Status): Poller<K>
    requires k in p.chans
  {
    p.(chans := p.chans[k := p.chans[k].(status := status)])
  }

  function SetEvents<K>(p: Poller<K>, k: K, events: Mask): Poller<K>
    requires k in p.chans
  {
    p.(chans := p.chans[k := p.chans[k].(events := events)])
  }

  function UpdateChannel<K>(p: Poller<K>, k: K): Poller<K>
    requires k in p.chans
  {
    var fd := p.chans[k].fd;
    match p.chans[k].status
    case New =>
      var q := p.(listed := p.listed[fd := k], fromNew := p.fromNew + {k});
      EpollCtl(SetStatus(q, k, Added), CtlAdd, k)
    case Deleted =>
      var q := p.(fromNew := p.fromNew - {k});
      EpollCtl(SetStatus(q, k, Added), CtlAdd, k)
    case Added =>
      if p.chans[k].events == NONE_EVENT then
        var q := SetStatus(EpollCtl(p, CtlDel, k), k, Deleted);
        q.(listed := q.listed - {fd})
      else EpollCtl(p, CtlMod, k)
  }

  function RemoveChannel<K>(p: Poller<K>, k: K): Poller<K>
    requires k in p.chans
  {
    var q := p.(listed := p.listed - {p.chans[k].fd});
    SetStatus(if p.chans[k].status == Added then EpollCtl(q, CtlDel, k) else q, k, New)
  }

  predicate HasChannel<K>(p: Poller<K>, k: K)
    requires k in p.chans
  {
    var fd := p.chans[k].fd;
    fd in p.listed && p.listed[fd] == k
  }

  /** A channel is not taken for another that is in the map under its descriptor. */
  lemma HasChannelTellsApart<K>(p: Poller<K>, k: K, j: K)
    requires k in p.chans
    ensures p.chans[k].fd !in p.listed ==> !HasChannel(p, k)
    ensures p.chans[k].fd in p.listed && p.listed[p.chans[k].fd] == j ==> (HasChannel(p, k) <==> j == k)
  {
  }

  datatype Change = EnableReading | DisableReading | EnableWriting | DisableWriting | DisableAll

  function Changed(change: Change, events: Mask): Mask {
    match change
    case EnableReading => events | READ_EVENT
    case DisableReading => events & !READ_EVENT
    case EnableWriting => events | WRITE_EVENT
    case DisableWriting => events & !WRITE_EVENT
    case DisableAll => NONE_EVENT
  }

  /** Enabling or disabling one direction settles that direction and leaves the other alone. */
  lemma ReadingIsIndependent(events: Mask)
    ensures Has(Changed(EnableReading, events), READ_EVENT) && !Has(Changed(DisableReading, events), READ_EVENT)
    ensures Changed(EnableReading, events) & WRITE_EVENT == events & WRITE_EVENT
    ensures Changed(DisableReading, events) & WRITE_EVENT == events & WRITE_EVENT
  {
  }

  lemma WritingIsIndependent(events: Mask)
    ensures Has(Changed(EnableWriting, events), WRITE_EVENT) && !Has(Changed(DisableWriting, events), WRITE_EVENT)
    ensures Changed(EnableWriting, events) & READ_EVENT == events & READ_EVENT
    ensures Changed(DisableWriting, events) & READ_EVENT == events & READ_EVENT
  {
  }

  /** In the bits of the epoll interface: reading is 0x3 and writing 0x4, and just those bits are set or cleared. */
  lemma ReadingBits(events: Mask)
    ensures Changed(EnableReading, events) == events | 0x3 && Changed(DisableReading, events) == events & !0x3
  {
  }

  lemma WritingBits(events: Mask)
    ensures Changed(EnableWriting, events) == events | 0x4 && Changed(DisableWriting, events) == events & !0x4
    ensures Changed(DisableAll, events) == 0
  {
  }

  /** Channel operations, and the birth and death of channel objects. */
  datatype Op<K> = Create(k: K, fd: int) | Set(k: K, change: Change) | Remove(k: K) | Drop(k: K)

  /** Descriptors of live channels are distinct; a channel dies only after its removal. */
  predicate Legal<K>(p: Poller<K>, op: Op<K>) {
    match op
    case Create(k, fd) => k !in p.chans && forall j :: j in p.chans ==> p.chans[j].fd != fd
    case Set(k, _) => k in p.chans
    case Remove(k) => k in p.chans
    case Drop(k) => k in p.chans && p.chans[k].status == New
  }

  function Apply<K>(p: Poller<K>, op: Op<K>): Poller<K>
    requires Legal(p, op)
  {
    match op
    case Create(k, fd) =>
      p.(chans := p.chans[k := Chan(fd, NONE_EVENT, New)], fromNew := p.fromNew - {k})
    case Set(k, change) => UpdateChannel(SetEvents(p, k, Changed(change, p.chans[k].events)), k)
    case Remove(k) => RemoveChannel(p, k)
    case Drop(k) => p.(chans := p.chans - {k})
  }

  function Empty<K>(): Poller<K> {
    Poller(map[], map[], map[], {}, 0)
  }

  ghost predicate DistinctFds<K>(p: Poller<K>) {
    forall j, k :: j in p.chans && k in p.chans && p.chans[j].fd == p.chans[k].fd ==> j == k
  }

  /** The kernel holds exactly the Added channels, each under its own descriptor and current mask. */
  ghost predicate KernelAgrees<K>(p: Poller<K>) {
    && (forall fd :: fd in p.kernel ==>
          var k := p.kernel[fd].channel;
          k in p.chans && p.chans[k].fd == fd && p.chans[k].status == Added && p.kernel[fd].mask == p.chans[k].events)
    && (forall k :: k in p.chans && p.chans[k].status == Added ==>
          p.chans[k].fd in p.kernel && p.kernel[p.chans[k].fd].channel == k)
  }

  /** m_channels holds exactly the Added channels whose last entry into Added was from New. */
  ghost predicate ListedAgrees<K>(p: Poller<K>) {
    && (forall fd :: fd in p.listed ==>
          var k := p.listed[fd];
          k in p.chans && p.chans[k].fd == fd && p.chans[k].status == Added && k in p.fromNew)
    && (forall k :: k in p.chans && p.chans[k].status == Added && k in p.fromNew ==> HasChannel(p, k))
  }

  ghost predicate Inv<K>(p: Poller<K>) {
    DistinctFds(p) && KernelAgrees(p) && ListedAgrees(p) && p.faults == 0
  }

  /** What an update comes to when the sides agree: no epoll_ctl call of it can fail. */
  function Settled<K>(p: Poller<K>, k: K, events: Mask): Poller<K>
    requires k in p.chans
  {
    var c := p.chans[k];
    var off := c.status == Added && events == NONE_EVENT;
    p.(chans := p.chans[k := Chan(c.fd, events, if off then Deleted else Added)],
       kernel := if off then p.kernel - {c.fd} else p.kernel[c.fd := Interest(events, k)],
       listed := if off then p.listed - {c.fd} else if c.status == New then p.listed[c.fd := k] else p.listed,
       fromNew := if c.status == New then p.fromNew + {k}
                  else if c.status == Deleted then p.fromNew - {k} else p.fromNew)
  }

  lemma SetSettles<K>(p: Poller<K>, k: K, events: Mask)
    requires Inv(p) && k in p.chans
    ensures UpdateChannel(SetEvents(p, k, events), k) == Settled(p, k, events)
  {
    var c := p.chans[k];
    var fd := c.fd;
    assert fd in p.kernel <==> c.status == Added;
    match c.status
    case Added =>
    case _ =>
  }

  lemma SettledKeepsKernel<K>(p: Poller<K>, k: K, events: Mask)
    requires Inv(p) && k in p.chans
    ensures DistinctFds(Settled(p, k, events)) && KernelAgrees(Settled(p, k, events))
  {
  }

  lemma SettledKeepsListed<K>(p: Poller<K>, k: K, events: Mask)
    requires Inv(p) && k in p.chans
    ensures ListedAgrees(Settled(p, k, events))
  {
  }

  lemma SetKeepsInv<K>(p: Poller<K>, k: K, events: Mask)
    requires Inv(p) && k in p.chans
    ensures Inv(UpdateChannel(SetEvents(p, k, events), k))
  {
    SetSettles(p, k, events);
    SettledKeepsKernel(p, k, events);
    SettledKeepsListed(p, k, events);
  }

  /** What a removal comes to. */
  function Removed<K>(p: Poller<K>, k: K): Poller<K>
    requires k in p.chans
  {
    var c := p.chans[k];
    p.(chans := p.chans[k := c.(status := New)], kernel := p.kernel - {c.fd}, listed := p.listed - {c.fd})
  }

  lemma RemoveSettles<K>(p: Poller<K>, k: K)
    requires Inv(p) && k in p.chans
    ensures RemoveChannel(p, k) == Removed(p, k)
  {
    var fd := p.chans[k].fd;
    if p.chans[k].status != Added {
      assert fd !in p.kernel;
      assert p.kernel - {fd} == p.kernel;
    }
  }

  lemma RemoveKeepsInv<K>(p: Poller<K>, k: K)
    requires Inv(p) && k in p.chans
    ensures Inv(RemoveChannel(p, k))
  {
    RemoveSettles(p, k);
  }

  lemma ApplyKeepsInv<K>(p: Poller<K>, op: Op<K>)
    requires Inv(p) && Legal(p, op)
    ensures Inv(Apply(p, op))
  {
    match op
    case Set(k, change) => SetKeepsInv(p, k, Changed(change, p.chans[k].events));
    case Remove(k) => RemoveKeepsInv(p, k);
    case _ =>
  }

  predicate LegalRun<K>(p: Poller<K>, ops: seq<Op<K>>)
    decreases |ops|
  {
    ops == [] || (Legal(p, ops[0]) && LegalRun(Apply(p, ops[0]), ops[1..]))
  }

  function Run<K>(p: Poller<K>, ops: seq<Op<K>>): Poller<K>
    requires LegalRun(p, ops)
    decreases |ops|
  {
    if ops == [] then p else Run(Apply(p, ops[0]), ops[1..])
  }

  lemma {:induction false} RunKeepsInv<K>(p: Poller<K>, ops: seq<Op<K>>)
    requires Inv(p) && LegalRun(p, ops)
    ensures Inv(Run(p, ops))
    decreases |ops|
  {
    if ops != [] {
      ApplyKeepsInv(p, ops[0]);
      RunKeepsInv(Apply(p, ops[0]), ops[1..]);
    }
  }

  /** After any run: a channel is in the interest set, under its current mask, iff its status is
      Added, and no epoll_ctl call of the run failed. */
  lemma PollerRefinesKernel<K>(ops: seq<Op<K>>, k: K)
    requires LegalRun(Empty<K>(), ops) && k in Run(Empty<K>(), ops).chans
    ensures var p := Run(Empty<K>(), ops);
            var c := p.chans[k];
            && p.faults == 0
            && (c.status == Added <==> c.fd in p.kernel)
            && (c.fd in p.kernel ==> p.kernel[c.fd] == Interest(c.events, k))
  {
    RunKeepsInv(Empty<K>(), ops);
  }

  /** After any run: hasChannel tells Added-from-New, and m_channels is a sub-map of the kernel set. */
  lemma HasChannelCharacterised<K>(ops: seq<Op<K>>, k: K)
    requires LegalRun(Empty<K>(), ops) && k in Run(Empty<K>(), ops).chans
    ensures var p := Run(Empty<K>(), ops);
            && (HasChannel(p, k) <==> p.chans[k].status == Added && k in p.fromNew)
            && (forall fd :: fd in p.listed ==> fd in p.kernel && p.kernel[fd].channel == p.listed[fd])
  {
    RunKeepsInv(Empty<K>(), ops);
  }

  /** A registered channel that hasChannel denies: enabled, disabled and enabled again. */
  lemma ReenabledIsUnlisted<K>(k: K, fd: int)
    ensures var ops := [Create(k, fd), Set(k, EnableReading), Set(k, DisableAll), Set(k, EnableReading)];
            && LegalRun(Empty<K>(), ops)
            && var p := Run(Empty<K>(), ops);
               k in p.chans && !HasChannel(p, k) && p.kernel == map[fd := Interest(READ_EVENT, k)]
  {
    var p0 := Empty<K>();
    var p1 := Apply(p0, Create(k, fd));
    var p2 := Apply(p1, Set(k, EnableReading));
    var p3 := Apply(p2, Set(k, DisableAll));
    var p4 := Apply(p3, Set(k, EnableReading));
    assert Changed(EnableReading, NONE_EVENT) == READ_EVENT;
    var entry := Interest(READ_EVENT, k);
    assert p2 == Poller(map[k := Chan(fd, READ_EVENT, Added)], map[fd := k], map[fd := entry], {k}, 0);
    assert p3 == Poller(map[k := Chan(fd, NONE_EVENT, Deleted)], map[], map[], {k}, 0);
    assert p4 == Poller(map[k := Chan(fd, READ_EVENT, Added)], map[], map[fd := entry], {}, 0);
    RunFrom(p3, Set(k, EnableReading), []);
    RunFrom(p2, Set(k, DisableAll), [Set(k, EnableReading)]);
    RunFrom(p1, Set(k, EnableReading), [Set(k, DisableAll), Set(k, EnableReading)]);
    RunFrom(p0, Create(k, fd), [Set(k, EnableReading), Set(k, DisableAll), Set(k, EnableReading)]);
  }

  lemma RunFrom<K>(p: Poller<K>, op: Op<K>, rest: seq<Op<K>>)
    requires Legal(p, op) && LegalRun(Apply(p, op), rest)
    ensures LegalRun(p, [op] + rest) && Run(p, [op] + rest) == Run(Apply(p, op), rest)
  {
  }

  /** The runs that never update a Deleted channel. */
  predicate NeverUpdatesDeleted<K>(p: Poller<K>, ops: seq<Op<K>>)
    requires LegalRun(p, ops)
    decreases |ops|
  {
    ops != [] ==>
      && (ops[0].Set? ==> p.chans[ops[0].k].status != Deleted)
      && NeverUpdatesDeleted(Apply(p, ops[0]), ops[1..])
  }

  ghost predicate AllFromNew<K>(p: Poller<K>) {
    forall k :: k in p.chans && p.chans[k].status == Added ==> k in p.fromNew
  }

  /** On those runs m_channels and the kernel set hold the same channels. */
  lemma {:induction false} MapIsKernelSet<K>(p: Poller<K>, ops: seq<Op<K>>)
    requires Inv(p) && AllFromNew(p) && LegalRun(p, ops) && NeverUpdatesDeleted(p, ops)
    ensures var q := Run(p, ops);
            && q.listed.Keys == q.kernel.Keys
            && forall fd :: fd in q.listed ==> q.listed[fd] == q.kernel[fd].channel
    decreases |ops|
  {
    if ops == [] {
      forall fd | fd in p.kernel
        ensures fd in p.listed && p.listed[fd] == p.kernel[fd].channel
      {
        assert HasChannel(p, p.kernel[fd].channel);
      }
      forall fd | fd in p.listed
        ensures fd in p.kernel
      {
        assert p.chans[p.listed[fd]].status == Added;
      }
    } else {
      ApplyKeepsInv(p, ops[0]);
      MapIsKernelSet(Apply(p, ops[0]), ops[1..]);
    }
  }

  lemma SettledThenRemoved<K>(p: Poller<K>, k: K)
    requires k in p.chans
    ensures var q := Removed(Settled(p, k, NONE_EVENT), k);
            var fd := p.chans[k].fd;
            && q.chans == p.chans[k := Chan(fd, NONE_EVENT, New)] && q.faults == p.faults
            && q.kernel == p.kernel - {fd} && q.listed == p.listed - {fd}
  {
  }

  /** The teardown of Acceptor and EventLoop: from any status it ends New and absent everywhere. */
  lemma TearDown<K>(p: Poller<K>, k: K)
    requires Inv(p) && k in p.chans
    ensures var q := RemoveChannel(Apply(p, Set(k, DisableAll)), k);
            var fd := p.chans[k].fd;
            && q.chans == p.chans[k := Chan(fd, NONE_EVENT, New)] && q.faults == 0
            && q.kernel == p.kernel - {fd} && q.listed == p.listed - {fd}
  {
    SetSettles(p, k, NONE_EVENT);
    SetKeepsInv(p, k, NONE_EVENT);
    RemoveSettles(Settled(p, k, NONE_EVENT), k);
    SettledThenRemoved(p, k);
  }

  // ----- One channel's share of the poller -----

  /** What a poller knows of one channel: mask, status, kernel entry and presence in m_channels. */
  datatype Slice = Slice(events: Mask, status: Status, interest: Option<Mask>, listed: bool) {
    predicate Valid() {
      && (status == Added <==> interest.Some?)
      && (interest.Some? ==> interest.value == events)
      && (listed ==> status == Added)
    }
  }

  const UNREGISTERED := Slice(NONE_EVENT, New, None, false)

  function SliceOf<K>(p: Poller<K>, k: K): Slice
    requires k in p.chans
  {
    var c := p.chans[k];
    Slice(c.events, c.status,
          if c.fd in p.kernel && p.kernel[c.fd].channel == k then Some(p.kernel[c.fd].mask) else None,
          HasChannel(p, k))
  }

  function SliceSet(s: Slice, events: Mask): Slice {
    match s.status
    case New => Slice(events, Added, Some(events), true)
    case Deleted => Slice(events, Added, Some(events), s.listed)
    case Added =>
      if events == NONE_EVENT then Slice(events, Deleted, None, false)
      else Slice(events, Added, Some(events), s.listed)
  }

  function SliceRemove(s: Slice): Slice {
    Slice(s.events, New, None, false)
  }

  /** A mask change acts on that channel's share by itself, and on no other share. */
  lemma SetIsLocal<K>(p: Poller<K>, k: K, events: Mask)
    requires Inv(p) && k in p.chans
    ensures var q := UpdateChannel(SetEvents(p, k, events), k);
            && Inv(q) && q.chans.Keys == p.chans.Keys && SliceOf(q, k) == SliceSet(SliceOf(p, k), events)
            && (forall j :: j in p.chans && j != k ==> SliceOf(q, j) == SliceOf(p, j))
    ensures SliceOf(p, k).Valid()
  {
    SetSettles(p, k, events);
    SettledKeepsKernel(p, k, events);
    SettledKeepsListed(p, k, events);
    var q := Settled(p, k, events);
    forall j | j in p.chans && j != k
      ensures SliceOf(q, j) == SliceOf(p, j)
    {
      assert p.chans[j].fd != p.chans[k].fd;
    }
  }

  /** So does a removal. */
  lemma RemoveIsLocal<K>(p: Poller<K>, k: K)
    requires Inv(p) && k in p.chans
    ensures var q := RemoveChannel(p, k);
            && Inv(q) && q.chans.Keys == p.chans.Keys && SliceOf(q, k) == SliceRemove(SliceOf(p, k))
            && (forall j :: j in p.chans && j != k ==> SliceOf(q, j) == SliceOf(p, j))
  {
    RemoveSettles(p, k);
    RemoveKeepsInv(p, k);
    var q := Removed(p, k);
    forall j | j in p.chans && j != k
      ensures SliceOf(q, j) == SliceOf(p, j)
    {
      assert p.chans[j].fd != p.chans[k].fd;
    }
  }
}
