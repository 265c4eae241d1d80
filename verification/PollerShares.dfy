/** A poller put together from what each of its channels knows of itself. */
module PollerShares {
  import opened EPollSpec
  import opened PollerBooks

  /** A channel's descriptor, and its share of the poller. */
  datatype Share = Share(fd: int, slice: Slice)

  type Shares<K> = map<K, Share>

  /** What books can be kept on. */
  ghost predicate Bookable<K>(shares: Shares<K>) {
    && (forall k :: k in shares ==> shares[k].slice.Valid())
    && (forall j, k :: j in shares && k in shares && shares[j].fd == shares[k].fd ==> j == k)
  }

  ghost function Listed<K>(shares: Shares<K>): set<K> {
    set k | k in shares && shares[k].slice.listed
  }

  ghost function Registered<K>(shares: Shares<K>): set<K> {
    set k | k in shares && shares[k].slice.interest.Some?
  }

  ghost function FdsOf<K>(shares: Shares<K>, ks: set<K>): set<int>
    requires ks <= shares.Keys
  {
    set k | k in ks :: shares[k].fd
  }

  /** Of these channels, one with that descriptor. */
  ghost function WithFd<K>(shares: Shares<K>, ks: set<K>, fd: int): (k: K)
    requires ks <= shares.Keys && fd in FdsOf(shares, ks)
    ensures k in ks && shares[k].fd == fd
  {
    var k :| k in ks && shares[k].fd == fd;
    k
  }

  ghost function PollerOf<K>(shares: Shares<K>): Poller<K> {
    Poller(
      map k | k in shares :: Chan(shares[k].fd, shares[k].slice.events, shares[k].slice.status),
      map fd | fd in FdsOf(shares, Listed(shares)) :: WithFd(shares, Listed(shares), fd),
      map fd | fd in FdsOf(shares, Registered(shares)) ::
        var k := WithFd(shares, Registered(shares), fd); Interest(shares[k].slice.interest.value, k),
      Listed(shares),
      0)
  }

  lemma KernelIsRight<K>(shares: Shares<K>)
    requires Bookable(shares)
    ensures KernelAgrees(PollerOf(shares))
  {
  }

  lemma ListIsRight<K>(shares: Shares<K>)
    requires Bookable(shares)
    ensures ListedAgrees(PollerOf(shares))
  {
  }

  lemma SliceIsShare<K>(shares: Shares<K>, k: K)
    requires Bookable(shares) && k in shares
    ensures SliceOf(PollerOf(shares), k) == shares[k].slice
  {
    var fd := shares[k].fd;
    assert k in Registered(shares) ==> fd in FdsOf(shares, Registered(shares));
    assert k in Listed(shares) ==> fd in FdsOf(shares, Listed(shares));
  }

  /** The books of that poller are right, and each channel's share of it is what it was made of. */
  lemma BooksAreRight<K>(shares: Shares<K>)
    requires Bookable(shares)
    ensures var p := PollerOf(shares);
            && Inv(p) && p.chans.Keys == shares.Keys
            && forall k :: k in shares ==> p.chans[k].fd == shares[k].fd && SliceOf(p, k) == shares[k].slice
  {
    hide KernelAgrees, ListedAgrees, SliceOf;
    KernelIsRight(shares);
    ListIsRight(shares);
    forall k | k in shares
      ensures SliceOf(PollerOf(shares), k) == shares[k].slice
    {
      SliceIsShare(shares, k);
    }
  }

  lemma EventsOfSlice<K>(p: Poller<K>, k: K)
    requires k in p.chans
    ensures SliceOf(p, k).events == p.chans[k].events && SliceOf(p, k).status == p.chans[k].status
  {
  }

  lemma BookableWith<K>(shares: Shares<K>, k: K, slice: Slice)
    requires Bookable(shares) && k in shares && slice.Valid()
    ensures Bookable(shares[k := Share(shares[k].fd, slice)])
  {
  }

  /** A change of one channel's mask is that operation of the poller. */
  lemma SetIsSet<K>(shares: Shares<K>, k: K, change: Change)
    requires Bookable(shares) && k in shares
    ensures var slice := SliceSet(shares[k].slice, Changed(change, shares[k].slice.events));
            var shares' := shares[k := Share(shares[k].fd, slice)];
            && Bookable(shares') && Legal(PollerOf(shares), Set(k, change))
            && SameBooks(Apply(PollerOf(shares), Set(k, change)), PollerOf(shares'))
  {
    hide Inv, SliceOf, SliceSet, Changed, UpdateChannel, PollerOf, SameBooks;
    var p := PollerOf(shares);
    BooksAreRight(shares);
    EventsOfSlice(p, k);
    FdsStay(p, k, change);
    SetIsLocal(p, k, Changed(change, p.chans[k].events));
    var slice := SliceSet(shares[k].slice, Changed(change, shares[k].slice.events));
    SetIsValid(shares[k].slice, change);
    var shares' := shares[k := Share(shares[k].fd, slice)];
    BookableWith(shares, k, slice);
    BooksAreRight(shares');
    hide Bookable;
    SlicesDetermine(Apply(p, Set(k, change)), PollerOf(shares'));
  }

  lemma SetIsValid(s: Slice, change: Change)
    requires s.Valid()
    ensures SliceSet(s, Changed(change, s.events)).Valid() && SliceRemove(s).Valid()
  {
    hide Changed;
  }

  lemma RemoveIsRemove<K>(shares: Shares<K>, k: K)
    requires Bookable(shares) && k in shares
    ensures var shares' := shares[k := Share(shares[k].fd, SliceRemove(shares[k].slice))];
            && Bookable(shares') && Legal(PollerOf(shares), Remove(k))
            && SameBooks(Apply(PollerOf(shares), Remove(k)), PollerOf(shares'))
  {
    hide Inv, SliceOf, RemoveChannel, PollerOf, SameBooks;
    var p := PollerOf(shares);
    BooksAreRight(shares);
    FdsStay(p, k, DisableAll);
    RemoveIsLocal(p, k);
    SetIsValid(shares[k].slice, DisableAll);
    var shares' := shares[k := Share(shares[k].fd, SliceRemove(shares[k].slice))];
    BookableWith(shares, k, SliceRemove(shares[k].slice));
    BooksAreRight(shares');
    hide Bookable;
    SlicesDetermine(Apply(p, Remove(k)), PollerOf(shares'));
  }

  /** A channel that is new comes by its creation. */
  lemma NewIsCreate<K>(shares: Shares<K>, k: K, fd: int)
    requires k !in shares && Bookable(shares) && Bookable(shares[k := Share(fd, UNREGISTERED)])
    ensures var shares' := shares[k := Share(fd, UNREGISTERED)];
            && Legal(PollerOf(shares), Create(k, fd))
            && SameBooks(Apply(PollerOf(shares), Create(k, fd)), PollerOf(shares'))
  {
    hide Inv, SliceOf, PollerOf, SameBooks;
    var p := PollerOf(shares);
    var shares' := shares[k := Share(fd, UNREGISTERED)];
    BooksAreRight(shares);
    BooksAreRight(shares');
    forall j | j in shares
      ensures shares'[j] == shares[j] && shares[j].fd != fd
    {
      assert shares'[j].fd == shares'[k].fd ==> j == k;
    }
    CreateIsLocal(p, k, fd);
    hide Bookable;
    SlicesDetermine(Apply(p, Create(k, fd)), PollerOf(shares'));
  }

  /** A channel that is New may die. */
  lemma LostIsDrop<K>(shares: Shares<K>, k: K)
    requires k in shares && Bookable(shares) && shares[k].slice.status == New
    ensures var shares' := shares - {k};
            && Bookable(shares') && Legal(PollerOf(shares), Drop(k))
            && SameBooks(Apply(PollerOf(shares), Drop(k)), PollerOf(shares'))
  {
    hide Inv, SliceOf, PollerOf, SameBooks;
    var p := PollerOf(shares);
    BooksAreRight(shares);
    assert Bookable(shares - {k});
    BooksAreRight(shares - {k});
    EventsOfSlice(p, k);
    DropIsLocal(p, k);
    hide Bookable;
    SlicesDetermine(Apply(p, Drop(k)), PollerOf(shares - {k}));
  }
}
