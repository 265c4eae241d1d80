/** Connections over runs of epoll reports: what a report that closes twice breaks, and what holds without one. */
module ConnectionReports {
  import opened Prelude
  import opened BufferSpec
  import opened EPollSpec
  import opened ConnectionSpec
  import opened ConnectionProofs
  import opened ConnectionTheorems
  import opened ConnectionCallbacks

  /** What happens to a connection, with the handlers of one report taken together. */
  datatype Deed = Report(ev: Event) | Other(step: Step)

  /** The kernel reports only what is in its interest set. */
  predicate Possible(c: Conn, deed: Deed) {
    match deed
    case Report(_) => c.chan.interest.Some?
    case Other(step) => !step.CloseStep? && !step.ReadStep? && !step.WriteStep? && Enabled(c, step)
  }

  function Done(c: Conn, deed: Deed): Out
    requires c.input.Valid()
  {
    match deed
    case Report(ev) => HandleEvent(c, ev)
    case Other(step) => Next(c, step)
  }

  predicate LegalDeeds(c: Conn, deeds: seq<Deed>)
    decreases |deeds|
  {
    deeds == [] || (c.input.Valid() && Possible(c, deeds[0]) && LegalDeeds(Done(c, deeds[0]).c, deeds[1..]))
  }

  function RunDeeds(c: Conn, deeds: seq<Deed>): Out
    requires LegalDeeds(c, deeds)
    decreases |deeds|
  {
    if deeds == [] then Out(c, []) else
    var first := Done(c, deeds[0]);
    var others := RunDeeds(first.c, deeds[1..]);
    Out(others.c, first.fx + others.fx)
  }

  predicate DeedClosesTwice(deed: Deed) {
    deed.Report? && ClosesTwice(deed.ev)
  }

  predicate SomeClosesTwice(deeds: seq<Deed>) {
    exists i :: 0 <= i < |deeds| && DeedClosesTwice(deeds[i])
  }

  // ----- One deed -----

  lemma ReportedIsLive(c: Conn)
    requires ConnInv(c) && c.chan.interest.Some?
    ensures c.state != Connecting && !c.hist.destroyed && (!c.hist.doubled ==> IsUp(c))
  {
  }

  lemma HandleEventKeeps(c: Conn, ev: Event)
    requires ConnInv(c) && c.chan.interest.Some?
    ensures ConnInv(HandleEvent(c, ev).c)
    ensures c.hist.doubled ==> HandleEvent(c, ev).c.hist.doubled
  {
    ReportedIsLive(c);
    hide StackAgrees, CallbacksCounted, StreamsConserved;
    var a, b := AfterClose(c, ev), AfterRead(AfterClose(c, ev), ev);
    AfterCloseSound(c, ev);
    AfterReadSound(a, ev);
    if SelectsRead(ev.revents) { HandleReadLife(a, ev.read, ev.calls); }
    HandleWriteLife(b, ev.write);
    HandleWriteKeepsInv(b, ev.write);
    hide LayersAgree, HandleRead, HandleWrite, SelectsClose, SelectsRead;
  }

  lemma AccountsCompose(c: Conn, a: Out, b: Out)
    requires Accounts(c, a) && Accounts(a.c, b)
    ensures Accounts(c, Out(b.c, a.fx + b.fx))
  {
  }

  // The three parts of a report.

  function CloseOut(c: Conn, ev: Event): Out {
    if SelectsClose(ev.revents) then HandleClose(c) else Out(c, [])
  }

  function ReadOut(c: Conn, ev: Event): Out
    requires c.input.Valid()
  {
    if SelectsRead(ev.revents) then HandleRead(c, ev.read, ev.calls) else Out(c, [])
  }

  function WriteOut(c: Conn, ev: Event): Out {
    if SelectsWrite(ev.revents) then HandleWrite(c, ev.write) else Out(c, [])
  }

  lemma PartsAccount(c: Conn, ev: Event)
    requires ConnInv(c)
    ensures Accounts(c, CloseOut(c, ev)) && Accounts(c, ReadOut(c, ev)) && Accounts(c, WriteOut(c, ev))
  {
    HandleCloseAccounts(c);
    HandleReadAccounts(c, ev.read, ev.calls);
    HandleWriteAccounts(c, ev.write);
    hide HandleClose, HandleRead, HandleWrite, StackAgrees, CallbacksCounted, StreamsConserved, Has;
  }

  lemma EventInParts(c: Conn, ev: Event)
    requires ConnInv(c) && c.chan.interest.Some?
    ensures var a := CloseOut(c, ev);
            && ConnInv(a.c)
            && var b := ReadOut(a.c, ev);
               && ConnInv(b.c)
               && var d := WriteOut(b.c, ev);
                  HandleEvent(c, ev) == Out(d.c, a.fx + b.fx + d.fx)
  {
    ReportedIsLive(c);
    AfterCloseSound(c, ev);
    AfterReadSound(AfterClose(c, ev), ev);
    hide HandleClose, HandleRead, HandleWrite, SelectsClose, SelectsRead, SelectsWrite;
    hide StackAgrees, CallbacksCounted, StreamsConserved;
  }

  lemma HandleEventAccounts(c: Conn, ev: Event)
    requires ConnInv(c) && c.chan.interest.Some?
    ensures Accounts(c, HandleEvent(c, ev))
  {
    hide HandleEvent, CloseOut, ReadOut, WriteOut, Accounts, StackAgrees, CallbacksCounted, StreamsConserved;
    EventInParts(c, ev);
    var a := CloseOut(c, ev);
    var b := ReadOut(a.c, ev);
    PartsAccount(c, ev);
    PartsAccount(a.c, ev);
    PartsAccount(b.c, ev);
    AccountsCompose(c, a, b);
    AccountsCompose(c, Out(b.c, a.fx + b.fx), WriteOut(b.c, ev));
  }

  /** A deed keeps the invariant, and makes the close happen twice exactly when it is such a report. */
  lemma DeedKeepsInv(c: Conn, deed: Deed)
    requires ConnInv(c) && Possible(c, deed)
    ensures var o := Done(c, deed);
            && ConnInv(o.c) && Accounts(c, o)
            && (o.c.hist.doubled <==> c.hist.doubled || DeedClosesTwice(deed))
  {
    match deed
    case Report(ev) =>
      HandleEventKeeps(c, ev);
      HandleEventAccounts(c, ev);
      ReportedIsLive(c);
      if !c.hist.doubled { AgreementAfterEventIff(c, ev); }
      hide HandleEvent, ConnInv, ClosesTwice;
    case Other(step) =>
      NextKeepsInv(c, step);
      NextAccounts(c, step);
      OtherNeverDoubles(c, step);
      hide Next, ConnInv;
  }

  lemma OtherNeverDoubles(c: Conn, step: Step)
    requires ConnInv(c) && Possible(c, Other(step))
    ensures Next(c, step).c.hist.doubled == c.hist.doubled
  {
    hide SliceSet, Changed, StackAgrees, CallbacksCounted, StreamsConserved, Append, Call;
    if step.CallStep? { CallKeepsLife(c, step.call); }
  }

  // ----- Runs -----

  lemma SomeFirstOrLater(deeds: seq<Deed>)
    requires deeds != []
    ensures SomeClosesTwice(deeds) <==> DeedClosesTwice(deeds[0]) || SomeClosesTwice(deeds[1..])
  {
    hide DeedClosesTwice;
    var rest := deeds[1..];
    if SomeClosesTwice(rest) {
      var i :| 0 <= i < |rest| && DeedClosesTwice(rest[i]);
      assert DeedClosesTwice(deeds[i + 1]);
    }
    if SomeClosesTwice(deeds) {
      var i :| 0 <= i < |deeds| && DeedClosesTwice(deeds[i]);
      assert i > 0 ==> DeedClosesTwice(rest[i - 1]);
    }
  }

  lemma {:induction false} DeedsKeepInv(c: Conn, deeds: seq<Deed>)
    requires ConnInv(c) && LegalDeeds(c, deeds)
    ensures var o := RunDeeds(c, deeds);
            && ConnInv(o.c) && Accounts(c, o)
            && (o.c.hist.doubled <==> c.hist.doubled || SomeClosesTwice(deeds))
    decreases |deeds|
  {
    if deeds != [] {
      hide Done, Possible, ConnInv, DeedClosesTwice, SomeClosesTwice, Accounts;
      var first := Done(c, deeds[0]);
      DeedKeepsInv(c, deeds[0]);
      DeedsKeepInv(first.c, deeds[1..]);
      AccountsCompose(c, first, RunDeeds(first.c, deeds[1..]));
      SomeFirstOrLater(deeds);
    } else {
      hide ConnInv;
    }
  }

  /** Over any run, an open connection is Added, in m_channels, and in the kernel set with reading on and
      writing on exactly while bytes wait; a closed one is absent if no report of the run closed it twice;
      a destroyed one is absent in any case. */
  lemma WholeStackAgreement(wc: bool, hw: bool, mark: nat, deeds: seq<Deed>)
    requires LegalDeeds(Created(wc, hw, mark), deeds)
    ensures var c := RunDeeds(Created(wc, hw, mark), deeds).c;
            && (IsUp(c) ==> c.chan == Slice(OpenMask(c), Added, Some(OpenMask(c)), true))
            && (c.state == Disconnected && !SomeClosesTwice(deeds) ==> c.chan.interest == None && !c.chan.listed)
            && (c.hist.destroyed ==> c.state == Disconnected && c.chan.interest == None && c.chan.status == New)
  {
    CreatedInv(wc, hw, mark);
    DeedsKeepInv(Created(wc, hw, mark), deeds);
    hide LegalDeeds, RunDeeds, SomeClosesTwice;
  }

  /** Over any run the connection callback is called once for the establishment. If no report closes twice,
      it is called once for the close exactly when the connection is closed, and the server is told at most
      once; and only such a report has it called for a second close. */
  lemma CallbackOncePerEnd(wc: bool, hw: bool, mark: nat, deeds: seq<Deed>)
    requires LegalDeeds(Created(wc, hw, mark), deeds)
    ensures var o := RunDeeds(Created(wc, hw, mark), deeds);
            var calls := multiset(o.fx);
            && calls[ConnectionChanged(true)] == (if o.c.state == Connecting then 0 else 1)
            && (!SomeClosesTwice(deeds) ==>
                  calls[ConnectionChanged(false)] == (if o.c.state == Disconnected then 1 else 0)
                  && calls[CloseCallback] <= calls[ConnectionChanged(false)])
            && (calls[ConnectionChanged(false)] >= 2 <==> SomeClosesTwice(deeds))
  {
    CreatedInv(wc, hw, mark);
    DeedsKeepInv(Created(wc, hw, mark), deeds);
    hide LegalDeeds, RunDeeds, SomeClosesTwice, StackAgrees, StreamsConserved;
  }

  /** The run that closes twice: a hang-up with urgent data and no readable data, at the end of the file. */
  lemma HangUpWithUrgentClosesTwice(wc: bool, hw: bool, mark: nat, write: WriteResult)
    ensures var deeds := [Other(EstablishStep), Report(Event(EPOLLHUP | EPOLLPRI, ReadOk([]), [], write))];
            && LegalDeeds(Created(wc, hw, mark), deeds)
            && var o := RunDeeds(Created(wc, hw, mark), deeds);
               && multiset(o.fx)[ConnectionChanged(false)] >= 2
               && o.c.state == Disconnected && o.c.chan == Slice(NONE_EVENT, Added, Some(NONE_EVENT), false)
  {
    var ev := Event(EPOLLHUP | EPOLLPRI, ReadOk([]), [], write);
    var deeds := [Other(EstablishStep), Report(ev)];
    var c0 := Created(wc, hw, mark);
    var c1 := Next(c0, EstablishStep).c;
    CreatedInv(wc, hw, mark);
    EstablishKeepsInv(c0);
    assert ClosesTwice(ev);
    AgreementAfterEventIff(c1, ev);
    HandleEventKeeps(c1, ev);
    hide HandleEvent, ConnInv, ClosesTwice;
    assert deeds[1..] == [Report(ev)] && deeds[1..][1..] == [];
    assert LegalDeeds(c1, [Report(ev)]) && RunDeeds(c1, [Report(ev)]).c == HandleEvent(c1, ev).c;
    assert DeedClosesTwice(deeds[1]);
    CallbackOncePerEnd(wc, hw, mark, deeds);
  }
}
