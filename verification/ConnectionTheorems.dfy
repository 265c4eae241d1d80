/** The promises of a TcpConnection, over every run of its handlers and every answer of the kernel. */
module ConnectionTheorems {
  import opened Prelude
  import opened BufferSpec
  import opened EPollSpec
  import opened ConnectionSpec
  import opened ConnectionProofs

  /** The state after a run of a new connection. */
  function Reached(wc: bool, hw: bool, mark: nat, steps: seq<Step>): Conn
    requires LegalSteps(Created(wc, hw, mark), steps)
  {
    RunSteps(Created(wc, hw, mark), steps).c
  }

  // ----- Reports -----

  function OnlyIf(on: bool, step: Step): seq<Step> {
    if on then [step] else []
  }

  /** One report, as the run of the handlers it selects. */
  function EventSteps(ev: Event): seq<Step> {
    OnlyIf(SelectsClose(ev.revents), CloseStep)
    + (OnlyIf(SelectsRead(ev.revents), ReadStep(ev.read, ev.calls))
       + (OnlyIf(SelectsWrite(ev.revents), WriteStep(ev.write)) + []))
  }

  lemma PrependStep(c: Conn, on: bool, step: Step, rest: seq<Step>)
    requires on ==> c.input.Valid() && Enabled(c, step)
    requires LegalSteps(if on then Next(c, step).c else c, rest)
    ensures LegalSteps(c, OnlyIf(on, step) + rest)
    ensures RunSteps(c, OnlyIf(on, step) + rest).c == RunSteps(if on then Next(c, step).c else c, rest).c
  {
    hide Next, Enabled;
    if on {
      assert ([step] + rest)[1..] == rest;
    } else {
      assert [] + rest == rest;
    }
  }

  /** What a user's call cannot touch. */
  predicate SameLife(c: Conn, d: Conn) {
    && d.hist.doubled == c.hist.doubled && d.hist.downs == c.hist.downs && d.hist.destroyed == c.hist.destroyed
    && (IsUp(d) <==> IsUp(c)) && (d.state == Connecting <==> c.state == Connecting)
    && (c.state == Disconnecting ==> d.state == Disconnecting)
  }

  lemma CallKeepsLife(c: Conn, call: UserCall)
    ensures SameLife(c, Call(c, call).c)
  {
    hide Append, Retrieve, SliceSet, Changed, Has, Taken, IsWriting;
  }

  lemma {:induction false} CallAllKeepsLife(c: Conn, calls: seq<UserCall>)
    ensures SameLife(c, CallAll(c, calls).c)
    decreases |calls|
  {
    if calls != [] {
      CallKeepsLife(c, calls[0]);
      CallAllKeepsLife(Call(c, calls[0]).c, calls[1..]);
      hide Call;
    }
  }

  predicate EndOfFile(answer: ReadResult) {
    answer.ReadOk? && answer.data == []
  }

  lemma HandleReadLife(c: Conn, answer: ReadResult, calls: seq<UserCall>)
    requires ConnInv(c) && c.state != Connecting && !c.hist.destroyed
    ensures var d := HandleRead(c, answer, calls).c;
            && d.state != Connecting && !d.hist.destroyed
            && (EndOfFile(answer) ==>
                 d.state == Disconnected && (d.hist.doubled <==> c.hist.doubled || c.state == Disconnected))
            && (!EndOfFile(answer) ==> (IsUp(d) <==> IsUp(c)) && d.hist.doubled == c.hist.doubled)
  {
    if answer.ReadOk? && !EndOfFile(answer) {
      var data := Delivered(c, answer.data);
      ScatterReadIsExact(c.input, data);
      CallAllKeepsLife(c.(input := ReadFd(c.input, data), hist := c.hist.(received := c.hist.received + data)), calls);
    }
  }

  /** The report that runs the close handler twice: a hang-up without readable data, urgent data, and
      a read that finds the end of file. */
  predicate ClosesTwice(ev: Event) {
    SelectsClose(ev.revents) && SelectsRead(ev.revents) && EndOfFile(ev.read)
  }

  function AfterClose(c: Conn, ev: Event): (a: Conn)
    ensures a.input == c.input
  {
    if SelectsClose(ev.revents) then HandleClose(c).c else c
  }

  function AfterRead(c: Conn, ev: Event): Conn
    requires c.input.Valid()
  {
    if SelectsRead(ev.revents) then HandleRead(c, ev.read, ev.calls).c else c
  }

  lemma AfterCloseSound(c: Conn, ev: Event)
    requires ConnInv(c) && c.state != Connecting && !c.hist.destroyed
    ensures var a := AfterClose(c, ev);
            && ConnInv(a) && a.state != Connecting && !a.hist.destroyed
            && (SelectsClose(ev.revents) ==> a.state == Disconnected && a.hist.downs == c.hist.downs + 1)
            && (SelectsClose(ev.revents) ==> (a.hist.doubled <==> c.hist.doubled || c.state == Disconnected))
  {
    if SelectsClose(ev.revents) { HandleCloseKeepsInv(c); }
  }

  lemma AfterReadSound(a: Conn, ev: Event)
    requires ConnInv(a) && a.state != Connecting && !a.hist.destroyed
    ensures var b := AfterRead(a, ev);
            && ConnInv(b) && b.state != Connecting && !b.hist.destroyed
  {
    if SelectsRead(ev.revents) {
      HandleReadLife(a, ev.read, ev.calls);
      HandleReadKeepsInv(a, ev.read, ev.calls);
    }
  }

  /** Dispatching a report is the run of its handlers. */
  lemma EventIsItsHandlers(c: Conn, ev: Event)
    requires ConnInv(c) && c.state != Connecting && !c.hist.destroyed
    ensures LegalSteps(c, EventSteps(ev))
    ensures HandleEvent(c, ev).c == RunSteps(c, EventSteps(ev)).c
  {
    hide HandleClose, HandleRead, HandleWrite, SelectsClose, SelectsRead, SelectsWrite;
    hide CallbacksCounted, StackAgrees, StreamsConserved, Layout.Valid, Slice.Valid;
    var a := AfterClose(c, ev);
    AfterCloseSound(c, ev);
    var b := AfterRead(a, ev);
    AfterReadSound(a, ev);
    PrependStep(b, SelectsWrite(ev.revents), WriteStep(ev.write), []);
    PrependStep(a, SelectsRead(ev.revents), ReadStep(ev.read, ev.calls),
        OnlyIf(SelectsWrite(ev.revents), WriteStep(ev.write)) + []);
    PrependStep(c, SelectsClose(ev.revents), CloseStep,
      OnlyIf(SelectsRead(ev.revents), ReadStep(ev.read, ev.calls)) +
          (OnlyIf(SelectsWrite(ev.revents), WriteStep(ev.write)) + []));
  }

  lemma HandleWriteLife(c: Conn, answer: WriteResult)
    requires ConnInv(c)
    ensures var d := HandleWrite(c, answer).c;
            d.state == c.state && d.hist.doubled == c.hist.doubled && d.hist.downs == c.hist.downs
            && (c.state == Disconnected ==> d == c)
  {
    HandleWriteKeepsInv(c, answer);
  }

  /** On an open connection the layers agree after a report exactly when it does not close twice; when
      it does, the close callback has run twice and the channel is back in the kernel set, unlisted. */
  lemma AgreementAfterEventIff(c: Conn, ev: Event)
    requires ConnInv(c) && IsUp(c)
    ensures var d := HandleEvent(c, ev).c;
            && (StackAgrees(d) <==> !ClosesTwice(ev)) && (d.hist.doubled <==> ClosesTwice(ev))
            && (ClosesTwice(ev) ==> d.hist.downs == 2 && d.chan == Slice(NONE_EVENT, Added, Some(NONE_EVENT), false))
  {
    var a, b := AfterClose(c, ev), AfterRead(AfterClose(c, ev), ev);
    AfterCloseSound(c, ev);
    AfterReadSound(a, ev);
    if SelectsRead(ev.revents) { HandleReadLife(a, ev.read, ev.calls); }
    HandleWriteLife(b, ev.write);
    HandleWriteKeepsInv(b, ev.write);
    if ClosesTwice(ev) {
      SecondCloseReturns(c, ev);
    }
  }

  lemma SecondCloseReturns(c: Conn, ev: Event)
    requires ConnInv(c) && IsUp(c) && ClosesTwice(ev)
    ensures var b := AfterRead(AfterClose(c, ev), ev);
            b.hist.downs == 2 && b.state == Disconnected && b.chan == Slice(NONE_EVENT, Added, Some(NONE_EVENT), false)
  {
  }

  /** connectDestroyed leaves the layers agreeing exactly when no half-close is under way. */
  lemma DestroyAgreesIff(c: Conn)
    requires ConnInv(c) && c.state != Connecting
    ensures StackAgrees(Destroy(c).c) <==> c.state != Disconnecting
  {
  }
}
