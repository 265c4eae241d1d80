/** A run of the server, as each of its connections lives through it. */
module Stories {
  import opened Prelude
  import B = BufferSpec
  import C = ConnectionSpec
  import P = ConnectionProofs
  import T = ConnectionTheorems
  import O = ConnectionOutput
  import K = ConnectionCallbacks
  import L = LoopSpec
  import S = ServerSpec
  import opened ReactorSpec
  import opened ReactorProofs
  import opened ReactorSteps
  import opened Ownership
  import opened Lifetime
  import opened ServerReports

  /** What running a task does to its connection. */
  function TaskStep(m: Micro, read: B.ReadResult, write: B.WriteResult): Option<C.Step> {
    match m
    case Body(Establish(_)) => Some(C.EstablishStep)
    case Body(Destroy(_)) => Some(C.DestroyStep)
    case OnClose(_) => Some(C.CloseStep)
    case OnRead(_, _) => Some(C.ReadStep(read, []))
    case OnWrite(_) => Some(C.WriteStep(write))
    case _ => None
  }

  /** What an action does to connection `c`. */
  function StepOf(r: Reactor, a: Action, c: nat): Option<C.Step> {
    match a
    case Exec(l, read, write) =>
      if l < |r.threads| && r.threads[l].todo != [] && Subject(r.threads[l].todo[0]) == c
      then TaskStep(r.threads[l].todo[0], read, write) else None
    case UserCall(_, d, call) => if d == c then Some(C.CallStep(call)) else None
    case _ => None
  }

  function AsSteps(step: Option<C.Step>): seq<C.Step> {
    match step
    case Some(s) => [s]
    case None => []
  }

  /** What a run does to connection `c`, from when it exists. */
  ghost function Story(r: Reactor, actions: seq<Action>, c: nat): seq<C.Step>
    requires LegalRun(r, actions)
    decreases |actions|
  {
    if actions == [] then [] else
    (if c < |r.nodes| then AsSteps(StepOf(r, actions[0], c)) else []) + Story(Next(r, actions[0]), actions[1..], c)
  }

  /** `step`, if there is one, is what takes `conn` to `conn'`. */
  predicate Lives(conn: C.Conn, step: Option<C.Step>, conn': C.Conn) {
    match step
    case None => conn' == conn
    case Some(s) => conn.input.Valid() && C.Enabled(conn, s) && O.OnLoop(s) && conn' == C.Next(conn, s).c
  }

  lemma TaskChangesItsOwn(r: Reactor, l: nat, read: B.ReadResult, write: B.WriteResult)
    requires l < |r.threads| && r.threads[l].todo != []
    requires Subject(r.threads[l].todo[0]) < |r.nodes| && r.nodes[Subject(r.threads[l].todo[0])].conn.input.Valid()
    ensures var m := r.threads[l].todo[0];
            var c := Subject(m);
            var conn := r.nodes[c].conn;
            var step := TaskStep(m, read, write);
            ExecNext(r, l, read, write).nodes ==
              if step.Some? then r.nodes[c := r.nodes[c].(conn := C.Next(conn, step.value).c)] else r.nodes
  {
    hide Pushes, C.Establish, C.Destroy, C.HandleClose, C.HandleRead, C.HandleWrite, S.Apply, L.Next;
  }

  lemma TaskIsEnabled(r: Reactor, l: nat, read: B.ReadResult, write: B.WriteResult)
    requires l < |r.threads| && r.threads[l].todo != [] && Holds(r.threads[l].todo[0]) && Inv(r)
    ensures var m := r.threads[l].todo[0];
            var c := Subject(m);
            var step := TaskStep(m, read, write);
            && c < |r.nodes| && r.nodes[c].conn.input.Valid()
            && (step.Some? ==> C.Enabled(r.nodes[c].conn, step.value) && O.OnLoop(step.value))
  {
    hide Inv, P.ConnInv, Tokens, O.HalfCloseSound;
    var m := r.threads[l].todo[0];
    var c := Subject(m);
    HeadOk(r, l);
    NodeIsOk(r, c);
    InputValid(r.nodes[c].conn);
    if m.Body? && m.f.Establish? { EstablishMeetsConnecting(r, l, c); }
    if IsHandler(m) { HandlerTarget(r, l, c); }
    hide NodeOk;
  }

  lemma TaskIsLived(r: Reactor, l: nat, read: B.ReadResult, write: B.WriteResult)
    requires l < |r.threads| && r.threads[l].todo != [] && Holds(r.threads[l].todo[0]) && Inv(r)
    ensures var m := r.threads[l].todo[0];
            var c := Subject(m);
            var q := ExecNext(r, l, read, write);
            && c < |r.nodes| && |q.nodes| == |r.nodes| && q.nodes == r.nodes[c := q.nodes[c]]
            && Lives(r.nodes[c].conn, TaskStep(m, read, write), q.nodes[c].conn)
  {
    hide Inv, ExecNext, C.Next, C.Enabled, TaskStep, O.OnLoop;
    TaskIsEnabled(r, l, read, write);
    TaskChangesItsOwn(r, l, read, write);
  }

  /** A functor of the user's own is not part of any connection's story. */
  lemma UserIsNotLived(r: Reactor, l: nat, read: B.ReadResult, write: B.WriteResult)
    requires l < |r.threads| && r.threads[l].todo != [] && !Holds(r.threads[l].todo[0])
    ensures ExecNext(r, l, read, write).nodes == r.nodes && TaskStep(r.threads[l].todo[0], read, write) == None
  {
  }

  lemma ExecIsLived(r: Reactor, l: nat, read: B.ReadResult, write: B.WriteResult, c: nat)
    requires c < |r.nodes| && Inv(r) && l < |r.threads| && r.threads[l].todo != []
    ensures var q := ExecNext(r, l, read, write);
            c < |q.nodes| && Lives(r.nodes[c].conn, StepOf(r, Exec(l, read, write), c), q.nodes[c].conn)
  {
    hide Inv, ExecNext, Lives, TaskStep;
    Stays(r.nodes[c].conn);
    if Holds(r.threads[l].todo[0]) {
      TaskIsLived(r, l, read, write);
    } else {
      UserIsNotLived(r, l, read, write);
    }
  }

  lemma ActionIsLived(r: Reactor, a: Action, c: nat)
    requires c < |r.nodes| && Inv(r) && Enabled(r, a)
    ensures c < |Next(r, a).nodes| && Lives(r.nodes[c].conn, StepOf(r, a, c), Next(r, a).nodes[c].conn)
  {
    hide Inv, P.ConnInv, Pushes, C.Call, L.Next, L.Enabled, ExecNext, Owned, Free, Handlers, FreshDescriptor;
    hide Reportable, C.Created, S.Apply, FreshName, InUserCode, Running, OncePerChannel, NextHome;
    match a
    case Exec(l, read, write) => ExecIsLived(r, l, read, write, c);
    case UserCall(l, d, call) => NodeIsOk(r, c); InputValid(r.nodes[c].conn);
    case _ =>
  }

  lemma Stays(conn: C.Conn)
    ensures Lives(conn, None, conn)
  {
  }

  lemma StepThenRest(conn: C.Conn, step: Option<C.Step>, conn': C.Conn, rest: seq<C.Step>)
    requires Lives(conn, step, conn') && C.LegalSteps(conn', rest) && O.AllOnLoop(rest)
    ensures C.LegalSteps(conn, AsSteps(step) + rest)
            && C.RunSteps(conn, AsSteps(step) + rest).c == C.RunSteps(conn', rest).c
    ensures O.AllOnLoop(AsSteps(step) + rest)
  {
    hide C.Next, C.Enabled, O.OnLoop;
    match step
    case Some(s) => T.PrependStep(conn, true, s, rest);
    case None => assert [] + rest == rest;
  }

  /** A connection that exists lives through the rest of the run as through a legal run of its own. */
  lemma {:induction false} StoryFrom(r: Reactor, actions: seq<Action>, c: nat)
    requires Inv(r) && OwnKeys(r) && LegalRun(r, actions) && c < |r.nodes|
    ensures var story := Story(r, actions, c);
            && c < |Run(r, actions).nodes| && C.LegalSteps(r.nodes[c].conn, story) && O.AllOnLoop(story)
            && C.RunSteps(r.nodes[c].conn, story).c == Run(r, actions).nodes[c].conn
    decreases |actions|
  {
    if actions != [] {
      hide Next, Enabled, Inv, OwnKeys, StepOf, Lives, AsSteps;
      var q := Next(r, actions[0]);
      NextKeepsAll(r, actions[0]);
      ActionIsLived(r, actions[0], c);
      StoryFrom(q, actions[1..], c);
      StepThenRest(r.nodes[c].conn, StepOf(r, actions[0], c), q.nodes[c].conn, Story(q, actions[1..], c));
    }
  }

  /** `conn` is what `steps` make of some new connection. */
  ghost predicate Begot(conn: C.Conn, steps: seq<C.Step>) {
    exists wc: bool, hw: bool, mark: nat ::
      && C.LegalSteps(C.Created(wc, hw, mark), steps) && O.AllOnLoop(steps)
      && C.RunSteps(C.Created(wc, hw, mark), steps).c == conn
  }

  lemma NewIsCreated(r: Reactor, a: Action, c: nat)
    requires |r.nodes| <= c < |Next'(r, a).nodes| && Inv(r) && Enabled(r, a)
    ensures c == |r.nodes| && exists wc: bool, hw: bool, mark: nat ::
            Next'(r, a).nodes[c].conn == C.Created(wc, hw, mark)
  {
    hide Inv, Pushes, C.Call, L.Next, L.Enabled, C.Establish, C.Destroy, C.HandleClose, C.HandleRead;
    hide C.HandleWrite, Owned, Free, Handlers;
    hide FreshDescriptor, Reportable, C.Created, S.Apply, NextHome;
  }

  ghost function Next'(r: Reactor, a: Action): Reactor {
    if Enabled(r, a) then Next(r, a) else r
  }

  lemma {:induction false} StoryBegets(r: Reactor, actions: seq<Action>, c: nat)
    requires Inv(r) && OwnKeys(r) && LegalRun(r, actions) && |r.nodes| <= c < |Run(r, actions).nodes|
    ensures Begot(Run(r, actions).nodes[c].conn, Story(r, actions, c))
    decreases |actions|
  {
    hide Next, Enabled, Inv, OwnKeys, Begot;
    var q := Next(r, actions[0]);
    NextKeepsAll(r, actions[0]);
    assert [] + Story(q, actions[1..], c) == Story(q, actions[1..], c);
    if c < |q.nodes| {
      NewIsCreated(r, actions[0], c);
      StoryFrom(q, actions[1..], c);
      Begets(q.nodes[c].conn, Story(q, actions[1..], c));
    } else {
      StoryBegets(q, actions[1..], c);
    }
  }

  lemma Begets(conn: C.Conn, steps: seq<C.Step>)
    requires exists wc: bool, hw: bool, mark: nat :: conn == C.Created(wc, hw, mark)
    requires C.LegalSteps(conn, steps) && O.AllOnLoop(steps)
    ensures Begot(C.RunSteps(conn, steps).c, steps)
  {
    hide C.LegalSteps, C.RunSteps, C.Created;
  }

  /** Every run of the server is, for each of its connections, a legal run of that connection by itself with
      callers on its own loop: what is proved of those runs holds in the server. */
  lemma ServerRunsAreConnectionRuns(loops: nat, setup: Setup, actions: seq<Action>, c: nat)
    requires loops > 0 && LegalRun(Start(loops, setup), actions) && c < |Reached(loops, setup, actions).nodes|
    ensures Begot(Reached(loops, setup, actions).nodes[c].conn, Story(Start(loops, setup), actions, c))
  {
    hide Inv, OwnKeys, LegalRun, Begot;
    StartInv(loops, setup);
    StartKeys(loops, setup);
    StoryBegets(Start(loops, setup), actions, c);
  }

  /** Of some new connection `steps` make `conn`, and call back for its close and tell the server of it so
      many times. */
  ghost predicate BegotTelling(conn: C.Conn, steps: seq<C.Step>, downs: nat, told: nat) {
    exists wc: bool, hw: bool, mark: nat ::
      && C.LegalSteps(C.Created(wc, hw, mark), steps)
      && var o := C.RunSteps(C.Created(wc, hw, mark), steps);
         && o.c == conn
         && multiset(o.fx)[C.ConnectionChanged(false)] == downs && multiset(o.fx)[C.CloseCallback] == told
  }

  lemma BegotTells(conn: C.Conn, steps: seq<C.Step>) returns (told: nat)
    requires Begot(conn, steps)
    ensures told <= conn.hist.downs && BegotTelling(conn, steps, conn.hist.downs, told)
  {
    hide C.LegalSteps, C.RunSteps, O.AllOnLoop;
    var wc: bool, hw: bool, mark: nat :|
      && C.LegalSteps(C.Created(wc, hw, mark), steps) && O.AllOnLoop(steps)
      && C.RunSteps(C.Created(wc, hw, mark), steps).c == conn;
    P.CreatedInv(wc, hw, mark);
    K.StepsAccount(C.Created(wc, hw, mark), steps);
    told := multiset(C.RunSteps(C.Created(wc, hw, mark), steps).fx)[C.CloseCallback];
  }

  /** Unless a report closed it twice, a connection has called its user back for the close once, exactly when it
      is closed, and has told the server no more often. */
  lemma ServerToldOnce(loops: nat, setup: Setup, actions: seq<Action>, c: nat)
    requires loops > 0 && LegalRun(Start(loops, setup), actions) && c < |Reached(loops, setup, actions).nodes|
    requires !RunClosesTwice(Start(loops, setup), actions, c)
    ensures var conn := Reached(loops, setup, actions).nodes[c].conn;
            var downs := if conn.state == C.Disconnected then 1 else 0;
            exists told: nat :: told <= downs && BegotTelling(conn, Story(Start(loops, setup), actions, c), downs, told)
  {
    hide LegalRun, RunClosesTwice, Reached, P.StackOpen, P.StackClosed, Story, Begot, BegotTelling;
    ServerConnectionsSound(loops, setup, actions, c);
    ServerRunsAreConnectionRuns(loops, setup, actions, c);
    var told := BegotTells(Reached(loops, setup, actions).nodes[c].conn, Story(Start(loops, setup), actions, c));
  }
}
