/** The server as an object: the connection map, the id counter and the pool of loops. */
module TcpServers {
  import opened ServerSpec
  import opened ThreadPool

  /** ++ on a 32-bit int. */
  function Increment(id: int): int {
    if id == INT_RANGE / 2 - 1 then -(INT_RANGE / 2) else id + 1
  }

  lemma WrapIntNext(n: nat)
    ensures WrapInt(n + 1) == Increment(WrapInt(n))
  {
    var m := n % INT_RANGE;
    assert (n + 1) % INT_RANGE == if m + 1 == INT_RANGE then 0 else m + 1;
  }

  /** The names stay good for as long as the counter has not come round. */
  ghost predicate TableOk(t: Table) {
    t.created <= INT_RANGE ==> TableInv(t)
  }

  lemma Inserted(t: Table, id: int)
    requires TableOk(t) && id == WrapInt(t.created + 1)
    ensures TableOk(Apply(t, Insert)) && (t.created < INT_RANGE ==> ConnName(t.prefix, t.created) !in t.entries)
    ensures Apply(t, Insert).entries == t.entries[t.prefix + "#" + ToString(id) := t.created]
    ensures Increment(id) == WrapInt(t.created + 2)
  {
    hide TableInv, WrapInt, ToString;
    if t.created < INT_RANGE {
      InsertKeepsTable(t);
    }
    WrapIntNext(t.created + 1);
  }

  lemma Erased(t: Table, k: nat)
    requires TableOk(t) && k < t.created
    ensures TableOk(Apply(t, Erase(k)))
    ensures t.created <= INT_RANGE && k in t.removed ==> Apply(t, Erase(k)) == t
    ensures Apply(t, Erase(k)).entries == t.entries - {ConnName(t.prefix, k)}
  {
    if t.created <= INT_RANGE {
      EraseKeepsTable(t, k);
    }
    hide TableInv, ConnName;
  }

  /** What the base loop hands to a connection's own loop. */
  datatype Request = Establish(conn: nat) | Destroy(conn: nat)

  /** Connections are known by their number, in order of creation; loops by their index. */
  class TcpServer {
    const prefix: string
    const threadPool: EventLoopThreadPool<nat>
    var started: bool
    var nextConnId: int
    var connections: map<string, nat>
    // How many connection objects were made: the identity of the next one.
    var created: nat
    ghost var removed: set<nat>

    ghost function View(): Table
      reads this
    {
      Table(prefix, connections, created, removed)
    }

    ghost predicate Valid()
      reads this, threadPool
    {
      threadPool.Valid() && TableOk(View()) && nextConnId == WrapInt(created + 1)
    }

    constructor (prefix: string, threadPool: EventLoopThreadPool<nat>)
      requires threadPool.Valid()
      ensures Valid() && View() == Table(prefix, map[], 0, {}) && this.threadPool == threadPool
    {
      this.prefix, this.threadPool := prefix, threadPool;
      started, nextConnId, connections, created, removed := false, 1, map[], 0, {};
    }

    method SetThreadNum(n: int)
      requires Valid()
      modifies threadPool`numThreads
      ensures Valid() && threadPool.numThreads == n
    {
      threadPool.SetThreadNum(n);
    }

    /** Only the first start starts the threads, and has the acceptor listen. */
    method Start(startLoop: nat -> nat, hasCallback: bool) returns (listen: bool, runOnBase: bool)
      requires Valid()
      modifies this`started, threadPool
      ensures Valid() && started && (listen <==> !old(started)) && threadPool.numThreads == old(threadPool.numThreads)
      ensures old(threadPool.loops) <= threadPool.loops
      ensures |threadPool.loops| ==
                |old(threadPool.loops)| + (if listen && threadPool.numThreads > 0 then threadPool.numThreads else 0)
      ensures runOnBase <==> listen && threadPool.numThreads == 0 && hasCallback
    {
      listen, runOnBase := !started, false;
      if listen {
        started := true;
        runOnBase := threadPool.Start(startLoop, hasCallback);
      }
    }

    /** newConnection: the loop comes from the round robin and the name from the counter; below 2^32
        connections none that is still in the map is overwritten. */
    method NewConnection() returns (ioLoop: nat, request: Request)
      requires Valid()
      modifies this`nextConnId, this`connections, this`created, threadPool`next, threadPool`calls
      ensures Valid() && View() == Apply(old(View()), Insert)
      ensures old(created) < INT_RANGE ==> ConnName(prefix, old(created)) !in old(connections)
      ensures request == Establish(old(created))
      ensures ioLoop == if threadPool.loops == [] then threadPool.baseLoop
                        else threadPool.loops[old(threadPool.calls) % |threadPool.loops|]
    {
      ioLoop := threadPool.GetNextLoop();
      request := Establish(created);
      Store();
    }

    /** Name the new connection and enter it. */
    method Store()
      requires TableOk(View()) && nextConnId == WrapInt(created + 1)
      modifies this`nextConnId, this`connections, this`created
      ensures TableOk(View()) && nextConnId == WrapInt(created + 1) && View() == Apply(old(View()), Insert)
      ensures old(created) < INT_RANGE ==> ConnName(prefix, old(created)) !in old(connections)
    {
      Inserted(View(), nextConnId);
      hide WrapInt, TableOk, ToString, ConnName;
      connections := connections[prefix + "#" + ToString(nextConnId) := created];
      nextConnId := Increment(nextConnId);
      created := created + 1;
    }

    /** removeConnectionInLoop, also when it runs a second time for the same connection. */
    method RemoveConnectionInLoop(conn: nat) returns (request: Request)
      requires Valid() && conn < created
      modifies this`connections, this`removed
      ensures Valid() && View() == Apply(old(View()), Erase(conn))
      ensures created <= INT_RANGE && conn in old(removed) ==> View() == old(View())
      ensures request == Destroy(conn)
    {
      Erased(View(), conn);
      hide TableOk, ConnName, WrapInt;
      connections := connections - {ConnName(prefix, conn)};
      removed := removed + {conn};
      request := Destroy(conn);
    }
  }
}
