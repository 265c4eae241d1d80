/** The pool of loops and the round robin over it. */
module ThreadPool {

  /** How many of the first `calls` round-robin turns over `n` loops go to loop `i`. */
  function Turns(n: nat, i: nat, calls: nat): nat
    requires n > 0
  {
    if calls == 0 then 0 else Turns(n, i, calls - 1) + (if (calls - 1) % n == i then 1 else 0)
  }

  lemma DivModUnique(k: nat, n: nat, q: nat, r: nat)
    requires r < n && k == q * n + r
    ensures k / n == q && k % n == r
  {
    var d := k / n;
    assert k == d * n + k % n;
    MulMonotone(d + 1, q, n);
    MulMonotone(q + 1, d, n);
  }

  lemma MulMonotone(a: nat, b: nat, n: nat)
    ensures a <= b ==> a * n <= b * n
  {
    if a <= b {
      assert (b - a) * n >= 0;
    }
  }

  lemma NextTurn(n: nat, calls: nat)
    requires n > 0
    ensures (calls + 1) % n == (if calls % n + 1 == n then 0 else calls % n + 1)
    ensures (calls + 1) / n == calls / n + (if calls % n + 1 == n then 1 else 0)
  {
    var q, r := calls / n, calls % n;
    if r + 1 == n {
      DivModUnique(calls + 1, n, q + 1, 0);
    } else {
      DivModUnique(calls + 1, n, q, r + 1);
    }
  }

  lemma SmallMod(k: nat, n: nat)
    ensures k < n ==> k % n == k
  {
    if k < n {
      DivModUnique(k, n, 0, k);
    }
  }

  /** After any number of calls every loop has been handed the floor or the ceiling of its share. */
  lemma {:induction false} RoundRobinBalanced(n: nat, i: nat, calls: nat)
    requires i < n
    ensures Turns(n, i, calls) == calls / n + (if i < calls % n then 1 else 0)
    decreases calls
  {
    if calls > 0 {
      RoundRobinBalanced(n, i, calls - 1);
      NextTurn(n, calls - 1);
    }
  }

  class EventLoopThreadPool<T> {
    const baseLoop: T
    var started: bool
    var numThreads: int
    var next: nat
    var loops: seq<T>
    // How often a loop has been handed out, counted round the loops from where the last start found `next`.
    ghost var calls: nat

    ghost predicate Valid()
      reads this
    {
      if loops == [] then next == 0 else next == calls % |loops|
    }

    constructor (baseLoop: T)
      ensures Valid() && this.baseLoop == baseLoop && loops == [] && numThreads == 0 && !started
    {
      this.baseLoop := baseLoop;
      started, numThreads, next, loops, calls := false, 0, 0, [], 0;
    }

    method SetThreadNum(n: int)
      modifies this`numThreads
      ensures numThreads == n
    {
      numThreads := n;
    }

    /** Start the threads; `startLoop(i)` is the loop the i-th of them runs. The callback is run on the
        base loop when there are no threads, and by each thread otherwise. A second start adds as many
        loops again, and the round goes on from where it was. */
    method Start(startLoop: nat -> T, hasCallback: bool) returns (runOnBase: bool)
      requires Valid()
      modifies this
      ensures Valid() && started && numThreads == old(numThreads) && next == old(next) && calls == next
      ensures old(loops) <= loops && |loops| == |old(loops)| + (if numThreads < 0 then 0 else numThreads)
      ensures forall k: nat :: k < |loops| - |old(loops)| ==> loops[|old(loops)| + k] == startLoop(k)
      ensures runOnBase == (numThreads == 0 && hasCallback)
    {
      InRange();
      started := true;
      calls := next;
      runOnBase := numThreads == 0 && hasCallback;
      if !runOnBase {
        var i := 0;
        while i < numThreads
          invariant 0 <= i && (i <= numThreads || i == 0)
          invariant |loops| == |old(loops)| + i && loops[..|old(loops)|] == old(loops)
          invariant forall k: nat :: k < i ==> loops[|old(loops)| + k] == startLoop(k)
          invariant next == old(next) == calls && started && numThreads == old(numThreads)
        {
          loops := loops + [startLoop(i)];
          i := i + 1;
        }
      }
      SmallMod(next, |loops|);
    }

    lemma InRange()
      requires Valid()
      ensures if loops == [] then next == 0 else next < |loops|
    {
    }

    /** The k-th call hands out loop k mod n, or the base loop when there are no threads. */
    method GetNextLoop() returns (loop: T)
      requires Valid()
      modifies this`next, this`calls
      ensures Valid() && calls == old(calls) + 1
      ensures loop == GetAllLoops()[old(calls) % |GetAllLoops()|]
      ensures loop == if loops == [] then baseLoop else loops[old(calls) % |loops|]
    {
      loop := baseLoop;
      if |loops| != 0 {
        NextTurn(|loops|, calls);
        loop := loops[next];
        next := next + 1;
        if next >= |loops| {
          next := 0;
        }
      }
      calls := calls + 1;
    }

    function GetAllLoops(): (all: seq<T>)
      reads this
      ensures all != [] && forall k: nat :: k < |loops| ==> loops[k] in all
    {
      if loops == [] then [baseLoop] else loops
    }
  }
}
