/** The concurrency limiter of concurrency_limiter.go. A size that is not positive stands for
    the no-op limiter. Each method is one atomic section of the source: an atomic addition, or the
    code between taking and releasing the mutex. */
module ConcurrencyLimiter {
  import opened LimiterSpec

  class WeightedSemaphore {
    const size: int
    const maxWaitDuration: int
    var cur: int
    var uncappedConcurrencyCount: int
    var waiters: seq<Waiter>     // the list, front first
    var ready: seq<Waiter>       // waiters whose channel is closed and who have not resumed yet

    var arrivals: nat            // history: numbers the acquisitions in order of arrival
    ghost var grants: seq<nat>   // history: the numbers of those that got their tokens

    ghost function Abs(): Limiter
      reads this
    {
      Limiter(size, maxWaitDuration, cur, uncappedConcurrencyCount, waiters, ready, arrivals, grants)
    }

    constructor (size: int, maxWait: int)
      ensures Abs() == NewLimiter(size, maxWait)
    {
      this.size := size;
      maxWaitDuration := maxWait;
      cur, uncappedConcurrencyCount := 0, 0;
      waiters, ready := [], [];
      arrivals, grants := 0, [];
    }

    method CountAttempt(n: nat)
      modifies this
      ensures Abs() == Attempt(old(Abs()), n)
    {
      if size > 0 {
        uncappedConcurrencyCount := uncappedConcurrencyCount + n;
      }
    }

    /** The first locked section of acquire: takes tokens if there are enough and nobody waits,
        gives up, or joins the queue. */
    method AcquireSection(id: nat, n: nat) returns (verdict: Verdict)
      modifies this
      ensures (Abs(), verdict) == TryAcquire(old(Abs()), id, n)
      ensures verdict.Granted? <==> size <= 0 || (n <= size - old(cur) && old(waiters) == [])
      ensures verdict.Denied? <==> !verdict.Granted? && (n > size || maxWaitDuration <= 0)
    {
      if size <= 0 {
        return Granted;
      }
      if size - cur >= n && |waiters| == 0 {
        cur := cur + n;
        arrivals, grants := arrivals + 1, grants + [arrivals];
        return Granted;
      }
      if n > size || maxWaitDuration <= 0 {
        arrivals := arrivals + 1;
        return Denied;
      }
      waiters := waiters + [Waiter(id, arrivals, n)];
      arrivals := arrivals + 1;
      verdict := Queued;
    }

    /** The waiter's select sees its channel closed. */
    method ReadySection(id: nat)
      requires Find(ready, id) < |ready|
      modifies this
      ensures Abs() == Resume(old(Abs()), id)
    {
      ready := Without(ready, Find(ready, id));
    }

    /** The locked section after the context is done. */
    method ExpireSection(id: nat) returns (verdict: Verdict)
      requires Waits(waiters + ready, id)
      modifies this
      ensures Find(old(ready), id) == |old(ready)| ==> Find(old(waiters), id) < |old(waiters)|
      ensures (Abs(), verdict) == Expire(old(Abs()), id)
    {
      hide Notify;
      if Find(ready, id) < |ready| {
        ReadySection(id);
        return Granted;
      }
      WaitsInQueue(waiters, ready, id);
      var k := Find(waiters, id);
      waiters := Without(waiters, k);
      if k == 0 && size > cur {
        NotifyWaiters();
      }
      verdict := Denied;
    }

    method UncountSection(n: nat)
      modifies this
      ensures Abs() == Uncount(old(Abs()), n)
    {
      if size > 0 {
        uncappedConcurrencyCount := uncappedConcurrencyCount - n;
      }
    }

    method ReleaseSection(n: nat)
      modifies this
      ensures Abs() == Release(old(Abs()), n)
    {
      hide Notify;
      if size <= 0 {
        return;
      }
      cur := cur - n;
      if cur < 0 {
        cur := 0;
        NotifyWaiters();
        return;
      }
      NotifyWaiters();
    }

    /** Lets waiters through from the front until one does not fit. */
    method NotifyWaiters()
      modifies this
      ensures Abs() == Notify(old(Abs()))
    {
      hide Weight, Fits;
      ghost var k := 0;
      ghost var queue := waiters;
      ghost var free := size - cur;
      FitsStep(free, []);
      while |waiters| > 0
        invariant 0 <= k <= |queue| && waiters == queue[k..]
        invariant ready == old(ready) + queue[..k] && grants == old(grants) + Tickets(queue[..k])
        invariant cur == old(cur) + Weight(queue[..k])
        invariant Fits(free, queue) == k + Fits(size - cur, waiters)
        invariant uncappedConcurrencyCount == old(uncappedConcurrencyCount) && arrivals == old(arrivals)
        decreases |waiters|
      {
        var next := waiters[0];
        FitsStep(size - cur, waiters);
        if size - cur < next.n {
          break;
        }
        assert queue[..k + 1] == queue[..k] + [next];
        assert Tickets(queue[..k + 1]) == Tickets(queue[..k]) + [next.ticket];
        WeightSnoc(queue[..k], next);
        cur := cur + next.n;
        waiters := waiters[1..];
        ready, grants := ready + [next], grants + [next.ticket];
        k := k + 1;
      }
      FitsStep(size - cur, waiters);
    }

    method GetCount(isCapped: bool) returns (count: int)
      ensures count == if Abs().NoOp() then 0 else if isCapped then Abs().cur else Abs().uncapped
    {
      if size <= 0 {
        return 0;
      }
      count := if isCapped then cur else uncappedConcurrencyCount;
    }
  }

  lemma FitsStep(free: int, queue: seq<Waiter>)
    ensures Fits(free, queue) == if queue == [] || free < queue[0].n then 0 else 1 + Fits(free - queue[0].n, queue[1..])
    ensures Weight([]) == 0
  {
  }
}
