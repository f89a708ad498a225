/** The weighted first-in-first-out semaphore of concurrency_limiter.go, as a state machine over
    its locked sections.

    `ready` holds the waiters whose channel has been closed but whose goroutine has not resumed;
    their tokens are already counted in `cur`. `arrivals` numbers the acquisitions in the order in
    which they took the lock, and `grants` lists the numbers of those that got their tokens. */
module LimiterSpec {

  datatype Waiter = Waiter(id: nat, ticket: nat, n: nat)

  datatype Limiter = Limiter(size: int, maxWait: int, cur: int, uncapped: int,
                             queue: seq<Waiter>, ready: seq<Waiter>, arrivals: nat, grants: seq<nat>) {
    /** A size that is not positive disables the limiter. */
    predicate NoOp() {
      size <= 0
    }

    /** The tokens held by calls that have resumed. */
    function Out(): int {
      cur - Weight(ready)
    }
  }

  datatype Verdict = Granted | Denied | Queued

  function NewLimiter(size: int, maxWait: int): Limiter {
    Limiter(size, maxWait, 0, 0, [], [], 0, [])
  }

  function Weight(ws: seq<Waiter>): int {
    if ws == [] then 0 else ws[0].n + Weight(ws[1..])
  }

  function Tickets(ws: seq<Waiter>): seq<nat> {
    seq(|ws|, i requires 0 <= i < |ws| => ws[i].ticket)
  }

  ghost predicate Waits(ws: seq<Waiter>, id: nat) {
    exists k :: 0 <= k < |ws| && ws[k].id == id
  }

  function Find(ws: seq<Waiter>, id: nat): (k: nat)
    ensures k <= |ws|
    ensures k < |ws| ==> ws[k].id == id
    ensures forall j :: 0 <= j < k ==> ws[j].id != id
  {
    if ws == [] || ws[0].id == id then 0 else 1 + Find(ws[1..], id)
  }

  function Without(ws: seq<Waiter>, k: nat): seq<Waiter>
    requires k < |ws|
  {
    ws[..k] + ws[k + 1..]
  }

  // ---- The locked sections -----------------------------------------------------------------

  /** The number of waiters `notifyWaiters` lets through, from the front of the queue. */
  function Fits(free: int, queue: seq<Waiter>): (k: nat)
    ensures k <= |queue|
  {
    if queue == [] || free < queue[0].n then 0 else 1 + Fits(free - queue[0].n, queue[1..])
  }

  function Notify(l: Limiter): Limiter {
    var k := Fits(l.size - l.cur, l.queue);
    l.(cur := l.cur + Weight(l.queue[..k]), queue := l.queue[k..],
       ready := l.ready + l.queue[..k], grants := l.grants + Tickets(l.queue[..k]))
  }

  /** The atomic addition at the head of `acquire`. */
  function Attempt(l: Limiter, n: nat): Limiter {
    if l.NoOp() then l else l.(uncapped := l.uncapped + n)
  }

  /** The first locked section of `acquire`. */
  function TryAcquire(l: Limiter, id: nat, n: nat): (Limiter, Verdict) {
    if l.NoOp() then (l, Granted)
    else if l.size - l.cur >= n && l.queue == [] then
      (l.(cur := l.cur + n, arrivals := l.arrivals + 1, grants := l.grants + [l.arrivals]), Granted)
    else if n > l.size || l.maxWait <= 0 then
      (l.(arrivals := l.arrivals + 1), Denied)
    else
      (l.(queue := l.queue + [Waiter(id, l.arrivals, n)], arrivals := l.arrivals + 1), Queued)
  }

  /** The waiter sees its channel closed. */
  function Resume(l: Limiter, id: nat): Limiter
    requires Find(l.ready, id) < |l.ready|
  {
    l.(ready := Without(l.ready, Find(l.ready, id)))
  }

  /** The locked section after the deadline: a waiter that has been granted its tokens in the
      meantime keeps them, any other leaves the queue. */
  function Expire(l: Limiter, id: nat): (Limiter, Verdict)
    requires Find(l.ready, id) == |l.ready| ==> Find(l.queue, id) < |l.queue|
  {
    if Find(l.ready, id) < |l.ready| then (Resume(l, id), Granted)
    else
      var k := Find(l.queue, id);
      var left := l.(queue := Without(l.queue, k));
      (if k == 0 && l.size > l.cur then Notify(left) else left, Denied)
  }

  lemma ExpireIsFinal(l: Limiter, id: nat)
    requires Find(l.ready, id) < |l.ready| || Find(l.queue, id) < |l.queue|
    ensures !Expire(l, id).1.Queued?
  {
    hide Notify;
  }

  /** A failed acquisition that does not wait leaves the semaphore unchanged, but for the uncapped
      count, which keeps the weight: nothing at all has changed if and only if the weight is zero. */
  lemma DeniedAcquireLeaves(l: Limiter, id: nat, n: nat)
    requires !l.NoOp() && TryAcquire(Attempt(l, n), id, n).1.Denied?
    ensures var l' := TryAcquire(Attempt(l, n), id, n).0;
            && l'.cur == l.cur && l'.queue == l.queue && l'.ready == l.ready && l'.grants == l.grants
            && l'.uncapped == l.uncapped + n
            && (l'.uncapped == l.uncapped <==> n == 0)
  {
  }

  /** A failed acquisition that waited takes its waiter off the queue and keeps its weight in the
      uncapped count. Otherwise the semaphore is unchanged if and only if the waiter was not at the
      front, or whoever is next does not fit; else the next ones get their tokens. */
  lemma ExpiredAcquireLeaves(l: Limiter, id: nat)
    requires LimiterOk(l) && !l.NoOp() && Waits(l.queue + l.ready, id) && Find(l.ready, id) == |l.ready|
    ensures Find(l.queue, id) < |l.queue|
    ensures var k := Find(l.queue, id);
            var left, l' := Without(l.queue, k), Expire(l, id).0;
            && l'.uncapped == l.uncapped && l'.Out() == l.Out()
            && (l' == l.(queue := left) <==>
                  k != 0 || l.size == l.cur || left == [] || left[0].n > l.size - l.cur)
  {
    ExpireKeeps(l, id);
    var k := Find(l.queue, id);
    var left := Without(l.queue, k);
    hide LimiterOk, Waits, Find, Limiter.Out;
    if k == 0 && l.size > l.cur {
      NotifyChangesIff(l.(queue := left));
    }
  }

  lemma NotifyChangesIff(l: Limiter)
    ensures Notify(l) == l <==> l.queue == [] || l.queue[0].n > l.size - l.cur
  {
    var k := Fits(l.size - l.cur, l.queue);
    if k == 0 {
      assert l.ready + l.queue[..0] == l.ready && l.grants + Tickets(l.queue[..0]) == l.grants;
    } else {
      assert |Notify(l).queue| < |l.queue|;
    }
  }

  /** The atomic addition at the head of `release`. */
  function Uncount(l: Limiter, n: nat): Limiter {
    if l.NoOp() then l else l.(uncapped := l.uncapped - n)
  }

  /** The locked section of `release`; a count that would become negative is set to zero. */
  function Release(l: Limiter, n: nat): Limiter {
    if l.NoOp() then l
    else if l.cur - n < 0 then Notify(l.(cur := 0))
    else Notify(l.(cur := l.cur - n))
  }

  // ---- Invariant ---------------------------------------------------------------------------

  ghost predicate Increasing(s: seq<nat>) {
    forall i, j :: 0 <= i < j < |s| ==> s[i] < s[j]
  }

  /** No waiter is left asleep that could be let through. */
  ghost predicate Awake(l: Limiter) {
    l.queue == [] || l.queue[0].n > l.size - l.cur || l.cur == l.size
  }

  /** The tickets granted and those still queued are in order of arrival. */
  ghost predicate InOrder(l: Limiter) {
    var order := l.grants + Tickets(l.queue);
    Increasing(order) && forall k :: 0 <= k < |order| ==> order[k] < l.arrivals
  }

  ghost predicate Distinct(ws: seq<Waiter>) {
    forall i, j :: 0 <= i < j < |ws| ==> ws[i].id != ws[j].id
  }

  ghost predicate LimiterOk(l: Limiter) {
    if l.NoOp() then l.cur == 0 && l.uncapped == 0 && l.queue == [] && l.ready == []
    else
      && 0 <= l.cur <= l.size
      && (forall k :: 0 <= k < |l.queue| ==> l.queue[k].n <= l.size)
      && Awake(l)
      && InOrder(l)
      && Distinct(l.queue + l.ready)
  }

  // ---- Sums and prefixes -------------------------------------------------------------------

  lemma {:induction false} WeightConcat(a: seq<Waiter>, b: seq<Waiter>)
    ensures Weight(a + b) == Weight(a) + Weight(b)
  {
    if a == [] {
      assert a + b == b;
    } else {
      WeightConcat(a[1..], b);
      assert (a + b)[1..] == a[1..] + b;
    }
  }

  lemma {:induction false} WeightIsNatural(ws: seq<Waiter>)
    ensures Weight(ws) >= 0
  {
    if ws != [] {
      WeightIsNatural(ws[1..]);
    }
  }

  lemma WeightWithout(ws: seq<Waiter>, k: nat)
    requires k < |ws|
    ensures Weight(Without(ws, k)) == Weight(ws) - ws[k].n
  {
    hide Weight;
    WeightConcat(ws[..k], ws[k + 1..]);
    WeightConcat(ws[..k], ws[k..]);
    assert ws == ws[..k] + ws[k..];
    WeightOfFirst(ws[k..]);
    assert ws[k..][1..] == ws[k + 1..];
  }

  lemma WeightOfFirst(ws: seq<Waiter>)
    requires ws != []
    ensures Weight(ws) == ws[0].n + Weight(ws[1..])
  {
  }

  lemma WeightSnoc(ws: seq<Waiter>, w: Waiter)
    ensures Weight([]) == 0 && Weight(ws + [w]) == Weight(ws) + w.n
  {
    WeightConcat(ws, [w]);
    assert [w][1..] == [];
  }

  /** `notifyWaiters` grants exactly the longest prefix of the queue whose weight fits. */
  lemma {:induction false} FitsIsLongestPrefix(free: int, queue: seq<Waiter>)
    requires free >= 0
    ensures forall k :: 0 <= k <= |queue| ==> (Weight(queue[..k]) <= free <==> k <= Fits(free, queue))
  {
    forall k | 0 <= k <= |queue|
      ensures Weight(queue[..k]) <= free <==> k <= Fits(free, queue)
    {
      if k > 0 {
        var rest := queue[1..];
        assert queue[..k][1..] == rest[..k - 1];
        if free < queue[0].n {
          WeightIsNatural(rest[..k - 1]);
        } else {
          FitsIsLongestPrefix(free - queue[0].n, rest);
        }
      }
    }
  }

  /** Where the granted prefix ends, the queue is empty or its front does not fit. */
  lemma {:induction false} FitsStops(free: int, queue: seq<Waiter>)
    requires free >= 0
    ensures var k := Fits(free, queue);
            && Weight(queue[..k]) <= free
            && (k < |queue| ==> queue[k].n > free - Weight(queue[..k]))
  {
    if queue == [] || free < queue[0].n {
    } else {
      var k := Fits(free - queue[0].n, queue[1..]);
      FitsStops(free - queue[0].n, queue[1..]);
      assert queue[..k + 1][1..] == queue[1..][..k];
    }
  }

  /** Everything about the limiter except that its waiters are awake. */
  ghost predicate Sound(l: Limiter) {
    && !l.NoOp() && 0 <= l.cur <= l.size
    && (forall k :: 0 <= k < |l.queue| ==> l.queue[k].n <= l.size)
    && InOrder(l) && Distinct(l.queue + l.ready)
  }

  /** `notifyWaiters` wakes whom it can, keeps the order of arrival, and moves tokens only from the
      free ones to the waiters it lets through. */
  lemma NotifyKeeps(l: Limiter)
    requires Sound(l)
    ensures LimiterOk(Notify(l)) && Notify(l).Out() == l.Out()
    ensures Notify(l).uncapped == l.uncapped && Notify(l).size == l.size && Notify(l).maxWait == l.maxWait
    ensures Notify(l).queue == [] || Notify(l).queue[0].n > Notify(l).size - Notify(l).cur
  {
    hide Weight, Fits;
    var k := Fits(l.size - l.cur, l.queue);
    var l' := Notify(l);
    FitsStops(l.size - l.cur, l.queue);
    WeightIsNatural(l.queue[..k]);
    WeightConcat(l.ready, l.queue[..k]);
    assert l'.grants + Tickets(l'.queue) == l.grants + Tickets(l.queue);
    DistinctMoves(l.queue, k, l.ready);
  }

  lemma DistinctMoves(queue: seq<Waiter>, k: nat, ready: seq<Waiter>)
    requires k <= |queue| && Distinct(queue + ready)
    ensures Distinct(queue[k..] + (ready + queue[..k]))
  {
    var before, after := queue + ready, queue[k..] + (ready + queue[..k]);
    forall i | 0 <= i < |after|
      ensures after[i] == before[if i < |before| - k then i + k else i + k - |before|]
    {
    }
    forall i, j | 0 <= i < j < |after|
      ensures after[i].id != after[j].id
    {
      var i', j' := if i < |before| - k then i + k else i + k - |before|, if j < |before| - k then j + k
        else j + k - |before|;
      assert after[i] == before[i'] && after[j] == before[j'];
      if i' < j' { assert before[i'].id != before[j'].id; } else { assert before[j'].id != before[i'].id; }
    }
  }

  /** The first locked section. A grant adds exactly the weight asked for; a denial or a place in
      the queue charges nothing. */
  lemma TryAcquireKeeps(l: Limiter, id: nat, n: nat)
    requires LimiterOk(l) && !Waits(l.queue + l.ready, id)
    ensures var (l', verdict) := TryAcquire(l, id, n);
            && LimiterOk(l')
            && (!l.NoOp() ==> l'.Out() == l.Out() + if verdict.Granted? then n else 0)
            && l'.uncapped == l.uncapped
            && (verdict.Queued? <==> l'.queue == l.queue + [Waiter(id, l.arrivals, n)])
            && (!verdict.Queued? ==> l'.queue == l.queue) && l'.ready == l.ready
  {
    hide Weight;
    var (l', verdict) := TryAcquire(l, id, n);
    if !l.NoOp() {
      if verdict.Granted? {
        assert l'.grants + Tickets(l'.queue) == l.grants + Tickets(l.queue) + [l.arrivals];
      } else if verdict.Queued? {
        var w := Waiter(id, l.arrivals, n);
        assert l'.grants + Tickets(l'.queue) == l.grants + Tickets(l.queue) + [l.arrivals];
        DistinctInsert(l.queue, w, l.ready);
      }
    }
  }

  lemma DistinctInsert(queue: seq<Waiter>, w: Waiter, ready: seq<Waiter>)
    requires Distinct(queue + ready) && !Waits(queue + ready, w.id)
    ensures Distinct(queue + [w] + ready)
  {
    var before, after := queue + ready, queue + [w] + ready;
    forall i, j | 0 <= i < j < |after|
      ensures after[i].id != after[j].id
    {
      var i', j' := if i < |queue| then i else i - 1, if j < |queue| then j else j - 1;
      if i == |queue| {
        assert after[j] == before[j'];
      } else if j == |queue| {
        assert after[i] == before[i'];
      } else {
        assert after[i] == before[i'] && after[j] == before[j'];
      }
    }
  }

  lemma DistinctWithout(queue: seq<Waiter>, ready: seq<Waiter>, k: nat)
    requires Distinct(queue + ready)
    ensures k < |queue| ==> Distinct(Without(queue, k) + ready) && !Waits(Without(queue, k) + ready, queue[k].id)
    ensures k < |ready| ==> Distinct(queue + Without(ready, k)) && !Waits(queue + Without(ready, k), ready[k].id)
  {
    var all := queue + ready;
    if k < |queue| {
      assert Without(queue, k) + ready == Without(all, k);
      DistinctDrop(all, k);
    }
    if k < |ready| {
      assert queue + Without(ready, k) == Without(all, |queue| + k);
      DistinctDrop(all, |queue| + k);
    }
  }

  lemma DistinctDrop(ws: seq<Waiter>, k: nat)
    requires k < |ws| && Distinct(ws)
    ensures Distinct(Without(ws, k)) && !Waits(Without(ws, k), ws[k].id)
  {
    var rest := Without(ws, k);
    assert forall i :: 0 <= i < |rest| ==> rest[i] == ws[if i < k then i else i + 1];
  }

  /** A waiter that resumes takes over tokens that were already counted. */
  lemma ResumeKeeps(l: Limiter, id: nat)
    requires LimiterOk(l) && !l.NoOp() && Find(l.ready, id) < |l.ready|
    ensures var l' := Resume(l, id);
            && LimiterOk(l') && l'.Out() == l.Out() + l.ready[Find(l.ready, id)].n
            && l'.uncapped == l.uncapped && l'.queue == l.queue
            && !Waits(l'.queue + l'.ready, id)
  {
    hide Weight;
    var k := Find(l.ready, id);
    WeightWithout(l.ready, k);
    DistinctWithout(l.queue, l.ready, k);
  }

  /** The timeout race has two outcomes: the waiter was granted its tokens and keeps them, or it
      leaves the queue and nothing is charged. Either way it is gone from both lists. */
  lemma ExpireKeeps(l: Limiter, id: nat)
    requires LimiterOk(l) && !l.NoOp() && Waits(l.queue + l.ready, id)
    ensures Find(l.ready, id) == |l.ready| ==> Find(l.queue, id) < |l.queue|
    ensures var (l', verdict) := Expire(l, id);
            && LimiterOk(l')
            && (verdict.Granted? <==> Find(l.ready, id) < |l.ready|)
            && l'.Out() == l.Out() + (if verdict.Granted? then l.ready[Find(l.ready, id)].n else 0)
            && l'.uncapped == l.uncapped
            && !verdict.Queued?
            && !Waits(l'.queue + l'.ready, id)
  {
    hide Weight, Fits;
    if Find(l.ready, id) < |l.ready| {
      ResumeKeeps(l, id);
    } else {
      var k := Find(l.queue, id);
      WaitsInQueue(l.queue, l.ready, id);
      var left := l.(queue := Without(l.queue, k));
      DistinctWithout(l.queue, l.ready, k);
      OrderWithout(l, k);
      if k == 0 && l.size > l.cur {
        NotifyKeeps(left);
        NotifyMoves(left, id);
      }
    }
  }

  lemma WaitsInQueue(queue: seq<Waiter>, ready: seq<Waiter>, id: nat)
    requires Waits(queue + ready, id) && Find(ready, id) == |ready|
    ensures Find(queue, id) < |queue|
  {
    var k :| 0 <= k < |queue + ready| && (queue + ready)[k].id == id;
  }

  lemma OrderWithout(l: Limiter, k: nat)
    requires k < |l.queue| && InOrder(l)
    ensures InOrder(l.(queue := Without(l.queue, k)))
  {
    var order, order' := l.grants + Tickets(l.queue), l.grants + Tickets(Without(l.queue, k));
    assert forall i :: 0 <= i < |order'| ==> order'[i] == order[if i < |l.grants| + k then i else i + 1];
  }

  /** `notifyWaiters` neither adds nor loses a waiter. */
  lemma NotifyMoves(l: Limiter, id: nat)
    ensures Waits(l.queue + l.ready, id) <==> Waits(Notify(l).queue + Notify(l).ready, id)
  {
    hide Weight, Fits, Tickets;
    var k := Fits(l.size - l.cur, l.queue);
    WaitsRotates(l.queue, k, l.ready, id);
  }

  lemma WaitsRotates(queue: seq<Waiter>, k: nat, ready: seq<Waiter>, id: nat)
    requires k <= |queue|
    ensures Waits(queue + ready, id) <==> Waits(queue[k..] + (ready + queue[..k]), id)
  {
    var before, after := queue + ready, queue[k..] + (ready + queue[..k]);
    if i :| 0 <= i < |before| && before[i].id == id {
      assert after[if i >= k then i - k else i - k + |before|].id == id;
    }
    if i :| 0 <= i < |after| && after[i].id == id {
      assert before[if i < |before| - k then i + k else i + k - |before|].id == id;
    }
  }

  /** Releasing tokens that are held takes exactly them back. Releasing more than is counted is
      clamped, so the limiter never counts more than is held. */
  lemma ReleaseKeeps(l: Limiter, n: nat)
    requires LimiterOk(l) && !l.NoOp()
    ensures var l' := Release(l, n);
            && LimiterOk(l') && l'.uncapped == l.uncapped
            && l'.Out() == (if l.cur >= n then l.Out() - n else -Weight(l.ready))
            && (l'.queue == [] || l'.queue[0].n > l'.size - l'.cur)
  {
    hide Weight, Fits;
    NotifyKeeps(if l.cur - n < 0 then l.(cur := 0) else l.(cur := l.cur - n));
  }

  /** `notifyWaiters` neither adds nor loses a waiter, ... */
  lemma NotifyMembers(l: Limiter)
    ensures forall p :: p in Notify(l).queue + Notify(l).ready <==> p in l.queue + l.ready
  {
    hide Weight, Fits, Tickets;
    var k := Fits(l.size - l.cur, l.queue);
    assert l.queue == l.queue[..k] + l.queue[k..];
  }

  /** ... and taking one waiter out leaves the others. */
  lemma WithoutMembers(ws: seq<Waiter>, k: nat)
    requires k < |ws|
    ensures forall p :: p in Without(ws, k) ==> p in ws
    ensures forall p :: p in ws && p.id != ws[k].id ==> p in Without(ws, k)
  {
    assert ws == ws[..k] + [ws[k]] + ws[k + 1..];
  }

  /** Nobody overtakes: every acquisition that ever got tokens arrived before every waiter that is
      still queued. */
  lemma NoBarging(l: Limiter, g: nat, q: nat)
    requires LimiterOk(l) && !l.NoOp() && g < |l.grants| && q < |l.queue|
    ensures l.grants[g] < l.queue[q].ticket
  {
    var order := l.grants + Tickets(l.queue);
    assert order[g] == l.grants[g] && order[|l.grants| + q] == l.queue[q].ticket;
  }

  /** A waiter is only ever kept waiting by tokens that are taken. */
  lemma QueueMeansTaken(l: Limiter)
    requires LimiterOk(l) && l.queue != []
    ensures l.cur > 0
  {
  }
}
