/**
 * The bounded retry queue of the MT4 connectors
 * (connectors/master-ea-mt4/Include/ForexCopy/Http.mqh and
 * connectors/slave-ea-mt4/Include/ForexCopy/SlaveHttp.mqh, the same code with other constants).
 * Status codes are answers of the environment: arbitrary integers, -1 for a transport failure.
 */
module RetryQueue {
  import opened Common

  const MAX_ATTEMPTS := 8
  const FIRST_DELAY_MS := 2000

  datatype RetryItem<P> = RetryItem(payload: P, attempts: nat, nextAttemptAtMs: nat)

  /** One connector's queue and everything that ever happened to the payloads given to it. */
  datatype State<P> = State(
    queue: seq<RetryItem<P>>, posted: seq<P>, acknowledged: seq<P>, evicted: seq<P>, givenUp: seq<P>)

  /** The Master's queue holds 200 items and takes 200 and 202 for accepted, the Slave's holds 100 and takes 200. */
  datatype Config = Config(capacity: nat, accepted: set<int>)

  function BackoffMs(attempts: nat): nat { (if attempts * 2 < 60 then attempts * 2 else 60) * 1000 }

  // ---------------------------------------------------------------- one pass, item by item

  datatype Fate<P> = Waits(item: RetryItem<P>) | Acknowledged | GivenUp

  predicate Due<P>(item: RetryItem<P>, now: nat) { item.nextAttemptAtMs <= now }

  function FateOf<P>(item: RetryItem<P>, now: nat, status: int, accepted: set<int>): Fate<P> {
    if !Due(item, now) then Waits(item)
    else if status in accepted then Acknowledged
    else if item.attempts >= MAX_ATTEMPTS then GivenUp
    else Waits(RetryItem(item.payload, item.attempts + 1, now + BackoffMs(item.attempts + 1)))
  }

  /** What a pass leaves of the items from index i on: each one kept, updated or dropped, in order. */
  function PassFrom<P>(q: seq<RetryItem<P>>, i: nat, now: nat, reply: nat -> int, accepted: set<int>): seq<RetryItem<P>>
    requires i <= |q|
    decreases |q| - i
  {
    if i == |q| then []
    else
      var fate := FateOf(q[i], now, reply(i), accepted);
      (if fate.Waits? then [fate.item] else []) + PassFrom(q, i + 1, now, reply, accepted)
  }

  /** The payloads a pass posts, newest first: every due one, once. */
  function PostsFrom<P>(q: seq<RetryItem<P>>, i: nat, now: nat): seq<P>
    requires i <= |q|
    decreases |q| - i
  {
    if i == |q| then []
    else PostsFrom(q, i + 1, now) + if Due(q[i], now) then [q[i].payload] else []
  }

  /** The payloads a pass takes off the queue for one reason. */
  ghost function LeavingFrom<P>(
      q: seq<RetryItem<P>>, i: nat, now: nat, reply: nat -> int, accepted: set<int>, fate: Fate<P>): seq<P>
    requires i <= |q|
    decreases |q| - i
  {
    if i == |q| then []
    else
      LeavingFrom(q, i + 1, now, reply, accepted, fate)
      + if FateOf(q[i], now, reply(i), accepted) == fate then [q[i].payload] else []
  }

  // ---------------------------------------------------------------- operations on states

  datatype Op<P> =
    | Send(payload: P, status: int, queuedAt: nat)
    | Pass(now: nat, reply: nat -> int)

  function Enqueued<P>(config: Config, s: State<P>, payload: P, now: nat): State<P>
    requires config.capacity > 0
  {
    var full := |s.queue| >= config.capacity;
    s.(queue := (if full then s.queue[1..] else s.queue) + [RetryItem(payload, 1, now + FIRST_DELAY_MS)],
       evicted := s.evicted + if full then [s.queue[0].payload] else [])
  }

  ghost function Apply<P>(config: Config, s: State<P>, op: Op<P>): State<P>
    requires config.capacity > 0
  {
    match op
    case Send(payload, status, queuedAt) =>
      var sent := s.(posted := s.posted + [payload]);
      if status in config.accepted then sent.(acknowledged := s.acknowledged + [payload])
      else Enqueued(config, sent, payload, queuedAt)
    case Pass(now, reply) =>
      State(PassFrom(s.queue, 0, now, reply, config.accepted),
            s.posted + PostsFrom(s.queue, 0, now),
            s.acknowledged + LeavingFrom(s.queue, 0, now, reply, config.accepted, Acknowledged),
            s.evicted,
            s.givenUp + LeavingFrom(s.queue, 0, now, reply, config.accepted, GivenUp))
  }

  lemma Split<T>(s: seq<T>, left: seq<T>, x: T, right: seq<T>)
    requires s == left + [x] + right
    ensures s[..|left|] == left && s[|left|] == x && s[|left| + 1..] == right
  {}

  // ---------------------------------------------------------------- the code

  class RetryClient<P(0)> {
    const config: Config
    const queue: array<RetryItem<P>>
    var size: nat
    ghost var posted: seq<P>
    ghost var acknowledged: seq<P>
    ghost var evicted: seq<P>
    ghost var givenUp: seq<P>

    ghost predicate Valid()
      reads this
    {
      size <= queue.Length == config.capacity && config.capacity > 0
    }

    ghost function View(): State<P>
      reads this, queue
      requires Valid()
    {
      State(queue[..size], posted, acknowledged, evicted, givenUp)
    }

    constructor (config: Config)
      requires config.capacity > 0
      ensures Valid() && this.config == config && fresh(queue)
      ensures View() == State([], [], [], [], [])
    {
      this.config := config;
      queue := new RetryItem<P>[config.capacity];
      size := 0;
      posted, acknowledged, evicted, givenUp := [], [], [], [];
    }

    /** Shifts everything behind index i one place forward and shortens the queue. */
    method RemoveAt(i: nat)
      requires Valid() && i < size
      modifies this`size, queue
      ensures Valid() && size == old(size) - 1
      ensures queue[..size] == old(queue[..i] + queue[i + 1..size])
    {
      ghost var before := queue[..size];
      var j := i;
      while j < size - 1
        invariant size == |before| && i <= j <= size - 1
        invariant queue[..j] == before[..i] + before[i + 1..j + 1]
        invariant queue[j + 1..size] == before[j + 1..]
      {
        ghost var next := queue[j + 1];
        assert next == before[j + 1] by { assert queue[j + 1..size][0] == next; }
        queue[j] := queue[j + 1];
        assert queue[..j + 1] == queue[..j] + [next];
        assert before[i + 1..j + 2] == before[i + 1..j + 1] + [next];
        assert queue[j + 2..size] == before[j + 1..][1..];
        j := j + 1;
      }
      size := size - 1;
      assert before[i + 1..] == before[i + 1..j + 1];
    }

    method Enqueue(payload: P, now: nat)
      requires Valid()
      modifies this`size, this`evicted, queue
      ensures Valid() && View() == Enqueued(config, old(View()), payload, now)
    {
      if size >= config.capacity {
        evicted := evicted + [queue[0].payload];
        RemoveAt(0);
      }
      queue[size] := RetryItem(payload, 1, now + FIRST_DELAY_MS);
      size := size + 1;
      assert queue[..size] == queue[..size - 1] + [queue[size - 1]];
    }

    /** SendEvent / SendExecutionResult: `status` is the answer, `queuedAt` the clock when it was not accepted. */
    method SendEvent(payload: P, status: int, queuedAt: nat) returns (ok: bool)
      requires Valid()
      modifies this`size, this`posted, this`acknowledged, this`evicted, queue
      ensures Valid() && ok == (status in config.accepted)
      ensures View() == Apply(config, old(View()), Send(payload, status, queuedAt))
    {
      posted := posted + [payload];
      if status in config.accepted {
        acknowledged := acknowledged + [payload];
        return true;
      }
      Enqueue(payload, queuedAt);
      return false;
    }

    /** One turn of the backward loop: post the item at index i if it is due, then drop or reschedule it in place. */
    method ProcessItem(i: nat, now: nat, status: int)
      requires Valid() && i < size
      modifies this`size, this`posted, this`acknowledged, this`givenUp, queue
      ensures Valid()
      ensures var item, fate := old(queue[i]), FateOf(old(queue[i]), now, status, config.accepted);
              && queue[..size] == old(queue[..i]) + (if fate.Waits? then [fate.item] else []) + old(queue[i + 1..size])
              && posted == old(posted) + (if Due(item, now) then [item.payload] else [])
              && acknowledged == old(acknowledged) + (if fate.Acknowledged? then [item.payload] else [])
              && givenUp == old(givenUp) + (if fate.GivenUp? then [item.payload] else [])
    {
      ghost var left, right := queue[..i], queue[i + 1..size];
      assert queue[..size] == left + [queue[i]] + right;
      if queue[i].nextAttemptAtMs > now { return; }
      posted := posted + [queue[i].payload];
      if status in config.accepted {
        acknowledged := acknowledged + [queue[i].payload];
        RemoveAt(i);
        return;
      }
      queue[i] := queue[i].(attempts := queue[i].attempts + 1);
      if queue[i].attempts > MAX_ATTEMPTS {
        givenUp := givenUp + [queue[i].payload];
        RemoveAt(i);
        return;
      }
      var backoffMs := (if queue[i].attempts * 2 < 60 then queue[i].attempts * 2 else 60) * 1000;
      queue[i] := queue[i].(nextAttemptAtMs := now + backoffMs);
      assert queue[..size] == left + [queue[i]] + right;
    }

    /** The backward loop; reply(i) answers the post of the item that stood at index i. */
    method ProcessRetryQueue(now: nat, reply: nat -> int)
      requires Valid()
      modifies this`size, this`posted, this`acknowledged, this`givenUp, queue
      ensures Valid() && View() == Apply(config, old(View()), Pass(now, reply))
    {
      ghost var q := queue[..size];
      assert q[..size] == q;
      var i := size;
      while i > 0
        invariant Valid() && 0 <= i <= |q|
        invariant queue[..size] == q[..i] + PassFrom(q, i, now, reply, config.accepted)
        invariant posted == old(posted) + PostsFrom(q, i, now)
        invariant acknowledged == old(acknowledged) + LeavingFrom(q, i, now, reply, config.accepted, Acknowledged)
        invariant givenUp == old(givenUp) + LeavingFrom(q, i, now, reply, config.accepted, GivenUp)
        invariant evicted == old(evicted)
      {
        i := i - 1;
        ghost var rest := PassFrom(q, i + 1, now, reply, config.accepted);
        assert q[..i + 1] == q[..i] + [q[i]];
        Split(queue[..size], q[..i], q[i], rest);
        assert queue[i] == queue[..size][i] && queue[..i] == queue[..size][..i]
               && queue[i + 1..size] == queue[..size][i + 1..];
        ProcessItem(i, now, reply(i));
      }
    }
  }
}
