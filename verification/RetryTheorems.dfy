/** What holds of the retry queue over every run of sends and passes. */
module RetryTheorems {
  import opened Common
  import opened RetryQueue

  ghost function Run<P>(config: Config, ops: seq<Op<P>>): State<P>
    requires config.capacity > 0
  {
    if ops == [] then State([], [], [], [], [])
    else Apply(config, Run(config, ops[..|ops| - 1]), ops[|ops| - 1])
  }

  /** The payloads handed to SendEvent over a run. */
  function Given<P>(ops: seq<Op<P>>): seq<P> {
    if ops == [] then []
    else Given(ops[..|ops| - 1]) + match ops[|ops| - 1] case Send(p, _, _) => [p] case Pass(_, _) => []
  }

  /** How many queued items carry p. */
  ghost function Held<P>(q: seq<RetryItem<P>>, p: P): nat {
    if q == [] then 0 else (if q[0].payload == p then 1 else 0) + Held(q[1..], p)
  }

  ghost predicate DistinctPayloads<P>(q: seq<RetryItem<P>>) {
    forall i, j :: 0 <= i < j < |q| ==> q[i].payload != q[j].payload
  }

  lemma {:induction false} HeldSnoc<P>(q: seq<RetryItem<P>>, item: RetryItem<P>, p: P)
    ensures Held(q + [item], p) == Held(q, p) + if item.payload == p then 1 else 0
  {
    if q == [] {
      assert q + [item] == [item];
    } else {
      assert (q + [item])[1..] == q[1..] + [item];
      HeldSnoc(q[1..], item, p);
    }
  }

  lemma SnocCount<P>(s: seq<P>, x: P, p: P)
    ensures Count(s + [x], p) == Count(s, p) + if x == p then 1 else 0
    ensures Count(s + [], p) == Count(s, p)
  {
    assert (s + [x])[..|s|] == s;
    assert s + [] == s;
  }

  // ---------------------------------------------------------------- nothing is lost unaccounted for

  lemma {:induction false} PassConserves<P>(
      q: seq<RetryItem<P>>, i: nat, now: nat, reply: nat -> int, accepted: set<int>, p: P)
    requires i <= |q|
    ensures |PassFrom(q, i, now, reply, accepted)| <= |q| - i
    ensures Held(q[i..], p)
         == Held(PassFrom(q, i, now, reply, accepted), p)
            + Count(LeavingFrom(q, i, now, reply, accepted, Acknowledged), p)
            + Count(LeavingFrom(q, i, now, reply, accepted, GivenUp), p)
    decreases |q| - i
  {
    if i < |q| {
      var fate, rest := FateOf(q[i], now, reply(i), accepted), PassFrom(q, i + 1, now, reply, accepted);
      PassConserves(q, i + 1, now, reply, accepted, p);
      assert q[i..][1..] == q[i + 1..];
      if fate.Waits? {
        assert ([fate.item] + rest)[1..] == rest;
      } else {
        assert [] + rest == rest;
      }
      SnocCount(LeavingFrom(q, i + 1, now, reply, accepted, Acknowledged), q[i].payload, p);
      SnocCount(LeavingFrom(q, i + 1, now, reply, accepted, GivenUp), q[i].payload, p);
    }
  }

  /** Every payload given is acknowledged, queued, evicted or given up, as often as it was given. */
  ghost predicate Accounted<P>(given: seq<P>, s: State<P>, p: P) {
    Count(given, p)
    == Count(s.acknowledged, p) + Held(s.queue, p) + Count(s.evicted, p) + Count(s.givenUp, p)
  }

  /** Enqueuing moves at most the head of a full queue to the evicted ones. */
  lemma EnqueueConserves<P>(config: Config, s: State<P>, x: P, now: nat, p: P)
    requires 0 < config.capacity && |s.queue| <= config.capacity
    ensures var s' := Enqueued(config, s, x, now);
            && |s'.queue| <= config.capacity
            && Held(s'.queue, p) + Count(s'.evicted, p)
            == Held(s.queue, p) + Count(s.evicted, p) + if x == p then 1 else 0
  {
    var item := RetryItem(x, 1, now + FIRST_DELAY_MS);
    if |s.queue| >= config.capacity {
      HeldSnoc(s.queue[1..], item, p);
      SnocCount(s.evicted, s.queue[0].payload, p);
    } else {
      HeldSnoc(s.queue, item, p);
      SnocCount(s.evicted, x, p);
    }
  }

  lemma SendAccounts<P>(config: Config, given: seq<P>, s: State<P>, x: P, status: int, now: nat, p: P)
    requires config.capacity > 0 && Accounted(given, s, p) && |s.queue| <= config.capacity
    ensures |Apply(config, s, Send(x, status, now)).queue| <= config.capacity
    ensures Accounted(given + [x], Apply(config, s, Send(x, status, now)), p)
  {
    SnocCount(given, x, p);
    if status in config.accepted {
      SnocCount(s.acknowledged, x, p);
    } else {
      EnqueueConserves(config, s.(posted := s.posted + [x]), x, now, p);
    }
  }

  lemma PassAccounts<P>(config: Config, given: seq<P>, s: State<P>, now: nat, reply: nat -> int, p: P)
    requires config.capacity > 0 && Accounted(given, s, p) && |s.queue| <= config.capacity
    ensures |Apply(config, s, Pass(now, reply)).queue| <= config.capacity
    ensures Accounted(given, Apply(config, s, Pass(now, reply)), p)
  {
    PassConserves(s.queue, 0, now, reply, config.accepted, p);
    assert s.queue[0..] == s.queue;
    CountConcat(s.acknowledged, LeavingFrom(s.queue, 0, now, reply, config.accepted, Acknowledged), p);
    CountConcat(s.givenUp, LeavingFrom(s.queue, 0, now, reply, config.accepted, GivenUp), p);
  }

  /** The queue stays within its bound, and no payload is lost or doubled between the four places it can be in. */
  lemma {:induction false} EveryEventIsAccountedFor<P>(config: Config, ops: seq<Op<P>>, p: P)
    requires config.capacity > 0
    ensures |Run(config, ops).queue| <= config.capacity
    ensures Accounted(Given(ops), Run(config, ops), p)
  {
    if ops != [] {
      var front, op := ops[..|ops| - 1], ops[|ops| - 1];
      EveryEventIsAccountedFor(config, front, p);
      match op
      case Send(x, status, now) => SendAccounts(config, Given(front), Run(config, front), x, status, now, p);
      case Pass(now, reply) =>
        PassAccounts(config, Given(front), Run(config, front), now, reply, p);
        assert Given(ops) == Given(front);
    }
  }

  // ---------------------------------------------------------------- at most nine posts

  /** A queued payload was posted as often as its attempts say, and only given payloads were ever posted. */
  ghost predicate PostsMatchAttempts<P(!new)>(given: seq<P>, s: State<P>) {
    && DistinctPayloads(s.queue)
    && (forall item :: item in s.queue ==>
          1 <= item.attempts <= MAX_ATTEMPTS && item.payload in given && Count(s.posted, item.payload) == item.attempts)
    && (forall p :: Count(s.posted, p) <= if p in given then MAX_ATTEMPTS + 1 else 0)
  }

  /** A pass posts each due payload once and nothing else. */
  lemma {:induction false} PostsOfPass<P>(q: seq<RetryItem<P>>, i: nat, now: nat, p: P)
    requires i <= |q| && DistinctPayloads(q)
    ensures (forall k :: i <= k < |q| ==> q[k].payload != p) ==> Count(PostsFrom(q, i, now), p) == 0
    ensures forall k :: i <= k < |q| && q[k].payload == p ==>
              Count(PostsFrom(q, i, now), p) == if Due(q[k], now) then 1 else 0
    decreases |q| - i
  {
    if i < |q| {
      PostsOfPass(q, i + 1, now, p);
      SnocCount(PostsFrom(q, i + 1, now), q[i].payload, p);
    }
  }

  /** Where an item of the queue after a pass came from. */
  lemma {:induction false} PassOrigin<P>(q: seq<RetryItem<P>>, i: nat, now: nat, reply: nat -> int, accepted: set<int>)
    requires i <= |q|
    ensures forall item :: item in PassFrom(q, i, now, reply, accepted) ==>
              exists k :: i <= k < |q| && FateOf(q[k], now, reply(k), accepted) == Waits(item)
    decreases |q| - i
  {
    if i < |q| { PassOrigin(q, i + 1, now, reply, accepted); }
  }

  lemma {:induction false} PassKeepsDistinct<P>(
      q: seq<RetryItem<P>>, i: nat, now: nat, reply: nat -> int, accepted: set<int>)
    requires i <= |q| && DistinctPayloads(q)
    ensures DistinctPayloads(PassFrom(q, i, now, reply, accepted))
    decreases |q| - i
  {
    if i < |q| {
      var rest := PassFrom(q, i + 1, now, reply, accepted);
      PassKeepsDistinct(q, i + 1, now, reply, accepted);
      var fate := FateOf(q[i], now, reply(i), accepted);
      if fate.Waits? {
        PassOrigin(q, i + 1, now, reply, accepted);
        forall j | 0 <= j < |rest| ensures rest[j].payload != q[i].payload {
          assert rest[j] in rest;
        }
      }
    }
  }

  lemma SendKeepsPosts<P(!new)>(config: Config, given: seq<P>, s: State<P>, p: P, status: int, now: nat)
    requires config.capacity > 0 && PostsMatchAttempts(given, s) && p !in given
    ensures PostsMatchAttempts(given + [p], Apply(config, s, Send(p, status, now)))
  {
    var s' := Apply(config, s, Send(p, status, now));
    forall x ensures Count(s'.posted, x) == Count(s.posted, x) + if x == p then 1 else 0 { SnocCount(s.posted, p, x); }
    if status !in config.accepted {
      var kept := if |s.queue| >= config.capacity then s.queue[1..] else s.queue;
      forall j | 0 <= j < |kept| ensures kept[j].payload != p { assert kept[j] in s.queue; }
    }
  }

  lemma PassKeepsPosts<P(!new)>(config: Config, given: seq<P>, s: State<P>, now: nat, reply: nat -> int)
    requires config.capacity > 0 && PostsMatchAttempts(given, s)
    ensures PostsMatchAttempts(given, Apply(config, s, Pass(now, reply)))
  {
    var q, s' := s.queue, Apply(config, s, Pass(now, reply));
    forall p ensures Count(s'.posted, p) == Count(s.posted, p) + Count(PostsFrom(q, 0, now), p) {
      CountConcat(s.posted, PostsFrom(q, 0, now), p);
    }
    PassKeepsDistinct(q, 0, now, reply, config.accepted);
    PassOrigin(q, 0, now, reply, config.accepted);
    forall item | item in s'.queue
      ensures 1 <= item.attempts <= MAX_ATTEMPTS && item.payload in given
              && Count(s'.posted, item.payload) == item.attempts
    {
      var k :| 0 <= k < |q| && FateOf(q[k], now, reply(k), config.accepted) == Waits(item);
      assert q[k] in q;
      PostsOfPass(q, 0, now, item.payload);
    }
    forall p ensures Count(s'.posted, p) <= if p in given then MAX_ATTEMPTS + 1 else 0 {
      PostsOfPass(q, 0, now, p);
      if k :| 0 <= k < |q| && q[k].payload == p { assert q[k] in q; }
    }
  }

  lemma DistinctFront<T>(s: seq<T>, x: T)
    requires Distinct(s + [x])
    ensures Distinct(s) && x !in s
  {
    forall i, j | 0 <= i < j < |s| + 1 ensures (s + [x])[i] != (s + [x])[j] {}
    forall i, j | 0 <= i < j < |s| ensures s[i] != s[j] { assert (s + [x])[i] != (s + [x])[j]; }
    forall i | 0 <= i < |s| ensures s[i] != x { assert (s + [x])[i] != (s + [x])[|s|]; }
  }

  /**
   * Over any run that gives each event once, an event is posted at most nine times, and as often as its attempts say.
   */
  lemma {:induction false} AtMostNinePosts<P(!new)>(config: Config, ops: seq<Op<P>>)
    requires config.capacity > 0 && Distinct(Given(ops))
    ensures PostsMatchAttempts(Given(ops), Run(config, ops))
  {
    if ops != [] {
      var front, op := ops[..|ops| - 1], ops[|ops| - 1];
      match op
      case Send(p, status, now) =>
        DistinctFront(Given(front), p);
        AtMostNinePosts(config, front);
        SendKeepsPosts(config, Given(front), Run(config, front), p, status, now);
      case Pass(now, reply) =>
        assert Given(ops) == Given(front);
        AtMostNinePosts(config, front);
        PassKeepsPosts(config, Given(front), Run(config, front), now, reply);
    }
  }

  // ---------------------------------------------------------------- when an event is given up

  /** Where what leaves the queue came from. */
  lemma {:induction false} LeavingOrigin<P>(
      q: seq<RetryItem<P>>, i: nat, now: nat, reply: nat -> int, accepted: set<int>, fate: Fate<P>)
    requires i <= |q|
    ensures forall p :: p in LeavingFrom(q, i, now, reply, accepted, fate) ==>
              exists k :: i <= k < |q| && q[k].payload == p && FateOf(q[k], now, reply(k), accepted) == fate
    decreases |q| - i
  {
    if i < |q| { LeavingOrigin(q, i + 1, now, reply, accepted, fate); }
  }

  lemma {:induction false} HeldMember<P>(q: seq<RetryItem<P>>, p: P)
    ensures Held(q, p) > 0 <==> exists k :: 0 <= k < |q| && q[k].payload == p
  {
    if q != [] {
      HeldMember(q[1..], p);
      if k :| 0 <= k < |q| && q[k].payload == p {
        if k > 0 { assert q[1..][k - 1].payload == p; }
      }
    }
  }

  lemma {:induction false} DistinctCount<T>(s: seq<T>, x: T)
    requires Distinct(s)
    ensures Count(s, x) <= 1
  {
    if s != [] {
      assert s == s[..|s| - 1] + [s[|s| - 1]];
      DistinctFront(s[..|s| - 1], s[|s| - 1]);
      DistinctCount(s[..|s| - 1], x);
      CountMember(s[..|s| - 1], x);
    }
  }

  /** Given up means posted nine times, never accepted, and not queued any more. */
  ghost predicate IsSpent<P>(s: State<P>, p: P) {
    p in s.givenUp ==> Count(s.posted, p) == 9 && p !in s.acknowledged && Held(s.queue, p) == 0
  }

  lemma InOnePlace<P>(config: Config, ops: seq<Op<P>>, p: P)
    requires config.capacity > 0 && Distinct(Given(ops)) && p in Run(config, ops).givenUp
    ensures var s := Run(config, ops); p !in s.acknowledged && Held(s.queue, p) == 0 && p in Given(ops)
  {
    var s := Run(config, ops);
    EveryEventIsAccountedFor(config, ops, p);
    DistinctCount(Given(ops), p);
    CountMember(Given(ops), p);
    CountMember(s.givenUp, p);
    CountMember(s.acknowledged, p);
  }

  lemma SendKeepsPostCount<P>(s: State<P>, x: P, p: P)
    requires x != p
    ensures Count(s.posted + [x], p) == Count(s.posted, p)
  {
    SnocCount(s.posted, x, p);
  }

  /** The pass that gives an event up posts it once more, and that is the ninth time. */
  lemma PassSpends<P(!new)>(config: Config, given: seq<P>, s: State<P>, now: nat, reply: nat -> int, p: P)
    requires config.capacity > 0 && PostsMatchAttempts(given, s) && p in Apply(config, s, Pass(now, reply)).givenUp
    requires p in s.givenUp ==> Count(s.posted, p) == 9 && Held(s.queue, p) == 0
    ensures Count(Apply(config, s, Pass(now, reply)).posted, p) == 9
  {
    var q := s.queue;
    CountConcat(s.posted, PostsFrom(q, 0, now), p);
    PostsOfPass(q, 0, now, p);
    HeldMember(q, p);
    if p !in s.givenUp {
      LeavingOrigin(q, 0, now, reply, config.accepted, GivenUp);
      var k :| 0 <= k < |q| && q[k].payload == p && FateOf(q[k], now, reply(k), config.accepted) == GivenUp;
      assert q[k] in q;
    }
  }

  /** Over any run that gives each event once, an event is given up only on its ninth post, none of them accepted. */
  lemma {:induction false} GivenUpOnlyOnNinth<P(!new)>(config: Config, ops: seq<Op<P>>, p: P)
    requires config.capacity > 0 && Distinct(Given(ops))
    ensures IsSpent(Run(config, ops), p)
  {
    if ops != [] && p in Run(config, ops).givenUp {
      var front, op := ops[..|ops| - 1], ops[|ops| - 1];
      InOnePlace(config, ops, p);
      match op
      case Send(x, status, now) =>
        DistinctFront(Given(front), x);
        GivenUpOnlyOnNinth(config, front, p);
        InOnePlace(config, front, p);
        SendKeepsPostCount(Run(config, front), x, p);
      case Pass(now, reply) =>
        assert Given(ops) == Given(front);
        GivenUpOnlyOnNinth(config, front, p);
        AtMostNinePosts(config, front);
        PassSpends(config, Given(front), Run(config, front), now, reply, p);
    }
  }

  // ---------------------------------------------------------------- oldest evicted, newest posted first

  ghost predicate Earlier<P>(given: seq<P>, x: P, y: P) {
    exists a, b :: 0 <= a < b < |given| && given[a] == x && given[b] == y
  }

  lemma EarlierStays<P>(given: seq<P>, more: seq<P>, x: P, y: P)
    requires Earlier(given, x, y)
    ensures Earlier(given + more, x, y)
  {
    var a, b :| 0 <= a < b < |given| && given[a] == x && given[b] == y;
    assert (given + more)[a] == x && (given + more)[b] == y;
  }

  lemma EarlierThanLast<P>(given: seq<P>, x: P, y: P)
    requires x in given
    ensures Earlier(given + [y], x, y)
  {
    var a :| 0 <= a < |given| && given[a] == x;
    assert (given + [y])[a] == x && (given + [y])[|given|] == y;
  }

  /** The queue is in the order the events were given in. */
  ghost predicate QueueInOrder<P>(given: seq<P>, q: seq<RetryItem<P>>) {
    && (forall i :: 0 <= i < |q| ==> q[i].payload in given)
    && (forall i, j :: 0 <= i < j < |q| ==> Earlier(given, q[i].payload, q[j].payload))
  }

  /** Everything evicted was given before everything queued. */
  ghost predicate EvictedAreOlder<P(!new)>(given: seq<P>, s: State<P>) {
    && (forall p :: p in s.evicted ==> p in given)
    && (forall p, i :: p in s.evicted && 0 <= i < |s.queue| ==> Earlier(given, p, s.queue[i].payload))
  }

  lemma {:induction false} PassKeepsOrder<P>(
      given: seq<P>, q: seq<RetryItem<P>>, i: nat, now: nat, reply: nat -> int, accepted: set<int>)
    requires i <= |q| && QueueInOrder(given, q)
    ensures QueueInOrder(given, PassFrom(q, i, now, reply, accepted))
    decreases |q| - i
  {
    if i < |q| {
      var rest, fate := PassFrom(q, i + 1, now, reply, accepted), FateOf(q[i], now, reply(i), accepted);
      PassKeepsOrder(given, q, i + 1, now, reply, accepted);
      PassOrigin(q, i + 1, now, reply, accepted);
      if fate.Waits? {
        forall j | 0 <= j < |rest| ensures Earlier(given, q[i].payload, rest[j].payload) {
          assert rest[j] in rest;
          var k :| i + 1 <= k < |q| && FateOf(q[k], now, reply(k), accepted) == Waits(rest[j]);
        }
      }
    }
  }

  lemma {:induction false} PostsOrigin<P>(q: seq<RetryItem<P>>, i: nat, now: nat)
    requires i <= |q|
    ensures forall p :: p in PostsFrom(q, i, now) ==> exists k :: i <= k < |q| && q[k].payload == p
    decreases |q| - i
  {
    if i < |q| { PostsOrigin(q, i + 1, now); }
  }

  ghost predicate NewestFirst<P>(given: seq<P>, posts: seq<P>) {
    forall a, b :: 0 <= a < b < |posts| ==> Earlier(given, posts[b], posts[a])
  }

  /** A pass posts the newest due event first. */
  lemma {:induction false} NewestPostedFirst<P>(given: seq<P>, q: seq<RetryItem<P>>, i: nat, now: nat)
    requires i <= |q| && QueueInOrder(given, q)
    ensures NewestFirst(given, PostsFrom(q, i, now))
    decreases |q| - i
  {
    if i < |q| {
      var later := PostsFrom(q, i + 1, now);
      NewestPostedFirst(given, q, i + 1, now);
      PostsOrigin(q, i + 1, now);
      forall a | 0 <= a < |later| ensures Earlier(given, q[i].payload, later[a]) {
        assert later[a] in later;
        var k :| i + 1 <= k < |q| && q[k].payload == later[a];
      }
      var posts := PostsFrom(q, i, now);
      assert posts == later + if Due(q[i], now) then [q[i].payload] else [];
      forall a, b | 0 <= a < b < |posts| ensures Earlier(given, posts[b], posts[a]) {
        if b < |later| {
          assert Earlier(given, later[b], later[a]);
        } else {
          assert Earlier(given, q[i].payload, later[a]);
        }
      }
    }
  }

  lemma SendKeepsOrder<P(!new)>(config: Config, given: seq<P>, s: State<P>, x: P, status: int, now: nat)
    requires config.capacity > 0 && QueueInOrder(given, s.queue) && EvictedAreOlder(given, s)
    ensures var s' := Apply(config, s, Send(x, status, now));
            QueueInOrder(given + [x], s'.queue) && EvictedAreOlder(given + [x], s')
  {
    var s' := Apply(config, s, Send(x, status, now));
    forall p, y | Earlier(given, p, y) ensures Earlier(given + [x], p, y) { EarlierStays(given, [x], p, y); }
    forall p | p in given ensures Earlier(given + [x], p, x) { EarlierThanLast(given, p, x); }
  }

  lemma PassKeepsEvicted<P(!new)>(config: Config, given: seq<P>, s: State<P>, now: nat, reply: nat -> int)
    requires config.capacity > 0 && QueueInOrder(given, s.queue) && EvictedAreOlder(given, s)
    ensures EvictedAreOlder(given, Apply(config, s, Pass(now, reply)))
  {
    var q, q' := s.queue, PassFrom(s.queue, 0, now, reply, config.accepted);
    PassOrigin(q, 0, now, reply, config.accepted);
    forall p, j | p in s.evicted && 0 <= j < |q'| ensures Earlier(given, p, q'[j].payload) {
      assert q'[j] in q';
      var k :| 0 <= k < |q| && FateOf(q[k], now, reply(k), config.accepted) == Waits(q'[j]);
    }
  }

  /** Over every run the queue keeps the order of giving, and what was evicted was older than all that is queued. */
  lemma {:induction false} OldestIsEvicted<P(!new)>(config: Config, ops: seq<Op<P>>)
    requires config.capacity > 0
    ensures QueueInOrder(Given(ops), Run(config, ops).queue) && EvictedAreOlder(Given(ops), Run(config, ops))
  {
    if ops != [] {
      var front, op := ops[..|ops| - 1], ops[|ops| - 1];
      OldestIsEvicted(config, front);
      match op
      case Send(x, status, now) => SendKeepsOrder(config, Given(front), Run(config, front), x, status, now);
      case Pass(now, reply) =>
        assert Given(ops) == Given(front);
        PassKeepsOrder(Given(front), Run(config, front).queue, 0, now, reply, config.accepted);
        PassKeepsEvicted(config, Given(front), Run(config, front), now, reply);
    }
  }

  // ---------------------------------------------------------------- how long an item can stay queued

  /** A payload together with the clock reading at which it was queued. */
  datatype Stamped<Q> = Stamped(event: Q, born: nat)

  function TimeOf<P>(op: Op<P>): nat {
    match op case Send(_, _, t) => t case Pass(t, _) => t
  }

  function Clock<P>(ops: seq<Op<P>>): nat { if ops == [] then 0 else TimeOf(ops[|ops| - 1]) }

  function LastPass<P>(ops: seq<Op<P>>): nat {
    if ops == [] then 0
    else match ops[|ops| - 1] case Send(_, _, _) => LastPass(ops[..|ops| - 1]) case Pass(t, _) => t
  }

  /** The clock never goes back, and a pass starts at most `period` after the one before it. */
  ghost predicate Timely<Q>(ops: seq<Op<Stamped<Q>>>, period: nat) {
    ops == [] ||
    (var front, op := ops[..|ops| - 1], ops[|ops| - 1];
     && Timely(front, period)
     && Clock(front) <= TimeOf(op)
     && (op.Send? ==> op.payload.born == op.queuedAt)
     && (op.Pass? ==> op.now <= LastPass(front) + period))
  }

  ghost predicate OnSchedule<Q>(item: RetryItem<Stamped<Q>>, lastPass: nat, period: nat) {
    && 1 <= item.attempts <= MAX_ATTEMPTS
    && lastPass < item.nextAttemptAtMs
    && item.payload.born + 1000 * item.attempts * (item.attempts + 1) <= item.nextAttemptAtMs
    && item.nextAttemptAtMs <= item.payload.born + 1000 * item.attempts * (item.attempts + 1)
      + (item.attempts - 1) * period
  }

  lemma RescheduledInTime<Q>(
      item: RetryItem<Stamped<Q>>, lastPass: nat, period: nat, now: nat, status: int, accepted: set<int>)
    requires OnSchedule(item, lastPass, period) && lastPass <= now <= lastPass + period
    ensures var fate := FateOf(item, now, status, accepted); fate.Waits? ==> OnSchedule(fate.item, now, period)
  {
    var a := item.attempts;
    if Due(item, now) {
      assert 1000 * (a + 1) * (a + 2) == 1000 * a * (a + 1) + 2000 * (a + 1);
      assert a * period == (a - 1) * period + period;
    }
  }

  lemma {:induction false} QueueOnSchedule<Q>(config: Config, ops: seq<Op<Stamped<Q>>>, period: nat)
    requires config.capacity > 0 && Timely(ops, period)
    ensures LastPass(ops) <= Clock(ops)
    ensures forall item :: item in Run(config, ops).queue ==> OnSchedule(item, LastPass(ops), period)
  {
    if ops != [] {
      var front, op := ops[..|ops| - 1], ops[|ops| - 1];
      QueueOnSchedule(config, front, period);
      match op
      case Send(p, status, now) =>
      case Pass(now, reply) =>
        var q := Run(config, front).queue;
        PassOrigin(q, 0, now, reply, config.accepted);
        forall item | item in Run(config, ops).queue ensures OnSchedule(item, now, period) {
          var k :| 0 <= k < |q| && FateOf(q[k], now, reply(k), config.accepted) == Waits(item);
          assert q[k] in q;
          RescheduledInTime(q[k], LastPass(front), period, now, reply(k), config.accepted);
        }
    }
  }

  /** With passes at most `period` ms apart, an item still queued is younger than 72000 + 8 * period ms. */
  lemma QueuedItemsAreYoung<Q>(config: Config, ops: seq<Op<Stamped<Q>>>, period: nat, now: nat)
    requires config.capacity > 0 && Timely(ops, period) && now <= LastPass(ops) + period
    ensures forall item :: item in Run(config, ops).queue ==> now < item.payload.born + 72000 + 8 * period
  {
    QueueOnSchedule(config, ops, period);
    forall item | item in Run(config, ops).queue ensures now < item.payload.born + 72000 + 8 * period {
      var a := item.attempts;
      assert OnSchedule(item, LastPass(ops), period);
      assert 1000 * a * (a + 1) <= 1000 * 8 * 9;
      assert (a - 1) * period <= 7 * period;
    }
  }

  /** The k-th retry comes no sooner than 1000 k (k + 1) ms after the event was queued: 2, 6, 12, ... 72 seconds. */
  lemma RetriesAreSpaced<Q>(config: Config, ops: seq<Op<Stamped<Q>>>, period: nat, now: nat)
    requires config.capacity > 0 && Timely(ops, period)
    ensures forall item :: item in Run(config, ops).queue && Due(item, now) ==>
              item.payload.born + 1000 * item.attempts * (item.attempts + 1) <= now
  {
    QueueOnSchedule(config, ops, period);
  }

  /** No event is given up before it is 72 seconds old. */
  lemma {:induction false} GivenUpIsOld<Q>(config: Config, ops: seq<Op<Stamped<Q>>>, period: nat, p: Stamped<Q>)
    requires config.capacity > 0 && Timely(ops, period) && p in Run(config, ops).givenUp
    ensures p.born + 72000 <= Clock(ops)
  {
    var front, op := ops[..|ops| - 1], ops[|ops| - 1];
    if p in Run(config, front).givenUp {
      GivenUpIsOld(config, front, period, p);
    } else {
      var q := Run(config, front).queue;
      LeavingOrigin(q, 0, op.now, op.reply, config.accepted, GivenUp);
      var k :| 0 <= k < |q| && q[k].payload == p && FateOf(q[k], op.now, op.reply(k), config.accepted) == GivenUp;
      QueueOnSchedule(config, front, period);
      assert q[k] in q && OnSchedule(q[k], LastPass(front), period);
    }
  }
}
