/** Ingest of Master events: a key with an expiry, the bus, then the table. */
module Ingest {
  import opened Common
  import opened CopyOrders

  datatype Published = Published(at: int, event: TradeEvent)

  /**
   * keys: when each idempotency key expires; bus: what was published, in order; waiting: accepted events not yet
   * persisted; events: trade_events by event id.
   */
  datatype State = State(
    keys: map<string, int>,
    bus: seq<Published>,
    waiting: multiset<TradeEvent>,
    events: map<string, TradeEvent>)

  const EMPTY := State(map[], [], multiset{}, map[])

  datatype Reply = Accepted | DuplicateIgnored

  /** A POST of an event at a moment, or the background write of an accepted one, which may fail. */
  datatype Op =
    | Receive(now: int, event: TradeEvent)
    | Persist(event: TradeEvent, succeeds: bool)

  predicate KeyHeld(s: State, eventId: string, now: int) {
    eventId in s.keys && now < s.keys[eventId]
  }

  function ReplyTo(s: State, now: int, event: TradeEvent): Reply {
    if KeyHeld(s, event.eventId, now) then DuplicateIgnored else Accepted
  }

  /** What an accepted request leaves behind. */
  function AfterAccept(s: State, ttl: nat, now: int, event: TradeEvent): State {
    s.(keys := s.keys[event.eventId := now + ttl],
       bus := s.bus + [Published(now, event)],
       waiting := s.waiting + multiset{event})
  }

  function AfterReceive(s: State, ttl: nat, now: int, event: TradeEvent): State {
    if KeyHeld(s, event.eventId, now) then s
    else AfterAccept(s, ttl, now, event)
  }

  /** A second row for an event id violates the unique key and is only logged. */
  function AfterPersist(s: State, event: TradeEvent, succeeds: bool): State {
    if event !in s.waiting then s
    else
      s.(waiting := s.waiting - multiset{event},
         events :=
           if succeeds && event.eventId !in s.events then s.events[event.eventId := Persisted(event)]
           else s.events)
  }

  function Apply(s: State, ttl: nat, op: Op): State {
    match op
    case Receive(now, event) => AfterReceive(s, ttl, now, event)
    case Persist(event, succeeds) => AfterPersist(s, event, succeeds)
  }

  function Run(ttl: nat, ops: seq<Op>): State {
    if ops == [] then EMPTY else Apply(Run(ttl, ops[..|ops| - 1]), ttl, ops[|ops| - 1])
  }

  /** Requests arrive at times that never go back, none after `now`. */
  ghost predicate ClockedUntil(ops: seq<Op>, now: int) {
    ops == []
    || (ClockedUntil(ops[..|ops| - 1], if ops[|ops| - 1].Receive? then ops[|ops| - 1].now else now)
        && (ops[|ops| - 1].Receive? ==> ops[|ops| - 1].now <= now))
  }

  // ---------------------------------------------------------------- what the key means

  /** Published less than the time to live ago. */
  ghost predicate Recently(bus: seq<Published>, ttl: nat, eventId: string, now: int) {
    exists p :: p in bus && p.event.eventId == eventId && now < p.at + ttl
  }

  ghost predicate Apart(bus: seq<Published>, ttl: nat) {
    forall i, j :: 0 <= i < j < |bus| && bus[i].event.eventId == bus[j].event.eventId ==> bus[i].at + ttl <= bus[j].at
  }

  ghost predicate PublishedAt(bus: seq<Published>, eventId: string, at: int) {
    exists p :: p in bus && p.event.eventId == eventId && p.at == at
  }

  /** Each key expires one time to live after the latest publication of its event. */
  ghost predicate KeysMatch(keys: map<string, int>, bus: seq<Published>, ttl: nat) {
    && (forall p :: p in bus ==> p.event.eventId in keys && p.at + ttl <= keys[p.event.eventId])
    && (forall id :: id in keys ==> PublishedAt(bus, id, keys[id] - ttl))
  }

  ghost predicate NoneAfter(bus: seq<Published>, now: int) {
    forall p :: p in bus ==> p.at <= now
  }

  lemma AcceptKeepsKeys(s: State, ttl: nat, now: int, event: TradeEvent)
    requires KeysMatch(s.keys, s.bus, ttl) && !KeyHeld(s, event.eventId, now) && NoneAfter(s.bus, now)
    ensures var s' := AfterAccept(s, ttl, now, event); KeysMatch(s'.keys, s'.bus, ttl)
  {
    var s' := AfterAccept(s, ttl, now, event);
    forall id | id in s'.keys ensures PublishedAt(s'.bus, id, s'.keys[id] - ttl) {
      if id == event.eventId {
        assert Published(now, event) in s'.bus;
      } else {
        var p :| p in s.bus && p.event.eventId == id && p.at == s.keys[id] - ttl;
        assert p in s'.bus;
      }
    }
    forall p | p in s'.bus ensures p.event.eventId in s'.keys && p.at + ttl <= s'.keys[p.event.eventId] {
      assert p in s.bus || p == Published(now, event);
    }
  }

  lemma AcceptKeepsApart(s: State, ttl: nat, now: int, event: TradeEvent)
    requires KeysMatch(s.keys, s.bus, ttl) && Apart(s.bus, ttl) && !KeyHeld(s, event.eventId, now)
    ensures Apart(AfterAccept(s, ttl, now, event).bus, ttl)
  {
    var bus := AfterAccept(s, ttl, now, event).bus;
    forall i, j | 0 <= i < j < |bus| && bus[i].event.eventId == bus[j].event.eventId
      ensures bus[i].at + ttl <= bus[j].at
    {
      assert bus[i] == s.bus[i] && s.bus[i] in s.bus;
      if j < |s.bus| { assert bus[j] == s.bus[j]; }
    }
  }

  lemma AcceptIsNotAfter(s: State, ttl: nat, now: int, event: TradeEvent)
    requires NoneAfter(s.bus, now)
    ensures NoneAfter(AfterAccept(s, ttl, now, event).bus, now)
  {
    var bus := AfterAccept(s, ttl, now, event).bus;
    forall p | p in bus ensures p.at <= now {
      var i :| 0 <= i < |bus| && bus[i] == p;
      if i < |s.bus| { assert s.bus[i] in s.bus; }
    }
  }

  /** What a run keeps about keys and bus: one key per published event, publications apart, none in the future. */
  ghost predicate GateKept(keys: map<string, int>, bus: seq<Published>, ttl: nat, now: int) {
    KeysMatch(keys, bus, ttl) && Apart(bus, ttl) && NoneAfter(bus, now)
  }

  lemma ReceiveKeeps(s: State, ttl: nat, now: int, event: TradeEvent)
    requires GateKept(s.keys, s.bus, ttl, now)
    ensures var s' := AfterReceive(s, ttl, now, event); GateKept(s'.keys, s'.bus, ttl, now)
  {
    if !KeyHeld(s, event.eventId, now) {
      AcceptKeepsKeys(s, ttl, now, event);
      AcceptKeepsApart(s, ttl, now, event);
      AcceptIsNotAfter(s, ttl, now, event);
    }
  }

  lemma {:induction false} RunKeeps(ttl: nat, ops: seq<Op>, now: int)
    requires ClockedUntil(ops, now)
    ensures GateKept(Run(ttl, ops).keys, Run(ttl, ops).bus, ttl, now)
  {
    if ops != [] {
      var front, last := ops[..|ops| - 1], ops[|ops| - 1];
      RunKeeps(ttl, front, if last.Receive? then last.now else now);
      if last.Receive? { ReceiveKeeps(Run(ttl, front), ttl, last.now, last.event); }
    }
  }

  lemma HeldIsRecent(s: State, ttl: nat, now: int, eventId: string, at: int)
    requires GateKept(s.keys, s.bus, ttl, now)
    ensures KeyHeld(s, eventId, at) <==> Recently(s.bus, ttl, eventId, at)
  {
    if KeyHeld(s, eventId, at) { assert PublishedAt(s.bus, eventId, s.keys[eventId] - ttl); }
  }

  /** A request is ignored as a duplicate exactly if its event was published less than the time to live ago. */
  lemma DuplicateIff(ttl: nat, ops: seq<Op>, now: int, event: TradeEvent)
    requires ClockedUntil(ops, now)
    ensures ReplyTo(Run(ttl, ops), now, event) == DuplicateIgnored
       <==> Recently(Run(ttl, ops).bus, ttl, event.eventId, now)
  {
    RunKeeps(ttl, ops, now);
    HeldIsRecent(Run(ttl, ops), ttl, now, event.eventId, now);
  }

  /** Over every run, two publications of one event are at least the time to live apart. */
  lemma PublicationsAreApart(ttl: nat, ops: seq<Op>, now: int, i: nat, j: nat)
    requires ClockedUntil(ops, now) && i < j < |Run(ttl, ops).bus|
    requires Run(ttl, ops).bus[i].event.eventId == Run(ttl, ops).bus[j].event.eventId
    ensures Run(ttl, ops).bus[i].at + ttl <= Run(ttl, ops).bus[j].at
  {
    RunKeeps(ttl, ops, now);
  }

  // ---------------------------------------------------------------- the trade_events table

  ghost predicate OnBus(bus: seq<Published>, e: TradeEvent) {
    exists p :: p in bus && p.event == e
  }

  ghost predicate RowFromBus(bus: seq<Published>, id: string, row: TradeEvent) {
    exists e :: OnBus(bus, e) && e.eventId == id && Persisted(e) == row
  }

  ghost predicate TableFromBus(bus: seq<Published>, waiting: multiset<TradeEvent>, events: map<string, TradeEvent>) {
    && (forall e :: e in waiting ==> OnBus(bus, e))
    && (forall id :: id in events ==> RowFromBus(bus, id, events[id]))
  }

  lemma OnBusStays(bus: seq<Published>, bus': seq<Published>, e: TradeEvent)
    requires bus <= bus' && OnBus(bus, e)
    ensures OnBus(bus', e)
  {
    var p :| p in bus && p.event == e;
    assert p in bus';
  }

  lemma RowStaysFromBus(bus: seq<Published>, bus': seq<Published>, id: string, row: TradeEvent)
    requires bus <= bus' && RowFromBus(bus, id, row)
    ensures RowFromBus(bus', id, row)
  {
    var e :| OnBus(bus, e) && e.eventId == id && Persisted(e) == row;
    OnBusStays(bus, bus', e);
  }

  lemma AcceptKeepsTable(s: State, ttl: nat, now: int, event: TradeEvent)
    requires TableFromBus(s.bus, s.waiting, s.events)
    ensures var s' := AfterAccept(s, ttl, now, event); TableFromBus(s'.bus, s'.waiting, s'.events)
  {
    var s' := AfterAccept(s, ttl, now, event);
    forall e | e in s'.waiting ensures OnBus(s'.bus, e) {
      if e in s.waiting { OnBusStays(s.bus, s'.bus, e); } else { assert Published(now, event) in s'.bus; }
    }
    forall id | id in s'.events ensures RowFromBus(s'.bus, id, s'.events[id]) {
      RowStaysFromBus(s.bus, s'.bus, id, s.events[id]);
    }
  }

  lemma PersistKeepsTable(s: State, event: TradeEvent, succeeds: bool)
    requires TableFromBus(s.bus, s.waiting, s.events)
    ensures var s' := AfterPersist(s, event, succeeds); TableFromBus(s'.bus, s'.waiting, s'.events)
  {
    var s' := AfterPersist(s, event, succeeds);
    forall id | id in s'.events ensures RowFromBus(s.bus, id, s'.events[id]) {
      assert id in s.events || (id == event.eventId && OnBus(s.bus, event));
    }
  }

  ghost predicate Keeps(events: map<string, TradeEvent>, later: map<string, TradeEvent>) {
    forall id :: id in events ==> id in later && later[id] == events[id]
  }

  lemma ApplyKeepsTable(s: State, ttl: nat, op: Op)
    requires TableFromBus(s.bus, s.waiting, s.events)
    ensures var s' := Apply(s, ttl, op); TableFromBus(s'.bus, s'.waiting, s'.events) && Keeps(s.events, s'.events)
  {
    match op
    case Receive(now, event) => if !KeyHeld(s, event.eventId, now) { AcceptKeepsTable(s, ttl, now, event); }
    case Persist(event, succeeds) => PersistKeepsTable(s, event, succeeds);
  }

  lemma {:induction false} RunKeepsTable(ttl: nat, ops: seq<Op>)
    ensures var s := Run(ttl, ops); TableFromBus(s.bus, s.waiting, s.events)
  {
    if ops != [] {
      RunKeepsTable(ttl, ops[..|ops| - 1]);
      ApplyKeepsTable(Run(ttl, ops[..|ops| - 1]), ttl, ops[|ops| - 1]);
    }
  }

  lemma RunOneMore(ttl: nat, ops: seq<Op>, more: seq<Op>)
    requires more != []
    ensures Run(ttl, ops + more) == Apply(Run(ttl, ops + more[..|more| - 1]), ttl, more[|more| - 1])
  {
    assert (ops + more)[..|ops + more| - 1] == ops + more[..|more| - 1];
  }

  /** A row of trade_events is a published event's, and once there it never changes, whatever is sent again. */
  lemma {:induction false} FirstPersistedWins(ttl: nat, ops: seq<Op>, more: seq<Op>)
    ensures var s := Run(ttl, ops); TableFromBus(s.bus, s.waiting, s.events)
    ensures Keeps(Run(ttl, ops).events, Run(ttl, ops + more).events)
    decreases |more|
  {
    RunKeepsTable(ttl, ops);
    if more == [] {
      assert ops + more == ops;
    } else {
      var front := more[..|more| - 1];
      FirstPersistedWins(ttl, ops, front);
      RunKeepsTable(ttl, ops + front);
      ApplyKeepsTable(Run(ttl, ops + front), ttl, more[|more| - 1]);
      RunOneMore(ttl, ops, more);
    }
  }

  // ---------------------------------------------------------------- the service

  /** What every run keeps (`RunKeeps`, `RunKeepsTable`): the keys stand for the bus, the table comes from it. */
  ghost predicate Kept(s: State, ttl: nat, now: int) {
    GateKept(s.keys, s.bus, ttl, now) && TableFromBus(s.bus, s.waiting, s.events)
  }

  /** From now on, exactly the duplicates of before and this event until its time to live has passed are duplicates. */
  ghost predicate OnlyThisIsNew(bus: seq<Published>, bus': seq<Published>, ttl: nat, eventId: string, now: int) {
    forall id, t :: Recently(bus', ttl, id, t) <==> Recently(bus, ttl, id, t) || (id == eventId && t < now + ttl)
  }

  lemma PublishIsNew(bus: seq<Published>, ttl: nat, now: int, event: TradeEvent)
    ensures OnlyThisIsNew(bus, bus + [Published(now, event)], ttl, event.eventId, now)
  {
    var bus' := bus + [Published(now, event)];
    forall id, t
      ensures Recently(bus', ttl, id, t) <==> Recently(bus, ttl, id, t) || (id == event.eventId && t < now + ttl)
    {
      if Recently(bus, ttl, id, t) {
        var p :| p in bus && p.event.eventId == id && t < p.at + ttl;
        assert p in bus';
      }
      assert Published(now, event) in bus';
    }
  }

  /** The events that have a row afterwards: those that had one and, if written, this one, with its own content. */
  ghost predicate OnlyThisIsWritten(
    events: map<string, TradeEvent>, events': map<string, TradeEvent>, event: TradeEvent, written: bool)
  {
    && Keeps(events, events')
    && (forall id :: id in events' <==> id in events || (written && id == event.eventId))
    && (event.eventId in events' && event.eventId !in events ==> events'[event.eventId] == Persisted(event))
  }

  lemma PersistIsWritten(s: State, event: TradeEvent, succeeds: bool)
    ensures OnlyThisIsWritten(
              s.events, AfterPersist(s, event, succeeds).events, event, succeeds && event in s.waiting)
  {}

  /** The two lemmas the service relies on, for any contents that a run keeps. */
  lemma ReceiveIsSeen(s: State, ttl: nat, now: int, event: TradeEvent)
    requires Kept(s, ttl, now)
    ensures Kept(AfterReceive(s, ttl, now, event), ttl, now)
    ensures KeyHeld(s, event.eventId, now) <==> Recently(s.bus, ttl, event.eventId, now)
    ensures OnlyThisIsNew(s.bus, s.bus + [Published(now, event)], ttl, event.eventId, now)
  {
    HeldIsRecent(s, ttl, now, event.eventId, now);
    ReceiveKeeps(s, ttl, now, event);
    ApplyKeepsTable(s, ttl, Receive(now, event));
    PublishIsNew(s.bus, ttl, now, event);
  }

  lemma PersistIsSeen(s: State, ttl: nat, event: TradeEvent, succeeds: bool, now: int)
    requires Kept(s, ttl, now)
    ensures Kept(AfterPersist(s, event, succeeds), ttl, now)
    ensures OnlyThisIsWritten(
              s.events, AfterPersist(s, event, succeeds).events, event, succeeds && event in s.waiting)
  {
    PersistIsWritten(s, event, succeeds);
    PersistKeepsTable(s, event, succeeds);
  }

  class IngestService {
    const ttl: nat
    var keys: map<string, int>
    var bus: seq<Published>
    var waiting: multiset<TradeEvent>
    var events: map<string, TradeEvent>

    constructor (ttl: nat)
      ensures this.ttl == ttl && Contents() == EMPTY
      ensures forall now :: Kept(Contents(), ttl, now)
    {
      this.ttl := ttl;
      keys, bus, waiting, events := map[], [], multiset{}, map[];
    }

    ghost function Contents(): State
      reads this
    {
      State(keys, bus, waiting, events)
    }

    /** SET key NX EX ttl */
    method SetIfAbsent(key: string, now: int) returns (firstSeen: bool)
      modifies this`keys
      ensures firstSeen <==> !KeyHeld(old(Contents()), key, now)
      ensures keys == if firstSeen then old(keys)[key := now + ttl] else old(keys)
    {
      firstSeen := !(key in keys && now < keys[key]);
      if firstSeen { keys := keys[key := now + ttl]; }
    }

    method Publish(now: int, event: TradeEvent)
      modifies this`bus, this`waiting
      ensures bus == old(bus) + [Published(now, event)] && waiting == old(waiting) + multiset{event}
    {
      bus := bus + [Published(now, event)];
      waiting := waiting + multiset{event};
    }

    /** Ignored if and only if it was published less than the time to live ago; else published, once, and waiting. */
    method PostTradeEvent(now: int, event: TradeEvent) returns (reply: Reply)
      requires Kept(Contents(), ttl, now)
      modifies this
      ensures Kept(Contents(), ttl, now)
      ensures reply == DuplicateIgnored <==> Recently(old(bus), ttl, event.eventId, now)
      ensures reply == DuplicateIgnored ==> Contents() == old(Contents())
      ensures reply == Accepted ==> OnlyThisIsNew(old(bus), bus, ttl, event.eventId, now)
      ensures reply == Accepted ==> bus == old(bus) + [Published(now, event)]
      ensures reply == Accepted ==> waiting == old(waiting) + multiset{event} && events == old(events)
      ensures Contents() == Apply(old(Contents()), ttl, Receive(now, event))
    {
      ghost var before := Contents();
      var firstSeen := SetIfAbsent(event.eventId, now);
      if firstSeen { Publish(now, event); }
      reply := if firstSeen then Accepted else DuplicateIgnored;
      assert Contents() == AfterReceive(before, ttl, now, event);
      ReceiveIsSeen(before, ttl, now, event);
    }

    method Take(event: TradeEvent)
      modifies this`waiting
      ensures waiting == old(waiting) - multiset{event}
    {
      waiting := waiting - multiset{event};
    }

    /** The insert into trade_events, whose unique key keeps a row that is there. */
    method Create(event: TradeEvent)
      modifies this`events
      ensures events ==
              if event.eventId in old(events) then old(events) else old(events)[event.eventId := Persisted(event)]
    {
      if event.eventId !in events { events := events[event.eventId := Persisted(event)]; }
    }

    /** The first successful write of an event id gives it its row; every other row stays as it is. */
    method PersistTradeEvent(event: TradeEvent, succeeds: bool, ghost now: int)
      requires Kept(Contents(), ttl, now)
      modifies this`waiting, this`events
      ensures Kept(Contents(), ttl, now)
      ensures OnlyThisIsWritten(old(events), events, event, succeeds && event in old(waiting))
      ensures waiting == old(waiting) - multiset{event}
      ensures Contents() == Apply(old(Contents()), ttl, Persist(event, succeeds))
    {
      ghost var before := Contents();
      if event in waiting {
        Take(event);
        if succeeds { Create(event); }
      }
      assert Contents() == AfterPersist(before, event, succeeds);
      PersistIsSeen(before, ttl, event, succeeds, now);
    }
  }
}
