/** Detection by snapshot diff in the MT4 Master EA. */
module MasterScan {
  import opened Common

  datatype OrderType = Buy | Sell | BuyLimit | SellLimit | BuyStop | SellStop | Other

  /** Lots are whole hundredths and prices whole 1e-5 points: the source's 1e-7 comparisons are equality and order. */
  datatype Order = Order(
    ticket: nat, symbol: string, kind: OrderType, lots: nat, openPrice: nat, sl: nat, tp: nat)

  predicate IsMarket(kind: OrderType) { kind.Buy? || kind.Sell? }

  predicate IsPending(kind: OrderType) { kind.BuyLimit? || kind.SellLimit? || kind.BuyStop? || kind.SellStop? }

  function SideOf(kind: OrderType): string {
    if kind.Buy? || kind.BuyLimit? || kind.BuyStop? then "BUY" else "SELL"
  }

  datatype EventType = Open | Modify | PartialClose | Close | PendingOpen | PendingModify | PendingCancel

  /** What an event id is built from: the kind and ticket, and a run-wide number where a ticket can repeat. */
  datatype EventKey = EventKey(kind: EventType, ticket: nat, number: Option<nat>)

  /** The payload fields that depend on the order; a number that is not positive is not sent. */
  datatype Event = Event(
    key: EventKey, symbol: string, side: string,
    volume: Option<nat>, price: Option<nat>, sl: Option<nat>, tp: Option<nat>)

  function Sent(x: nat): Option<nat> { if x > 0 then Some(x) else None }

  // ---------------------------------------------------------------- what one order contributes

  /** Events sent so far in this run, and the run-wide counter. */
  datatype Log = Log(events: seq<Event>, eventSeq: nat)

  function Add(log: Log, e: Event): Log { log.(events := log.events + [e]) }

  function Numbered(log: Log, kind: EventType, ticket: nat): EventKey {
    EventKey(kind, ticket, Some(log.eventSeq + 1))
  }

  function OpenEvent(o: Order): Event {
    Event(EventKey(Open, o.ticket, None), o.symbol, SideOf(o.kind), Sent(o.lots), Sent(o.openPrice), Sent(o.sl),
          Sent(o.tp))
  }

  function CloseEvent(o: Order): Event {
    Event(EventKey(Close, o.ticket, None), o.symbol, SideOf(o.kind), Sent(o.lots), None, None, None)
  }

  function PendingOpenEvent(o: Order): Event {
    Event(EventKey(PendingOpen, o.ticket, None), o.symbol, SideOf(o.kind), Sent(o.lots), Sent(o.openPrice), Sent(o.sl),
          Sent(o.tp))
  }

  function PendingCancelEvent(o: Order): Event {
    Event(EventKey(PendingCancel, o.ticket, None), o.symbol, SideOf(o.kind), None, Sent(o.openPrice), Sent(o.sl),
          Sent(o.tp))
  }

  /** The first order with a ticket. */
  function At(s: seq<Order>, ticket: nat): (o: Option<Order>)
    ensures o.Some? ==> o.value in s && o.value.ticket == ticket
  {
    if s == [] then None else if s[0].ticket == ticket then Some(s[0]) else At(s[1..], ticket)
  }

  function OpenChange(prev: seq<Order>, o: Order, log: Log): Log {
    match At(prev, o.ticket)
    case None => Add(log, OpenEvent(o))
    case Some(p) =>
      if o.lots < p.lots then
        Log(log.events
            + [Event(Numbered(log, PartialClose, o.ticket), o.symbol, SideOf(o.kind),
                     Sent(p.lots - o.lots), None, None, None)],
            log.eventSeq + 1)
      else if o.sl != p.sl || o.tp != p.tp then
        Log(log.events
            + [Event(Numbered(log, Modify, o.ticket), o.symbol, SideOf(o.kind),
                     Sent(o.lots), None, Sent(o.sl), Sent(o.tp))],
            log.eventSeq + 1)
      else log
  }

  function PendingChange(prev: seq<Order>, o: Order, log: Log): Log {
    match At(prev, o.ticket)
    case None => Add(log, PendingOpenEvent(o))
    case Some(p) =>
      if o.openPrice != p.openPrice || o.sl != p.sl || o.tp != p.tp then
        Log(log.events
            + [Event(Numbered(log, PendingModify, o.ticket), o.symbol, SideOf(o.kind),
                     Sent(o.lots), Sent(o.openPrice), Sent(o.sl), Sent(o.tp))],
            log.eventSeq + 1)
      else log
  }

  function OpenChanges(prev: seq<Order>, current: seq<Order>, log: Log): Log {
    if current == [] then log
    else OpenChange(prev, current[|current| - 1], OpenChanges(prev, current[..|current| - 1], log))
  }

  function CloseOf(current: seq<Order>, o: Order, log: Log): Log {
    if At(current, o.ticket).None? then Add(log, CloseEvent(o)) else log
  }

  function Closes(prev: seq<Order>, current: seq<Order>, log: Log): Log {
    if prev == [] then log
    else CloseOf(current, prev[|prev| - 1], Closes(prev[..|prev| - 1], current, log))
  }

  function PendingChanges(prev: seq<Order>, current: seq<Order>, log: Log): Log {
    if current == [] then log
    else PendingChange(prev, current[|current| - 1], PendingChanges(prev, current[..|current| - 1], log))
  }

  /** A pending order that is gone was cancelled, unless it was triggered into a position. */
  function CancelOf(current: seq<Order>, currentOpen: seq<Order>, o: Order, log: Log): Log {
    if At(current, o.ticket).None? && At(currentOpen, o.ticket).None? then Add(log, PendingCancelEvent(o)) else log
  }

  function Cancels(prev: seq<Order>, current: seq<Order>, currentOpen: seq<Order>, log: Log): Log {
    if prev == [] then log
    else CancelOf(current, currentOpen, prev[|prev| - 1], Cancels(prev[..|prev| - 1], current, currentOpen, log))
  }

  datatype Snapshot = Snapshot(open: seq<Order>, pending: seq<Order>)

  /** One whole scan: changes and closes of positions, then changes and cancellations of pending orders. */
  function Scan(prev: Snapshot, current: Snapshot, log: Log): Log {
    var l1 := OpenChanges(prev.open, current.open, log);
    var l2 := Closes(prev.open, current.open, l1);
    var l3 := PendingChanges(prev.pending, current.pending, l2);
    Cancels(prev.pending, current.pending, current.open, l3)
  }

  function Market(pool: seq<Order>): seq<Order> {
    if pool == [] then []
    else Market(pool[..|pool| - 1]) + if IsMarket(pool[|pool| - 1].kind) then [pool[|pool| - 1]] else []
  }

  function Pending(pool: seq<Order>): seq<Order> {
    if pool == [] then []
    else Pending(pool[..|pool| - 1]) + if IsPending(pool[|pool| - 1].kind) then [pool[|pool| - 1]] else []
  }

  /** The two books of one order pool. */
  function Books(pool: seq<Order>): Snapshot { Snapshot(Market(pool), Pending(pool)) }

  // ---------------------------------------------------------------- the code

  method FindByTicket(arr: seq<Order>, ticket: nat) returns (index: int)
    ensures index == -1 <==> At(arr, ticket).None?
    ensures index != -1 ==> 0 <= index < |arr| && At(arr, ticket) == Some(arr[index])
  {
    var i := 0;
    while i < |arr|
      invariant 0 <= i <= |arr| && At(arr, ticket) == At(arr[i..], ticket)
    {
      if arr[i].ticket == ticket { return i; }
      assert arr[i..][1..] == arr[i + 1..];
      i := i + 1;
    }
    return -1;
  }

  class MasterEA {
    var openSnapshot: seq<Order>
    var pendingSnapshot: seq<Order>
    var eventSeq: nat
    var sent: seq<Event>

    function View(): Log
      reads this
    {
      Log(sent, eventSeq)
    }

    /** OnInit: the baseline is taken and nothing is sent. */
    constructor (pool: seq<Order>)
      ensures Snapshot(openSnapshot, pendingSnapshot) == Books(pool) && View() == Log([], 0)
    {
      var open, pending := BuildCurrentSnapshots(pool);
      openSnapshot, pendingSnapshot := open, pending;
      eventSeq, sent := 0, [];
    }

    static method BuildCurrentSnapshots(pool: seq<Order>) returns (open: seq<Order>, pending: seq<Order>)
      ensures Snapshot(open, pending) == Books(pool)
    {
      open, pending := [], [];
      for i := 0 to |pool|
        invariant open == Market(pool[..i]) && pending == Pending(pool[..i])
      {
        assert pool[..i + 1][..i] == pool[..i];
        if IsMarket(pool[i].kind) { open := open + [pool[i]]; }
        else if IsPending(pool[i].kind) { pending := pending + [pool[i]]; }
      }
      assert pool[..|pool|] == pool;
    }

    method ScanAndDetect(pool: seq<Order>)
      modifies this
      ensures Snapshot(openSnapshot, pendingSnapshot) == Books(pool)
      ensures View() == Scan(old(Snapshot(openSnapshot, pendingSnapshot)), Books(pool), old(View()))
    {
      var currentOpen, currentPending := BuildCurrentSnapshots(pool);
      DetectOpenChanges(currentOpen);
      DetectPendingChanges(currentPending, currentOpen);
      openSnapshot, pendingSnapshot := currentOpen, currentPending;
    }

    method DetectOpenChanges(current: seq<Order>)
      modifies this`eventSeq, this`sent
      ensures View() == Closes(openSnapshot, current, OpenChanges(openSnapshot, current, old(View())))
    {
      for i := 0 to |current|
        invariant View() == OpenChanges(openSnapshot, current[..i], old(View()))
      {
        assert current[..i + 1][..i] == current[..i];
        var prevIdx := FindByTicket(openSnapshot, current[i].ticket);
        if prevIdx == -1 {
          sent := sent + [OpenEvent(current[i])];
          continue;
        }
        var prev := openSnapshot[prevIdx];
        if current[i].lots < prev.lots {
          SendPartialCloseEvent(current[i], prev.lots - current[i].lots);
        } else if current[i].sl != prev.sl || current[i].tp != prev.tp {
          SendModifyEvent(current[i]);
        }
      }
      assert current[..|current|] == current;
      ghost var before := View();
      for i := 0 to |openSnapshot|
        invariant View() == Closes(openSnapshot[..i], current, before)
      {
        assert openSnapshot[..i + 1][..i] == openSnapshot[..i];
        var index := FindByTicket(current, openSnapshot[i].ticket);
        if index == -1 { sent := sent + [CloseEvent(openSnapshot[i])]; }
      }
      assert openSnapshot[..|openSnapshot|] == openSnapshot;
    }

    method SendModifyEvent(o: Order)
      modifies this`eventSeq, this`sent
      ensures eventSeq == old(eventSeq) + 1
      ensures sent == old(sent) + [Event(Numbered(old(View()), Modify, o.ticket), o.symbol, SideOf(o.kind),
                                         Sent(o.lots), None, Sent(o.sl), Sent(o.tp))]
    {
      eventSeq := eventSeq + 1;
      sent := sent + [Event(EventKey(Modify, o.ticket, Some(eventSeq)), o.symbol, SideOf(o.kind),
                            Sent(o.lots), None, Sent(o.sl), Sent(o.tp))];
    }

    method SendPartialCloseEvent(o: Order, closedVolume: nat)
      modifies this`eventSeq, this`sent
      ensures eventSeq == old(eventSeq) + 1
      ensures sent == old(sent) + [Event(Numbered(old(View()), PartialClose, o.ticket), o.symbol, SideOf(o.kind),
                                         Sent(closedVolume), None, None, None)]
    {
      eventSeq := eventSeq + 1;
      sent := sent + [Event(EventKey(PartialClose, o.ticket, Some(eventSeq)), o.symbol, SideOf(o.kind),
                            Sent(closedVolume), None, None, None)];
    }

    method SendPendingModifyEvent(o: Order)
      modifies this`eventSeq, this`sent
      ensures eventSeq == old(eventSeq) + 1
      ensures sent == old(sent) + [Event(Numbered(old(View()), PendingModify, o.ticket), o.symbol, SideOf(o.kind),
                                         Sent(o.lots), Sent(o.openPrice), Sent(o.sl), Sent(o.tp))]
    {
      eventSeq := eventSeq + 1;
      sent := sent + [Event(EventKey(PendingModify, o.ticket, Some(eventSeq)), o.symbol, SideOf(o.kind),
                            Sent(o.lots), Sent(o.openPrice), Sent(o.sl), Sent(o.tp))];
    }

    method DetectPendingChanges(current: seq<Order>, currentOpen: seq<Order>)
      modifies this`eventSeq, this`sent
      ensures View()
              == Cancels(pendingSnapshot, current, currentOpen, PendingChanges(pendingSnapshot, current, old(View())))
    {
      for i := 0 to |current|
        invariant View() == PendingChanges(pendingSnapshot, current[..i], old(View()))
      {
        assert current[..i + 1][..i] == current[..i];
        var prevIdx := FindByTicket(pendingSnapshot, current[i].ticket);
        if prevIdx == -1 {
          sent := sent + [PendingOpenEvent(current[i])];
          continue;
        }
        var prev := pendingSnapshot[prevIdx];
        if current[i].openPrice != prev.openPrice || current[i].sl != prev.sl || current[i].tp != prev.tp {
          SendPendingModifyEvent(current[i]);
        }
      }
      assert current[..|current|] == current;
      ghost var before := View();
      for i := 0 to |pendingSnapshot|
        invariant View() == Cancels(pendingSnapshot[..i], current, currentOpen, before)
      {
        assert pendingSnapshot[..i + 1][..i] == pendingSnapshot[..i];
        var ticket := pendingSnapshot[i].ticket;
        var index := FindByTicket(current, ticket);
        if index != -1 { continue; }
        index := FindByTicket(currentOpen, ticket);
        if index != -1 { continue; }
        sent := sent + [PendingCancelEvent(pendingSnapshot[i])];
      }
      assert pendingSnapshot[..|pendingSnapshot|] == pendingSnapshot;
    }
  }
}
