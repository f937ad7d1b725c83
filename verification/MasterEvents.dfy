/** What the events of the Master EA say, against the order pools they were scanned from. */
module MasterEvents {
  import opened Common
  import opened MasterScan
  import opened MasterReplay

  // ---------------------------------------------------------------- orders as the terminal keeps them

  /** A market order of the pool. */
  predicate Trades(pool: seq<Order>, o: Order) { o in pool && (o.kind == Buy || o.kind == Sell) }

  /** A pending order of the pool. */
  predicate Waits(pool: seq<Order>, o: Order) {
    o in pool && (o.kind == BuyLimit || o.kind == SellLimit || o.kind == BuyStop || o.kind == SellStop)
  }

  predicate BuySide(kind: OrderType) { kind == Buy || kind == BuyLimit || kind == BuyStop }

  /** The text says which side the order is on. */
  predicate SideTold(side: string, kind: OrderType) {
    (side == "BUY" <==> BuySide(kind)) && (side == "SELL" <==> !BuySide(kind))
  }

  lemma SideIsTold(kind: OrderType)
    ensures SideTold(SideOf(kind), kind)
  {
    assert "BUY"[0] != "SELL"[0];
  }

  lemma BooksAre(pool: seq<Order>, o: Order)
    ensures o in Books(pool).open <==> Trades(pool, o)
    ensures o in Books(pool).pending <==> Waits(pool, o)
  {
    BooksMembers(pool, o);
  }

  // ---------------------------------------------------------------- what each event says

  /** The amount is sent if it is positive, and left out if it is zero. */
  predicate Says(x: Option<nat>, n: nat) { x == if n == 0 then None else Some(n) }

  predicate Names(e: Event, o: Order) {
    e.key.ticket == o.ticket && e.symbol == o.symbol && SideTold(e.side, o.kind)
  }

  predicate SaysStops(e: Event, o: Order) { Says(e.sl, o.sl) && Says(e.tp, o.tp) }

  ghost predicate Gone(s: seq<Order>, ticket: nat) { forall o :: o in s ==> o.ticket != ticket }

  /** The event reports a difference between two pools, with the amounts of the order it is about. */
  ghost predicate Describes(e: Event, prev: Snapshot, current: Snapshot) {
    match e.key.kind
    case Open => exists o ::
      && o in current.open && Gone(prev.open, o.ticket) && Names(e, o) && SaysStops(e, o)
      && Says(e.volume, o.lots) && Says(e.price, o.openPrice)
    case PartialClose => exists o, p ::
      && o in current.open && p in prev.open && p.ticket == o.ticket && Names(e, o) && o.lots < p.lots
      && e.volume == Some(p.lots - o.lots) && e.price.None? && e.sl.None? && e.tp.None?
    case Modify => exists o, p ::
      && o in current.open && p in prev.open && p.ticket == o.ticket && Names(e, o) && SaysStops(e, o)
      && o.lots >= p.lots && (o.sl != p.sl || o.tp != p.tp) && Says(e.volume, o.lots) && e.price.None?
    case Close => exists p ::
      && p in prev.open && Gone(current.open, p.ticket) && Names(e, p)
      && Says(e.volume, p.lots) && e.price.None? && e.sl.None? && e.tp.None?
    case PendingOpen => exists o ::
      && o in current.pending && Gone(prev.pending, o.ticket) && Names(e, o) && SaysStops(e, o)
      && Says(e.volume, o.lots) && Says(e.price, o.openPrice)
    case PendingModify => exists o, p ::
      && o in current.pending && p in prev.pending && p.ticket == o.ticket && Names(e, o) && SaysStops(e, o)
      && (o.openPrice != p.openPrice || o.sl != p.sl || o.tp != p.tp)
      && Says(e.volume, o.lots) && Says(e.price, o.openPrice)
    case PendingCancel => exists p ::
      && p in prev.pending && Gone(current.pending, p.ticket) && Gone(current.open, p.ticket)
      && Names(e, p) && SaysStops(e, p) && e.volume.None? && Says(e.price, p.openPrice)
  }

  /** Everything sent since the log. */
  ghost predicate AllDescribe(prev: Snapshot, current: Snapshot, log: Log, later: Log) {
    forall e :: e in later.events ==> e in log.events || Describes(e, prev, current)
  }

  lemma {:induction false} NotThere(s: seq<Order>, ticket: nat)
    ensures At(s, ticket).None? <==> Gone(s, ticket)
  {
    if s != [] {
      assert s == [s[0]] + s[1..];
      NotThere(s[1..], ticket);
    }
  }

  lemma OpenDescribes(prev: Snapshot, current: Snapshot, o: Order, log: Log)
    requires o in current.open
    ensures AllDescribe(prev, current, log, OpenChange(prev.open, o, log))
  {
    NotThere(prev.open, o.ticket);
    SideIsTold(o.kind);
    var later := OpenChange(prev.open, o, log).events;
    if later != log.events {
      var e := later[|log.events|];
      assert Describes(e, prev, current);
    }
  }

  lemma {:induction false} OpensDescribe(prev: Snapshot, current: Snapshot, some: seq<Order>, log: Log)
    requires some <= current.open
    ensures AllDescribe(prev, current, log, OpenChanges(prev.open, some, log))
  {
    if some != [] {
      var front, o := some[..|some| - 1], some[|some| - 1];
      assert o in current.open by { assert current.open[|some| - 1] == o; }
      OpensDescribe(prev, current, front, log);
      OpenDescribes(prev, current, o, OpenChanges(prev.open, front, log));
    }
  }

  lemma {:induction false} ClosesDescribe(prev: Snapshot, current: Snapshot, some: seq<Order>, log: Log)
    requires some <= prev.open
    ensures AllDescribe(prev, current, log, Closes(some, current.open, log))
  {
    if some != [] {
      var front, p := some[..|some| - 1], some[|some| - 1];
      assert p in prev.open by { assert prev.open[|some| - 1] == p; }
      ClosesDescribe(prev, current, front, log);
      NotThere(current.open, p.ticket);
      SideIsTold(p.kind);
    }
  }

  lemma {:induction false} PendingsDescribe(prev: Snapshot, current: Snapshot, some: seq<Order>, log: Log)
    requires some <= current.pending
    ensures AllDescribe(prev, current, log, PendingChanges(prev.pending, some, log))
  {
    if some != [] {
      var front, o := some[..|some| - 1], some[|some| - 1];
      assert o in current.pending by { assert current.pending[|some| - 1] == o; }
      PendingsDescribe(prev, current, front, log);
      NotThere(prev.pending, o.ticket);
      SideIsTold(o.kind);
    }
  }

  lemma {:induction false} CancelsDescribe(prev: Snapshot, current: Snapshot, some: seq<Order>, log: Log)
    requires some <= prev.pending
    ensures AllDescribe(prev, current, log, Cancels(some, current.pending, current.open, log))
  {
    if some != [] {
      var front, p := some[..|some| - 1], some[|some| - 1];
      assert p in prev.pending by { assert prev.pending[|some| - 1] == p; }
      CancelsDescribe(prev, current, front, log);
      NotThere(current.pending, p.ticket);
      NotThere(current.open, p.ticket);
      SideIsTold(p.kind);
    }
  }

  lemma ScanDescribes(prev: Snapshot, current: Snapshot, log: Log)
    ensures AllDescribe(prev, current, log, Scan(prev, current, log))
  {
    var l1 := OpenChanges(prev.open, current.open, log);
    var l2 := Closes(prev.open, current.open, l1);
    var l3 := PendingChanges(prev.pending, current.pending, l2);
    OpensDescribe(prev, current, current.open, log);
    ClosesDescribe(prev, current, prev.open, l1);
    PendingsDescribe(prev, current, current.pending, l2);
    CancelsDescribe(prev, current, prev.pending, l3);
  }

  /**
   * Over every run of scans, every event sent reports a difference between two pools scanned one after the other: of
   * its kind, about an order of its ticket, with that order's symbol, side and amounts.
   */
  lemma {:induction false} EventsDescribeOrders(pools: seq<seq<Order>>, e: Event) returns (i: nat)
    requires pools != [] && e in RunLog(pools).events
    ensures 0 < i < |pools| && Describes(e, Books(pools[i - 1]), Books(pools[i]))
  {
    i := |pools| - 1;
    if i > 0 {
      var front := pools[..i];
      ScanDescribes(Books(pools[i - 1]), Books(pools[i]), RunLog(front));
      if e in RunLog(front).events { i := EventsDescribeOrders(front, e); }
    }
  }

  // ---------------------------------------------------------------- the books a reader rebuilds

  /** The reader's position is the order's, by symbol, side and lots. */
  predicate IsPositionOf(p: Position, o: Order) {
    p.symbol == o.symbol && p.lots == o.lots && SideTold(p.side, o.kind)
  }

  predicate IsPendingOf(p: PendingOrder, o: Order) {
    && p.symbol == o.symbol && p.lots == o.lots && SideTold(p.side, o.kind)
    && p.price == o.openPrice && p.sl == o.sl && p.tp == o.tp
  }

  lemma {:induction false} FoundIs(s: seq<Order>, o: Order)
    requires o in s && DistinctTickets(s)
    ensures At(s, o.ticket) == Some(o)
  {
    if s[0] != o {
      assert s == [s[0]] + s[1..];
      DifferentTickets(s, s[0], o);
      FoundIs(s[1..], o);
    }
  }

  /** The pool and the reader's book, ticket by ticket. */
  ghost predicate Mirrors(b: Book, pool: seq<Order>) {
    && (forall o :: Trades(pool, o) ==> o.ticket in b.open && IsPositionOf(b.open[o.ticket], o))
    && (forall t :: t in b.open ==> exists o :: Trades(pool, o) && o.ticket == t)
    && (forall o :: Waits(pool, o) ==> o.ticket in b.pending && IsPendingOf(b.pending[o.ticket], o))
    && (forall t :: t in b.pending ==> exists o :: Waits(pool, o) && o.ticket == t)
  }

  lemma OpenMirrors(b: Book, pool: seq<Order>)
    requires DistinctTickets(pool) && TicketsAndLotsAgree(b, Books(pool))
    ensures forall o :: Trades(pool, o) ==> o.ticket in b.open && IsPositionOf(b.open[o.ticket], o)
    ensures forall t :: t in b.open ==> exists o :: Trades(pool, o) && o.ticket == t
  {
    BooksDistinct(pool);
    forall t ensures NoStops(Get(b.open, t)) == NoStops(Get(OpenBook(Market(pool)), t)) {}
    forall o | Trades(pool, o) ensures o.ticket in b.open && IsPositionOf(b.open[o.ticket], o) {
      BooksAre(pool, o);
      FoundIs(Market(pool), o);
      BookAt(Market(pool), o.ticket);
      SideIsTold(o.kind);
    }
    forall t | t in b.open ensures exists o :: Trades(pool, o) && o.ticket == t {
      BookAt(Market(pool), t);
      var o := At(Market(pool), t).value;
      BooksAre(pool, o);
    }
  }

  lemma PendingMirrors(b: Book, pool: seq<Order>)
    requires DistinctTickets(pool) && TicketsAndLotsAgree(b, Books(pool))
    ensures forall o :: Waits(pool, o) ==> o.ticket in b.pending && IsPendingOf(b.pending[o.ticket], o)
    ensures forall t :: t in b.pending ==> exists o :: Waits(pool, o) && o.ticket == t
  {
    BooksDistinct(pool);
    forall o | Waits(pool, o) ensures o.ticket in b.pending && IsPendingOf(b.pending[o.ticket], o) {
      BooksAre(pool, o);
      FoundIs(Pending(pool), o);
      BookAt(Pending(pool), o.ticket);
      SideIsTold(o.kind);
    }
    forall t | t in b.pending ensures exists o :: Waits(pool, o) && o.ticket == t {
      BookAt(Pending(pool), t);
      var o := At(Pending(pool), t).value;
      BooksAre(pool, o);
    }
  }

  /**
   * Over every run of scans, replaying all events from the baseline gives a position for exactly the market orders of
   * the last pool and a pending order for exactly its pending ones, BUY for exactly the orders that buy.
   */
  lemma {:induction false} RunMirrorsThePool(pools: seq<seq<Order>>)
    requires pools != [] && TerminalRun(pools)
    ensures Mirrors(Replay(BookOf(Books(pools[0])), RunLog(pools).events), pools[|pools| - 1])
  {
    var b := Replay(BookOf(Books(pools[0])), RunLog(pools).events);
    RunKeepsTicketsAndLots(pools);
    OpenMirrors(b, pools[|pools| - 1]);
    PendingMirrors(b, pools[|pools| - 1]);
  }
}
