/** Replaying the Master's events rebuilds the Master's books. */
module MasterReplay {
  import opened Common
  import opened MasterScan

  datatype Position = Position(symbol: string, side: string, lots: int, sl: nat, tp: nat)
  datatype PendingOrder = PendingOrder(symbol: string, side: string, lots: int, price: nat, sl: nat, tp: nat)
  datatype Book = Book(open: map<nat, Position>, pending: map<nat, PendingOrder>)

  /** What a reader of the event stream does with one event; an absent number reads as 0. */
  function Apply(b: Book, e: Event): Book {
    var t := e.key.ticket;
    var lots, price, sl, tp := e.volume.GetOr(0), e.price.GetOr(0), e.sl.GetOr(0), e.tp.GetOr(0);
    match e.key.kind
    case Open => Book(b.open[t := Position(e.symbol, e.side, lots, sl, tp)], b.pending - {t})
    case Modify => if t in b.open then b.(open := b.open[t := b.open[t].(sl := sl, tp := tp)]) else b
    case PartialClose => if t in b.open then b.(open := b.open[t := b.open[t].(lots := b.open[t].lots - lots)]) else b
    case Close => b.(open := b.open - {t})
    case PendingOpen => b.(pending := b.pending[t := PendingOrder(e.symbol, e.side, lots, price, sl, tp)])
    case PendingModify =>
      if t in b.pending then b.(pending := b.pending[t := b.pending[t].(price := price, sl := sl, tp := tp)]) else b
    case PendingCancel => b.(pending := b.pending - {t})
  }

  function Replay(b: Book, events: seq<Event>): Book {
    if events == [] then b else Apply(Replay(b, events[..|events| - 1]), events[|events| - 1])
  }

  lemma ReplaySnoc(b: Book, events: seq<Event>, e: Event)
    ensures Replay(b, events + [e]) == Apply(Replay(b, events), e)
  {
    assert (events + [e])[..|events|] == events;
  }

  function Get<V>(m: map<nat, V>, t: nat): Option<V> { if t in m then Some(m[t]) else None }

  function PositionOf(o: Order): Position { Position(o.symbol, SideOf(o.kind), o.lots, o.sl, o.tp) }

  function PendingOf(o: Order): PendingOrder { PendingOrder(o.symbol, SideOf(o.kind), o.lots, o.openPrice, o.sl, o.tp) }

  function OpenBook(s: seq<Order>): map<nat, Position> {
    if s == [] then map[] else OpenBook(s[1..])[s[0].ticket := PositionOf(s[0])]
  }

  function PendingBook(s: seq<Order>): map<nat, PendingOrder> {
    if s == [] then map[] else PendingBook(s[1..])[s[0].ticket := PendingOf(s[0])]
  }

  function BookOf(s: Snapshot): Book { Book(OpenBook(s.open), PendingBook(s.pending)) }

  lemma {:induction false} BookAt(s: seq<Order>, t: nat)
    ensures Get(OpenBook(s), t) == (match At(s, t) case Some(o) => Some(PositionOf(o)) case None => None)
    ensures Get(PendingBook(s), t) == (match At(s, t) case Some(o) => Some(PendingOf(o)) case None => None)
  {
    if s != [] { BookAt(s[1..], t); }
  }

  ghost predicate DistinctTickets(s: seq<Order>) {
    forall i, j :: 0 <= i < j < |s| ==> s[i].ticket != s[j].ticket
  }

  // ---------------------------------------------------------------- one ticket at a time

  lemma {:induction false} AtSnoc(s: seq<Order>, x: Order, t: nat)
    ensures At(s + [x], t) == if At(s, t).Some? then At(s, t) else if x.ticket == t then Some(x) else None
  {
    if s == [] {
      assert s + [x] == [x];
    } else {
      assert (s + [x])[1..] == s[1..] + [x];
      AtSnoc(s[1..], x, t);
    }
  }

  lemma LastIsNew(s: seq<Order>)
    requires s != [] && DistinctTickets(s)
    ensures At(s[..|s| - 1], s[|s| - 1].ticket).None? && DistinctTickets(s[..|s| - 1])
    ensures s == s[..|s| - 1] + [s[|s| - 1]]
  {
    NotAt(s[..|s| - 1], s[|s| - 1].ticket);
  }

  lemma {:induction false} NotAt(s: seq<Order>, t: nat)
    requires forall i :: 0 <= i < |s| ==> s[i].ticket != t
    ensures At(s, t).None?
  {
    if s != [] { NotAt(s[1..], t); }
  }

  /** The position a ticket has after its change was sent, if one was. */
  function Changed(prev: Option<Order>, o: Order, held: Option<Position>): Option<Position> {
    match prev
    case None => Some(PositionOf(o))
    case Some(p) =>
      if held.None? then None
      else if o.lots < p.lots then Some(held.value.(lots := held.value.lots - (p.lots - o.lots)))
      else if o.sl != p.sl || o.tp != p.tp then Some(held.value.(sl := o.sl, tp := o.tp))
      else held
  }

  function ChangedPending(prev: Option<Order>, o: Order, held: Option<PendingOrder>): Option<PendingOrder> {
    match prev
    case None => Some(PendingOf(o))
    case Some(p) =>
      if held.None? then None
      else if o.openPrice != p.openPrice || o.sl != p.sl || o.tp != p.tp then
        Some(held.value.(price := o.openPrice, sl := o.sl, tp := o.tp))
      else held
  }

  lemma OneOpenNew(b0: Book, prev: seq<Order>, o: Order, log: Log, t: nat)
    requires At(prev, o.ticket).None?
    ensures var b, b' := Replay(b0, log.events), Replay(b0, OpenChange(prev, o, log).events);
            && Get(b'.open, t) == (if t == o.ticket then Some(PositionOf(o)) else Get(b.open, t))
            && Get(b'.pending, t) == (if t == o.ticket then None else Get(b.pending, t))
  {
    ReplaySnoc(b0, log.events, OpenEvent(o));
  }

  lemma OneOpenUpdate(b0: Book, prev: seq<Order>, o: Order, log: Log, t: nat)
    requires At(prev, o.ticket).Some?
    ensures var b, b' := Replay(b0, log.events), Replay(b0, OpenChange(prev, o, log).events);
            && Get(b'.open, t) == (if t == o.ticket then Changed(At(prev, t), o, Get(b.open, t)) else Get(b.open, t))
            && b'.pending == b.pending
  {
    var p, sent := At(prev, o.ticket).value, OpenChange(prev, o, log).events;
    if o.lots < p.lots {
      ReplaySnoc(b0, log.events, sent[|log.events|]);
    } else if o.sl != p.sl || o.tp != p.tp {
      ReplaySnoc(b0, log.events, sent[|log.events|]);
    }
  }

  lemma OneOpenChange(b0: Book, prev: seq<Order>, o: Order, log: Log, t: nat)
    ensures var b, b' := Replay(b0, log.events), Replay(b0, OpenChange(prev, o, log).events);
            && Get(b'.open, t) == (if t == o.ticket then Changed(At(prev, t), o, Get(b.open, t)) else Get(b.open, t))
            && Get(b'.pending, t) == (if t == o.ticket && At(prev, t).None? then None else Get(b.pending, t))
  {
    if At(prev, o.ticket).None? { OneOpenNew(b0, prev, o, log, t); } else { OneOpenUpdate(b0, prev, o, log, t); }
  }

  lemma {:induction false} OpenChangesReplay(b0: Book, prev: seq<Order>, current: seq<Order>, log: Log, t: nat)
    requires DistinctTickets(current)
    ensures var b, b' := Replay(b0, log.events), Replay(b0, OpenChanges(prev, current, log).events);
            && Get(b'.open, t) == (match At(current, t)
                                   case Some(o) => Changed(At(prev, t), o, Get(b.open, t))
                                   case None => Get(b.open, t))
            && Get(b'.pending, t) == (if At(current, t).Some? && At(prev, t).None? then None else Get(b.pending, t))
  {
    if current != [] {
      var front, o := current[..|current| - 1], current[|current| - 1];
      LastIsNew(current);
      AtSnoc(front, o, t);
      OpenChangesReplay(b0, prev, front, log, t);
      OneOpenChange(b0, prev, o, OpenChanges(prev, front, log), t);
    }
  }

  lemma OneClose(b0: Book, current: seq<Order>, o: Order, log: Log, t: nat)
    ensures var b, b' := Replay(b0, log.events), Replay(b0, CloseOf(current, o, log).events);
            && Get(b'.open, t) == (if t == o.ticket && At(current, t).None? then None else Get(b.open, t))
            && b'.pending == b.pending
  {
    ReplaySnoc(b0, log.events, CloseEvent(o));
  }

  lemma {:induction false} ClosesReplay(b0: Book, prev: seq<Order>, current: seq<Order>, log: Log, t: nat)
    ensures var b, b' := Replay(b0, log.events), Replay(b0, Closes(prev, current, log).events);
            && Get(b'.open, t) == (if At(prev, t).Some? && At(current, t).None? then None else Get(b.open, t))
            && b'.pending == b.pending
  {
    if prev != [] {
      var front, o := prev[..|prev| - 1], prev[|prev| - 1];
      assert prev == front + [o];
      AtSnoc(front, o, t);
      ClosesReplay(b0, front, current, log, t);
      OneClose(b0, current, o, Closes(front, current, log), t);
    }
  }

  lemma OnePendingChange(b0: Book, prev: seq<Order>, o: Order, log: Log, t: nat)
    ensures var b, b' := Replay(b0, log.events), Replay(b0, PendingChange(prev, o, log).events);
            && b'.open == b.open
            && Get(b'.pending, t)
            == (if t == o.ticket then ChangedPending(At(prev, t), o, Get(b.pending, t)) else Get(b.pending, t))
  {
    var log' := PendingChange(prev, o, log);
    if log'.events != log.events {
      ReplaySnoc(b0, log.events, log'.events[|log.events|]);
    }
  }

  lemma {:induction false} PendingChangesReplay(b0: Book, prev: seq<Order>, current: seq<Order>, log: Log, t: nat)
    requires DistinctTickets(current)
    ensures var b, b' := Replay(b0, log.events), Replay(b0, PendingChanges(prev, current, log).events);
            && b'.open == b.open
            && Get(b'.pending, t) == (match At(current, t)
                                      case Some(o) => ChangedPending(At(prev, t), o, Get(b.pending, t))
                                      case None => Get(b.pending, t))
  {
    if current != [] {
      var front, o := current[..|current| - 1], current[|current| - 1];
      LastIsNew(current);
      AtSnoc(front, o, t);
      PendingChangesReplay(b0, prev, front, log, t);
      OnePendingChange(b0, prev, o, PendingChanges(prev, front, log), t);
    }
  }

  lemma OneCancel(b0: Book, current: seq<Order>, open: seq<Order>, o: Order, log: Log, t: nat)
    ensures var b, b' := Replay(b0, log.events), Replay(b0, CancelOf(current, open, o, log).events);
            && b'.open == b.open
            && Get(b'.pending, t)
            == (if t == o.ticket && At(current, t).None? && At(open, t).None? then None else Get(b.pending, t))
  {
    ReplaySnoc(b0, log.events, PendingCancelEvent(o));
  }

  lemma {:induction false} CancelsReplay(
      b0: Book, prev: seq<Order>, current: seq<Order>, open: seq<Order>, log: Log, t: nat)
    ensures var b, b' := Replay(b0, log.events), Replay(b0, Cancels(prev, current, open, log).events);
            && b'.open == b.open
            && Get(b'.pending, t)
            == (if At(prev, t).Some? && At(current, t).None? && At(open, t).None? then None else Get(b.pending, t))
  {
    if prev != [] {
      var front, o := prev[..|prev| - 1], prev[|prev| - 1];
      assert prev == front + [o];
      AtSnoc(front, o, t);
      CancelsReplay(b0, front, current, open, log, t);
      OneCancel(b0, current, open, o, Cancels(front, current, open, log), t);
    }
  }

  /** What a whole scan does to one ticket of the reader's book. */
  lemma ScanReplay(b0: Book, prev: Snapshot, current: Snapshot, log: Log, t: nat)
    requires DistinctTickets(current.open) && DistinctTickets(current.pending)
    ensures var b, b' := Replay(b0, log.events), Replay(b0, Scan(prev, current, log).events);
            var triggered := At(current.open, t).Some? && At(prev.open, t).None?;
            var pending := if triggered then None else Get(b.pending, t);
            && Get(b'.open, t) == (match At(current.open, t)
                                   case Some(o) => Changed(At(prev.open, t), o, Get(b.open, t))
                                   case None => if At(prev.open, t).Some? then None else Get(b.open, t))
            && Get(b'.pending, t) == (match At(current.pending, t)
                                      case Some(o) => ChangedPending(At(prev.pending, t), o, pending)
                                      case None =>
                                        if At(prev.pending, t).Some? && At(current.open, t).None? then None
                                        else pending)
  {
    var l1 := OpenChanges(prev.open, current.open, log);
    var l2 := Closes(prev.open, current.open, l1);
    var l3 := PendingChanges(prev.pending, current.pending, l2);
    OpenChangesReplay(b0, prev.open, current.open, log, t);
    ClosesReplay(b0, prev.open, current.open, l1, t);
    PendingChangesReplay(b0, prev.pending, current.pending, l2, t);
    CancelsReplay(b0, prev.pending, current.pending, current.open, l3, t);
  }

  // ---------------------------------------------------------------- whole scans

  /** A ticket is in at most one place of at most one book. */
  ghost predicate Sound(s: Snapshot) {
    && DistinctTickets(s.open) && DistinctTickets(s.pending)
    && forall t :: At(s.open, t).None? || At(s.pending, t).None?
  }

  lemma {:induction false} BooksMembers(pool: seq<Order>, o: Order)
    ensures o in Market(pool) <==> o in pool && IsMarket(o.kind)
    ensures o in Pending(pool) <==> o in pool && IsPending(o.kind)
  {
    if pool != [] {
      assert pool == pool[..|pool| - 1] + [pool[|pool| - 1]];
      BooksMembers(pool[..|pool| - 1], o);
    }
  }

  lemma {:induction false} BooksDistinct(pool: seq<Order>)
    requires DistinctTickets(pool)
    ensures DistinctTickets(Market(pool)) && DistinctTickets(Pending(pool))
  {
    if pool != [] {
      var front, o := pool[..|pool| - 1], pool[|pool| - 1];
      BooksDistinct(front);
      forall x | x in Market(front) || x in Pending(front) ensures x.ticket != o.ticket {
        BooksMembers(front, x);
        var i :| 0 <= i < |front| && front[i] == x;
        assert pool[i].ticket != pool[|pool| - 1].ticket;
      }
    }
  }

  /** A terminal's pool of distinct tickets gives sound books. */
  lemma PoolIsSound(pool: seq<Order>)
    requires DistinctTickets(pool)
    ensures Sound(Books(pool))
  {
    BooksDistinct(pool);
    forall t ensures At(Market(pool), t).None? || At(Pending(pool), t).None? {
      var o, p := At(Market(pool), t), At(Pending(pool), t);
      if o.Some? && p.Some? {
        BooksMembers(pool, o.value);
        BooksMembers(pool, p.value);
        DifferentTickets(pool, o.value, p.value);
      }
    }
  }

  lemma DifferentTickets(pool: seq<Order>, o: Order, p: Order)
    requires DistinctTickets(pool) && o in pool && p in pool && o != p
    ensures o.ticket != p.ticket
  {}

  /** What the terminal keeps for a ticket from one scan to the next: symbol and side, and lots never grow. */
  ghost predicate Steady(prev: Snapshot, current: Snapshot) {
    && (forall t :: At(prev.open, t).Some? && At(current.open, t).Some? ==>
          var p, o := At(prev.open, t).value, At(current.open, t).value;
          o.symbol == p.symbol && SideOf(o.kind) == SideOf(p.kind) && o.lots <= p.lots)
    && (forall t :: At(prev.pending, t).Some? && At(current.pending, t).Some? ==>
          var p, o := At(prev.pending, t).value, At(current.pending, t).value;
          o.symbol == p.symbol && SideOf(o.kind) == SideOf(p.kind) && o.lots == p.lots)
  }

  /** A position lost lots and changed its SL or TP between the same two scans. */
  predicate MixedAt(prev: Snapshot, current: Snapshot, t: nat) {
    var p, o := At(prev.open, t), At(current.open, t);
    p.Some? && o.Some? && o.value.lots < p.value.lots && (o.value.sl != p.value.sl || o.value.tp != p.value.tp)
  }

  ghost predicate MixedChange(prev: Snapshot, current: Snapshot) {
    exists t :: MixedAt(prev, current, t)
  }

  lemma SameBooks(a: Book, b: Book)
    requires forall t :: Get(a.open, t) == Get(b.open, t)
    requires forall t :: Get(a.pending, t) == Get(b.pending, t)
    ensures a == b
  {
    SameMaps(a.open, b.open);
    SameMaps(a.pending, b.pending);
  }

  lemma SameMaps<V>(a: map<nat, V>, b: map<nat, V>)
    requires forall t :: Get(a, t) == Get(b, t)
    ensures a == b
  {
    forall t ensures t in a <==> t in b { assert Get(a, t) == Get(b, t); }
    forall t | t in a ensures a[t] == b[t] { assert Get(a, t) == Get(b, t); }
  }

  lemma TicketReplaysIff(b0: Book, prev: Snapshot, current: Snapshot, log: Log, t: nat)
    requires Sound(prev) && Sound(current) && Steady(prev, current)
    requires Replay(b0, log.events) == BookOf(prev)
    ensures var b' := Replay(b0, Scan(prev, current, log).events);
            && (Get(b'.open, t) == Get(OpenBook(current.open), t) <==> !MixedAt(prev, current, t))
            && Get(b'.pending, t) == Get(PendingBook(current.pending), t)
  {
    ScanReplay(b0, prev, current, log, t);
    BookAt(prev.open, t);
    BookAt(prev.pending, t);
    BookAt(current.open, t);
    BookAt(current.pending, t);
  }

  /**
   * A reader whose book equals the Master's before a scan has the Master's book after it exactly when no position
   * changed lots and SL/TP in that one scan: such a scan reports only the partial close.
   */
  lemma ScanReplaysIff(b0: Book, prev: Snapshot, current: Snapshot, log: Log)
    requires Sound(prev) && Sound(current) && Steady(prev, current)
    requires Replay(b0, log.events) == BookOf(prev)
    ensures Replay(b0, Scan(prev, current, log).events) == BookOf(current) <==> !MixedChange(prev, current)
  {
    var b' := Replay(b0, Scan(prev, current, log).events);
    forall t
      ensures Get(b'.open, t) == Get(OpenBook(current.open), t) <==> !MixedAt(prev, current, t)
      ensures Get(b'.pending, t) == Get(PendingBook(current.pending), t)
    {
      TicketReplaysIff(b0, prev, current, log, t);
    }
    if !MixedChange(prev, current) {
      forall t ensures Get(b'.open, t) == Get(OpenBook(current.open), t) { assert !MixedAt(prev, current, t); }
      SameBooks(b', BookOf(current));
    }
  }

  function NoStops(p: Option<Position>): Option<Position> {
    match p case Some(q) => Some(q.(sl := 0, tp := 0)) case None => None
  }

  /** A reader's book that may be wrong about the SL and TP of positions, and about nothing else. */
  ghost predicate TicketsAndLotsAgree(b: Book, s: Snapshot) {
    && (forall t :: Get(b.pending, t) == Get(PendingBook(s.pending), t))
    && (forall t :: NoStops(Get(b.open, t)) == NoStops(Get(OpenBook(s.open), t)))
  }

  lemma ScanKeepsPosition(b0: Book, prev: Snapshot, current: Snapshot, log: Log, t: nat)
    requires Sound(prev) && Sound(current) && Steady(prev, current)
    requires NoStops(Get(Replay(b0, log.events).open, t)) == NoStops(Get(OpenBook(prev.open), t))
    ensures NoStops(Get(Replay(b0, Scan(prev, current, log).events).open, t)) == NoStops(Get(OpenBook(current.open), t))
  {
    ScanReplay(b0, prev, current, log, t);
    BookAt(prev.open, t);
    BookAt(current.open, t);
  }

  lemma ScanKeepsPending(b0: Book, prev: Snapshot, current: Snapshot, log: Log, t: nat)
    requires Sound(prev) && Sound(current) && Steady(prev, current)
    requires Get(Replay(b0, log.events).pending, t) == Get(PendingBook(prev.pending), t)
    ensures Get(Replay(b0, Scan(prev, current, log).events).pending, t) == Get(PendingBook(current.pending), t)
  {
    ScanReplay(b0, prev, current, log, t);
    BookAt(prev.pending, t);
    BookAt(current.pending, t);
  }

  /** Whatever changes together, tickets, symbols, sides and lots stay right, and so do pending orders. */
  lemma ScanKeepsTicketsAndLots(b0: Book, prev: Snapshot, current: Snapshot, log: Log)
    requires Sound(prev) && Sound(current) && Steady(prev, current)
    requires TicketsAndLotsAgree(Replay(b0, log.events), prev)
    ensures TicketsAndLotsAgree(Replay(b0, Scan(prev, current, log).events), current)
  {
    forall t
      ensures var b' := Replay(b0, Scan(prev, current, log).events);
              && NoStops(Get(b'.open, t)) == NoStops(Get(OpenBook(current.open), t))
              && Get(b'.pending, t) == Get(PendingBook(current.pending), t)
    {
      ScanKeepsPosition(b0, prev, current, log, t);
      ScanKeepsPending(b0, prev, current, log, t);
    }
  }

  // ---------------------------------------------------------------- whole runs

  /** The log of one EA run: the first pool is the start-up baseline, every later one a scan. */
  function RunLog(pools: seq<seq<Order>>): Log
    requires pools != []
  {
    if |pools| == 1 then Log([], 0)
    else Scan(Books(pools[|pools| - 2]), Books(pools[|pools| - 1]), RunLog(pools[..|pools| - 1]))
  }

  ghost predicate TerminalRun(pools: seq<seq<Order>>) {
    && (forall i :: 0 <= i < |pools| ==> DistinctTickets(pools[i]))
    && (forall i :: 0 < i < |pools| ==> Steady(Books(pools[i - 1]), Books(pools[i])))
  }

  /** Over every run, replaying all events from the baseline keeps tickets, lots and pending orders right. */
  lemma {:induction false} RunKeepsTicketsAndLots(pools: seq<seq<Order>>)
    requires pools != [] && TerminalRun(pools)
    ensures TicketsAndLotsAgree(Replay(BookOf(Books(pools[0])), RunLog(pools).events), Books(pools[|pools| - 1]))
  {
    var n, b0 := |pools|, BookOf(Books(pools[0]));
    if n > 1 {
      var front := pools[..n - 1];
      RunKeepsTicketsAndLots(front);
      PoolIsSound(pools[n - 2]);
      PoolIsSound(pools[n - 1]);
      assert Steady(Books(pools[n - 1 - 1]), Books(pools[n - 1]));
      ScanKeepsTicketsAndLots(b0, Books(pools[n - 2]), Books(pools[n - 1]), RunLog(front));
    }
  }

  ghost predicate Unmixed(pools: seq<seq<Order>>) {
    forall i :: 0 < i < |pools| ==> !MixedChange(Books(pools[i - 1]), Books(pools[i]))
  }

  /** What holds of a run holds of all but its last scan, and of the last scan. */
  lemma LastOfRun(pools: seq<seq<Order>>)
    requires |pools| > 1 && TerminalRun(pools) && Unmixed(pools)
    ensures TerminalRun(pools[..|pools| - 1]) && Unmixed(pools[..|pools| - 1])
    ensures var prev, current := Books(pools[|pools| - 2]), Books(pools[|pools| - 1]);
            Sound(prev) && Sound(current) && Steady(prev, current) && !MixedChange(prev, current)
  {
    var n := |pools|;
    PoolIsSound(pools[n - 2]);
    PoolIsSound(pools[n - 1]);
    assert Steady(Books(pools[n - 1 - 1]), Books(pools[n - 1]));
    assert !MixedChange(Books(pools[n - 1 - 1]), Books(pools[n - 1]));
  }

  /** Over every run without a mixed change, replaying all events from the baseline gives exactly the current books. */
  lemma {:induction false} RunReplaysExactly(pools: seq<seq<Order>>)
    requires pools != [] && TerminalRun(pools) && Unmixed(pools)
    ensures Replay(BookOf(Books(pools[0])), RunLog(pools).events) == BookOf(Books(pools[|pools| - 1]))
  {
    var n := |pools|;
    if n > 1 {
      LastOfRun(pools);
      RunReplaysExactly(pools[..n - 1]);
      ScanReplaysIff(BookOf(Books(pools[0])), Books(pools[n - 2]), Books(pools[n - 1]), RunLog(pools[..n - 1]));
    }
  }
}
