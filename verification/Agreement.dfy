/** What the system believes is open, against what the Slave holds. */
module Agreement {
  import opened Common
  import opened ReconciliationEngine
  import opened ReconciliationTheorems
  import opened CopyOrders
  import opened CopyProtocol
  import opened SlaveTerminal
  import opened SlaveRun
  import opened AtMostOnce
  import opened Ledger
  import opened LedgerRuns

  // ---------------------------------------------------------------- where rows come from

  ghost predicate FromEvent(begun: seq<TradeEvent>, stored: TradeEvent) {
    exists e :: e in begun && Persisted(e) == stored
  }

  ghost predicate Sourced(b: Backend, begun: seq<TradeEvent>) {
    && (forall n :: n in b.calls && b.calls[n].Creating? ==> b.calls[n].event in begun)
    && (forall id :: id in b.table.rows ==> FromEvent(begun, b.table.rows[id].event))
  }

  lemma SourcedMore(begun: seq<TradeEvent>, more: seq<TradeEvent>, stored: TradeEvent)
    requires FromEvent(begun, stored)
    ensures FromEvent(begun + more, stored)
  {
    var e :| e in begun && Persisted(e) == stored;
    assert e in begun + more;
  }

  lemma RowStaysSourced(
      platform: Platform, s: State, e: Event, begun: seq<TradeEvent>, more: seq<TradeEvent>, id: string)
    requires Permitted(platform, s, e) && Sourced(s.backend, begun) && id in After(platform, s, e).backend.table.rows
    ensures FromEvent(begun + more, After(platform, s, e).backend.table.rows[id].event)
  {
    if id in s.backend.table.rows {
      SourcedMore(begun, more, s.backend.table.rows[id].event);
    } else {
      assert s.backend.calls[e.step.call].event in begun + more;
    }
  }

  lemma CallStaysSourced(platform: Platform, s: State, e: Event, begun: seq<TradeEvent>, n: nat)
    requires Permitted(platform, s, e) && Sourced(s.backend, begun)
    requires n in After(platform, s, e).backend.calls && After(platform, s, e).backend.calls[n].Creating?
    ensures After(platform, s, e).backend.calls[n].event in
            begun + if e.Act? && e.step.Begin? then [e.step.event] else []
  {}

  lemma StepKeepsSourced(platform: Platform, s: State, e: Event, begun: seq<TradeEvent>)
    requires Permitted(platform, s, e) && Sourced(s.backend, begun)
    ensures Sourced(After(platform, s, e).backend, begun + if e.Act? && e.step.Begin? then [e.step.event] else [])
  {
    var more := if e.Act? && e.step.Begin? then [e.step.event] else [];
    var b' := After(platform, s, e).backend;
    forall id | id in b'.table.rows ensures FromEvent(begun + more, b'.table.rows[id].event) {
      RowStaysSourced(platform, s, e, begun, more, id);
    }
    forall n | n in b'.calls && b'.calls[n].Creating? ensures b'.calls[n].event in begun + more {
      CallStaysSourced(platform, s, e, begun, n);
    }
  }

  lemma {:induction false} RunIsSourced(platform: Platform, d: Discipline, es: seq<Event>)
    requires Legal(platform, d, es)
    ensures Sourced(Final(platform, d, es).backend, Begun(es))
  {
    if es != [] {
      RunIsSourced(platform, d, es[..|es| - 1]);
      StepKeepsSourced(platform, Final(platform, d, es[..|es| - 1]), es[|es| - 1], Begun(es[..|es| - 1]));
    }
  }

  /** No two different OPEN events name the same Master ticket. */
  ghost predicate OneOpenPerTicket(begun: seq<TradeEvent>) {
    forall e, f ::
      e in begun && f in begun && e.action == Open && f.action == Open && e.masterTicket == f.masterTicket ==>
      e.eventId == f.eventId
  }

  ghost predicate OneOpenRow(t: Table) {
    forall x, y, m :: IsOpenFor(t, x, m) && IsOpenFor(t, y, m) ==> x == y
  }

  predicate IsOpenFor(t: Table, id: string, masterTicket: string) {
    id in t.rows && t.rows[id].event.action == Open && t.rows[id].event.masterTicket == masterTicket
  }

  lemma OneOpenRowEach(b: Backend, begun: seq<TradeEvent>)
    requires ValidTable(b.table) && Sourced(b, begun) && OneOpenPerTicket(begun)
    ensures OneOpenRow(b.table)
  {
    forall x, y, m | IsOpenFor(b.table, x, m) && IsOpenFor(b.table, y, m) ensures x == y {
      var e :| e in begun && Persisted(e) == b.table.rows[x].event;
      var f :| f in begun && Persisted(f) == b.table.rows[y].event;
      assert e.eventId == f.eventId;
    }
  }

  // ---------------------------------------------------------------- the books the reconciliation compares

  /** The MT4 heartbeat leaves out a price that is not positive. */
  function Shown(platform: Platform, price: real): Option<real> {
    if platform == Mt4 && price <= 0.0 then None else Some(price)
  }

  /** A position as the connector's heartbeat reports it. */
  function Reported(platform: Platform, p: Position): SlavePosition {
    SlavePosition(p.ticket, p.symbol, p.volume, Shown(platform, p.sl), Shown(platform, p.tp), Some(p.comment))
  }

  ghost function Snapshot(platform: Platform, book: seq<Position>): seq<SlavePosition> {
    Map(book, (p: Position) => Reported(platform, p))
  }

  /** expectedSlTpByMasterTicket: one entry for every open copy that has one. */
  ghost function Expectations(t: Table): map<string, ExpectedSlTp> {
    map c | c in OpenCopies(t) && GetExpectedSlTp(t, c.masterTicket).Some?
      :: c.masterTicket := GetExpectedSlTp(t, c.masterTicket).value
  }

  /** What runReconciliation hands to compareState for this Slave. */
  ghost function Compared(platform: Platform, t: Table, book: seq<Position>, masterPositions: seq<MasterPosition>,
                          volumeTolerance: Option<real>, priceTolerance: Option<real>): Input {
    Input(masterPositions, OpenCopies(t), ClosedCopies(t), Snapshot(platform, book), Expectations(t),
          volumeTolerance, priceTolerance)
  }

  /** Every execution so far has reached the backend. */
  ghost predicate AllReported(s: State) {
    forall k :: 0 <= k < |s.outcomes| ==> k in s.reported
  }

  ghost predicate Settled(platform: Platform, s: State) {
    LedgerInv(platform, s) && OneOpenRow(s.backend.table) && AllReported(s)
  }

  // ---------------------------------------------------------------- what is really open

  /** A row of this kind and Master ticket was filled, whatever its status has become. */
  ghost predicate FilledFor(s: State, id: string, action: Action, masterTicket: string) {
    && id in s.backend.table.rows && WasFilled(s, id)
    && s.backend.table.rows[id].event.action == action && s.backend.table.rows[id].event.masterTicket == masterTicket
  }

  ghost predicate WasClosed(s: State, masterTicket: string) {
    exists id :: FilledFor(s, id, Close, masterTicket)
  }

  /** The OPEN was filled and no CLOSE of its Master ticket was. */
  ghost predicate TrulyOpen(s: State, id: string) {
    && id in s.backend.table.rows
    && FilledFor(s, id, Open, s.backend.table.rows[id].event.masterTicket)
    && !WasClosed(s, s.backend.table.rows[id].event.masterTicket)
  }

  // ---------------------------------------------------------------- one copy, one position

  /** The row of the instruction that was filled. */
  lemma {:induction false} FilledRow(platform: Platform, s: State, k: int, action: Action, ticket: string)
    returns (id: string)
    requires Settled(platform, s) && FilledAs(s.backend.handed, s.outcomes, k, action, ticket)
    ensures id == s.backend.handed[k].copyId && Confirmed(s, k, id)
    ensures id in s.backend.table.rows && FilledFor(s, id, action, s.backend.table.rows[id].event.masterTicket)
    ensures s.backend.table.rows[id].slaveTicket == Some(ticket)
    ensures Carries(s.backend.handed[k], s.backend.table.rows[id])
  {
    id := s.backend.handed[k].copyId;
    assert Confirmed(s, k, id);
    assert HandedIsSound(s.backend.table, s.backend.handed[k]);
    assert CarriesTicket(s.backend.table, s.backend.handed[k], s.outcomes[k]);
  }

  /** The execution behind a filled row. */
  lemma {:induction false} RowFilled(platform: Platform, s: State, id: string) returns (k: int, ticket: string)
    requires LedgerInv(platform, s) && WasFilled(s, id)
    ensures id in s.backend.table.rows && Confirmed(s, k, id)
    ensures FilledAs(s.backend.handed, s.outcomes, k, s.backend.table.rows[id].event.action, ticket)
    ensures s.backend.table.rows[id].slaveTicket == Some(ticket)
    ensures Carries(s.backend.handed[k], s.backend.table.rows[id])
  {
    k :| Confirmed(s, k, id);
    ticket := s.outcomes[k].ticket;
    assert HandedIsSound(s.backend.table, s.backend.handed[k]);
    assert CarriesTicket(s.backend.table, s.backend.handed[k], s.outcomes[k]);
  }

  predicate HasOpened(t: Table, id: string, ticket: string) {
    id in t.rows && t.rows[id].event.action == Open && t.rows[id].slaveTicket == Some(ticket)
  }

  /** Two filled OPEN rows with the same Slave ticket are the same row. */
  lemma TicketNamesOneRow(platform: Platform, s: State, x: string, y: string, ticket: string)
    requires LedgerInv(platform, s) && WasFilled(s, x) && WasFilled(s, y)
    requires HasOpened(s.backend.table, x, ticket) && HasOpened(s.backend.table, y, ticket)
    ensures x == y
  {
    var j, t := RowFilled(platform, s, x);
    var k, u := RowFilled(platform, s, y);
    TicketOpensOnce(s.backend.handed, s.outcomes, j, k, ticket);
  }

  /** A filled CLOSE's or MODIFY's ticket is the one an OPEN of its Master ticket was filled with. */
  lemma {:induction false} TargetRow(platform: Platform, s: State, k: int, action: Action, ticket: string)
    returns (id: string)
    requires LedgerInv(platform, s) && FilledAs(s.backend.handed, s.outcomes, k, action, ticket) && action != Open
    ensures s.backend.handed[k].copyId in s.backend.table.rows
    ensures FilledFor(s, id, Open, s.backend.table.rows[s.backend.handed[k].copyId].event.masterTicket)
    ensures HasOpened(s.backend.table, id, ticket)
  {
    var i := s.backend.handed[k];
    assert i in s.backend.handed && InstructionTargets(s, i);
    var m := s.backend.table.rows[i.copyId].event.masterTicket;
    var j :| Opening(s, j, m) && i.slaveTicket == Some(s.outcomes[j].ticket);
    id := s.backend.handed[j].copyId;
    assert Confirmed(s, j, id);
    assert HandedIsSound(s.backend.table, s.backend.handed[j]);
    assert CarriesTicket(s.backend.table, s.backend.handed[j], s.outcomes[j]);
  }

  /** Once a position is closed, its OPEN's Master ticket was closed. */
  lemma FilledCloseHides(platform: Platform, s: State, j: int, ticket: string, id: string)
    requires Settled(platform, s) && FilledAs(s.backend.handed, s.outcomes, j, Close, ticket)
    requires WasFilled(s, id) && HasOpened(s.backend.table, id, ticket)
    ensures WasClosed(s, s.backend.table.rows[id].event.masterTicket)
  {
    var closing := FilledRow(platform, s, j, Close, ticket);
    var opening := TargetRow(platform, s, j, Close, ticket);
    TicketNamesOneRow(platform, s, opening, id, ticket);
  }

  /** What is truly open is held. */
  lemma {:induction false} OpenCopyIsHeld(platform: Platform, s: State, id: string) returns (p: Position)
    requires Settled(platform, s) && TrulyOpen(s, id)
    ensures p in s.book && s.backend.table.rows[id].slaveTicket == Some(p.ticket)
    ensures p.comment == COPY_PREFIX + id
  {
    var handed := s.backend.handed;
    var k, ticket := RowFilled(platform, s, id);
    if !Holds(s.book, ticket) {
      var j :| FilledAs(handed, s.outcomes, j, Close, ticket);
      FilledCloseHides(platform, s, j, ticket, id);
      assert false;
    }
    p :| p in s.book && p.ticket == ticket;
    var j :| HeldFrom(handed, s.outcomes, p, j);
    TicketOpensOnce(handed, s.outcomes, j, k, ticket);
  }

  /** What is held is truly open. */
  lemma {:induction false} HeldIsOpenCopy(platform: Platform, s: State, p: Position) returns (id: string)
    requires Settled(platform, s) && p in s.book
    ensures TrulyOpen(s, id) && s.backend.table.rows[id].slaveTicket == Some(p.ticket)
    ensures p.comment == COPY_PREFIX + id
    ensures Near(Some(p.volume), s.backend.table.rows[id].requestedVolume, HALF_VOLUME_UNIT)
  {
    var t, handed := s.backend.table, s.backend.handed;
    var k :| HeldFrom(handed, s.outcomes, p, k);
    id := FilledRow(platform, s, k, Open, p.ticket);
    var m := t.rows[id].event.masterTicket;
    if WasClosed(s, m) {
      var closing :| FilledFor(s, closing, Close, m);
      var j, ticket := RowFilled(platform, s, closing);
      var opening := TargetRow(platform, s, j, Close, ticket);
      assert IsOpenFor(t, opening, m) && IsOpenFor(t, id, m);
      assert false;
    }
  }

  // ---------------------------------------------------------------- what the table lists

  /** The open list is what is really open. */
  ghost predicate Tracked(s: State) {
    forall id :: IsOpenRow(s.backend.table, id) <==> TrulyOpen(s, id)
  }

  /**
   * That this filled row is not EXECUTED makes no difference to the open list: a MODIFY is not in it, an OPEN is out of
   * it once closed, and a CLOSE is not missed if another one counts or there is no OPEN left to close.
   */
  ghost predicate Harmless(s: State, id: string)
    requires id in s.backend.table.rows
  {
    var t, m := s.backend.table, s.backend.table.rows[id].event.masterTicket;
    match t.rows[id].event.action
    case Modify => true
    case Open => WasClosed(s, m)
    case Close => m in ClosedTickets(t) || forall x :: !Matches(t.rows, x, OpenedFor(m))
  }

  /** Every filled row is EXECUTED or harmless. */
  ghost predicate AllTracked(s: State) {
    forall id :: WasFilled(s, id) && id in s.backend.table.rows ==>
      s.backend.table.rows[id].status == Executed || Harmless(s, id)
  }

  lemma ExecutedIsFilled(platform: Platform, s: State, id: string)
    requires LedgerInv(platform, s) && id in s.backend.table.rows && s.backend.table.rows[id].status == Executed
    ensures WasFilled(s, id)
  {}

  lemma ListedWasFilled(platform: Platform, s: State, m: string)
    requires LedgerInv(platform, s) && m in ClosedTickets(s.backend.table)
    ensures WasClosed(s, m)
  {
    var t := s.backend.table;
    var id :| id in t.rows && Done(t.rows[id], Close) && t.rows[id].event.masterTicket == m;
    assert FilledFor(s, id, Close, m);
  }

  lemma ClosedIsListed(s: State, id: string, closing: string, m: string)
    requires AllTracked(s) && FilledFor(s, closing, Close, m) && Matches(s.backend.table.rows, id, OpenedFor(m))
    ensures m in ClosedTickets(s.backend.table)
  {
    assert s.backend.table.rows[closing].status == Executed || Harmless(s, closing);
  }

  lemma HarmlessIsTracked(platform: Platform, s: State, id: string)
    requires LedgerInv(platform, s) && AllTracked(s)
    ensures IsOpenRow(s.backend.table, id) <==> TrulyOpen(s, id)
  {
    var t := s.backend.table;
    if id in t.rows {
      var m := t.rows[id].event.masterTicket;
      if m in ClosedTickets(t) { ListedWasFilled(platform, s, m); }
      if WasClosed(s, m) && Matches(t.rows, id, OpenedFor(m)) {
        var closing :| FilledFor(s, closing, Close, m);
        ClosedIsListed(s, id, closing, m);
      }
    }
  }

  lemma TrackedIsHarmless(platform: Platform, s: State, id: string)
    requires LedgerInv(platform, s) && Tracked(s) && WasFilled(s, id) && id in s.backend.table.rows
    ensures s.backend.table.rows[id].status == Executed || Harmless(s, id)
  {
    var t, m := s.backend.table, s.backend.table.rows[id].event.masterTicket;
    match t.rows[id].event.action
    case Modify =>
    case Open => assert TrulyOpen(s, id) || WasClosed(s, m);
    case Close =>
      assert FilledFor(s, id, Close, m);
      if x :| Matches(t.rows, x, OpenedFor(m)) { assert IsOpenRow(t, x) ==> TrulyOpen(s, x); }
  }

  /** The open list is what is really open exactly when every filled row is EXECUTED or harmless. */
  lemma TrackedIff(platform: Platform, s: State)
    requires LedgerInv(platform, s)
    ensures Tracked(s) <==> AllTracked(s)
  {
    if AllTracked(s) {
      forall id ensures IsOpenRow(s.backend.table, id) <==> TrulyOpen(s, id) { HarmlessIsTracked(platform, s, id); }
    }
    if Tracked(s) {
      forall id | WasFilled(s, id) && id in s.backend.table.rows
        ensures s.backend.table.rows[id].status == Executed || Harmless(s, id)
      {
        TrackedIsHarmless(platform, s, id);
      }
    }
  }

  // ---------------------------------------------------------------- the books match

  lemma SnapshotMember(platform: Platform, book: seq<Position>, q: SlavePosition)
    ensures q in Snapshot(platform, book) <==> exists p :: p in book && q == Reported(platform, p)
  {
    if q in Snapshot(platform, book) {
      var i :| 0 <= i < |book| && Snapshot(platform, book)[i] == q;
      assert book[i] in book;
    }
    if p :| p in book && q == Reported(platform, p) {
      var i :| 0 <= i < |book| && book[i] == p;
      assert Snapshot(platform, book)[i] == q;
    }
  }

  lemma TicketSetsMatch(platform: Platform, s: State)
    requires Settled(platform, s) && Tracked(s)
    ensures ToSet(Map(OpenCopies(s.backend.table), OpenTicket()))
            == ToSet(Map(Snapshot(platform, s.book), HeldTicket()))
  {
    var t, opens, positions := s.backend.table, OpenCopies(s.backend.table), Snapshot(platform, s.book);
    forall x ensures x in ToSet(Map(opens, OpenTicket())) <==> x in ToSet(Map(positions, HeldTicket())) {
      Members(opens, OpenTicket(), x);
      Members(positions, HeldTicket(), x);
      if c :| c in opens && c.slaveTicket == x {
        OpenCopiesAre(t, c);
        var p := OpenCopyIsHeld(platform, s, c.copyId);
        SnapshotMember(platform, s.book, Reported(platform, p));
      }
      if q :| q in positions && Some(q.ticket) == x {
        SnapshotMember(platform, s.book, q);
        var p :| p in s.book && q == Reported(platform, p);
        var id := HeldIsOpenCopy(platform, s, p);
        OpenCopiesAre(t, AsOpenCopy(t, id));
      }
    }
  }

  lemma TracedBack(id: string)
    requires IsTraceable(id)
    ensures ExtractCopyId(Some(COPY_PREFIX + id)) == Some(id)
  {}

  lemma CopyIdSetsMatch(platform: Platform, s: State)
    requires Settled(platform, s) && Tracked(s)
    ensures ToSet(Map(OpenCopies(s.backend.table), OpenId())) == ToSet(Map(Snapshot(platform, s.book), TracedId()))
  {
    var t, opens, positions := s.backend.table, OpenCopies(s.backend.table), Snapshot(platform, s.book);
    forall x ensures x in ToSet(Map(opens, OpenId())) <==> x in ToSet(Map(positions, TracedId())) {
      Members(opens, OpenId(), x);
      Members(positions, TracedId(), x);
      if c :| c in opens && Some(c.copyId) == x {
        OpenCopiesAre(t, c);
        var p := OpenCopyIsHeld(platform, s, c.copyId);
        TracedBack(c.copyId);
        SnapshotMember(platform, s.book, Reported(platform, p));
      }
      if q :| q in positions && ExtractCopyId(q.comment) == x {
        SnapshotMember(platform, s.book, q);
        var p :| p in s.book && q == Reported(platform, p);
        var id := HeldIsOpenCopy(platform, s, p);
        TracedBack(id);
        OpenCopiesAre(t, AsOpenCopy(t, id));
      }
    }
  }

  lemma ListedApart(platform: Platform, s: State, i: nat, j: nat)
    requires LedgerInv(platform, s) && i < j < |OpenCopies(s.backend.table)|
    ensures var opens := OpenCopies(s.backend.table);
            opens[i].copyId != opens[j].copyId && opens[i].slaveTicket != opens[j].slaveTicket
  {
    var t, opens := s.backend.table, OpenCopies(s.backend.table);
    OpenCopiesOnce(t, t.ids);
    assert Map(opens, CopyIdOf())[i] != Map(opens, CopyIdOf())[j];
    assert opens[i] in opens && opens[j] in opens;
    OpenCopiesAre(t, opens[i]);
    OpenCopiesAre(t, opens[j]);
    ExecutedOpens(platform, s, opens[i].copyId);
    if opens[i].slaveTicket == opens[j].slaveTicket {
      TicketNamesOneRow(platform, s, opens[i].copyId, opens[j].copyId, opens[i].slaveTicket.value);
    }
  }

  /** The open list is as the reconciliation's theorems need it, late verdicts or not. */
  lemma OpensAreWellFormed(platform: Platform, s: State)
    requires LedgerInv(platform, s)
    ensures WellFormedOpens(OpenCopies(s.backend.table))
  {
    var t, opens := s.backend.table, OpenCopies(s.backend.table);
    var ids, tickets := Map(opens, OpenId()), Map(opens, OpenTicket());
    forall i, j | 0 <= i < j < |opens| ensures ids[i] != ids[j] && tickets[i] != tickets[j] {
      ListedApart(platform, s, i, j);
    }
    forall c | c in opens ensures HasTicket(c.slaveTicket) && c.requestedVolume.Some? {
      OpenCopiesAre(t, c);
      ExecutedOpens(platform, s, c.copyId);
      var k, ticket := RowFilled(platform, s, c.copyId);
    }
  }

  lemma SnapshotTickets(platform: Platform, book: seq<Position>)
    requires DistinctBook(book)
    ensures Distinct(Map(Snapshot(platform, book), HeldTicket()))
  {
    var tickets := Map(Snapshot(platform, book), HeldTicket());
    forall i, j | 0 <= i < j < |tickets| ensures tickets[i] != tickets[j] {
      assert Map(book, HeldAt())[i] != Map(book, HeldAt())[j];
    }
  }

  /** n distinct keys on one side, the same keys on the other, n of them. */
  lemma SameSizeIsDistinct<K>(xs: seq<K>, ys: seq<K>)
    requires Distinct(xs) && ToSet(xs) == ToSet(ys) && |xs| == |ys|
    ensures Distinct(ys)
  {
    DistinctSize(xs);
    DistinctSize(ys);
  }

  lemma SameKeysSameSize<K>(xs: seq<K>, ys: seq<K>)
    requires Distinct(xs) && Distinct(ys) && ToSet(xs) == ToSet(ys)
    ensures |xs| == |ys|
  {
    DistinctSize(xs);
    DistinctSize(ys);
  }

  lemma BooksAreMatched(platform: Platform, s: State)
    requires Settled(platform, s) && Tracked(s)
    ensures MatchedByTicket(OpenCopies(s.backend.table), Snapshot(platform, s.book))
    ensures MatchedByComment(OpenCopies(s.backend.table), Snapshot(platform, s.book))
  {
    var opens, positions := OpenCopies(s.backend.table), Snapshot(platform, s.book);
    OpensAreWellFormed(platform, s);
    SnapshotTickets(platform, s.book);
    TicketSetsMatch(platform, s);
    CopyIdSetsMatch(platform, s);
    SameKeysSameSize(Map(opens, OpenTicket()), Map(positions, HeldTicket()));
    SameSizeIsDistinct(Map(opens, OpenId()), Map(positions, TracedId()));
  }

  lemma VolumesAreWithin(platform: Platform, s: State, tolerance: real)
    requires Settled(platform, s) && tolerance >= HALF_VOLUME_UNIT
    ensures VolumesWithin(OpenCopies(s.backend.table), Snapshot(platform, s.book), tolerance)
  {
    var t, opens, positions := s.backend.table, OpenCopies(s.backend.table), Snapshot(platform, s.book);
    forall c, q | c in opens && q in positions && c.slaveTicket == Some(q.ticket) && c.requestedVolume.Some?
      ensures Abs(q.volume - c.requestedVolume.value) <= tolerance
    {
      OpenCopiesAre(t, c);
      SnapshotMember(platform, s.book, q);
      var p :| p in s.book && q == Reported(platform, p);
      var id := HeldIsOpenCopy(platform, s, p);
      TicketNamesOneRow(platform, s, id, c.copyId, q.ticket);
    }
  }

  lemma ClosedIsNotHeld(platform: Platform, s: State, c: ClosedCopy, q: SlavePosition)
    requires LedgerInv(platform, s) && c in ClosedCopies(s.backend.table) && q in Snapshot(platform, s.book)
    ensures c.slaveTicket != Some(q.ticket)
  {
    var t := s.backend.table;
    ClosedCopiesAre(t, c);
    var id :| IsClosedRow(t, id) && c == ClosedCopy(t.rows[id].event.masterTicket, t.rows[id].slaveTicket);
    var k, ticket := RowFilled(platform, s, id);
    SnapshotMember(platform, s.book, q);
  }

  lemma TrackedBooksMatch(platform: Platform, s: State, input: Input)
    requires Settled(platform, s) && Tracked(s)
    requires input.volumeTolerance.GetOr(DEFAULT_VOLUME_TOLERANCE) >= HALF_VOLUME_UNIT
    requires input == Compared(platform, s.backend.table, s.book, input.masterPositions, input.volumeTolerance,
                               input.priceTolerance)
    ensures BooksMatch(input)
  {
    BooksAreMatched(platform, s);
    VolumesAreWithin(platform, s, input.volumeTolerance.GetOr(DEFAULT_VOLUME_TOLERANCE));
    forall c, q | c in input.closedCopies && q in input.slavePositions && HasTicket(c.slaveTicket)
      ensures c.slaveTicket != Some(q.ticket)
    {
      ClosedIsNotHeld(platform, s, c, q);
    }
  }

  /** If the tickets match, what is truly open is listed. */
  lemma HeldIsListed(platform: Platform, s: State, id: string)
    requires Settled(platform, s) && MatchedByTicket(OpenCopies(s.backend.table), Snapshot(platform, s.book))
    requires TrulyOpen(s, id)
    ensures IsOpenRow(s.backend.table, id)
  {
    var t := s.backend.table;
    var p := OpenCopyIsHeld(platform, s, id);
    SnapshotMember(platform, s.book, Reported(platform, p));
    Members(Snapshot(platform, s.book), HeldTicket(), Some(p.ticket));
    Members(OpenCopies(t), OpenTicket(), Some(p.ticket));
    var c :| c in OpenCopies(t) && c.slaveTicket == Some(p.ticket);
    OpenCopiesAre(t, c);
    TicketNamesOneRow(platform, s, c.copyId, id, p.ticket);
  }

  /** And what is listed is truly open. */
  lemma ListedIsHeld(platform: Platform, s: State, id: string)
    requires Settled(platform, s) && MatchedByTicket(OpenCopies(s.backend.table), Snapshot(platform, s.book))
    requires IsOpenRow(s.backend.table, id)
    ensures TrulyOpen(s, id)
  {
    var t := s.backend.table;
    OpenCopiesAre(t, AsOpenCopy(t, id));
    ExecutedOpens(platform, s, id);
    Members(OpenCopies(t), OpenTicket(), t.rows[id].slaveTicket);
    Members(Snapshot(platform, s.book), HeldTicket(), t.rows[id].slaveTicket);
    var q :| q in Snapshot(platform, s.book) && Some(q.ticket) == t.rows[id].slaveTicket;
    SnapshotMember(platform, s.book, q);
    var p :| p in s.book && q == Reported(platform, p);
    var x := HeldIsOpenCopy(platform, s, p);
    TicketNamesOneRow(platform, s, x, id, p.ticket);
  }

  lemma MatchedIsTracked(platform: Platform, s: State)
    requires Settled(platform, s) && MatchedByTicket(OpenCopies(s.backend.table), Snapshot(platform, s.book))
    ensures Tracked(s)
  {
    forall id ensures IsOpenRow(s.backend.table, id) <==> TrulyOpen(s, id) {
      if TrulyOpen(s, id) { HeldIsListed(platform, s, id); }
      if IsOpenRow(s.backend.table, id) { ListedIsHeld(platform, s, id); }
    }
  }

  /** Once every result has arrived, the books match exactly when every filled row is EXECUTED or harmless. */
  lemma SettledAgreesIff(platform: Platform, s: State, input: Input)
    requires Settled(platform, s) && input.volumeTolerance.GetOr(DEFAULT_VOLUME_TOLERANCE) >= HALF_VOLUME_UNIT
    requires input == Compared(platform, s.backend.table, s.book, input.masterPositions, input.volumeTolerance,
                               input.priceTolerance)
    ensures BooksMatch(input) <==> AllTracked(s)
    ensures BooksAgree(input) <==> AllTracked(s)
  {
    TrackedIff(platform, s);
    OpensAreWellFormed(platform, s);
    AgreementIff(input);
    if Tracked(s) { TrackedBooksMatch(platform, s, input); }
    if BooksMatch(input) { MatchedIsTracked(platform, s); }
  }

  // ---------------------------------------------------------------- over whole runs

  /** What the reconciliation compares at the end of a run. */
  ghost function ComparedAtEnd(platform: Platform, d: Discipline, es: seq<Event>, masterPositions: seq<MasterPosition>,
                               volumeTolerance: Option<real>, priceTolerance: Option<real>): Input
    requires Legal(platform, d, es)
  {
    Compared(platform, Final(platform, d, es).backend.table, Final(platform, d, es).book, masterPositions,
             volumeTolerance, priceTolerance)
  }

  /** One poll at a time, one OPEN per Master ticket, and every execution reported at least once. */
  ghost predicate SettlesIn(platform: Platform, d: Discipline, es: seq<Event>) {
    d.serial && Legal(platform, d, es) && OneOpenPerTicket(Begun(es)) && AllReported(Final(platform, d, es))
  }

  lemma RunSettles(platform: Platform, d: Discipline, es: seq<Event>)
    requires SettlesIn(platform, d, es)
    ensures Settled(platform, Final(platform, d, es))
  {
    RunKeepsLedger(platform, d, es);
    RunIsSourced(platform, d, es);
    OneOpenRowEach(Final(platform, d, es).backend, Begun(es));
  }

  /** Every filled row was last written by its report, or is harmless. */
  ghost predicate NoVerdictMatters(platform: Platform, d: Discipline, es: seq<Event>)
    requires Legal(platform, d, es)
  {
    var s := Final(platform, d, es);
    forall id :: WasFilled(s, id) && id in s.backend.table.rows ==>
      IsReport(LastWrite(platform, d, es, id)) || Harmless(s, id)
  }

  lemma VerdictsDecide(platform: Platform, d: Discipline, es: seq<Event>)
    requires d.serial && Legal(platform, d, es)
    ensures NoVerdictMatters(platform, d, es) <==> AllTracked(Final(platform, d, es))
  {
    var s := Final(platform, d, es);
    forall id | WasFilled(s, id) && id in s.backend.table.rows
      ensures IsReport(LastWrite(platform, d, es, id)) <==> s.backend.table.rows[id].status == Executed
    {
      LastWriteDecides(platform, d, es, id);
    }
  }

  /**
   * End to end, late verdicts, replayed results and work in flight included: after any run with polls one at a time in
   * which every Master ticket has one OPEN, as soon as every execution has been reported, open copies and positions
   * match one to one by ticket and by comment with equal volumes, and the reconciliation reports no missing,
   * unexpected, duplicate, unclosed or mis-sized position, exactly if every filled row was last written by its report
   * or is harmless.
   */
  lemma {:induction false} SystemAgreesIff(platform: Platform, d: Discipline, es: seq<Event>,
                                           masterPositions: seq<MasterPosition>, volumeTolerance: Option<real>,
                                           priceTolerance: Option<real>)
    requires SettlesIn(platform, d, es)
    requires volumeTolerance.GetOr(DEFAULT_VOLUME_TOLERANCE) >= HALF_VOLUME_UNIT
    ensures var input := ComparedAtEnd(platform, d, es, masterPositions, volumeTolerance, priceTolerance);
            && (BooksMatch(input) <==> NoVerdictMatters(platform, d, es))
            && (BooksAgree(input) <==> NoVerdictMatters(platform, d, es))
  {
    RunSettles(platform, d, es);
    VerdictsDecide(platform, d, es);
    SettledAgreesIff(platform, Final(platform, d, es),
                     ComparedAtEnd(platform, d, es, masterPositions, volumeTolerance, priceTolerance));
  }

  /** Without late verdicts, and for an MT5 Slave in any case, the system always agrees with the Slave. */
  lemma {:induction false} SystemAgreesWithSlave(platform: Platform, d: Discipline, es: seq<Event>,
                                                 masterPositions: seq<MasterPosition>, volumeTolerance: Option<real>,
                                                 priceTolerance: Option<real>)
    requires SettlesIn(platform, d, es) && (platform == Mt5 || d.timely)
    requires volumeTolerance.GetOr(DEFAULT_VOLUME_TOLERANCE) >= HALF_VOLUME_UNIT
    ensures var input := ComparedAtEnd(platform, d, es, masterPositions, volumeTolerance, priceTolerance);
            BooksMatch(input) && BooksAgree(input)
  {
    RunKeepsRecorded(platform, d, es);
    VerdictsDecide(platform, d, es);
    SystemAgreesIff(platform, d, es, masterPositions, volumeTolerance, priceTolerance);
  }
}
