/** The stops and targets that the system expects, against those that the Slave holds, over whole runs. */
module StopsAndTargets {
  import opened Common
  import opened ReconciliationEngine
  import opened ReconciliationTheorems
  import opened CopyOrders
  import opened CopyProtocol
  import opened SlaveTerminal
  import opened SlaveRun
  import opened AtMostOnce
  import opened Ledger
  import opened LedgerRuns
  import opened Agreement

  // ---------------------------------------------------------------- what a position's prices come from

  predicate SetsPrices(handed: seq<Instruction>, outcomes: seq<Outcome>, k: int, ticket: string) {
    FilledAs(handed, outcomes, k, Open, ticket) || FilledAs(handed, outcomes, k, Modify, ticket)
  }

  /** The k-th instruction set these prices, and no later MODIFY of the ticket was filled. */
  ghost predicate PricedBy(handed: seq<Instruction>, outcomes: seq<Outcome>, p: Position, k: int) {
    && SetsPrices(handed, outcomes, k, p.ticket)
    && p.sl == handed[k].sl.GetOr(0.0) && p.tp == handed[k].tp.GetOr(0.0)
    && forall j :: k < j ==> !FilledAs(handed, outcomes, j, Modify, p.ticket)
  }

  ghost predicate PricesSound(handed: seq<Instruction>, outcomes: seq<Outcome>, book: seq<Position>) {
    forall p :: p in book ==> exists k :: PricedBy(handed, outcomes, p, k)
  }

  lemma PricedLater(
      handed: seq<Instruction>, more: seq<Instruction>, outcomes: seq<Outcome>, later: seq<Outcome>, p: Position,
      k: int)
    requires PricedBy(handed, outcomes, p, k) && handed <= more && outcomes <= later && |later| <= |more|
    requires forall j :: |outcomes| <= j ==> !FilledAs(more, later, j, Modify, p.ticket)
    ensures PricedBy(more, later, p, k)
  {
    forall j | k < j ensures !FilledAs(more, later, j, Modify, p.ticket) {
      assert !FilledAs(handed, outcomes, j, Modify, p.ticket);
    }
  }

  lemma HandingKeepsPrices(
      handed: seq<Instruction>, more: seq<Instruction>, outcomes: seq<Outcome>, book: seq<Position>)
    requires PricesSound(handed, outcomes, book) && handed <= more && |outcomes| <= |handed|
    ensures PricesSound(more, outcomes, book)
  {
    forall p | p in book ensures exists k :: PricedBy(more, outcomes, p, k) {
      var k :| PricedBy(handed, outcomes, p, k);
      PricedLater(handed, more, outcomes, outcomes, p, k);
    }
  }

  /** The position as it was, unless the execution has just priced it. */
  lemma {:induction false} ExecutionPrices(s: State, o: Outcome, p: Position) returns (k: int)
    requires |s.outcomes| < |s.backend.handed| && PricesSound(s.backend.handed, s.outcomes, s.book)
    requires p in AfterExecution(s.book, s.backend.handed[|s.outcomes|], o)
    ensures PricedBy(s.backend.handed, s.outcomes + [o], p, k)
  {
    var n, handed := |s.outcomes|, s.backend.handed;
    var i := handed[n];
    var t := if o.Filled? then o.ticket else "";
    RemoveKeepsTheRest(s.book, t);
    RepriceIsPointwise(s.book, t, i);
    if o.Filled? && i.action == Open && p == OpenedPosition(i, t) {
      k := n;
    } else if o.Filled? && i.action == Modify && p.ticket == t {
      k := n;
    } else {
      assert p in s.book;
      k :| PricedBy(handed, s.outcomes, p, k);
      PricedLater(handed, handed, s.outcomes, s.outcomes + [o], p, k);
    }
  }

  lemma ExecutionKeepsPrices(s: State, o: Outcome)
    requires |s.outcomes| < |s.backend.handed| && PricesSound(s.backend.handed, s.outcomes, s.book)
    ensures PricesSound(s.backend.handed, s.outcomes + [o], AfterExecution(s.book, s.backend.handed[|s.outcomes|], o))
  {
    forall p | p in AfterExecution(s.book, s.backend.handed[|s.outcomes|], o)
      ensures exists k :: PricedBy(s.backend.handed, s.outcomes + [o], p, k)
    {
      var k := ExecutionPrices(s, o, p);
    }
  }

  lemma StepKeepsPrices(platform: Platform, s: State, e: Event)
    requires ValidTable(s.backend.table) && |s.outcomes| <= |s.backend.handed| && Permitted(platform, s, e)
    requires PricesSound(s.backend.handed, s.outcomes, s.book)
    ensures var s' := After(platform, s, e); PricesSound(s'.backend.handed, s'.outcomes, s'.book)
  {
    match e
    case Act(step) =>
      StepProgresses(platform, s, e);
      HandingKeepsPrices(s.backend.handed, Next(s.backend, step).handed, s.outcomes, s.book);
    case Execute(o) => ExecutionKeepsPrices(s, o);
    case Report(k) =>
  }

  lemma {:induction false} RunKeepsPrices(platform: Platform, d: Discipline, es: seq<Event>)
    requires d.serial && Legal(platform, d, es)
    ensures var s := Final(platform, d, es); PricesSound(s.backend.handed, s.outcomes, s.book)
  {
    if es != [] {
      RunKeepsPrices(platform, d, es[..|es| - 1]);
      RunKeepsLedger(platform, d, es[..|es| - 1]);
      StepKeepsPrices(platform, Final(platform, d, es[..|es| - 1]), es[|es| - 1]);
    }
  }

  /** The k-th instruction was an OPEN or MODIFY for this Master ticket, and was filled. */
  predicate Prices(s: State, k: int, masterTicket: string) {
    && 0 <= k < |s.outcomes| <= |s.backend.handed|
    && s.outcomes[k].Filled? && s.backend.handed[k].action != Close
    && s.backend.handed[k].copyId in s.backend.table.rows
    && s.backend.table.rows[s.backend.handed[k].copyId].event.masterTicket == masterTicket
  }

  /** No later one was handed out. */
  ghost predicate PricesLast(s: State, k: int, masterTicket: string) {
    Prices(s, k, masterTicket) && forall j :: k < j ==> !Prices(s, j, masterTicket)
  }

  /** What sets a position's prices is for its own Master ticket. */
  lemma PricerIsOwn(platform: Platform, s: State, k: int, id: string, ticket: string)
    requires Settled(platform, s) && SetsPrices(s.backend.handed, s.outcomes, k, ticket)
    requires WasFilled(s, id) && HasOpened(s.backend.table, id, ticket)
    ensures Prices(s, k, s.backend.table.rows[id].event.masterTicket)
  {
    var t, i := s.backend.table, s.backend.handed[k];
    var row := FilledRow(platform, s, k, i.action, ticket);
    if i.action == Modify {
      var opening := TargetRow(platform, s, k, Modify, ticket);
      TicketNamesOneRow(platform, s, opening, id, ticket);
    } else {
      TicketNamesOneRow(platform, s, row, id, ticket);
    }
  }

  /** And conversely: whatever is for its Master ticket has set this position's prices. */
  lemma OwnIsPricer(platform: Platform, s: State, k: int, id: string, ticket: string)
    requires Settled(platform, s) && WasFilled(s, id) && HasOpened(s.backend.table, id, ticket)
    requires Prices(s, k, s.backend.table.rows[id].event.masterTicket)
    ensures SetsPrices(s.backend.handed, s.outcomes, k, ticket)
  {
    var t, m, i := s.backend.table, s.backend.table.rows[id].event.masterTicket, s.backend.handed[k];
    var row := FilledRow(platform, s, k, i.action, s.outcomes[k].ticket);
    if i.action == Modify {
      var opening := TargetRow(platform, s, k, Modify, s.outcomes[k].ticket);
      assert IsOpenFor(t, opening, m) && IsOpenFor(t, id, m);
    } else {
      assert IsOpenFor(t, row, m) && IsOpenFor(t, id, m);
    }
  }

  /** The k-th instruction's stop and target are what the position holds. */
  predicate HoldsPrices(s: State, p: Position, k: int) {
    && 0 <= k < |s.backend.handed|
    && p.sl == s.backend.handed[k].sl.GetOr(0.0) && p.tp == s.backend.handed[k].tp.GetOr(0.0)
  }

  /** What priced a position last is not followed by anything else that set its prices. */
  lemma PricerIsLast(handed: seq<Instruction>, outcomes: seq<Outcome>, p: Position, j: int, k: int)
    requires TicketsSound(handed, outcomes)
    requires PricedBy(handed, outcomes, p, j) && SetsPrices(handed, outcomes, k, p.ticket)
    ensures k <= j
  {
    if j < k {
      assert !FilledAs(handed, outcomes, k, Modify, p.ticket);
      FilledBefore(handed, outcomes, j, k, Open, p.ticket);
      FilledBefore(handed, outcomes, j, k, Modify, p.ticket);
    }
  }

  lemma PricedByLast(platform: Platform, s: State, p: Position, id: string, j: int, k: int)
    requires Settled(platform, s) && PricedBy(s.backend.handed, s.outcomes, p, j)
    requires WasFilled(s, id) && HasOpened(s.backend.table, id, p.ticket)
    requires PricesLast(s, k, s.backend.table.rows[id].event.masterTicket)
    ensures j == k
  {
    PricerIsOwn(platform, s, j, id, p.ticket);
    OwnIsPricer(platform, s, k, id, p.ticket);
    PricerIsLast(s.backend.handed, s.outcomes, p, j, k);
  }

  /** A position holds the prices of the last filled OPEN or MODIFY of its Master ticket. */
  lemma LastPricesAreHeld(platform: Platform, s: State, p: Position, id: string, k: int)
    requires Settled(platform, s) && PricesSound(s.backend.handed, s.outcomes, s.book) && p in s.book
    requires WasFilled(s, id) && HasOpened(s.backend.table, id, p.ticket)
    requires PricesLast(s, k, s.backend.table.rows[id].event.masterTicket)
    ensures HoldsPrices(s, p, k)
  {
    var j :| PricedBy(s.backend.handed, s.outcomes, p, j);
    PricedByLast(platform, s, p, id, j, k);
  }

  /** Among the OPENs and MODIFYs filled up to the n-th instruction there is a last one. */
  lemma {:induction false} LastPricingExists(s: State, m: string, k: int, n: int)
    requires Prices(s, k, m) && k < n && forall j :: n <= j ==> !Prices(s, j, m)
    ensures exists last :: PricesLast(s, last, m)
    decreases n
  {
    if Prices(s, n - 1, m) {
      assert PricesLast(s, n - 1, m);
    } else {
      LastPricingExists(s, m, k, n - 1);
    }
  }

  /** Every position has such an instruction. */
  lemma PositionIsPriced(platform: Platform, s: State, p: Position, id: string)
    requires Settled(platform, s) && PricesSound(s.backend.handed, s.outcomes, s.book) && p in s.book
    requires TrulyOpen(s, id) && s.backend.table.rows[id].slaveTicket == Some(p.ticket)
    ensures exists k :: PricesLast(s, k, s.backend.table.rows[id].event.masterTicket)
  {
    var j :| PricedBy(s.backend.handed, s.outcomes, p, j);
    PricerIsOwn(platform, s, j, id, p.ticket);
    LastPricingExists(s, s.backend.table.rows[id].event.masterTicket, j, |s.outcomes|);
  }

  // ---------------------------------------------------------------- creation order

  predicate Before(ids: seq<string>, x: string, y: string) {
    exists i, j :: 0 <= i < j < |ids| && ids[i] == x && ids[j] == y
  }

  /** Rows were handed out in the order they were created. */
  ghost predicate HandedInOrder(b: Backend) {
    forall j, k :: 0 <= j < k < |b.handed| ==> Before(b.table.ids, b.handed[j].copyId, b.handed[k].copyId)
  }

  lemma NotBothBefore(ids: seq<string>, x: string, y: string)
    requires Distinct(ids) && Before(ids, x, y)
    ensures !Before(ids, y, x)
  {}

  lemma OneIsBefore(ids: seq<string>, x: string, y: string)
    requires x in ids && y in ids && x != y
    ensures Before(ids, x, y) || Before(ids, y, x)
  {
    var i :| 0 <= i < |ids| && ids[i] == x;
    var j :| 0 <= j < |ids| && ids[j] == y;
    assert i < j ==> Before(ids, x, y);
    assert j < i ==> Before(ids, y, x);
  }

  /** The latest match by creation time is not before any other match. */
  lemma LatestIsLast(ids: seq<string>, rows: map<string, CopyOrder>, p: CopyOrder -> bool, x: string)
    requires Distinct(ids) && Latest(ids, rows, p).Some? && Matches(rows, x, p)
    ensures !Before(ids, Latest(ids, rows, p).value, x)
  {
    LatestFinds(ids, rows, p);
    var found := Latest(ids, rows, p).value;
    var i :| LastMatch(ids, rows, p, i) && ids[i] == found;
    assert forall a :: 0 <= a < |ids| && ids[a] == found ==> a == i;
  }

  // ---------------------------------------------------------------- the row the expectation is read from

  /** The row getExpectedSlTp reads. */
  function ExpectedRow(t: Table, masterTicket: string): Option<string> {
    Latest(t.ids, t.rows, PricedFor(masterTicket))
  }

  /** Of two OPENs or MODIFYs filled, the j-th is EXECUTED and was handed out first, but the k-th was created first. */
  predicate Overtakes(s: State, j: int, k: int, masterTicket: string) {
    && j < k && Prices(s, j, masterTicket) && Prices(s, k, masterTicket)
    && s.backend.table.rows[s.backend.handed[j].copyId].status == Executed
    && Before(s.backend.table.ids, s.backend.handed[k].copyId, s.backend.handed[j].copyId)
  }

  /** Whatever counts towards the expectation was filled. */
  lemma ExpectedWasFilled(platform: Platform, s: State, r: string, m: string)
    requires LedgerInv(platform, s) && Matches(s.backend.table.rows, r, PricedFor(m))
    ensures exists k :: Prices(s, k, m) && s.backend.handed[k].copyId == r
  {
    var k, ticket := RowFilled(platform, s, r);
    assert Prices(s, k, m);
  }

  /** And what was filled counts while its row is EXECUTED. */
  lemma FilledCounts(platform: Platform, s: State, k: int, m: string)
    requires LedgerInv(platform, s) && Prices(s, k, m)
    ensures var id := s.backend.handed[k].copyId;
            Matches(s.backend.table.rows, id, PricedFor(m)) <==> s.backend.table.rows[id].status == Executed
  {
    assert HandedIsSound(s.backend.table, s.backend.handed[k]);
  }

  lemma ListedIds(t: Table, id: string)
    requires ValidTable(t) && id in t.rows
    ensures id in t.ids
  {
    assert id in ToSet(t.ids);
  }

  lemma NotOvertaken(platform: Platform, s: State, j: int, k: int, m: string)
    requires LedgerInv(platform, s) && Prices(s, k, m)
    requires ExpectedRow(s.backend.table, m) == Some(s.backend.handed[k].copyId)
    ensures !Overtakes(s, j, k, m)
  {
    var t := s.backend.table;
    if Overtakes(s, j, k, m) {
      FilledCounts(platform, s, j, m);
      LatestIsLast(t.ids, t.rows, PricedFor(m), s.backend.handed[j].copyId);
    }
  }

  /** What counts but is not read was created before what is read. */
  lemma UnreadIsOlder(t: Table, m: string, id: string, found: string)
    requires ValidTable(t) && ExpectedRow(t, m) == Some(found)
    requires Matches(t.rows, id, PricedFor(m)) && id != found
    ensures Before(t.ids, id, found) && Matches(t.rows, found, PricedFor(m))
  {
    LatestFinds(t.ids, t.rows, PricedFor(m));
    LatestIsLast(t.ids, t.rows, PricedFor(m), id);
    ListedIds(t, id);
    OneIsBefore(t.ids, id, found);
  }

  /** Read from another row, the expectation comes from one that overtook it. */
  lemma OtherRowOvertakes(platform: Platform, s: State, k: int, m: string, found: string)
    requires LedgerInv(platform, s) && PricesLast(s, k, m)
    requires ExpectedRow(s.backend.table, m) == Some(found) && found != s.backend.handed[k].copyId
    requires s.backend.table.rows[s.backend.handed[k].copyId].status == Executed
    ensures exists j :: Overtakes(s, j, k, m)
  {
    FilledCounts(platform, s, k, m);
    UnreadIsOlder(s.backend.table, m, s.backend.handed[k].copyId, found);
    ExpectedWasFilled(platform, s, found, m);
    var j :| Prices(s, j, m) && s.backend.handed[j].copyId == found;
    FilledCounts(platform, s, j, m);
    assert Overtakes(s, j, k, m);
  }

  /** Some row is read if any counts. */
  lemma SomeRowIsRead(platform: Platform, s: State, k: int, m: string)
    requires LedgerInv(platform, s) && Prices(s, k, m)
    ensures s.backend.table.rows[s.backend.handed[k].copyId].status == Executed ==>
            ExpectedRow(s.backend.table, m).Some?
    ensures ExpectedRow(s.backend.table, m) == Some(s.backend.handed[k].copyId) ==>
              s.backend.table.rows[s.backend.handed[k].copyId].status == Executed
  {
    var t := s.backend.table;
    LatestFinds(t.ids, t.rows, PricedFor(m));
    FilledCounts(platform, s, k, m);
    ListedIds(t, s.backend.handed[k].copyId);
  }

  /**
   * The expectation is read from the row that priced the position exactly if that row is EXECUTED and no EXECUTED OPEN
   * or MODIFY of the Master ticket created after it was handed out before it.
   */
  lemma ExpectedRowIff(platform: Platform, s: State, k: int, m: string)
    requires LedgerInv(platform, s) && PricesLast(s, k, m)
    ensures var id := s.backend.handed[k].copyId;
            ExpectedRow(s.backend.table, m) == Some(id)
            <==> s.backend.table.rows[id].status == Executed && forall j :: !Overtakes(s, j, k, m)
  {
    var id, found := s.backend.handed[k].copyId, ExpectedRow(s.backend.table, m);
    SomeRowIsRead(platform, s, k, m);
    if found == Some(id) {
      forall j ensures !Overtakes(s, j, k, m) { NotOvertaken(platform, s, j, k, m); }
    } else if s.backend.table.rows[id].status == Executed {
      OtherRowOvertakes(platform, s, k, m, found.value);
    }
  }

  // ---------------------------------------------------------------- MT4 polls hand rows out in creation order

  lemma BeforeInLonger(ids: seq<string>, more: seq<string>, x: string, y: string)
    requires Before(ids, x, y)
    ensures Before(ids + more, x, y)
  {
    var i, j :| 0 <= i < j < |ids| && ids[i] == x && ids[j] == y;
    assert (ids + more)[i] == x && (ids + more)[j] == y;
  }

  lemma BeforeNew(ids: seq<string>, x: string, id: string)
    requires x in ids
    ensures Before(ids + [id], x, id)
  {
    var i :| 0 <= i < |ids| && ids[i] == x;
    assert (ids + [id])[i] == x && (ids + [id])[|ids|] == id;
  }

  predicate BeforePending(t: Table, x: string) {
    x in t.ids && forall id :: id in t.rows && t.rows[id].status == Pending && id != x ==> Before(t.ids, x, id)
  }

  /** What has been handed out precedes what a poll holds, and both precede every row still waiting. */
  ghost predicate Queued(b: Backend) {
    && HandedInOrder(b)
    && (forall i :: i in b.handed ==> BeforePending(b.table, i.copyId))
    && (forall p :: p in b.polls ==> BeforePending(b.table, b.polls[p].copyId))
    && (forall i, p :: i in b.handed && p in b.polls ==> Before(b.table.ids, i.copyId, b.polls[p].copyId))
  }

  /** Rows stop waiting; none starts. */
  lemma FewerPending(b: Backend, b': Backend)
    requires Queued(b) && b'.handed == b.handed && b'.table.ids == b.table.ids && Grows(b.table, b'.table)
    requires b'.table.rows.Keys == b.table.rows.Keys
    requires forall p :: p in b'.polls ==> p in b.polls && b'.polls[p] == b.polls[p]
    ensures Queued(b')
  {
    forall x | BeforePending(b.table, x) ensures BeforePending(b'.table, x) {}
  }

  lemma CreateKeepsQueued(b: Backend, n: nat, id: string)
    requires Queued(b) && Enabled(b, Create(n, id)) && ValidTable(b.table)
    ensures Queued(AfterCreate(b, n, id))
  {
    var b' := AfterCreate(b, n, id);
    if b'.table != b.table {
      forall x, y | Before(b.table.ids, x, y) ensures Before(b'.table.ids, x, y) {
        BeforeInLonger(b.table.ids, [id], x, y);
      }
      forall x | BeforePending(b.table, x) ensures BeforePending(b'.table, x) { BeforeNew(b.table.ids, x, id); }
    }
  }

  lemma PollReadKeepsQueued(b: Backend, p: nat, symbols: map<string, string>)
    requires Queued(b) && Inv(Mt4, b) && b.polls == map[]
    ensures Queued(AfterPollRead(b, p, symbols))
  {
    var t := b.table;
    OldestFinds(t.ids, t.rows, IsPending());
    var found := Oldest(t.ids, t.rows, IsPending());
    if found.Some? {
      var i :| FirstMatch(t.ids, t.rows, IsPending(), i) && t.ids[i] == found.value;
      forall id | id in t.rows && t.rows[id].status == Pending && id != found.value
        ensures Before(t.ids, found.value, id)
      {
        assert id in ToSet(t.ids);
        var j :| 0 <= j < |t.ids| && t.ids[j] == id;
        assert Matches(t.rows, t.ids[j], IsPending());
      }
      forall h | h in b.handed ensures Before(t.ids, h.copyId, found.value) { assert HandedIsSound(t, h); }
    }
  }

  lemma HandOverKeepsQueued(b: Backend, i: Instruction)
    requires Queued(b) && b.polls == map[] && BeforePending(b.table, i.copyId)
    requires forall h :: h in b.handed ==> Before(b.table.ids, h.copyId, i.copyId)
    ensures Queued(b.(handed := b.handed + [i]))
  {}

  lemma PollWriteKeepsQueued(b: Backend, p: nat)
    requires Queued(b) && Inv(Mt4, b) && p in b.polls
    ensures Queued(AfterPollWrite(b, p))
  {
    var poll := b.polls[p];
    assert PollIsSound(b.table, poll);
    if poll.instruction.None? {
      MarkGrows(b.table, poll.copyId, Failed, Some("NO_MATCHING_OPEN_COPY"));
      FewerPending(b, AfterPollWrite(b, p));
    } else {
      MarkGrows(b.table, poll.copyId, Sent, None);
      var marked := b.(polls := b.polls - {p}, table := Mark(b.table, poll.copyId, Sent, None));
      assert marked.polls == map[];
      FewerPending(b, marked);
      assert BeforePending(b.table, poll.copyId);
      HandOverKeepsQueued(marked, poll.instruction.value);
    }
  }

  lemma DeliverKeepsQueued(b: Backend, n: nat, link: Link)
    requires Queued(b) && Inv(Mt4, b) && n in b.calls && b.calls[n].Delivering?
    ensures Queued(AfterDeliver(b, n, link))
  {
    assert CallIsSound(Mt4, b.table, b.calls[n]);
    MarkGrows(b.table, b.calls[n].instruction.copyId, Failed, Some("SLAVE_OFFLINE"));
    FewerPending(b, AfterDeliver(b, n, link));
  }

  lemma RecordKeepsQueued(b: Backend, r: Result)
    requires Queued(b) && Inv(Mt4, b)
    ensures Queued(AfterRecord(b, r))
  {
    RecordGrows(b, r);
    FewerPending(b, AfterRecord(b, r));
  }

  lemma StepKeepsQueued(s: State, e: Event)
    requires Queued(s.backend) && Inv(Mt4, s.backend) && Allowed(Mt4, SERIAL, s, e)
    ensures Queued(After(Mt4, s, e).backend)
  {
    match e
    case Act(Begin(_, _, _, _)) =>
    case Act(Create(n, id)) => CreateKeepsQueued(s.backend, n, id);
    case Act(Deliver(n, link)) => DeliverKeepsQueued(s.backend, n, link);
    case Act(PollRead(p, symbols)) => PollReadKeepsQueued(s.backend, p, symbols);
    case Act(PollWrite(p)) => PollWriteKeepsQueued(s.backend, p);
    case Execute(_) =>
    case Report(k) => RecordKeepsQueued(s.backend, ResultOf(s.backend.handed[k], s.outcomes[k]));
  }

  /** With polls one at a time an MT4 Slave is always handed its rows in creation order. */
  lemma {:induction false} PollsKeepOrder(d: Discipline, es: seq<Event>)
    requires d.serial && Legal(Mt4, d, es)
    ensures Queued(Final(Mt4, d, es).backend)
  {
    if es != [] {
      PollsKeepOrder(d, es[..|es| - 1]);
      RunKeeps(Mt4, d, es[..|es| - 1]);
      StepKeepsQueued(Final(Mt4, d, es[..|es| - 1]), es[|es| - 1]);
    }
  }

  lemma InOrderNoneOvertakes(s: State, j: int, k: int, m: string)
    requires ValidTable(s.backend.table) && HandedInOrder(s.backend)
    ensures !Overtakes(s, j, k, m)
  {
    if Overtakes(s, j, k, m) {
      NotBothBefore(s.backend.table.ids, s.backend.handed[j].copyId, s.backend.handed[k].copyId);
    }
  }

  // ---------------------------------------------------------------- MT4 instructions carry the row's own prices

  predicate ExactFor(t: Table, i: Instruction) {
    i.copyId in t.rows && i.sl == t.rows[i.copyId].event.sl && i.tp == t.rows[i.copyId].event.tp
  }

  ghost predicate ExactPrices(b: Backend) {
    && (forall i :: i in b.handed ==> ExactFor(b.table, i))
    && (forall p :: p in b.polls && b.polls[p].instruction.Some? ==> ExactFor(b.table, b.polls[p].instruction.value))
  }

  lemma StepKeepsExactPrices(s: State, e: Event)
    requires ExactPrices(s.backend) && Inv(Mt4, s.backend) && Allowed(Mt4, SERIAL, s, e)
    ensures ExactPrices(After(Mt4, s, e).backend)
  {
    var b' := After(Mt4, s, e).backend;
    forall i | ExactFor(s.backend.table, i) ensures ExactFor(b'.table, i) {}
    if e.Act? && e.step.Deliver? { assert CallIsSound(Mt4, s.backend.table, s.backend.calls[e.step.call]); }
  }

  lemma {:induction false} RunKeepsExactPrices(d: Discipline, es: seq<Event>)
    requires d.serial && Legal(Mt4, d, es)
    ensures ExactPrices(Final(Mt4, d, es).backend)
  {
    if es != [] {
      RunKeepsExactPrices(d, es[..|es| - 1]);
      RunKeeps(Mt4, d, es[..|es| - 1]);
      StepKeepsExactPrices(Final(Mt4, d, es[..|es| - 1]), es[|es| - 1]);
    }
  }

  // ---------------------------------------------------------------- what a reconciliation makes of them

  /** A settled state whose positions hold what was handed out last, for MT4 the prices of the rows themselves. */
  ghost predicate Priced(platform: Platform, s: State) {
    && Settled(platform, s) && PricesSound(s.backend.handed, s.outcomes, s.book)
    && (platform == Mt4 ==> ExactPrices(s.backend) && HandedInOrder(s.backend))
  }

  lemma RunIsPriced(platform: Platform, d: Discipline, es: seq<Event>)
    requires SettlesIn(platform, d, es)
    ensures Priced(platform, Final(platform, d, es))
  {
    RunSettles(platform, d, es);
    RunKeepsPrices(platform, d, es);
    if platform == Mt4 {
      PollsKeepOrder(d, es);
      RunKeepsExactPrices(d, es);
    }
  }

  /** The comparison finds nothing wrong with an expectation and the prices an instruction set. */
  predicate Fits(platform: Platform, e: ExpectedSlTp, i: Instruction, tolerance: real) {
    && !PriceOff(e.sl, Shown(platform, i.sl.GetOr(0.0)), tolerance)
    && !PriceOff(e.tp, Shown(platform, i.tp.GetOr(0.0)), tolerance)
  }

  /** What is expected for this Master ticket fits what was handed out last for it. */
  ghost predicate PricesFit(platform: Platform, s: State, masterTicket: string, tolerance: real) {
    var e := GetExpectedSlTp(s.backend.table, masterTicket);
    e.Some? && forall k :: PricesLast(s, k, masterTicket) ==> Fits(platform, e.value, s.backend.handed[k], tolerance)
  }

  ghost predicate AllPricesFit(platform: Platform, s: State, tolerance: real) {
    forall id :: IsOpenRow(s.backend.table, id) ==>
      PricesFit(platform, s, s.backend.table.rows[id].event.masterTicket, tolerance)
  }

  /** The position that the comparison looks up for an open copy. */
  lemma {:induction false} CopyLooksUp(platform: Platform, s: State, c: OpenCopy) returns (p: Position)
    requires Settled(platform, s) && Tracked(s) && c in OpenCopies(s.backend.table)
    ensures p in s.book && c.slaveTicket == Some(p.ticket) && HasTicket(c.slaveTicket)
    ensures LastWithTicket(Snapshot(platform, s.book), p.ticket) == Some(Reported(platform, p))
    ensures IsOpenRow(s.backend.table, c.copyId) && c == AsOpenCopy(s.backend.table, c.copyId)
  {
    OpenCopiesAre(s.backend.table, c);
    p := OpenCopyIsHeld(platform, s, c.copyId);
    SnapshotMember(platform, s.book, Reported(platform, p));
    SnapshotTickets(platform, s.book);
    HeldOnce(Snapshot(platform, s.book), Reported(platform, p));
    ExecutedOpens(platform, s, c.copyId);
  }

  /** An open copy has an expectation, its own row's at least. */
  lemma OpenIsExpected(t: Table, id: string)
    requires ValidTable(t) && IsOpenRow(t, id)
    ensures GetExpectedSlTp(t, t.rows[id].event.masterTicket).Some?
  {
    ListedIds(t, id);
    LatestFinds(t.ids, t.rows, PricedFor(t.rows[id].event.masterTicket));
    assert Matches(t.rows, id, PricedFor(t.rows[id].event.masterTicket));
  }

  lemma CopyFits(platform: Platform, s: State, c: OpenCopy, p: Position, tolerance: real)
    requires Priced(platform, s) && Tracked(s) && p in s.book && c.slaveTicket == Some(p.ticket)
    requires IsOpenRow(s.backend.table, c.copyId) && c == AsOpenCopy(s.backend.table, c.copyId)
    ensures var e := GetExpectedSlTp(s.backend.table, c.masterTicket);
            && e.Some?
            && (PricesFit(platform, s, c.masterTicket, tolerance) <==>
                  && !PriceOff(e.value.sl, Shown(platform, p.sl), tolerance)
                  && !PriceOff(e.value.tp, Shown(platform, p.tp), tolerance))
  {
    OpenIsExpected(s.backend.table, c.copyId);
    PositionIsPriced(platform, s, p, c.copyId);
    forall k | PricesLast(s, k, c.masterTicket) ensures HoldsPrices(s, p, k) {
      LastPricesAreHeld(platform, s, p, c.copyId, k);
    }
  }

  lemma ExpectationIsLookedUp(t: Table, c: OpenCopy)
    requires c in OpenCopies(t) && GetExpectedSlTp(t, c.masterTicket).Some?
    ensures c.masterTicket in Expectations(t)
    ensures Expectations(t)[c.masterTicket] == GetExpectedSlTp(t, c.masterTicket).value
  {}

  lemma PriceRuleIff(input: Input, c: OpenCopy, q: SlavePosition, e: ExpectedSlTp)
    requires HasTicket(c.slaveTicket) && LastWithTicket(input.slavePositions, c.slaveTicket.value) == Some(q)
    requires c.masterTicket in input.expected && input.expected[c.masterTicket] == e
    ensures var tolerance := input.priceTolerance.GetOr(DEFAULT_PRICE_TOLERANCE);
            (exists f :: f in OpenCopyRule(input)(c) && f.SlTpMismatch?)
            <==> PriceOff(e.sl, q.sl, tolerance) || PriceOff(e.tp, q.tp, tolerance)
  {
    var ticket := c.slaveTicket.value;
    var priced := SlTpFindings(input, c, ticket, q);
    assert OpenCopyRule(input)(c) == VolumeFindings(input, c, ticket, q) + priced;
    assert priced != [] ==> priced[0] in OpenCopyRule(input)(c) && priced[0].SlTpMismatch?;
  }

  /** SLTP_MISMATCH is reported of an open copy exactly if its expectation does not fit what was handed out last. */
  lemma PriceFindingIff(platform: Platform, s: State, input: Input, c: OpenCopy)
    requires Priced(platform, s) && Tracked(s) && c in input.openCopies
    requires input == Compared(platform, s.backend.table, s.book, input.masterPositions, input.volumeTolerance,
                               input.priceTolerance)
    ensures (exists f :: f in OpenCopyRule(input)(c) && f.SlTpMismatch?)
            <==> !PricesFit(platform, s, c.masterTicket, input.priceTolerance.GetOr(DEFAULT_PRICE_TOLERANCE))
  {
    var p := CopyLooksUp(platform, s, c);
    CopyFits(platform, s, c, p, input.priceTolerance.GetOr(DEFAULT_PRICE_TOLERANCE));
    ExpectationIsLookedUp(s.backend.table, c);
    PriceRuleIff(input, c, Reported(platform, p), GetExpectedSlTp(s.backend.table, c.masterTicket).value);
  }

  /** Where the books agree, what is not MISSING_COPY is a price finding of an open copy. */
  lemma PriceFindingsAre(input: Input)
    requires BooksAgree(input)
    ensures (exists f :: f in Findings(input) && !f.MissingCopy?)
            <==> exists c :: c in input.openCopies && exists f :: f in OpenCopyRule(input)(c) && f.SlTpMismatch?
  {
    if f :| f in Findings(input) && !f.MissingCopy? {
      FindingOf(input, f);
      var c :| c in input.openCopies && f in OpenCopyRule(input)(c);
    }
    if c :| c in input.openCopies && exists f :: f in OpenCopyRule(input)(c) && f.SlTpMismatch? {
      var f :| f in OpenCopyRule(input)(c) && f.SlTpMismatch?;
      FindingOf(input, f);
    }
  }

  /** The comparison reports nothing but MISSING_COPY. */
  ghost predicate OnlyMissingCopies(input: Input) {
    forall f :: f in Findings(input) ==> f.MissingCopy?
  }

  lemma PriceFindings(platform: Platform, s: State, input: Input)
    requires Priced(platform, s) && Tracked(s) && BooksAgree(input)
    requires input == Compared(platform, s.backend.table, s.book, input.masterPositions, input.volumeTolerance,
                               input.priceTolerance)
    ensures OnlyMissingCopies(input)
            <==> AllPricesFit(platform, s, input.priceTolerance.GetOr(DEFAULT_PRICE_TOLERANCE))
  {
    var t, tolerance := s.backend.table, input.priceTolerance.GetOr(DEFAULT_PRICE_TOLERANCE);
    forall c | c in input.openCopies
      ensures (exists f :: f in OpenCopyRule(input)(c) && f.SlTpMismatch?)
              <==> !PricesFit(platform, s, c.masterTicket, tolerance)
      ensures IsOpenRow(t, c.copyId) && c == AsOpenCopy(t, c.copyId)
    {
      PriceFindingIff(platform, s, input, c);
      OpenCopiesAre(t, c);
    }
    forall id | IsOpenRow(t, id) ensures AsOpenCopy(t, id) in input.openCopies { OpenCopiesAre(t, AsOpenCopy(t, id)); }
    PriceFindingsAre(input);
  }

  /**
   * The whole comparison of a settled state: nothing but MISSING_COPY is reported exactly if every filled row is
   * EXECUTED or harmless and the prices expected of every open copy fit those handed out last.
   */
  lemma SettledIsQuietIff(platform: Platform, s: State, input: Input)
    requires Priced(platform, s) && input.volumeTolerance.GetOr(DEFAULT_VOLUME_TOLERANCE) >= HALF_VOLUME_UNIT
    requires input == Compared(platform, s.backend.table, s.book, input.masterPositions, input.volumeTolerance,
                               input.priceTolerance)
    ensures OnlyMissingCopies(input)
            <==> AllTracked(s) && AllPricesFit(platform, s, input.priceTolerance.GetOr(DEFAULT_PRICE_TOLERANCE))
  {
    SettledAgreesIff(platform, s, input);
    TrackedIff(platform, s);
    if AllTracked(s) { PriceFindings(platform, s, input); }
  }

  /** The same over whole runs: late verdicts, replays, crossed sends and work in flight included. */
  lemma {:induction false} ComparisonIsQuietIff(platform: Platform, d: Discipline, es: seq<Event>,
                                                masterPositions: seq<MasterPosition>, volumeTolerance: Option<real>,
                                                priceTolerance: Option<real>)
    requires SettlesIn(platform, d, es)
    requires volumeTolerance.GetOr(DEFAULT_VOLUME_TOLERANCE) >= HALF_VOLUME_UNIT
    ensures OnlyMissingCopies(ComparedAtEnd(platform, d, es, masterPositions, volumeTolerance, priceTolerance))
            <==> && NoVerdictMatters(platform, d, es)
                 && AllPricesFit(platform, Final(platform, d, es), priceTolerance.GetOr(DEFAULT_PRICE_TOLERANCE))
  {
    RunIsPriced(platform, d, es);
    VerdictsDecide(platform, d, es);
    SettledIsQuietIff(platform, Final(platform, d, es),
                      ComparedAtEnd(platform, d, es, masterPositions, volumeTolerance, priceTolerance));
  }

  // ---------------------------------------------------------------- when the right row is read

  /** Held is what is expected, up to the rounding of the price columns; nothing expected means zero is held. */
  predicate PriceHeld(expected: Option<real>, held: real) {
    if expected.None? then held == 0.0 else Abs(held - expected.value) <= HALF_PRICE_UNIT
  }

  ghost predicate ExpectationHeld(t: Table, masterTicket: string, p: Position) {
    var e := GetExpectedSlTp(t, masterTicket);
    e.Some? && PriceHeld(e.value.sl, p.sl) && PriceHeld(e.value.tp, p.tp)
  }

  lemma RightRowIsHeld(platform: Platform, s: State, p: Position, k: int, m: string)
    requires LedgerInv(platform, s) && Prices(s, k, m) && HoldsPrices(s, p, k)
    requires ExpectedRow(s.backend.table, m) == Some(s.backend.handed[k].copyId)
    ensures ExpectationHeld(s.backend.table, m, p)
  {
    assert HandedIsSound(s.backend.table, s.backend.handed[k]);
  }

  /**
   * Every position holds the stop and target of the last OPEN or MODIFY that was handed out and filled for its Master
   * ticket, and these are the expected ones if the expectation is read from that very row: exactly if the row is
   * EXECUTED and none created after it was handed out before it. The latter never happens to an MT4 Slave.
   */
  lemma {:induction false} ExpectedPricesAreHeld(platform: Platform, d: Discipline, es: seq<Event>, p: Position,
                                                 id: string, k: int)
    requires SettlesIn(platform, d, es) && p in Final(platform, d, es).book
    requires TrulyOpen(Final(platform, d, es), id)
    requires Final(platform, d, es).backend.table.rows[id].slaveTicket == Some(p.ticket)
    requires PricesLast(Final(platform, d, es), k, Final(platform, d, es).backend.table.rows[id].event.masterTicket)
    ensures var s := Final(platform, d, es);
            var t, m := s.backend.table, s.backend.table.rows[id].event.masterTicket;
            && HoldsPrices(s, p, k)
            && (ExpectedRow(t, m) == Some(s.backend.handed[k].copyId) <==>
                  && t.rows[s.backend.handed[k].copyId].status == Executed
                  && forall j :: !Overtakes(s, j, k, m))
            && (platform == Mt4 ==> forall j :: !Overtakes(s, j, k, m))
            && (ExpectedRow(t, m) == Some(s.backend.handed[k].copyId) ==> ExpectationHeld(t, m, p))
  {
    var s := Final(platform, d, es);
    var m := s.backend.table.rows[id].event.masterTicket;
    RunIsPriced(platform, d, es);
    LastPricesAreHeld(platform, s, p, id, k);
    ExpectedRowIff(platform, s, k, m);
    if platform == Mt4 {
      forall j ensures !Overtakes(s, j, k, m) { InOrderNoneOvertakes(s, j, k, m); }
    }
    if ExpectedRow(s.backend.table, m) == Some(s.backend.handed[k].copyId) { RightRowIsHeld(platform, s, p, k, m); }
  }

  predicate NotPositive(price: Option<real>) { price.Some? && price.value <= 0.0 }

  predicate ZeroExpected(t: Table, masterTicket: string) {
    var e := GetExpectedSlTp(t, masterTicket);
    e.Some? && (NotPositive(e.value.sl) || NotPositive(e.value.tp))
  }

  /** Some open copy is expected to have a stop or target of zero. */
  ghost predicate ExpectsZero(t: Table) {
    exists id :: IsOpenRow(t, id) && ZeroExpected(t, t.rows[id].event.masterTicket)
  }

  /** A price is reported as off exactly when an MT4 heartbeat leaves it out because it is not positive. */
  lemma PriceOffIff(platform: Platform, expected: Option<real>, sent: Option<real>, tolerance: real)
    requires Near(sent, expected, HALF_PRICE_UNIT) && tolerance >= HALF_PRICE_UNIT
    requires platform == Mt4 ==> sent == expected
    ensures PriceOff(expected, Shown(platform, sent.GetOr(0.0)), tolerance)
            <==> platform == Mt4 && NotPositive(expected)
  {}

  /** One instruction decides: the last one. */
  lemma LastDecidesFit(platform: Platform, s: State, k: int, m: string, tolerance: real)
    requires PricesLast(s, k, m) && GetExpectedSlTp(s.backend.table, m).Some?
    ensures PricesFit(platform, s, m, tolerance)
            <==> Fits(platform, GetExpectedSlTp(s.backend.table, m).value, s.backend.handed[k], tolerance)
  {
    assert forall j :: PricesLast(s, j, m) ==> j == k;
  }

  /** Read from the right row, the expectation fits unless an MT4 Slave is expected to have a zero price. */
  lemma RightRowFitsIff(platform: Platform, s: State, k: int, m: string, tolerance: real)
    requires Priced(platform, s) && PricesLast(s, k, m) && tolerance >= HALF_PRICE_UNIT
    requires ExpectedRow(s.backend.table, m) == Some(s.backend.handed[k].copyId)
    ensures PricesFit(platform, s, m, tolerance) <==> !(platform == Mt4 && ZeroExpected(s.backend.table, m))
  {
    var i := s.backend.handed[k];
    var row := s.backend.table.rows[i.copyId];
    assert HandedIsSound(s.backend.table, i);
    assert platform == Mt4 ==> ExactFor(s.backend.table, i);
    PriceOffIff(platform, row.event.sl, i.sl, tolerance);
    PriceOffIff(platform, row.event.tp, i.tp, tolerance);
    LastDecidesFit(platform, s, k, m, tolerance);
  }

  /** The last OPEN or MODIFY handed out for a Master ticket is not one that another has overtaken. */
  ghost predicate NoneOvertaken(s: State) {
    forall j, k, m :: PricesLast(s, k, m) ==> !Overtakes(s, j, k, m)
  }

  /** Where every filled row is EXECUTED and none overtakes, the expectation is always read from the right row. */
  lemma OpenRowFitsIff(platform: Platform, s: State, id: string, tolerance: real)
    requires Priced(platform, s) && Recorded(s) && IsOpenRow(s.backend.table, id) && tolerance >= HALF_PRICE_UNIT
    requires platform == Mt5 ==> NoneOvertaken(s)
    ensures var m := s.backend.table.rows[id].event.masterTicket;
            PricesFit(platform, s, m, tolerance) <==> !(platform == Mt4 && ZeroExpected(s.backend.table, m))
  {
    var m := s.backend.table.rows[id].event.masterTicket;
    HarmlessIsTracked(platform, s, id);
    var p := OpenCopyIsHeld(platform, s, id);
    PositionIsPriced(platform, s, p, id);
    var k :| PricesLast(s, k, m);
    var row := FilledRow(platform, s, k, s.backend.handed[k].action, s.outcomes[k].ticket);
    if platform == Mt4 {
      forall j ensures !Overtakes(s, j, k, m) { InOrderNoneOvertakes(s, j, k, m); }
    }
    ExpectedRowIff(platform, s, k, m);
    RightRowFitsIff(platform, s, k, m, tolerance);
  }

  lemma RecordedFitsIff(platform: Platform, s: State, tolerance: real)
    requires Priced(platform, s) && Recorded(s) && tolerance >= HALF_PRICE_UNIT
    requires platform == Mt5 ==> NoneOvertaken(s)
    ensures AllPricesFit(platform, s, tolerance) <==> !(platform == Mt4 && ExpectsZero(s.backend.table))
  {
    var t := s.backend.table;
    forall id | IsOpenRow(t, id)
      ensures var m := t.rows[id].event.masterTicket;
              PricesFit(platform, s, m, tolerance) <==> !(platform == Mt4 && ZeroExpected(t, m))
    {
      OpenRowFitsIff(platform, s, id, tolerance);
    }
  }

  /**
   * Without late verdicts and with no OPEN or MODIFY overtaken by an older one of its Master ticket, a reconciliation
   * reports nothing but MISSING_COPY, except that an MT4 Slave is reported for every copy whose expected stop or target
   * is zero.
   */
  lemma {:induction false} OnlyMissingCopiesIff(platform: Platform, d: Discipline, es: seq<Event>,
                                                masterPositions: seq<MasterPosition>, volumeTolerance: Option<real>,
                                                priceTolerance: Option<real>)
    requires SettlesIn(platform, d, es) && (platform == Mt5 || d.timely)
    requires platform == Mt5 ==> NoneOvertaken(Final(platform, d, es))
    requires volumeTolerance.GetOr(DEFAULT_VOLUME_TOLERANCE) >= HALF_VOLUME_UNIT
    requires priceTolerance.GetOr(DEFAULT_PRICE_TOLERANCE) >= HALF_PRICE_UNIT
    ensures OnlyMissingCopies(ComparedAtEnd(platform, d, es, masterPositions, volumeTolerance, priceTolerance))
            <==> !(platform == Mt4 && ExpectsZero(Final(platform, d, es).backend.table))
  {
    var s, tolerance := Final(platform, d, es), priceTolerance.GetOr(DEFAULT_PRICE_TOLERANCE);
    RunIsPriced(platform, d, es);
    RunKeepsRecorded(platform, d, es);
    RecordedFitsIff(platform, s, tolerance);
    SettledIsQuietIff(platform, s, ComparedAtEnd(platform, d, es, masterPositions, volumeTolerance, priceTolerance));
  }
}
