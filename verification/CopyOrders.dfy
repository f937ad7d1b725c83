/** The copy_orders table of one Slave and the questions asked of it. */
module CopyOrders {
  import opened Common
  import opened ReconciliationEngine
  import opened ReconciliationTheorems
  import V = VolumeCalculator

  datatype Action = Open | Close | Modify

  datatype Side = Buy | Sell

  datatype Status = Pending | Sent | Executed | Failed

  datatype TradeEvent = TradeEvent(
    eventId: string, action: Action, masterTicket: string, symbol: string, side: Option<Side>,
    volume: Option<real>, sl: Option<real>, tp: Option<real>)

  /** A row of copy_orders joined with its trade event. */
  datatype CopyOrder = CopyOrder(
    event: TradeEvent, status: Status, requestedVolume: Option<real>, slaveTicket: Option<string>,
    reason: Option<string>)

  /** The rows by id, and their ids in creation order. */
  datatype Table = Table(ids: seq<string>, rows: map<string, CopyOrder>)

  const VOLUME_SCALE := 100.0
  const PRICE_SCALE := 100000.0

  /** Decimal(18,2) */
  function StoredVolume(v: Option<real>): Option<real> {
    if v.None? then None else Some(V.RoundTo(v.value, VOLUME_SCALE))
  }

  /** Decimal(18,5) */
  function StoredPrice(p: Option<real>): Option<real> {
    if p.None? then None else Some(V.RoundTo(p.value, PRICE_SCALE))
  }

  /** A trade event as the trade_events table gives it back. */
  function Persisted(e: TradeEvent): TradeEvent {
    e.(volume := StoredVolume(e.volume), sl := StoredPrice(e.sl), tp := StoredPrice(e.tp))
  }

  /** Ids are unique and there is one row per trade event: @@unique([tradeEventId, slaveId]). */
  ghost predicate ValidTable(t: Table) {
    && Distinct(t.ids)
    && ToSet(t.ids) == t.rows.Keys
    && (forall id :: id in t.rows ==> IsTraceable(id))
    && (forall a, b :: a in t.rows && b in t.rows && t.rows[a].event.eventId == t.rows[b].event.eventId ==> a == b)
  }

  predicate HasEvent(t: Table, eventId: string) {
    exists id :: id in t.rows && t.rows[id].event.eventId == eventId
  }

  /** prisma.copyOrder.create */
  function Insert(t: Table, id: string, row: CopyOrder): Table {
    Table(t.ids + [id], t.rows[id := row])
  }

  /** prisma.copyOrder.update where id */
  function Update(t: Table, id: string, row: CopyOrder): Table {
    t.(rows := t.rows[id := row])
  }

  predicate Done(row: CopyOrder, action: Action) {
    row.status == Executed && row.event.action == action
  }

  // ---------------------------------------------------------------- what the system believes is open

  function ClosedTickets(t: Table): set<string> {
    set id | id in t.rows && Done(t.rows[id], Close) :: t.rows[id].event.masterTicket
  }

  /** An EXECUTED OPEN whose Master ticket has no EXECUTED CLOSE. */
  predicate IsOpenRow(t: Table, id: string) {
    id in t.rows && Done(t.rows[id], Open) && t.rows[id].event.masterTicket !in ClosedTickets(t)
  }

  predicate IsClosedRow(t: Table, id: string) {
    id in t.rows && Done(t.rows[id], Close)
  }

  function AsOpenCopy(t: Table, id: string): OpenCopy
    requires id in t.rows
  {
    var row := t.rows[id];
    OpenCopy(id, row.event.masterTicket, row.slaveTicket, row.requestedVolume)
  }

  ghost function OpenRule(t: Table): string -> seq<OpenCopy> {
    (id: string) => if IsOpenRow(t, id) then [AsOpenCopy(t, id)] else []
  }

  ghost function ClosedRule(t: Table): string -> seq<ClosedCopy> {
    (id: string) =>
      if IsClosedRow(t, id) then [ClosedCopy(t.rows[id].event.masterTicket, t.rows[id].slaveTicket)] else []
  }

  /** getCopyOrderPositions: the open list. */
  ghost function OpenCopies(t: Table): seq<OpenCopy> { Collect(t.ids, OpenRule(t)) }

  /** getCopyOrderPositions: the closed list. */
  ghost function ClosedCopies(t: Table): seq<ClosedCopy> { Collect(t.ids, ClosedRule(t)) }

  /** getOpenPositionsSummary().count */
  ghost function OpenCount(t: Table): nat { |OpenCopies(t)| }

  /** getOpenPositionsSummary().totalVolume */
  ghost function TotalVolume(t: Table): real { Sum(Map(OpenCopies(t), OpenVolume())) }

  // ---------------------------------------------------------------- searches by creation time

  predicate Matches(rows: map<string, CopyOrder>, id: string, p: CopyOrder -> bool) {
    id in rows && p(rows[id])
  }

  /** findFirst, orderBy createdAt desc */
  function Latest(ids: seq<string>, rows: map<string, CopyOrder>, p: CopyOrder -> bool): Option<string> {
    if ids == [] then None
    else if Matches(rows, ids[|ids| - 1], p) then Some(ids[|ids| - 1])
    else Latest(ids[..|ids| - 1], rows, p)
  }

  /** findFirst, orderBy createdAt asc */
  function Oldest(ids: seq<string>, rows: map<string, CopyOrder>, p: CopyOrder -> bool): Option<string> {
    if ids == [] then None
    else if Matches(rows, ids[0], p) then Some(ids[0])
    else Oldest(ids[1..], rows, p)
  }

  function OpenedFor(masterTicket: string): CopyOrder -> bool {
    (row: CopyOrder) => Done(row, Open) && row.event.masterTicket == masterTicket
  }

  function PricedFor(masterTicket: string): CopyOrder -> bool {
    (row: CopyOrder) => (Done(row, Open) || Done(row, Modify)) && row.event.masterTicket == masterTicket
  }

  function IsPending(): CopyOrder -> bool { (row: CopyOrder) => row.status == Pending }

  /** The ticket a CLOSE or MODIFY acts on; an empty ticket reads as none. */
  function FindExecutedOpenSlaveTicket(t: Table, masterTicket: string): Option<string> {
    var found := Latest(t.ids, t.rows, OpenedFor(masterTicket));
    if found.Some? && found.value in t.rows && HasTicket(t.rows[found.value].slaveTicket)
    then t.rows[found.value].slaveTicket
    else None
  }

  function GetExpectedSlTp(t: Table, masterTicket: string): Option<ExpectedSlTp> {
    var found := Latest(t.ids, t.rows, PricedFor(masterTicket));
    if found.Some? && found.value in t.rows
    then Some(ExpectedSlTp(t.rows[found.value].event.sl, t.rows[found.value].event.tp))
    else None
  }

  // ---------------------------------------------------------------- facts about the searches

  /** The match at place i has none after it. */
  ghost predicate LastMatch(ids: seq<string>, rows: map<string, CopyOrder>, p: CopyOrder -> bool, i: int) {
    && 0 <= i < |ids| && Matches(rows, ids[i], p)
    && forall j :: i < j < |ids| ==> !Matches(rows, ids[j], p)
  }

  /** The match at place i has none before it. */
  ghost predicate FirstMatch(ids: seq<string>, rows: map<string, CopyOrder>, p: CopyOrder -> bool, i: int) {
    && 0 <= i < |ids| && Matches(rows, ids[i], p)
    && forall j :: 0 <= j < i ==> !Matches(rows, ids[j], p)
  }

  lemma {:induction false} LatestFinds(ids: seq<string>, rows: map<string, CopyOrder>, p: CopyOrder -> bool)
    ensures var found := Latest(ids, rows, p);
            && (found.None? ==> forall id :: id in ids ==> !Matches(rows, id, p))
            && (found.Some? ==> found.value in ids && Matches(rows, found.value, p))
            && (found.Some? ==> exists i :: LastMatch(ids, rows, p, i) && ids[i] == found.value)
  {
    if ids != [] {
      var front, last := ids[..|ids| - 1], ids[|ids| - 1];
      assert ids == front + [last];
      LatestFinds(front, rows, p);
      var found := Latest(ids, rows, p);
      if Matches(rows, last, p) {
        assert LastMatch(ids, rows, p, |ids| - 1);
      } else if found.Some? {
        var i :| LastMatch(front, rows, p, i) && front[i] == found.value;
        forall j | i < j < |ids| ensures !Matches(rows, ids[j], p) {
          if j < |front| { assert front[j] == ids[j]; }
        }
        assert LastMatch(ids, rows, p, i);
      }
    }
  }

  lemma {:induction false} OldestFinds(ids: seq<string>, rows: map<string, CopyOrder>, p: CopyOrder -> bool)
    ensures var found := Oldest(ids, rows, p);
            && (found.None? ==> forall id :: id in ids ==> !Matches(rows, id, p))
            && (found.Some? ==> found.value in ids && Matches(rows, found.value, p))
            && (found.Some? ==> exists i :: FirstMatch(ids, rows, p, i) && ids[i] == found.value)
  {
    if ids != [] {
      var rest := ids[1..];
      assert ids == [ids[0]] + rest;
      OldestFinds(rest, rows, p);
      var found := Oldest(ids, rows, p);
      if Matches(rows, ids[0], p) {
        assert FirstMatch(ids, rows, p, 0);
      } else if found.Some? {
        var i :| FirstMatch(rest, rows, p, i) && rest[i] == found.value;
        forall j | 0 <= j < i + 1 ensures !Matches(rows, ids[j], p) {
          if j > 0 { assert rest[j - 1] == ids[j]; }
        }
        assert FirstMatch(ids, rows, p, i + 1);
      }
    }
  }

  /** A CLOSE or MODIFY acts on the ticket of the latest EXECUTED OPEN of its Master ticket. */
  lemma {:induction false} TicketIsOfLatest(t: Table, masterTicket: string, i: int)
    requires Distinct(t.ids) && LastMatch(t.ids, t.rows, OpenedFor(masterTicket), i)
    ensures var ticket := t.rows[t.ids[i]].slaveTicket;
            FindExecutedOpenSlaveTicket(t, masterTicket) == if ticket == Some("") then None else ticket
  {
    LatestFinds(t.ids, t.rows, OpenedFor(masterTicket));
    var found := Latest(t.ids, t.rows, OpenedFor(masterTicket));
    var j :| LastMatch(t.ids, t.rows, OpenedFor(masterTicket), j) && t.ids[j] == found.value;
    assert i == j;
  }

  /** The columns hold whole hundredths of a lot and five decimals of a price, the nearest there are. */
  lemma StoredIsNearest(x: real)
    ensures V.OnGrid(StoredVolume(Some(x)).value, 100.0) && V.OnGrid(StoredPrice(Some(x)).value, 100000.0)
    ensures StoredVolume(Some(x)).value == x <==> V.OnGrid(x, 100.0)
    ensures StoredPrice(Some(x)).value == x <==> V.OnGrid(x, 100000.0)
  {
    RoundedIsOnGrid(x, 100.0);
    RoundedIsOnGrid(x, 100000.0);
    V.OnGridRounds(x, 100.0);
    V.OnGridRounds(x, 100000.0);
  }

  /** And so does the trade_events table. */
  lemma PersistedFits(e: TradeEvent)
    ensures Persisted(e).volume.Some? <==> e.volume.Some?
    ensures Persisted(e).sl.Some? <==> e.sl.Some?
    ensures Persisted(e).tp.Some? <==> e.tp.Some?
    ensures e.volume.Some? ==> V.OnGrid(Persisted(e).volume.value, 100.0)
    ensures e.sl.Some? ==> V.OnGrid(Persisted(e).sl.value, 100000.0)
    ensures e.tp.Some? ==> V.OnGrid(Persisted(e).tp.value, 100000.0)
  {
    if e.volume.Some? { StoredIsNearest(e.volume.value); }
    if e.sl.Some? { StoredIsNearest(e.sl.value); }
    if e.tp.Some? { StoredIsNearest(e.tp.value); }
  }

  lemma RoundedIsOnGrid(x: real, scale: real)
    requires scale > 0.0
    ensures V.OnGrid(V.RoundTo(x, scale), scale)
  {
    var n := (V.Units(x, scale) + 0.5).Floor;
    V.DivideBack(n as real, scale);
    V.WholeIsOnGrid(V.RoundTo(x, scale), scale, n);
  }

  // ---------------------------------------------------------------- facts about inserting and updating

  lemma InsertKeepsValid(t: Table, id: string, row: CopyOrder)
    requires ValidTable(t) && id !in t.rows && IsTraceable(id) && !HasEvent(t, row.event.eventId)
    ensures ValidTable(Insert(t, id, row))
  {
    var t' := Insert(t, id, row);
    assert id !in ToSet(t.ids);
    assert ToSet(t'.ids) == ToSet(t.ids) + {id};
  }

  lemma UpdateKeepsValid(t: Table, id: string, row: CopyOrder)
    requires ValidTable(t) && id in t.rows && row.event == t.rows[id].event
    ensures ValidTable(Update(t, id, row))
  {
    assert Update(t, id, row).rows.Keys == t.rows.Keys;
  }

  /** The open list holds exactly the open rows. */
  lemma OpenCopiesAre(t: Table, c: OpenCopy)
    requires ValidTable(t)
    ensures c in OpenCopies(t) <==> IsOpenRow(t, c.copyId) && c == AsOpenCopy(t, c.copyId)
  {
    CollectMember(t.ids, OpenRule(t), c);
    if IsOpenRow(t, c.copyId) && c == AsOpenCopy(t, c.copyId) {
      assert c.copyId in ToSet(t.ids) && c in OpenRule(t)(c.copyId);
    }
  }

  lemma ClosedCopiesAre(t: Table, c: ClosedCopy)
    requires ValidTable(t)
    ensures c in ClosedCopies(t) <==>
              exists id :: IsClosedRow(t, id) && c == ClosedCopy(t.rows[id].event.masterTicket, t.rows[id].slaveTicket)
  {
    CollectMember(t.ids, ClosedRule(t), c);
    if id :| IsClosedRow(t, id) && c == ClosedCopy(t.rows[id].event.masterTicket, t.rows[id].slaveTicket) {
      assert id in ToSet(t.ids) && c in ClosedRule(t)(id);
    }
  }

  ghost function CopyIdOf(): OpenCopy -> string { (c: OpenCopy) => c.copyId }

  /** No row is listed twice. */
  lemma {:induction false} OpenCopiesOnce(t: Table, ids: seq<string>)
    requires Distinct(ids)
    ensures Distinct(Map(Collect(ids, OpenRule(t)), CopyIdOf()))
    ensures forall c :: c in Collect(ids, OpenRule(t)) ==> c.copyId in ids
  {
    if ids != [] {
      var front, last := ids[..|ids| - 1], ids[|ids| - 1];
      assert ids == front + [last];
      OpenCopiesOnce(t, front);
      var shorter, longer := Collect(front, OpenRule(t)), Collect(ids, OpenRule(t));
      forall i, j | 0 <= i < j < |longer| ensures longer[i].copyId != longer[j].copyId {
        assert longer[i] == shorter[i] && shorter[i] in shorter;
        if j < |shorter| {
          assert Map(shorter, CopyIdOf())[i] != Map(shorter, CopyIdOf())[j];
        }
      }
    }
  }
}
