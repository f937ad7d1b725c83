/**
 * The copy protocol as one Slave sees it: what the backend does with its copy_orders rows, step by step
 * (backend/src/modules/copy-engine/copyEngine.ts, backend/src/modules/connectors/connectorPolling.routes.ts).
 * A step is the code between two awaits: the reads a call makes before its next write are taken together, and
 * every database write is a step of its own.
 */
module CopyProtocol {
  import opened Common
  import opened ReconciliationEngine
  import opened RiskChecks
  import opened CopyOrders
  import V = VolumeCalculator

  datatype Platform = Mt4 | Mt5

  datatype Slave = Slave(
    platform: Platform,
    emergencyStop: bool, allowedSymbols: seq<string>, blockedSymbols: seq<string>,
    maxPositions: Option<int>, maxExposure: Option<real>,
    copyMode: V.CopyMode, fixedLot: Option<real>, multiplier: real, balance: Option<real>, equity: Option<real>,
    minLot: real, maxLot: real, lotStep: real,
    symbols: map<string, string>)

  datatype MasterAccount = MasterAccount(balance: Option<real>, equity: Option<real>)

  datatype Instruction = Instruction(
    copyId: string, action: Action, symbol: string, side: Option<Side>,
    volume: Option<real>, sl: Option<real>, tp: Option<real>, slaveTicket: Option<string>)

  datatype Result = Result(copyId: string, executed: bool, slaveTicket: Option<string>, reason: Option<string>)

  /** What the checks of copyToSlave decide before any row exists. */
  datatype Decision =
    | Admit(volume: Option<real>, slaveTicket: Option<string>)
    | Refuse(reason: string, volume: Option<real>)

  /** A copyToSlave call waiting at an await. */
  datatype Call =
    | Creating(event: TradeEvent, decision: Decision, symbol: string, platform: Platform)
    | Delivering(instruction: Instruction, platform: Platform)

  /** A pending-instruction request that has read its row and not yet written it. */
  datatype Poll = Poll(copyId: string, instruction: Option<Instruction>)

  /** What the connection to the Slave turns out to be when an instruction is to be delivered. */
  datatype Link = Up | Broken | Offline

  datatype Backend = Backend(
    table: Table, calls: map<nat, Call>, polls: map<nat, Poll>, handed: seq<Instruction>)

  const START := Backend(Table([], map[]), map[], map[], [])

  function ResolveSymbol(symbols: map<string, string>, symbol: string): string {
    if symbol in symbols then symbols[symbol] else symbol
  }

  function SizingInput(slave: Slave, account: MasterAccount, volume: Option<real>): V.Input {
    V.Input(slave.copyMode, volume.GetOr(0.0), slave.fixedLot, slave.multiplier, account.balance, account.equity,
            slave.balance, slave.equity, slave.minLot, slave.maxLot, slave.lotStep)
  }

  ghost function DecideOpen(slave: Slave, account: MasterAccount, t: Table, e: TradeEvent): Decision {
    var entry := CheckEntryAllowed(slave.emergencyStop, slave.allowedSymbols, slave.blockedSymbols, e.symbol,
                                   slave.maxPositions, OpenCount(t));
    if entry.Denied? then Refuse(entry.reason, None)
    else
      var sizing := V.CalculateVolume(SizingInput(slave, account, e.volume));
      if sizing.Rejected? then Refuse(sizing.reason, e.volume)
      else
        var exposure := CheckExposureAllowed(slave.maxExposure, TotalVolume(t), sizing.volume);
        if exposure.Denied? then Refuse(exposure.reason, Some(sizing.volume))
        else Admit(Some(sizing.volume), None)
  }

  ghost function Decide(slave: Slave, account: MasterAccount, t: Table, e: TradeEvent): Decision {
    if e.action == Open then DecideOpen(slave, account, t, e)
    else
      var ticket := FindExecutedOpenSlaveTicket(t, e.masterTicket);
      if ticket.None? then Refuse("NO_MATCHING_OPEN_COPY", None) else Admit(e.volume, ticket)
  }

  /** The instruction the push path sends, from the event in memory. */
  function PushInstruction(copyId: string, e: TradeEvent, d: Decision, symbol: string): Instruction
    requires d.Admit?
  {
    Instruction(copyId, e.action, symbol, e.side, d.volume, e.sl, e.tp, d.slaveTicket)
  }

  /** The instruction a poll builds from the row and its trade event; None for a CLOSE or MODIFY without a ticket. */
  function PollInstruction(t: Table, symbols: map<string, string>, id: string): Option<Instruction>
    requires id in t.rows
  {
    var row := t.rows[id];
    var ticket := if row.event.action == Open then None else FindExecutedOpenSlaveTicket(t, row.event.masterTicket);
    if row.event.action != Open && ticket.None? then None
    else
      Some(Instruction(id, row.event.action, ResolveSymbol(symbols, row.event.symbol), row.event.side,
                       row.requestedVolume, row.event.sl, row.event.tp, ticket))
  }

  datatype Step =
    | Begin(call: nat, slave: Slave, account: MasterAccount, event: TradeEvent)
    | Create(call: nat, copyId: string)
    | Deliver(call: nat, link: Link)
    | PollRead(poll: nat, symbols: map<string, string>)
    | PollWrite(poll: nat)
    | Record(result: Result)

  /** The row copyToSlave creates for a decision. */
  function NewRow(e: TradeEvent, d: Decision): CopyOrder {
    match d
    case Admit(volume, _) => CopyOrder(Persisted(e), Pending, StoredVolume(volume), None, None)
    case Refuse(reason, volume) => CopyOrder(Persisted(e), Failed, StoredVolume(volume), None, Some(reason))
  }

  function Mark(t: Table, id: string, status: Status, reason: Option<string>): Table {
    if id in t.rows then
      Update(t, id, t.rows[id].(status := status, reason := if reason.Some? then reason else t.rows[id].reason))
    else t
  }

  /** The checks are made on the rows as they are now; the row is created later. */
  ghost function AfterBegin(b: Backend, call: nat, slave: Slave, account: MasterAccount, e: TradeEvent): Backend {
    var decision := Decide(slave, account, b.table, e);
    b.(calls := b.calls[call := Creating(e, decision, ResolveSymbol(slave.symbols, e.symbol), slave.platform)])
  }

  /** A second row for the same trade event violates the unique key: the call throws and ends. */
  function AfterCreate(b: Backend, call: nat, copyId: string): Backend
    requires call in b.calls && b.calls[call].Creating?
  {
    var c := b.calls[call];
    if HasEvent(b.table, c.event.eventId) then b.(calls := b.calls - {call})
    else
      b.(table := Insert(b.table, copyId, NewRow(c.event, c.decision)),
         calls := if c.decision.Refuse? then b.calls - {call}
                  else b.calls[call := Delivering(PushInstruction(copyId, c.event, c.decision, c.symbol), c.platform)])
  }

  /** An MT5 instruction is pushed and marked; an MT4 row stays as it is for the poll, unless the Slave is offline. */
  function AfterDeliver(b: Backend, call: nat, link: Link): Backend
    requires call in b.calls && b.calls[call].Delivering?
  {
    var c := b.calls[call];
    var id := c.instruction.copyId;
    var ended := b.(calls := b.calls - {call});
    if link == Offline then ended.(table := Mark(b.table, id, Failed, Some("SLAVE_OFFLINE")))
    else if c.platform == Mt4 then ended
    else if link == Broken then ended.(table := Mark(b.table, id, Failed, Some("SEND_FAILED")))
    else ended.(table := Mark(b.table, id, Sent, None), handed := b.handed + [c.instruction])
  }

  function AfterPollRead(b: Backend, poll: nat, symbols: map<string, string>): Backend {
    var found := Oldest(b.table.ids, b.table.rows, IsPending());
    if found.None? || found.value !in b.table.rows then b
    else b.(polls := b.polls[poll := Poll(found.value, PollInstruction(b.table, symbols, found.value))])
  }

  function AfterPollWrite(b: Backend, poll: nat): Backend
    requires poll in b.polls
  {
    var p := b.polls[poll];
    var ended := b.(polls := b.polls - {poll});
    if p.instruction.None? then ended.(table := Mark(b.table, p.copyId, Failed, Some("NO_MATCHING_OPEN_COPY")))
    else ended.(table := Mark(b.table, p.copyId, Sent, None), handed := b.handed + [p.instruction.value])
  }

  /** handleSlaveMessage: overwrites whatever status the row has. */
  function AfterRecord(b: Backend, r: Result): Backend {
    if r.copyId !in b.table.rows then b
    else
      var row := b.table.rows[r.copyId];
      b.(table := Update(b.table, r.copyId,
        row.(status := if r.executed then Executed else Failed,
             slaveTicket := if r.slaveTicket.Some? then r.slaveTicket else row.slaveTicket,
             reason := if r.reason.Some? then r.reason else row.reason)))
  }

  predicate Enabled(b: Backend, step: Step) {
    match step
    case Begin(n, _, _, _) => n !in b.calls
    case Create(n, id) => n in b.calls && b.calls[n].Creating? && id !in b.table.rows && IsTraceable(id)
    case Deliver(n, _) => n in b.calls && b.calls[n].Delivering?
    case PollRead(p, _) => p !in b.polls
    case PollWrite(p) => p in b.polls
    case Record(_) => true
  }

  ghost function Next(b: Backend, step: Step): Backend
    requires Enabled(b, step)
  {
    match step
    case Begin(n, slave, account, e) => AfterBegin(b, n, slave, account, e)
    case Create(n, id) => AfterCreate(b, n, id)
    case Deliver(n, link) => AfterDeliver(b, n, link)
    case PollRead(p, symbols) => AfterPollRead(b, p, symbols)
    case PollWrite(p) => AfterPollWrite(b, p)
    case Record(r) => AfterRecord(b, r)
  }
}
