/** The copy engine as the code runs it, on the tables of all Slaves (backend/src/modules/copy-engine/copyEngine.ts). */
module CopyEngine {
  import opened Common
  import opened ReconciliationEngine
  import opened ReconciliationTheorems
  import opened CopyOrders
  import opened CopyProtocol
  import opened RiskChecks
  import opened CopyTable
  import opened FanOut
  import V = VolumeCalculator

  class LiveEngine {
    var ids: seq<string>
    var rows: map<string, SlaveRow>
    var calls: map<Key, Call>
    var polls: map<Key, Poll>
    var channels: map<string, seq<Instruction>>

    constructor ()
      ensures Valid() && Contents() == EMPTY
    {
      ids, rows, calls, polls, channels := [], map[], map[], map[], map[];
    }

    ghost predicate Valid()
      reads this
    {
      ToSet(ids) == rows.Keys
    }

    ghost function Contents(): Engine
      reads this
    {
      Engine(ids, rows, calls, polls, channels)
    }

    /** What the engine holds for one Slave. */
    ghost function View(slaveId: string): Backend
      reads this
    {
      ViewOf(Contents(), slaveId)
    }

    // -------------------------------------------------------------- queries

    /** findFirst where slaveId and p, orderBy createdAt desc */
    method FindLatest(slaveId: string, p: CopyOrder -> bool) returns (found: Option<string>)
      requires Valid()
      ensures found == Latest(OwnIds(ids, rows, slaveId), OwnRows(rows, slaveId), p)
    {
      found := None;
      for i := 0 to |ids|
        invariant found == Latest(OwnIds(ids[..i], rows, slaveId), OwnRows(rows, slaveId), p)
      {
        var id := ids[i];
        OwnStep(ids, rows, slaveId, i);
        LatestStep(OwnIds(ids[..i], rows, slaveId), OwnRows(rows, slaveId), p, id);
        if Owns(rows, slaveId, id) && p(rows[id].row) { found := Some(id); }
      }
      assert ids[..|ids|] == ids;
    }

    /** findFirst where slaveId and p, orderBy createdAt asc */
    method FindOldest(slaveId: string, p: CopyOrder -> bool) returns (found: Option<string>)
      requires Valid()
      ensures found == Oldest(OwnIds(ids, rows, slaveId), OwnRows(rows, slaveId), p)
    {
      found := None;
      for i := 0 to |ids|
        invariant found == Oldest(OwnIds(ids[..i], rows, slaveId), OwnRows(rows, slaveId), p)
      {
        var id := ids[i];
        OwnStep(ids, rows, slaveId, i);
        if Owns(rows, slaveId, id) {
          OldestStep(OwnIds(ids[..i], rows, slaveId), OwnRows(rows, slaveId), p, id);
          if found.None? && p(rows[id].row) { found := Some(id); }
        }
      }
      assert ids[..|ids|] == ids;
    }

    method FindExecutedOpenTicket(slaveId: string, masterTicket: string) returns (ticket: Option<string>)
      requires Valid()
      ensures ticket == FindExecutedOpenSlaveTicket(OwnTable(ids, rows, slaveId), masterTicket)
    {
      var priorOpen := FindLatest(slaveId, OpenedFor(masterTicket));
      ticket := None;
      if priorOpen.Some? && Owns(rows, slaveId, priorOpen.value) && HasTicket(rows[priorOpen.value].row.slaveTicket) {
        ticket := rows[priorOpen.value].row.slaveTicket;
      }
    }

    method FindExpectedSlTp(slaveId: string, masterTicket: string) returns (expected: Option<ExpectedSlTp>)
      requires Valid()
      ensures expected == GetExpectedSlTp(OwnTable(ids, rows, slaveId), masterTicket)
    {
      var latest := FindLatest(slaveId, PricedFor(masterTicket));
      expected := None;
      if latest.Some? && Owns(rows, slaveId, latest.value) {
        expected := Some(ExpectedSlTp(rows[latest.value].row.event.sl, rows[latest.value].row.event.tp));
      }
    }

    method FindClosed(slaveId: string) returns (closed: seq<ClosedCopy>)
      requires Valid()
      ensures closed == ClosedCopies(OwnTable(ids, rows, slaveId))
    {
      ghost var t := OwnTable(ids, rows, slaveId);
      closed := [];
      for i := 0 to |ids|
        invariant closed == Collect(OwnIds(ids[..i], rows, slaveId), ClosedRule(t))
      {
        var id := ids[i];
        OwnStep(ids, rows, slaveId, i);
        CollectOneMore(OwnIds(ids[..i], rows, slaveId), id, ClosedRule(t));
        OwnRowIs(rows, slaveId, id);
        if Owns(rows, slaveId, id) && Done(rows[id].row, Close) {
          closed := closed + [ClosedCopy(rows[id].row.event.masterTicket, rows[id].row.slaveTicket)];
        }
      }
      assert ids[..|ids|] == ids;
    }

    /** new Set(closes.map(c => c.masterTicket)) */
    static method TicketsOf(closed: seq<ClosedCopy>) returns (tickets: set<string>)
      ensures tickets == set c | c in closed :: c.masterTicket
    {
      tickets := {};
      for i := 0 to |closed|
        invariant tickets == set c | c in closed[..i] :: c.masterTicket
      {
        assert closed[..i + 1] == closed[..i] + [closed[i]];
        tickets := tickets + {closed[i].masterTicket};
      }
      assert closed[..|closed|] == closed;
    }

    method FindOpen(slaveId: string, closedTickets: set<string>) returns (open: seq<OpenCopy>)
      requires closedTickets == ClosedTickets(OwnTable(ids, rows, slaveId))
      ensures open == Collect(OwnIds(ids, rows, slaveId), OpenRule(OwnTable(ids, rows, slaveId)))
    {
      ghost var t := OwnTable(ids, rows, slaveId);
      open := [];
      for i := 0 to |ids|
        invariant open == Collect(OwnIds(ids[..i], rows, slaveId), OpenRule(t))
      {
        var id := ids[i];
        OwnStep(ids, rows, slaveId, i);
        CollectOneMore(OwnIds(ids[..i], rows, slaveId), id, OpenRule(t));
        OwnRowIs(rows, slaveId, id);
        if Owns(rows, slaveId, id) && Done(rows[id].row, Open) && rows[id].row.event.masterTicket !in closedTickets {
          var row := rows[id].row;
          open := open + [OpenCopy(id, row.event.masterTicket, row.slaveTicket, row.requestedVolume)];
        }
      }
      assert ids[..|ids|] == ids;
    }

    method FindCopyOrderPositions(slaveId: string) returns (open: seq<OpenCopy>, closed: seq<ClosedCopy>)
      requires Valid()
      ensures open == OpenCopies(OwnTable(ids, rows, slaveId)) && closed == ClosedCopies(OwnTable(ids, rows, slaveId))
    {
      closed := FindClosed(slaveId);
      var closedTickets := TicketsOf(closed);
      OwnTableIsListed(ids, rows, slaveId);
      ClosedTicketsListed(OwnTable(ids, rows, slaveId));
      open := FindOpen(slaveId, closedTickets);
    }

    method FindOpenPositionsSummary(slaveId: string) returns (count: nat, totalVolume: real)
      requires Valid()
      ensures count == OpenCount(OwnTable(ids, rows, slaveId))
              && totalVolume == TotalVolume(OwnTable(ids, rows, slaveId))
    {
      var open, closed := FindCopyOrderPositions(slaveId);
      count, totalVolume := |open|, 0.0;
      for i := 0 to |open|
        invariant totalVolume == Sum(Map(open[..i], OpenVolume()))
      {
        assert Map(open[..i + 1], OpenVolume())[..i] == Map(open[..i], OpenVolume());
        totalVolume := totalVolume + open[i].requestedVolume.GetOr(0.0);
      }
      assert open[..|open|] == open;
    }

    // -------------------------------------------------------------- steps

    method CheckOpen(slaveId: string, slave: Slave, account: MasterAccount, event: TradeEvent)
      returns (decision: Decision)
      requires Valid()
      ensures decision == DecideOpen(slave, account, OwnTable(ids, rows, slaveId), event)
    {
      var count, totalVolume := FindOpenPositionsSummary(slaveId);
      var entryCheck := CheckEntryAllowed(slave.emergencyStop, slave.allowedSymbols, slave.blockedSymbols, event.symbol,
                                          slave.maxPositions, count);
      if entryCheck.Denied? { return Refuse(entryCheck.reason, None); }
      var sizing := V.CalculateVolume(SizingInput(slave, account, event.volume));
      if sizing.Rejected? { return Refuse(sizing.reason, event.volume); }
      var exposureCheck := CheckExposureAllowed(slave.maxExposure, totalVolume, sizing.volume);
      if exposureCheck.Denied? { return Refuse(exposureCheck.reason, Some(sizing.volume)); }
      return Admit(Some(sizing.volume), None);
    }

    method DecideCopy(slaveId: string, slave: Slave, account: MasterAccount, event: TradeEvent)
      returns (decision: Decision)
      requires Valid()
      ensures decision == Decide(slave, account, OwnTable(ids, rows, slaveId), event)
    {
      if event.action == Close || event.action == Modify {
        var priorOpenTicket := FindExecutedOpenTicket(slaveId, event.masterTicket);
        if priorOpenTicket.None? { return Refuse("NO_MATCHING_OPEN_COPY", None); }
        return Admit(event.volume, priorOpenTicket);
      }
      decision := CheckOpen(slaveId, slave, account, event);
    }

    /** copyToSlave up to its first write: the checks, made on what the queries answer now. */
    method CheckCopy(call: nat, slaveId: string, slave: Slave, account: MasterAccount, event: TradeEvent)
      requires Valid() && call !in View(slaveId).calls
      modifies this`calls
      ensures Valid()
      ensures View(slaveId) == AfterBegin(old(View(slaveId)), call, slave, account, event)
      ensures OthersSeeNothing(old(Contents()), Contents(), slaveId)
    {
      ghost var before := Contents();
      var symbol := ResolveSymbol(slave.symbols, event.symbol);
      var decision := DecideCopy(slaveId, slave, account, event);
      var c := Creating(event, decision, symbol, slave.platform);
      calls := calls[Key(slaveId, call) := c];
      CallIsSeen(before, slaveId, call, c);
    }

    /** Whether @@unique([tradeEventId, slaveId]) is taken. */
    method HasRowFor(slaveId: string, eventId: string) returns (taken: bool)
      requires Valid()
      ensures taken == HasEvent(OwnTable(ids, rows, slaveId), eventId)
    {
      taken := false;
      for i := 0 to |ids|
        invariant taken <==>
                  exists id :: id in ids[..i] && Owns(rows, slaveId, id) && rows[id].row.event.eventId == eventId
      {
        assert ids[..i + 1] == ids[..i] + [ids[i]];
        if Owns(rows, slaveId, ids[i]) && rows[ids[i]].row.event.eventId == eventId { taken := true; }
      }
      assert ids[..|ids|] == ids;
      OwnEvents(ids, rows, slaveId, eventId);
    }

    /** prisma.copyOrder.create, and what becomes of the call. */
    method InsertRow(call: nat, slaveId: string, copyId: string, row: CopyOrder, next: Option<Call>)
      requires Valid() && copyId !in rows
      modifies this`ids, this`rows, this`calls
      ensures Valid()
      ensures Contents() == WithRow(old(Contents()), slaveId, call, copyId, row, next)
    {
      assert copyId !in ToSet(ids);
      assert ToSet(ids + [copyId]) == ToSet(ids) + {copyId};
      ids, rows := ids + [copyId], rows[copyId := SlaveRow(slaveId, row)];
      if next.Some? {
        calls := calls[Key(slaveId, call) := next.value];
      } else {
        calls := calls - {Key(slaveId, call)};
      }
    }

    /** The row of a refusal or of an order to deliver; a second row for the event throws. */
    method CreateCopyOrder(call: nat, slaveId: string, copyId: string)
      requires Valid() && Enabled(View(slaveId), Create(call, copyId)) && copyId !in rows
      modifies this`ids, this`rows, this`calls
      ensures Valid()
      ensures View(slaveId) == AfterCreate(old(View(slaveId)), call, copyId)
      ensures OthersSeeNothing(old(Contents()), Contents(), slaveId)
    {
      ghost var before := Contents();
      OwnIs(calls, slaveId, call);
      var c := calls[Key(slaveId, call)];
      var taken := HasRowFor(slaveId, c.event.eventId);
      if taken {
        calls := calls - {Key(slaveId, call)};
        EndIsSeen(before, slaveId, call);
        return;
      }
      var row := NewRow(c.event, c.decision);
      var next := None;
      if c.decision.Admit? {
        next := Some(Delivering(PushInstruction(copyId, c.event, c.decision, c.symbol), c.platform));
      }
      assert copyId !in ToSet(ids);
      InsertRow(call, slaveId, copyId, row, next);
      RowIsSeen(before, slaveId, call, copyId, row, next);
    }

    /** prisma.copyOrder.update where id: a new status. */
    method MarkRow(slaveId: string, copyId: string, status: Status, reason: Option<string>)
      requires Valid()
      modifies this`rows
      ensures Valid() && rows.Keys == old(rows.Keys)
      ensures rows == RowMarked(old(rows), slaveId, copyId, status, reason)
    {
      if Owns(rows, slaveId, copyId) {
        var row := rows[copyId].row;
        var marked := row.(status := status, reason := if reason.Some? then reason else row.reason);
        rows := rows[copyId := rows[copyId].(row := marked)];
      }
    }

    /** The status a delivery comes to, and the end of its call. */
    method EndCall(call: nat, slaveId: string, copyId: string, status: Status, reason: Option<string>)
      requires Valid()
      modifies this`calls, this`rows
      ensures Valid()
      ensures Contents() == Dropped(old(Contents()), slaveId, call, copyId, status, reason)
    {
      MarkRow(slaveId, copyId, status, reason);
      calls := calls - {Key(slaveId, call)};
    }

    /** sendToSlave over an open connection, and the SENT status. */
    method Push(call: nat, slaveId: string, i: Instruction)
      requires Valid()
      modifies this
      ensures Valid()
      ensures Contents() == Dropped(old(Contents()), slaveId, call, i.copyId, Sent, None).(
                              channels := Sending(old(channels), slaveId, i))
    {
      channels := Sending(channels, slaveId, i);
      EndCall(call, slaveId, i.copyId, Sent, None);
    }

    /** The rest of copyToSlave once its row exists. */
    method DeliverCopy(call: nat, slaveId: string, link: Link)
      requires Valid() && Enabled(View(slaveId), Deliver(call, link))
      modifies this
      ensures Valid()
      ensures View(slaveId) == AfterDeliver(old(View(slaveId)), call, link)
      ensures OthersSeeNothing(old(Contents()), Contents(), slaveId)
    {
      ghost var before := Contents();
      OwnIs(calls, slaveId, call);
      var c := calls[Key(slaveId, call)];
      var id := c.instruction.copyId;
      if link == Offline {
        EndCall(call, slaveId, id, Failed, Some("SLAVE_OFFLINE"));
        DropIsSeen(before, slaveId, call, id, Failed, Some("SLAVE_OFFLINE"));
      } else if c.platform == Mt4 {
        calls := calls - {Key(slaveId, call)};
        EndIsSeen(before, slaveId, call);
      } else if link == Broken {
        EndCall(call, slaveId, id, Failed, Some("SEND_FAILED"));
        DropIsSeen(before, slaveId, call, id, Failed, Some("SEND_FAILED"));
      } else {
        Push(call, slaveId, c.instruction);
        PushIsSeen(before, slaveId, call, c.instruction);
      }
    }

    /** The instruction a poll rebuilds from a row. */
    method Rebuild(slaveId: string, symbols: map<string, string>, copyId: string)
      returns (instruction: Option<Instruction>)
      requires Valid() && Owns(rows, slaveId, copyId)
      ensures copyId in OwnRows(rows, slaveId)
      ensures instruction == PollInstruction(OwnTable(ids, rows, slaveId), symbols, copyId)
    {
      var row := rows[copyId].row;
      var slaveTicket: Option<string> := None;
      if row.event.action == Close || row.event.action == Modify {
        slaveTicket := FindExecutedOpenTicket(slaveId, row.event.masterTicket);
        if slaveTicket.None? { return None; }
      }
      return Some(Instruction(copyId, row.event.action, ResolveSymbol(symbols, row.event.symbol), row.event.side,
                              row.requestedVolume, row.event.sl, row.event.tp, slaveTicket));
    }

    /** The reads of a pending-instruction request: the oldest PENDING row and what to send for it. */
    method ReadPending(poll: nat, slaveId: string, symbols: map<string, string>)
      requires Valid() && poll !in View(slaveId).polls
      modifies this`polls
      ensures Valid()
      ensures View(slaveId) == AfterPollRead(old(View(slaveId)), poll, symbols)
      ensures OthersSeeNothing(old(Contents()), Contents(), slaveId)
    {
      ghost var before := Contents();
      var found := FindOldest(slaveId, IsPending());
      if found.None? { return; }
      OldestFinds(OwnIds(ids, rows, slaveId), OwnRows(rows, slaveId), IsPending());
      OwnRowIs(rows, slaveId, found.value);
      var instruction := Rebuild(slaveId, symbols, found.value);
      var p := Poll(found.value, instruction);
      polls := polls[Key(slaveId, poll) := p];
      PollIsSeen(before, slaveId, poll, p);
    }

    /** The row becomes SENT and is handed over, or FAILED for want of a ticket. */
    method ReplyTo(poll: nat, slaveId: string, p: Poll)
      requires Valid()
      modifies this
      ensures Valid()
      ensures p.instruction.None? ==>
                Contents() == Answered(old(Contents()), slaveId, poll, p.copyId, Failed, Some("NO_MATCHING_OPEN_COPY"))
      ensures p.instruction.Some? ==>
                Contents() == Answered(old(Contents()), slaveId, poll, p.copyId, Sent, None).(
                                channels := Sending(old(channels), slaveId, p.instruction.value))
    {
      polls := polls - {Key(slaveId, poll)};
      if p.instruction.None? {
        MarkRow(slaveId, p.copyId, Failed, Some("NO_MATCHING_OPEN_COPY"));
      } else {
        MarkRow(slaveId, p.copyId, Sent, None);
        channels := Sending(channels, slaveId, p.instruction.value);
      }
    }

    /** The write of a pending-instruction request and its reply. */
    method AnswerPoll(poll: nat, slaveId: string)
      requires Valid() && poll in View(slaveId).polls
      modifies this
      ensures Valid()
      ensures View(slaveId) == AfterPollWrite(old(View(slaveId)), poll)
      ensures OthersSeeNothing(old(Contents()), Contents(), slaveId)
    {
      ghost var before := Contents();
      OwnIs(polls, slaveId, poll);
      var p := polls[Key(slaveId, poll)];
      ReplyTo(poll, slaveId, p);
      if p.instruction.None? {
        PollFailsSeen(before, slaveId, poll, p.copyId, Failed, Some("NO_MATCHING_OPEN_COPY"));
      } else {
        PollHandsSeen(before, slaveId, poll, p.copyId, p.instruction.value);
      }
    }

    /** handleSlaveMessage */
    method HandleSlaveMessage(slaveId: string, result: Result)
      requires Valid()
      modifies this`rows
      ensures Valid()
      ensures View(slaveId) == AfterRecord(old(View(slaveId)), result)
      ensures OthersSeeNothing(old(Contents()), Contents(), slaveId)
    {
      ghost var before := Contents();
      OwnRowIs(rows, slaveId, result.copyId);
      if result.copyId !in rows || rows[result.copyId].slaveId != slaveId { return; }
      var row := rows[result.copyId].row;
      var row' := row.(status := if result.executed then Executed else Failed,
                       slaveTicket := if result.slaveTicket.Some? then result.slaveTicket else row.slaveTicket,
                       reason := if result.reason.Some? then result.reason else row.reason);
      rows := rows[result.copyId := rows[result.copyId].(row := row')];
      UpdateIsSeen(before, slaveId, result.copyId, row');
    }

    /** The step, taken. */
    method Take(x: Tagged)
      requires Valid() && CanStep(Contents(), x) && Enabled(View(x.slaveId), x.step)
      modifies this
      ensures Valid()
      ensures OnlySees(old(Contents()), Contents(), x.slaveId, Next(old(View(x.slaveId)), x.step))
    {
      match x.step {
        case Begin(n, slave, account, event) => CheckCopy(n, x.slaveId, slave, account, event);
        case Create(n, id) => CreateCopyOrder(n, x.slaveId, id);
        case Deliver(n, link) => DeliverCopy(n, x.slaveId, link);
        case PollRead(p, symbols) => ReadPending(p, x.slaveId, symbols);
        case PollWrite(p) => AnswerPoll(p, x.slaveId);
        case Record(r) => HandleSlaveMessage(x.slaveId, r);
      }
    }

    /** One step, if it can be taken: its Slave sees it as if it were alone, no other sees anything. */
    method Perform(ghost owner: string -> string, x: Tagged)
      requires Valid() && RowsApart(owner, Contents()) && IdApart(owner, x)
      modifies this
      ensures Valid() && RowsApart(owner, Contents())
      ensures OnlySees(old(Contents()), Contents(), x.slaveId, StepAlone(old(View(x.slaveId)), x.step))
    {
      ghost var before := Contents();
      CanStepAlone(owner, before, x);
      if !CanStep(Engine(ids, rows, calls, polls, channels), x) {
        NothingIsSeen(before, x.slaveId);
        return;
      }
      Take(x);
      ViewsStayApart(owner, before, Contents(), x);
    }

    /** The event loop: however the steps of the Slaves come back, each Slave ends as if it had been alone. */
    method Interleave(ghost owner: string -> string, xs: seq<Tagged>)
      requires Valid() && RowsApart(owner, Contents()) && forall x :: x in xs ==> IdApart(owner, x)
      modifies this
      ensures Valid() && RowsApart(owner, Contents())
      ensures AllAsAlone(old(Contents()), Contents(), xs)
    {
      for i := 0 to |xs|
        invariant Valid() && RowsApart(owner, Contents())
        invariant AllAsAlone(old(Contents()), Contents(), xs[..i])
      {
        ghost var between := Contents();
        Perform(owner, xs[i]);
        AsAloneOneMore(old(Contents()), between, Contents(), xs, i);
      }
      assert xs[..|xs|] == xs;
    }
  }
}
