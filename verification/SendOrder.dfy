/**
 * Two MODIFYs of one position, sent by the MT5 push in the other order than created: a run from the start, and any run
 * that leaves two such MODIFYs waiting.
 */
module SendOrder {
  import opened Common
  import opened CopyOrders
  import opened CopyProtocol
  import opened SlaveTerminal
  import opened SlaveRun
  import opened ReconciliationEngine
  import opened AtMostOnce
  import opened StopsAndTargets
  import opened CopyRuns

  /** Two MODIFYs of the same ticket, their rows the last two created, neither sent, nothing else in flight. */
  ghost predicate TwoWaiting(s: State, first: nat, second: nat, ticket: string) {
    var b, n := s.backend, |s.backend.table.ids|;
    && first in b.calls && second in b.calls && first != second
    && Waits(b, first, ticket) && Waits(b, second, ticket)
    && n >= 2 && b.table.ids[n - 2] == b.calls[first].instruction.copyId
    && b.table.ids[n - 1] == b.calls[second].instruction.copyId
    && b.calls[first].instruction.copyId != b.calls[second].instruction.copyId
    && |s.outcomes| == |b.handed|
  }

  predicate Waits(b: Backend, n: nat, ticket: string)
    requires n in b.calls
  {
    var c := b.calls[n];
    && c.Delivering? && c.platform == Mt5 && c.instruction.action == Modify && c.instruction.slaveTicket == Some(ticket)
    && c.instruction.copyId in b.table.rows && b.table.rows[c.instruction.copyId].status == Pending
    && b.table.rows[c.instruction.copyId].event.action == Modify
  }

  /** The second is sent before the first; both are filled in the order sent, and both results arrive. */
  function CrossedSends(first: nat, second: nat, ticket: string, k: nat): seq<Event> {
    [Act(Deliver(second, Up)), Act(Deliver(first, Up)), Execute(Filled(ticket)), Execute(Filled(ticket)),
     Report(k), Report(k + 1)]
  }

  /** After k others, i2 and then i1 were handed over. */
  ghost predicate HandedLast(s: State, i1: Instruction, i2: Instruction, k: nat) {
    |s.backend.handed| == k + 2 && s.backend.handed[k] == i2 && s.backend.handed[k + 1] == i1
  }

  lemma {:induction false} Sent(es: seq<Event>, first: nat, second: nat, ticket: string)
    requires Legal(Mt5, ORDERLY, es) && TwoWaiting(Final(Mt5, ORDERLY, es), first, second, ticket)
    ensures Legal(Mt5, ORDERLY, es + [Act(Deliver(second, Up))] + [Act(Deliver(first, Up))])
    ensures BothSent(Final(Mt5, ORDERLY, es), first, second,
                     Final(Mt5, ORDERLY, es + [Act(Deliver(second, Up))] + [Act(Deliver(first, Up))]))
  {
    Extend(Mt5, ORDERLY, es, Act(Deliver(second, Up)));
    Extend(Mt5, ORDERLY, es + [Act(Deliver(second, Up))], Act(Deliver(first, Up)));
  }

  /** Both instructions are with the Slave, the second's first; nothing else has changed that matters. */
  ghost predicate BothSent(s: State, first: nat, second: nat, s': State)
    requires first in s.backend.calls && second in s.backend.calls
    requires s.backend.calls[first].Delivering? && s.backend.calls[second].Delivering?
  {
    var i1, i2 := s.backend.calls[first].instruction, s.backend.calls[second].instruction;
    && HandedLast(s', i1, i2, |s.backend.handed|) && |s'.outcomes| == |s.backend.handed| && s'.book == s.book
    && s'.backend.table.ids == s.backend.table.ids
    && SameEventAt(s, s', i1.copyId) && SameEventAt(s, s', i2.copyId)
  }

  predicate SameEventAt(s: State, s': State, id: string) {
    && id in s.backend.table.rows && id in s'.backend.table.rows
    && s'.backend.table.rows[id].event == s.backend.table.rows[id].event
  }

  lemma {:induction false} FilledTwice(es: seq<Event>, i1: Instruction, i2: Instruction, ticket: string, k: nat)
    requires Legal(Mt5, ORDERLY, es) && i1.action == Modify && i2.action == Modify
    requires i1.slaveTicket == Some(ticket) && i2.slaveTicket == Some(ticket)
    requires |Final(Mt5, ORDERLY, es).outcomes| == k && HandedLast(Final(Mt5, ORDERLY, es), i1, i2, k)
    ensures Legal(Mt5, ORDERLY, es + [Execute(Filled(ticket))] + [Execute(Filled(ticket))])
    ensures BothFilled(Final(Mt5, ORDERLY, es), i1, i2, ticket, k,
                       Final(Mt5, ORDERLY, es + [Execute(Filled(ticket))] + [Execute(Filled(ticket))]))
  {
    Extend(Mt5, ORDERLY, es, Execute(Filled(ticket)));
    Extend(Mt5, ORDERLY, es + [Execute(Filled(ticket))], Execute(Filled(ticket)));
  }

  ghost predicate BothFilled(s: State, i1: Instruction, i2: Instruction, ticket: string, k: nat, s': State) {
    && s'.backend == s.backend && |s'.outcomes| == k + 2
    && s'.outcomes[k] == Filled(ticket) && s'.outcomes[k + 1] == Filled(ticket)
    && s'.book == Reprice(Reprice(s.book, ticket, i2), ticket, i1)
  }

  lemma {:induction false} ReportedTwice(es: seq<Event>, i1: Instruction, i2: Instruction, ticket: string, k: nat)
    requires Legal(Mt5, ORDERLY, es) && i1.copyId != i2.copyId
    requires AwaitsReports(Final(Mt5, ORDERLY, es), i1, i2, ticket, k)
    ensures Legal(Mt5, ORDERLY, es + [Report(k)] + [Report(k + 1)])
    ensures SecondRecorded(Final(Mt5, ORDERLY, es), i2, Final(Mt5, ORDERLY, es + [Report(k)] + [Report(k + 1)]))
  {
    Extend(Mt5, ORDERLY, es, Report(k));
    Extend(Mt5, ORDERLY, es + [Report(k)], Report(k + 1));
  }

  ghost predicate AwaitsReports(s: State, i1: Instruction, i2: Instruction, ticket: string, k: nat) {
    && |s.outcomes| == k + 2 && HandedLast(s, i1, i2, k)
    && s.outcomes[k] == Filled(ticket) && s.outcomes[k + 1] == Filled(ticket)
    && i1.copyId in s.backend.table.rows && i2.copyId in s.backend.table.rows
  }

  ghost predicate SecondRecorded(s: State, i2: Instruction, s': State) {
    && s'.book == s.book && s'.backend.table.ids == s.backend.table.ids
    && SameEventAt(s, s', i2.copyId) && s'.backend.table.rows[i2.copyId].status == Executed
  }

  /** Where such a run ends: the position as the first row has it, the second row EXECUTED and still the latest. */
  ghost predicate Parted(s: State, first: nat, second: nat, ticket: string, s': State)
    requires first in s.backend.calls && second in s.backend.calls
    requires s.backend.calls[first].Delivering? && s.backend.calls[second].Delivering?
  {
    var i1, i2 := s.backend.calls[first].instruction, s.backend.calls[second].instruction;
    && s'.book == Reprice(Reprice(s.book, ticket, i2), ticket, i1)
    && s'.backend.table.ids == s.backend.table.ids
    && SameEventAt(s, s', i2.copyId) && s'.backend.table.rows[i2.copyId].status == Executed
  }

  lemma {:induction false} Crossed(es: seq<Event>, first: nat, second: nat, ticket: string)
    requires Legal(Mt5, ORDERLY, es) && TwoWaiting(Final(Mt5, ORDERLY, es), first, second, ticket)
    ensures Legal(Mt5, ORDERLY, es + CrossedSends(first, second, ticket, |Final(Mt5, ORDERLY, es).backend.handed|))
    ensures Parted(Final(Mt5, ORDERLY, es), first, second, ticket,
                   Final(Mt5, ORDERLY,
                         es + CrossedSends(first, second, ticket, |Final(Mt5, ORDERLY, es).backend.handed|)))
  {
    var s := Final(Mt5, ORDERLY, es);
    var i1, i2, k := s.backend.calls[first].instruction, s.backend.calls[second].instruction, |s.backend.handed|;
    Sent(es, first, second, ticket);
    var es1 := es + [Act(Deliver(second, Up))] + [Act(Deliver(first, Up))];
    FilledTwice(es1, i1, i2, ticket, k);
    var es2 := es1 + [Execute(Filled(ticket))] + [Execute(Filled(ticket))];
    ReportedTwice(es2, i1, i2, ticket, k);
    assert es2 + [Report(k)] + [Report(k + 1)] == es + CrossedSends(first, second, ticket, k);
  }

  lemma LastIsExpected(t: Table, id: string)
    requires |t.ids| > 0 && t.ids[|t.ids| - 1] == id && id in t.rows && Done(t.rows[id], Modify)
    ensures GetExpectedSlTp(t, t.rows[id].event.masterTicket)
         == Some(ExpectedSlTp(t.rows[id].event.sl, t.rows[id].event.tp))
  {
    assert Matches(t.rows, t.ids[|t.ids| - 1], PricedFor(t.rows[id].event.masterTicket));
  }

  /** The position ends with the first instruction's prices, the expectation is the second row's. */
  ghost predicate PricesPart(s: State, first: nat, second: nat, p: Position, s': State)
    requires first in s.backend.calls && second in s.backend.calls
    requires s.backend.calls[first].Delivering? && s.backend.calls[second].Delivering?
  {
    var id := s.backend.calls[second].instruction.copyId;
    && Repriced(p, s.backend.calls[first].instruction) in s'.book
    && id in s.backend.table.rows
    && GetExpectedSlTp(s'.backend.table, s.backend.table.rows[id].event.masterTicket)
       == Some(ExpectedSlTp(s.backend.table.rows[id].event.sl, s.backend.table.rows[id].event.tp))
  }

  lemma TwiceRepriced(book: seq<Position>, ticket: string, i: Instruction, j: Instruction, p: Position)
    requires p in book && p.ticket == ticket
    ensures Repriced(p, j) in Reprice(Reprice(book, ticket, i), ticket, j)
  {
    var k :| 0 <= k < |book| && book[k] == p;
    RepriceIsPointwise(book, ticket, i);
    RepriceIsPointwise(Reprice(book, ticket, i), ticket, j);
    assert Reprice(Reprice(book, ticket, i), ticket, j)[k] == Repriced(p, j);
  }

  lemma PartedPricesPart(s: State, first: nat, second: nat, ticket: string, p: Position, s': State)
    requires TwoWaiting(s, first, second, ticket) && Parted(s, first, second, ticket, s')
    requires p in s.book && p.ticket == ticket
    ensures PricesPart(s, first, second, p, s')
  {
    TwiceRepriced(s.book, ticket, s.backend.calls[second].instruction, s.backend.calls[first].instruction, p);
    LastIsExpected(s'.backend.table, s.backend.calls[second].instruction.copyId);
  }

  /** Whatever the two MODIFYs say: the position ends with the first row's prices, the expectation is the second's. */
  lemma {:induction false} CrossedSendsPartThem(es: seq<Event>, first: nat, second: nat, ticket: string, p: Position)
    requires Legal(Mt5, ORDERLY, es) && TwoWaiting(Final(Mt5, ORDERLY, es), first, second, ticket)
    requires p in Final(Mt5, ORDERLY, es).book && p.ticket == ticket
    ensures Legal(Mt5, ORDERLY, es + CrossedSends(first, second, ticket, |Final(Mt5, ORDERLY, es).backend.handed|))
    ensures PricesPart(Final(Mt5, ORDERLY, es), first, second, p,
                       Final(Mt5, ORDERLY, es + CrossedSends(first, second, ticket,
                                                             |Final(Mt5, ORDERLY, es).backend.handed|)))
  {
    var s := Final(Mt5, ORDERLY, es);
    Crossed(es, first, second, ticket);
    PartedPricesPart(s, first, second, ticket, p,
                     Final(Mt5, ORDERLY, es + CrossedSends(first, second, ticket, |s.backend.handed|)));
  }

  // ---------------------------------------------------------------- it happens

  /** An OPEN carried through, then two MODIFYs of its position dispatched together. */
  ghost predicate OpenAndTwo(c: Copy, first: Copy, second: Copy) {
    && FirstOpen(c) && c.slave.platform == Mt5 && FollowsUp(c, first) && FollowsUp(c, second)
    && first.event.action == Modify && second.event.action == Modify
    && first.call != second.call && first.id != second.id && first.event.eventId != second.event.eventId
  }

  function Together(c: Copy, first: Copy, second: Copy): seq<Event> {
    CopyEvents(c, 0) + DispatchEvents(first) + DispatchEvents(second)
  }

  ghost predicate DispatchedOne(s: State, c: Copy, first: Copy) {
    && s.backend.table.ids == [c.id, first.id]
    && s.backend.table.rows == map[c.id := FilledRowOf(IDLE, c),
                                   first.id := NewRow(first.event, Admit(first.event.volume, Some(c.ticket)))]
    && s.backend.calls == map[first.call := Delivering(PushInstruction(first.id, first.event,
                                Admit(first.event.volume, Some(c.ticket)), SymbolOf(first)), Mt5)]
    && |s.backend.handed| == 1 && |s.outcomes| == 1
    && |s.book| == 1 && s.book[0].ticket == c.ticket
  }

  lemma DispatchesFirst(c: Copy, first: Copy)
    requires FirstOpen(c) && c.slave.platform == Mt5 && FollowsUp(c, first) && first.event.action == Modify
    ensures CanDispatch(Carried(IDLE, c), first)
    ensures Reaches(Mt5, ORDERLY, CopyEvents(c, 0) + DispatchEvents(first), Dispatched(Carried(IDLE, c), first))
    ensures DispatchedOne(Dispatched(Carried(IDLE, c), first), c, first)
  {
    FirstIsReady(c);
    FirstTable(c);
    FollowUpIsReady(c, first);
    assert [] + CopyEvents(c, 0) == CopyEvents(c, 0);
    CopyIsCarried(Mt5, ORDERLY, [], IDLE, c);
    Dispatches(Mt5, ORDERLY, CopyEvents(c, 0), Carried(IDLE, c), first);
  }

  lemma SecondCanFollow(s: State, c: Copy, first: Copy, second: Copy)
    requires OpenAndTwo(c, first, second) && DispatchedOne(s, c, first)
    ensures CanDispatch(s, second) && DecisionOn(s, second) == Admit(second.event.volume, Some(c.ticket))
  {
    FirstIsFound(c, s.backend.table.ids, s.backend.table.rows);
  }

  lemma BothWait(s: State, c: Copy, first: Copy, second: Copy)
    requires OpenAndTwo(c, first, second) && DispatchedOne(s, c, first)
    requires CanDispatch(s, second) && DecisionOn(s, second) == Admit(second.event.volume, Some(c.ticket))
    ensures TwoWaiting(Dispatched(s, second), first.call, second.call, c.ticket)
  {
    var s' := Dispatched(s, second);
    assert s'.backend.table.ids == [c.id, first.id, second.id];
    assert Waits(s'.backend, first.call, c.ticket) && Waits(s'.backend, second.call, c.ticket);
  }

  /** The two MODIFYs wait in a run from the start, and the position they are for is held. */
  lemma TogetherWait(c: Copy, first: Copy, second: Copy)
    requires OpenAndTwo(c, first, second)
    ensures Legal(Mt5, ORDERLY, Together(c, first, second))
    ensures var s := Final(Mt5, ORDERLY, Together(c, first, second));
            && TwoWaiting(s, first.call, second.call, c.ticket) && |s.backend.handed| == 1
            && |s.book| == 1 && s.book[0].ticket == c.ticket
            && s.backend.calls[first.call].instruction.sl == first.event.sl
            && second.id in s.backend.table.rows && s.backend.calls[second.call].instruction.copyId == second.id
            && s.backend.table.rows[second.id].event == Persisted(second.event)
  {
    var s := Dispatched(Carried(IDLE, c), first);
    DispatchesFirst(c, first);
    SecondCanFollow(s, c, first, second);
    Dispatches(Mt5, ORDERLY, CopyEvents(c, 0) + DispatchEvents(first), s, second);
    BothWait(s, c, first, second);
  }

  /**
   * From the start of a run: an OPEN carried through, two MODIFYs dispatched together and sent crosswise. The Slave
   * ends with the first one's stop, the system expects the second one's.
   */
  lemma CrossedSendsHappen(c: Copy, first: Copy, second: Copy)
    requires OpenAndTwo(c, first, second)
    ensures var es := Together(c, first, second) + CrossedSends(first.call, second.call, c.ticket, 1);
            && Legal(Mt5, ORDERLY, es)
            && var s := Final(Mt5, ORDERLY, es);
               && (exists p :: p in s.book && p.ticket == c.ticket && p.sl == first.event.sl.GetOr(0.0))
               && GetExpectedSlTp(s.backend.table, c.event.masterTicket)
                  == Some(ExpectedSlTp(StoredPrice(second.event.sl), StoredPrice(second.event.tp)))
  {
    TogetherWait(c, first, second);
    var s := Final(Mt5, ORDERLY, Together(c, first, second));
    CrossedSendsPartThem(Together(c, first, second), first.call, second.call, c.ticket, s.book[0]);
    var s' := Final(Mt5, ORDERLY, Together(c, first, second) + CrossedSends(first.call, second.call, c.ticket, 1));
    assert Repriced(s.book[0], s.backend.calls[first.call].instruction) in s'.book;
  }
}
