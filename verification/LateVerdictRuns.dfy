/**
 * Runs, polls one at a time, in which a late "offline" verdict goes wrong: a position that the system does not know,
 * an expectation that falls back to outdated prices, and a MODIFY that finds nothing to act on.
 */
module LateVerdictRuns {
  import opened Common
  import opened ReconciliationEngine
  import opened ReconciliationTheorems
  import opened CopyOrders
  import opened CopyProtocol
  import opened SlaveTerminal
  import opened SlaveRun
  import opened AtMostOnce
  import opened LedgerRuns
  import opened Agreement
  import opened StopsAndTargets
  import opened LateVerdict
  import opened CopyRuns

  /** The connector is found offline just before the poll that counts as its heartbeat; the verdict is written last. */
  function Verdict(c: Copy): Event { Act(Deliver(c.call, Offline)) }

  // ---------------------------------------------------------------- on an OPEN

  /** A position held and no copy open. */
  lemma HeldWithoutCopy(t: Table, book: seq<Position>)
    requires |book| == 1 && forall id :: id in t.ids ==> !IsOpenRow(t, id)
    ensures !BooksAgree(Compared(Mt4, t, book, [], None, None))
  {
    CollectEmpty(t.ids, OpenRule(t));
    var input := Compared(Mt4, t, book, [], None, None);
    assert input.openCopies == [] && |input.slavePositions| == 1;
    AgreementIff(input);
  }

  /** One position is held, every result has arrived, and the reconciliation complains. */
  ghost predicate HeldUnseen(s: State) {
    && AllReported(s) && |s.book| == 1
    && !BooksAgree(Compared(Mt4, s.backend.table, s.book, [], None, None))
  }

  lemma FirstIsCarried(c: Copy)
    requires FirstOpen(c)
    ensures Reaches(c.slave.platform, SERIAL, CopyEvents(c, 0), Carried(IDLE, c))
  {
    FirstIsReady(c);
    assert [] + CopyEvents(c, 0) == CopyEvents(c, 0);
    CopyIsCarried(c.slave.platform, SERIAL, [], IDLE, c);
  }

  lemma VerdictLeavesItUnseen(s: State, n: nat, id: string)
    requires n in s.backend.calls && s.backend.calls[n].Delivering? && s.backend.calls[n].instruction.copyId == id
    requires s.backend.table.ids == [id] && id in s.backend.table.rows && |s.book| == 1 && AllReported(s)
    ensures HeldUnseen(After(Mt4, s, Act(Deliver(n, Offline))))
  {
    HeldWithoutCopy(AfterDeliver(s.backend, n, Offline).table, s.book);
  }

  lemma VerdictHides(c: Copy)
    requires FirstOpen(c) && c.slave.platform == Mt4
    ensures Allowed(Mt4, SERIAL, Carried(IDLE, c), Verdict(c))
    ensures HeldUnseen(After(Mt4, Carried(IDLE, c), Verdict(c)))
  {
    FirstTable(c);
    VerdictLeavesItUnseen(Carried(IDLE, c), c.call, c.id);
  }

  /** The run ends with the position open at the Slave and no open copy, and the reconciliation reports it. */
  lemma LateVerdictHappens(c: Copy)
    requires FirstOpen(c) && c.slave.platform == Mt4
    ensures var es := CopyEvents(c, 0) + [Verdict(c)];
            Legal(Mt4, SERIAL, es) && HeldUnseen(Final(Mt4, SERIAL, es))
  {
    FirstIsCarried(c);
    VerdictHides(c);
    OneMore(Mt4, SERIAL, CopyEvents(c, 0), Carried(IDLE, c), Verdict(c));
  }

  // ---------------------------------------------------------------- on a MODIFY

  lemma BegunOne(e: Event)
    ensures Begun([e]) == if e.Act? && e.step.Begin? then [e.step.event] else []
  {
    assert [e][..0] == [];
  }

  lemma BegunTwo(e: Event, f: Event)
    ensures Begun([e, f]) == Begun([e]) + Begun([f])
  {
    BegunConcat([e], [f]);
    assert [e, f] == [e] + [f];
  }

  lemma BegunOfCopy(c: Copy, k: nat)
    ensures Begun(CopyEvents(c, k)) == [c.event]
  {
    var created, filled := Act(Create(c.call, c.id)), Execute(Filled(c.ticket));
    BegunConcat(DispatchEvents(c) + HandOverEvents(c), [filled, Report(k)]);
    BegunConcat(DispatchEvents(c), HandOverEvents(c));
    BegunTwo(Act(Begin(c.call, c.slave, c.account, c.event)), created);
    BegunTwo(filled, Report(k));
    BegunTwo(Act(PollRead(0, c.slave.symbols)), Act(PollWrite(0)));
    BegunOne(Act(Begin(c.call, c.slave, c.account, c.event)));
    BegunOne(created);
    BegunOne(filled);
    BegunOne(Report(k));
    BegunOne(Act(Deliver(c.call, Up)));
    BegunOne(Act(PollRead(0, c.slave.symbols)));
    BegunOne(Act(PollWrite(0)));
  }

  /** An OPEN and a MODIFY of its position, both carried through, and the verdict on the MODIFY. */
  function OutdatedRun(c: Copy, next: Copy): seq<Event> {
    CopyEvents(c, 0) + CopyEvents(next, 1) + [Verdict(next)]
  }

  ghost predicate OpenThenModify(c: Copy, next: Copy) {
    FirstOpen(c) && FollowsUp(c, next) && next.event.action == Modify && c.slave.platform == Mt4
  }

  /** Where it ends: the OPEN EXECUTED, the MODIFY FAILED after it was filled. */
  ghost predicate Outdated(s: State, c: Copy, next: Copy) {
    && s.backend.table.ids == [c.id, next.id] && s.backend.table.rows.Keys == {c.id, next.id}
    && s.backend.table.rows[c.id].event == Persisted(c.event) && Done(s.backend.table.rows[c.id], Open)
    && s.backend.table.rows[next.id].event == Persisted(next.event) && s.backend.table.rows[next.id].status == Failed
    && |s.backend.handed| == 2 && s.outcomes == [Filled(c.ticket), Filled(c.ticket)] && s.reported == {0, 1}
    && s.backend.handed[1].copyId == next.id && s.backend.handed[1].action == Modify
    && s.backend.handed[1].sl == StoredPrice(next.event.sl) && s.backend.handed[1].tp == StoredPrice(next.event.tp)
  }

  lemma SecondTable(c: Copy, next: Copy)
    requires OpenThenModify(c, next) && Ready(Carried(IDLE, c), next)
    ensures var s := Carried(Carried(IDLE, c), next);
            && s.backend.table.ids == [c.id, next.id]
            && s.backend.table.rows == map[c.id := FilledRowOf(IDLE, c), next.id := FilledRowOf(Carried(IDLE, c), next)]
            && s.backend.handed == [HandedFor(IDLE, c).value, HandedFor(Carried(IDLE, c), next).value]
            && s.outcomes == [Filled(c.ticket), Filled(c.ticket)] && s.reported == {0, 1}
            && next.call in s.backend.calls && s.backend.calls[next.call].Delivering?
            && s.backend.calls[next.call].instruction.copyId == next.id && s.backend.calls[next.call].platform == Mt4
  {
    FirstTable(c);
  }

  lemma OutdatedEnds(c: Copy, next: Copy)
    requires OpenThenModify(c, next)
    ensures Legal(Mt4, SERIAL, OutdatedRun(c, next))
    ensures Outdated(Final(Mt4, SERIAL, OutdatedRun(c, next)), c, next)
  {
    TwoCopies(SERIAL, c, next);
    SecondTable(c, next);
    FirstTable(c);
    var s := Carried(Carried(IDLE, c), next);
    OneMore(Mt4, SERIAL, CopyEvents(c, 0) + CopyEvents(next, 1), s, Verdict(next));
  }

  lemma OutdatedBegun(c: Copy, next: Copy)
    ensures Begun(OutdatedRun(c, next)) == [c.event, next.event]
  {
    BegunConcat(CopyEvents(c, 0) + CopyEvents(next, 1), [Verdict(next)]);
    BegunConcat(CopyEvents(c, 0), CopyEvents(next, 1));
    BegunOfCopy(c, 0);
    BegunOfCopy(next, 1);
    BegunOne(Verdict(next));
  }

  lemma OutdatedSettles(c: Copy, next: Copy)
    requires OpenThenModify(c, next)
    ensures SettlesIn(Mt4, SERIAL, OutdatedRun(c, next))
  {
    OutdatedEnds(c, next);
    OutdatedBegun(c, next);
    assert OneOpenPerTicket([c.event, next.event]);
    assert AllReported(Final(Mt4, SERIAL, OutdatedRun(c, next)));
  }

  lemma OutdatedIsTracked(s: State, c: Copy, next: Copy)
    requires Outdated(s, c, next) && next.event.action == Modify
    ensures AllTracked(s)
  {}

  /** What is expected is the OPEN's stop and target. */
  lemma OutdatedExpects(s: State, c: Copy, next: Copy)
    requires Outdated(s, c, next)
    ensures IsOpenRow(s.backend.table, c.id) && s.backend.table.rows[c.id].event.masterTicket == c.event.masterTicket
    ensures GetExpectedSlTp(s.backend.table, c.event.masterTicket)
         == Some(ExpectedSlTp(StoredPrice(c.event.sl), StoredPrice(c.event.tp)))
  {
    var t, p := s.backend.table, PricedFor(c.event.masterTicket);
    assert t.ids[..1] == [c.id];
    assert Latest([c.id], t.rows, p) == Some(c.id);
  }

  lemma OutdatedMisfits(s: State, c: Copy, next: Copy, tolerance: real)
    requires Outdated(s, c, next) && next.event.masterTicket == c.event.masterTicket
    requires PriceOff(StoredPrice(c.event.sl), Shown(Mt4, StoredPrice(next.event.sl).GetOr(0.0)), tolerance)
    ensures !AllPricesFit(Mt4, s, tolerance)
  {
    OutdatedExpects(s, c, next);
    assert PricesLast(s, 1, c.event.masterTicket);
    LastDecidesFit(Mt4, s, 1, c.event.masterTicket, tolerance);
  }

  /**
   * The verdict on the last MODIFY: the books still agree, but the reconciliation compares what the Slave holds with
   * the stop of the OPEN and, if the two are too far apart, reports SLTP_MISMATCH.
   */
  lemma LateVerdictOutdates(c: Copy, next: Copy)
    requires OpenThenModify(c, next)
    requires PriceOff(StoredPrice(c.event.sl), Shown(Mt4, StoredPrice(next.event.sl).GetOr(0.0)),
                      DEFAULT_PRICE_TOLERANCE)
    ensures var es := OutdatedRun(c, next);
            && Legal(Mt4, SERIAL, es)
            && BooksAgree(ComparedAtEnd(Mt4, SERIAL, es, [], None, None))
            && !OnlyMissingCopies(ComparedAtEnd(Mt4, SERIAL, es, [], None, None))
  {
    var es := OutdatedRun(c, next);
    OutdatedEnds(c, next);
    OutdatedSettles(c, next);
    RunIsPriced(Mt4, SERIAL, es);
    var s := Final(Mt4, SERIAL, es);
    OutdatedIsTracked(s, c, next);
    OutdatedMisfits(s, c, next, DEFAULT_PRICE_TOLERANCE);
    SettledAgreesIff(Mt4, s, ComparedAtEnd(Mt4, SERIAL, es, [], None, None));
    SettledIsQuietIff(Mt4, s, ComparedAtEnd(Mt4, SERIAL, es, [], None, None));
  }

  // ---------------------------------------------------------------- under a MODIFY waiting to be polled

  /** A MODIFY is admitted, and before it is polled the verdict on its OPEN is written. */
  function GuardRun(c: Copy, next: Copy): seq<Event> {
    CopyEvents(c, 0) + DispatchEvents(next) + [Verdict(c)]
  }

  lemma NothingFound(t: Table, m: string)
    requires forall id :: id in t.ids ==> !Matches(t.rows, id, OpenedFor(m))
    ensures FindExecutedOpenSlaveTicket(t, m).None?
  {
    LatestFinds(t.ids, t.rows, OpenedFor(m));
  }

  /** Where it ends: the OPEN FAILED, the MODIFY still PENDING. */
  lemma GuardTable(c: Copy, next: Copy)
    requires OpenThenModify(c, next) && Ready(Carried(IDLE, c), next)
    ensures var s := Dispatched(Carried(IDLE, c), next);
            && Allowed(Mt4, SERIAL, s, Verdict(c))
            && var t := After(Mt4, s, Verdict(c)).backend.table;
               && t.ids == [c.id, next.id] && t.rows.Keys == {c.id, next.id} && t.rows[c.id].status == Failed
               && t.rows[next.id].status == Pending && t.rows[next.id].event == Persisted(next.event)
  {
    FirstTable(c);
    FollowUpIsReady(c, next);
    var s := Dispatched(Carried(IDLE, c), next);
    assert s.backend.calls[c.call].Delivering? && s.backend.calls[c.call].instruction.copyId == c.id;
    assert After(Mt4, s, Verdict(c)).backend.table == Failing(s.backend.table, c.id);
  }

  /** The poll's guard branch is taken: the MODIFY waits, and there is no EXECUTED OPEN to resolve it to. */
  lemma GuardIsTaken(c: Copy, next: Copy, symbols: map<string, string>)
    requires OpenThenModify(c, next)
    ensures Legal(Mt4, SERIAL, GuardRun(c, next))
    ensures var t := Final(Mt4, SERIAL, GuardRun(c, next)).backend.table;
            WaitsForTarget(t, next.id) && PollInstruction(t, symbols, next.id).None?
  {
    var s := Carried(IDLE, c);
    FirstIsCarried(c);
    FollowUpIsReady(c, next);
    Dispatches(Mt4, SERIAL, CopyEvents(c, 0), s, next);
    GuardTable(c, next);
    OneMore(Mt4, SERIAL, CopyEvents(c, 0) + DispatchEvents(next), Dispatched(s, next), Verdict(c));
    NothingFound(After(Mt4, Dispatched(s, next), Verdict(c)).backend.table, next.event.masterTicket);
  }
}
