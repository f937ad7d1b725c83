/**
 * The two transports: an MT4 poll rebuilds from the row what the MT5 push sends from memory, the very same instruction
 * exactly if its numbers fit their columns.
 */
module Transport {
  import opened Common
  import opened ReconciliationEngine
  import opened CopyOrders
  import opened CopyProtocol
  import opened SlaveTerminal
  import opened SlaveRun
  import opened AtMostOnce
  import opened Ledger
  import opened LedgerRuns
  import opened Agreement
  import V = VolumeCalculator

  /** What a dispatch decided, and the symbol it resolved. */
  datatype Decided = Decided(event: TradeEvent, decision: Decision, symbol: string)

  ghost function DecidedBy(b: Backend, step: Step): Decided
    requires step.Begin?
  {
    Decided(step.event, Decide(step.slave, step.account, b.table, step.event),
      ResolveSymbol(step.slave.symbols, step.event.symbol))
  }

  /** The dispatches of a run, each decided on the rows of its moment. */
  ghost function Decisions(platform: Platform, d: Discipline, es: seq<Event>): seq<Decided>
    requires Legal(platform, d, es)
  {
    if es == [] then []
    else
      var front, last := es[..|es| - 1], es[|es| - 1];
      Decisions(platform, d, front)
      + if last.Act? && last.step.Begin? then [DecidedBy(Final(platform, d, front).backend, last.step)] else []
  }

  /** The push of a decision, its numbers as the columns give them back. */
  function RoundedPush(id: string, d: Decided): Instruction
    requires d.decision.Admit?
  {
    PushInstruction(id, Persisted(d.event), Admit(StoredVolume(d.decision.volume), d.decision.slaveTicket), d.symbol)
  }

  ghost predicate RowOf(row: CopyOrder, d: Decided) {
    d.decision.Admit? && row.event == Persisted(d.event) && row.requestedVolume == StoredVolume(d.decision.volume)
  }

  /** The decision behind an instruction: the same trade event as its row, the same message up to rounding. */
  ghost predicate PolledFrom(t: Table, i: Instruction, d: Decided) {
    && d.decision.Admit? && i.copyId in t.rows && t.rows[i.copyId].event == Persisted(d.event)
    && i == RoundedPush(i.copyId, d)
  }

  ghost predicate HasSource(t: Table, i: Instruction, decisions: seq<Decided>) {
    exists d :: d in decisions && PolledFrom(t, i, d)
  }

  ghost predicate TicketIsRight(s: State, d: Decided) {
    d.decision.Admit? ==>
      if d.event.action == Open then d.decision.slaveTicket == None
      else HasTarget(s, d.event.masterTicket, d.decision.slaveTicket)
  }

  ghost predicate HasDecision(row: CopyOrder, decisions: seq<Decided>) {
    exists d :: d in decisions && RowOf(row, d)
  }

  /** Calls, waiting rows, polls and instructions come from decisions, and these named the right tickets. */
  ghost predicate Decisive(s: State, decisions: seq<Decided>) {
    var b := s.backend;
    && (forall n :: n in b.calls && b.calls[n].Creating? ==>
          Decided(b.calls[n].event, b.calls[n].decision, b.calls[n].symbol) in decisions)
    && (forall id :: id in b.table.rows && b.table.rows[id].status == Pending ==>
          HasDecision(b.table.rows[id], decisions))
    && (forall d :: d in decisions ==> TicketIsRight(s, d))
    && (forall p :: p in b.polls && b.polls[p].instruction.Some? ==>
          HasSource(b.table, b.polls[p].instruction.value, decisions))
    && (forall i :: i in b.handed ==> HasSource(b.table, i, decisions))
  }

  // ---------------------------------------------------------------- every step keeps it

  lemma TicketStaysRight(s: State, s': State, d: Decided)
    requires Progress(s, s') && TicketIsRight(s, d)
    ensures TicketIsRight(s', d)
  {
    if d.decision.Admit? && d.event.action != Open {
      TargetStays(s, s', d.event.masterTicket, d.decision.slaveTicket);
    }
  }

  lemma SourceStays(t: Table, t': Table, i: Instruction, decisions: seq<Decided>)
    requires Grows(t, t') && HasSource(t, i, decisions)
    ensures HasSource(t', i, decisions)
  {
    var d :| d in decisions && PolledFrom(t, i, d);
    assert PolledFrom(t', i, d);
  }

  lemma DecisionStays(row: CopyOrder, row': CopyOrder, decisions: seq<Decided>)
    requires HasDecision(row, decisions) && row'.event == row.event && row'.requestedVolume == row.requestedVolume
    ensures HasDecision(row', decisions)
  {
    var d :| d in decisions && RowOf(row, d);
    assert RowOf(row', d);
  }

  /** What was there keeps its decision; only what the step adds is left to show. */
  lemma StaysDecisive(s: State, s': State, decisions: seq<Decided>)
    requires Decisive(s, decisions) && Progress(s, s')
    requires forall n :: n in s'.backend.calls && s'.backend.calls[n].Creating? ==>
               n in s.backend.calls && s'.backend.calls[n] == s.backend.calls[n]
    requires forall p :: p in s'.backend.polls && s'.backend.polls[p].instruction.Some? ==>
               (p in s.backend.polls && s'.backend.polls[p] == s.backend.polls[p])
               || HasSource(s.backend.table, s'.backend.polls[p].instruction.value, decisions)
    requires forall i :: i in s'.backend.handed && i !in s.backend.handed ==> HasSource(s.backend.table, i, decisions)
    requires forall id :: id in s'.backend.table.rows && id !in s.backend.table.rows
                          && s'.backend.table.rows[id].status == Pending ==>
               HasDecision(s'.backend.table.rows[id], decisions)
    ensures Decisive(s', decisions)
  {
    var b, b' := s.backend, s'.backend;
    forall d | d in decisions ensures TicketIsRight(s', d) { TicketStaysRight(s, s', d); }
    forall id | id in b'.table.rows && b'.table.rows[id].status == Pending
      ensures HasDecision(b'.table.rows[id], decisions)
    {
      if id in b.table.rows { DecisionStays(b.table.rows[id], b'.table.rows[id], decisions); }
    }
    forall p | p in b'.polls && b'.polls[p].instruction.Some?
      ensures HasSource(b'.table, b'.polls[p].instruction.value, decisions)
    {
      SourceStays(b.table, b'.table, b'.polls[p].instruction.value, decisions);
    }
    forall i | i in b'.handed ensures HasSource(b'.table, i, decisions) {
      SourceStays(b.table, b'.table, i, decisions);
    }
  }

  lemma MoreDecisions(s: State, decisions: seq<Decided>, d: Decided)
    requires Decisive(s, decisions) && TicketIsRight(s, d)
    ensures Decisive(s, decisions + [d])
  {
    var b, more := s.backend, decisions + [d];
    forall i | HasSource(b.table, i, decisions) ensures HasSource(b.table, i, more) {
      var x :| x in decisions && PolledFrom(b.table, i, x);
      assert x in more;
    }
    forall row | HasDecision(row, decisions) ensures HasDecision(row, more) {
      var x :| x in decisions && RowOf(row, x);
      assert x in more;
    }
  }

  lemma DecidedIsRight(platform: Platform, s: State, step: Step)
    requires LedgerInv(platform, s) && step.Begin?
    ensures TicketIsRight(s, DecidedBy(s.backend, step))
  {
    FoundIsTarget(platform, s, step.event.masterTicket);
  }

  lemma BeginKeepsDecisive(platform: Platform, s: State, step: Step, decisions: seq<Decided>)
    requires LedgerInv(platform, s) && Permitted(platform, s, Act(step)) && step.Begin? && Decisive(s, decisions)
    ensures Decisive(After(platform, s, Act(step)), decisions + [DecidedBy(s.backend, step)])
  {
    var s', d := After(platform, s, Act(step)), DecidedBy(s.backend, step);
    var more := decisions + [d];
    DecidedIsRight(platform, s, step);
    MoreDecisions(s, decisions, d);
    StepProgresses(platform, s, Act(step));
    assert d in more;
    forall x | x in more ensures TicketIsRight(s', x) { TicketStaysRight(s, s', x); }
  }

  lemma CreateKeepsDecisive(platform: Platform, s: State, n: nat, id: string, decisions: seq<Decided>)
    requires LedgerInv(platform, s) && Permitted(platform, s, Act(Create(n, id))) && Decisive(s, decisions)
    ensures Decisive(After(platform, s, Act(Create(n, id))), decisions)
  {
    var c, s' := s.backend.calls[n], After(platform, s, Act(Create(n, id)));
    StepProgresses(platform, s, Act(Create(n, id)));
    if id in s'.backend.table.rows && c.decision.Admit? {
      assert RowOf(s'.backend.table.rows[id], Decided(c.event, c.decision, c.symbol));
    }
    StaysDecisive(s, s', decisions);
  }

  lemma OneOpening(platform: Platform, s: State, j: int, k: int, m: string)
    requires Inv(platform, s.backend) && OneOpenRow(s.backend.table) && Opening(s, j, m) && Opening(s, k, m)
    ensures j == k
  {
    var t, handed := s.backend.table, s.backend.handed;
    assert HandedIsSound(t, handed[j]) && HandedIsSound(t, handed[k]);
    assert IsOpenFor(t, handed[j].copyId, m) && IsOpenFor(t, handed[k].copyId, m);
  }

  /** A Master ticket with one OPEN has one target. */
  lemma OneTarget(platform: Platform, s: State, m: string, x: Option<string>, y: Option<string>)
    requires Inv(platform, s.backend) && OneOpenRow(s.backend.table) && HasTarget(s, m, x) && HasTarget(s, m, y)
    ensures x == y
  {
    var j :| Opening(s, j, m) && x == Some(s.outcomes[j].ticket);
    var k :| Opening(s, k, m) && y == Some(s.outcomes[k].ticket);
    OneOpening(platform, s, j, k, m);
  }

  /** What the poll rebuilds from a row, if anything, is the push of the decision it came from, numbers rounded. */
  lemma PollReadRebuilds(platform: Platform, s: State, symbols: map<string, string>, id: string, d: Decided)
    requires LedgerInv(platform, s) && OneOpenRow(s.backend.table) && TicketIsRight(s, d)
    requires id in s.backend.table.rows && RowOf(s.backend.table.rows[id], d)
    requires d.symbol == ResolveSymbol(symbols, d.event.symbol)
    ensures var i := PollInstruction(s.backend.table, symbols, id);
            && (i.Some? ==> i == Some(RoundedPush(id, d)))
            && (i.None? <==> d.event.action != Open
                             && forall x :: !Matches(s.backend.table.rows, x, OpenedFor(d.event.masterTicket)))
  {
    var found := FindExecutedOpenSlaveTicket(s.backend.table, d.event.masterTicket);
    FoundIsTarget(platform, s, d.event.masterTicket);
    if d.event.action != Open && found.Some? {
      OneTarget(platform, s, d.event.masterTicket, d.decision.slaveTicket, found);
    }
  }

  ghost predicate Resolved(decisions: seq<Decided>, symbols: map<string, string>) {
    forall d :: d in decisions ==> d.symbol == ResolveSymbol(symbols, d.event.symbol)
  }

  lemma PendingIsRebuilt(
      platform: Platform, s: State, symbols: map<string, string>, id: string, decisions: seq<Decided>)
    requires LedgerInv(platform, s) && OneOpenRow(s.backend.table) && Resolved(decisions, symbols)
    requires Decisive(s, decisions)
    requires id in s.backend.table.rows && s.backend.table.rows[id].status == Pending
    ensures var i := PollInstruction(s.backend.table, symbols, id);
            i.Some? ==> HasSource(s.backend.table, i.value, decisions)
  {
    assert HasDecision(s.backend.table.rows[id], decisions);
    var d :| d in decisions && RowOf(s.backend.table.rows[id], d);
    PollReadRebuilds(platform, s, symbols, id, d);
    assert PolledFrom(s.backend.table, RoundedPush(id, d), d);
  }

  lemma PollReadKeepsDecisive(s: State, p: nat, symbols: map<string, string>, decisions: seq<Decided>)
    requires LedgerInv(Mt4, s) && OneOpenRow(s.backend.table) && Resolved(decisions, symbols)
    requires Permitted(Mt4, s, Act(PollRead(p, symbols))) && Decisive(s, decisions)
    ensures Decisive(After(Mt4, s, Act(PollRead(p, symbols))), decisions)
  {
    var t, s' := s.backend.table, After(Mt4, s, Act(PollRead(p, symbols)));
    StepProgresses(Mt4, s, Act(PollRead(p, symbols)));
    OldestFinds(t.ids, t.rows, IsPending());
    var found := Oldest(t.ids, t.rows, IsPending());
    if found.Some? {
      PendingIsRebuilt(Mt4, s, symbols, found.value, decisions);
      assert s'.backend
             == s.backend.(polls := s.backend.polls[p := Poll(found.value, PollInstruction(t, symbols, found.value))]);
    }
    StaysDecisive(s, s', decisions);
  }

  lemma {:induction false} DecisionsResolve(
      platform: Platform, d: Discipline, es: seq<Event>, symbols: map<string, string>)
    requires Legal(platform, d, es) && OneSymbolMap(es, symbols)
    ensures Resolved(Decisions(platform, d, es), symbols)
  {
    if es != [] {
      var front, last := es[..|es| - 1], es[|es| - 1];
      assert last in es && forall e :: e in front ==> e in es;
      DecisionsResolve(platform, d, front, symbols);
    }
  }

  lemma DeliverKeepsDecisive(s: State, n: nat, link: Link, decisions: seq<Decided>)
    requires LedgerInv(Mt4, s) && Permitted(Mt4, s, Act(Deliver(n, link))) && Decisive(s, decisions)
    ensures Decisive(After(Mt4, s, Act(Deliver(n, link))), decisions)
  {
    StepProgresses(Mt4, s, Act(Deliver(n, link)));
    assert CallIsSound(Mt4, s.backend.table, s.backend.calls[n]);
    StaysDecisive(s, After(Mt4, s, Act(Deliver(n, link))), decisions);
  }

  lemma OtherKeepsDecisive(s: State, e: Event, decisions: seq<Decided>)
    requires LedgerInv(Mt4, s) && Permitted(Mt4, s, e) && Decisive(s, decisions)
    requires e.Execute? || e.Report? || (e.Act? && e.step.PollWrite?)
    ensures Decisive(After(Mt4, s, e), decisions)
  {
    StepProgresses(Mt4, s, e);
    StaysDecisive(s, After(Mt4, s, e), decisions);
  }

  ghost function Added(s: State, e: Event): seq<Decided> {
    if e.Act? && e.step.Begin? then [DecidedBy(s.backend, e.step)] else []
  }

  lemma StepKeepsDecisive(s: State, e: Event, symbols: map<string, string>, decisions: seq<Decided>)
    requires LedgerInv(Mt4, s) && OneOpenRow(s.backend.table) && Allowed(Mt4, SERIAL, s, e)
    requires OneSymbolMap([e], symbols) && Resolved(decisions, symbols) && Decisive(s, decisions)
    ensures Decisive(After(Mt4, s, e), decisions + Added(s, e))
  {
    assert e in [e];
    if e.Act? && e.step.Begin? {
      BeginKeepsDecisive(Mt4, s, e.step, decisions);
    } else {
      assert decisions + Added(s, e) == decisions;
      match e {
        case Act(Create(n, id)) => CreateKeepsDecisive(Mt4, s, n, id, decisions);
        case Act(PollRead(p, m)) => PollReadKeepsDecisive(s, p, m, decisions);
        case Act(Deliver(n, link)) => DeliverKeepsDecisive(s, n, link, decisions);
        case Act(PollWrite(_)) => OtherKeepsDecisive(s, e, decisions);
        case Report(_) => OtherKeepsDecisive(s, e, decisions);
        case Execute(_) => OtherKeepsDecisive(s, e, decisions);
      }
    }
  }

  lemma {:induction false} RunIsDecisive(d: Discipline, es: seq<Event>, symbols: map<string, string>)
    requires d.serial && Legal(Mt4, d, es) && OneOpenPerTicket(Begun(es)) && OneSymbolMap(es, symbols)
    ensures Decisive(Final(Mt4, d, es), Decisions(Mt4, d, es))
  {
    if es != [] {
      var front, last := es[..|es| - 1], es[|es| - 1];
      assert last in es && forall e :: e in front ==> e in es;
      assert forall e :: e in Begun(front) ==> e in Begun(es);
      RunIsDecisive(d, front, symbols);
      RunKeepsLedger(Mt4, d, front);
      RunIsSourced(Mt4, d, front);
      OneOpenRowEach(Final(Mt4, d, front).backend, Begun(front));
      DecisionsResolve(Mt4, d, front, symbols);
      StepKeepsDecisive(Final(Mt4, d, front), last, symbols, Decisions(Mt4, d, front));
      assert Decisions(Mt4, d, es) == Decisions(Mt4, d, front) + Added(Final(Mt4, d, front), last);
    }
  }

  predicate GridValue(x: Option<real>, scale: real) {
    x.None? || V.OnGrid(x.value, scale)
  }

  /** The numbers of a decision fit their columns. */
  predicate FitsColumns(d: Decided)
    requires d.decision.Admit?
  {
    && GridValue(d.decision.volume, VOLUME_SCALE)
    && GridValue(d.event.sl, PRICE_SCALE)
    && GridValue(d.event.tp, PRICE_SCALE)
  }

  lemma RoundingIffGrid(d: Decided)
    requires d.decision.Admit?
    ensures StoredVolume(d.decision.volume) == d.decision.volume <==> GridValue(d.decision.volume, VOLUME_SCALE)
    ensures StoredPrice(d.event.sl) == d.event.sl <==> GridValue(d.event.sl, PRICE_SCALE)
    ensures StoredPrice(d.event.tp) == d.event.tp <==> GridValue(d.event.tp, PRICE_SCALE)
  {
    if d.decision.volume.Some? { V.OnGridRounds(d.decision.volume.value, VOLUME_SCALE); }
    if d.event.sl.Some? { V.OnGridRounds(d.event.sl.value, PRICE_SCALE); }
    if d.event.tp.Some? { V.OnGridRounds(d.event.tp.value, PRICE_SCALE); }
  }

  /** The instruction is the one a push would have sent exactly when the decision's numbers fit their columns. */
  lemma PolledIsPushedIff(t: Table, i: Instruction, d: Decided)
    requires PolledFrom(t, i, d)
    ensures i == PushInstruction(i.copyId, d.event, d.decision, d.symbol) <==> FitsColumns(d)
  {
    RoundingIffGrid(d);
  }

  /**
   * Over every MT4 run with polls one at a time, one OPEN per Master ticket and one symbol map, whatever a poll hands
   * out comes from the decision of a dispatch of the row's own trade event, and is the very instruction the push path
   * would have sent for it exactly when volume, stop and target fit their columns.
   */
  lemma {:induction false} TransportsAgree(d: Discipline, es: seq<Event>, symbols: map<string, string>, i: Instruction)
    returns (source: Decided)
    requires d.serial && Legal(Mt4, d, es) && OneOpenPerTicket(Begun(es)) && OneSymbolMap(es, symbols)
    requires i in Final(Mt4, d, es).backend.handed
    ensures source in Decisions(Mt4, d, es) && PolledFrom(Final(Mt4, d, es).backend.table, i, source)
    ensures i == PushInstruction(i.copyId, source.event, source.decision, source.symbol) <==> FitsColumns(source)
  {
    RunIsDecisive(d, es, symbols);
    var t := Final(Mt4, d, es).backend.table;
    assert HasSource(t, i, Decisions(Mt4, d, es));
    source :| source in Decisions(Mt4, d, es) && PolledFrom(t, i, source);
    PolledIsPushedIff(t, i, source);
  }
}
