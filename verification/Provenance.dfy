/** Every instruction and every position goes back to a dispatch that was entitled to it. */
module Provenance {
  import opened Common
  import opened ReconciliationEngine
  import opened CopyOrders
  import opened CopyProtocol
  import opened CopyDecisions
  import opened SlaveTerminal
  import opened SlaveRun
  import opened AtMostOnce
  import opened Ledger
  import opened LedgerRuns
  import V = VolumeCalculator

  // ---------------------------------------------------------------- what a dispatch entitles the Slave to

  /** The name the Slave's broker has for a symbol: the mapped one, or the Master's own. */
  predicate IsMapped(symbols: map<string, string>, symbol: string, resolved: string) {
    && (symbol in symbols ==> resolved == symbols[symbol])
    && (symbol !in symbols ==> resolved == symbol)
  }

  /** A push sends a number as it is, a poll as its column gives it back. */
  predicate Conveys(platform: Platform, x: Option<real>, y: Option<real>, unit: real) {
    if platform == Mt5 then x == y else Near(x, y, unit)
  }

  /** The volume an admitted dispatch carries: for an OPEN the size, which only a Slave that may enter gets. */
  ghost predicate Entitles(step: Step, volume: Option<real>)
    requires step.Begin?
  {
    if step.event.action == Open then
      && MayEnter(step.slave, step.event.symbol) && volume.Some?
      && (V.OnGrid(step.slave.lotStep, VOLUME_SCALE) ==>
            IsSize(step.slave, step.account, step.event.volume, volume.value))
    else volume == step.event.volume
  }

  ghost predicate Owes(platform: Platform, symbols: map<string, string>, step: Step, i: Instruction)
    requires step.Begin?
  {
    && i.action == step.event.action && i.side == step.event.side
    && IsMapped(symbols, step.event.symbol, i.symbol)
    && Conveys(platform, step.event.sl, i.sl, HALF_PRICE_UNIT)
    && Conveys(platform, step.event.tp, i.tp, HALF_PRICE_UNIT)
    && (exists v :: Entitles(step, v) && Conveys(platform, v, i.volume, HALF_VOLUME_UNIT))
  }

  /** Some dispatch of the row's own trade event owes the Slave this instruction. */
  ghost predicate IsOwed(platform: Platform, symbols: map<string, string>, steps: seq<Step>, t: Table, i: Instruction) {
    i.copyId in t.rows
    && exists step ::
         && step in steps && step.Begin? && step.event.eventId == t.rows[i.copyId].event.eventId
         && Owes(platform, symbols, step, i)
  }

  // ---------------------------------------------------------------- what runs keep

  ghost predicate DecidedFor(symbols: map<string, string>, step: Step, e: TradeEvent, d: Decision, symbol: string) {
    && step.Begin? && step.event == e && IsMapped(symbols, e.symbol, symbol)
    && (d.Admit? ==> Entitles(step, d.volume))
  }

  ghost predicate CallIsOwed(platform: Platform, symbols: map<string, string>, steps: seq<Step>, t: Table, c: Call) {
    && c.platform == platform
    && match c
       case Creating(e, d, symbol, _) => exists step :: step in steps && DecidedFor(symbols, step, e, d, symbol)
       case Delivering(i, _) => platform == Mt5 ==> IsOwed(platform, symbols, steps, t, i)
  }

  ghost predicate StoresDispatch(row: CopyOrder, step: Step) {
    && step.Begin? && row.event == Persisted(step.event)
    && exists v :: Entitles(step, v) && row.requestedVolume == StoredVolume(v)
  }

  ghost predicate RowIsOwed(steps: seq<Step>, row: CopyOrder) {
    row.status == Pending ==> exists step :: step in steps && StoresDispatch(row, step)
  }

  ghost predicate AllOwed(platform: Platform, symbols: map<string, string>, steps: seq<Step>, b: Backend) {
    && (forall n :: n in b.calls ==> CallIsOwed(platform, symbols, steps, b.table, b.calls[n]))
    && (forall id :: id in b.table.rows ==> RowIsOwed(steps, b.table.rows[id]))
    && (forall p :: p in b.polls && b.polls[p].instruction.Some? ==>
          IsOwed(platform, symbols, steps, b.table, b.polls[p].instruction.value))
    && (forall i :: i in b.handed ==> IsOwed(platform, symbols, steps, b.table, i))
  }

  lemma OwedStays(platform: Platform, symbols: map<string, string>, steps: seq<Step>, more: seq<Step>, t: Table,
                  t': Table, i: Instruction)
    requires Grows(t, t') && IsOwed(platform, symbols, steps, t, i)
    ensures IsOwed(platform, symbols, steps + more, t', i)
  {
    var step :| step in steps && step.Begin? && step.event.eventId == t.rows[i.copyId].event.eventId
                && Owes(platform, symbols, step, i);
    assert step in steps + more;
  }

  lemma CallStaysOwed(platform: Platform, symbols: map<string, string>, steps: seq<Step>, more: seq<Step>, t: Table,
                      t': Table, c: Call)
    requires Grows(t, t') && CallIsOwed(platform, symbols, steps, t, c)
    ensures CallIsOwed(platform, symbols, steps + more, t', c)
  {
    match c
    case Creating(e, d, symbol, _) =>
      var step :| step in steps && DecidedFor(symbols, step, e, d, symbol);
      assert step in steps + more;
    case Delivering(i, _) => if platform == Mt5 { OwedStays(platform, symbols, steps, more, t, t', i); }
  }

  lemma RowStaysOwed(steps: seq<Step>, more: seq<Step>, row: CopyOrder, row': CopyOrder)
    requires RowIsOwed(steps, row) && row'.event == row.event && row'.requestedVolume == row.requestedVolume
    requires row'.status == Pending ==> row.status == Pending
    ensures RowIsOwed(steps + more, row')
  {
    if row'.status == Pending {
      var step :| step in steps && StoresDispatch(row, step);
      var v :| Entitles(step, v) && row.requestedVolume == StoredVolume(v);
      assert step in steps + more && StoresDispatch(row', step);
    }
  }

  /** What was there stays owed; only what the step adds is left to show. */
  lemma StaysOwed(platform: Platform, symbols: map<string, string>, steps: seq<Step>, more: seq<Step>, b: Backend,
                  b': Backend)
    requires AllOwed(platform, symbols, steps, b) && Grows(b.table, b'.table)
    requires forall n :: n in b'.calls ==>
               (n in b.calls && b'.calls[n] == b.calls[n])
               || CallIsOwed(platform, symbols, steps + more, b'.table, b'.calls[n])
    requires forall id :: id in b'.table.rows && id !in b.table.rows ==> RowIsOwed(steps + more, b'.table.rows[id])
    requires forall p :: p in b'.polls && b'.polls[p].instruction.Some? ==>
               (p in b.polls && b'.polls[p] == b.polls[p])
               || IsOwed(platform, symbols, steps, b.table, b'.polls[p].instruction.value)
    requires forall i :: i in b'.handed && i !in b.handed ==> IsOwed(platform, symbols, steps, b.table, i)
    ensures AllOwed(platform, symbols, steps + more, b')
  {
    forall n | n in b'.calls ensures CallIsOwed(platform, symbols, steps + more, b'.table, b'.calls[n]) {
      if n in b.calls && b'.calls[n] == b.calls[n] {
        CallStaysOwed(platform, symbols, steps, more, b.table, b'.table, b.calls[n]);
      }
    }
    forall id | id in b'.table.rows ensures RowIsOwed(steps + more, b'.table.rows[id]) {
      if id in b.table.rows { RowStaysOwed(steps, more, b.table.rows[id], b'.table.rows[id]); }
    }
    forall p | p in b'.polls && b'.polls[p].instruction.Some?
      ensures IsOwed(platform, symbols, steps + more, b'.table, b'.polls[p].instruction.value)
    {
      OwedStays(platform, symbols, steps, more, b.table, b'.table, b'.polls[p].instruction.value);
    }
    forall i | i in b'.handed ensures IsOwed(platform, symbols, steps + more, b'.table, i) {
      OwedStays(platform, symbols, steps, more, b.table, b'.table, i);
    }
  }

  // ---------------------------------------------------------------- every step keeps it

  /** An admitted decision entitles the Slave to its volume, whatever the table looked like. */
  lemma AdmissionEntitles(t: Table, step: Step)
    requires step.Begin?
    ensures var d := Decide(step.slave, step.account, t, step.event); d.Admit? ==> Entitles(step, d.volume)
  {
    var d := Decide(step.slave, step.account, t, step.event);
    if d.Admit? && step.event.action == Open && V.OnGrid(step.slave.lotStep, VOLUME_SCALE) {
      OpenIsAdmittedIff(step.slave, step.account, t, step.event, d.volume.value);
    }
  }

  lemma BeginKeepsOwed(platform: Platform, symbols: map<string, string>, steps: seq<Step>, b: Backend, step: Step)
    requires AllOwed(platform, symbols, steps, b) && step.Begin? && Enabled(b, step)
    requires step.slave.platform == platform && step.slave.symbols == symbols
    ensures AllOwed(platform, symbols, steps + [step], Next(b, step))
  {
    var b' := Next(b, step);
    AdmissionEntitles(b.table, step);
    assert DecidedFor(symbols, step, step.event, b'.calls[step.call].decision, b'.calls[step.call].symbol);
    assert step in steps + [step];
    StaysOwed(platform, symbols, steps, [step], b, b');
  }

  /** The row created for an admitted call, and the push it leads to. */
  lemma CreatedIsOwed(platform: Platform, symbols: map<string, string>, steps: seq<Step>, b: Backend, n: nat,
                      id: string)
    requires AllOwed(platform, symbols, steps, b) && Enabled(b, Create(n, id)) && b.calls[n].decision.Admit?
    requires !HasEvent(b.table, b.calls[n].event.eventId)
    ensures var b' := AfterCreate(b, n, id);
            RowIsOwed(steps, b'.table.rows[id]) && CallIsOwed(platform, symbols, steps, b'.table, b'.calls[n])
  {
    var c, b' := b.calls[n], AfterCreate(b, n, id);
    assert CallIsOwed(platform, symbols, steps, b.table, c);
    var step :| step in steps && DecidedFor(symbols, step, c.event, c.decision, c.symbol);
    assert StoresDispatch(b'.table.rows[id], step);
    if platform == Mt5 {
      var i := b'.calls[n].instruction;
      assert Conveys(Mt5, c.decision.volume, i.volume, HALF_VOLUME_UNIT);
      assert Owes(platform, symbols, step, i);
    }
  }

  lemma CreateKeepsOwed(platform: Platform, symbols: map<string, string>, steps: seq<Step>, b: Backend, n: nat,
                        id: string)
    requires AllOwed(platform, symbols, steps, b) && Enabled(b, Create(n, id))
    ensures AllOwed(platform, symbols, steps, AfterCreate(b, n, id))
  {
    var b' := AfterCreate(b, n, id);
    assert steps + [] == steps;
    if !HasEvent(b.table, b.calls[n].event.eventId) && b.calls[n].decision.Admit? {
      CreatedIsOwed(platform, symbols, steps, b, n, id);
    }
    StaysOwed(platform, symbols, steps, [], b, b');
  }

  lemma DeliverKeepsOwed(platform: Platform, symbols: map<string, string>, steps: seq<Step>, b: Backend, n: nat,
                         link: Link)
    requires AllOwed(platform, symbols, steps, b) && Enabled(b, Deliver(n, link))
    ensures AllOwed(platform, symbols, steps, AfterDeliver(b, n, link))
  {
    assert steps + [] == steps;
    assert CallIsOwed(platform, symbols, steps, b.table, b.calls[n]);
    StaysOwed(platform, symbols, steps, [], b, AfterDeliver(b, n, link));
  }

  /** What a poll builds from a waiting row. */
  lemma PolledIsOwed(symbols: map<string, string>, steps: seq<Step>, t: Table, id: string)
    requires id in t.rows && t.rows[id].status == Pending && RowIsOwed(steps, t.rows[id])
    requires PollInstruction(t, symbols, id).Some?
    ensures IsOwed(Mt4, symbols, steps, t, PollInstruction(t, symbols, id).value)
  {
    var i := PollInstruction(t, symbols, id).value;
    var step :| step in steps && StoresDispatch(t.rows[id], step);
    var v :| Entitles(step, v) && t.rows[id].requestedVolume == StoredVolume(v);
    PersistedIsNear(step.event, v);
    assert Conveys(Mt4, v, i.volume, HALF_VOLUME_UNIT);
    assert Owes(Mt4, symbols, step, i);
  }

  lemma PollReadKeepsOwed(symbols: map<string, string>, steps: seq<Step>, b: Backend, p: nat)
    requires AllOwed(Mt4, symbols, steps, b)
    ensures AllOwed(Mt4, symbols, steps, AfterPollRead(b, p, symbols))
  {
    assert steps + [] == steps;
    OldestFinds(b.table.ids, b.table.rows, IsPending());
    var found := Oldest(b.table.ids, b.table.rows, IsPending());
    if found.Some? && PollInstruction(b.table, symbols, found.value).Some? {
      PolledIsOwed(symbols, steps, b.table, found.value);
    }
    StaysOwed(Mt4, symbols, steps, [], b, AfterPollRead(b, p, symbols));
  }

  lemma PollWriteKeepsOwed(platform: Platform, symbols: map<string, string>, steps: seq<Step>, b: Backend, p: nat)
    requires AllOwed(platform, symbols, steps, b) && p in b.polls
    ensures AllOwed(platform, symbols, steps, AfterPollWrite(b, p))
  {
    assert steps + [] == steps;
    StaysOwed(platform, symbols, steps, [], b, AfterPollWrite(b, p));
  }

  lemma RecordKeepsOwed(platform: Platform, symbols: map<string, string>, steps: seq<Step>, b: Backend, r: Result)
    requires AllOwed(platform, symbols, steps, b)
    ensures AllOwed(platform, symbols, steps, AfterRecord(b, r))
  {
    assert steps + [] == steps;
    StaysOwed(platform, symbols, steps, [], b, AfterRecord(b, r));
  }

  lemma StepKeepsOwed(platform: Platform, symbols: map<string, string>, steps: seq<Step>, s: State, e: Event)
    requires AllOwed(platform, symbols, steps, s.backend) && Permitted(platform, s, e) && OneSymbolMap([e], symbols)
    ensures AllOwed(platform, symbols, steps + BegunSteps([e]), After(platform, s, e).backend)
  {
    assert e in [e] && [e][..0] == [];
    if e.Act? && e.step.Begin? {
      BeginKeepsOwed(platform, symbols, steps, s.backend, e.step);
      assert BegunSteps([e]) == [e.step];
    } else {
      assert steps + BegunSteps([e]) == steps;
      match e {
        case Act(Create(n, id)) => CreateKeepsOwed(platform, symbols, steps, s.backend, n, id);
        case Act(Deliver(n, link)) => DeliverKeepsOwed(platform, symbols, steps, s.backend, n, link);
        case Act(PollRead(p, _)) => PollReadKeepsOwed(symbols, steps, s.backend, p);
        case Act(PollWrite(p)) => PollWriteKeepsOwed(platform, symbols, steps, s.backend, p);
        case Execute(_) =>
        case Report(k) =>
          RecordKeepsOwed(platform, symbols, steps, s.backend, ResultOf(s.backend.handed[k], s.outcomes[k]));
      }
    }
  }

  lemma {:induction false} RunIsOwed(platform: Platform, d: Discipline, es: seq<Event>, symbols: map<string, string>)
    requires Legal(platform, d, es) && OneSymbolMap(es, symbols)
    ensures AllOwed(platform, symbols, BegunSteps(es), Final(platform, d, es).backend)
  {
    if es != [] {
      var front, last := es[..|es| - 1], es[|es| - 1];
      assert last in es && forall e :: e in front ==> e in es;
      RunIsOwed(platform, d, front, symbols);
      StepKeepsOwed(platform, symbols, BegunSteps(front), Final(platform, d, front), last);
      assert [last][..0] == [];
      assert BegunSteps(es) == BegunSteps(front) + BegunSteps([last]);
    }
  }

  // ---------------------------------------------------------------- the theorems

  /**
   * Over every run with one symbol map, overlapping polls included: every instruction handed out goes back to a
   * dispatch of its own trade event, has that event's action, side, stop and target, the symbol its broker knows, and
   * a volume the dispatch was entitled to: for an OPEN the size for a Slave that may enter, else the event's.
   */
  lemma InstructionsAreOwed(platform: Platform, d: Discipline, es: seq<Event>, symbols: map<string, string>,
                            i: Instruction)
    requires Legal(platform, d, es) && OneSymbolMap(es, symbols) && i in Final(platform, d, es).backend.handed
    ensures IsOwed(platform, symbols, BegunSteps(es), Final(platform, d, es).backend.table, i)
  {
    RunIsOwed(platform, d, es, symbols);
  }

  /** A position goes back to a dispatched OPEN: mapped symbol, entitled size. */
  ghost predicate PositionIsOwed(platform: Platform, symbols: map<string, string>, step: Step, p: Position) {
    && step.Begin? && step.event.action == Open
    && IsMapped(symbols, step.event.symbol, p.symbol)
    && exists v :: Entitles(step, Some(v)) && Conveys(platform, Some(v), Some(p.volume), HALF_VOLUME_UNIT)
  }

  lemma HeldIsOwed(platform: Platform, symbols: map<string, string>, step: Step, i: Instruction, p: Position)
    requires step.Begin? && Owes(platform, symbols, step, i) && i.action == Open
    requires p.symbol == i.symbol && p.volume == i.volume.GetOr(0.0)
    ensures PositionIsOwed(platform, symbols, step, p)
  {
    var v :| Entitles(step, v) && Conveys(platform, v, i.volume, HALF_VOLUME_UNIT);
    assert v == Some(v.value) && i.volume == Some(p.volume);
  }

  lemma {:induction false} HeldGoesBack(platform: Platform, d: Discipline, es: seq<Event>, p: Position)
    returns (i: Instruction)
    requires d.serial && Legal(platform, d, es) && p in Final(platform, d, es).book
    ensures i in Final(platform, d, es).backend.handed && i.action == Open
    ensures p.symbol == i.symbol && p.volume == i.volume.GetOr(0.0)
  {
    var s := Final(platform, d, es);
    RunKeepsLedger(platform, d, es);
    var k :| HeldFrom(s.backend.handed, s.outcomes, p, k);
    i := s.backend.handed[k];
  }

  lemma {:induction false} PositionsAreOwed(platform: Platform, d: Discipline, es: seq<Event>,
                                            symbols: map<string, string>, p: Position) returns (step: Step)
    requires d.serial && Legal(platform, d, es) && OneSymbolMap(es, symbols) && p in Final(platform, d, es).book
    ensures step in BegunSteps(es) && PositionIsOwed(platform, symbols, step, p)
  {
    var i := HeldGoesBack(platform, d, es, p);
    InstructionsAreOwed(platform, d, es, symbols, i);
    step :| step in BegunSteps(es) && step.Begin? && Owes(platform, symbols, step, i);
    HeldIsOwed(platform, symbols, step, i, p);
  }

  /** No dispatched OPEN finds a Slave that may enter. */
  ghost predicate NoneMayEnter(es: seq<Event>) {
    forall step :: step in BegunSteps(es) && step.event.action == Open ==> !MayEnter(step.slave, step.event.symbol)
  }

  /** A Slave that is stopped, or barred from the symbols traded, is handed no OPEN over any run, and ends flat. */
  lemma {:induction false} BarredSlaveStaysFlat(platform: Platform, d: Discipline, es: seq<Event>,
                                                symbols: map<string, string>)
    requires d.serial && Legal(platform, d, es) && OneSymbolMap(es, symbols) && NoneMayEnter(es)
    ensures forall i :: i in Final(platform, d, es).backend.handed ==> i.action != Open
    ensures Final(platform, d, es).book == []
  {
    forall i | i in Final(platform, d, es).backend.handed ensures i.action != Open {
      InstructionsAreOwed(platform, d, es, symbols, i);
    }
    if p :| p in Final(platform, d, es).book {
      var step := PositionsAreOwed(platform, d, es, symbols, p);
      assert false;
    }
    assert Final(platform, d, es).book == [] by {
      if Final(platform, d, es).book != [] { assert Final(platform, d, es).book[0] in Final(platform, d, es).book; }
    }
  }
}
