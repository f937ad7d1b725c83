/**
 * Runs made of whole copies, one after another: each is dispatched, handed out, filled and reported before the next
 * begins. An MT4 copy's dispatch is left waiting for the "online" answer it was given before the poll.
 */
module CopyRuns {
  import opened Common
  import opened ReconciliationEngine
  import opened CopyOrders
  import opened CopyProtocol
  import opened SlaveTerminal
  import opened SlaveRun

  ghost predicate Reaches(platform: Platform, d: Discipline, es: seq<Event>, s: State) {
    Legal(platform, d, es) && Final(platform, d, es) == s
  }

  lemma OneMore(platform: Platform, d: Discipline, es: seq<Event>, s: State, e: Event)
    requires Reaches(platform, d, es, s) && Allowed(platform, d, s, e)
    ensures Reaches(platform, d, es + [e], After(platform, s, e))
  {
    Extend(platform, d, es, e);
  }

  lemma TwoMore(platform: Platform, d: Discipline, es: seq<Event>, s: State, e: Event, f: Event, s': State)
    requires Reaches(platform, d, es, s) && Allowed(platform, d, s, e)
    requires Allowed(platform, d, After(platform, s, e), f)
    requires After(platform, After(platform, s, e), f) == s'
    ensures Reaches(platform, d, es + [e, f], s')
  {
    OneMore(platform, d, es, s, e);
    OneMore(platform, d, es + [e], After(platform, s, e), f);
    assert es + [e] + [f] == es + [e, f];
  }

  lemma {:induction false} BegunConcat(es: seq<Event>, fs: seq<Event>)
    ensures Begun(es + fs) == Begun(es) + Begun(fs)
  {
    if fs == [] {
      assert es + fs == es;
    } else {
      assert (es + fs)[..|es + fs| - 1] == es + fs[..|fs| - 1];
      BegunConcat(es, fs[..|fs| - 1]);
    }
  }

  /** One call, the Slave and the account it reads, its event, the id of its row and the ticket it is filled with. */
  datatype Copy = Copy(call: nat, slave: Slave, account: MasterAccount, event: TradeEvent, id: string, ticket: string)

  ghost function DecisionOn(s: State, c: Copy): Decision {
    Decide(c.slave, c.account, s.backend.table, c.event)
  }

  function SymbolOf(c: Copy): string { ResolveSymbol(c.slave.symbols, c.event.symbol) }

  /** The row once it is filled and reported. */
  ghost function FilledRowOf(s: State, c: Copy): CopyOrder {
    NewRow(c.event, DecisionOn(s, c)).(status := Executed, slaveTicket := Some(c.ticket))
  }

  ghost function PushOf(s: State, c: Copy): Instruction
    requires DecisionOn(s, c).Admit?
  {
    PushInstruction(c.id, c.event, DecisionOn(s, c), SymbolOf(c))
  }

  /** After dispatch: the row is there and the call waits to deliver. */
  ghost function Dispatched(s: State, c: Copy): State
    requires DecisionOn(s, c).Admit?
  {
    s.(backend := s.backend.(
      table := Insert(s.backend.table, c.id, NewRow(c.event, DecisionOn(s, c))),
      calls := s.backend.calls[c.call := Delivering(PushOf(s, c), c.slave.platform)]))
  }

  /** What the Slave is handed: the push, or what the poll rebuilds from the row. */
  ghost function HandedFor(s: State, c: Copy): Option<Instruction>
    requires DecisionOn(s, c).Admit?
  {
    if c.slave.platform == Mt5 then Some(PushOf(s, c))
    else PollInstruction(Dispatched(s, c).backend.table, c.slave.symbols, c.id)
  }

  /** A copy that passes the checks, its names new. */
  ghost predicate CanDispatch(s: State, c: Copy) {
    && c.call !in s.backend.calls && c.id !in s.backend.table.rows && IsTraceable(c.id)
    && !HasEvent(s.backend.table, c.event.eventId) && DecisionOn(s, c).Admit?
  }

  /** A copy that can be carried through from here: nothing waits. */
  ghost predicate Ready(s: State, c: Copy) {
    && CanDispatch(s, c)
    && s.backend.polls == map[] && |s.outcomes| == |s.backend.handed|
    && (forall id :: id in s.backend.table.ids && id in s.backend.table.rows ==>
          s.backend.table.rows[id].status != Pending)
    && c.id !in s.backend.table.ids && HandedFor(s, c).Some?
    && (c.event.action == Open ==> c.ticket != "" && Filled(c.ticket) !in s.outcomes)
    && (c.event.action != Open ==> HandedFor(s, c).value.slaveTicket == Some(c.ticket))
  }

  ghost function HandedOut(s: State, c: Copy): State
    requires DecisionOn(s, c).Admit? && HandedFor(s, c).Some?
  {
    var b := Dispatched(s, c).backend;
    s.(backend := b.(
      table := Mark(b.table, c.id, Sent, None), handed := b.handed + [HandedFor(s, c).value],
      calls := if c.slave.platform == Mt5 then b.calls - {c.call} else b.calls))
  }

  /** The state a carried copy leaves. */
  ghost function Carried(s: State, c: Copy): State
    requires DecisionOn(s, c).Admit? && HandedFor(s, c).Some?
  {
    var i := HandedFor(s, c).value;
    State(
      s.backend.(
        table := Insert(s.backend.table, c.id, FilledRowOf(s, c)), handed := s.backend.handed + [i],
        calls := if c.slave.platform == Mt5 then s.backend.calls
                 else s.backend.calls[c.call := Delivering(PushOf(s, c), Mt4)]),
      s.outcomes + [Filled(c.ticket)], s.reported + {|s.backend.handed|}, AfterExecution(s.book, i, Filled(c.ticket)))
  }

  function DispatchEvents(c: Copy): seq<Event> {
    [Act(Begin(c.call, c.slave, c.account, c.event)), Act(Create(c.call, c.id))]
  }

  function HandOverEvents(c: Copy): seq<Event> {
    if c.slave.platform == Mt5 then [Act(Deliver(c.call, Up))]
    else [Act(PollRead(0, c.slave.symbols)), Act(PollWrite(0))]
  }

  /** The events of a copy, the k-th to be handed out. */
  function CopyEvents(c: Copy, k: nat): seq<Event> {
    DispatchEvents(c) + HandOverEvents(c) + [Execute(Filled(c.ticket)), Report(k)]
  }

  // ---------------------------------------------------------------- each part of it

  lemma Dispatches(platform: Platform, d: Discipline, es: seq<Event>, s: State, c: Copy)
    requires Reaches(platform, d, es, s) && CanDispatch(s, c) && c.slave.platform == platform
    ensures Reaches(platform, d, es + DispatchEvents(c), Dispatched(s, c))
  {
    var e, f := Act(Begin(c.call, c.slave, c.account, c.event)), Act(Create(c.call, c.id));
    var begun := After(platform, s, e).backend;
    assert begun.calls[c.call] == Creating(c.event, DecisionOn(s, c), SymbolOf(c), platform);
    assert After(platform, After(platform, s, e), f).backend.calls == Dispatched(s, c).backend.calls;
    TwoMore(platform, d, es, s, e, f, Dispatched(s, c));
  }

  lemma {:induction false} NewIsOldest(ids: seq<string>, rows: map<string, CopyOrder>, id: string)
    requires forall x :: x in ids && x in rows ==> rows[x].status != Pending
    requires id in rows && rows[id].status == Pending
    ensures Oldest(ids + [id], rows, IsPending()) == Some(id)
  {
    if ids == [] {
      assert ids + [id] == [id];
    } else {
      assert (ids + [id])[1..] == ids[1..] + [id];
      NewIsOldest(ids[1..], rows, id);
    }
  }

  lemma Pushes(d: Discipline, es: seq<Event>, s: State, c: Copy)
    requires Ready(s, c) && c.slave.platform == Mt5 && Reaches(Mt5, d, es, Dispatched(s, c))
    ensures Reaches(Mt5, d, es + HandOverEvents(c), HandedOut(s, c))
  {
    OneMore(Mt5, d, es, Dispatched(s, c), Act(Deliver(c.call, Up)));
  }

  lemma Polls(d: Discipline, es: seq<Event>, s: State, c: Copy)
    requires Ready(s, c) && c.slave.platform == Mt4 && Reaches(Mt4, d, es, Dispatched(s, c))
    ensures Reaches(Mt4, d, es + HandOverEvents(c), HandedOut(s, c))
  {
    var s1 := Dispatched(s, c);
    var read := s1.(backend := s1.backend.(polls := map[0 := Poll(c.id, HandedFor(s, c))]));
    NewIsOldest(s.backend.table.ids, s1.backend.table.rows, c.id);
    assert After(Mt4, s1, Act(PollRead(0, c.slave.symbols))) == read;
    assert After(Mt4, read, Act(PollWrite(0))).backend.polls == map[];
    TwoMore(Mt4, d, es, s1, Act(PollRead(0, c.slave.symbols)), Act(PollWrite(0)), HandedOut(s, c));
  }

  /** The Slave has carried it out, nobody knows yet. */
  ghost function CarriedOut(s: State, c: Copy): State
    requires DecisionOn(s, c).Admit? && HandedFor(s, c).Some?
  {
    var i := HandedFor(s, c).value;
    HandedOut(s, c).(outcomes := s.outcomes + [Filled(c.ticket)],
                     book := AfterExecution(s.book, i, Filled(c.ticket)))
  }

  lemma Executes(platform: Platform, d: Discipline, es: seq<Event>, s: State, c: Copy)
    requires Ready(s, c) && c.slave.platform == platform && Reaches(platform, d, es, HandedOut(s, c))
    ensures Reaches(platform, d, es + [Execute(Filled(c.ticket))], CarriedOut(s, c))
  {
    OneMore(platform, d, es, HandedOut(s, c), Execute(Filled(c.ticket)));
  }

  lemma ReportFills(b: Backend, t: Table, row: CopyOrder, i: Instruction, ticket: string)
    requires b.table == Mark(Insert(t, i.copyId, row), i.copyId, Sent, None) && i.copyId !in t.rows
    ensures AfterRecord(b, ResultOf(i, Filled(ticket)))
         == b.(table := Insert(t, i.copyId, row.(status := Executed, slaveTicket := Some(ticket))))
  {
    var rows := t.rows[i.copyId := row.(status := Executed, slaveTicket := Some(ticket))];
    assert AfterRecord(b, ResultOf(i, Filled(ticket))).table.rows == rows;
  }

  lemma Reports(platform: Platform, d: Discipline, es: seq<Event>, s: State, c: Copy)
    requires Ready(s, c) && c.slave.platform == platform && Reaches(platform, d, es, CarriedOut(s, c))
    ensures Reaches(platform, d, es + [Report(|s.backend.handed|)], Carried(s, c))
  {
    var k, s3 := |s.backend.handed|, CarriedOut(s, c);
    ReportFills(s3.backend, s.backend.table, NewRow(c.event, DecisionOn(s, c)), HandedFor(s, c).value, c.ticket);
    assert s3.backend.calls == Carried(s, c).backend.calls;
    OneMore(platform, d, es, s3, Report(k));
  }

  /** A copy that can be carried through is. */
  lemma CopyIsCarried(platform: Platform, d: Discipline, es: seq<Event>, s: State, c: Copy)
    requires Reaches(platform, d, es, s) && Ready(s, c) && c.slave.platform == platform
    ensures Reaches(platform, d, es + CopyEvents(c, |s.backend.handed|), Carried(s, c))
  {
    var es1, es2 := es + DispatchEvents(c), es + DispatchEvents(c) + HandOverEvents(c);
    Dispatches(platform, d, es, s, c);
    if platform == Mt5 { Pushes(d, es1, s, c); } else { Polls(d, es1, s, c); }
    Executes(platform, d, es2, s, c);
    Reports(platform, d, es2 + [Execute(Filled(c.ticket))], s, c);
    assert es2 + [Execute(Filled(c.ticket))] + [Report(|s.backend.handed|)] == es + CopyEvents(c, |s.backend.handed|);
  }

  // ---------------------------------------------------------------- a first OPEN, and what follows it

  /** An OPEN that the checks let through while there is nothing yet. */
  ghost predicate FirstOpen(c: Copy) {
    && c.event.action == Open && IsTraceable(c.id) && c.ticket != ""
    && Decide(c.slave, c.account, START.table, c.event).Admit?
  }

  lemma FirstIsReady(c: Copy)
    requires FirstOpen(c)
    ensures Ready(IDLE, c)
  {}

  /** The one row, EXECUTED. */
  lemma FirstTable(c: Copy)
    requires FirstOpen(c)
    ensures var s := Carried(IDLE, c);
            && s.backend.table == Table([c.id], map[c.id := FilledRowOf(IDLE, c)])
            && FilledRowOf(IDLE, c).event == Persisted(c.event) && Done(FilledRowOf(IDLE, c), Open)
            && s.backend.handed == [HandedFor(IDLE, c).value] && s.outcomes == [Filled(c.ticket)] && s.reported == {0}
            && s.book == [OpenedPosition(HandedFor(IDLE, c).value, c.ticket)]
  {}

  /** Another row of its Master ticket, not an OPEN, leaves the lookup at the first one. */
  lemma FirstIsFound(c: Copy, ids: seq<string>, rows: map<string, CopyOrder>)
    requires FirstOpen(c) && |ids| == 2 && ids[0] == c.id && c.id in rows && rows[c.id] == FilledRowOf(IDLE, c)
    requires ids[1] in rows ==> rows[ids[1]].event.action != Open
    ensures FindExecutedOpenSlaveTicket(Table([c.id], map[c.id := rows[c.id]]), c.event.masterTicket) == Some(c.ticket)
    ensures FindExecutedOpenSlaveTicket(Table(ids, rows), c.event.masterTicket) == Some(c.ticket)
  {
    var p := OpenedFor(c.event.masterTicket);
    assert ids[..1] == [c.id];
    assert Latest([c.id], rows, p) == Some(c.id);
    assert Latest([c.id], map[c.id := rows[c.id]], p) == Some(c.id);
  }

  /** A MODIFY or CLOSE of the position that a first OPEN opened. */
  predicate FollowsUp(c: Copy, next: Copy) {
    && next.event.action != Open && next.event.masterTicket == c.event.masterTicket
    && next.event.eventId != c.event.eventId && next.call != c.call
    && next.id != c.id && IsTraceable(next.id) && next.ticket == c.ticket && next.slave.platform == c.slave.platform
  }

  lemma FollowUpIsReady(c: Copy, next: Copy)
    requires FirstOpen(c) && FollowsUp(c, next)
    ensures Ready(Carried(IDLE, c), next)
    ensures DecisionOn(Carried(IDLE, c), next) == Admit(next.event.volume, Some(c.ticket))
  {
    var s := Carried(IDLE, c);
    FirstTable(c);
    var row := NewRow(next.event, Admit(next.event.volume, Some(c.ticket)));
    var t := Insert(s.backend.table, next.id, row);
    assert t.ids == [c.id, next.id];
    FirstIsFound(c, t.ids, t.rows);
  }

  /** Both carried through. */
  lemma TwoCopies(d: Discipline, c: Copy, next: Copy)
    requires FirstOpen(c) && FollowsUp(c, next)
    ensures Ready(Carried(IDLE, c), next)
    ensures Reaches(c.slave.platform, d, CopyEvents(c, 0), Carried(IDLE, c))
    ensures Reaches(c.slave.platform, d, CopyEvents(c, 0) + CopyEvents(next, 1), Carried(Carried(IDLE, c), next))
  {
    FirstIsReady(c);
    FollowUpIsReady(c, next);
    assert [] + CopyEvents(c, 0) == CopyEvents(c, 0);
    CopyIsCarried(c.slave.platform, d, [], IDLE, c);
    CopyIsCarried(c.slave.platform, d, CopyEvents(c, 0), Carried(IDLE, c), next);
  }
}
