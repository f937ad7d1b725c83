/**
 * Whole runs of one Slave: the backend's steps, the connector carrying out what it was handed, first in first out,
 * and its results arriving in any order, any number of times.
 */
module SlaveRun {
  import opened Common
  import opened CopyOrders
  import opened CopyProtocol
  import opened SlaveTerminal

  /** outcomes[k] answers backend.handed[k]; `reported` holds the k whose result has arrived at least once. */
  datatype State = State(backend: Backend, outcomes: seq<Outcome>, reported: set<nat>, book: seq<Position>)

  datatype Event =
    | Act(step: Step)
    | Execute(outcome: Outcome)
    | Report(k: nat)

  const IDLE := State(START, [], {}, [])

  /** The broker gives every new position a ticket it never gave before. */
  predicate BrokerMay(s: State, o: Outcome)
    requires |s.outcomes| < |s.backend.handed|
  {
    var i := s.backend.handed[|s.outcomes|];
    o.Filled? ==>
      if i.action == Open then o.ticket != "" && o !in s.outcomes else i.slaveTicket == Some(o.ticket)
  }

  /** Results are produced by the connector, and only an MT4 Slave polls. */
  predicate Permitted(platform: Platform, s: State, e: Event) {
    match e
    case Act(step) =>
      && !step.Record? && Enabled(s.backend, step)
      && (step.Begin? ==> step.slave.platform == platform)
      && (step.PollRead? ==> platform == Mt4)
    case Execute(o) => |s.outcomes| < |s.backend.handed| && BrokerMay(s, o)
    case Report(k) => k < |s.outcomes| <= |s.backend.handed|
  }

  ghost function After(platform: Platform, s: State, e: Event): State
    requires Permitted(platform, s, e)
  {
    match e
    case Act(step) => s.(backend := Next(s.backend, step))
    case Execute(o) =>
      s.(outcomes := s.outcomes + [o], book := AfterExecution(s.book, s.backend.handed[|s.outcomes|], o))
    case Report(k) =>
      s.(backend := Next(s.backend, Record(ResultOf(s.backend.handed[k], s.outcomes[k]))), reported := s.reported + {k})
  }

  /** One poll at a time. */
  predicate Serial(s: State, e: Event) {
    e.Act? && e.step.PollRead? ==> s.backend.polls == map[]
  }

  /** No late "offline" verdict lands on a row whose execution has already been recorded. */
  predicate Timely(s: State, e: Event) {
    e.Act? && e.step.Deliver? && e.step.link == Offline && e.step.call in s.backend.calls
    && s.backend.calls[e.step.call].Delivering?
    ==>
      var id := s.backend.calls[e.step.call].instruction.copyId;
      id in s.backend.table.rows ==> s.backend.table.rows[id].status != Executed
  }

  /** What a run is assumed to keep to beyond being possible. */
  datatype Discipline = Discipline(serial: bool, timely: bool)

  const ANY := Discipline(false, false)
  const SERIAL := Discipline(true, false)
  const ORDERLY := Discipline(true, true)

  predicate Allowed(platform: Platform, d: Discipline, s: State, e: Event) {
    Permitted(platform, s, e) && (d.serial ==> Serial(s, e)) && (d.timely ==> Timely(s, e))
  }

  ghost predicate Legal(platform: Platform, d: Discipline, es: seq<Event>)
    decreases |es|, 0
  {
    es == []
    || (Legal(platform, d, es[..|es| - 1]) && Allowed(platform, d, Final(platform, d, es[..|es| - 1]), es[|es| - 1]))
  }

  /** The state a run ends in. */
  ghost function Final(platform: Platform, d: Discipline, es: seq<Event>): State
    requires Legal(platform, d, es)
    decreases |es|, 1
  {
    if es == [] then IDLE else After(platform, Final(platform, d, es[..|es| - 1]), es[|es| - 1])
  }

  /** The trade events dispatched to this Slave over a run, repeated deliveries included. */
  function Begun(es: seq<Event>): seq<TradeEvent> {
    if es == [] then []
    else
      var e := es[|es| - 1];
      Begun(es[..|es| - 1]) + if e.Act? && e.step.Begin? then [e.step.event] else []
  }

  /** The dispatches themselves, with the Slave and the account each of them read. */
  function BegunSteps(es: seq<Event>): (steps: seq<Step>)
    ensures forall step :: step in steps ==> step.Begin? && Act(step) in es
  {
    if es == [] then []
    else
      var e := es[|es| - 1];
      BegunSteps(es[..|es| - 1]) + if e.Act? && e.step.Begin? then [e.step] else []
  }

  /** Every dispatch and every poll of the run resolves symbols with this mapping. */
  ghost predicate OneSymbolMap(es: seq<Event>, symbols: map<string, string>) {
    forall e :: e in es && e.Act? ==>
      && (e.step.Begin? ==> e.step.slave.symbols == symbols)
      && (e.step.PollRead? ==> e.step.symbols == symbols)
  }

  // ---------------------------------------------------------------- what last wrote a row

  /** The event writes this row of copy_orders. */
  predicate Writes(s: State, e: Event, id: string) {
    match e
    case Act(Create(n, copyId)) =>
      copyId == id && n in s.backend.calls && s.backend.calls[n].Creating?
      && !HasEvent(s.backend.table, s.backend.calls[n].event.eventId)
    case Act(Deliver(n, link)) =>
      n in s.backend.calls && s.backend.calls[n].Delivering? && s.backend.calls[n].instruction.copyId == id
      && (link == Offline || s.backend.calls[n].platform == Mt5)
    case Act(PollWrite(p)) => p in s.backend.polls && s.backend.polls[p].copyId == id
    case Report(k) => k < |s.backend.handed| && s.backend.handed[k].copyId == id
    case _ => false
  }

  /** The last event of a run that wrote the row. */
  ghost function LastWrite(platform: Platform, d: Discipline, es: seq<Event>, id: string): Option<Event>
    requires Legal(platform, d, es)
  {
    if es == [] then None
    else
      var front, last := es[..|es| - 1], es[|es| - 1];
      if Writes(Final(platform, d, front), last, id) then Some(last) else LastWrite(platform, d, front, id)
  }

  predicate IsReport(e: Option<Event>) { e.Some? && e.value.Report? }

  predicate IsVerdict(e: Option<Event>) {
    e.Some? && e.value.Act? && e.value.step.Deliver? && e.value.step.link == Offline
  }

  lemma Extend(platform: Platform, d: Discipline, es: seq<Event>, e: Event)
    requires Legal(platform, d, es) && Allowed(platform, d, Final(platform, d, es), e)
    ensures Legal(platform, d, es + [e]) && Final(platform, d, es + [e]) == After(platform, Final(platform, d, es), e)
  {
    assert (es + [e])[..|es + [e]| - 1] == es;
  }
}
