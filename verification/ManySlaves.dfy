/**
 * All Slaves at once, their terminals included: what one Slave sees of any interleaving of everybody's events is a run
 * of its own, so that whatever holds over the runs of one Slave holds of every Slave in the fan-out.
 */
module ManySlaves {
  import opened Common
  import opened ReconciliationEngine
  import opened ReconciliationTheorems
  import opened CopyOrders
  import opened CopyProtocol
  import opened SlaveTerminal
  import opened SlaveRun
  import opened AtMostOnce
  import opened Agreement
  import opened CopyTable
  import opened FanOut

  /** What is on the Slave's side: its answers, those that have arrived, and its book. */
  datatype Terminal = Terminal(outcomes: seq<Outcome>, reported: set<nat>, book: seq<Position>)

  datatype World = World(engine: Engine, terminals: map<string, Terminal>)

  /** An event of one Slave's run. */
  datatype Happening = Happening(slaveId: string, event: Event)

  function TerminalOf(w: World, slaveId: string): Terminal {
    if slaveId in w.terminals then w.terminals[slaveId] else Terminal([], {}, [])
  }

  /** What one Slave sees. */
  ghost function StateOf(w: World, slaveId: string): State {
    var e := TerminalOf(w, slaveId);
    State(ViewOf(w.engine, slaveId), e.outcomes, e.reported, e.book)
  }

  /** The backend's part of an event. */
  ghost function StepOf(s: State, e: Event): Option<Step>
    requires e.Report? ==> e.k < |s.backend.handed| && e.k < |s.outcomes|
  {
    match e
    case Act(step) => Some(step)
    case Execute(_) => None
    case Report(k) => Some(Record(ResultOf(s.backend.handed[k], s.outcomes[k])))
  }

  /** The Slave's part of an event. */
  ghost function TerminalAfter(s: State, e: Event): Terminal
    requires e.Execute? ==> |s.outcomes| < |s.backend.handed|
  {
    match e
    case Act(_) => Terminal(s.outcomes, s.reported, s.book)
    case Execute(o) =>
      Terminal(s.outcomes + [o], s.reported, AfterExecution(s.book, s.backend.handed[|s.outcomes|], o))
    case Report(k) => Terminal(s.outcomes, s.reported + {k}, s.book)
  }

  ghost predicate MayHappen(platforms: string -> Platform, d: Discipline, w: World, h: Happening) {
    Allowed(platforms(h.slaveId), d, StateOf(w, h.slaveId), h.event)
  }

  ghost function AfterHappening(platforms: string -> Platform, d: Discipline, w: World, h: Happening): World
    requires MayHappen(platforms, d, w, h)
  {
    var s := StateOf(w, h.slaveId);
    var step := StepOf(s, h.event);
    World(if step.Some? then StepIn(w.engine, Tagged(h.slaveId, step.value)) else w.engine,
          w.terminals[h.slaveId := TerminalAfter(s, h.event)])
  }

  ghost predicate LegalWorld(platforms: string -> Platform, d: Discipline, hs: seq<Happening>)
    decreases |hs|, 0
  {
    hs == []
    || (LegalWorld(platforms, d, hs[..|hs| - 1])
        && MayHappen(platforms, d, FinalWorld(platforms, d, hs[..|hs| - 1]), hs[|hs| - 1]))
  }

  ghost function FinalWorld(platforms: string -> Platform, d: Discipline, hs: seq<Happening>): World
    requires LegalWorld(platforms, d, hs)
    decreases |hs|, 1
  {
    if hs == [] then World(EMPTY, map[])
    else AfterHappening(platforms, d, FinalWorld(platforms, d, hs[..|hs| - 1]), hs[|hs| - 1])
  }

  /** One Slave's events, in order. */
  function EventsOf(hs: seq<Happening>, slaveId: string): seq<Event> {
    if hs == [] then []
    else
      EventsOf(hs[..|hs| - 1], slaveId) + if hs[|hs| - 1].slaveId == slaveId then [hs[|hs| - 1].event] else []
  }

  /** Row ids are unique: each belongs to one Slave. */
  predicate IdIsApart(owner: string -> string, h: Happening) {
    h.event.Act? && h.event.step.Create? ==> owner(h.event.step.copyId) == h.slaveId
  }

  ghost predicate InStep(owner: string -> string, w: World) {
    Consistent(w.engine) && RowsApart(owner, w.engine)
  }

  /** An event does to its own Slave what it does in a run of that Slave alone, and to every other nothing. */
  lemma HappeningIsLocal(owner: string -> string, platforms: string -> Platform, d: Discipline, w: World, h: Happening,
                         t: string)
    requires InStep(owner, w) && IdIsApart(owner, h) && MayHappen(platforms, d, w, h)
    ensures InStep(owner, AfterHappening(platforms, d, w, h))
    ensures StateOf(AfterHappening(platforms, d, w, h), t)
         == if t == h.slaveId then After(platforms(t), StateOf(w, t), h.event) else StateOf(w, t)
  {
    var step := StepOf(StateOf(w, h.slaveId), h.event);
    if step.Some? {
      StepIsLocal(owner, w.engine, Tagged(h.slaveId, step.value), t);
      StepStaysApart(owner, w.engine, Tagged(h.slaveId, step.value));
    }
  }

  lemma {:induction false} WorldStaysInStep(owner: string -> string, platforms: string -> Platform, d: Discipline,
                                            hs: seq<Happening>)
    requires LegalWorld(platforms, d, hs) && forall h :: h in hs ==> IdIsApart(owner, h)
    ensures InStep(owner, FinalWorld(platforms, d, hs))
  {
    if hs != [] {
      var front, last := hs[..|hs| - 1], hs[|hs| - 1];
      assert last in hs && forall h :: h in front ==> h in hs;
      WorldStaysInStep(owner, platforms, d, front);
      HappeningIsLocal(owner, platforms, d, FinalWorld(platforms, d, front), last, last.slaveId);
    }
  }

  lemma NothingHappened(platforms: string -> Platform, d: Discipline, t: string)
    ensures StateOf(FinalWorld(platforms, d, []), t) == IDLE
  {}

  ghost predicate SeesRun(platform: Platform, d: Discipline, es: seq<Event>, s: State) {
    Legal(platform, d, es) && Final(platform, d, es) == s
  }

  lemma SeesOneMore(platform: Platform, d: Discipline, es: seq<Event>, s: State, e: Event, more: seq<Event>)
    requires SeesRun(platform, d, es, s) && Allowed(platform, d, s, e) && more == es + [e]
    ensures SeesRun(platform, d, more, After(platform, s, e))
  {
    Extend(platform, d, es, e);
  }

  lemma EventsOfLast(hs: seq<Happening>, t: string)
    requires hs != []
    ensures EventsOf(hs, t) ==
            EventsOf(hs[..|hs| - 1], t) + if hs[|hs| - 1].slaveId == t then [hs[|hs| - 1].event] else []
    ensures hs[|hs| - 1].slaveId != t ==> EventsOf(hs, t) == EventsOf(hs[..|hs| - 1], t)
  {}

  /**
   * Whatever interleaves with them, one Slave's events are a run of its own, and what it sees is where that run ends.
   */
  lemma {:induction false} SlaveSeesItsRun(owner: string -> string, platforms: string -> Platform, d: Discipline,
                                           hs: seq<Happening>, t: string)
    requires LegalWorld(platforms, d, hs) && forall h :: h in hs ==> IdIsApart(owner, h)
    ensures SeesRun(platforms(t), d, EventsOf(hs, t), StateOf(FinalWorld(platforms, d, hs), t))
  {
    if hs == [] {
      NothingHappened(platforms, d, t);
    } else {
      var front, last := hs[..|hs| - 1], hs[|hs| - 1];
      assert last in hs && forall h :: h in front ==> h in hs;
      SlaveSeesItsRun(owner, platforms, d, front, t);
      WorldStaysInStep(owner, platforms, d, front);
      HappeningIsLocal(owner, platforms, d, FinalWorld(platforms, d, front), last, t);
      EventsOfLast(hs, t);
      if last.slaveId == t {
        SeesOneMore(platforms(t), d, EventsOf(front, t), StateOf(FinalWorld(platforms, d, front), t), last.event,
                    EventsOf(hs, t));
      }
    }
  }

  /** In particular: for every Slave of the fan-out, its books match exactly if no late verdict on its rows matters. */
  lemma EverySlaveAgreesIff(owner: string -> string, platforms: string -> Platform, d: Discipline, hs: seq<Happening>,
                            t: string, masterPositions: seq<MasterPosition>, volumeTolerance: Option<real>,
                            priceTolerance: Option<real>)
    requires d.serial && LegalWorld(platforms, d, hs) && forall h :: h in hs ==> IdIsApart(owner, h)
    requires OneOpenPerTicket(Begun(EventsOf(hs, t))) && AllReported(StateOf(FinalWorld(platforms, d, hs), t))
    requires volumeTolerance.GetOr(DEFAULT_VOLUME_TOLERANCE) >= HALF_VOLUME_UNIT
    ensures Legal(platforms(t), d, EventsOf(hs, t))
    ensures var s := StateOf(FinalWorld(platforms, d, hs), t);
            BooksMatch(
              Compared(platforms(t), s.backend.table, s.book, masterPositions, volumeTolerance, priceTolerance))
            <==> NoVerdictMatters(platforms(t), d, EventsOf(hs, t))
  {
    SlaveSeesItsRun(owner, platforms, d, hs, t);
    SystemAgreesIff(platforms(t), d, EventsOf(hs, t), masterPositions, volumeTolerance, priceTolerance);
  }
}
