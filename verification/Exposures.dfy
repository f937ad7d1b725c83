/**
 * What a Slave's limits are up against: the copies that are open, the OPENs in flight and the copies that late verdicts
 * have put in doubt, weighed by count or by volume; and that only admissions and late verdicts add to them.
 */
module Exposures {
  import opened Common
  import opened ReconciliationEngine
  import opened ReconciliationTheorems
  import opened CopyOrders
  import opened CopyProtocol
  import opened SlaveTerminal
  import opened SlaveRun
  import opened AtMostOnce
  import opened Ledger
  import opened LedgerRuns
  import opened Agreement

  // ---------------------------------------------------------------- what is open, what is in flight

  ghost function OpenRows(t: Table): set<string> {
    set id | id in t.rows && IsOpenRow(t, id)
  }

  predicate Polled(b: Backend, id: string) {
    exists p :: p in b.polls && b.polls[p].copyId == id
  }

  predicate Unreported(s: State, k: int, id: string) {
    0 <= k < |s.backend.handed| && s.backend.handed[k].copyId == id && k !in s.reported
  }

  /** An OPEN waiting to be handed out, read by a poll, or handed out with no result yet. */
  ghost predicate InFlight(s: State, id: string) {
    && id in s.backend.table.rows && s.backend.table.rows[id].event.action == Open
    && (s.backend.table.rows[id].status == Pending || Polled(s.backend, id) || exists k :: Unreported(s, k, id))
  }

  ghost function InFlightRows(s: State): set<string> {
    set id | id in s.backend.table.rows && InFlight(s, id)
  }

  /** An OPEN past its checks, its row not yet created. */
  predicate IsAdmitted(c: Call) {
    c.Creating? && c.decision.Admit? && c.event.action == Open
  }

  ghost function AdmittedCalls(b: Backend): set<nat> {
    set n | n in b.calls && IsAdmitted(b.calls[n])
  }

  ghost function InFlightCount(s: State): nat {
    |InFlightRows(s)| + |AdmittedCalls(s.backend)|
  }

  ghost function FilledOpens(s: State): set<string> {
    set id | id in s.backend.table.rows && s.backend.table.rows[id].event.action == Open && WasFilled(s, id)
  }

  /** OPENs that were filled and whose rows say otherwise: a replayed result brings them back. */
  ghost function LostOpens(s: State): set<string> {
    set id | id in FilledOpens(s) && s.backend.table.rows[id].status != Executed
  }

  /** The copies that a verdict on an EXECUTED row takes out of the open list or puts back into it. */
  ghost function AtStake(s: State, e: Event): set<string> {
    if e.Act? && e.step.Deliver? && e.step.link == Offline && e.step.call in s.backend.calls
       && s.backend.calls[e.step.call].Delivering?
    then StakeOf(s.backend.table, s.backend.calls[e.step.call].instruction.copyId)
    else {}
  }

  ghost function StakeOf(t: Table, id: string): set<string> {
    if id !in t.rows || t.rows[id].status != Executed then {}
    else
      match t.rows[id].event.action
      case Open => {id}
      case Close => set x | x in t.rows && Matches(t.rows, x, OpenedFor(t.rows[id].event.masterTicket))
      case Modify => {}
  }

  // ---------------------------------------------------------------- weighing them

  /** What a row or call counts for, by its stored volume: one each, or the volume. */
  type Weight = Option<real> -> real

  ghost function RowWeight(t: Table, w: Weight): string -> real {
    (id: string) => if id in t.rows then w(t.rows[id].requestedVolume) else 0.0
  }

  ghost function CallWeight(b: Backend, w: Weight): nat -> real {
    (n: nat) => if n in b.calls && IsAdmitted(b.calls[n]) then w(StoredVolume(b.calls[n].decision.volume)) else 0.0
  }

  /** Every copy that is open, on its way, or can come back. */
  ghost function Exposed(s: State): set<string> { OpenRows(s.backend.table) + InFlightRows(s) + LostOpens(s) }

  ghost function RowExposure(s: State, w: Weight): real {
    SumOver(Exposed(s), RowWeight(s.backend.table, w))
  }

  ghost function CallExposure(b: Backend, w: Weight): real { SumOver(AdmittedCalls(b), CallWeight(b, w)) }

  /** Every OPEN that was ever let through. */
  ghost function Weighed(s: State): set<string> { InFlightRows(s) + FilledOpens(s) }

  lemma ExposedIsWeighed(s: State)
    requires Ticketed(s)
    ensures Exposed(s) <= Weighed(s)
  {}

  ghost predicate Light(s: State, w: Weight, m: real) {
    && (forall id :: id in Weighed(s) ==> 0.0 <= RowWeight(s.backend.table, w)(id) <= m)
    && (forall n :: n in AdmittedCalls(s.backend) ==> 0.0 <= CallWeight(s.backend, w)(n) <= m)
  }

  /** What the checks guarantee of an OPEN they admit. */
  ghost predicate AdmitsWithin(t: Table, step: Step, w: Weight, limit: real, m: real)
    requires step.Begin?
  {
    var d := Decide(step.slave, step.account, t, step.event);
    step.event.action == Open && d.Admit? ==>
      && 0.0 <= w(StoredVolume(d.volume)) <= m
      && SumOver(OpenRows(t), RowWeight(t, w)) + w(StoredVolume(d.volume)) <= limit
  }

  // ---------------------------------------------------------------- exposure only grows by admissions and verdicts

  predicate SameVolume(t: Table, t': Table, id: string) {
    id in t.rows && id in t'.rows && t'.rows[id].requestedVolume == t.rows[id].requestedVolume
  }

  /** Nothing joins but what is at stake. */
  ghost predicate JoinsOnly(s: State, s': State, stake: set<string>) {
    && Exposed(s') <= Exposed(s) + stake && LostOpens(s') <= LostOpens(s) + stake
    && Weighed(s') <= Weighed(s) && stake <= Weighed(s)
  }

  ghost predicate SameVolumes(s: State, s': State) {
    forall id :: id in Weighed(s) ==> SameVolume(s.backend.table, s'.backend.table, id)
  }

  ghost predicate SameCalls(b: Backend, b': Backend) {
    AdmittedCalls(b') == AdmittedCalls(b) && forall n :: n in AdmittedCalls(b) ==> b'.calls[n] == b.calls[n]
  }

  /** Between dispatches: nothing joins but what is at stake, and what is carried weighs the same. */
  ghost predicate Moves(s: State, s': State, stake: set<string>) {
    JoinsOnly(s, s', stake) && SameVolumes(s, s') && SameCalls(s.backend, s'.backend)
  }

  lemma GrowingKeepsVolumes(s: State, s': State)
    requires Grows(s.backend.table, s'.backend.table)
    ensures SameVolumes(s, s')
  {}

  /** EXECUTED rows stay EXECUTED. */
  ghost predicate KeepsExecuted(t: Table, t': Table) {
    forall id :: id in t.rows && t.rows[id].status == Executed ==>
      id in t'.rows && t'.rows[id].status == Executed && t'.rows[id].event == t.rows[id].event
  }

  lemma ClosedTicketsGrow(t: Table, t': Table)
    requires KeepsExecuted(t, t')
    ensures ClosedTickets(t) <= ClosedTickets(t')
  {
    forall m | m in ClosedTickets(t) ensures m in ClosedTickets(t') {
      var c :| c in t.rows && Done(t.rows[c], Close) && t.rows[c].event.masterTicket == m;
      assert Done(t'.rows[c], Close);
    }
  }

  lemma OpenRowsShrink(t: Table, t': Table)
    requires KeepsExecuted(t, t') && NoneNewlyExecuted(t, t')
    ensures OpenRows(t') <= OpenRows(t)
  {
    ClosedTicketsGrow(t, t');
  }

  /** The verdict on an EXECUTED row: what it reopens was at stake. */
  lemma VerdictReopens(t: Table, id: string)
    requires id in t.rows && t.rows[id].status == Executed
    ensures OpenRows(Mark(t, id, Failed, Some("SLAVE_OFFLINE"))) <= OpenRows(t) + StakeOf(t, id)
  {
    var t' := Mark(t, id, Failed, Some("SLAVE_OFFLINE"));
    forall x | x in OpenRows(t') && x !in OpenRows(t) ensures x in StakeOf(t, id) {
      var m := t.rows[x].event.masterTicket;
      var c :| c in t.rows && Done(t.rows[c], Close) && t.rows[c].event.masterTicket == m;
      assert Done(t'.rows[c], Close) <==> c != id;
      assert Matches(t.rows, x, OpenedFor(m));
    }
  }

  lemma StakeIsWeighed(platform: Platform, s: State, id: string)
    requires Ticketed(s)
    ensures StakeOf(s.backend.table, id) <= FilledOpens(s)
  {}

  predicate Waiting(s: State, id: string) {
    id in s.backend.table.rows && (s.backend.table.rows[id].status == Pending || Polled(s.backend, id))
  }

  /** Taking a row up, handing it out or failing it concerns only rows already waiting. */
  ghost predicate OnlyWaiting(s: State, s': State) {
    && Grows(s.backend.table, s'.backend.table) && s'.backend.table.rows.Keys == s.backend.table.rows.Keys
    && (forall id :: Polled(s'.backend, id) ==> Waiting(s, id))
    && (forall k, id :: Unreported(s', k, id) ==>
      id in s.backend.table.rows && (Waiting(s, id) || Unreported(s, k, id)))
  }

  lemma WaitingOnlyShrinks(s: State, s': State)
    requires OnlyWaiting(s, s')
    ensures InFlightRows(s') <= InFlightRows(s)
  {
    forall id | InFlight(s', id) ensures InFlight(s, id) {
      if s'.backend.table.rows[id].status != Pending && !Polled(s'.backend, id) {
        var k :| Unreported(s', k, id);
        assert Waiting(s, id) || Unreported(s, k, id);
      }
    }
  }

  lemma MarkOnlyWaiting(platform: Platform, s: State, s': State, id: string, status: Status, reason: Option<string>)
    requires Inv(platform, s.backend) && status != Pending
    requires s'.backend.table == Mark(s.backend.table, id, status, reason) && s'.reported == s.reported
    requires forall p :: p in s'.backend.polls ==> p in s.backend.polls && s'.backend.polls[p] == s.backend.polls[p]
    requires s.backend.handed <= s'.backend.handed
    requires forall k :: |s.backend.handed| <= k < |s'.backend.handed| ==> Waiting(s, s'.backend.handed[k].copyId)
    ensures OnlyWaiting(s, s')
  {
    MarkGrows(s.backend.table, id, status, reason);
    forall x | Polled(s'.backend, x) ensures Waiting(s, x) {
      var p :| p in s'.backend.polls && s'.backend.polls[p].copyId == x;
      assert PollIsSound(s.backend.table, s.backend.polls[p]);
    }
    forall k, x | Unreported(s', k, x) ensures x in s.backend.table.rows && (Waiting(s, x) || Unreported(s, k, x)) {
      if k < |s.backend.handed| { assert HandedIsSound(s.backend.table, s.backend.handed[k]); }
    }
  }

  lemma DeliverOnlyWaiting(platform: Platform, s: State, n: nat, link: Link)
    requires Inv(platform, s.backend) && Permitted(platform, s, Act(Deliver(n, link)))
    ensures OnlyWaiting(s, s.(backend := AfterDeliver(s.backend, n, link)))
  {
    var s', c := s.(backend := AfterDeliver(s.backend, n, link)), s.backend.calls[n];
    assert CallIsSound(platform, s.backend.table, c);
    if link == Offline {
      MarkOnlyWaiting(platform, s, s', c.instruction.copyId, Failed, Some("SLAVE_OFFLINE"));
    } else if platform == Mt5 {
      if link == Broken {
        MarkOnlyWaiting(platform, s, s', c.instruction.copyId, Failed, Some("SEND_FAILED"));
      } else {
        MarkOnlyWaiting(platform, s, s', c.instruction.copyId, Sent, None);
      }
    } else {
      PollsOnly(platform, s, s');
    }
  }

  lemma PollsOnly(platform: Platform, s: State, s': State)
    requires Inv(platform, s.backend) && s'.reported == s.reported
    requires s'.backend.table == s.backend.table && s'.backend.handed == s.backend.handed
    requires forall p :: p in s'.backend.polls ==> Waiting(s, s'.backend.polls[p].copyId)
    ensures OnlyWaiting(s, s')
  {
    forall k, x | Unreported(s', k, x) ensures x in s.backend.table.rows && Unreported(s, k, x) {
      assert HandedIsSound(s.backend.table, s.backend.handed[k]);
    }
  }

  lemma PollReadOnlyWaiting(platform: Platform, s: State, p: nat, symbols: map<string, string>)
    requires Inv(platform, s.backend)
    ensures OnlyWaiting(s, s.(backend := AfterPollRead(s.backend, p, symbols)))
  {
    var s' := s.(backend := AfterPollRead(s.backend, p, symbols));
    OldestFinds(s.backend.table.ids, s.backend.table.rows, IsPending());
    forall q | q in s'.backend.polls ensures Waiting(s, s'.backend.polls[q].copyId) {
      if q in s.backend.polls && s'.backend.polls[q] == s.backend.polls[q] {
        assert PollIsSound(s.backend.table, s.backend.polls[q]);
      }
    }
    PollsOnly(platform, s, s');
  }

  lemma PollWriteOnlyWaiting(platform: Platform, s: State, p: nat)
    requires Inv(platform, s.backend) && p in s.backend.polls
    ensures OnlyWaiting(s, s.(backend := AfterPollWrite(s.backend, p)))
  {
    var s' := s.(backend := AfterPollWrite(s.backend, p));
    assert PollIsSound(s.backend.table, s.backend.polls[p]);
    if s.backend.polls[p].instruction.None? {
      MarkOnlyWaiting(platform, s, s', s.backend.polls[p].copyId, Failed, Some("NO_MATCHING_OPEN_COPY"));
    } else {
      MarkOnlyWaiting(platform, s, s', s.backend.polls[p].copyId, Sent, None);
    }
  }

  lemma ActOnlyWaiting(platform: Platform, s: State, step: Step)
    requires Inv(platform, s.backend) && Permitted(platform, s, Act(step))
    requires step.Deliver? || step.PollRead? || step.PollWrite?
    ensures OnlyWaiting(s, s.(backend := Next(s.backend, step)))
  {
    match step {
      case Deliver(n, link) => DeliverOnlyWaiting(platform, s, n, link);
      case PollRead(p, symbols) => PollReadOnlyWaiting(platform, s, p, symbols);
      case PollWrite(p) => PollWriteOnlyWaiting(platform, s, p);
    }
  }

  lemma CallsAfterAct(b: Backend, step: Step)
    requires Enabled(b, step) && (step.Deliver? || step.PollRead? || step.PollWrite?)
    ensures AdmittedCalls(Next(b, step)) == AdmittedCalls(b)
    ensures forall n :: n in AdmittedCalls(b) ==> Next(b, step).calls[n] == b.calls[n]
  {}

  /** Steps report nothing: what was filled is what was filled before. */
  lemma ActKeepsFilled(platform: Platform, s: State, step: Step)
    requires Ticketed(s) && Permitted(platform, s, Act(step)) && (step.Deliver? || step.PollRead? || step.PollWrite?)
    ensures FilledOpens(s.(backend := Next(s.backend, step))) == FilledOpens(s)
  {
    var s' := s.(backend := Next(s.backend, step));
    forall k, id ensures Confirmed(s', k, id) <==> Confirmed(s, k, id) {}
    forall id ensures WasFilled(s', id) <==> WasFilled(s, id) {}
  }

  lemma ExecutedWasHanded(s: State, id: string)
    requires Ticketed(s) && id in s.backend.table.rows && s.backend.table.rows[id].status == Executed
    ensures exists i :: i in s.backend.handed && i.copyId == id
  {
    var k :| Confirmed(s, k, id);
    assert s.backend.handed[k] in s.backend.handed;
  }

  lemma PollWriteLeavesExecuted(platform: Platform, s: State, p: nat)
    requires Inv(platform, s.backend) && Ticketed(s) && p in s.backend.polls
    ensures KeepsExecuted(s.backend.table, AfterPollWrite(s.backend, p).table)
  {
    var id := s.backend.polls[p].copyId;
    assert PollIsFresh(s.backend.handed, s.backend.polls[p]);
    if id in s.backend.table.rows && s.backend.table.rows[id].status == Executed {
      ExecutedWasHanded(s, id);
      assert false;
    }
  }

  lemma DeliverLeavesExecuted(platform: Platform, s: State, n: nat, link: Link)
    requires Inv(platform, s.backend) && Permitted(platform, s, Act(Deliver(n, link)))
    requires var id := s.backend.calls[n].instruction.copyId;
             link == Offline && id in s.backend.table.rows ==> s.backend.table.rows[id].status != Executed
    ensures KeepsExecuted(s.backend.table, AfterDeliver(s.backend, n, link).table)
  {
    assert CallIsSound(platform, s.backend.table, s.backend.calls[n]);
  }

  /** The verdict that lands on an EXECUTED row. */
  ghost predicate Lands(s: State, step: Step) {
    && step.Deliver? && step.link == Offline && step.call in s.backend.calls && s.backend.calls[step.call].Delivering?
    && s.backend.calls[step.call].instruction.copyId in s.backend.table.rows
    && s.backend.table.rows[s.backend.calls[step.call].instruction.copyId].status == Executed
  }

  lemma ActOpens(platform: Platform, s: State, step: Step)
    requires Inv(platform, s.backend) && Ticketed(s) && Permitted(platform, s, Act(step))
    requires step.Deliver? || step.PollRead? || step.PollWrite?
    ensures OpenRows(Next(s.backend, step).table) <= OpenRows(s.backend.table) + AtStake(s, Act(step))
    ensures !Lands(s, step) ==> KeepsExecuted(s.backend.table, Next(s.backend, step).table)
  {
    var t, t' := s.backend.table, Next(s.backend, step).table;
    if Lands(s, step) {
      VerdictReopens(t, s.backend.calls[step.call].instruction.copyId);
    } else {
      match step {
        case Deliver(n, link) => DeliverLeavesExecuted(platform, s, n, link);
        case PollRead(_, _) =>
        case PollWrite(p) => PollWriteLeavesExecuted(platform, s, p);
      }
      ActKeepsTickets(platform, s, step);
      OpenRowsShrink(t, t');
    }
  }

  lemma ActLoses(platform: Platform, s: State, step: Step)
    requires Inv(platform, s.backend) && Ticketed(s) && Permitted(platform, s, Act(step))
    requires step.Deliver? || step.PollRead? || step.PollWrite?
    ensures LostOpens(s.(backend := Next(s.backend, step))) <= LostOpens(s) + AtStake(s, Act(step))
  {
    ActKeepsFilled(platform, s, step);
    ActOpens(platform, s, step);
  }

  lemma ActJoins(platform: Platform, s: State, step: Step)
    requires Inv(platform, s.backend) && Ticketed(s) && Permitted(platform, s, Act(step))
    requires step.Deliver? || step.PollRead? || step.PollWrite?
    ensures JoinsOnly(s, s.(backend := Next(s.backend, step)), AtStake(s, Act(step)))
  {
    var s' := s.(backend := Next(s.backend, step));
    ActOpens(platform, s, step);
    ActLoses(platform, s, step);
    ActKeepsFilled(platform, s, step);
    ActOnlyWaiting(platform, s, step);
    WaitingOnlyShrinks(s, s');
    if Lands(s, step) { StakeIsWeighed(platform, s, s.backend.calls[step.call].instruction.copyId); }
  }

  lemma ActMoves(platform: Platform, s: State, step: Step)
    requires Inv(platform, s.backend) && Ticketed(s) && Permitted(platform, s, Act(step))
    requires step.Deliver? || step.PollRead? || step.PollWrite?
    ensures Moves(s, s.(backend := Next(s.backend, step)), AtStake(s, Act(step)))
  {
    var s' := s.(backend := Next(s.backend, step));
    ActJoins(platform, s, step);
    StepProgresses(platform, s, Act(step));
    GrowingKeepsVolumes(s, s');
    CallsAfterAct(s.backend, step);
  }

  lemma ExecuteKeeps(platform: Platform, s: State, o: Outcome)
    requires Ticketed(s) && Permitted(platform, s, Execute(o))
    ensures var s' := After(platform, s, Execute(o));
            InFlightRows(s') == InFlightRows(s) && FilledOpens(s') == FilledOpens(s)
  {
    var s' := After(platform, s, Execute(o));
    forall id, k ensures Unreported(s', k, id) <==> Unreported(s, k, id) {}
    forall id, k ensures Confirmed(s', k, id) <==> Confirmed(s, k, id) {}
    forall id ensures WasFilled(s', id) <==> WasFilled(s, id) {}
  }

  lemma ExecuteMoves(platform: Platform, s: State, o: Outcome)
    requires Ticketed(s) && Permitted(platform, s, Execute(o))
    ensures Moves(s, After(platform, s, Execute(o)), {})
  {
    ExecuteKeeps(platform, s, o);
  }

  lemma ReportLeavesExecuted(platform: Platform, s: State, k: nat)
    requires Inv(platform, s.backend) && Ticketed(s) && Permitted(platform, s, Report(k))
    ensures KeepsExecuted(s.backend.table, After(platform, s, Report(k)).backend.table)
  {
    var t, id := s.backend.table, s.backend.handed[k].copyId;
    if id in t.rows && t.rows[id].status == Executed {
      var j :| Confirmed(s, j, id);
      assert j == k;
    }
  }

  lemma ReportInFlight(platform: Platform, s: State, k: nat, x: string)
    requires Inv(platform, s.backend) && k < |s.outcomes| <= |s.backend.handed|
    requires InFlight(After(platform, s, Report(k)), x)
    ensures InFlight(s, x)
  {
    var s' := After(platform, s, Report(k));
    RecordGrows(s.backend, ResultOf(s.backend.handed[k], s.outcomes[k]));
    assert s.backend.handed[k] in s.backend.handed;
    if j :| Unreported(s', j, x) { assert Unreported(s, j, x); }
  }

  /** The row of a result: filled before, or in flight until now. */
  lemma ReportedRow(platform: Platform, s: State, k: nat)
    requires Inv(platform, s.backend) && Ticketed(s) && Permitted(platform, s, Report(k)) && s.outcomes[k].Filled?
    ensures var id := s.backend.handed[k].copyId;
            id in s.backend.table.rows && (WasFilled(s, id) || Unreported(s, k, id))
  {
    var id := s.backend.handed[k].copyId;
    assert HandedIsSound(s.backend.table, s.backend.handed[k]);
    assert Confirmed(s, k, id) || Unreported(s, k, id);
  }

  lemma ReportedIsWeighed(platform: Platform, s: State, k: nat)
    requires Inv(platform, s.backend) && Ticketed(s) && Permitted(platform, s, Report(k)) && s.outcomes[k].Filled?
    requires var id := s.backend.handed[k].copyId;
             id in s.backend.table.rows && s.backend.table.rows[id].event.action == Open
    ensures s.backend.handed[k].copyId in Weighed(s)
  {
    ReportedRow(platform, s, k);
  }

  /** What a result makes a filled OPEN was in flight, or filled already. */
  lemma ReportFills(platform: Platform, s: State, k: nat, x: string)
    requires Inv(platform, s.backend) && Ticketed(s) && Permitted(platform, s, Report(k))
    requires x in FilledOpens(After(platform, s, Report(k)))
    ensures x in Weighed(s)
  {
    var s' := After(platform, s, Report(k));
    assert s'.backend.table.rows.Keys == s.backend.table.rows.Keys;
    assert s'.backend.table.rows[x].event == s.backend.table.rows[x].event;
    var j :| Confirmed(s', j, x);
    if j == k { ReportedIsWeighed(platform, s, k); } else { assert Confirmed(s, j, x); }
  }

  lemma ReportOpens(platform: Platform, s: State, k: nat, x: string)
    requires Inv(platform, s.backend) && Ticketed(s) && Permitted(platform, s, Report(k))
    requires x in OpenRows(After(platform, s, Report(k)).backend.table)
    ensures x in Exposed(s)
  {
    var s' := After(platform, s, Report(k));
    ReportLeavesExecuted(platform, s, k);
    ClosedTicketsGrow(s.backend.table, s'.backend.table);
    RecordGrows(s.backend, ResultOf(s.backend.handed[k], s.outcomes[k]));
    if s.backend.table.rows[x].status != Executed { ReportedRow(platform, s, k); }
  }

  lemma ReportLoses(platform: Platform, s: State, k: nat, x: string)
    requires Inv(platform, s.backend) && Ticketed(s) && Permitted(platform, s, Report(k))
    requires x in LostOpens(After(platform, s, Report(k)))
    ensures x in LostOpens(s)
  {
    var s' := After(platform, s, Report(k));
    ReportLeavesExecuted(platform, s, k);
    RecordGrows(s.backend, ResultOf(s.backend.handed[k], s.outcomes[k]));
    var j :| Confirmed(s', j, x);
    assert j != k;
    assert Confirmed(s, j, x);
  }

  lemma ReportExposes(platform: Platform, s: State, k: nat)
    requires Inv(platform, s.backend) && Ticketed(s) && Permitted(platform, s, Report(k))
    ensures Exposed(After(platform, s, Report(k))) <= Exposed(s)
    ensures LostOpens(After(platform, s, Report(k))) <= LostOpens(s)
  {
    var s' := After(platform, s, Report(k));
    forall x | x in InFlightRows(s') ensures x in InFlightRows(s) { ReportInFlight(platform, s, k, x); }
    forall x | x in OpenRows(s'.backend.table) ensures x in Exposed(s) { ReportOpens(platform, s, k, x); }
    forall x | x in LostOpens(s') ensures x in LostOpens(s) { ReportLoses(platform, s, k, x); }
  }

  lemma NothingAtStake(s: State, s': State)
    requires Exposed(s') <= Exposed(s) && LostOpens(s') <= LostOpens(s) && Weighed(s') <= Weighed(s)
    ensures JoinsOnly(s, s', {})
  {
    PlusNothing(Exposed(s));
    PlusNothing(LostOpens(s));
  }

  lemma PlusNothing<T>(a: set<T>)
    ensures a + {} == a
  {}

  lemma ReportWeighs(platform: Platform, s: State, k: nat)
    requires Inv(platform, s.backend) && Ticketed(s) && Permitted(platform, s, Report(k))
    ensures Weighed(After(platform, s, Report(k))) <= Weighed(s)
  {
    var s' := After(platform, s, Report(k));
    forall x | x in InFlightRows(s') ensures x in InFlightRows(s) { ReportInFlight(platform, s, k, x); }
    forall x | x in FilledOpens(s') ensures x in Weighed(s) { ReportFills(platform, s, k, x); }
  }

  lemma ReportJoins(platform: Platform, s: State, k: nat)
    requires Inv(platform, s.backend) && Ticketed(s) && Permitted(platform, s, Report(k))
    ensures JoinsOnly(s, After(platform, s, Report(k)), {})
  {
    ReportExposes(platform, s, k);
    ReportWeighs(platform, s, k);
    NothingAtStake(s, After(platform, s, Report(k)));
  }

  lemma ReportKeepsRest(platform: Platform, s: State, k: nat)
    requires Inv(platform, s.backend) && Permitted(platform, s, Report(k))
    ensures var s' := After(platform, s, Report(k)); SameVolumes(s, s') && SameCalls(s.backend, s'.backend)
  {
    RecordGrows(s.backend, ResultOf(s.backend.handed[k], s.outcomes[k]));
    GrowingKeepsVolumes(s, After(platform, s, Report(k)));
    UnchangedCalls(s.backend, After(platform, s, Report(k)).backend);
  }

  /** A result moves its row from in flight or lost to open, or out; it adds nothing. */
  lemma ReportMoves(platform: Platform, s: State, k: nat)
    requires Inv(platform, s.backend) && Ticketed(s) && Permitted(platform, s, Report(k))
    ensures Moves(s, After(platform, s, Report(k)), {})
  {
    ReportJoins(platform, s, k);
    ReportKeepsRest(platform, s, k);
  }

  lemma UnchangedCalls(b: Backend, b': Backend)
    requires b'.calls == b.calls
    ensures SameCalls(b, b')
  {}

  lemma OthersMove(platform: Platform, s: State, e: Event)
    requires Inv(platform, s.backend) && Ticketed(s) && Permitted(platform, s, e)
    requires !(e.Act? && (e.step.Begin? || e.step.Create?))
    ensures Moves(s, After(platform, s, e), AtStake(s, e))
  {
    match e
    case Act(step) => ActMoves(platform, s, step);
    case Execute(o) => ExecuteMoves(platform, s, o);
    case Report(k) => ReportMoves(platform, s, k);
  }

  /** Only what was at stake joined, and it weighs at most m apiece. */
  lemma MovingKeepsBound(s: State, s': State, stake: set<string>, w: Weight, m: real)
    requires Moves(s, s', stake) && Light(s, w, m) && m >= 0.0 && Ticketed(s) && Ticketed(s')
    ensures Light(s', w, m)
    ensures RowExposure(s', w) <= RowExposure(s, w) + Times(|stake|, m)
    ensures CallExposure(s'.backend, w) == CallExposure(s.backend, w)
  {
    var r, r' := RowWeight(s.backend.table, w), RowWeight(s'.backend.table, w);
    var c, c' := CallWeight(s.backend, w), CallWeight(s'.backend, w);
    ExposedIsWeighed(s);
    forall id | id in Weighed(s) ensures r'(id) == r(id) {}
    SumLess(Exposed(s'), Exposed(s) + stake, r', r);
    JoinedWeighs(Exposed(s), stake, r, m);
    SumLess(AdmittedCalls(s'.backend), AdmittedCalls(s.backend), c', c);
    SumLess(AdmittedCalls(s.backend), AdmittedCalls(s'.backend), c, c');
  }

  lemma JoinedWeighs(rows: set<string>, more: set<string>, r: string -> real, m: real)
    requires m >= 0.0 && forall id :: id in more ==> r(id) <= m
    ensures SumOver(rows + more, r) <= SumOver(rows, r) + Times(|more|, m)
  {
    SumDisjoint(rows, more - rows, r);
    assert rows + (more - rows) == rows + more;
    SumAtMost(more - rows, r, m);
    SubsetSize(more - rows, more);
    TimesMonotone(|more - rows|, |more|, m);
  }

  // ---------------------------------------------------------------- a row takes over from its call

  lemma CreateInFlight(s: State, n: nat, id: string, x: string)
    requires Enabled(s.backend, Create(n, id))
    requires InFlight(s.(backend := AfterCreate(s.backend, n, id)), x) && x != id
    ensures InFlight(s, x)
  {
    var s' := s.(backend := AfterCreate(s.backend, n, id));
    if k :| Unreported(s', k, x) { assert Unreported(s, k, x); }
  }

  /** A row just created is neither read by a poll nor handed out. */
  lemma NeverHandedFresh(platform: Platform, s: State, n: nat, id: string)
    requires Inv(platform, s.backend) && Ticketed(s) && id !in s.backend.table.rows
    requires n in s.backend.calls && s.backend.calls[n].Creating?
    ensures !Polled(AfterCreate(s.backend, n, id), id)
    ensures forall k :: !Unreported(s.(backend := AfterCreate(s.backend, n, id)), k, id)
    ensures !WasFilled(s.(backend := AfterCreate(s.backend, n, id)), id)
  {
    forall p | p in s.backend.polls ensures s.backend.polls[p].copyId != id {
      assert PollIsSound(s.backend.table, s.backend.polls[p]);
    }
    forall k | 0 <= k < |s.backend.handed| ensures s.backend.handed[k].copyId != id {
      assert HandedIsSound(s.backend.table, s.backend.handed[k]);
    }
  }

  lemma CreateFilled(platform: Platform, s: State, n: nat, id: string)
    requires Inv(platform, s.backend) && Ticketed(s) && Permitted(platform, s, Act(Create(n, id)))
    ensures var s' := s.(backend := AfterCreate(s.backend, n, id));
            FilledOpens(s') == FilledOpens(s) && LostOpens(s') == LostOpens(s)
  {
    var s' := s.(backend := AfterCreate(s.backend, n, id));
    NeverHandedFresh(platform, s, n, id);
    forall k, x ensures Confirmed(s', k, x) <==> Confirmed(s, k, x) {}
    forall x ensures WasFilled(s', x) <==> WasFilled(s, x) {}
  }

  lemma CreateOpens(platform: Platform, s: State, n: nat, id: string)
    requires Permitted(platform, s, Act(Create(n, id)))
    ensures OpenRows(AfterCreate(s.backend, n, id).table) <= OpenRows(s.backend.table)
  {
    ActKeepsTickets(platform, s, Create(n, id));
    OpenRowsShrink(s.backend.table, AfterCreate(s.backend, n, id).table);
  }

  /** Only the row of an admitted OPEN joins. */
  lemma CreateExposes(platform: Platform, s: State, n: nat, id: string)
    requires Inv(platform, s.backend) && Ticketed(s) && Permitted(platform, s, Act(Create(n, id)))
    ensures var s' := s.(backend := AfterCreate(s.backend, n, id));
            && Exposed(s') <= Exposed(s) + {id} && Weighed(s') <= Weighed(s) + {id}
            && id !in Exposed(s) && id !in Weighed(s)
            && (id in Weighed(s') ==> IsAdmitted(s.backend.calls[n]) && id in s'.backend.table.rows)
            && (forall x :: x in Weighed(s) ==> SameVolume(s.backend.table, s'.backend.table, x))
  {
    var s' := s.(backend := AfterCreate(s.backend, n, id));
    CreateOpens(platform, s, n, id);
    CreateFilled(platform, s, n, id);
    NeverHandedFresh(platform, s, n, id);
    forall x | x in InFlightRows(s') && x != id ensures x in InFlightRows(s) { CreateInFlight(s, n, id, x); }
  }

  lemma CallsAfterCreate(b: Backend, n: nat, id: string)
    requires Enabled(b, Create(n, id))
    ensures AdmittedCalls(AfterCreate(b, n, id)) == AdmittedCalls(b) - {n}
  {}

  /** The new row weighs what its call weighed. */
  lemma NewRowWeighs(platform: Platform, s: State, n: nat, id: string, w: Weight)
    requires Inv(platform, s.backend) && Ticketed(s) && Permitted(platform, s, Act(Create(n, id)))
    ensures var s' := s.(backend := AfterCreate(s.backend, n, id));
            id in Weighed(s') ==> n in AdmittedCalls(s.backend)
                                  && RowWeight(s'.backend.table, w)(id) == CallWeight(s.backend, w)(n)
  {
    CreateExposes(platform, s, n, id);
  }

  lemma CreateStaysLight(platform: Platform, s: State, n: nat, id: string, w: Weight, m: real)
    requires Inv(platform, s.backend) && Ticketed(s) && Permitted(platform, s, Act(Create(n, id))) && Light(s, w, m)
    ensures Light(s.(backend := AfterCreate(s.backend, n, id)), w, m)
  {
    var s' := s.(backend := AfterCreate(s.backend, n, id));
    CreateExposes(platform, s, n, id);
    CallsAfterCreate(s.backend, n, id);
    NewRowWeighs(platform, s, n, id, w);
    forall x | x in Weighed(s') ensures 0.0 <= RowWeight(s'.backend.table, w)(x) <= m {
      if x != id { assert RowWeight(s'.backend.table, w)(x) == RowWeight(s.backend.table, w)(x); }
    }
  }

  lemma CallsLighten(b: Backend, n: nat, id: string, w: Weight)
    requires Enabled(b, Create(n, id))
    ensures CallExposure(b, w)
         >= CallExposure(AfterCreate(b, n, id), w) + if n in AdmittedCalls(b) then CallWeight(b, w)(n) else 0.0
  {
    var c, c' := CallWeight(b, w), CallWeight(AfterCreate(b, n, id), w);
    CallsAfterCreate(b, n, id);
    SameSum(AdmittedCalls(b) - {n}, c', c);
    if n in AdmittedCalls(b) { SumRemove(AdmittedCalls(b), n, c); }
    else { assert AdmittedCalls(b) - {n} == AdmittedCalls(b); }
  }

  lemma {:induction false} SameSum<T(!new)>(a: set<T>, f: T -> real, g: T -> real)
    requires forall x :: x in a ==> f(x) == g(x)
    ensures SumOver(a, f) == SumOver(a, g)
  {
    if a != {} {
      var x :| x in a;
      SumRemove(a, x, f);
      SumRemove(a, x, g);
      SameSum(a - {x}, f, g);
    }
  }

  /** The weight of the ended call covers the new row's. */
  lemma CreateKeepsBound(platform: Platform, s: State, n: nat, id: string, w: Weight, m: real)
    requires Inv(platform, s.backend) && Ticketed(s) && Permitted(platform, s, Act(Create(n, id))) && Light(s, w, m)
    requires Ticketed(s.(backend := AfterCreate(s.backend, n, id)))
    ensures var s' := s.(backend := AfterCreate(s.backend, n, id));
            RowExposure(s', w) + CallExposure(s'.backend, w) <= RowExposure(s, w) + CallExposure(s.backend, w)
  {
    var s' := s.(backend := AfterCreate(s.backend, n, id));
    var r, r' := RowWeight(s.backend.table, w), RowWeight(s'.backend.table, w);
    CreateExposes(platform, s, n, id);
    NewRowWeighs(platform, s, n, id, w);
    CallsLighten(s.backend, n, id, w);
    ExposedIsWeighed(s);
    ExposedIsWeighed(s');
    if id in Exposed(s') {
      SumRemove(Exposed(s'), id, r');
      SumLess(Exposed(s') - {id}, Exposed(s), r', r);
    } else {
      SumLess(Exposed(s'), Exposed(s), r', r);
    }
  }

  // ---------------------------------------------------------------- an admission

  lemma BeginExposes(s: State, step: Step)
    requires Enabled(s.backend, step) && step.Begin?
    ensures var s' := s.(backend := Next(s.backend, step));
            && Exposed(s') == Exposed(s) && InFlightRows(s') == InFlightRows(s) && Weighed(s') == Weighed(s)
            && LostOpens(s') == LostOpens(s)
            && AdmittedCalls(s'.backend) - {step.call} == AdmittedCalls(s.backend)
            && step.call !in AdmittedCalls(s.backend)
  {
    var s' := s.(backend := Next(s.backend, step));
    forall k, id ensures Unreported(s', k, id) <==> Unreported(s, k, id) {}
    forall id | id in s.backend.table.rows ensures InFlight(s', id) <==> InFlight(s, id) {}
    assert OpenRows(s'.backend.table) == OpenRows(s.backend.table);
    forall k, id ensures Confirmed(s', k, id) <==> Confirmed(s, k, id) {}
    forall id ensures WasFilled(s', id) <==> WasFilled(s, id) {}
  }

  /** Whatever is in flight or lost weighs at most m apiece. */
  lemma OthersWeigh(s: State, w: Weight, m: real)
    requires Light(s, w, m) && m >= 0.0 && Ticketed(s)
    ensures RowExposure(s, w) <= SumOver(OpenRows(s.backend.table), RowWeight(s.backend.table, w))
                                 + Times(|InFlightRows(s)|, m) + Times(|LostOpens(s)|, m)
    ensures CallExposure(s.backend, w) <= Times(|AdmittedCalls(s.backend)|, m)
  {
    var r, opens := RowWeight(s.backend.table, w), OpenRows(s.backend.table);
    ExposedIsWeighed(s);
    JoinedWeighs(opens, InFlightRows(s), r, m);
    JoinedWeighs(opens + InFlightRows(s), LostOpens(s), r, m);
    SumAtMost(AdmittedCalls(s.backend), CallWeight(s.backend, w), m);
  }

  /** A dispatch adds its own weight and nothing else. */
  lemma BeginAdds(s: State, step: Step, w: Weight, limit: real, m: real)
    requires Enabled(s.backend, step) && step.Begin? && Light(s, w, m)
    requires AdmitsWithin(s.backend.table, step, w, limit, m)
    ensures var s', n := s.(backend := Next(s.backend, step)), step.call;
            && Light(s', w, m) && RowExposure(s', w) == RowExposure(s, w)
            && CallExposure(s'.backend, w) == CallExposure(s.backend, w) + CallWeight(s'.backend, w)(n)
  {
    var s', n := s.(backend := Next(s.backend, step)), step.call;
    var c, c' := CallWeight(s.backend, w), CallWeight(s'.backend, w);
    BeginExposes(s, step);
    assert RowWeight(s'.backend.table, w) == RowWeight(s.backend.table, w);
    SameSum(AdmittedCalls(s.backend), c', c);
    if n in AdmittedCalls(s'.backend) {
      SumRemove(AdmittedCalls(s'.backend), n, c');
    } else {
      assert AdmittedCalls(s'.backend) == AdmittedCalls(s.backend);
    }
  }

  lemma OneMoreInFlight(s: State, step: Step)
    requires Enabled(s.backend, step) && step.Begin? && IsAdmitted(Next(s.backend, step).calls[step.call])
    ensures InFlightCount(s.(backend := Next(s.backend, step))) == InFlightCount(s) + 1
  {
    BeginExposes(s, step);
    assert AdmittedCalls(Next(s.backend, step)) == AdmittedCalls(s.backend) + {step.call};
  }

  lemma OthersAround(s: State, w: Weight, m: real, peak: nat, late: nat)
    requires Light(s, w, m) && m >= 0.0 && Ticketed(s) && InFlightCount(s) + 1 <= peak && |LostOpens(s)| <= late
    ensures RowExposure(s, w) + CallExposure(s.backend, w)
         <= SumOver(OpenRows(s.backend.table), RowWeight(s.backend.table, w)) + Times(peak - 1 + late, m)
  {
    OthersWeigh(s, w, m);
    TimesWithin(|InFlightRows(s)|, |AdmittedCalls(s.backend)|, peak - 1, m);
    TimesWithin(peak - 1, |LostOpens(s)|, peak - 1 + late, m);
  }

  /** Right after an admission the overshoot is what the other W - 1 in flight and the L lost can weigh. */
  lemma BeginKeepsBound(s: State, step: Step, w: Weight, limit: real, m: real, peak: nat, late: nat)
    requires Enabled(s.backend, step) && step.Begin? && Light(s, w, m) && m >= 0.0 && peak >= 1 && Ticketed(s)
    requires AdmitsWithin(s.backend.table, step, w, limit, m) && |LostOpens(s)| <= late
    requires InFlightCount(s.(backend := Next(s.backend, step))) <= peak
    requires RowExposure(s, w) + CallExposure(s.backend, w) <= limit + Times(peak - 1 + late, m)
    ensures var s' := s.(backend := Next(s.backend, step));
            RowExposure(s', w) + CallExposure(s'.backend, w) <= limit + Times(peak - 1 + late, m)
  {
    BeginAdds(s, step, w, limit, m);
    if IsAdmitted(Next(s.backend, step).calls[step.call]) {
      OneMoreInFlight(s, step);
      OthersAround(s, w, m, peak, late);
    }
  }

  // ---------------------------------------------------------------- only dispatches put more in flight

  lemma CreateFlies(platform: Platform, s: State, n: nat, id: string)
    requires Inv(platform, s.backend) && Ticketed(s) && Permitted(platform, s, Act(Create(n, id)))
    ensures InFlightCount(s.(backend := AfterCreate(s.backend, n, id))) <= InFlightCount(s)
  {
    var s' := s.(backend := AfterCreate(s.backend, n, id));
    CreateExposes(platform, s, n, id);
    CallsAfterCreate(s.backend, n, id);
    forall x | x in InFlightRows(s') && x != id ensures x in InFlightRows(s) { CreateInFlight(s, n, id, x); }
    if id in InFlightRows(s') {
      assert id in Weighed(s') && n in AdmittedCalls(s.backend);
      SubsetSize(InFlightRows(s') - {id}, InFlightRows(s));
    } else {
      SubsetSize(InFlightRows(s'), InFlightRows(s));
    }
  }

  lemma BeginFlies(s: State, step: Step)
    requires Enabled(s.backend, step) && step.Begin?
    ensures InFlightCount(s.(backend := Next(s.backend, step))) <= InFlightCount(s) + 1
  {
    BeginExposes(s, step);
    SubsetSize(AdmittedCalls(Next(s.backend, step)), AdmittedCalls(s.backend) + {step.call});
  }

  /** Everything but a dispatch only takes OPENs out of flight. */
  lemma OtherFlies(platform: Platform, s: State, e: Event)
    requires Inv(platform, s.backend) && Ticketed(s) && Permitted(platform, s, e)
    requires !(e.Act? && (e.step.Begin? || e.step.Create?))
    ensures InFlightCount(After(platform, s, e)) <= InFlightCount(s)
  {
    var s' := After(platform, s, e);
    match e {
      case Act(step) =>
        ActOnlyWaiting(platform, s, step);
        WaitingOnlyShrinks(s, s');
        CallsAfterAct(s.backend, step);
      case Execute(o) => ExecuteKeeps(platform, s, o);
      case Report(k) =>
        forall x | x in InFlightRows(s') ensures x in InFlightRows(s) { ReportInFlight(platform, s, k, x); }
        UnchangedCalls(s.backend, s'.backend);
    }
    SubsetSize(InFlightRows(s'), InFlightRows(s));
  }

  lemma StepFlies(platform: Platform, s: State, e: Event)
    requires Inv(platform, s.backend) && Ticketed(s) && Permitted(platform, s, e)
    ensures InFlightCount(After(platform, s, e)) <= InFlightCount(s) + if e.Act? && e.step.Begin? then 1 else 0
  {
    if e.Act? && e.step.Begin? {
      BeginFlies(s, e.step);
    } else if e.Act? && e.step.Create? {
      CreateFlies(platform, s, e.step.call, e.step.copyId);
    } else {
      OtherFlies(platform, s, e);
    }
  }

  /** Every row is past PENDING, nothing is being polled, every result has arrived, no admitted OPEN waits for a row. */
  ghost predicate AllLanded(s: State) {
    && (forall id :: id in s.backend.table.rows ==> s.backend.table.rows[id].status != Pending)
    && s.backend.polls == map[]
    && (forall k :: 0 <= k < |s.backend.handed| ==> k in s.reported)
  }

  lemma NothingFlies(s: State)
    requires AllLanded(s)
    ensures InFlightRows(s) == {}
  {}
}
