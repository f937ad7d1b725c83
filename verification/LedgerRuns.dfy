/** What the copy_orders rows say, against what the Slave really did. */
module LedgerRuns {
  import opened Common
  import opened ReconciliationEngine
  import opened CopyOrders
  import opened CopyProtocol
  import opened SlaveTerminal
  import opened SlaveRun
  import opened AtMostOnce
  import opened Ledger

  // ---------------------------------------------------------------- the invariant

  /** The k-th instruction was for this row, was filled, and its result has arrived. */
  predicate Confirmed(s: State, k: int, id: string) {
    && k in s.reported && 0 <= k < |s.outcomes| <= |s.backend.handed|
    && s.backend.handed[k].copyId == id && s.outcomes[k].Filled?
  }

  ghost predicate WasFilled(s: State, id: string) {
    exists k :: Confirmed(s, k, id)
  }

  predicate CarriesTicket(t: Table, i: Instruction, o: Outcome) {
    o.Filled? ==> i.copyId in t.rows && t.rows[i.copyId].slaveTicket == Some(o.ticket)
  }

  /** Only filled rows are EXECUTED, and a filled row carries the ticket of its result, whatever its status. */
  ghost predicate Ticketed(s: State) {
    && |s.outcomes| <= |s.backend.handed|
    && (forall k :: k in s.reported ==>
          0 <= k < |s.outcomes| && CarriesTicket(s.backend.table, s.backend.handed[k], s.outcomes[k]))
    && (forall id :: id in s.backend.table.rows && s.backend.table.rows[id].status == Executed ==> WasFilled(s, id))
  }

  /** The k-th instruction was an OPEN for this Master ticket, was filled, and its result has arrived. */
  predicate Opening(s: State, k: int, masterTicket: string) {
    && k in s.reported && 0 <= k < |s.outcomes| <= |s.backend.handed|
    && s.backend.handed[k].action == Open && s.outcomes[k].Filled?
    && s.backend.handed[k].copyId in s.backend.table.rows
    && s.backend.table.rows[s.backend.handed[k].copyId].event.masterTicket == masterTicket
  }

  /** `ticket` is what an OPEN of this Master ticket opened. */
  ghost predicate HasTarget(s: State, masterTicket: string, ticket: Option<string>) {
    exists k :: Opening(s, k, masterTicket) && ticket == Some(s.outcomes[k].ticket)
  }

  ghost predicate InstructionTargets(s: State, i: Instruction) {
    && i.copyId in s.backend.table.rows
    && (i.action != Open ==> HasTarget(s, s.backend.table.rows[i.copyId].event.masterTicket, i.slaveTicket))
  }

  ghost predicate CallTargets(s: State, c: Call) {
    match c
    case Creating(e, d, _, _) => d.Admit? && e.action != Open ==> HasTarget(s, e.masterTicket, d.slaveTicket)
    case Delivering(i, _) => InstructionTargets(s, i)
  }

  ghost predicate PollTargets(s: State, p: Poll) {
    p.instruction.Some? ==> InstructionTargets(s, p.instruction.value)
  }

  /** A CLOSE or MODIFY waiting to be polled has an OPEN that was filled. */
  ghost predicate RowTargets(s: State, row: CopyOrder) {
    row.status == Pending && row.event.action != Open ==> exists k :: Opening(s, k, row.event.masterTicket)
  }

  ghost predicate Targeted(s: State) {
    && (forall n :: n in s.backend.calls ==> CallTargets(s, s.backend.calls[n]))
    && (forall p :: p in s.backend.polls ==> PollTargets(s, s.backend.polls[p]))
    && (forall i :: i in s.backend.handed ==> InstructionTargets(s, i))
    && (forall id :: id in s.backend.table.rows ==> RowTargets(s, s.backend.table.rows[id]))
  }

  ghost predicate LedgerInv(platform: Platform, s: State) {
    && Inv(platform, s.backend)
    && TicketsSound(s.backend.handed, s.outcomes)
    && BookSound(s.backend.handed, s.outcomes, s.book)
    && Ticketed(s)
    && Targeted(s)
  }

  // ---------------------------------------------------------------- what has happened stays

  /** Nothing handed out, answered or reported is taken back, and rows keep what instructions carry. */
  ghost predicate Progress(s: State, s': State) {
    && Grows(s.backend.table, s'.backend.table)
    && s.backend.handed <= s'.backend.handed && s.outcomes <= s'.outcomes && s.reported <= s'.reported
    && |s'.outcomes| <= |s'.backend.handed|
  }

  lemma ConfirmedStays(s: State, s': State, k: int, id: string)
    requires Progress(s, s')
    ensures Confirmed(s, k, id) ==> Confirmed(s', k, id)
  {}

  lemma FilledStays(s: State, s': State, id: string)
    requires Progress(s, s') && WasFilled(s, id)
    ensures WasFilled(s', id)
  {
    var k :| Confirmed(s, k, id);
    ConfirmedStays(s, s', k, id);
  }

  lemma OpeningStays(s: State, s': State, k: int, masterTicket: string)
    requires Progress(s, s')
    ensures Opening(s, k, masterTicket) ==> Opening(s', k, masterTicket)
  {}

  lemma DeliverGrows(b: Backend, n: nat, link: Link)
    requires ValidTable(b.table) && Enabled(b, Deliver(n, link))
    ensures Grows(b.table, AfterDeliver(b, n, link).table)
  {
    var id := b.calls[n].instruction.copyId;
    MarkGrows(b.table, id, Failed, Some("SLAVE_OFFLINE"));
    MarkGrows(b.table, id, Failed, Some("SEND_FAILED"));
    MarkGrows(b.table, id, Sent, None);
  }

  lemma PollWriteGrows(b: Backend, p: nat)
    requires ValidTable(b.table) && p in b.polls
    ensures Grows(b.table, AfterPollWrite(b, p).table)
  {
    MarkGrows(b.table, b.polls[p].copyId, Failed, Some("NO_MATCHING_OPEN_COPY"));
    MarkGrows(b.table, b.polls[p].copyId, Sent, None);
  }

  lemma StepProgresses(platform: Platform, s: State, e: Event)
    requires ValidTable(s.backend.table) && |s.outcomes| <= |s.backend.handed| && Permitted(platform, s, e)
    ensures Progress(s, After(platform, s, e))
  {
    match e
    case Act(Deliver(n, link)) => DeliverGrows(s.backend, n, link);
    case Act(PollWrite(p)) => PollWriteGrows(s.backend, p);
    case Report(k) => RecordGrows(s.backend, ResultOf(s.backend.handed[k], s.outcomes[k]));
    case _ =>
  }

  // ---------------------------------------------------------------- tickets stay, EXECUTED is earned

  ghost predicate KeepsTickets(t: Table, t': Table) {
    forall id :: id in t.rows ==> id in t'.rows && t'.rows[id].slaveTicket == t.rows[id].slaveTicket
  }

  ghost predicate NoneNewlyExecuted(t: Table, t': Table) {
    forall id :: id in t'.rows && t'.rows[id].status == Executed ==> id in t.rows && t.rows[id].status == Executed
  }

  lemma ActKeepsTickets(platform: Platform, s: State, step: Step)
    requires Permitted(platform, s, Act(step))
    ensures KeepsTickets(s.backend.table, Next(s.backend, step).table)
    ensures NoneNewlyExecuted(s.backend.table, Next(s.backend, step).table)
  {}

  lemma ActKeepsTicketed(platform: Platform, s: State, step: Step)
    requires ValidTable(s.backend.table) && Ticketed(s) && Permitted(platform, s, Act(step))
    ensures Ticketed(After(platform, s, Act(step)))
  {
    var s' := After(platform, s, Act(step));
    ActKeepsTickets(platform, s, step);
    StepProgresses(platform, s, Act(step));
    forall id | id in s'.backend.table.rows && s'.backend.table.rows[id].status == Executed ensures WasFilled(s', id) {
      FilledStays(s, s', id);
    }
  }

  lemma ExecuteKeepsTicketed(platform: Platform, s: State, o: Outcome)
    requires ValidTable(s.backend.table) && Ticketed(s) && Permitted(platform, s, Execute(o))
    ensures Ticketed(After(platform, s, Execute(o)))
  {
    var s' := After(platform, s, Execute(o));
    StepProgresses(platform, s, Execute(o));
    forall id | id in s'.backend.table.rows && s'.backend.table.rows[id].status == Executed ensures WasFilled(s', id) {
      FilledStays(s, s', id);
    }
  }

  /** Another instruction's row is another row. */
  lemma ReportWritesOne(platform: Platform, s: State, k: nat, j: nat)
    requires Inv(platform, s.backend) && j < |s.outcomes| && Permitted(platform, s, Report(k)) && j != k
    requires CarriesTicket(s.backend.table, s.backend.handed[j], s.outcomes[j])
    ensures CarriesTicket(After(platform, s, Report(k)).backend.table, s.backend.handed[j], s.outcomes[j])
  {
    assert s.backend.handed[j].copyId != s.backend.handed[k].copyId;
  }

  lemma ReportCarries(platform: Platform, s: State, k: nat)
    requires Inv(platform, s.backend) && Permitted(platform, s, Report(k))
    ensures CarriesTicket(After(platform, s, Report(k)).backend.table, s.backend.handed[k], s.outcomes[k])
  {
    assert HandedIsSound(s.backend.table, s.backend.handed[k]);
  }

  lemma ReportEarns(platform: Platform, s: State, k: nat, id: string)
    requires Inv(platform, s.backend) && Ticketed(s) && Permitted(platform, s, Report(k))
    requires id in After(platform, s, Report(k)).backend.table.rows
    requires After(platform, s, Report(k)).backend.table.rows[id].status == Executed
    ensures WasFilled(After(platform, s, Report(k)), id)
  {
    var s' := After(platform, s, Report(k));
    if id == s.backend.handed[k].copyId {
      assert Confirmed(s', k, id);
    } else {
      StepProgresses(platform, s, Report(k));
      FilledStays(s, s', id);
    }
  }

  lemma ReportKeepsTicketed(platform: Platform, s: State, k: nat)
    requires Inv(platform, s.backend) && Ticketed(s) && Permitted(platform, s, Report(k))
    ensures Ticketed(After(platform, s, Report(k)))
  {
    var s' := After(platform, s, Report(k));
    forall j | j in s'.reported
      ensures 0 <= j < |s.outcomes| && CarriesTicket(s'.backend.table, s.backend.handed[j], s.outcomes[j])
    {
      if j == k { ReportCarries(platform, s, k); } else { ReportWritesOne(platform, s, k, j); }
    }
    forall id | id in s'.backend.table.rows && s'.backend.table.rows[id].status == Executed ensures WasFilled(s', id) {
      ReportEarns(platform, s, k, id);
    }
  }

  lemma StepKeepsTicketed(platform: Platform, s: State, e: Event)
    requires Inv(platform, s.backend) && Ticketed(s) && Permitted(platform, s, e)
    ensures Ticketed(After(platform, s, e))
  {
    match e
    case Act(step) => ActKeepsTicketed(platform, s, step);
    case Execute(o) => ExecuteKeepsTicketed(platform, s, o);
    case Report(k) => ReportKeepsTicketed(platform, s, k);
  }

  // ---------------------------------------------------------------- the lookup finds targets

  /** An EXECUTED OPEN is an opening, under its own ticket, which is not empty. */
  lemma {:induction false} ExecutedOpens(platform: Platform, s: State, id: string)
    requires Inv(platform, s.backend) && TicketsSound(s.backend.handed, s.outcomes) && Ticketed(s)
    requires id in s.backend.table.rows && Done(s.backend.table.rows[id], Open)
    ensures HasTicket(s.backend.table.rows[id].slaveTicket)
    ensures HasTarget(s, s.backend.table.rows[id].event.masterTicket, s.backend.table.rows[id].slaveTicket)
    ensures exists k :: Opening(s, k, s.backend.table.rows[id].event.masterTicket) && s.backend.handed[k].copyId == id
  {
    var k :| Confirmed(s, k, id);
    assert HandedIsSound(s.backend.table, s.backend.handed[k]);
    assert CarriesTicket(s.backend.table, s.backend.handed[k], s.outcomes[k]);
    assert Opening(s, k, s.backend.table.rows[id].event.masterTicket);
  }

  /** The lookup finds what a filled OPEN opened, and nothing only if no OPEN of the Master ticket is EXECUTED. */
  lemma FoundIsTarget(platform: Platform, s: State, masterTicket: string)
    requires Inv(platform, s.backend) && TicketsSound(s.backend.handed, s.outcomes) && Ticketed(s)
    ensures var t := s.backend.table;
            var found := FindExecutedOpenSlaveTicket(t, masterTicket);
            && (found.Some? ==> HasTarget(s, masterTicket, found))
            && (found.None? <==> forall id :: !Matches(t.rows, id, OpenedFor(masterTicket)))
  {
    var t := s.backend.table;
    LatestFinds(t.ids, t.rows, OpenedFor(masterTicket));
    var found := Latest(t.ids, t.rows, OpenedFor(masterTicket));
    if found.Some? {
      ExecutedOpens(platform, s, found.value);
      assert Matches(t.rows, found.value, OpenedFor(masterTicket));
    } else {
      forall id ensures !Matches(t.rows, id, OpenedFor(masterTicket)) {
        assert id in t.rows ==> id in ToSet(t.ids);
      }
    }
  }

  // ---------------------------------------------------------------- targets stay

  lemma TargetStays(s: State, s': State, masterTicket: string, ticket: Option<string>)
    requires Progress(s, s') && HasTarget(s, masterTicket, ticket)
    ensures HasTarget(s', masterTicket, ticket)
  {
    var k :| Opening(s, k, masterTicket) && ticket == Some(s.outcomes[k].ticket);
    OpeningStays(s, s', k, masterTicket);
  }

  lemma InstructionTargetStays(s: State, s': State, i: Instruction)
    requires Progress(s, s') && InstructionTargets(s, i)
    ensures InstructionTargets(s', i)
  {
    if i.action != Open {
      TargetStays(s, s', s.backend.table.rows[i.copyId].event.masterTicket, i.slaveTicket);
    }
  }

  lemma CallTargetStays(s: State, s': State, c: Call)
    requires Progress(s, s') && CallTargets(s, c)
    ensures CallTargets(s', c)
  {
    match c
    case Creating(e, d, _, _) =>
      if d.Admit? && e.action != Open { TargetStays(s, s', e.masterTicket, d.slaveTicket); }
    case Delivering(i, _) => InstructionTargetStays(s, s', i);
  }

  lemma RowTargetStays(s: State, s': State, id: string)
    requires Progress(s, s') && id in s.backend.table.rows && RowTargets(s, s.backend.table.rows[id])
    ensures RowTargets(s', s'.backend.table.rows[id])
  {
    var row := s.backend.table.rows[id];
    if row.status == Pending && row.event.action != Open {
      var k :| Opening(s, k, row.event.masterTicket);
      OpeningStays(s, s', k, row.event.masterTicket);
    }
  }

  /** What was already under way keeps its targets; only what the step adds is left to show. */
  lemma TargetsStay(s: State, s': State)
    requires Targeted(s) && Progress(s, s')
    requires forall n :: n in s'.backend.calls ==>
               (n in s.backend.calls && s'.backend.calls[n] == s.backend.calls[n])
                 || CallTargets(s', s'.backend.calls[n])
    requires forall p :: p in s'.backend.polls ==>
               (p in s.backend.polls && s'.backend.polls[p] == s.backend.polls[p])
                 || PollTargets(s', s'.backend.polls[p])
    requires forall i :: i in s'.backend.handed && i !in s.backend.handed ==> InstructionTargets(s', i)
    requires forall id :: id in s'.backend.table.rows && id !in s.backend.table.rows ==>
               RowTargets(s', s'.backend.table.rows[id])
    ensures Targeted(s')
  {
    forall n | n in s'.backend.calls ensures CallTargets(s', s'.backend.calls[n]) {
      if n in s.backend.calls && s'.backend.calls[n] == s.backend.calls[n] {
        CallTargetStays(s, s', s.backend.calls[n]);
      }
    }
    forall p | p in s'.backend.polls ensures PollTargets(s', s'.backend.polls[p]) {
      if p in s.backend.polls && s'.backend.polls[p] == s.backend.polls[p] && s.backend.polls[p].instruction.Some? {
        InstructionTargetStays(s, s', s.backend.polls[p].instruction.value);
      }
    }
    forall i | i in s'.backend.handed ensures InstructionTargets(s', i) {
      if i in s.backend.handed { InstructionTargetStays(s, s', i); }
    }
    forall id | id in s'.backend.table.rows ensures RowTargets(s', s'.backend.table.rows[id]) {
      if id in s.backend.table.rows { RowTargetStays(s, s', id); }
    }
  }

  lemma BeginKeepsTargeted(platform: Platform, s: State, step: Step)
    requires LedgerInv(platform, s) && Permitted(platform, s, Act(step)) && step.Begin?
    ensures Targeted(After(platform, s, Act(step)))
  {
    var s' := After(platform, s, Act(step));
    StepProgresses(platform, s, Act(step));
    FoundIsTarget(platform, s, step.event.masterTicket);
    CallTargetStays(s, s', s'.backend.calls[step.call]);
    TargetsStay(s, s');
  }

  lemma CreateKeepsTargeted(platform: Platform, s: State, n: nat, id: string)
    requires LedgerInv(platform, s) && Permitted(platform, s, Act(Create(n, id)))
    ensures Targeted(After(platform, s, Act(Create(n, id))))
  {
    var s', c := After(platform, s, Act(Create(n, id))), s.backend.calls[n];
    StepProgresses(platform, s, Act(Create(n, id)));
    assert CallTargets(s, c);
    CallTargetStays(s, s', c);
    TargetsStay(s, s');
  }

  lemma DeliverKeepsTargeted(platform: Platform, s: State, n: nat, link: Link)
    requires LedgerInv(platform, s) && Permitted(platform, s, Act(Deliver(n, link)))
    ensures Targeted(After(platform, s, Act(Deliver(n, link))))
  {
    var s' := After(platform, s, Act(Deliver(n, link)));
    StepProgresses(platform, s, Act(Deliver(n, link)));
    assert CallTargets(s, s.backend.calls[n]);
    InstructionTargetStays(s, s', s.backend.calls[n].instruction);
    TargetsStay(s, s');
  }

  lemma RebuiltTargets(platform: Platform, s: State, symbols: map<string, string>, id: string)
    requires LedgerInv(platform, s) && id in s.backend.table.rows
    ensures PollTargets(s, Poll(id, PollInstruction(s.backend.table, symbols, id)))
  {
    FoundIsTarget(platform, s, s.backend.table.rows[id].event.masterTicket);
  }

  lemma PollTargetStays(s: State, s': State, p: Poll)
    requires Progress(s, s') && PollTargets(s, p)
    ensures PollTargets(s', p)
  {
    if p.instruction.Some? { InstructionTargetStays(s, s', p.instruction.value); }
  }

  lemma PollReadKeepsTargeted(platform: Platform, s: State, p: nat, symbols: map<string, string>)
    requires LedgerInv(platform, s) && Permitted(platform, s, Act(PollRead(p, symbols)))
    ensures Targeted(After(platform, s, Act(PollRead(p, symbols))))
  {
    var t, s' := s.backend.table, After(platform, s, Act(PollRead(p, symbols)));
    StepProgresses(platform, s, Act(PollRead(p, symbols)));
    var found := Oldest(t.ids, t.rows, IsPending());
    if found.Some? && found.value in t.rows {
      RebuiltTargets(platform, s, symbols, found.value);
      PollTargetStays(s, s', Poll(found.value, PollInstruction(t, symbols, found.value)));
      assert s'.backend == s.backend.(polls := s'.backend.polls);
      TargetsStay(s, s');
    }
  }

  lemma PollWriteKeepsTargeted(platform: Platform, s: State, p: nat)
    requires LedgerInv(platform, s) && Permitted(platform, s, Act(PollWrite(p)))
    ensures Targeted(After(platform, s, Act(PollWrite(p))))
  {
    var s', poll := After(platform, s, Act(PollWrite(p))), s.backend.polls[p];
    StepProgresses(platform, s, Act(PollWrite(p)));
    assert PollTargets(s, poll);
    if poll.instruction.Some? { InstructionTargetStays(s, s', poll.instruction.value); }
    TargetsStay(s, s');
  }

  lemma StepKeepsTargeted(platform: Platform, s: State, e: Event)
    requires LedgerInv(platform, s) && Permitted(platform, s, e)
    ensures Targeted(After(platform, s, e))
  {
    match e
    case Act(Begin(_, _, _, _)) => BeginKeepsTargeted(platform, s, e.step);
    case Act(Create(n, id)) => CreateKeepsTargeted(platform, s, n, id);
    case Act(Deliver(n, link)) => DeliverKeepsTargeted(platform, s, n, link);
    case Act(PollRead(p, symbols)) => PollReadKeepsTargeted(platform, s, p, symbols);
    case Act(PollWrite(p)) => PollWriteKeepsTargeted(platform, s, p);
    case Execute(_) =>
      StepProgresses(platform, s, e);
      TargetsStay(s, After(platform, s, e));
    case Report(_) =>
      StepProgresses(platform, s, e);
      TargetsStay(s, After(platform, s, e));
  }

  // ---------------------------------------------------------------- the invariant over runs

  lemma StepKeepsEffects(platform: Platform, s: State, e: Event)
    requires LedgerInv(platform, s) && Permitted(platform, s, e)
    ensures var s' := After(platform, s, e);
            TicketsSound(s'.backend.handed, s'.outcomes) && BookSound(s'.backend.handed, s'.outcomes, s'.book)
  {
    match e
    case Act(step) =>
      StepProgresses(platform, s, e);
      EffectsKeep(s.backend.handed, Next(s.backend, step).handed, s.outcomes, s.book);
    case Execute(o) =>
      ExecutionKeepsTickets(s, o);
      ExecutionKeepsBook(s, o);
    case Report(k) =>
  }

  lemma StepKeepsLedger(platform: Platform, s: State, e: Event)
    requires LedgerInv(platform, s) && Allowed(platform, SERIAL, s, e)
    ensures LedgerInv(platform, After(platform, s, e))
  {
    StepKeeps(platform, s, e);
    StepKeepsEffects(platform, s, e);
    StepKeepsTicketed(platform, s, e);
    StepKeepsTargeted(platform, s, e);
  }

  lemma IdleIsSound(platform: Platform)
    ensures LedgerInv(platform, IDLE)
  {
    assert DistinctBook([]);
  }

  lemma {:induction false} RunKeepsLedger(platform: Platform, d: Discipline, es: seq<Event>)
    requires d.serial && Legal(platform, d, es)
    ensures LedgerInv(platform, Final(platform, d, es))
  {
    if es != [] {
      RunKeepsLedger(platform, d, es[..|es| - 1]);
      StepKeepsLedger(platform, Final(platform, d, es[..|es| - 1]), es[|es| - 1]);
    } else {
      IdleIsSound(platform);
    }
  }

  // ---------------------------------------------------------------- what a row's status means

  /** The event leaves the status alone, or writes it: EXECUTED by a report, FAILED by a verdict. */
  ghost predicate StatusWritten(platform: Platform, s: State, e: Event, id: string)
    requires id in s.backend.table.rows && Permitted(platform, s, e)
  {
    && (Writes(s, e, id) ==> IsReport(Some(e)) || (platform == Mt4 && IsVerdict(Some(e))))
    && id in After(platform, s, e).backend.table.rows
    && After(platform, s, e).backend.table.rows[id].status
       == if !Writes(s, e, id) then s.backend.table.rows[id].status else if e.Report? then Executed else Failed
  }

  lemma DeliverWrites(platform: Platform, s: State, n: nat, link: Link, i: Instruction)
    requires Inv(platform, s.backend) && Permitted(platform, s, Act(Deliver(n, link))) && i in s.backend.handed
    ensures i.copyId in s.backend.table.rows && StatusWritten(platform, s, Act(Deliver(n, link)), i.copyId)
  {
    assert HandedIsSound(s.backend.table, i);
    assert CallIsSound(platform, s.backend.table, s.backend.calls[n]);
  }

  lemma PollWriteWrites(platform: Platform, s: State, p: nat, i: Instruction)
    requires Inv(platform, s.backend) && Permitted(platform, s, Act(PollWrite(p))) && i in s.backend.handed
    ensures i.copyId in s.backend.table.rows && StatusWritten(platform, s, Act(PollWrite(p)), i.copyId)
  {
    assert HandedIsSound(s.backend.table, i);
    assert PollIsFresh(s.backend.handed, s.backend.polls[p]);
  }

  lemma ReportWrites(platform: Platform, s: State, k: nat, j: nat)
    requires Inv(platform, s.backend) && Permitted(platform, s, Report(k))
    requires j < |s.outcomes| && s.outcomes[j].Filled?
    ensures s.backend.handed[j].copyId in s.backend.table.rows
    ensures StatusWritten(platform, s, Report(k), s.backend.handed[j].copyId)
  {
    assert HandedIsSound(s.backend.table, s.backend.handed[j]);
    assert j != k ==> s.backend.handed[j].copyId != s.backend.handed[k].copyId;
  }

  lemma OtherWrites(platform: Platform, s: State, e: Event, i: Instruction)
    requires Inv(platform, s.backend) && Permitted(platform, s, e) && i in s.backend.handed
    requires e.Execute? || (e.Act? && (e.step.Begin? || e.step.Create? || e.step.PollRead?))
    ensures i.copyId in s.backend.table.rows && StatusWritten(platform, s, e, i.copyId)
  {
    assert HandedIsSound(s.backend.table, i);
  }

  /** Between a first report and the end of a run, what writes a filled row is its report again, or a verdict. */
  lemma FilledIsWrittenBy(platform: Platform, s: State, e: Event, id: string)
    requires Inv(platform, s.backend) && Ticketed(s) && Permitted(platform, s, e) && WasFilled(s, id)
    ensures id in s.backend.table.rows && StatusWritten(platform, s, e, id)
  {
    var k :| Confirmed(s, k, id);
    var i := s.backend.handed[k];
    match e
    case Act(Begin(_, _, _, _)) => OtherWrites(platform, s, e, i);
    case Act(Create(_, _)) => OtherWrites(platform, s, e, i);
    case Act(Deliver(n, link)) => DeliverWrites(platform, s, n, link, i);
    case Act(PollRead(_, _)) => OtherWrites(platform, s, e, i);
    case Act(PollWrite(p)) => PollWriteWrites(platform, s, p, i);
    case Execute(_) => OtherWrites(platform, s, e, i);
    case Report(j) => ReportWrites(platform, s, j, k);
  }

  lemma OnlyReportsConfirm(platform: Platform, s: State, e: Event, k: int, id: string)
    requires Ticketed(s) && Permitted(platform, s, e) && (e.Report? ==> e.k != k)
    ensures Confirmed(After(platform, s, e), k, id) ==> Confirmed(s, k, id)
  {}

  /** What a first report of a filled instruction leaves. */
  lemma FirstReport(platform: Platform, s: State, e: Event, id: string)
    requires Inv(platform, s.backend) && Ticketed(s) && Permitted(platform, s, e)
    requires !WasFilled(s, id) && WasFilled(After(platform, s, e), id)
    ensures Writes(s, e, id) && e.Report? && id in After(platform, s, e).backend.table.rows
    ensures After(platform, s, e).backend.table.rows[id].status == Executed
  {
    var k :| Confirmed(After(platform, s, e), k, id);
    if !(e.Report? && e.k == k) { OnlyReportsConfirm(platform, s, e, k, id); }
    ReportCarries(platform, s, k);
  }

  /** EXECUTED by its report, or FAILED by a late "offline" verdict, which only an MT4 Slave can get. */
  predicate StatusIsFrom(platform: Platform, t: Table, id: string, last: Option<Event>) {
    && id in t.rows
    && (IsReport(last) || (platform == Mt4 && IsVerdict(last)))
    && t.rows[id].status == if IsReport(last) then Executed else Failed
  }

  lemma WriteDecides(platform: Platform, s: State, e: Event, id: string, before: Option<Event>)
    requires Inv(platform, s.backend) && Ticketed(s) && Permitted(platform, s, e)
    requires WasFilled(After(platform, s, e), id)
    requires WasFilled(s, id) ==> StatusIsFrom(platform, s.backend.table, id, before)
    ensures StatusIsFrom(
              platform, After(platform, s, e).backend.table, id, if Writes(s, e, id) then Some(e) else before)
  {
    if WasFilled(s, id) {
      FilledIsWrittenBy(platform, s, e, id);
    } else {
      FirstReport(platform, s, e, id);
    }
  }

  /** A filled row is EXECUTED if the last event that wrote it is its report, first or replayed, and else FAILED. */
  lemma {:induction false} LastWriteDecides(platform: Platform, d: Discipline, es: seq<Event>, id: string)
    requires d.serial && Legal(platform, d, es) && WasFilled(Final(platform, d, es), id)
    ensures StatusIsFrom(platform, Final(platform, d, es).backend.table, id, LastWrite(platform, d, es, id))
  {
    if es != [] {
      var front := es[..|es| - 1];
      var s := Final(platform, d, front);
      RunKeepsLedger(platform, d, front);
      if WasFilled(s, id) { LastWriteDecides(platform, d, front, id); }
      WriteDecides(platform, s, es[|es| - 1], id, LastWrite(platform, d, front, id));
    }
  }

  // ---------------------------------------------------------------- late verdicts

  /** Every filled row is EXECUTED. */
  ghost predicate Recorded(s: State) {
    forall id :: WasFilled(s, id) ==> id in s.backend.table.rows && s.backend.table.rows[id].status == Executed
  }

  lemma StepKeepsRecorded(platform: Platform, s: State, e: Event)
    requires Inv(platform, s.backend) && Ticketed(s) && Recorded(s) && Permitted(platform, s, e)
    requires platform == Mt5 || Timely(s, e)
    ensures Recorded(After(platform, s, e))
  {
    var s' := After(platform, s, e);
    forall id | WasFilled(s', id)
      ensures id in s'.backend.table.rows && s'.backend.table.rows[id].status == Executed
    {
      if WasFilled(s, id) { FilledIsWrittenBy(platform, s, e, id); } else { FirstReport(platform, s, e, id); }
    }
  }

  /** Where no late verdict is written, and for an MT5 Slave in any case, every filled row is EXECUTED. */
  lemma {:induction false} RunKeepsRecorded(platform: Platform, d: Discipline, es: seq<Event>)
    requires d.serial && (platform == Mt5 || d.timely) && Legal(platform, d, es)
    ensures Recorded(Final(platform, d, es))
  {
    if es != [] {
      RunKeepsRecorded(platform, d, es[..|es| - 1]);
      RunKeepsLedger(platform, d, es[..|es| - 1]);
      StepKeepsRecorded(platform, Final(platform, d, es[..|es| - 1]), es[|es| - 1]);
    }
  }

  // ---------------------------------------------------------------- the poll's guard branch

  /** The row of a filled OPEN counts for the lookup exactly while its report is its last write. */
  lemma OpeningStands(platform: Platform, d: Discipline, es: seq<Event>, k: int, m: string)
    requires d.serial && Legal(platform, d, es) && LedgerInv(platform, Final(platform, d, es))
    requires Opening(Final(platform, d, es), k, m)
    ensures var b := Final(platform, d, es).backend;
            IsReport(LastWrite(platform, d, es, b.handed[k].copyId))
            <==> Matches(b.table.rows, b.handed[k].copyId, OpenedFor(m))
  {
    var s := Final(platform, d, es);
    assert Confirmed(s, k, s.backend.handed[k].copyId);
    assert HandedIsSound(s.backend.table, s.backend.handed[k]);
    LastWriteDecides(platform, d, es, s.backend.handed[k].copyId);
  }

  /** No filled OPEN of this Master ticket has its report as its last write. */
  ghost predicate AllOverwritten(platform: Platform, d: Discipline, es: seq<Event>, m: string)
    requires Legal(platform, d, es)
  {
    var s := Final(platform, d, es);
    forall k :: Opening(s, k, m) ==> !IsReport(LastWrite(platform, d, es, s.backend.handed[k].copyId))
  }

  lemma {:induction false} LookupFailsIff(platform: Platform, d: Discipline, es: seq<Event>, m: string)
    requires d.serial && Legal(platform, d, es)
    ensures FindExecutedOpenSlaveTicket(Final(platform, d, es).backend.table, m).None?
            <==> AllOverwritten(platform, d, es, m)
  {
    var s := Final(platform, d, es);
    RunKeepsLedger(platform, d, es);
    FoundIsTarget(platform, s, m);
    forall k | Opening(s, k, m)
      ensures IsReport(LastWrite(platform, d, es, s.backend.handed[k].copyId))
              <==> Matches(s.backend.table.rows, s.backend.handed[k].copyId, OpenedFor(m))
    {
      OpeningStands(platform, d, es, k, m);
    }
    if x :| Matches(s.backend.table.rows, x, OpenedFor(m)) { ExecutedOpens(platform, s, x); }
  }

  /** A CLOSE or MODIFY waiting to be polled. */
  predicate WaitsForTarget(t: Table, id: string) {
    id in t.rows && t.rows[id].status == Pending && t.rows[id].event.action != Open
  }

  /**
   * A CLOSE or MODIFY waiting to be polled has an OPEN that was filled; the poll's guard branch is taken exactly if of
   * all the filled OPENs of its Master ticket none has its report as its last write.
   */
  lemma {:induction false} PollsResolveIff(platform: Platform, d: Discipline, es: seq<Event>, id: string,
                                           symbols: map<string, string>)
    requires d.serial && Legal(platform, d, es) && WaitsForTarget(Final(platform, d, es).backend.table, id)
    ensures var s := Final(platform, d, es);
            var m := s.backend.table.rows[id].event.masterTicket;
            && (exists k :: Opening(s, k, m))
            && (PollInstruction(s.backend.table, symbols, id).None? <==> AllOverwritten(platform, d, es, m))
  {
    var s := Final(platform, d, es);
    RunKeepsLedger(platform, d, es);
    assert RowTargets(s, s.backend.table.rows[id]);
    LookupFailsIff(platform, d, es, s.backend.table.rows[id].event.masterTicket);
  }

  /** Without late verdicts the guard branch is never taken: every waiting CLOSE or MODIFY resolves to a target. */
  lemma PollsAlwaysResolve(platform: Platform, d: Discipline, es: seq<Event>, id: string)
    requires d.serial && (platform == Mt5 || d.timely) && Legal(platform, d, es)
    requires WaitsForTarget(Final(platform, d, es).backend.table, id)
    ensures var s := Final(platform, d, es);
            var m := s.backend.table.rows[id].event.masterTicket;
            HasTarget(s, m, FindExecutedOpenSlaveTicket(s.backend.table, m))
  {
    var s := Final(platform, d, es);
    var t, m := s.backend.table, s.backend.table.rows[id].event.masterTicket;
    RunKeepsLedger(platform, d, es);
    RunKeepsRecorded(platform, d, es);
    assert RowTargets(s, t.rows[id]);
    var k :| Opening(s, k, m);
    assert Confirmed(s, k, s.backend.handed[k].copyId) && HandedIsSound(t, s.backend.handed[k]);
    FoundIsTarget(platform, s, m);
    assert Matches(t.rows, s.backend.handed[k].copyId, OpenedFor(m));
  }
}
