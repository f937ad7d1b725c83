/** What the status of a copy_orders row says has happened to it. */
module RowHistory {
  import opened Common
  import opened ReconciliationEngine
  import opened CopyOrders
  import opened CopyProtocol
  import opened CopyDecisions
  import opened SlaveTerminal
  import opened SlaveRun
  import opened AtMostOnce
  import V = VolumeCalculator

  // ---------------------------------------------------------------- why a row can have failed

  /** The reason is one that the Slave, the account or the event of this dispatch gives, and the volume goes with it. */
  ghost predicate Explains(step: Step, reason: string, volume: Option<real>)
    requires step.Begin?
  {
    if step.event.action != Open then reason == "NO_MATCHING_OPEN_COPY" && volume.None?
    else
      var slave := step.slave;
      || (slave.emergencyStop && reason == "EMERGENCY_STOP_ACTIVE" && volume.None?)
      || (!slave.emergencyStop && step.event.symbol in slave.blockedSymbols && reason == "SYMBOL_BLOCKED"
          && volume.None?)
      || (!slave.emergencyStop && !SymbolAllowed(slave, step.event.symbol) && reason == "SYMBOL_NOT_ALLOWED"
          && volume.None?)
      || (MayEnter(slave, step.event.symbol) && slave.maxPositions.Some? && reason == "MAX_POSITIONS_REACHED"
          && volume.None?)
      || (MayEnter(slave, step.event.symbol) && volume == step.event.volume
          && (V.OnGrid(slave.lotStep, VOLUME_SCALE) ==> NoSizeFor(slave, step.account, step.event.volume, reason)))
      || (MayEnter(slave, step.event.symbol) && slave.maxExposure.Some? && reason == "MAX_EXPOSURE_EXCEEDED"
          && volume.Some?
          && (V.OnGrid(slave.lotStep, VOLUME_SCALE) ==>
                IsSize(slave, step.account, step.event.volume, volume.value)))
  }

  /** The refusal of a dispatch of this event, with its volume as the column holds it. */
  ghost predicate RefusedBy(steps: seq<Step>, eventId: string, reason: string, stored: Option<real>) {
    exists step, v ::
      && step in steps && step.Begin? && step.event.eventId == eventId
      && Explains(step, reason, v) && stored == StoredVolume(v)
  }

  predicate HandedAt(s: State, k: int, id: string) {
    0 <= k < |s.backend.handed| && s.backend.handed[k].copyId == id
  }

  ghost predicate WasHanded(s: State, id: string) { exists k :: HandedAt(s, k, id) }

  /** Its result said so. */
  predicate Answered(s: State, k: int, id: string, o: Outcome) {
    HandedAt(s, k, id) && k in s.reported && k < |s.outcomes| && s.outcomes[k] == o
  }

  ghost predicate FailedFor(platform: Platform, steps: seq<Step>, s: State, id: string, reason: string)
    requires id in s.backend.table.rows
  {
    var e := s.backend.table.rows[id].event;
    || (!WasHanded(s, id) && RefusedBy(steps, e.eventId, reason, s.backend.table.rows[id].requestedVolume))
    || (reason == "SLAVE_OFFLINE" && (platform == Mt5 ==> !WasHanded(s, id)))
    || (platform == Mt5 && !WasHanded(s, id) && reason == "SEND_FAILED")
    || (platform == Mt4 && !WasHanded(s, id) && reason == "NO_MATCHING_OPEN_COPY" && e.action != Open)
    || (exists k :: Answered(s, k, id, Refused(reason)))
  }

  /**
   * PENDING: not handed out. SENT: handed out, the result not in. EXECUTED: the result is in, and it was filled.
   * FAILED: refused by the checks, not delivered, refused by the broker, or an MT4 Slave found offline, and why.
   */
  ghost predicate StatusTells(platform: Platform, steps: seq<Step>, s: State, id: string)
    requires id in s.backend.table.rows
  {
    var row := s.backend.table.rows[id];
    match row.status
    case Pending => !WasHanded(s, id)
    case Sent => exists k :: HandedAt(s, k, id) && k !in s.reported
    case Executed => exists k, ticket :: Answered(s, k, id, Filled(ticket)) && row.slaveTicket == Some(ticket)
    case Failed => row.reason.Some? && FailedFor(platform, steps, s, id, row.reason.value)
  }

  predicate FoundOffline(platform: Platform, row: CopyOrder) {
    platform == Mt4 && row.status == Failed && row.reason == Some("SLAVE_OFFLINE")
  }

  /** Conversely, what has happened decides the status, except that an MT4 Slave may have been found offline. */
  ghost predicate IsToldBy(platform: Platform, s: State, id: string)
    requires id in s.backend.table.rows
  {
    var row := s.backend.table.rows[id];
    forall k :: HandedAt(s, k, id) && !FoundOffline(platform, row) ==>
      && (k !in s.reported ==> row.status == Sent)
      && (k in s.reported && k < |s.outcomes| ==>
            row.status == match s.outcomes[k] case Filled(_) => Executed case Refused(_) => Failed)
  }

  ghost predicate Tells(platform: Platform, steps: seq<Step>, s: State, id: string)
    requires id in s.backend.table.rows
  {
    StatusTells(platform, steps, s, id) && IsToldBy(platform, s, id)
  }

  // ---------------------------------------------------------------- what runs keep

  ghost predicate CallTells(steps: seq<Step>, c: Call) {
    c.Creating? && c.decision.Refuse? ==>
      RefusedBy(steps, c.event.eventId, c.decision.reason, StoredVolume(c.decision.volume))
  }

  predicate PollTells(t: Table, p: Poll) {
    p.instruction.None? ==> p.copyId in t.rows && t.rows[p.copyId].event.action != Open
  }

  ghost predicate AllTell(platform: Platform, steps: seq<Step>, s: State) {
    && |s.outcomes| <= |s.backend.handed| && (forall k :: k in s.reported ==> k < |s.outcomes|)
    && (forall n :: n in s.backend.calls ==> CallTells(steps, s.backend.calls[n]))
    && (forall p :: p in s.backend.polls ==> PollTells(s.backend.table, s.backend.polls[p]))
    && (forall id :: id in s.backend.table.rows ==> Tells(platform, steps, s, id))
  }

  lemma RefusedMore(steps: seq<Step>, more: seq<Step>, eventId: string, reason: string, stored: Option<real>)
    requires RefusedBy(steps, eventId, reason, stored)
    ensures RefusedBy(steps + more, eventId, reason, stored)
  {
    var step, v :| && step in steps && step.Begin? && step.event.eventId == eventId
                   && Explains(step, reason, v) && stored == StoredVolume(v);
    assert step in steps + more;
  }

  /** Nothing has happened to the row: the same content, and the same hand-outs, results and reports. */
  ghost predicate Undisturbed(s: State, s': State, id: string) {
    && id in s.backend.table.rows && id in s'.backend.table.rows
    && s'.backend.table.rows[id] == s.backend.table.rows[id]
    && s.backend.handed <= s'.backend.handed && s.outcomes <= s'.outcomes && s.reported <= s'.reported
    && (forall k :: HandedAt(s', k, id) ==> HandedAt(s, k, id))
    && (forall k :: HandedAt(s, k, id) && k in s'.reported ==> k in s.reported)
  }

  lemma UndisturbedTells(platform: Platform, steps: seq<Step>, more: seq<Step>, s: State, s': State, id: string)
    requires Undisturbed(s, s', id) && Tells(platform, steps, s, id)
    requires |s.outcomes| <= |s.backend.handed| && forall k :: k in s.reported ==> k < |s.outcomes|
    ensures Tells(platform, steps + more, s', id)
  {
    forall k ensures HandedAt(s, k, id) <==> HandedAt(s', k, id) {}
    forall k, o ensures Answered(s, k, id, o) <==> Answered(s', k, id, o) {}
    var row := s.backend.table.rows[id];
    if row.status == Failed && RefusedBy(steps, row.event.eventId, row.reason.value, row.requestedVolume) {
      RefusedMore(steps, more, row.event.eventId, row.reason.value, row.requestedVolume);
    }
    assert StatusTells(platform, steps + more, s', id);
    assert IsToldBy(platform, s', id);
  }

  /** One row may be disturbed; it has to tell its story anew. */
  lemma StillTell(platform: Platform, steps: seq<Step>, more: seq<Step>, s: State, s': State, touched: Option<string>)
    requires AllTell(platform, steps, s)
    requires forall x :: x in s'.backend.table.rows && Some(x) != touched ==> Undisturbed(s, s', x)
    requires touched.Some? && touched.value in s'.backend.table.rows ==>
               Tells(platform, steps + more, s', touched.value)
    requires |s'.outcomes| <= |s'.backend.handed| && forall k :: k in s'.reported ==> k < |s'.outcomes|
    requires forall n :: n in s'.backend.calls ==>
               (n in s.backend.calls && s'.backend.calls[n] == s.backend.calls[n])
               || CallTells(steps + more, s'.backend.calls[n])
    requires forall p :: p in s'.backend.polls ==> PollTells(s'.backend.table, s'.backend.polls[p])
    ensures AllTell(platform, steps + more, s')
  {
    forall x | x in s'.backend.table.rows ensures Tells(platform, steps + more, s', x) {
      if Some(x) != touched { UndisturbedTells(platform, steps, more, s, s', x); }
    }
    forall n | n in s'.backend.calls ensures CallTells(steps + more, s'.backend.calls[n]) {
      if n in s.backend.calls && s'.backend.calls[n] == s.backend.calls[n] {
        var c := s.backend.calls[n];
        assert CallTells(steps, c);
        if c.Creating? && c.decision.Refuse? {
          RefusedMore(steps, more, c.event.eventId, c.decision.reason, StoredVolume(c.decision.volume));
        }
      }
    }
  }

  // ---------------------------------------------------------------- every step keeps it

  lemma RefusalIsExplained(t: Table, step: Step)
    requires step.Begin?
    ensures var d := Decide(step.slave, step.account, t, step.event); d.Refuse? ==> Explains(step, d.reason, d.volume)
  {
    var d := Decide(step.slave, step.account, t, step.event);
    if d.Refuse? && step.event.action == Open && V.OnGrid(step.slave.lotStep, VOLUME_SCALE) {
      OpenIsRefusedIff(step.slave, step.account, t, step.event, d.reason, d.volume);
    }
  }

  lemma NeverHanded(platform: Platform, s: State, id: string)
    requires Inv(platform, s.backend)
    requires id in s.backend.table.rows ==> s.backend.table.rows[id].status == Pending
    ensures !WasHanded(s, id)
  {
    if k :| HandedAt(s, k, id) { assert HandedIsSound(s.backend.table, s.backend.handed[k]); }
  }

  lemma BeginTells(platform: Platform, steps: seq<Step>, s: State, step: Step)
    requires AllTell(platform, steps, s) && step.Begin? && Permitted(platform, s, Act(step))
    ensures AllTell(platform, steps + [step], After(platform, s, Act(step)))
  {
    var s' := After(platform, s, Act(step));
    RefusalIsExplained(s.backend.table, step);
    assert step in steps + [step];
    StillTell(platform, steps, [step], s, s', None);
  }

  lemma CreateTells(platform: Platform, steps: seq<Step>, s: State, n: nat, id: string)
    requires AllTell(platform, steps, s) && Inv(platform, s.backend) && Permitted(platform, s, Act(Create(n, id)))
    ensures AllTell(platform, steps, After(platform, s, Act(Create(n, id))))
  {
    var s', c := After(platform, s, Act(Create(n, id))), s.backend.calls[n];
    assert steps + [] == steps && CallTells(steps, c);
    NeverHanded(platform, s, id);
    forall k ensures HandedAt(s', k, id) <==> HandedAt(s, k, id) {}
    StillTell(platform, steps, [], s, s', Some(id));
  }

  /** The row is marked, and nothing is handed out. */
  lemma MarkTells(platform: Platform, steps: seq<Step>, s: State, s': State, id: string, status: Status,
                  reason: Option<string>)
    requires AllTell(platform, steps, s) && s'.backend.table == Mark(s.backend.table, id, status, reason)
    requires s'.outcomes == s.outcomes && s'.reported == s.reported && s'.backend.handed == s.backend.handed
    requires forall n :: n in s'.backend.calls ==> n in s.backend.calls && s'.backend.calls[n] == s.backend.calls[n]
    requires forall p :: p in s'.backend.polls ==> p in s.backend.polls && s'.backend.polls[p] == s.backend.polls[p]
    requires id in s.backend.table.rows ==> Tells(platform, steps, s', id)
    ensures AllTell(platform, steps, s')
  {
    assert steps + [] == steps;
    forall p | p in s'.backend.polls ensures PollTells(s'.backend.table, s'.backend.polls[p]) {
      assert PollTells(s.backend.table, s.backend.polls[p]);
    }
    StillTell(platform, steps, [], s, s', Some(id));
  }

  /** The row is marked SENT and its instruction handed out. */
  lemma HandTells(platform: Platform, steps: seq<Step>, s: State, s': State, i: Instruction)
    requires AllTell(platform, steps, s) && s'.backend.table == Mark(s.backend.table, i.copyId, Sent, None)
    requires i.copyId in s.backend.table.rows && !WasHanded(s, i.copyId)
    requires s'.outcomes == s.outcomes && s'.reported == s.reported && s'.backend.handed == s.backend.handed + [i]
    requires forall n :: n in s'.backend.calls ==> n in s.backend.calls && s'.backend.calls[n] == s.backend.calls[n]
    requires forall p :: p in s'.backend.polls ==> p in s.backend.polls && s'.backend.polls[p] == s.backend.polls[p]
    ensures AllTell(platform, steps, s')
  {
    var id, last := i.copyId, |s.backend.handed|;
    assert steps + [] == steps;
    assert HandedAt(s', last, id) && last !in s'.reported;
    forall k | HandedAt(s', k, id) ensures k == last { assert k < last ==> HandedAt(s, k, id); }
    assert StatusTells(platform, steps, s', id) && IsToldBy(platform, s', id);
    forall x | x in s'.backend.table.rows && x != id ensures Undisturbed(s, s', x) {
      forall k | HandedAt(s', k, x) ensures HandedAt(s, k, x) {}
    }
    forall p | p in s'.backend.polls ensures PollTells(s'.backend.table, s'.backend.polls[p]) {
      assert PollTells(s.backend.table, s.backend.polls[p]);
    }
    StillTell(platform, steps, [], s, s', Some(id));
  }

  lemma DeliverTells(platform: Platform, steps: seq<Step>, s: State, n: nat, link: Link)
    requires AllTell(platform, steps, s) && Inv(platform, s.backend) && Permitted(platform, s, Act(Deliver(n, link)))
    ensures AllTell(platform, steps, After(platform, s, Act(Deliver(n, link))))
  {
    var s', c := After(platform, s, Act(Deliver(n, link))), s.backend.calls[n];
    var id := c.instruction.copyId;
    assert CallIsSound(platform, s.backend.table, c);
    if platform == Mt5 { NeverHanded(platform, s, id); }
    forall k ensures HandedAt(s, k, id) && s'.backend.handed == s.backend.handed ==> HandedAt(s', k, id) {}
    if link == Offline {
      OfflineTells(platform, steps, s, s', id);
      MarkTells(platform, steps, s, s', id, Failed, Some("SLAVE_OFFLINE"));
    } else if platform == Mt4 {
      assert steps + [] == steps;
      StillTell(platform, steps, [], s, s', None);
    } else if link == Broken {
      assert !WasHanded(s', id) by { forall k ensures HandedAt(s', k, id) <==> HandedAt(s, k, id) {} }
      MarkTells(platform, steps, s, s', id, Failed, Some("SEND_FAILED"));
    } else {
      HandTells(platform, steps, s, s', c.instruction);
    }
  }

  lemma OfflineTells(platform: Platform, steps: seq<Step>, s: State, s': State, id: string)
    requires id in s.backend.table.rows && s'.backend.handed == s.backend.handed
    requires s'.backend.table == Mark(s.backend.table, id, Failed, Some("SLAVE_OFFLINE"))
    requires platform == Mt5 ==> !WasHanded(s, id)
    ensures Tells(platform, steps, s', id)
  {
    forall k ensures HandedAt(s', k, id) <==> HandedAt(s, k, id) {}
  }

  lemma PollReadTells(steps: seq<Step>, s: State, p: nat, symbols: map<string, string>)
    requires AllTell(Mt4, steps, s) && Permitted(Mt4, s, Act(PollRead(p, symbols)))
    ensures AllTell(Mt4, steps, After(Mt4, s, Act(PollRead(p, symbols))))
  {
    var s' := After(Mt4, s, Act(PollRead(p, symbols)));
    assert steps + [] == steps;
    StillTell(Mt4, steps, [], s, s', None);
  }

  lemma PollWriteTells(platform: Platform, steps: seq<Step>, s: State, p: nat)
    requires AllTell(platform, steps, s) && Inv(platform, s.backend) && Permitted(platform, s, Act(PollWrite(p)))
    ensures AllTell(platform, steps, After(platform, s, Act(PollWrite(p))))
  {
    var s', poll := After(platform, s, Act(PollWrite(p))), s.backend.polls[p];
    assert PollIsSound(s.backend.table, poll) && PollIsFresh(s.backend.handed, poll);
    assert PollTells(s.backend.table, poll) && platform == Mt4;
    assert !WasHanded(s, poll.copyId);
    if poll.instruction.None? {
      assert !WasHanded(s', poll.copyId) by {
        forall k ensures HandedAt(s', k, poll.copyId) <==> HandedAt(s, k, poll.copyId) {}
      }
      MarkTells(platform, steps, s, s', poll.copyId, Failed, Some("NO_MATCHING_OPEN_COPY"));
    } else {
      HandTells(platform, steps, s, s', poll.instruction.value);
    }
  }

  lemma ExecuteTells(platform: Platform, steps: seq<Step>, s: State, o: Outcome)
    requires AllTell(platform, steps, s) && Permitted(platform, s, Execute(o))
    ensures AllTell(platform, steps, After(platform, s, Execute(o)))
  {
    var s' := After(platform, s, Execute(o));
    assert steps + [] == steps;
    StillTell(platform, steps, [], s, s', None);
  }

  lemma ReportTells(platform: Platform, steps: seq<Step>, s: State, k: nat)
    requires AllTell(platform, steps, s) && Inv(platform, s.backend) && Permitted(platform, s, Report(k))
    ensures AllTell(platform, steps, After(platform, s, Report(k)))
  {
    var s', id := After(platform, s, Report(k)), s.backend.handed[k].copyId;
    assert steps + [] == steps;
    assert HandedIsSound(s.backend.table, s.backend.handed[k]);
    assert Answered(s', k, id, s.outcomes[k]);
    forall j | HandedAt(s', j, id) ensures j == k {}
    assert StatusTells(platform, steps, s', id) && IsToldBy(platform, s', id);
    forall p | p in s'.backend.polls ensures PollTells(s'.backend.table, s'.backend.polls[p]) {
      assert PollTells(s.backend.table, s.backend.polls[p]);
    }
    forall x | x in s'.backend.table.rows && x != id ensures Undisturbed(s, s', x) {
      forall j ensures HandedAt(s', j, x) <==> HandedAt(s, j, x) {}
    }
    StillTell(platform, steps, [], s, s', Some(id));
  }

  lemma StepTells(platform: Platform, steps: seq<Step>, s: State, e: Event)
    requires AllTell(platform, steps, s) && Inv(platform, s.backend) && Permitted(platform, s, e)
    ensures AllTell(platform, steps + BegunSteps([e]), After(platform, s, e))
  {
    assert [e][..0] == [];
    if e.Act? && e.step.Begin? {
      BeginTells(platform, steps, s, e.step);
      assert BegunSteps([e]) == [e.step];
    } else {
      assert steps + BegunSteps([e]) == steps;
      match e {
        case Act(Create(n, id)) => CreateTells(platform, steps, s, n, id);
        case Act(Deliver(n, link)) => DeliverTells(platform, steps, s, n, link);
        case Act(PollRead(p, symbols)) => PollReadTells(steps, s, p, symbols);
        case Act(PollWrite(p)) => PollWriteTells(platform, steps, s, p);
        case Execute(o) => ExecuteTells(platform, steps, s, o);
        case Report(k) => ReportTells(platform, steps, s, k);
      }
    }
  }

  /** Over every run with polls one at a time, the status, ticket and reason of every row tell what happened to it. */
  lemma {:induction false} RowsTell(platform: Platform, d: Discipline, es: seq<Event>)
    requires d.serial && Legal(platform, d, es)
    ensures AllTell(platform, BegunSteps(es), Final(platform, d, es))
  {
    if es != [] {
      var front, last := es[..|es| - 1], es[|es| - 1];
      RowsTell(platform, d, front);
      RunKeeps(platform, d, front);
      StepTells(platform, BegunSteps(front), Final(platform, d, front), last);
      assert [last][..0] == [];
      assert BegunSteps(es) == BegunSteps(front) + BegunSteps([last]);
    }
  }
}
