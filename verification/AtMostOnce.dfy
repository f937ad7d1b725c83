/** Over every run with one poll at a time: one row per trade event, and each row handed to the Slave at most once. */
module AtMostOnce {
  import opened Common
  import opened ReconciliationEngine
  import opened CopyOrders
  import opened CopyProtocol
  import opened SlaveTerminal
  import opened SlaveRun
  import V = VolumeCalculator

  // ---------------------------------------------------------------- what instructions carry

  const HALF_VOLUME_UNIT := 0.005
  const HALF_PRICE_UNIT := 0.000005

  predicate Near(x: Option<real>, y: Option<real>, d: real) {
    if x.None? then y.None? else y.Some? && Abs(x.value - y.value) <= d
  }

  /** An instruction for this row: same action, and the numbers of the row up to the rounding of its columns. */
  predicate Carries(i: Instruction, row: CopyOrder) {
    && i.action == row.event.action
    && Near(i.volume, row.requestedVolume, HALF_VOLUME_UNIT)
    && Near(i.sl, row.event.sl, HALF_PRICE_UNIT)
    && Near(i.tp, row.event.tp, HALF_PRICE_UNIT)
    && (i.action == Open ==> i.volume.Some?)
  }

  predicate CarriesRow(t: Table, i: Instruction) {
    i.copyId in t.rows && Carries(i, t.rows[i.copyId])
  }

  lemma RoundingIsNear(x: real, scale: real)
    requires scale > 0.0
    ensures Abs(V.RoundTo(x, scale) - x) <= 0.5 / scale
  {
    var n := (V.Units(x, scale) + 0.5).Floor as real;
    assert V.Units(x, scale) - 0.5 <= n <= V.Units(x, scale) + 0.5;
    V.DivideBack(x, scale);
    DivideLe(V.Units(x, scale) - 0.5, n, scale);
    DivideLe(n, V.Units(x, scale) + 0.5, scale);
    DivideSum(V.Units(x, scale), 0.5, scale);
  }

  lemma DivideLe(a: real, b: real, c: real)
    requires a <= b && c > 0.0
    ensures a / c <= b / c
  {}

  lemma DivideSum(a: real, b: real, c: real)
    requires c > 0.0
    ensures (a + b) / c == a / c + b / c
    ensures (a - b) / c == a / c - b / c
  {}

  lemma PersistedIsNear(e: TradeEvent, v: Option<real>)
    ensures Near(v, StoredVolume(v), HALF_VOLUME_UNIT)
    ensures Near(e.volume, Persisted(e).volume, HALF_VOLUME_UNIT)
    ensures Near(e.sl, Persisted(e).sl, HALF_PRICE_UNIT)
    ensures Near(e.tp, Persisted(e).tp, HALF_PRICE_UNIT)
  {
    if v.Some? { RoundingIsNear(v.value, VOLUME_SCALE); }
    if e.volume.Some? { RoundingIsNear(e.volume.value, VOLUME_SCALE); }
    if e.sl.Some? { RoundingIsNear(e.sl.value, PRICE_SCALE); }
    if e.tp.Some? { RoundingIsNear(e.tp.value, PRICE_SCALE); }
  }

  // ---------------------------------------------------------------- the invariant

  /** A call that is past its checks has a volume for an OPEN. */
  predicate CallIsSound(platform: Platform, t: Table, c: Call) {
    && c.platform == platform
    && match c
       case Creating(e, d, _, _) => d.Admit? && e.action == Open ==> d.volume.Some?
       case Delivering(i, _) => CarriesRow(t, i) && (platform == Mt5 ==> t.rows[i.copyId].status == Pending)
  }

  predicate PollIsSound(t: Table, p: Poll) {
    && p.copyId in t.rows
    && (p.instruction.Some? ==> p.instruction.value.copyId == p.copyId && CarriesRow(t, p.instruction.value))
  }

  predicate HandedIsSound(t: Table, i: Instruction) {
    CarriesRow(t, i) && t.rows[i.copyId].status != Pending
  }

  /** A row waiting to be handed out has what its instruction needs. */
  predicate RowIsSound(row: CopyOrder) {
    row.status == Pending && row.event.action == Open ==> row.requestedVolume.Some?
  }

  ghost predicate HandedOnce(handed: seq<Instruction>) {
    forall j, k :: 0 <= j < k < |handed| ==> handed[j].copyId != handed[k].copyId
  }

  /** An MT5 row is in the hands of one call only. */
  ghost predicate CallsApart(platform: Platform, calls: map<nat, Call>) {
    platform == Mt5 ==>
      forall m, n :: m in calls && n in calls && m != n && calls[m].Delivering? && calls[n].Delivering? ==>
        calls[m].instruction.copyId != calls[n].instruction.copyId
  }

  predicate PollIsFresh(handed: seq<Instruction>, p: Poll) {
    forall i :: i in handed ==> i.copyId != p.copyId
  }

  ghost predicate PollsApart(platform: Platform, polls: map<nat, Poll>) {
    && (platform == Mt5 ==> polls == map[])
    && forall p, q :: p in polls && q in polls ==> p == q
  }

  ghost predicate Inv(platform: Platform, b: Backend) {
    && ValidTable(b.table)
    && (forall id :: id in b.table.rows ==> RowIsSound(b.table.rows[id]))
    && (forall n :: n in b.calls ==> CallIsSound(platform, b.table, b.calls[n]))
    && CallsApart(platform, b.calls)
    && (forall p :: p in b.polls ==> PollIsSound(b.table, b.polls[p]) && PollIsFresh(b.handed, b.polls[p]))
    && PollsApart(platform, b.polls)
    && (forall i :: i in b.handed ==> HandedIsSound(b.table, i))
    && HandedOnce(b.handed)
  }

  // ---------------------------------------------------------------- every step keeps it

  /** Rows keep what instructions carry, and never become PENDING again. */
  ghost predicate Grows(t: Table, t': Table) {
    forall id :: id in t.rows ==>
      && id in t'.rows && t'.rows[id].event == t.rows[id].event
      && t'.rows[id].requestedVolume == t.rows[id].requestedVolume
      && (t'.rows[id].status == Pending ==> t.rows[id].status == Pending)
  }

  lemma StillCarries(t: Table, t': Table, i: Instruction)
    requires Grows(t, t')
    ensures CarriesRow(t, i) ==> CarriesRow(t', i)
    ensures HandedIsSound(t, i) ==> HandedIsSound(t', i)
  {}

  lemma StillSound(platform: Platform, t: Table, t': Table, b: Backend)
    requires Grows(t, t')
    requires forall p :: p in b.polls ==> PollIsSound(t, b.polls[p])
    requires forall i :: i in b.handed ==> HandedIsSound(t, i)
    ensures forall p :: p in b.polls ==> PollIsSound(t', b.polls[p])
    ensures forall i :: i in b.handed ==> HandedIsSound(t', i)
  {
    forall i | i in b.handed ensures HandedIsSound(t', i) { StillCarries(t, t', i); }
    forall p | p in b.polls ensures PollIsSound(t', b.polls[p]) {
      if b.polls[p].instruction.Some? { StillCarries(t, t', b.polls[p].instruction.value); }
    }
  }

  lemma MarkGrows(t: Table, id: string, status: Status, reason: Option<string>)
    requires ValidTable(t) && status != Pending
    ensures Grows(t, Mark(t, id, status, reason)) && ValidTable(Mark(t, id, status, reason))
  {
    if id in t.rows {
      UpdateKeepsValid(t, id,
        t.rows[id].(status := status, reason := if reason.Some? then reason else t.rows[id].reason));
    }
  }

  lemma RecordGrows(b: Backend, r: Result)
    requires ValidTable(b.table)
    ensures Grows(b.table, AfterRecord(b, r).table) && ValidTable(AfterRecord(b, r).table)
  {
    if r.copyId in b.table.rows {
      var row := AfterRecord(b, r).table.rows[r.copyId];
      UpdateKeepsValid(b.table, r.copyId, row);
    }
  }

  lemma BeginKeeps(platform: Platform, b: Backend, step: Step)
    requires Inv(platform, b) && Enabled(b, step) && step.Begin? && step.slave.platform == platform
    ensures Inv(platform, Next(b, step))
  {
    var c := Next(b, step).calls[step.call];
    assert CallIsSound(platform, b.table, c);
  }

  lemma CreateKeeps(platform: Platform, b: Backend, n: nat, id: string)
    requires Inv(platform, b) && Enabled(b, Create(n, id))
    ensures Inv(platform, AfterCreate(b, n, id))
  {
    var c, b' := b.calls[n], AfterCreate(b, n, id);
    assert CallIsSound(platform, b.table, c);
    if !HasEvent(b.table, c.event.eventId) {
      var row := NewRow(c.event, c.decision);
      InsertKeepsValid(b.table, id, row);
      assert Grows(b.table, b'.table);
      StillSound(platform, b.table, b'.table, b);
      if c.decision.Admit? {
        PersistedIsNear(c.event, c.decision.volume);
        assert CallIsSound(platform, b'.table, b'.calls[n]);
      }
      forall m | m in b'.calls && m != n ensures CallIsSound(platform, b'.table, b'.calls[m]) {
        assert CallIsSound(platform, b.table, b.calls[m]);
        if b.calls[m].Delivering? { StillCarries(b.table, b'.table, b.calls[m].instruction); }
      }
    }
  }

  /** Marking one row disturbs no MT5 call but the one that held the row. */
  lemma OtherCallsKeep(platform: Platform, b: Backend, t': Table, id: string, m: nat)
    requires Inv(platform, b) && Grows(b.table, t') && m in b.calls
    requires forall other :: other in b.table.rows && other != id ==> t'.rows[other] == b.table.rows[other]
    requires platform == Mt5 && b.calls[m].Delivering? ==> b.calls[m].instruction.copyId != id
    ensures CallIsSound(platform, t', b.calls[m])
  {
    assert CallIsSound(platform, b.table, b.calls[m]);
    if b.calls[m].Delivering? { StillCarries(b.table, t', b.calls[m].instruction); }
  }

  /** Ending calls and polls and marking one row; in MT5 the row is held by no other call. */
  lemma MarkKeeps(platform: Platform, b: Backend, b': Backend, id: string, status: Status, reason: Option<string>)
    requires Inv(platform, b) && status != Pending
    requires b'.table == Mark(b.table, id, status, reason) && b'.handed == b.handed
    requires b'.calls == b.calls - (b.calls.Keys - b'.calls.Keys)
             && b'.polls == b.polls - (b.polls.Keys - b'.polls.Keys)
    requires platform == Mt5 ==>
      forall m :: m in b'.calls && b'.calls[m].Delivering? ==> b'.calls[m].instruction.copyId != id
    ensures Inv(platform, b') && Grows(b.table, b'.table)
  {
    MarkGrows(b.table, id, status, reason);
    StillSound(platform, b.table, b'.table, b);
    forall m | m in b'.calls ensures CallIsSound(platform, b'.table, b'.calls[m]) {
      OtherCallsKeep(platform, b, b'.table, id, m);
    }
  }

  lemma HandOverKeeps(platform: Platform, b: Backend, i: Instruction)
    requires Inv(platform, b) && HandedIsSound(b.table, i)
    requires forall h :: h in b.handed ==> h.copyId != i.copyId
    requires forall p :: p in b.polls ==> b.polls[p].copyId != i.copyId
    ensures Inv(platform, b.(handed := b.handed + [i]))
  {
    HandedOneMore(b.handed, i);
    forall p | p in b.polls ensures PollIsFresh(b.handed + [i], b.polls[p]) {
      assert PollIsFresh(b.handed, b.polls[p]);
    }
  }

  lemma MarkedIsHandable(t: Table, i: Instruction)
    requires CarriesRow(t, i)
    ensures HandedIsSound(Mark(t, i.copyId, Sent, None), i)
  {}

  lemma DeliverKeeps(platform: Platform, b: Backend, n: nat, link: Link)
    requires Inv(platform, b) && Enabled(b, Deliver(n, link))
    ensures Inv(platform, AfterDeliver(b, n, link))
  {
    var c := b.calls[n];
    var id := c.instruction.copyId;
    assert CallIsSound(platform, b.table, c);
    var ended := b.(calls := b.calls - {n});
    if link == Offline {
      MarkKeeps(platform, b, AfterDeliver(b, n, link), id, Failed, Some("SLAVE_OFFLINE"));
    } else if c.platform == Mt5 && link == Broken {
      MarkKeeps(platform, b, AfterDeliver(b, n, link), id, Failed, Some("SEND_FAILED"));
    } else if c.platform == Mt5 {
      PushKeeps(platform, b, n);
    }
  }

  lemma PushKeeps(platform: Platform, b: Backend, n: nat)
    requires Inv(platform, b) && platform == Mt5 && n in b.calls && b.calls[n].Delivering?
    ensures Inv(platform, AfterDeliver(b, n, Up))
  {
    var i := b.calls[n].instruction;
    assert CallIsSound(platform, b.table, b.calls[n]);
    var marked := b.(calls := b.calls - {n}, table := Mark(b.table, i.copyId, Sent, None));
    MarkKeeps(platform, b, marked, i.copyId, Sent, None);
    MarkedIsHandable(b.table, i);
    forall h | h in b.handed ensures h.copyId != i.copyId { assert HandedIsSound(b.table, h); }
    HandOverKeeps(platform, marked, i);
  }

  lemma HandedOneMore(handed: seq<Instruction>, i: Instruction)
    requires HandedOnce(handed) && forall h :: h in handed ==> h.copyId != i.copyId
    ensures HandedOnce(handed + [i])
  {}

  lemma PollReadKeeps(platform: Platform, b: Backend, p: nat, symbols: map<string, string>)
    requires Inv(platform, b) && platform == Mt4 && b.polls == map[]
    ensures Inv(platform, AfterPollRead(b, p, symbols))
  {
    var b' := AfterPollRead(b, p, symbols);
    OldestFinds(b.table.ids, b.table.rows, IsPending());
    var found := Oldest(b.table.ids, b.table.rows, IsPending());
    if found.Some? && found.value in b.table.rows {
      var row := b.table.rows[found.value];
      assert Near(row.requestedVolume, row.requestedVolume, HALF_VOLUME_UNIT);
      assert RowIsSound(row);
      assert PollIsSound(b.table, b'.polls[p]);
      forall i | i in b.handed ensures i.copyId != found.value { assert HandedIsSound(b.table, i); }
    }
  }

  lemma PollWriteKeeps(platform: Platform, b: Backend, p: nat)
    requires Inv(platform, b) && p in b.polls
    ensures Inv(platform, AfterPollWrite(b, p))
  {
    var poll := b.polls[p];
    assert PollIsSound(b.table, poll) && PollIsFresh(b.handed, poll);
    if poll.instruction.None? {
      MarkKeeps(platform, b, AfterPollWrite(b, p), poll.copyId, Failed, Some("NO_MATCHING_OPEN_COPY"));
    } else {
      var i := poll.instruction.value;
      var marked := b.(polls := b.polls - {p}, table := Mark(b.table, i.copyId, Sent, None));
      MarkKeeps(platform, b, marked, i.copyId, Sent, None);
      MarkedIsHandable(b.table, i);
      HandOverKeeps(platform, marked, i);
    }
  }

  lemma RecordKeeps(platform: Platform, b: Backend, k: nat, r: Result)
    requires Inv(platform, b) && k < |b.handed| && r.copyId == b.handed[k].copyId
    ensures Inv(platform, AfterRecord(b, r))
  {
    var b' := AfterRecord(b, r);
    RecordGrows(b, r);
    StillSound(platform, b.table, b'.table, b);
    assert HandedIsSound(b.table, b.handed[k]);
    forall m | m in b'.calls ensures CallIsSound(platform, b'.table, b'.calls[m]) {
      assert CallIsSound(platform, b.table, b.calls[m]);
      OtherCallsKeep(platform, b, b'.table, r.copyId, m);
    }
  }

  lemma StepKeeps(platform: Platform, s: State, e: Event)
    requires Inv(platform, s.backend) && Allowed(platform, SERIAL, s, e)
    ensures Inv(platform, After(platform, s, e).backend)
  {
    match e
    case Act(Begin(_, _, _, _)) => BeginKeeps(platform, s.backend, e.step);
    case Act(Create(n, id)) => CreateKeeps(platform, s.backend, n, id);
    case Act(Deliver(n, link)) => DeliverKeeps(platform, s.backend, n, link);
    case Act(PollRead(p, symbols)) => PollReadKeeps(platform, s.backend, p, symbols);
    case Act(PollWrite(p)) => PollWriteKeeps(platform, s.backend, p);
    case Execute(_) =>
    case Report(k) => RecordKeeps(platform, s.backend, k, ResultOf(s.backend.handed[k], s.outcomes[k]));
  }

  lemma {:induction false} RunKeeps(platform: Platform, d: Discipline, es: seq<Event>)
    requires d.serial && Legal(platform, d, es)
    ensures Inv(platform, Final(platform, d, es).backend)
  {
    if es != [] {
      RunKeeps(platform, d, es[..|es| - 1]);
      StepKeeps(platform, Final(platform, d, es[..|es| - 1]), es[|es| - 1]);
    }
  }

  predicate SameEvent(t: Table, x: string, y: string) {
    x in t.rows && y in t.rows && t.rows[x].event.eventId == t.rows[y].event.eventId
  }

  lemma CreateKeepsTable(b: Backend, n: nat, id: string)
    requires ValidTable(b.table) && Enabled(b, Create(n, id))
    ensures ValidTable(AfterCreate(b, n, id).table)
  {
    var c := b.calls[n];
    if !HasEvent(b.table, c.event.eventId) { InsertKeepsValid(b.table, id, NewRow(c.event, c.decision)); }
  }

  lemma DeliverKeepsTable(b: Backend, n: nat, link: Link)
    requires ValidTable(b.table) && Enabled(b, Deliver(n, link))
    ensures ValidTable(AfterDeliver(b, n, link).table)
  {
    var id := b.calls[n].instruction.copyId;
    MarkGrows(b.table, id, Failed, Some("SLAVE_OFFLINE"));
    MarkGrows(b.table, id, Failed, Some("SEND_FAILED"));
    MarkGrows(b.table, id, Sent, None);
  }

  lemma PollWriteKeepsTable(b: Backend, p: nat)
    requires ValidTable(b.table) && p in b.polls
    ensures ValidTable(AfterPollWrite(b, p).table)
  {
    MarkGrows(b.table, b.polls[p].copyId, Failed, Some("NO_MATCHING_OPEN_COPY"));
    MarkGrows(b.table, b.polls[p].copyId, Sent, None);
  }

  lemma StepKeepsTable(platform: Platform, s: State, e: Event)
    requires ValidTable(s.backend.table) && Permitted(platform, s, e)
    ensures ValidTable(After(platform, s, e).backend.table)
  {
    match e
    case Act(Begin(_, _, _, _)) =>
    case Act(Create(n, id)) => CreateKeepsTable(s.backend, n, id);
    case Act(Deliver(n, link)) => DeliverKeepsTable(s.backend, n, link);
    case Act(PollRead(_, _)) =>
    case Act(PollWrite(p)) => PollWriteKeepsTable(s.backend, p);
    case Execute(_) =>
    case Report(k) => RecordGrows(s.backend, ResultOf(s.backend.handed[k], s.outcomes[k]));
  }

  /** Whatever is redelivered and however calls, polls and results interleave, a trade event has one row. */
  lemma {:induction false} OneRowPerEvent(platform: Platform, d: Discipline, es: seq<Event>)
    requires Legal(platform, d, es)
    ensures var t := Final(platform, d, es).backend.table;
            ValidTable(t) && forall x, y :: SameEvent(t, x, y) ==> x == y
  {
    if es != [] {
      OneRowPerEvent(platform, d, es[..|es| - 1]);
      StepKeepsTable(platform, Final(platform, d, es[..|es| - 1]), es[|es| - 1]);
    }
  }

  /** With polls one at a time, no two instructions handed out are for the same trade event. */
  lemma EffectsAtMostOnce(platform: Platform, d: Discipline, es: seq<Event>)
    requires d.serial && Legal(platform, d, es)
    ensures var b := Final(platform, d, es).backend;
            && (forall i :: i in b.handed ==> i.copyId in b.table.rows)
            && (forall j, k :: 0 <= j < k < |b.handed| ==>
                  !SameEvent(b.table, b.handed[j].copyId, b.handed[k].copyId))
  {
    RunKeeps(platform, d, es);
    var b := Final(platform, d, es).backend;
    forall i | i in b.handed ensures i.copyId in b.table.rows { assert HandedIsSound(b.table, i); }
  }

  // ---------------------------------------------------------------- two polls at once

  /** An admitted MT4 OPEN, read by two polls before either has written its row. */
  function OverlappingPolls(slave: Slave, account: MasterAccount, e: TradeEvent, id: string): seq<Event> {
    [Act(Begin(0, slave, account, e)), Act(Create(0, id)), Act(Deliver(0, Up)),
     Act(PollRead(0, slave.symbols)), Act(PollRead(1, slave.symbols)), Act(PollWrite(0)), Act(PollWrite(1))]
  }

  lemma {:induction false} QueuedForPoll(slave: Slave, account: MasterAccount, e: TradeEvent, id: string)
    returns (es: seq<Event>, row: CopyOrder)
    requires slave.platform == Mt4 && e.action == Open && IsTraceable(id)
    requires Decide(slave, account, START.table, e).Admit?
    ensures es == OverlappingPolls(slave, account, e, id)[..3]
    ensures Legal(Mt4, ANY, es) && row.status == Pending && row.event == Persisted(e)
    ensures Final(Mt4, ANY, es) == State(Backend(Table([id], map[id := row]), map[], map[], []), [], {}, [])
  {
    var d := Decide(slave, account, START.table, e);
    row := NewRow(e, d);
    assert !HasEvent(START.table, e.eventId);
    var e0, e1, e2 := Act(Begin(0, slave, account, e)), Act(Create(0, id)), Act(Deliver(0, Up));
    Extend(Mt4, ANY, [], e0);
    Extend(Mt4, ANY, [e0], e1);
    assert [e0] + [e1] == [e0, e1] && [] + [e0] == [e0];
    Extend(Mt4, ANY, [e0, e1], e2);
    es := [e0, e1, e2];
    assert [e0, e1] + [e2] == es;
    assert (map[0 := Creating(e, d, ResolveSymbol(slave.symbols, e.symbol), Mt4)])
             [0 := Delivering(PushInstruction(id, e, d, ResolveSymbol(slave.symbols, e.symbol)), Mt4)] - {0} == map[];
  }

  lemma PollOnce(b: Backend, n: nat, symbols: map<string, string>, id: string)
    requires b.table.ids == [id] && id in b.table.rows && b.table.rows[id].status == Pending
    ensures AfterPollRead(b, n, symbols) == b.(polls := b.polls[n := Poll(id, PollInstruction(b.table, symbols, id))])
  {}

  lemma {:induction false} BothRead(slave: Slave, account: MasterAccount, e: TradeEvent, id: string)
    returns (es: seq<Event>)
    requires slave.platform == Mt4 && e.action == Open && IsTraceable(id)
    requires Decide(slave, account, START.table, e).Admit?
    ensures es == OverlappingPolls(slave, account, e, id)[..5] && Legal(Mt4, ANY, es)
    ensures var b := Final(Mt4, ANY, es).backend;
            b.handed == [] && 0 in b.polls && 1 in b.polls && b.polls[0] == b.polls[1]
            && b.polls[0].instruction.Some? && b.polls[0].instruction.value.copyId == id
  {
    var es0, row := QueuedForPoll(slave, account, e, id);
    var r0, r1 := Act(PollRead(0, slave.symbols)), Act(PollRead(1, slave.symbols));
    var b := Final(Mt4, ANY, es0).backend;
    PollOnce(b, 0, slave.symbols, id);
    PollOnce(AfterPollRead(b, 0, slave.symbols), 1, slave.symbols, id);
    Extend(Mt4, ANY, es0, r0);
    Extend(Mt4, ANY, es0 + [r0], r1);
    es := es0 + [r0] + [r1];
  }

  /** The poll reads before it writes: without the one-at-a-time rule, the same row is handed out twice. */
  lemma OverlappingPollsHandTwice(slave: Slave, account: MasterAccount, e: TradeEvent, id: string)
    requires slave.platform == Mt4 && e.action == Open && IsTraceable(id)
    requires Decide(slave, account, START.table, e).Admit?
    ensures var es := OverlappingPolls(slave, account, e, id);
            && Legal(Mt4, ANY, es)
            && var handed := Final(Mt4, ANY, es).backend.handed;
               |handed| == 2 && handed[0].copyId == handed[1].copyId == id
  {
    var es := BothRead(slave, account, e, id);
    Extend(Mt4, ANY, es, Act(PollWrite(0)));
    Extend(Mt4, ANY, es + [Act(PollWrite(0))], Act(PollWrite(1)));
    assert es + [Act(PollWrite(0))] + [Act(PollWrite(1))] == OverlappingPolls(slave, account, e, id);
  }
}
