/**
 * The copy_orders table of all Slaves, with the calls and polls under way and the instructions sent: what each step of
 * one Slave does to the whole, and what the whole looks like to one Slave. Every row, call and poll belongs to one
 * Slave.
 */
module CopyTable {
  import opened Common
  import opened ReconciliationEngine
  import opened ReconciliationTheorems
  import opened CopyOrders
  import opened CopyProtocol

  datatype SlaveRow = SlaveRow(slaveId: string, row: CopyOrder)

  /** A call or a poll, numbered within its Slave. */
  datatype Key = Key(slaveId: string, number: nat)

  // ---------------------------------------------------------------- one Slave's part of the table

  predicate Owns(rows: map<string, SlaveRow>, slaveId: string, id: string) {
    id in rows && rows[id].slaveId == slaveId
  }

  function OwnIds(ids: seq<string>, rows: map<string, SlaveRow>, slaveId: string): seq<string> {
    if ids == [] then []
    else
      OwnIds(ids[..|ids| - 1], rows, slaveId)
      + if Owns(rows, slaveId, ids[|ids| - 1]) then [ids[|ids| - 1]] else []
  }

  function OwnRows(rows: map<string, SlaveRow>, slaveId: string): map<string, CopyOrder> {
    map id | id in rows && rows[id].slaveId == slaveId :: rows[id].row
  }

  function OwnTable(ids: seq<string>, rows: map<string, SlaveRow>, slaveId: string): Table {
    Table(OwnIds(ids, rows, slaveId), OwnRows(rows, slaveId))
  }

  /** One Slave's calls or polls. */
  function Own<V>(all: map<Key, V>, slaveId: string): map<nat, V> {
    map k | k in all && k.slaveId == slaveId :: k.number := all[k]
  }

  function OwnChannel(channels: map<string, seq<Instruction>>, slaveId: string): seq<Instruction> {
    if slaveId in channels then channels[slaveId] else []
  }

  /** Everything the engine holds. */
  datatype Engine = Engine(
    ids: seq<string>, rows: map<string, SlaveRow>, calls: map<Key, Call>, polls: map<Key, Poll>,
    channels: map<string, seq<Instruction>>)

  const EMPTY := Engine([], map[], map[], map[], map[])

  /** The part of it that concerns one Slave. */
  ghost function ViewOf(e: Engine, slaveId: string): Backend {
    Backend(OwnTable(e.ids, e.rows, slaveId), Own(e.calls, slaveId), Own(e.polls, slaveId),
            OwnChannel(e.channels, slaveId))
  }

  lemma {:induction false} OwnIdsDependOnOwners(
      ids: seq<string>, rows: map<string, SlaveRow>, rows': map<string, SlaveRow>, slaveId: string)
    requires forall id :: id in ids ==> (Owns(rows, slaveId, id) <==> Owns(rows', slaveId, id))
    ensures OwnIds(ids, rows, slaveId) == OwnIds(ids, rows', slaveId)
  {
    if ids != [] {
      assert ids == ids[..|ids| - 1] + [ids[|ids| - 1]];
      OwnIdsDependOnOwners(ids[..|ids| - 1], rows, rows', slaveId);
    }
  }

  lemma InsertIsOwn(
      ids: seq<string>, rows: map<string, SlaveRow>, id: string, slaveId: string, row: CopyOrder, t: string)
    requires id !in ids && id !in rows
    ensures OwnTable(ids + [id], rows[id := SlaveRow(slaveId, row)], t)
         == if t == slaveId then Insert(OwnTable(ids, rows, t), id, row) else OwnTable(ids, rows, t)
  {
    var rows' := rows[id := SlaveRow(slaveId, row)];
    assert (ids + [id])[..|ids|] == ids;
    OwnIdsDependOnOwners(ids, rows, rows', t);
    assert OwnRows(rows', t) == if t == slaveId then OwnRows(rows, t)[id := row] else OwnRows(rows, t);
  }

  lemma UpdateIsOwn(ids: seq<string>, rows: map<string, SlaveRow>, id: string, row: CopyOrder, t: string)
    requires id in rows
    ensures OwnTable(ids, rows[id := rows[id].(row := row)], t)
         == if t == rows[id].slaveId then Update(OwnTable(ids, rows, t), id, row) else OwnTable(ids, rows, t)
  {
    var rows' := rows[id := rows[id].(row := row)];
    OwnIdsDependOnOwners(ids, rows, rows', t);
    assert OwnRows(rows', t) == if t == rows[id].slaveId then OwnRows(rows, t)[id := row] else OwnRows(rows, t);
  }

  lemma SetIsOwn<V>(all: map<Key, V>, slaveId: string, n: nat, v: V, t: string)
    ensures Own(all[Key(slaveId, n) := v], t) == if t == slaveId then Own(all, t)[n := v] else Own(all, t)
  {}

  lemma EndIsOwn<V>(all: map<Key, V>, slaveId: string, n: nat, t: string)
    ensures Own(all - {Key(slaveId, n)}, t) == if t == slaveId then Own(all, t) - {n} else Own(all, t)
  {}

  lemma OwnIs<V>(all: map<Key, V>, slaveId: string, n: nat)
    ensures n in Own(all, slaveId) <==> Key(slaveId, n) in all
    ensures n in Own(all, slaveId) ==> Own(all, slaveId)[n] == all[Key(slaveId, n)]
  {}

  lemma OwnRowIs(rows: map<string, SlaveRow>, slaveId: string, id: string)
    ensures id in OwnRows(rows, slaveId) <==> Owns(rows, slaveId, id)
    ensures Owns(rows, slaveId, id) ==> OwnRows(rows, slaveId)[id] == rows[id].row
  {}

  lemma OwnEvents(ids: seq<string>, rows: map<string, SlaveRow>, slaveId: string, eventId: string)
    requires ToSet(ids) == rows.Keys
    ensures HasEvent(OwnTable(ids, rows, slaveId), eventId)
            <==> exists id :: id in ids && Owns(rows, slaveId, id) && rows[id].row.event.eventId == eventId
  {
    var t := OwnTable(ids, rows, slaveId);
    if id :| id in t.rows && t.rows[id].event.eventId == eventId {
      assert id in ToSet(ids) && Owns(rows, slaveId, id);
    }
    if id :| id in ids && Owns(rows, slaveId, id) && rows[id].row.event.eventId == eventId {
      assert t.rows[id].event.eventId == eventId;
    }
  }

  lemma SendIsOwn(channels: map<string, seq<Instruction>>, slaveId: string, i: Instruction, t: string)
    ensures OwnChannel(channels[slaveId := OwnChannel(channels, slaveId) + [i]], t)
         == if t == slaveId then OwnChannel(channels, t) + [i] else OwnChannel(channels, t)
  {}

  /** A prefix of the table one row longer. */
  lemma OwnStep(ids: seq<string>, rows: map<string, SlaveRow>, slaveId: string, i: nat)
    requires i < |ids|
    ensures OwnIds(ids[..i + 1], rows, slaveId)
         == if Owns(rows, slaveId, ids[i]) then OwnIds(ids[..i], rows, slaveId) + [ids[i]]
           else OwnIds(ids[..i], rows, slaveId)
  {
    assert ids[..i + 1][..i] == ids[..i];
  }

  lemma {:induction false} OwnIdsAre(ids: seq<string>, rows: map<string, SlaveRow>, slaveId: string)
    ensures forall id :: id in OwnIds(ids, rows, slaveId) <==> id in ids && Owns(rows, slaveId, id)
  {
    if ids != [] {
      assert ids == ids[..|ids| - 1] + [ids[|ids| - 1]];
      OwnIdsAre(ids[..|ids| - 1], rows, slaveId);
    }
  }

  lemma OwnTableIsListed(ids: seq<string>, rows: map<string, SlaveRow>, slaveId: string)
    requires ToSet(ids) == rows.Keys
    ensures var t := OwnTable(ids, rows, slaveId); forall id :: id in t.rows ==> id in t.ids
  {
    OwnIdsAre(ids, rows, slaveId);
    assert forall id :: id in rows ==> id in ToSet(ids);
  }

  lemma ClosedTicketsListed(t: Table)
    requires forall id :: id in t.rows ==> id in t.ids
    ensures (set c | c in ClosedCopies(t) :: c.masterTicket) == ClosedTickets(t)
  {
    forall m ensures m in ClosedTickets(t) <==> exists c :: c in ClosedCopies(t) && c.masterTicket == m {
      if m in ClosedTickets(t) {
        var id :| id in t.rows && Done(t.rows[id], Close) && t.rows[id].event.masterTicket == m;
        var c := ClosedCopy(m, t.rows[id].slaveTicket);
        CollectMember(t.ids, ClosedRule(t), c);
        assert c in ClosedRule(t)(id);
      }
      if c :| c in ClosedCopies(t) && c.masterTicket == m { CollectMember(t.ids, ClosedRule(t), c); }
    }
  }

  lemma LatestStep(ids: seq<string>, rows: map<string, CopyOrder>, p: CopyOrder -> bool, id: string)
    ensures Latest(ids + [id], rows, p) == if Matches(rows, id, p) then Some(id) else Latest(ids, rows, p)
  {
    assert (ids + [id])[..|ids|] == ids;
  }

  lemma {:induction false} OldestStep(ids: seq<string>, rows: map<string, CopyOrder>, p: CopyOrder -> bool, id: string)
    ensures Oldest(ids + [id], rows, p)
         == if Oldest(ids, rows, p).Some? then Oldest(ids, rows, p) else if Matches(rows, id, p) then Some(id) else None
  {
    if ids == [] {
      assert [id][1..] == [];
    } else {
      assert (ids + [id])[1..] == ids[1..] + [id];
      OldestStep(ids[1..], rows, p, id);
    }
  }

  lemma CollectOneMore<R>(ids: seq<string>, id: string, f: string -> seq<R>)
    ensures Collect(ids + [id], f) == Collect(ids, f) + f(id)
  {
    assert (ids + [id])[..|ids|] == ids;
  }

  // ---------------------------------------------------------------- what a change does to one Slave's part

  /** One row of this Slave with a new status. */
  function RowMarked(rows: map<string, SlaveRow>, slaveId: string, id: string, status: Status, reason: Option<string>)
    : map<string, SlaveRow>
  {
    if Owns(rows, slaveId, id) then
      var row := rows[id].row;
      rows[id := rows[id].(row := row.(status := status, reason := if reason.Some? then reason else row.reason))]
    else rows
  }

  lemma RowMarkedIsOwn(ids: seq<string>, rows: map<string, SlaveRow>, slaveId: string, id: string, status: Status,
                       reason: Option<string>, t: string)
    ensures OwnTable(ids, RowMarked(rows, slaveId, id, status, reason), t)
         == if t == slaveId then Mark(OwnTable(ids, rows, t), id, status, reason) else OwnTable(ids, rows, t)
  {
    OwnRowIs(rows, slaveId, id);
    if Owns(rows, slaveId, id) {
      var row := rows[id].row;
      UpdateIsOwn(ids, rows, id, row.(status := status, reason := if reason.Some? then reason else row.reason), t);
    }
  }

  function Sending(channels: map<string, seq<Instruction>>, slaveId: string, i: Instruction)
    : map<string, seq<Instruction>>
  {
    channels[slaveId := OwnChannel(channels, slaveId) + [i]]
  }

  // ---------------------------------------------------------------- what an update looks like to each Slave

  lemma CallIsLocal(e: Engine, slaveId: string, n: nat, c: Call, t: string)
    ensures var b, b' := ViewOf(e, t), ViewOf(e.(calls := e.calls[Key(slaveId, n) := c]), t);
            b' == if t == slaveId then b.(calls := b.calls[n := c]) else b
  {
    SetIsOwn(e.calls, slaveId, n, c, t);
  }

  lemma EndIsLocal(e: Engine, slaveId: string, n: nat, t: string)
    ensures var b, b' := ViewOf(e, t), ViewOf(e.(calls := e.calls - {Key(slaveId, n)}), t);
            b' == if t == slaveId then b.(calls := b.calls - {n}) else b
  {
    EndIsOwn(e.calls, slaveId, n, t);
  }

  lemma RowIsLocal(e: Engine, slaveId: string, id: string, row: CopyOrder, t: string)
    requires id !in e.ids && id !in e.rows
    ensures var b := ViewOf(e, t);
            var b' := ViewOf(e.(ids := e.ids + [id], rows := e.rows[id := SlaveRow(slaveId, row)]), t);
            b' == if t == slaveId then b.(table := Insert(b.table, id, row)) else b
  {
    InsertIsOwn(e.ids, e.rows, id, slaveId, row, t);
  }

  lemma MarkIsLocal(e: Engine, slaveId: string, id: string, status: Status, reason: Option<string>, t: string)
    ensures var b, b' := ViewOf(e, t), ViewOf(e.(rows := RowMarked(e.rows, slaveId, id, status, reason)), t);
            b' == if t == slaveId then b.(table := Mark(b.table, id, status, reason)) else b
  {
    RowMarkedIsOwn(e.ids, e.rows, slaveId, id, status, reason, t);
  }

  lemma SendIsLocal(e: Engine, slaveId: string, i: Instruction, t: string)
    ensures var b, b' := ViewOf(e, t), ViewOf(e.(channels := Sending(e.channels, slaveId, i)), t);
            b' == if t == slaveId then b.(handed := b.handed + [i]) else b
  {
    SendIsOwn(e.channels, slaveId, i, t);
  }

  lemma PollIsLocal(e: Engine, slaveId: string, n: nat, p: Poll, t: string)
    ensures var b, b' := ViewOf(e, t), ViewOf(e.(polls := e.polls[Key(slaveId, n) := p]), t);
            b' == if t == slaveId then b.(polls := b.polls[n := p]) else b
  {
    SetIsOwn(e.polls, slaveId, n, p, t);
  }

  lemma PollEndIsLocal(e: Engine, slaveId: string, n: nat, t: string)
    ensures var b, b' := ViewOf(e, t), ViewOf(e.(polls := e.polls - {Key(slaveId, n)}), t);
            b' == if t == slaveId then b.(polls := b.polls - {n}) else b
  {
    EndIsOwn(e.polls, slaveId, n, t);
  }

  /** The end of a call with a status for its row. */
  lemma DropIsLocal(e: Engine, slaveId: string, n: nat, id: string, status: Status, reason: Option<string>, t: string)
    ensures var b := ViewOf(e, t);
            var b' := ViewOf(e.(calls := e.calls - {Key(slaveId, n)},
                                rows := RowMarked(e.rows, slaveId, id, status, reason)), t);
            b' == if t == slaveId then b.(calls := b.calls - {n}, table := Mark(b.table, id, status, reason)) else b
  {
    EndIsLocal(e, slaveId, n, t);
    MarkIsLocal(e.(calls := e.calls - {Key(slaveId, n)}), slaveId, id, status, reason, t);
  }

  /** The end of a call with its instruction sent. */
  lemma PushIsLocal(e: Engine, slaveId: string, n: nat, i: Instruction, t: string)
    ensures var b := ViewOf(e, t);
            var b' := ViewOf(e.(calls := e.calls - {Key(slaveId, n)},
                                rows := RowMarked(e.rows, slaveId, i.copyId, Sent, None),
                                channels := Sending(e.channels, slaveId, i)), t);
            b' == if t == slaveId then
                    b.(calls := b.calls - {n}, table := Mark(b.table, i.copyId, Sent, None), handed := b.handed + [i])
                  else b
  {
    var e' := e.(calls := e.calls - {Key(slaveId, n)}, rows := RowMarked(e.rows, slaveId, i.copyId, Sent, None));
    DropIsLocal(e, slaveId, n, i.copyId, Sent, None, t);
    SendIsLocal(e', slaveId, i, t);
  }

  /** The end of a poll with a status for its row. */
  lemma PollFailsLocal(
      e: Engine, slaveId: string, n: nat, id: string, status: Status, reason: Option<string>, t: string)
    ensures var b := ViewOf(e, t);
            var b' := ViewOf(e.(polls := e.polls - {Key(slaveId, n)},
                                rows := RowMarked(e.rows, slaveId, id, status, reason)), t);
            b' == if t == slaveId then b.(polls := b.polls - {n}, table := Mark(b.table, id, status, reason)) else b
  {
    PollEndIsLocal(e, slaveId, n, t);
    MarkIsLocal(e.(polls := e.polls - {Key(slaveId, n)}), slaveId, id, status, reason, t);
  }

  /** The end of a poll with its instruction handed over. */
  lemma PollHandsLocal(e: Engine, slaveId: string, n: nat, id: string, i: Instruction, t: string)
    ensures var b := ViewOf(e, t);
            var b' := ViewOf(e.(polls := e.polls - {Key(slaveId, n)},
                                rows := RowMarked(e.rows, slaveId, id, Sent, None),
                                channels := Sending(e.channels, slaveId, i)), t);
            b' == if t == slaveId then
                    b.(polls := b.polls - {n}, table := Mark(b.table, id, Sent, None), handed := b.handed + [i])
                  else b
  {
    var e' := e.(polls := e.polls - {Key(slaveId, n)}, rows := RowMarked(e.rows, slaveId, id, Sent, None));
    PollFailsLocal(e, slaveId, n, id, Sent, None, t);
    SendIsLocal(e', slaveId, i, t);
  }

  /** A row of this Slave updated. */
  lemma UpdateIsLocal(e: Engine, slaveId: string, id: string, row: CopyOrder, t: string)
    requires Owns(e.rows, slaveId, id)
    ensures var b, b' := ViewOf(e, t), ViewOf(e.(rows := e.rows[id := e.rows[id].(row := row)]), t);
            b' == if t == slaveId then b.(table := Update(b.table, id, row)) else b
  {
    UpdateIsOwn(e.ids, e.rows, id, row, t);
  }

  /** A row of this Slave created, and its call ended or carried on. */
  lemma CreateIsLocal(e: Engine, slaveId: string, n: nat, id: string, row: CopyOrder, next: Option<Call>, t: string)
    requires id !in e.ids && id !in e.rows
    ensures var b := ViewOf(e, t);
            var calls' := if next.Some? then e.calls[Key(slaveId, n) := next.value] else e.calls - {Key(slaveId, n)};
            var b' := ViewOf(e.(ids := e.ids + [id], rows := e.rows[id := SlaveRow(slaveId, row)], calls := calls'), t);
            b' == if t == slaveId then
                    b.(table := Insert(b.table, id, row),
                       calls := if next.Some? then b.calls[n := next.value] else b.calls - {n})
                  else b
  {
    var e' := e.(ids := e.ids + [id], rows := e.rows[id := SlaveRow(slaveId, row)]);
    RowIsLocal(e, slaveId, id, row, t);
    if next.Some? { CallIsLocal(e', slaveId, n, next.value, t); } else { EndIsLocal(e', slaveId, n, t); }
  }

  // ---------------------------------------------------------------- one Slave's update, seen by all

  /** Every other Slave sees what it saw before. */
  ghost predicate OthersSeeNothing(e: Engine, e': Engine, slaveId: string) {
    forall t :: t != slaveId ==> ViewOf(e', t) == ViewOf(e, t)
  }

  /** This Slave sees this, every other what it saw before. */
  ghost predicate OnlySees(e: Engine, e': Engine, slaveId: string, b: Backend) {
    ViewOf(e', slaveId) == b && OthersSeeNothing(e, e', slaveId)
  }

  lemma NothingIsSeen(e: Engine, slaveId: string)
    ensures OnlySees(e, e, slaveId, ViewOf(e, slaveId))
  {}

  lemma CallIsSeen(e: Engine, slaveId: string, n: nat, c: Call)
    ensures var b := ViewOf(e, slaveId);
            OnlySees(e, e.(calls := e.calls[Key(slaveId, n) := c]), slaveId, b.(calls := b.calls[n := c]))
  {
    var e' := e.(calls := e.calls[Key(slaveId, n) := c]);
    forall t ensures t != slaveId ==> ViewOf(e', t) == ViewOf(e, t) { CallIsLocal(e, slaveId, n, c, t); }
    CallIsLocal(e, slaveId, n, c, slaveId);
  }

  lemma EndIsSeen(e: Engine, slaveId: string, n: nat)
    ensures var b := ViewOf(e, slaveId);
            OnlySees(e, e.(calls := e.calls - {Key(slaveId, n)}), slaveId, b.(calls := b.calls - {n}))
  {
    var e' := e.(calls := e.calls - {Key(slaveId, n)});
    forall t ensures t != slaveId ==> ViewOf(e', t) == ViewOf(e, t) { EndIsLocal(e, slaveId, n, t); }
    EndIsLocal(e, slaveId, n, slaveId);
  }

  /** A row created, and its call ended or carried on. */
  function WithRow(e: Engine, slaveId: string, n: nat, id: string, row: CopyOrder, next: Option<Call>): Engine {
    e.(ids := e.ids + [id], rows := e.rows[id := SlaveRow(slaveId, row)],
       calls := if next.Some? then e.calls[Key(slaveId, n) := next.value] else e.calls - {Key(slaveId, n)})
  }

  lemma RowIsSeen(e: Engine, slaveId: string, n: nat, id: string, row: CopyOrder, next: Option<Call>)
    requires id !in e.ids && id !in e.rows
    ensures var b := ViewOf(e, slaveId);
            OnlySees(e, WithRow(e, slaveId, n, id, row, next), slaveId,
                     b.(table := Insert(b.table, id, row),
                        calls := if next.Some? then b.calls[n := next.value] else b.calls - {n}))
  {
    var e' := WithRow(e, slaveId, n, id, row, next);
    forall t ensures t != slaveId ==> ViewOf(e', t) == ViewOf(e, t) { CreateIsLocal(e, slaveId, n, id, row, next, t); }
    CreateIsLocal(e, slaveId, n, id, row, next, slaveId);
  }

  /** A call ended, its row marked. */
  function Dropped(e: Engine, slaveId: string, n: nat, id: string, status: Status, reason: Option<string>): Engine {
    e.(calls := e.calls - {Key(slaveId, n)}, rows := RowMarked(e.rows, slaveId, id, status, reason))
  }

  lemma DropIsSeen(e: Engine, slaveId: string, n: nat, id: string, status: Status, reason: Option<string>)
    ensures var b := ViewOf(e, slaveId);
            OnlySees(e, Dropped(e, slaveId, n, id, status, reason), slaveId,
                     b.(calls := b.calls - {n}, table := Mark(b.table, id, status, reason)))
  {
    var e' := Dropped(e, slaveId, n, id, status, reason);
    forall t ensures t != slaveId ==> ViewOf(e', t) == ViewOf(e, t) {
      DropIsLocal(e, slaveId, n, id, status, reason, t);
    }
    DropIsLocal(e, slaveId, n, id, status, reason, slaveId);
  }

  lemma PushIsSeen(e: Engine, slaveId: string, n: nat, i: Instruction)
    ensures var b := ViewOf(e, slaveId);
            OnlySees(e, Dropped(e, slaveId, n, i.copyId, Sent, None).(channels := Sending(e.channels, slaveId, i)),
                     slaveId, b.(calls := b.calls - {n}, table := Mark(b.table, i.copyId, Sent, None),
                                 handed := b.handed + [i]))
  {
    var e' := Dropped(e, slaveId, n, i.copyId, Sent, None).(channels := Sending(e.channels, slaveId, i));
    forall t ensures t != slaveId ==> ViewOf(e', t) == ViewOf(e, t) { PushIsLocal(e, slaveId, n, i, t); }
    PushIsLocal(e, slaveId, n, i, slaveId);
  }

  lemma PollIsSeen(e: Engine, slaveId: string, n: nat, p: Poll)
    ensures var b := ViewOf(e, slaveId);
            OnlySees(e, e.(polls := e.polls[Key(slaveId, n) := p]), slaveId, b.(polls := b.polls[n := p]))
  {
    var e' := e.(polls := e.polls[Key(slaveId, n) := p]);
    forall t ensures t != slaveId ==> ViewOf(e', t) == ViewOf(e, t) { PollIsLocal(e, slaveId, n, p, t); }
    PollIsLocal(e, slaveId, n, p, slaveId);
  }

  /** A poll ended, its row marked. */
  function Answered(e: Engine, slaveId: string, n: nat, id: string, status: Status, reason: Option<string>): Engine {
    e.(polls := e.polls - {Key(slaveId, n)}, rows := RowMarked(e.rows, slaveId, id, status, reason))
  }

  lemma PollFailsSeen(e: Engine, slaveId: string, n: nat, id: string, status: Status, reason: Option<string>)
    ensures var b := ViewOf(e, slaveId);
            OnlySees(e, Answered(e, slaveId, n, id, status, reason), slaveId,
                     b.(polls := b.polls - {n}, table := Mark(b.table, id, status, reason)))
  {
    var e' := Answered(e, slaveId, n, id, status, reason);
    forall t ensures t != slaveId ==> ViewOf(e', t) == ViewOf(e, t) {
      PollFailsLocal(e, slaveId, n, id, status, reason, t);
    }
    PollFailsLocal(e, slaveId, n, id, status, reason, slaveId);
  }

  lemma PollHandsSeen(e: Engine, slaveId: string, n: nat, id: string, i: Instruction)
    ensures var b := ViewOf(e, slaveId);
            OnlySees(e, Answered(e, slaveId, n, id, Sent, None).(channels := Sending(e.channels, slaveId, i)), slaveId,
                     b.(polls := b.polls - {n}, table := Mark(b.table, id, Sent, None), handed := b.handed + [i]))
  {
    var e' := Answered(e, slaveId, n, id, Sent, None).(channels := Sending(e.channels, slaveId, i));
    forall t ensures t != slaveId ==> ViewOf(e', t) == ViewOf(e, t) { PollHandsLocal(e, slaveId, n, id, i, t); }
    PollHandsLocal(e, slaveId, n, id, i, slaveId);
  }

  lemma UpdateIsSeen(e: Engine, slaveId: string, id: string, row: CopyOrder)
    requires Owns(e.rows, slaveId, id)
    ensures var b := ViewOf(e, slaveId);
            OnlySees(e, e.(rows := e.rows[id := e.rows[id].(row := row)]), slaveId,
                     b.(table := Update(b.table, id, row)))
  {
    var e' := e.(rows := e.rows[id := e.rows[id].(row := row)]);
    forall t ensures t != slaveId ==> ViewOf(e', t) == ViewOf(e, t) { UpdateIsLocal(e, slaveId, id, row, t); }
    UpdateIsLocal(e, slaveId, id, row, slaveId);
  }

  // ---------------------------------------------------------------- putting one Slave's part back

  /** The ids of a Slave's table that the whole does not have yet. */
  function NewIds(e: Engine, slaveId: string, t: Table): seq<string> {
    if |OwnIds(e.ids, e.rows, slaveId)| <= |t.ids| then t.ids[|OwnIds(e.ids, e.rows, slaveId)|..] else []
  }

  function PutKeyed<V>(all: map<Key, V>, slaveId: string, own: map<nat, V>): map<Key, V> {
    (map k | k in all && k.slaveId != slaveId :: all[k]) + (map n | n in own :: Key(slaveId, n) := own[n])
  }

  function PutRows(rows: map<string, SlaveRow>, slaveId: string, own: map<string, CopyOrder>): map<string, SlaveRow> {
    map id | id in rows.Keys + own.Keys :: if id in own then SlaveRow(slaveId, own[id]) else rows[id]
  }

  /** This Slave's part replaced, the others' left alone. */
  function Put(e: Engine, slaveId: string, b: Backend): Engine {
    Engine(e.ids + NewIds(e, slaveId, b.table), PutRows(e.rows, slaveId, b.table.rows),
           PutKeyed(e.calls, slaveId, b.calls), PutKeyed(e.polls, slaveId, b.polls), e.channels[slaveId := b.handed])
  }

  ghost predicate Consistent(e: Engine) { ToSet(e.ids) == e.rows.Keys }

  /** It has what the Slave had, and rows of ids that are new to the whole. */
  ghost predicate Extends(e: Engine, slaveId: string, t: Table) {
    && OwnIds(e.ids, e.rows, slaveId) <= t.ids
    && t.rows.Keys == OwnRows(e.rows, slaveId).Keys + ToSet(NewIds(e, slaveId, t))
    && forall id :: id in NewIds(e, slaveId, t) ==> id !in e.rows
  }

  lemma {:induction false} OwnIdsConcat(a: seq<string>, b: seq<string>, rows: map<string, SlaveRow>, slaveId: string)
    ensures OwnIds(a + b, rows, slaveId) == OwnIds(a, rows, slaveId) + OwnIds(b, rows, slaveId)
  {
    if b == [] {
      assert a + b == a;
    } else {
      assert (a + b)[..|a + b| - 1] == a + b[..|b| - 1];
      OwnIdsConcat(a, b[..|b| - 1], rows, slaveId);
    }
  }

  lemma {:induction false} AllOwn(ids: seq<string>, rows: map<string, SlaveRow>, slaveId: string, t: string)
    requires forall id :: id in ids ==> Owns(rows, slaveId, id)
    ensures OwnIds(ids, rows, t) == if t == slaveId then ids else []
  {
    if ids != [] {
      var front, last := ids[..|ids| - 1], ids[|ids| - 1];
      assert ids == front + [last] && last in ids;
      assert forall id :: id in front ==> id in ids;
      AllOwn(front, rows, slaveId, t);
    }
  }

  lemma KeyedIsOwn<V>(all: map<Key, V>, slaveId: string, own: map<nat, V>, t: string)
    ensures Own(PutKeyed(all, slaveId, own), t) == if t == slaveId then own else Own(all, t)
  {
    var after := PutKeyed(all, slaveId, own);
    forall n: nat ensures Key(slaveId, n) in after <==> n in own {}
    forall n ensures n in Own(after, t) <==> if t == slaveId then n in own else n in Own(all, t) {
      if n >= 0 { OwnIs(after, t, n); OwnIs(all, t, n); }
    }
  }

  /** The rows put are this Slave's own and new ones. */
  ghost predicate OwnOrNew(rows: map<string, SlaveRow>, slaveId: string, own: map<string, CopyOrder>) {
    && OwnRows(rows, slaveId).Keys <= own.Keys
    && forall id :: id in own && id in rows ==> rows[id].slaveId == slaveId
  }

  lemma RowsPutAreOwn(rows: map<string, SlaveRow>, slaveId: string, own: map<string, CopyOrder>, t: string)
    requires OwnOrNew(rows, slaveId, own)
    ensures OwnRows(PutRows(rows, slaveId, own), t) == if t == slaveId then own else OwnRows(rows, t)
    ensures forall id :: id in rows ==> (Owns(PutRows(rows, slaveId, own), t, id) <==> Owns(rows, t, id))
  {
    var after := PutRows(rows, slaveId, own);
    forall id ensures id in OwnRows(after, t) <==> if t == slaveId then id in own else id in OwnRows(rows, t) {
      OwnRowIs(rows, slaveId, id);
      OwnRowIs(rows, t, id);
    }
  }

  lemma ExtendsIsOwnOrNew(e: Engine, slaveId: string, t: Table)
    requires Extends(e, slaveId, t)
    ensures OwnOrNew(e.rows, slaveId, t.rows)
  {}

  lemma OldIdsStay(e: Engine, slaveId: string, own: map<string, CopyOrder>, t: string)
    requires Consistent(e) && OwnOrNew(e.rows, slaveId, own)
    ensures OwnIds(e.ids, PutRows(e.rows, slaveId, own), t) == OwnIds(e.ids, e.rows, t)
  {
    var rows' := PutRows(e.rows, slaveId, own);
    RowsPutAreOwn(e.rows, slaveId, own, t);
    forall id | id in e.ids ensures Owns(e.rows, t, id) <==> Owns(rows', t, id) { assert id in ToSet(e.ids); }
    OwnIdsDependOnOwners(e.ids, e.rows, rows', t);
  }

  lemma PutIsOwned(
      rows: map<string, SlaveRow>, slaveId: string, own: map<string, CopyOrder>, ids: seq<string>, t: string)
    requires ToSet(ids) <= own.Keys
    ensures OwnIds(ids, PutRows(rows, slaveId, own), t) == if t == slaveId then ids else []
  {
    forall id | id in ids ensures Owns(PutRows(rows, slaveId, own), slaveId, id) { assert id in ToSet(ids); }
    AllOwn(ids, PutRows(rows, slaveId, own), slaveId, t);
  }

  lemma NewIdsComplete(e: Engine, slaveId: string, t: Table)
    requires OwnIds(e.ids, e.rows, slaveId) <= t.ids
    ensures OwnIds(e.ids, e.rows, slaveId) + NewIds(e, slaveId, t) == t.ids
  {}

  lemma PutIds(e: Engine, slaveId: string, b: Backend, t: string)
    requires Consistent(e) && Extends(e, slaveId, b.table)
    ensures OwnIds(Put(e, slaveId, b).ids, Put(e, slaveId, b).rows, t)
         == if t == slaveId then b.table.ids else OwnIds(e.ids, e.rows, t)
  {
    var more := NewIds(e, slaveId, b.table);
    ExtendsIsOwnOrNew(e, slaveId, b.table);
    OldIdsStay(e, slaveId, b.table.rows, t);
    PutIsOwned(e.rows, slaveId, b.table.rows, more, t);
    OwnIdsConcat(e.ids, more, PutRows(e.rows, slaveId, b.table.rows), t);
    NewIdsComplete(e, slaveId, b.table);
  }

  /** The Slave sees what was put, every other what it saw before. */
  lemma PutIsLocal(e: Engine, slaveId: string, b: Backend, t: string)
    requires Consistent(e) && Extends(e, slaveId, b.table)
    ensures ViewOf(Put(e, slaveId, b), t) == if t == slaveId then b else ViewOf(e, t)
  {
    PutIds(e, slaveId, b, t);
    ExtendsIsOwnOrNew(e, slaveId, b.table);
    RowsPutAreOwn(e.rows, slaveId, b.table.rows, t);
    KeyedIsOwn(e.calls, slaveId, b.calls, t);
    KeyedIsOwn(e.polls, slaveId, b.polls, t);
  }

  lemma PutRowKeys(rows: map<string, SlaveRow>, slaveId: string, own: map<string, CopyOrder>, more: set<string>)
    requires own.Keys == OwnRows(rows, slaveId).Keys + more
    ensures PutRows(rows, slaveId, own).Keys == rows.Keys + more
  {
    assert OwnRows(rows, slaveId).Keys <= rows.Keys;
  }

  lemma ToSetConcat<T>(a: seq<T>, b: seq<T>)
    ensures ToSet(a + b) == ToSet(a) + ToSet(b)
  {}

  lemma PutIsConsistent(e: Engine, slaveId: string, b: Backend)
    requires Consistent(e) && Extends(e, slaveId, b.table)
    ensures Consistent(Put(e, slaveId, b))
  {
    PutRowKeys(e.rows, slaveId, b.table.rows, ToSet(NewIds(e, slaveId, b.table)));
    ToSetConcat(e.ids, NewIds(e, slaveId, b.table));
  }
}
