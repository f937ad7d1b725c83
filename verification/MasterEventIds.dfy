/** Within one run of the EA no two events carry the same id. */
module MasterEventIds {
  import opened Common
  import opened MasterScan
  import opened MasterReplay

  // ---------------------------------------------------------------- the text of an id

  function Digit(n: nat): char
    requires n < 10
  {
    "0123456789"[n]
  }

  /** IntegerToString of a non-negative number. */
  function IntText(n: nat): string {
    if n < 10 then [Digit(n)] else IntText(n / 10) + [Digit(n % 10)]
  }

  function DigitValue(c: char): nat { if '0' <= c <= '9' then c as nat - '0' as nat else 0 }

  function IntValue(s: string): nat {
    if s == "" then 0 else IntValue(s[..|s| - 1]) * 10 + DigitValue(s[|s| - 1])
  }

  lemma {:induction false} IntTextReads(n: nat)
    ensures IntValue(IntText(n)) == n && '-' !in IntText(n)
  {
    if n >= 10 {
      IntTextReads(n / 10);
      assert IntText(n)[..|IntText(n)| - 1] == IntText(n / 10);
    } else {
      assert IntText(n)[..0] == "";
    }
  }

  function Prefix(kind: EventType): string {
    match kind
    case Open => "OPEN"
    case Modify => "MODIFY"
    case PartialClose => "PARTIAL"
    case Close => "CLOSE"
    case PendingOpen => "PENDING"
    case PendingModify => "PENDINGMOD"
    case PendingCancel => "PENDINGDEL"
  }

  /** What follows the ticket: nothing, or a dash and the run-wide number. */
  function Suffix(number: Option<nat>): string {
    match number case Some(n) => "-" + IntText(n) case None => ""
  }

  function IdText(account: nat, key: EventKey): string {
    Prefix(key.kind) + "-" + (IntText(account) + "-" + (IntText(key.ticket) + Suffix(key.number)))
  }

  lemma FirstDash(a: string, x: string)
    requires '-' !in a
    ensures (a + "-" + x)[|a|] == '-' && forall i :: 0 <= i < |a| ==> (a + "-" + x)[i] != '-'
  {
    forall i | 0 <= i < |a| ensures (a + "-" + x)[i] == a[i] != '-' { assert a[i] in a; }
  }

  lemma CutAtDash(a: string, b: string, x: string, y: string)
    requires '-' !in a && '-' !in b && a + "-" + x == b + "-" + y
    ensures a == b && x == y
  {
    var s := a + "-" + x;
    FirstDash(a, x);
    FirstDash(b, y);
    assert |a| == |b|;
    assert s[..|a|] == a && s[..|b|] == b && s[|a| + 1..] == x && s[|b| + 1..] == y;
  }

  lemma PrefixesDiffer(a: EventType, b: EventType)
    requires Prefix(a) == Prefix(b)
    ensures a == b
  {
    assert "PARTIAL"[1] != "PENDING"[1] && "PENDINGMOD"[7] != "PENDINGDEL"[7];
  }

  lemma NoDashInPrefix(kind: EventType)
    ensures '-' !in Prefix(kind)
  {}

  lemma StartsIff(word: string, kind: EventType, rest: string)
    requires '-' !in word
    ensures word + "-" <= Prefix(kind) + "-" + rest <==> Prefix(kind) == word
  {
    var text := Prefix(kind) + "-" + rest;
    NoDashInPrefix(kind);
    if word + "-" <= text {
      var tail := text[|word| + 1..];
      assert text == word + "-" + tail;
      CutAtDash(Prefix(kind), word, rest, tail);
    }
  }

  /** The kind of an event can be told from how its id starts. */
  lemma IdTellsKind(account: nat, k: EventKey)
    ensures "OPEN-" <= IdText(account, k) <==> k.kind == Open
    ensures "MODIFY-" <= IdText(account, k) <==> k.kind == Modify
    ensures "PARTIAL-" <= IdText(account, k) <==> k.kind == PartialClose
    ensures "CLOSE-" <= IdText(account, k) <==> k.kind == Close
    ensures "PENDING-" <= IdText(account, k) <==> k.kind == PendingOpen
    ensures "PENDINGMOD-" <= IdText(account, k) <==> k.kind == PendingModify
    ensures "PENDINGDEL-" <= IdText(account, k) <==> k.kind == PendingCancel
  {
    var rest := IntText(account) + "-" + (IntText(k.ticket) + Suffix(k.number));
    forall kind: EventType ensures Prefix(kind) + "-" <= IdText(account, k) <==> Prefix(k.kind) == Prefix(kind) {
      NoDashInPrefix(kind);
      StartsIff(Prefix(kind), k.kind, rest);
    }
    forall kind: EventType ensures Prefix(kind) == Prefix(k.kind) ==> kind == k.kind {
      if Prefix(kind) == Prefix(k.kind) { PrefixesDiffer(kind, k.kind); }
    }
    assert Prefix(Open) + "-" == "OPEN-" && Prefix(Modify) + "-" == "MODIFY-";
    assert Prefix(PartialClose) + "-" == "PARTIAL-" && Prefix(Close) + "-" == "CLOSE-";
    assert Prefix(PendingOpen) + "-" == "PENDING-";
    assert Prefix(PendingModify) + "-" == "PENDINGMOD-" && Prefix(PendingCancel) + "-" == "PENDINGDEL-";
  }

  /** An id can be read back: equal texts come from equal kinds, tickets and numbers. */
  lemma IdTextInjective(account: nat, k: EventKey, m: EventKey)
    requires IdText(account, k) == IdText(account, m)
    ensures k == m
  {
    var acct := IntText(account);
    var restK, restM := IntText(k.ticket) + Suffix(k.number), IntText(m.ticket) + Suffix(m.number);
    NoDashInPrefix(k.kind);
    NoDashInPrefix(m.kind);
    CutAtDash(Prefix(k.kind), Prefix(m.kind), acct + "-" + restK, acct + "-" + restM);
    PrefixesDiffer(k.kind, m.kind);
    IntTextReads(account);
    CutAtDash(acct, acct, restK, restM);
    TailInjective(k.ticket, k.number, m.ticket, m.number);
  }

  lemma TailInjective(t: nat, n: Option<nat>, t': nat, n': Option<nat>)
    requires IntText(t) + Suffix(n) == IntText(t') + Suffix(n')
    ensures t == t' && n == n'
  {
    IntTextReads(t);
    IntTextReads(t');
    SuffixDash(t, n);
    SuffixDash(t', n');
    if n.Some? && n'.Some? {
      NumberedTails(t, n.value, t', n'.value);
    } else if n.None? && n'.None? {
      assert IntText(t) == IntText(t) + Suffix(n) && IntText(t') == IntText(t') + Suffix(n');
    }
  }

  lemma NumberedTails(t: nat, n: nat, t': nat, n': nat)
    requires IntText(t) + ("-" + IntText(n)) == IntText(t') + ("-" + IntText(n'))
    ensures t == t' && n == n'
  {
    IntTextReads(t);
    IntTextReads(t');
    CutTails(IntText(t), IntText(t'), IntText(n), IntText(n'));
    SameIntText(t, t');
    SameIntText(n, n');
  }

  lemma CutTails(a: string, b: string, x: string, y: string)
    requires '-' !in a && '-' !in b && a + ("-" + x) == b + ("-" + y)
    ensures a == b && x == y
  {
    assert a + "-" + x == a + ("-" + x) && b + "-" + y == b + ("-" + y);
    CutAtDash(a, b, x, y);
  }

  lemma SameIntText(m: nat, n: nat)
    requires IntText(m) == IntText(n)
    ensures m == n
  {
    IntTextReads(m);
    IntTextReads(n);
  }

  lemma SuffixDash(t: nat, n: Option<nat>)
    ensures '-' in IntText(t) + Suffix(n) <==> n.Some?
  {
    IntTextReads(t);
    if n.Some? { assert (IntText(t) + Suffix(n))[|IntText(t)|] == '-'; }
  }

  // ---------------------------------------------------------------- keys over one scan

  ghost predicate DistinctKeys(events: seq<Event>) {
    forall i, j :: 0 <= i < j < |events| ==> events[i].key != events[j].key
  }

  /** No key twice, and no number above the counter. */
  ghost predicate KeysOk(log: Log) {
    && DistinctKeys(log.events)
    && forall e :: e in log.events && e.key.number.Some? ==> e.key.number.value <= log.eventSeq
  }

  /** The un-numbered id of a kind and ticket was sent. */
  ghost predicate Has(log: Log, kind: EventType, t: nat) {
    exists e :: e in log.events && e.key == EventKey(kind, t, None)
  }

  lemma AddPlain(log: Log, e: Event)
    requires KeysOk(log) && e.key.number.None? && !Has(log, e.key.kind, e.key.ticket)
    ensures KeysOk(Add(log, e))
    ensures forall k, t :: Has(Add(log, e), k, t) <==> Has(log, k, t) || e.key == EventKey(k, t, None)
  {
    forall i | 0 <= i < |log.events| ensures log.events[i].key != e.key { assert log.events[i] in log.events; }
    forall k, t | Has(log, k, t) || e.key == EventKey(k, t, None) ensures Has(Add(log, e), k, t) {
      if Has(log, k, t) {
        var x :| x in log.events && x.key == EventKey(k, t, None);
        assert x in Add(log, e).events;
      } else {
        assert e in Add(log, e).events;
      }
    }
  }

  lemma AddNumbered(log: Log, e: Event)
    requires KeysOk(log) && e.key.number == Some(log.eventSeq + 1)
    ensures KeysOk(Log(log.events + [e], log.eventSeq + 1))
    ensures forall k, t :: Has(Log(log.events + [e], log.eventSeq + 1), k, t) <==> Has(log, k, t)
  {
    var log' := Log(log.events + [e], log.eventSeq + 1);
    forall i | 0 <= i < |log.events| ensures log.events[i].key != e.key { assert log.events[i] in log.events; }
    forall k, t | Has(log, k, t) ensures Has(log', k, t) {
      var x :| x in log.events && x.key == EventKey(k, t, None);
      assert x in log'.events;
    }
  }

  lemma {:induction false} OpenChangesKeys(prev: seq<Order>, current: seq<Order>, log: Log)
    requires DistinctTickets(current) && KeysOk(log)
    requires forall t :: At(current, t).Some? && At(prev, t).None? ==> !Has(log, Open, t)
    ensures KeysOk(OpenChanges(prev, current, log))
    ensures forall k, t :: Has(OpenChanges(prev, current, log), k, t)
              <==> Has(log, k, t) || (k == Open && At(current, t).Some? && At(prev, t).None?)
  {
    if current != [] {
      var front, o := current[..|current| - 1], current[|current| - 1];
      LastIsNew(current);
      forall t
        ensures At(current, t) == if At(front, t).Some? then At(front, t) else if o.ticket == t then Some(o) else None
      {
        AtSnoc(front, o, t);
      }
      OpenChangesKeys(prev, front, log);
      var before, after := OpenChanges(prev, front, log), OpenChanges(prev, current, log);
      if At(prev, o.ticket).None? {
        AddPlain(before, OpenEvent(o));
      } else if after.events != before.events {
        AddNumbered(before, after.events[|before.events|]);
      }
    }
  }

  lemma {:induction false} ClosesKeys(prev: seq<Order>, current: seq<Order>, log: Log)
    requires DistinctTickets(prev) && KeysOk(log)
    requires forall t :: At(prev, t).Some? && At(current, t).None? ==> !Has(log, Close, t)
    ensures KeysOk(Closes(prev, current, log))
    ensures forall k, t :: Has(Closes(prev, current, log), k, t)
              <==> Has(log, k, t) || (k == Close && At(prev, t).Some? && At(current, t).None?)
  {
    if prev != [] {
      var front, o := prev[..|prev| - 1], prev[|prev| - 1];
      LastIsNew(prev);
      forall t
        ensures At(prev, t) == if At(front, t).Some? then At(front, t) else if o.ticket == t then Some(o) else None
      {
        AtSnoc(front, o, t);
      }
      ClosesKeys(front, current, log);
      if At(current, o.ticket).None? { AddPlain(Closes(front, current, log), CloseEvent(o)); }
    }
  }

  lemma {:induction false} PendingChangesKeys(prev: seq<Order>, current: seq<Order>, log: Log)
    requires DistinctTickets(current) && KeysOk(log)
    requires forall t :: At(current, t).Some? && At(prev, t).None? ==> !Has(log, PendingOpen, t)
    ensures KeysOk(PendingChanges(prev, current, log))
    ensures forall k, t :: Has(PendingChanges(prev, current, log), k, t)
              <==> Has(log, k, t) || (k == PendingOpen && At(current, t).Some? && At(prev, t).None?)
  {
    if current != [] {
      var front, o := current[..|current| - 1], current[|current| - 1];
      LastIsNew(current);
      forall t
        ensures At(current, t) == if At(front, t).Some? then At(front, t) else if o.ticket == t then Some(o) else None
      {
        AtSnoc(front, o, t);
      }
      PendingChangesKeys(prev, front, log);
      var before, after := PendingChanges(prev, front, log), PendingChanges(prev, current, log);
      if At(prev, o.ticket).None? {
        AddPlain(before, PendingOpenEvent(o));
      } else if after.events != before.events {
        AddNumbered(before, after.events[|before.events|]);
      }
    }
  }

  lemma {:induction false} CancelsKeys(prev: seq<Order>, current: seq<Order>, open: seq<Order>, log: Log)
    requires DistinctTickets(prev) && KeysOk(log)
    requires forall t :: At(prev, t).Some? && At(current, t).None? && At(open, t).None? ==> !Has(log, PendingCancel, t)
    ensures KeysOk(Cancels(prev, current, open, log))
    ensures forall k, t :: Has(Cancels(prev, current, open, log), k, t)
              <==> Has(log, k, t)
                   || (k == PendingCancel && At(prev, t).Some? && At(current, t).None? && At(open, t).None?)
  {
    if prev != [] {
      var front, o := prev[..|prev| - 1], prev[|prev| - 1];
      LastIsNew(prev);
      forall t
        ensures At(prev, t) == if At(front, t).Some? then At(front, t) else if o.ticket == t then Some(o) else None
      {
        AtSnoc(front, o, t);
      }
      CancelsKeys(front, current, open, log);
      if At(current, o.ticket).None? && At(open, o.ticket).None? {
        AddPlain(Cancels(front, current, open, log), PendingCancelEvent(o));
      }
    }
  }

  // ---------------------------------------------------------------- keys over a run

  predicate IsOpen(s: Snapshot, t: nat) { At(s.open, t).Some? }
  predicate IsWaiting(s: Snapshot, t: nat) { At(s.pending, t).Some? }
  predicate Present(s: Snapshot, t: nat) { IsOpen(s, t) || IsWaiting(s, t) }

  ghost predicate Seen(pools: seq<seq<Order>>, t: nat) {
    exists i :: 0 <= i < |pools| && Present(Books(pools[i]), t)
  }

  ghost predicate NothingReturnsAt(pools: seq<seq<Order>>, n: nat)
    requires 0 < n < |pools|
  {
    forall t ::
      && (Seen(pools[..n], t) && !Present(Books(pools[n - 1]), t) ==> !Present(Books(pools[n]), t))
      && (IsOpen(Books(pools[n - 1]), t) ==> !IsWaiting(Books(pools[n]), t))
  }

  /** A broker never reuses a ticket: what left does not come back, and a position does not become pending again. */
  ghost predicate TicketsNeverReturn(pools: seq<seq<Order>>) {
    forall n :: 0 < n < |pools| ==> NothingReturnsAt(pools, n)
  }

  /** Which un-numbered ids can have been sent, given what the last scan saw. */
  ghost predicate SentOnlyFor(log: Log, seen: nat -> bool, s: Snapshot) {
    && (forall t :: Has(log, Open, t) ==> IsOpen(s, t) || (seen(t) && !Present(s, t)))
    && (forall t :: Has(log, PendingOpen, t) ==> seen(t))
    && (forall t :: Has(log, Close, t) || Has(log, PendingCancel, t) ==> seen(t) && !Present(s, t))
  }

  ghost function SeenIn(pools: seq<seq<Order>>): nat -> bool { (t: nat) => Seen(pools, t) }

  lemma ScanKeys(prev: Snapshot, current: Snapshot, log: Log, seen: nat -> bool, seen': nat -> bool)
    requires Sound(prev) && Sound(current) && KeysOk(log) && SentOnlyFor(log, seen, prev)
    requires forall t :: Present(prev, t) ==> seen(t)
    requires forall t :: seen'(t) <==> seen(t) || Present(current, t)
    requires forall t :: seen(t) && !Present(prev, t) ==> !Present(current, t)
    requires forall t :: IsOpen(prev, t) ==> !IsWaiting(current, t)
    ensures KeysOk(Scan(prev, current, log)) && SentOnlyFor(Scan(prev, current, log), seen', current)
  {
    var l1 := OpenChanges(prev.open, current.open, log);
    var l2 := Closes(prev.open, current.open, l1);
    var l3 := PendingChanges(prev.pending, current.pending, l2);
    OpenChangesKeys(prev.open, current.open, log);
    ClosesKeys(prev.open, current.open, l1);
    PendingChangesKeys(prev.pending, current.pending, l2);
    CancelsKeys(prev.pending, current.pending, current.open, l3);
  }

  lemma SeenSnoc(pools: seq<seq<Order>>, t: nat)
    requires pools != []
    ensures Seen(pools, t) <==> Seen(pools[..|pools| - 1], t) || Present(Books(pools[|pools| - 1]), t)
  {
    var n, front := |pools| - 1, pools[..|pools| - 1];
    if Seen(front, t) {
      var i :| 0 <= i < |front| && Present(Books(front[i]), t);
      assert Present(Books(pools[i]), t);
    }
    if Seen(pools, t) && !Present(Books(pools[n]), t) {
      var i :| 0 <= i < |pools| && Present(Books(pools[i]), t);
      assert Present(Books(front[i]), t);
    }
  }

  lemma FrontNeverReturns(pools: seq<seq<Order>>)
    requires |pools| > 1 && TicketsNeverReturn(pools)
    ensures TicketsNeverReturn(pools[..|pools| - 1])
  {
    var front := pools[..|pools| - 1];
    forall m | 0 < m < |front| ensures NothingReturnsAt(front, m) {
      assert front[..m] == pools[..m] && NothingReturnsAt(pools, m);
    }
  }

  /** The keys of the last scan, given those of the run before it. */
  lemma LastScanKeys(pools: seq<seq<Order>>)
    requires |pools| > 1 && NothingReturnsAt(pools, |pools| - 1)
    requires DistinctTickets(pools[|pools| - 2]) && DistinctTickets(pools[|pools| - 1])
    requires var front := pools[..|pools| - 1];
             KeysOk(RunLog(front)) && SentOnlyFor(RunLog(front), SeenIn(front), Books(pools[|pools| - 2]))
    ensures KeysOk(RunLog(pools)) && SentOnlyFor(RunLog(pools), SeenIn(pools), Books(pools[|pools| - 1]))
  {
    var n, front := |pools| - 1, pools[..|pools| - 1];
    PoolIsSound(pools[n - 1]);
    PoolIsSound(pools[n]);
    forall t ensures Seen(pools, t) <==> Seen(front, t) || Present(Books(pools[n]), t) { SeenSnoc(pools, t); }
    assert front[n - 1] == pools[n - 1];
    ScanKeys(Books(pools[n - 1]), Books(pools[n]), RunLog(front), SeenIn(front), SeenIn(pools));
  }

  lemma {:induction false} RunKeys(pools: seq<seq<Order>>)
    requires pools != [] && TicketsNeverReturn(pools)
    requires forall i :: 0 <= i < |pools| ==> DistinctTickets(pools[i])
    ensures KeysOk(RunLog(pools)) && SentOnlyFor(RunLog(pools), SeenIn(pools), Books(pools[|pools| - 1]))
  {
    if |pools| > 1 {
      FrontNeverReturns(pools);
      RunKeys(pools[..|pools| - 1]);
      assert NothingReturnsAt(pools, |pools| - 1);
      LastScanKeys(pools);
    }
  }

  /** All event ids of a run are distinct texts, so deduplication by id can only drop resends of one event. */
  lemma {:induction false} EventIdsAreDistinct(account: nat, pools: seq<seq<Order>>, i: nat, j: nat)
    requires pools != [] && TicketsNeverReturn(pools)
    requires forall k :: 0 <= k < |pools| ==> DistinctTickets(pools[k])
    requires i < j < |RunLog(pools).events|
    ensures IdText(account, RunLog(pools).events[i].key) != IdText(account, RunLog(pools).events[j].key)
  {
    RunKeys(pools);
    var k, m := RunLog(pools).events[i].key, RunLog(pools).events[j].key;
    if IdText(account, k) == IdText(account, m) { IdTextInjective(account, k, m); }
  }
}
