/**
 * The bounds on the limits are reached: for every limit M and every number W of OPENs in flight there is a run that
 * ends with M - 1 + W of them, by count and by volume at once; and one late verdict does add one more.
 */
module LimitRuns {
  import opened Common
  import opened ReconciliationEngine
  import opened ReconciliationTheorems
  import opened RiskChecks
  import opened CopyOrders
  import opened CopyProtocol
  import opened SlaveTerminal
  import opened SlaveRun
  import opened AtMostOnce
  import opened LedgerRuns
  import opened Exposures
  import opened Limits
  import opened CopyRuns
  import V = VolumeCalculator

  // ---------------------------------------------------------------- what dispatches add

  /** More events with few enough dispatches keep the peak. */
  lemma {:induction false} PeaksOn(platform: Platform, d: Discipline, es: seq<Event>, fs: seq<Event>, peak: nat)
    requires d.serial && Legal(platform, d, es) && Legal(platform, d, es + fs) && PeaksAt(platform, d, es, peak)
    requires InFlightCount(Final(platform, d, es)) + |Begun(fs)| <= peak
    ensures PeaksAt(platform, d, es + fs, peak)
    ensures InFlightCount(Final(platform, d, es + fs)) <= InFlightCount(Final(platform, d, es)) + |Begun(fs)|
  {
    if fs == [] {
      assert es + fs == es;
    } else {
      var front, last := es + fs[..|fs| - 1], fs[|fs| - 1];
      assert (es + fs)[..|es + fs| - 1] == front;
      PeaksOn(platform, d, es, fs[..|fs| - 1], peak);
      RunIsTicketed(platform, d, front);
      StepFlies(platform, Final(platform, d, front), last);
    }
  }

  predicate IsVerdictEvent(e: Event) { e.Act? && e.step.Deliver? && e.step.link == Offline }

  lemma LateOneMore(platform: Platform, d: Discipline, es: seq<Event>, e: Event)
    requires Legal(platform, d, es) && Legal(platform, d, es + [e])
    ensures Late(platform, d, es + [e]) == Late(platform, d, es) + |AtStake(Final(platform, d, es), e)|
  {
    assert (es + [e])[..|es + [e]| - 1] == es;
  }

  lemma NoStake(s: State, e: Event)
    requires !IsVerdictEvent(e)
    ensures AtStake(s, e) == {}
  {}

  lemma LegalFront(platform: Platform, d: Discipline, es: seq<Event>, e: Event)
    requires Legal(platform, d, es + [e])
    ensures Legal(platform, d, es)
  {
    assert (es + [e])[..|es + [e]| - 1] == es;
  }

  /** Where no verdict is written nothing comes to be at stake. */
  lemma {:induction false} LateOn(platform: Platform, d: Discipline, es: seq<Event>, fs: seq<Event>)
    requires Legal(platform, d, es) && Legal(platform, d, es + fs) && forall e :: e in fs ==> !IsVerdictEvent(e)
    ensures Late(platform, d, es + fs) == Late(platform, d, es)
  {
    if fs == [] {
      assert es + fs == es;
    } else {
      var front, last := fs[..|fs| - 1], fs[|fs| - 1];
      assert es + fs == es + front + [last] && last in fs;
      LegalFront(platform, d, es + front, last);
      LateOn(platform, d, es, front);
      LateOneMore(platform, d, es + front, last);
      NoStake(Final(platform, d, es + front), last);
    }
  }

  // ---------------------------------------------------------------- alike OPENs

  /** Names that differ in length. */
  function Name(i: nat): string { seq(i + 1, _ => 'x') }

  /** OPENs of one symbol and size, for Master tickets of their own. */
  function Trade(i: nat): TradeEvent {
    TradeEvent(Name(i), Open, Name(i), "EURUSD", Some(Buy), Some(1.0), None, None)
  }

  function CopyNo(slave: Slave, account: MasterAccount, i: nat): Copy {
    Copy(i, slave, account, Trade(i), Name(i), Name(i))
  }

  lemma NamesDiffer(i: nat, j: nat)
    requires i != j
    ensures Name(i) != Name(j) && IsTraceable(Name(i))
  {
    assert |Name(i)| == i + 1 && |Name(j)| == j + 1;
  }

  /** The n-th copy's row, filled: its volume is v. */
  predicate IsFilledNo(row: CopyOrder, i: nat, v: real) {
    row.event == Persisted(Trade(i)) && row.status == Executed && row.requestedVolume == Some(v)
  }

  function Names(n: nat): seq<string> { seq(n, i requires 0 <= i < n => Name(i)) }

  /** The rows of n copies carried, and no others. */
  ghost predicate StockedTable(t: Table, n: nat, v: real) {
    && t.ids == Names(n)
    && (forall id :: id in t.rows ==> id in Names(n))
    && (forall i: nat :: i < n ==> Name(i) in t.rows && IsFilledNo(t.rows[Name(i)], i, v))
  }

  /** n copies carried, nothing under way. */
  ghost predicate Stocked(s: State, n: nat, v: real) {
    && StockedTable(s.backend.table, n, v)
    && s.backend.polls == map[] && |s.backend.handed| == |s.outcomes| == n
    && (forall k :: 0 <= k < n ==> k in s.reported && s.outcomes[k] == Filled(Name(k)))
  }

  /** The calls left over have a row. */
  ghost predicate CallsBelow(b: Backend, n: nat) {
    forall m :: m in b.calls ==> m < n && b.calls[m].Delivering?
  }

  /** The checks let one through while nothing is open, at the cap, which is stored as it is. */
  ghost predicate Eligible(slave: Slave, account: MasterAccount) {
    && Decide(slave, account, START.table, Trade(0)) == Admit(Some(slave.maxLot), None)
    && StoredVolume(Some(slave.maxLot)) == Some(slave.maxLot)
  }

  /** Below both limits the same OPEN is let through. */
  lemma AdmittedBelow(slave: Slave, account: MasterAccount, t: Table, i: nat)
    requires Decide(slave, account, START.table, Trade(0)) == Admit(Some(slave.maxLot), None)
    requires slave.maxPositions.Some? ==> OpenCount(t) < slave.maxPositions.value
    requires slave.maxExposure.Some? ==> TotalVolume(t) + slave.maxLot <= slave.maxExposure.value
    ensures Decide(slave, account, t, Trade(i)) == Admit(Some(slave.maxLot), None)
  {}

  /** Rows that are all open count and weigh one each. */
  lemma {:induction false} AllOpen(t: Table, ids: seq<string>, v: real)
    requires forall id :: id in ids ==> IsOpenRow(t, id) && t.rows[id].requestedVolume == Some(v)
    ensures |Collect(ids, OpenRule(t))| == |ids|
    ensures Sum(Map(Collect(ids, OpenRule(t)), OpenVolume())) == Times(|ids|, v)
  {
    if ids != [] {
      var front, last := ids[..|ids| - 1], ids[|ids| - 1];
      assert ids == front + [last];
      AllOpen(t, front, v);
      SumOneMore(Collect(front, OpenRule(t)), AsOpenCopy(t, last));
    }
  }

  lemma NumberOf(id: string, n: nat)
    requires id in Names(n)
    ensures exists i: nat :: i < n && id == Name(i)
  {
    var i :| 0 <= i < n && Names(n)[i] == id;
  }

  lemma StockedRow(t: Table, n: nat, v: real, id: string)
    requires StockedTable(t, n, v) && id in Names(n)
    ensures id in t.rows && t.rows[id].event.eventId == id && Done(t.rows[id], Open)
    ensures t.rows[id].requestedVolume == Some(v)
  {
    NumberOf(id, n);
    var i: nat :| i < n && id == Name(i);
  }

  lemma StockedIsOpen(t: Table, n: nat, v: real)
    requires StockedTable(t, n, v)
    ensures OpenCount(t) == n && TotalVolume(t) == Times(n, v)
  {
    forall id | id in t.rows ensures !Done(t.rows[id], Close) { StockedRow(t, n, v, id); }
    assert ClosedTickets(t) == {};
    forall id | id in t.ids ensures IsOpenRow(t, id) && t.rows[id].requestedVolume == Some(v) {
      StockedRow(t, n, v, id);
    }
    AllOpen(t, t.ids, v);
  }

  lemma StockedLands(s: State, n: nat, v: real)
    requires Stocked(s, n, v)
    ensures InFlightRows(s) == {}
  {
    forall id | id in s.backend.table.rows ensures s.backend.table.rows[id].status != Pending {
      StockedRow(s.backend.table, n, v, id);
    }
    NothingFlies(s);
  }

  lemma NothingAdmitted(b: Backend, n: nat)
    requires CallsBelow(b, n)
    ensures AdmittedCalls(b) == {}
  {}

  /** Within these limits, the n-th OPEN is let through when n are open. */
  ghost predicate Room(slave: Slave, n: nat) {
    && (slave.maxPositions.Some? ==> n < slave.maxPositions.value)
    && (slave.maxExposure.Some? ==> Times(n, slave.maxLot) + slave.maxLot <= slave.maxExposure.value)
  }

  lemma NameIsNew(n: nat)
    ensures Name(n) !in Names(n) && IsTraceable(Name(n)) && Name(n) != ""
  {
    NamesDiffer(n, n + 1);
    forall i | 0 <= i < n ensures Names(n)[i] != Name(n) { NamesDiffer(i, n); }
  }

  lemma EventIsNew(t: Table, n: nat, v: real)
    requires StockedTable(t, n, v)
    ensures Name(n) !in t.rows && !HasEvent(t, Name(n))
  {
    NameIsNew(n);
    forall id | id in t.rows ensures t.rows[id].event.eventId != Name(n) { StockedRow(t, n, v, id); }
  }

  lemma TicketIsNew(s: State, n: nat, v: real)
    requires Stocked(s, n, v)
    ensures Filled(Name(n)) !in s.outcomes
  {
    forall k: nat | k < n ensures s.outcomes[k] != Filled(Name(n)) { NamesDiffer(k, n); }
  }

  lemma NothingPends(t: Table, n: nat, v: real, id: string)
    requires StockedTable(t, n, v) && id in t.rows
    ensures t.rows[id].status != Pending
  {
    StockedRow(t, n, v, id);
  }

  lemma StockedIsReady(slave: Slave, account: MasterAccount, s: State, n: nat)
    requires Stocked(s, n, slave.maxLot) && CallsBelow(s.backend, n)
    requires Eligible(slave, account) && Room(slave, n)
    ensures Ready(s, CopyNo(slave, account, n))
    ensures DecisionOn(s, CopyNo(slave, account, n)) == Admit(Some(slave.maxLot), None)
  {
    StockedIsOpen(s.backend.table, n, slave.maxLot);
    AdmittedBelow(slave, account, s.backend.table, n);
    EventIsNew(s.backend.table, n, slave.maxLot);
    NameIsNew(n);
    TicketIsNew(s, n, slave.maxLot);
    forall id | id in s.backend.table.rows ensures s.backend.table.rows[id].status != Pending {
      NothingPends(s.backend.table, n, slave.maxLot, id);
    }
  }

  lemma OneMoreRow(t: Table, n: nat, v: real, row: CopyOrder)
    requires StockedTable(t, n, v) && IsFilledNo(row, n, v)
    ensures StockedTable(Insert(t, Name(n), row), n + 1, v)
  {
    var t' := Insert(t, Name(n), row);
    assert Names(n + 1) == Names(n) + [Name(n)];
    forall i: nat | i < n ensures Name(i) != Name(n) { NamesDiffer(i, n); }
  }

  lemma OneMoreStocked(s: State, s': State, n: nat, v: real, row: CopyOrder)
    requires Stocked(s, n, v) && IsFilledNo(row, n, v)
    requires s'.backend.table == Insert(s.backend.table, Name(n), row) && s'.backend.polls == map[]
    requires |s'.backend.handed| == n + 1 && s'.outcomes == s.outcomes + [Filled(Name(n))]
    requires s'.reported == s.reported + {n}
    ensures Stocked(s', n + 1, v)
  {
    OneMoreRow(s.backend.table, n, v, row);
  }

  lemma CarriedIsStocked(slave: Slave, account: MasterAccount, s: State, n: nat)
    requires Stocked(s, n, slave.maxLot) && CallsBelow(s.backend, n) && Eligible(slave, account)
    requires Ready(s, CopyNo(slave, account, n))
    requires DecisionOn(s, CopyNo(slave, account, n)) == Admit(Some(slave.maxLot), None)
    ensures Stocked(Carried(s, CopyNo(slave, account, n)), n + 1, slave.maxLot)
    ensures CallsBelow(Carried(s, CopyNo(slave, account, n)).backend, n + 1)
  {
    var c := CopyNo(slave, account, n);
    OneMoreStocked(s, Carried(s, c), n, slave.maxLot, FilledRowOf(s, c));
  }

  /** n copies, one after another. */
  function Stock(slave: Slave, account: MasterAccount, n: nat): seq<Event> {
    if n == 0 then [] else Stock(slave, account, n - 1) + CopyEvents(CopyNo(slave, account, n - 1), n - 1)
  }

  lemma CopyEventsBegin(c: Copy, k: nat)
    ensures |Begun(CopyEvents(c, k))| == 1
    ensures forall e :: e in CopyEvents(c, k) ==> !IsVerdictEvent(e)
  {
    var es := CopyEvents(c, k);
    assert es == [es[0]] + es[1..];
    BegunConcat([es[0]], es[1..]);
    NoneBegun(es[1..]);
    assert [es[0]][..0] == [];
  }

  lemma {:induction false} NoneBegun(es: seq<Event>)
    requires forall e :: e in es ==> !(e.Act? && e.step.Begin?)
    ensures Begun(es) == []
  {
    if es != [] {
      assert es[|es| - 1] in es;
      NoneBegun(es[..|es| - 1]);
    }
  }

  lemma LessRoom(slave: Slave, n: nat)
    requires Room(slave, n) && slave.maxLot >= 0.0
    ensures n > 0 ==> Room(slave, n - 1)
  {}

  /** Where it ends. */
  ghost function StockState(slave: Slave, account: MasterAccount, n: nat): State {
    if n == 0 then IDLE
    else
      var s, c := StockState(slave, account, n - 1), CopyNo(slave, account, n - 1);
      if Ready(s, c) then Carried(s, c) else s
  }

  /** After n copies, n are stocked. */
  ghost predicate Steady(slave: Slave, account: MasterAccount, n: nat) {
    && Stocked(StockState(slave, account, n), n, slave.maxLot)
    && CallsBelow(StockState(slave, account, n).backend, n)
  }

  /** And the next one can be carried through. */
  ghost predicate CanFollow(slave: Slave, account: MasterAccount, n: nat) {
    Ready(StockState(slave, account, n), CopyNo(slave, account, n))
  }

  ghost predicate AllSteady(slave: Slave, account: MasterAccount, n: nat) {
    && (forall i: nat :: i <= n ==> Steady(slave, account, i))
    && (forall i: nat :: i < n ==> CanFollow(slave, account, i))
  }

  lemma NextCanFollow(slave: Slave, account: MasterAccount, n: nat)
    requires Steady(slave, account, n) && Eligible(slave, account) && Room(slave, n)
    ensures CanFollow(slave, account, n)
    ensures DecisionOn(StockState(slave, account, n), CopyNo(slave, account, n)) == Admit(Some(slave.maxLot), None)
  {
    StockedIsReady(slave, account, StockState(slave, account, n), n);
  }

  lemma StockStateGrows(slave: Slave, account: MasterAccount, n: nat, next: nat)
    requires CanFollow(slave, account, n) && next == n + 1
    ensures StockState(slave, account, next) == Carried(StockState(slave, account, n), CopyNo(slave, account, n))
  {}

  lemma NextIsStocked(slave: Slave, account: MasterAccount, n: nat, next: nat)
    requires Steady(slave, account, n) && CanFollow(slave, account, n) && Eligible(slave, account) && next == n + 1
    requires DecisionOn(StockState(slave, account, n), CopyNo(slave, account, n)) == Admit(Some(slave.maxLot), None)
    ensures Steady(slave, account, next)
  {
    StockStateGrows(slave, account, n, next);
    CarriedIsStocked(slave, account, StockState(slave, account, n), n);
  }

  lemma NothingSteady(slave: Slave, account: MasterAccount)
    ensures AllSteady(slave, account, 0)
  {
    assert Stocked(IDLE, 0, slave.maxLot) && CallsBelow(IDLE.backend, 0);
  }

  lemma OneMoreSteady(slave: Slave, account: MasterAccount, n: nat)
    requires n > 0 && AllSteady(slave, account, n - 1) && CanFollow(slave, account, n - 1) && Steady(slave, account, n)
    ensures AllSteady(slave, account, n)
  {}

  lemma {:induction false} StockIsSteady(slave: Slave, account: MasterAccount, n: nat)
    requires Eligible(slave, account) && (n > 0 ==> Room(slave, n - 1)) && slave.maxLot >= 0.0
    ensures AllSteady(slave, account, n)
  {
    if n == 0 {
      NothingSteady(slave, account);
    } else {
      LessRoom(slave, n - 1);
      StockIsSteady(slave, account, n - 1);
      NextCanFollow(slave, account, n - 1);
      NextIsStocked(slave, account, n - 1, n);
      OneMoreSteady(slave, account, n);
    }
  }

  lemma LessSteady(slave: Slave, account: MasterAccount, n: nat)
    requires n > 0 && AllSteady(slave, account, n)
    ensures AllSteady(slave, account, n - 1) && Ready(StockState(slave, account, n - 1), CopyNo(slave, account, n - 1))
    ensures |StockState(slave, account, n - 1).backend.handed| == n - 1
  {
    assert CanFollow(slave, account, n - 1) && Steady(slave, account, n - 1);
  }

  lemma {:induction false} StockReaches(d: Discipline, slave: Slave, account: MasterAccount, n: nat)
    requires AllSteady(slave, account, n)
    ensures Reaches(slave.platform, d, Stock(slave, account, n), StockState(slave, account, n))
  {
    if n > 0 {
      LessSteady(slave, account, n);
      StockReaches(d, slave, account, n - 1);
      CopyIsCarried(slave.platform, d, Stock(slave, account, n - 1), StockState(slave, account, n - 1),
                    CopyNo(slave, account, n - 1));
    }
  }

  /** Between copies nothing is in flight. */
  lemma SteadyRests(slave: Slave, account: MasterAccount, n: nat)
    requires AllSteady(slave, account, n)
    ensures InFlightCount(StockState(slave, account, n)) == 0
  {
    assert Steady(slave, account, n);
    StockedLands(StockState(slave, account, n), n, slave.maxLot);
    NothingAdmitted(StockState(slave, account, n).backend, n);
  }

  lemma CopyPeaks(platform: Platform, d: Discipline, es: seq<Event>, s: State, c: Copy, k: nat, peak: nat)
    requires d.serial && Reaches(platform, d, es, s) && InFlightCount(s) == 0 && PeaksAt(platform, d, es, peak)
    requires peak >= 1 && Legal(platform, d, es + CopyEvents(c, k))
    ensures PeaksAt(platform, d, es + CopyEvents(c, k), peak)
  {
    CopyEventsBegin(c, k);
    PeaksOn(platform, d, es, CopyEvents(c, k), peak);
  }

  lemma StockGrows(slave: Slave, account: MasterAccount, n: nat)
    requires n > 0
    ensures Stock(slave, account, n)
         == Stock(slave, account, n - 1) + CopyEvents(CopyNo(slave, account, n - 1), n - 1)
  {}

  /** After n copies nothing is in flight. */
  ghost predicate RestsAt(d: Discipline, slave: Slave, account: MasterAccount, n: nat) {
    && Reaches(slave.platform, d, Stock(slave, account, n), StockState(slave, account, n))
    && InFlightCount(StockState(slave, account, n)) == 0
  }

  lemma FewerSteady(slave: Slave, account: MasterAccount, n: nat, i: nat)
    requires AllSteady(slave, account, n) && i <= n
    ensures AllSteady(slave, account, i)
  {}

  lemma SteadyRestsAt(d: Discipline, slave: Slave, account: MasterAccount, n: nat)
    requires AllSteady(slave, account, n)
    ensures RestsAt(d, slave, account, n)
  {
    StockReaches(d, slave, account, n);
    SteadyRests(slave, account, n);
  }

  ghost predicate AlwaysRests(d: Discipline, slave: Slave, account: MasterAccount, n: nat) {
    RestsAt(d, slave, account, n) && (n > 0 ==> AlwaysRests(d, slave, account, n - 1))
  }

  lemma {:induction false} SteadyAlwaysRests(d: Discipline, slave: Slave, account: MasterAccount, n: nat)
    requires AllSteady(slave, account, n)
    ensures AlwaysRests(d, slave, account, n)
  {
    SteadyRestsAt(d, slave, account, n);
    if n > 0 {
      FewerSteady(slave, account, n, n - 1);
      SteadyAlwaysRests(d, slave, account, n - 1);
    }
  }

  lemma StockPeaksMore(d: Discipline, slave: Slave, account: MasterAccount, n: nat, all: seq<Event>, peak: nat)
    requires d.serial && peak >= 1 && RestsAt(d, slave, account, n)
    requires PeaksAt(slave.platform, d, Stock(slave, account, n), peak)
    requires all == Stock(slave, account, n) + CopyEvents(CopyNo(slave, account, n), n)
    requires Legal(slave.platform, d, all)
    ensures PeaksAt(slave.platform, d, all, peak)
  {
    CopyPeaks(slave.platform, d, Stock(slave, account, n), StockState(slave, account, n), CopyNo(slave, account, n), n,
              peak);
  }

  ghost predicate StockPeaksAt(d: Discipline, slave: Slave, account: MasterAccount, n: nat, peak: nat) {
    && Legal(slave.platform, d, Stock(slave, account, n))
    && PeaksAt(slave.platform, d, Stock(slave, account, n), peak)
  }

  lemma NoStockPeaks(d: Discipline, slave: Slave, account: MasterAccount, peak: nat)
    ensures StockPeaksAt(d, slave, account, 0, peak)
  {
    NothingFlies(IDLE);
    assert AdmittedCalls(IDLE.backend) == {};
  }

  lemma NextStockPeaks(d: Discipline, slave: Slave, account: MasterAccount, n: nat, next: nat, peak: nat)
    requires d.serial && peak >= 1 && RestsAt(d, slave, account, n) && RestsAt(d, slave, account, next) && next == n + 1
    requires StockPeaksAt(d, slave, account, n, peak)
    ensures StockPeaksAt(d, slave, account, next, peak)
  {
    StockGrows(slave, account, next);
    StockPeaksMore(d, slave, account, n, Stock(slave, account, next), peak);
  }

  /** Never more than one OPEN in flight. */
  lemma {:induction false} StockPeaks(d: Discipline, slave: Slave, account: MasterAccount, n: nat, peak: nat)
    requires d.serial && peak >= 1 && AlwaysRests(d, slave, account, n)
    ensures StockPeaksAt(d, slave, account, n, peak)
  {
    if n == 0 {
      NoStockPeaks(d, slave, account, peak);
    } else {
      StockPeaks(d, slave, account, n - 1, peak);
      NextStockPeaks(d, slave, account, n - 1, n, peak);
    }
  }

  // ---------------------------------------------------------------- a burst on top

  /** The n-th OPEN, let through and waiting for its row. */
  function Waiting(slave: Slave, n: nat): Call {
    Creating(Trade(n), Admit(Some(slave.maxLot), None), ResolveSymbol(slave.symbols, "EURUSD"), slave.platform)
  }

  /** k OPENs dispatched before any of them has a row. */
  function Burst(slave: Slave, account: MasterAccount, n: nat, k: nat): seq<Event> {
    if k == 0 then []
    else Burst(slave, account, n, k - 1) + [Act(Begin(n + k - 1, slave, account, Trade(n + k - 1)))]
  }

  function BurstCalls(calls: map<nat, Call>, slave: Slave, n: nat, k: nat): map<nat, Call> {
    if k == 0 then calls else BurstCalls(calls, slave, n, k - 1)[n + k - 1 := Waiting(slave, n + k - 1)]
  }

  function BurstState(s: State, slave: Slave, n: nat, k: nat): State {
    s.(backend := s.backend.(calls := BurstCalls(s.backend.calls, slave, n, k)))
  }

  lemma {:induction false} BurstCallsAre(calls: map<nat, Call>, slave: Slave, n: nat, k: nat)
    requires forall m :: m in calls ==> m < n
    ensures var after := BurstCalls(calls, slave, n, k);
            && (forall m :: m in after <==> m in calls || n <= m < n + k)
            && (forall m :: m in calls ==> after[m] == calls[m])
            && (forall m :: n <= m < n + k ==> after[m] == Waiting(slave, m))
  {
    if k > 0 { BurstCallsAre(calls, slave, n, k - 1); }
  }

  /** The checks let every one of these OPENs through on this table. */
  ghost predicate AllLetThrough(slave: Slave, account: MasterAccount, t: Table) {
    forall i: nat :: Decide(slave, account, t, Trade(i)) == Admit(Some(slave.maxLot), None)
  }

  lemma BurstStep(slave: Slave, account: MasterAccount, s: State, n: nat, k: nat)
    requires CallsBelow(s.backend, n) && AllLetThrough(slave, account, s.backend.table)
    ensures var e := Act(Begin(n + k, slave, account, Trade(n + k)));
            && Allowed(slave.platform, ORDERLY, BurstState(s, slave, n, k), e)
            && After(slave.platform, BurstState(s, slave, n, k), e) == BurstState(s, slave, n, k + 1)
  {
    BurstCallsAre(s.backend.calls, slave, n, k);
    assert Decide(slave, account, s.backend.table, Trade(n + k)) == Admit(Some(slave.maxLot), None);
  }

  lemma BurstGrows(slave: Slave, account: MasterAccount, es: seq<Event>, n: nat, k: nat)
    requires k > 0
    ensures es + Burst(slave, account, n, k)
         == es + Burst(slave, account, n, k - 1) + [Act(Begin(n + k - 1, slave, account, Trade(n + k - 1)))]
  {}

  lemma {:induction false} BurstReaches(slave: Slave, account: MasterAccount, es: seq<Event>, s: State, n: nat, k: nat)
    requires Reaches(slave.platform, ORDERLY, es, s) && CallsBelow(s.backend, n)
    requires AllLetThrough(slave, account, s.backend.table)
    ensures Reaches(slave.platform, ORDERLY, es + Burst(slave, account, n, k), BurstState(s, slave, n, k))
  {
    if k == 0 {
      assert es + Burst(slave, account, n, 0) == es;
    } else {
      BurstReaches(slave, account, es, s, n, k - 1);
      BurstStep(slave, account, s, n, k - 1);
      OneMore(slave.platform, ORDERLY, es + Burst(slave, account, n, k - 1), BurstState(s, slave, n, k - 1),
              Act(Begin(n + k - 1, slave, account, Trade(n + k - 1))));
      BurstGrows(slave, account, es, n, k);
    }
  }

  lemma {:induction false} BurstBegun(slave: Slave, account: MasterAccount, n: nat, k: nat)
    ensures |Begun(Burst(slave, account, n, k))| == k
  {
    if k > 0 {
      var last := Act(Begin(n + k - 1, slave, account, Trade(n + k - 1)));
      BurstBegun(slave, account, n, k - 1);
      assert (Burst(slave, account, n, k - 1) + [last])[..|Burst(slave, account, n, k - 1)|]
          == Burst(slave, account, n, k - 1);
    }
  }

  function Range(n: nat, k: nat): set<nat> { if k == 0 then {} else Range(n, k - 1) + {n + k - 1} }

  lemma {:induction false} RangeIs(n: nat, k: nat)
    ensures forall m :: m in Range(n, k) <==> n <= m < n + k
    ensures |Range(n, k)| == k
  {
    if k > 0 { RangeIs(n, k - 1); }
  }

  lemma {:induction false} EqualSum(a: set<nat>, f: nat -> real, v: real)
    requires forall x :: x in a ==> f(x) == v
    ensures SumOver(a, f) == Times(|a|, v)
  {
    if a != {} {
      var x :| x in a;
      SumRemove(a, x, f);
      EqualSum(a - {x}, f, v);
    }
  }

  lemma BurstCounts(s: State, slave: Slave, n: nat, k: nat)
    requires Stocked(s, n, slave.maxLot) && CallsBelow(s.backend, n)
    requires StoredVolume(Some(slave.maxLot)) == Some(slave.maxLot)
    ensures var s' := BurstState(s, slave, n, k);
            InFlightCount(s') == k && InFlightVolume(s') == Times(k, slave.maxLot)
  {
    var s' := BurstState(s, slave, n, k);
    RangeIs(n, k);
    BurstCallsAre(s.backend.calls, slave, n, k);
    StockedLands(s', n, slave.maxLot);
    assert AdmittedCalls(s'.backend) == Range(n, k);
    EqualSum(Range(n, k), CallWeight(s'.backend, VolumeWeight()), slave.maxLot);
  }

  lemma TimesShift(m: nat, w: nat, v: real)
    requires m >= 1 && w >= 1
    ensures Times(m - 1, v) + Times(w, v) == Times(m, v) + Times(w - 1, v)
  {}

  lemma BurstIsFull(s: State, slave: Slave, m: nat, w: nat)
    requires m >= 1 && w >= 1 && Stocked(s, m - 1, slave.maxLot) && CallsBelow(s.backend, m - 1)
    requires StoredVolume(Some(slave.maxLot)) == Some(slave.maxLot)
    ensures var s' := BurstState(s, slave, m - 1, w);
            && OpenCount(s'.backend.table) + InFlightCount(s') == m + w - 1
            && TotalVolume(s'.backend.table) + InFlightVolume(s')
               == Times(m, slave.maxLot) + Times(w - 1, slave.maxLot)
  {
    StockedIsOpen(s.backend.table, m - 1, slave.maxLot);
    BurstCounts(s, slave, m - 1, w);
    TimesShift(m, w, slave.maxLot);
  }

  lemma StockLetsThrough(slave: Slave, account: MasterAccount, s: State, n: nat)
    requires Stocked(s, n, slave.maxLot) && Eligible(slave, account) && Room(slave, n)
    ensures AllLetThrough(slave, account, s.backend.table)
  {
    StockedIsOpen(s.backend.table, n, slave.maxLot);
    forall i: nat ensures Decide(slave, account, s.backend.table, Trade(i)) == Admit(Some(slave.maxLot), None) {
      AdmittedBelow(slave, account, s.backend.table, i);
    }
  }

  lemma BurstPeaks(slave: Slave, account: MasterAccount, es: seq<Event>, n: nat, k: nat)
    requires Legal(slave.platform, ORDERLY, es) && PeaksAt(slave.platform, ORDERLY, es, k)
    requires InFlightCount(Final(slave.platform, ORDERLY, es)) == 0
    requires Legal(slave.platform, ORDERLY, es + Burst(slave, account, n, k))
    ensures PeaksAt(slave.platform, ORDERLY, es + Burst(slave, account, n, k), k)
  {
    BurstBegun(slave, account, n, k);
    PeaksOn(slave.platform, ORDERLY, es, Burst(slave, account, n, k), k);
  }

  /** n copies, then w OPENs at once. */
  function FullRun(slave: Slave, account: MasterAccount, n: nat, w: nat): seq<Event> {
    Stock(slave, account, n) + Burst(slave, account, n, w)
  }

  lemma FullRunReaches(slave: Slave, account: MasterAccount, n: nat, w: nat)
    requires AllSteady(slave, account, n)
    requires AllLetThrough(slave, account, StockState(slave, account, n).backend.table)
    ensures Reaches(slave.platform, ORDERLY, FullRun(slave, account, n, w),
                    BurstState(StockState(slave, account, n), slave, n, w))
  {
    assert Steady(slave, account, n);
    StockReaches(ORDERLY, slave, account, n);
    BurstReaches(slave, account, Stock(slave, account, n), StockState(slave, account, n), n, w);
  }

  lemma StockRunPeaks(slave: Slave, account: MasterAccount, n: nat, w: nat)
    requires w >= 1 && AllSteady(slave, account, n)
    ensures RestsAt(ORDERLY, slave, account, n)
    ensures PeaksAt(slave.platform, ORDERLY, Stock(slave, account, n), w)
  {
    SteadyAlwaysRests(ORDERLY, slave, account, n);
    StockPeaks(ORDERLY, slave, account, n, w);
  }

  lemma FullRunPeaks(slave: Slave, account: MasterAccount, n: nat, w: nat)
    requires RestsAt(ORDERLY, slave, account, n)
    requires PeaksAt(slave.platform, ORDERLY, Stock(slave, account, n), w)
    requires Legal(slave.platform, ORDERLY, FullRun(slave, account, n, w))
    ensures PeaksAt(slave.platform, ORDERLY, FullRun(slave, account, n, w), w)
  {
    BurstPeaks(slave, account, Stock(slave, account, n), n, w);
  }

  /** Where it ends, n are open and w in flight. */
  lemma FullStateIsFull(slave: Slave, account: MasterAccount, n: nat, w: nat)
    requires w >= 1 && AllSteady(slave, account, n) && StoredVolume(Some(slave.maxLot)) == Some(slave.maxLot)
    ensures var s := BurstState(StockState(slave, account, n), slave, n, w);
            && OpenCount(s.backend.table) + InFlightCount(s) == n + w
            && TotalVolume(s.backend.table) + InFlightVolume(s)
               == Times(n + 1, slave.maxLot) + Times(w - 1, slave.maxLot)
  {
    assert Steady(slave, account, n);
    BurstIsFull(StockState(slave, account, n), slave, n + 1, w);
  }

  /** The checks let the whole run through. */
  lemma RoomForAll(slave: Slave, account: MasterAccount, n: nat)
    requires Eligible(slave, account) && slave.maxLot >= 0.0 && Room(slave, n)
    ensures AllSteady(slave, account, n)
    ensures AllLetThrough(slave, account, StockState(slave, account, n).backend.table)
  {
    LessRoom(slave, n);
    StockIsSteady(slave, account, n);
    assert Steady(slave, account, n);
    StockLetsThrough(slave, account, StockState(slave, account, n), n);
  }

  lemma LastHasRoom(slave: Slave, m: nat)
    requires m >= 1 && slave.maxPositions == Some(m) && slave.maxExposure == Some(Times(m, slave.maxLot))
    ensures Room(slave, m - 1)
  {}

  /**
   * For every limit M and every W there is an orderly run, with never more than W OPENs in flight, that ends with
   * M - 1 copies open and W OPENs in flight; with maxExposure at M times the cap, their volume is the bound's too.
   */
  lemma LimitsAreReached(slave: Slave, account: MasterAccount, m: nat, w: nat)
    requires Eligible(slave, account) && slave.maxLot >= 0.0 && m >= 1 && w >= 1
    requires slave.maxPositions == Some(m) && slave.maxExposure == Some(Times(m, slave.maxLot))
    ensures var es := FullRun(slave, account, m - 1, w);
            && Legal(slave.platform, ORDERLY, es) && PeaksAt(slave.platform, ORDERLY, es, w)
            && var s := Final(slave.platform, ORDERLY, es);
               && OpenCount(s.backend.table) + InFlightCount(s) == m + w - 1
               && TotalVolume(s.backend.table) + InFlightVolume(s)
                  == Times(m, slave.maxLot) + Times(w - 1, slave.maxLot)
  {
    LastHasRoom(slave, m);
    RoomForAll(slave, account, m - 1);
    FullRunReaches(slave, account, m - 1, w);
    StockRunPeaks(slave, account, m - 1, w);
    FullRunPeaks(slave, account, m - 1, w);
    FullStateIsFull(slave, account, m - 1, w);
  }

  // ---------------------------------------------------------------- one late verdict, one more

  /** The verdict fails the first copy, a second is let through, and a replay brings the first one back. */
  function OvershootRun(slave: Slave, account: MasterAccount): seq<Event> {
    CopyEvents(CopyNo(slave, account, 0), 0) + [Act(Deliver(0, Offline))] + CopyEvents(CopyNo(slave, account, 1), 1)
    + [Report(0)]
  }

  ghost predicate LetsFirstThrough(slave: Slave, account: MasterAccount) {
    slave.platform == Mt4 && Decide(slave, account, START.table, Trade(0)).Admit?
  }

  lemma SameDecision(slave: Slave, account: MasterAccount, t: Table, i: nat)
    requires OpenCount(t) == 0 && TotalVolume(t) == 0.0
    ensures Decide(slave, account, t, Trade(i)) == Decide(slave, account, START.table, Trade(0))
  {}

  ghost function FirstFilled(slave: Slave, account: MasterAccount): State { Carried0(CopyNo(slave, account, 0)) }

  ghost function Carried0(c: Copy): State {
    if Ready(IDLE, c) then Carried(IDLE, c) else IDLE
  }

  lemma FirstFilledIs(slave: Slave, account: MasterAccount)
    requires LetsFirstThrough(slave, account)
    ensures var s := FirstFilled(slave, account);
            && Reaches(Mt4, SERIAL, CopyEvents(CopyNo(slave, account, 0), 0), s)
            && s.backend.table.ids == [Name(0)] && s.backend.table.rows.Keys == {Name(0)}
            && Done(s.backend.table.rows[Name(0)], Open) && s.backend.table.rows[Name(0)].event == Persisted(Trade(0))
            && s.backend.calls.Keys == {0} && s.backend.calls[0].Delivering?
            && s.backend.calls[0].instruction.copyId == Name(0) && s.backend.polls == map[]
            && |s.backend.handed| == 1 && s.backend.handed[0].copyId == Name(0)
            && s.outcomes == [Filled(Name(0))] && s.reported == {0}
  {
    var c := CopyNo(slave, account, 0);
    NamesDiffer(0, 1);
    FirstIsReady(c);
    FirstTable(c);
    assert [] + CopyEvents(c, 0) == CopyEvents(c, 0);
    CopyIsCarried(Mt4, SERIAL, [], IDLE, c);
  }

  /** The first copy's row FAILED, everything else as it was. */
  ghost predicate FirstFailed(s: State) {
    && s.backend.table.ids == [Name(0)] && s.backend.table.rows.Keys == {Name(0)}
    && s.backend.table.rows[Name(0)].status == Failed && s.backend.table.rows[Name(0)].event == Persisted(Trade(0))
    && s.backend.calls == map[] && s.backend.polls == map[]
    && |s.backend.handed| == 1 && s.backend.handed[0].copyId == Name(0)
    && s.outcomes == [Filled(Name(0))] && s.reported == {0}
  }

  lemma VerdictFails(slave: Slave, account: MasterAccount)
    requires LetsFirstThrough(slave, account)
    ensures var s, e := FirstFilled(slave, account), Act(Deliver(0, Offline));
            && Allowed(Mt4, SERIAL, s, e) && FirstFailed(After(Mt4, s, e))
            && AtStake(s, e) == {Name(0)} && InFlightCount(s) == 0
  {
    FirstFilledIs(slave, account);
    NothingFlies(FirstFilled(slave, account));
    assert AdmittedCalls(FirstFilled(slave, account).backend) == {};
  }

  lemma NothingOpen(s: State)
    requires FirstFailed(s)
    ensures OpenCount(s.backend.table) == 0 && TotalVolume(s.backend.table) == 0.0 && InFlightCount(s) == 0
  {
    CollectEmpty(s.backend.table.ids, OpenRule(s.backend.table));
    NothingFlies(s);
    assert AdmittedCalls(s.backend) == {};
  }

  lemma SecondIsReady(slave: Slave, account: MasterAccount, s: State)
    requires LetsFirstThrough(slave, account) && FirstFailed(s)
    ensures Ready(s, CopyNo(slave, account, 1))
  {
    NothingOpen(s);
    SameDecision(slave, account, s.backend.table, 1);
    NamesDiffer(0, 1);
    NamesDiffer(1, 0);
  }

  /** Both rows once the first result is replayed. */
  ghost predicate BothOpen(s: State) {
    && s.backend.table.ids == [Name(0), Name(1)] && s.backend.table.rows.Keys == {Name(0), Name(1)}
    && Done(s.backend.table.rows[Name(0)], Open) && Done(s.backend.table.rows[Name(1)], Open)
    && s.backend.polls == map[] && |s.backend.handed| == 2 && s.reported == {0, 1}
    && (forall n :: n in s.backend.calls ==> s.backend.calls[n].Delivering?)
  }

  lemma ReplayRevives(slave: Slave, account: MasterAccount, s: State)
    requires FirstFailed(s) && Ready(s, CopyNo(slave, account, 1)) && slave.platform == Mt4
    ensures var s2 := Carried(s, CopyNo(slave, account, 1));
            && Allowed(Mt4, SERIAL, s2, Report(0)) && BothOpen(After(Mt4, s2, Report(0)))
            && InFlightCount(s2) == 0
  {
    var s2 := Carried(s, CopyNo(slave, account, 1));
    NamesDiffer(0, 1);
    assert s2.backend.table.ids == [Name(0), Name(1)];
    assert s2.backend.handed[0] == s.backend.handed[0];
    NothingFlies(s2);
    assert AdmittedCalls(s2.backend) == {};
  }

  lemma BothCount(s: State)
    requires BothOpen(s)
    ensures OpenCount(s.backend.table) == 2 && InFlightCount(s) == 0
  {
    var t := s.backend.table;
    assert ClosedTickets(t) == {};
    assert t.ids[..1] == [Name(0)] && t.ids[..0] == [];
    assert OpenRule(t)(Name(0)) == [AsOpenCopy(t, Name(0))] && OpenRule(t)(Name(1)) == [AsOpenCopy(t, Name(1))];
    assert Collect([Name(0)], OpenRule(t)) == [AsOpenCopy(t, Name(0))];
    NothingFlies(s);
    assert AdmittedCalls(s.backend) == {};
  }

  ghost function AfterVerdict(slave: Slave, account: MasterAccount): State
    requires Permitted(Mt4, FirstFilled(slave, account), Act(Deliver(0, Offline)))
  {
    After(Mt4, FirstFilled(slave, account), Act(Deliver(0, Offline)))
  }

  lemma OvershootReaches(slave: Slave, account: MasterAccount)
    requires LetsFirstThrough(slave, account)
    ensures var c0, c1, v := CopyNo(slave, account, 0), CopyNo(slave, account, 1), Act(Deliver(0, Offline));
            var s0 := FirstFilled(slave, account);
            && Reaches(Mt4, SERIAL, CopyEvents(c0, 0), s0) && Permitted(Mt4, s0, v)
            && Reaches(Mt4, SERIAL, CopyEvents(c0, 0) + [v], AfterVerdict(slave, account))
            && Ready(AfterVerdict(slave, account), c1)
            && Reaches(
                 Mt4, SERIAL, CopyEvents(c0, 0) + [v] + CopyEvents(c1, 1), Carried(AfterVerdict(slave, account), c1))
            && Legal(Mt4, SERIAL, OvershootRun(slave, account))
            && BothOpen(Final(Mt4, SERIAL, OvershootRun(slave, account)))
  {
    var c0, c1, v := CopyNo(slave, account, 0), CopyNo(slave, account, 1), Act(Deliver(0, Offline));
    FirstFilledIs(slave, account);
    VerdictFails(slave, account);
    var s1 := AfterVerdict(slave, account);
    OneMore(Mt4, SERIAL, CopyEvents(c0, 0), FirstFilled(slave, account), v);
    SecondIsReady(slave, account, s1);
    CopyIsCarried(Mt4, SERIAL, CopyEvents(c0, 0) + [v], s1, c1);
    ReplayRevives(slave, account, s1);
    OneMore(Mt4, SERIAL, CopyEvents(c0, 0) + [v] + CopyEvents(c1, 1), Carried(s1, c1), Report(0));
  }

  lemma NothingYet(platform: Platform, d: Discipline)
    ensures Reaches(platform, d, [], IDLE) && PeaksAt(platform, d, [], 1) && InFlightCount(IDLE) == 0
    ensures Late(platform, d, []) == 0
  {
    NothingFlies(IDLE);
    assert AdmittedCalls(IDLE.backend) == {};
  }

  /** Never more than one OPEN in flight. */
  lemma OvershootPeaks(slave: Slave, account: MasterAccount)
    requires LetsFirstThrough(slave, account) && Legal(Mt4, SERIAL, OvershootRun(slave, account))
    ensures PeaksAt(Mt4, SERIAL, OvershootRun(slave, account), 1)
  {
    var c0, c1, v := CopyNo(slave, account, 0), CopyNo(slave, account, 1), Act(Deliver(0, Offline));
    var es0, es1 := CopyEvents(c0, 0), CopyEvents(c0, 0) + [v];
    OvershootReaches(slave, account);
    VerdictFails(slave, account);
    var s1 := AfterVerdict(slave, account);
    NothingOpen(s1);
    ReplayRevives(slave, account, s1);
    NothingYet(Mt4, SERIAL);
    assert [] + es0 == es0;
    CopyPeaks(Mt4, SERIAL, [], IDLE, c0, 0, 1);
    NoneBegun([v]);
    PeaksOn(Mt4, SERIAL, es0, [v], 1);
    CopyPeaks(Mt4, SERIAL, es1, s1, c1, 1, 1);
    NoneBegun([Report(0)]);
    PeaksOn(Mt4, SERIAL, es1 + CopyEvents(c1, 1), [Report(0)], 1);
  }

  /** One copy was at stake. */
  lemma OvershootIsLate(slave: Slave, account: MasterAccount)
    requires LetsFirstThrough(slave, account) && Legal(Mt4, SERIAL, OvershootRun(slave, account))
    ensures Late(Mt4, SERIAL, OvershootRun(slave, account)) == 1
  {
    var c0, c1, v := CopyNo(slave, account, 0), CopyNo(slave, account, 1), Act(Deliver(0, Offline));
    var es0, es1 := CopyEvents(c0, 0), CopyEvents(c0, 0) + [v];
    OvershootReaches(slave, account);
    VerdictFails(slave, account);
    NothingYet(Mt4, SERIAL);
    assert [] + es0 == es0;
    CopyEventsBegin(c0, 0);
    CopyEventsBegin(c1, 1);
    LateOn(Mt4, SERIAL, [], es0);
    LateOneMore(Mt4, SERIAL, es0, v);
    LateOn(Mt4, SERIAL, es1, CopyEvents(c1, 1));
    LateOn(Mt4, SERIAL, es1 + CopyEvents(c1, 1), [Report(0)]);
  }

  /**
   * With maxPositions = 1 and never more than one OPEN in flight, two copies are open in the end: one late verdict adds
   * one to the overshoot, so the bound M - 1 + W + L is reached here too.
   */
  lemma LateVerdictOvershoots(slave: Slave, account: MasterAccount)
    requires LetsFirstThrough(slave, account) && slave.maxPositions == Some(1)
    ensures var es := OvershootRun(slave, account);
            && Legal(Mt4, SERIAL, es) && PeaksAt(Mt4, SERIAL, es, 1) && Late(Mt4, SERIAL, es) == 1
            && var s := Final(Mt4, SERIAL, es);
               OpenCount(s.backend.table) + InFlightCount(s) == 2
  {
    OvershootReaches(slave, account);
    OvershootPeaks(slave, account);
    OvershootIsLate(slave, account);
    BothCount(Final(Mt4, SERIAL, OvershootRun(slave, account)));
  }
}
