/**
 * The "offline" verdict of an MT4 dispatch is written after the row has been visible to polls: it can land on an
 * execution that is already recorded. What exactly one such verdict costs, and runs in which it happens.
 */
module LateVerdict {
  import opened Common
  import opened ReconciliationEngine
  import opened ReconciliationTheorems
  import opened CopyOrders
  import opened CopyProtocol
  import opened SlaveTerminal
  import opened SlaveRun
  import opened AtMostOnce
  import opened Ledger
  import opened LedgerRuns
  import opened Agreement
  import opened StopsAndTargets
  import opened CopyRuns

  // ---------------------------------------------------------------- what one verdict costs

  /** The row is what makes a copy open, or the only row that makes it closed. */
  ghost predicate LosesTrack(t: Table, id: string) {
    || IsOpenRow(t, id)
    || (IsClosedRow(t, id)
        && forall x :: IsClosedRow(t, x) && t.rows[x].event.masterTicket == t.rows[id].event.masterTicket ==> x == id)
  }

  function Failing(t: Table, id: string): Table {
    Mark(t, id, Failed, Some("SLAVE_OFFLINE"))
  }

  /** These prices, held, do not fit what is expected. */
  predicate Misfits(expected: Option<ExpectedSlTp>, held: ExpectedSlTp, tolerance: real) {
    expected.Some?
    && (PriceOff(expected.value.sl, Shown(Mt4, held.sl.GetOr(0.0)), tolerance)
        || PriceOff(expected.value.tp, Shown(Mt4, held.tp.GetOr(0.0)), tolerance))
  }

  /** The row is where an open copy's expectation is read, and the next older one's prices are too far from its own. */
  ghost predicate LosesPrices(t: Table, id: string, tolerance: real) {
    && id in t.rows
    && var m := t.rows[id].event.masterTicket;
       && (exists x :: IsOpenRow(t, x) && t.rows[x].event.masterTicket == m)
       && ExpectedRow(t, m) == Some(id)
       && Misfits(GetExpectedSlTp(Failing(t, id), m), ExpectedSlTp(t.rows[id].event.sl, t.rows[id].event.tp), tolerance)
  }

  /** The state after the verdict on the row of call n. */
  ghost function Judged(s: State, n: nat): State
    requires n in s.backend.calls && s.backend.calls[n].Delivering?
  {
    After(Mt4, s, Act(Deliver(n, Offline)))
  }

  lemma JudgedIsPriced(s: State, n: nat)
    requires Priced(Mt4, s) && n in s.backend.calls && s.backend.calls[n].Delivering?
    ensures Priced(Mt4, Judged(s, n))
  {
    var e, s' := Act(Deliver(n, Offline)), Judged(s, n);
    StepKeepsLedger(Mt4, s, e);
    StepKeepsPrices(Mt4, s, e);
    StepKeepsExactPrices(s, e);
    StepProgresses(Mt4, s, e);
    forall x, y, m | IsOpenFor(s'.backend.table, x, m) && IsOpenFor(s'.backend.table, y, m) ensures x == y {
      assert IsOpenFor(s.backend.table, x, m) && IsOpenFor(s.backend.table, y, m);
    }
  }

  lemma JudgedFilled(s: State, n: nat, id: string)
    requires n in s.backend.calls && s.backend.calls[n].Delivering?
    ensures WasFilled(Judged(s, n), id) <==> WasFilled(s, id)
  {
    forall k ensures Confirmed(Judged(s, n), k, id) <==> Confirmed(s, k, id) {}
  }

  lemma JudgedClosed(s: State, n: nat, m: string)
    requires n in s.backend.calls && s.backend.calls[n].Delivering?
    ensures WasClosed(Judged(s, n), m) <==> WasClosed(s, m)
  {
    var s' := Judged(s, n);
    forall id ensures FilledFor(s', id, Close, m) <==> FilledFor(s, id, Close, m) { JudgedFilled(s, n, id); }
  }

  /** Where every filled row is EXECUTED, what was closed is listed as closed. */
  lemma ClosedIffListed(s: State, m: string)
    requires LedgerInv(Mt4, s) && Recorded(s)
    ensures WasClosed(s, m) <==> m in ClosedTickets(s.backend.table)
  {
    if m in ClosedTickets(s.backend.table) { ListedWasFilled(Mt4, s, m); }
    if id :| FilledFor(s, id, Close, m) { assert Done(s.backend.table.rows[id], Close); }
  }

  /** A CLOSE that was filled has its OPEN, EXECUTED too. */
  lemma ClosedHasOpen(s: State, id: string)
    requires Settled(Mt4, s) && Recorded(s) && IsClosedRow(s.backend.table, id)
    ensures
      exists x ::
        x != id && Matches(s.backend.table.rows, x, OpenedFor(s.backend.table.rows[id].event.masterTicket))
  {
    var k, ticket := RowFilled(Mt4, s, id);
    var x := TargetRow(Mt4, s, k, Close, ticket);
    assert Matches(s.backend.table.rows, x, OpenedFor(s.backend.table.rows[id].event.masterTicket));
  }

  /** The judged row is harmless afterwards exactly if it lost nothing. */
  lemma JudgedHarmlessIff(s: State, n: nat)
    requires Settled(Mt4, s) && Recorded(s) && n in s.backend.calls && s.backend.calls[n].Delivering?
    requires WasFilled(s, s.backend.calls[n].instruction.copyId)
    ensures var id, s' := s.backend.calls[n].instruction.copyId, Judged(s, n);
            id in s'.backend.table.rows && (Harmless(s', id) <==> !LosesTrack(s.backend.table, id))
  {
    var id, s' := s.backend.calls[n].instruction.copyId, Judged(s, n);
    var t, t', m := s.backend.table, s'.backend.table, s.backend.table.rows[id].event.masterTicket;
    match t.rows[id].event.action
    case Modify =>
    case Open =>
      JudgedClosed(s, n, m);
      ClosedIffListed(s, m);
    case Close =>
      ClosedHasOpen(s, id);
      var x :| x != id && Matches(t.rows, x, OpenedFor(m));
      assert Matches(t'.rows, x, OpenedFor(m));
      OtherClose(t, id);
  }

  /** Another EXECUTED CLOSE is left. */
  lemma OtherClose(t: Table, id: string)
    requires IsClosedRow(t, id)
    ensures t.rows[id].event.masterTicket in ClosedTickets(Failing(t, id)) <==> !LosesTrack(t, id)
  {
    var t', m := Failing(t, id), t.rows[id].event.masterTicket;
    if m in ClosedTickets(t') {
      var x :| x in t'.rows && Done(t'.rows[x], Close) && t'.rows[x].event.masterTicket == m;
      assert IsClosedRow(t, x) && x != id;
    }
    if x :| IsClosedRow(t, x) && t.rows[x].event.masterTicket == m && x != id {
      assert Done(t'.rows[x], Close);
    }
  }

  lemma JudgedTracksIff(s: State, n: nat)
    requires Settled(Mt4, s) && Recorded(s) && n in s.backend.calls && s.backend.calls[n].Delivering?
    ensures AllTracked(Judged(s, n)) <==> !LosesTrack(s.backend.table, s.backend.calls[n].instruction.copyId)
  {
    var id, s' := s.backend.calls[n].instruction.copyId, Judged(s, n);
    forall x | WasFilled(s', x) && x != id
      ensures x in s'.backend.table.rows && s'.backend.table.rows[x].status == Executed
    {
      JudgedFilled(s, n, x);
    }
    JudgedFilled(s, n, id);
    if WasFilled(s, id) {
      JudgedHarmlessIff(s, n);
    } else if LosesTrack(s.backend.table, id) {
      ExecutedIsFilled(Mt4, s, id);
    }
  }

  // ---------------------------------------------------------------- the prices after it

  lemma {:induction false} LatestWithout(ids: seq<string>, rows: map<string, CopyOrder>, rows': map<string, CopyOrder>,
                                         p: CopyOrder -> bool, id: string)
    requires forall x :: x != id ==> (Matches(rows, x, p) <==> Matches(rows', x, p))
    requires !Matches(rows', id, p) && Latest(ids, rows, p) != Some(id)
    ensures Latest(ids, rows', p) == Latest(ids, rows, p)
  {
    if ids != [] && !Matches(rows, ids[|ids| - 1], p) { LatestWithout(ids[..|ids| - 1], rows, rows', p, id); }
  }

  /** Failing a row that is not read leaves the expectation as it was. */
  lemma UnreadKeepsExpectation(t: Table, id: string, m: string)
    requires id in t.rows && ExpectedRow(t, m) != Some(id)
    ensures GetExpectedSlTp(Failing(t, id), m) == GetExpectedSlTp(t, m)
  {
    LatestWithout(t.ids, t.rows, Failing(t, id).rows, PricedFor(m), id);
    LatestFinds(t.ids, t.rows, PricedFor(m));
  }

  lemma JudgedPricesLast(s: State, n: nat, k: int, m: string)
    requires n in s.backend.calls && s.backend.calls[n].Delivering?
    ensures PricesLast(Judged(s, n), k, m) <==> PricesLast(s, k, m)
  {
    forall j ensures Prices(Judged(s, n), j, m) <==> Prices(s, j, m) {}
  }

  /** In a state where all is recorded, the row read for an open copy is the one handed out last. */
  lemma ReadIsLast(s: State, x: string, k: int)
    requires Priced(Mt4, s) && Recorded(s) && IsOpenRow(s.backend.table, x)
    requires PricesLast(s, k, s.backend.table.rows[x].event.masterTicket)
    ensures ExpectedRow(s.backend.table, s.backend.table.rows[x].event.masterTicket) == Some(s.backend.handed[k].copyId)
    ensures ExactFor(s.backend.table, s.backend.handed[k])
  {
    var m := s.backend.table.rows[x].event.masterTicket;
    var row := FilledRow(Mt4, s, k, s.backend.handed[k].action, s.outcomes[k].ticket);
    forall j ensures !Overtakes(s, j, k, m) { InOrderNoneOvertakes(s, j, k, m); }
    ExpectedRowIff(Mt4, s, k, m);
  }

  lemma OpenHasLastPrices(s: State, x: string)
    requires Priced(Mt4, s) && Recorded(s) && IsOpenRow(s.backend.table, x)
    ensures exists k :: PricesLast(s, k, s.backend.table.rows[x].event.masterTicket)
  {
    HarmlessIsTracked(Mt4, s, x);
    var p := OpenCopyIsHeld(Mt4, s, x);
    PositionIsPriced(Mt4, s, p, x);
  }

  /** Its own row still counts. */
  lemma OpenStaysExpected(t: Table, x: string, id: string)
    requires ValidTable(t) && IsOpenRow(t, x) && id in t.rows && x != id
    ensures GetExpectedSlTp(Failing(t, id), t.rows[x].event.masterTicket).Some?
  {
    var t', m := Failing(t, id), t.rows[x].event.masterTicket;
    ListedIds(t, x);
    LatestFinds(t'.ids, t'.rows, PricedFor(m));
    assert Matches(t'.rows, x, PricedFor(m));
  }

  /** The verdict is on the row an open copy's expectation is read from. */
  lemma ReadRowFitsIff(s: State, n: nat, x: string, tolerance: real)
    requires Priced(Mt4, s) && Recorded(s) && n in s.backend.calls && s.backend.calls[n].Delivering?
    requires IsOpenRow(s.backend.table, x) && x != s.backend.calls[n].instruction.copyId
    requires ExpectedRow(s.backend.table, s.backend.table.rows[x].event.masterTicket)
             == Some(s.backend.calls[n].instruction.copyId)
    ensures PricesFit(Mt4, Judged(s, n), s.backend.table.rows[x].event.masterTicket, tolerance)
            <==> !LosesPrices(s.backend.table, s.backend.calls[n].instruction.copyId, tolerance)
  {
    var t, id := s.backend.table, s.backend.calls[n].instruction.copyId;
    var m := t.rows[x].event.masterTicket;
    OpenHasLastPrices(s, x);
    var k :| PricesLast(s, k, m);
    ReadIsLast(s, x, k);
    OpenStaysExpected(t, x, id);
    JudgedPricesLast(s, n, k, m);
    LastDecidesFit(Mt4, Judged(s, n), k, m, tolerance);
    LosesPricesIff(t, id, x, s.backend.handed[k], tolerance);
  }

  lemma LosesPricesIff(t: Table, id: string, x: string, i: Instruction, tolerance: real)
    requires IsOpenRow(t, x) && ExpectedRow(t, t.rows[x].event.masterTicket) == Some(id) && i.copyId == id
    requires ExactFor(t, i) && GetExpectedSlTp(Failing(t, id), t.rows[x].event.masterTicket).Some?
    ensures LosesPrices(t, id, tolerance)
            <==> !Fits(Mt4, GetExpectedSlTp(Failing(t, id), t.rows[x].event.masterTicket).value, i, tolerance)
  {
    LatestFinds(t.ids, t.rows, PricedFor(t.rows[x].event.masterTicket));
  }

  lemma UnreadRowFits(s: State, n: nat, x: string, tolerance: real)
    requires Priced(Mt4, s) && n in s.backend.calls && s.backend.calls[n].Delivering?
    requires IsOpenRow(s.backend.table, x)
    requires ExpectedRow(s.backend.table, s.backend.table.rows[x].event.masterTicket)
             != Some(s.backend.calls[n].instruction.copyId)
    requires PricesFit(Mt4, s, s.backend.table.rows[x].event.masterTicket, tolerance)
    ensures PricesFit(Mt4, Judged(s, n), s.backend.table.rows[x].event.masterTicket, tolerance)
  {
    var s', m := Judged(s, n), s.backend.table.rows[x].event.masterTicket;
    assert CallIsSound(Mt4, s.backend.table, s.backend.calls[n]);
    UnreadKeepsExpectation(s.backend.table, s.backend.calls[n].instruction.copyId, m);
    forall k | PricesLast(s', k, m) ensures PricesLast(s, k, m) { JudgedPricesLast(s, n, k, m); }
  }

  /** One open copy's prices after the verdict. */
  lemma JudgedFitIff(s: State, n: nat, x: string, tolerance: real)
    requires Priced(Mt4, s) && Recorded(s) && n in s.backend.calls && s.backend.calls[n].Delivering?
    requires IsOpenRow(s.backend.table, x) && x != s.backend.calls[n].instruction.copyId
    requires PricesFit(Mt4, s, s.backend.table.rows[x].event.masterTicket, tolerance)
    ensures var t, id := s.backend.table, s.backend.calls[n].instruction.copyId;
            var m := t.rows[x].event.masterTicket;
            PricesFit(Mt4, Judged(s, n), m, tolerance)
            <==> !(ExpectedRow(t, m) == Some(id) && LosesPrices(t, id, tolerance))
  {
    var m := s.backend.table.rows[x].event.masterTicket;
    if ExpectedRow(s.backend.table, m) == Some(s.backend.calls[n].instruction.copyId) {
      ReadRowFitsIff(s, n, x, tolerance);
    } else {
      UnreadRowFits(s, n, x, tolerance);
    }
  }

  /** Not losing track, the verdict leaves the open list as it was. */
  lemma JudgedOpens(s: State, n: nat, x: string)
    requires Priced(Mt4, s) && Recorded(s) && n in s.backend.calls && s.backend.calls[n].Delivering?
    requires !LosesTrack(s.backend.table, s.backend.calls[n].instruction.copyId)
    ensures IsOpenRow(Judged(s, n).backend.table, x) <==> IsOpenRow(s.backend.table, x)
  {
    var s' := Judged(s, n);
    JudgedIsPriced(s, n);
    JudgedTracksIff(s, n);
    HarmlessIsTracked(Mt4, s', x);
    HarmlessIsTracked(Mt4, s, x);
    JudgedFilled(s, n, x);
    if x in s.backend.table.rows { JudgedClosed(s, n, s.backend.table.rows[x].event.masterTicket); }
  }

  lemma JudgedAllFitIff(s: State, n: nat, tolerance: real)
    requires Priced(Mt4, s) && Recorded(s) && n in s.backend.calls && s.backend.calls[n].Delivering?
    requires !LosesTrack(s.backend.table, s.backend.calls[n].instruction.copyId) && AllPricesFit(Mt4, s, tolerance)
    ensures AllPricesFit(Mt4, Judged(s, n), tolerance)
            <==> !LosesPrices(s.backend.table, s.backend.calls[n].instruction.copyId, tolerance)
  {
    var s', t, id := Judged(s, n), s.backend.table, s.backend.calls[n].instruction.copyId;
    forall x | IsOpenRow(t, x)
      ensures IsOpenRow(s'.backend.table, x)
      ensures var m := t.rows[x].event.masterTicket;
              && s'.backend.table.rows[x].event.masterTicket == m
              && (PricesFit(Mt4, s', m, tolerance)
                  <==> !(ExpectedRow(t, m) == Some(id) && LosesPrices(t, id, tolerance)))
    {
      JudgedOpens(s, n, x);
      JudgedFitIff(s, n, x, tolerance);
    }
    forall x | IsOpenRow(s'.backend.table, x) ensures IsOpenRow(t, x) { JudgedOpens(s, n, x); }
  }

  /**
   * From a settled MT4 state in which every filled row is EXECUTED and the comparison reports nothing but MISSING_COPY,
   * an "offline" verdict leaves it so exactly if the row it fails is neither an open copy, nor the only EXECUTED CLOSE
   * of its Master ticket, nor the row an open copy's expectation is read from with prices too far from the next older.
   */
  lemma {:induction false} LateVerdictIff(s: State, n: nat, input: Input, after: Input)
    requires Priced(Mt4, s) && Recorded(s) && n in s.backend.calls && s.backend.calls[n].Delivering?
    requires input == Compared(Mt4, s.backend.table, s.book, input.masterPositions, input.volumeTolerance,
                               input.priceTolerance)
    requires after == Compared(Mt4, Judged(s, n).backend.table, s.book, input.masterPositions, input.volumeTolerance,
                               input.priceTolerance)
    requires input.volumeTolerance.GetOr(DEFAULT_VOLUME_TOLERANCE) >= HALF_VOLUME_UNIT && OnlyMissingCopies(input)
    ensures var id := s.backend.calls[n].instruction.copyId;
            OnlyMissingCopies(after)
            <==> && !LosesTrack(s.backend.table, id)
                 && !LosesPrices(s.backend.table, id, input.priceTolerance.GetOr(DEFAULT_PRICE_TOLERANCE))
  {
    var tolerance := input.priceTolerance.GetOr(DEFAULT_PRICE_TOLERANCE);
    JudgedIsPriced(s, n);
    SettledIsQuietIff(Mt4, s, input);
    SettledIsQuietIff(Mt4, Judged(s, n), after);
    JudgedTracksIff(s, n);
    if !LosesTrack(s.backend.table, s.backend.calls[n].instruction.copyId) { JudgedAllFitIff(s, n, tolerance); }
  }
}
