/** How far OPENs in flight and late "offline" verdicts let a Slave overshoot its limits. */
module Limits {
  import opened Common
  import opened ReconciliationEngine
  import opened ReconciliationTheorems
  import opened RiskChecks
  import opened CopyOrders
  import opened CopyProtocol
  import opened SlaveTerminal
  import opened SlaveRun
  import opened AtMostOnce
  import opened Ledger
  import opened LedgerRuns
  import opened Agreement
  import opened Exposures
  import V = VolumeCalculator

  // ---------------------------------------------------------------- over whole runs

  /** At no moment of the run are more than `peak` OPENs in flight. */
  ghost predicate PeaksAt(platform: Platform, d: Discipline, es: seq<Event>, peak: nat)
    requires Legal(platform, d, es)
  {
    InFlightCount(Final(platform, d, es)) <= peak && (es == [] || PeaksAt(platform, d, es[..|es| - 1], peak))
  }

  /** The copies at stake in the late verdicts of a run, as often as they were. */
  ghost function Late(platform: Platform, d: Discipline, es: seq<Event>): nat
    requires Legal(platform, d, es)
  {
    if es == [] then 0
    else Late(platform, d, es[..|es| - 1]) + |AtStake(Final(platform, d, es[..|es| - 1]), es[|es| - 1])|
  }

  /** Every admission of the run was made within the limit. */
  ghost predicate Gated(platform: Platform, d: Discipline, es: seq<Event>, w: Weight, limit: real, m: real)
    requires Legal(platform, d, es)
  {
    es == []
    || (Gated(platform, d, es[..|es| - 1], w, limit, m)
        && (es[|es| - 1].Act? && es[|es| - 1].step.Begin? ==>
              AdmitsWithin(Final(platform, d, es[..|es| - 1]).backend.table, es[|es| - 1].step, w, limit, m)))
  }

  ghost function Exposure(s: State, w: Weight): real { RowExposure(s, w) + CallExposure(s.backend, w) }

  lemma NothingExposed(w: Weight, m: real)
    ensures Light(IDLE, w, m) && Exposure(IDLE, w) == 0.0 && LostOpens(IDLE) == {}
  {
    assert Exposed(IDLE) == {} && AdmittedCalls(IDLE.backend) == {} && LostOpens(IDLE) == {};
  }

  lemma StepStaysLight(platform: Platform, s: State, e: Event, w: Weight, limit: real, m: real)
    requires Inv(platform, s.backend) && Ticketed(s) && Permitted(platform, s, e) && m >= 0.0
    requires e.Act? && e.step.Begin? ==> AdmitsWithin(s.backend.table, e.step, w, limit, m)
    requires Light(s, w, m)
    ensures Light(After(platform, s, e), w, m)
  {
    if e.Act? && e.step.Begin? {
      BeginAdds(s, e.step, w, limit, m);
    } else if e.Act? && e.step.Create? {
      CreateStaysLight(platform, s, e.step.call, e.step.copyId, w, m);
    } else {
      StepKeepsTicketed(platform, s, e);
      OthersMove(platform, s, e);
      MovingKeepsBound(s, After(platform, s, e), AtStake(s, e), w, m);
    }
  }

  lemma StepLoses(platform: Platform, s: State, e: Event)
    requires Inv(platform, s.backend) && Ticketed(s) && Permitted(platform, s, e)
    ensures |LostOpens(After(platform, s, e))| <= |LostOpens(s)| + |AtStake(s, e)|
  {
    if e.Act? && e.step.Begin? {
      BeginExposes(s, e.step);
    } else if e.Act? && e.step.Create? {
      CreateFilled(platform, s, e.step.call, e.step.copyId);
    } else {
      OthersMove(platform, s, e);
      SubsetSize(LostOpens(After(platform, s, e)), LostOpens(s) + AtStake(s, e));
    }
  }

  /** An event that is no dispatch adds at most what was at stake. */
  lemma OtherAdds(platform: Platform, s: State, e: Event, w: Weight, m: real)
    requires Inv(platform, s.backend) && Ticketed(s) && Permitted(platform, s, e) && !(e.Act? && e.step.Begin?)
    requires Light(s, w, m) && m >= 0.0
    ensures Exposure(After(platform, s, e), w) <= Exposure(s, w) + Times(|AtStake(s, e)|, m)
  {
    StepKeepsTicketed(platform, s, e);
    if e.Act? && e.step.Create? {
      CreateKeepsBound(platform, s, e.step.call, e.step.copyId, w, m);
    } else {
      OthersMove(platform, s, e);
      MovingKeepsBound(s, After(platform, s, e), AtStake(s, e), w, m);
    }
  }

  /** limit + (W - 1 + L) * m */
  function Bound(limit: real, peak: nat, late: nat, m: real): real
    requires peak >= 1
  {
    limit + Times(peak - 1 + late, m)
  }

  lemma BoundAdds(limit: real, peak: nat, late: nat, more: nat, m: real)
    requires peak >= 1
    ensures Bound(limit, peak, late, m) + Times(more, m) == Bound(limit, peak, late + more, m)
  {
    TimesAdds(peak - 1 + late, more, m);
  }

  lemma BeginStaysBounded(
      platform: Platform, s: State, step: Step, w: Weight, limit: real, m: real, peak: nat, late: nat)
    requires Ticketed(s) && Permitted(platform, s, Act(step)) && step.Begin? && m >= 0.0 && peak >= 1
    requires AdmitsWithin(s.backend.table, step, w, limit, m)
    requires Light(s, w, m) && |LostOpens(s)| <= late && InFlightCount(After(platform, s, Act(step))) <= peak
    requires Exposure(s, w) <= Bound(limit, peak, late, m)
    ensures Exposure(After(platform, s, Act(step)), w) <= Bound(limit, peak, late, m)
  {
    BeginKeepsBound(s, step, w, limit, m, peak, late);
  }

  lemma OtherStaysBounded(platform: Platform, s: State, e: Event, w: Weight, limit: real, m: real, peak: nat, late: nat)
    requires Inv(platform, s.backend) && Ticketed(s) && Permitted(platform, s, e) && m >= 0.0 && peak >= 1
    requires !(e.Act? && e.step.Begin?) && Light(s, w, m) && Exposure(s, w) <= Bound(limit, peak, late, m)
    ensures Exposure(After(platform, s, e), w) <= Bound(limit, peak, late, m) + Times(|AtStake(s, e)|, m)
  {
    OtherAdds(platform, s, e, w, m);
  }

  lemma StepStaysBounded(platform: Platform, s: State, e: Event, w: Weight, limit: real, m: real, peak: nat, late: nat)
    requires Inv(platform, s.backend) && Ticketed(s) && Permitted(platform, s, e) && m >= 0.0 && peak >= 1
    requires e.Act? && e.step.Begin? ==> AdmitsWithin(s.backend.table, e.step, w, limit, m)
    requires Light(s, w, m) && |LostOpens(s)| <= late && InFlightCount(After(platform, s, e)) <= peak
    requires Exposure(s, w) <= Bound(limit, peak, late, m)
    ensures Exposure(After(platform, s, e), w) <= Bound(limit, peak, late, m) + Times(|AtStake(s, e)|, m)
  {
    if e.Act? && e.step.Begin? {
      BeginStaysBounded(platform, s, e.step, w, limit, m, peak, late);
    } else {
      OtherStaysBounded(platform, s, e, w, limit, m, peak, late);
    }
  }

  lemma RunIsTicketed(platform: Platform, d: Discipline, es: seq<Event>)
    requires d.serial && Legal(platform, d, es)
    ensures Inv(platform, Final(platform, d, es).backend) && Ticketed(Final(platform, d, es))
  {
    RunKeepsLedger(platform, d, es);
  }

  lemma {:induction false} RunStaysLight(platform: Platform, d: Discipline, es: seq<Event>, w: Weight, limit: real,
                                         m: real)
    requires d.serial && Legal(platform, d, es) && m >= 0.0 && Gated(platform, d, es, w, limit, m)
    ensures Light(Final(platform, d, es), w, m)
  {
    if es == [] {
      NothingExposed(w, m);
    } else {
      RunIsTicketed(platform, d, es[..|es| - 1]);
      RunStaysLight(platform, d, es[..|es| - 1], w, limit, m);
      StepStaysLight(platform, Final(platform, d, es[..|es| - 1]), es[|es| - 1], w, limit, m);
    }
  }

  lemma {:induction false} RunLoses(platform: Platform, d: Discipline, es: seq<Event>)
    requires d.serial && Legal(platform, d, es)
    ensures |LostOpens(Final(platform, d, es))| <= Late(platform, d, es)
  {
    if es == [] {
      NothingExposed(_ => 0.0, 0.0);
    } else {
      RunIsTicketed(platform, d, es[..|es| - 1]);
      RunLoses(platform, d, es[..|es| - 1]);
      StepLoses(platform, Final(platform, d, es[..|es| - 1]), es[|es| - 1]);
    }
  }

  lemma LastIsGated(platform: Platform, d: Discipline, es: seq<Event>, w: Weight, limit: real, m: real, peak: nat)
    requires es != [] && Legal(platform, d, es)
    requires Gated(platform, d, es, w, limit, m) && PeaksAt(platform, d, es, peak)
    ensures var s, e := Final(platform, d, es[..|es| - 1]), es[|es| - 1];
            && Permitted(platform, s, e) && Final(platform, d, es) == After(platform, s, e)
            && (e.Act? && e.step.Begin? ==> AdmitsWithin(s.backend.table, e.step, w, limit, m))
            && InFlightCount(After(platform, s, e)) <= peak
            && Late(platform, d, es) == Late(platform, d, es[..|es| - 1]) + |AtStake(s, e)|
            && Gated(platform, d, es[..|es| - 1], w, limit, m) && PeaksAt(platform, d, es[..|es| - 1], peak)
  {}

  lemma LastStaysBounded(platform: Platform, d: Discipline, es: seq<Event>, w: Weight, limit: real, m: real, peak: nat)
    requires es != [] && d.serial && Legal(platform, d, es) && m >= 0.0 && peak >= 1
    requires Gated(platform, d, es, w, limit, m) && PeaksAt(platform, d, es, peak)
    requires Exposure(Final(platform, d, es[..|es| - 1]), w)
             <= Bound(limit, peak, Late(platform, d, es[..|es| - 1]), m)
    ensures Exposure(Final(platform, d, es), w)
         <= Bound(limit, peak, Late(platform, d, es[..|es| - 1]), m)
            + Times(|AtStake(Final(platform, d, es[..|es| - 1]), es[|es| - 1])|, m)
  {
    var front := es[..|es| - 1];
    LastIsGated(platform, d, es, w, limit, m, peak);
    RunIsTicketed(platform, d, front);
    RunStaysLight(platform, d, front, w, limit, m);
    RunLoses(platform, d, front);
    StepStaysBounded(platform, Final(platform, d, front), es[|es| - 1], w, limit, m, peak, Late(platform, d, front));
  }

  lemma NothingIsBounded(platform: Platform, d: Discipline, w: Weight, limit: real, m: real, peak: nat)
    requires m >= 0.0 && limit >= 0.0 && peak >= 1
    ensures Exposure(Final(platform, d, []), w) <= Bound(limit, peak, Late(platform, d, []), m)
  {
    NothingExposed(w, m);
    TimesMonotone(0, peak - 1, m);
  }

  lemma BoundSplits(limit: real, peak: nat, late: nat, more: nat, total: nat, m: real)
    requires peak >= 1 && total == late + more
    ensures Bound(limit, peak, late, m) + Times(more, m) == Bound(limit, peak, total, m)
  {
    BoundAdds(limit, peak, late, more, m);
  }

  lemma LateAdds(platform: Platform, d: Discipline, es: seq<Event>, limit: real, m: real, peak: nat)
    requires es != [] && Legal(platform, d, es) && peak >= 1
    ensures Bound(limit, peak, Late(platform, d, es[..|es| - 1]), m)
            + Times(|AtStake(Final(platform, d, es[..|es| - 1]), es[|es| - 1])|, m)
         == Bound(limit, peak, Late(platform, d, es), m)
  {
    BoundSplits(limit, peak, Late(platform, d, es[..|es| - 1]),
                |AtStake(Final(platform, d, es[..|es| - 1]), es[|es| - 1])|, Late(platform, d, es), m);
  }

  lemma {:induction false} RunKeepsBound(platform: Platform, d: Discipline, es: seq<Event>, w: Weight, limit: real,
                                         m: real, peak: nat)
    requires d.serial && Legal(platform, d, es) && m >= 0.0 && limit >= 0.0 && peak >= 1
    requires Gated(platform, d, es, w, limit, m) && PeaksAt(platform, d, es, peak)
    ensures Exposure(Final(platform, d, es), w) <= Bound(limit, peak, Late(platform, d, es), m)
  {
    if es == [] {
      NothingIsBounded(platform, d, w, limit, m, peak);
    } else {
      RunKeepsBound(platform, d, es[..|es| - 1], w, limit, m, peak);
      LastStaysBounded(platform, d, es, w, limit, m, peak);
      LateAdds(platform, d, es, limit, m, peak);
    }
  }

  // ---------------------------------------------------------------- how many are late

  /** Without late verdicts, and for an MT5 Slave in any case, nothing is at stake. */
  lemma {:induction false} NoneLate(platform: Platform, d: Discipline, es: seq<Event>)
    requires d.serial && (platform == Mt5 || d.timely) && Legal(platform, d, es)
    ensures Late(platform, d, es) == 0
  {
    if es != [] {
      var front, last := es[..|es| - 1], es[|es| - 1];
      NoneLate(platform, d, front);
      RunKeepsLedger(platform, d, front);
      var b := Final(platform, d, front).backend;
      if last.Act? && last.step.Deliver? { assert CallIsSound(platform, b.table, b.calls[last.step.call]); }
      assert AtStake(Final(platform, d, front), last) == {};
    }
  }

  /** A verdict on an EXECUTED OPEN or CLOSE. */
  predicate IsLate(s: State, e: Event) {
    && e.Act? && e.step.Deliver? && e.step.link == Offline && e.step.call in s.backend.calls
    && s.backend.calls[e.step.call].Delivering?
    && var id := s.backend.calls[e.step.call].instruction.copyId;
       && id in s.backend.table.rows && s.backend.table.rows[id].status == Executed
       && s.backend.table.rows[id].event.action != Modify
  }

  /** The late verdicts of a run on EXECUTED OPENs and CLOSEs. */
  ghost function LateVerdicts(platform: Platform, d: Discipline, es: seq<Event>): nat
    requires Legal(platform, d, es)
  {
    if es == [] then 0
    else
      LateVerdicts(platform, d, es[..|es| - 1])
      + if IsLate(Final(platform, d, es[..|es| - 1]), es[|es| - 1]) then 1 else 0
  }

  lemma AtMostOne<T>(a: set<T>)
    requires forall x, y :: x in a && y in a ==> x == y
    ensures |a| <= 1
  {
    if a != {} {
      var x :| x in a;
      assert a == {x};
    }
  }

  lemma StakeIsOne(s: State, e: Event)
    requires OneOpenRow(s.backend.table)
    ensures |AtStake(s, e)| <= if IsLate(s, e) then 1 else 0
  {
    var t := s.backend.table;
    forall x, y | x in AtStake(s, e) && y in AtStake(s, e) ensures x == y {
      var m := t.rows[s.backend.calls[e.step.call].instruction.copyId].event.masterTicket;
      assert IsOpenFor(t, x, m) && IsOpenFor(t, y, m);
    }
    AtMostOne(AtStake(s, e));
    if !IsLate(s, e) { assert AtStake(s, e) == {}; }
  }

  /** Where every Master ticket has one OPEN, a late verdict has one copy at stake. */
  lemma {:induction false} OneAtStakeEach(platform: Platform, d: Discipline, es: seq<Event>)
    requires d.serial && Legal(platform, d, es) && OneOpenPerTicket(Begun(es))
    ensures Late(platform, d, es) <= LateVerdicts(platform, d, es)
  {
    if es != [] {
      var front := es[..|es| - 1];
      assert forall e :: e in Begun(front) ==> e in Begun(es);
      OneAtStakeEach(platform, d, front);
      RunKeepsLedger(platform, d, front);
      RunIsSourced(platform, d, front);
      OneOpenRowEach(Final(platform, d, front).backend, Begun(front));
      StakeIsOne(Final(platform, d, front), es[|es| - 1]);
    }
  }

  // ---------------------------------------------------------------- the two limits

  ghost function CountWeight(): Weight { (v: Option<real>) => 1.0 }

  ghost function VolumeWeight(): Weight { (v: Option<real>) => v.GetOr(0.0) }

  ghost function OpenAmong(t: Table, ids: seq<string>): set<string> {
    set id | id in ids && IsOpenRow(t, id)
  }

  lemma OpenAmongOneMore(t: Table, ids: seq<string>, id: string)
    requires id !in ids
    ensures id !in OpenAmong(t, ids)
    ensures OpenAmong(t, ids + [id]) == if IsOpenRow(t, id) then OpenAmong(t, ids) + {id} else OpenAmong(t, ids)
  {}

  lemma SumOneMore(opens: seq<OpenCopy>, c: OpenCopy)
    ensures Sum(Map(opens + [c], OpenVolume())) == Sum(Map(opens, OpenVolume())) + c.requestedVolume.GetOr(0.0)
  {
    assert Map(opens + [c], OpenVolume())[..|opens|] == Map(opens, OpenVolume());
  }

  /** What getOpenPositionsSummary adds up, as a sum over the open rows. */
  lemma {:induction false} SummaryIsSum(t: Table, ids: seq<string>)
    requires Distinct(ids)
    ensures |Collect(ids, OpenRule(t))| == |OpenAmong(t, ids)|
    ensures Sum(Map(Collect(ids, OpenRule(t)), OpenVolume()))
            == SumOver(OpenAmong(t, ids), RowWeight(t, VolumeWeight()))
  {
    if ids != [] {
      var front, last := ids[..|ids| - 1], ids[|ids| - 1];
      assert ids == front + [last] && last !in front;
      SummaryIsSum(t, front);
      OpenAmongOneMore(t, front, last);
      if IsOpenRow(t, last) {
        SumAdd(OpenAmong(t, front), last, RowWeight(t, VolumeWeight()));
        SumOneMore(Collect(front, OpenRule(t)), AsOpenCopy(t, last));
      } else {
        assert Collect(ids, OpenRule(t)) == Collect(front, OpenRule(t));
      }
    }
  }

  lemma SummaryOfTable(t: Table)
    requires ValidTable(t)
    ensures OpenCount(t) == |OpenRows(t)|
    ensures TotalVolume(t) == SumOver(OpenRows(t), RowWeight(t, VolumeWeight()))
  {
    SummaryIsSum(t, t.ids);
    forall id ensures id in t.ids <==> id in t.rows { assert id in ToSet(t.ids) <==> id in t.rows.Keys; }
    assert OpenRows(t) == OpenAmong(t, t.ids);
  }

  lemma OpenIsNotInFlight(platform: Platform, s: State)
    requires LedgerInv(platform, s)
    ensures OpenRows(s.backend.table) !! InFlightRows(s)
  {
    forall id | id in OpenRows(s.backend.table) ensures id !in InFlightRows(s) {
      var k :| Confirmed(s, k, id);
      forall p | p in s.backend.polls ensures s.backend.polls[p].copyId != id {
        assert PollIsFresh(s.backend.handed, s.backend.polls[p]);
        assert s.backend.handed[k] in s.backend.handed;
      }
      forall j ensures !Unreported(s, j, id) {}
    }
  }

  /** Every Slave record the run reads has this limit on positions. */
  ghost predicate FixedPositions(es: seq<Event>, maxPositions: nat) {
    forall e :: e in es && e.Act? && e.step.Begin? ==> e.step.slave.maxPositions == Some(maxPositions)
  }

  /** A Slave record with this limit on exposure and this cap, its lot sizes as their two-decimal columns hold them. */
  ghost predicate HasExposureLimit(slave: Slave, maxExposure: real, maxLot: real) {
    && slave.maxExposure == Some(maxExposure) && slave.maxLot == maxLot
    && slave.minLot >= 0.0 && slave.lotStep >= 0.0
    && V.OnGrid(slave.lotStep, VOLUME_SCALE) && V.OnGrid(maxLot, VOLUME_SCALE)
  }

  /** Every Slave record the run reads has them. */
  ghost predicate FixedExposure(es: seq<Event>, maxExposure: real, maxLot: real) {
    forall e :: e in es && e.Act? && e.step.Begin? ==> HasExposureLimit(e.step.slave, maxExposure, maxLot)
  }

  /** No Slave record the run reads has a lot step of zero. */
  ghost predicate Stepped(es: seq<Event>) {
    forall e :: e in es && e.Act? && e.step.Begin? ==> e.step.slave.lotStep > 0.0
  }

  /** Without a step, a size is sent as it is and stored in hundredths, up to half of one more. */
  ghost function Slack(es: seq<Event>): real { if Stepped(es) then 0.0 else HALF_VOLUME_UNIT }

  lemma {:induction false} CountIsGated(platform: Platform, d: Discipline, es: seq<Event>, maxPositions: nat)
    requires d.serial && Legal(platform, d, es) && FixedPositions(es, maxPositions)
    ensures Gated(platform, d, es, CountWeight(), maxPositions as real, 1.0)
  {
    if es != [] {
      var front, last := es[..|es| - 1], es[|es| - 1];
      assert last in es && forall e :: e in front ==> e in es;
      CountIsGated(platform, d, front, maxPositions);
      if last.Act? && last.step.Begin? {
        RunKeepsLedger(platform, d, front);
        CountAdmits(Final(platform, d, front).backend.table, last.step, maxPositions);
      }
    }
  }

  lemma CountAdmits(t: Table, step: Step, maxPositions: nat)
    requires ValidTable(t) && step.Begin? && step.slave.maxPositions == Some(maxPositions)
    ensures AdmitsWithin(t, step, CountWeight(), maxPositions as real, 1.0)
  {
    SummaryOfTable(t);
    var r := RowWeight(t, CountWeight());
    SumLess(OpenRows(t), OpenRows(t), r, Ones());
    SumOfOnes(OpenRows(t));
  }

  /** An accepted size is stored between zero and the cap, as it is where there is a step, else rounded. */
  lemma SizeIsStored(input: V.Input)
    requires V.CalculateVolume(input).Volume? && input.minLot >= 0.0 && input.lotStep >= 0.0
    requires V.OnGrid(input.lotStep, VOLUME_SCALE) && V.OnGrid(input.maxLot, VOLUME_SCALE)
    ensures var v := V.CalculateVolume(input).volume;
            && 0.0 <= V.RoundTo(v, VOLUME_SCALE) <= input.maxLot
            && V.RoundTo(v, VOLUME_SCALE) <= v + if input.lotStep > 0.0 then 0.0 else HALF_VOLUME_UNIT
  {
    var v := V.CalculateVolume(input).volume;
    V.RawIsAsked(input, V.RawVolume(input).volume);
    V.StoredIsSentIff(input, V.RawVolume(input).volume);
    V.ZeroRounds(VOLUME_SCALE);
    V.OnGridRounds(input.maxLot, VOLUME_SCALE);
    V.RoundToIsMonotone(0.0, v, VOLUME_SCALE);
    V.RoundToIsMonotone(v, input.maxLot, VOLUME_SCALE);
    RoundingIsNear(v, VOLUME_SCALE);
  }

  lemma VolumeAdmits(t: Table, step: Step, maxExposure: real, maxLot: real, slack: real)
    requires ValidTable(t) && step.Begin? && HasExposureLimit(step.slave, maxExposure, maxLot)
    requires slack >= if step.slave.lotStep > 0.0 then 0.0 else HALF_VOLUME_UNIT
    ensures AdmitsWithin(t, step, VolumeWeight(), maxExposure + slack, maxLot)
  {
    SummaryOfTable(t);
    var sizing := SizingInput(step.slave, step.account, step.event.volume);
    if V.CalculateVolume(sizing).Volume? { SizeIsStored(sizing); }
  }

  lemma {:induction false} VolumeIsGated(platform: Platform, d: Discipline, es: seq<Event>, maxExposure: real,
                                         maxLot: real, slack: real)
    requires d.serial && Legal(platform, d, es) && FixedExposure(es, maxExposure, maxLot)
    requires slack >= if Stepped(es) then 0.0 else HALF_VOLUME_UNIT
    ensures Gated(platform, d, es, VolumeWeight(), maxExposure + slack, maxLot)
  {
    if es != [] {
      var front, last := es[..|es| - 1], es[|es| - 1];
      assert last in es && forall e :: e in front ==> e in es;
      VolumeIsGated(platform, d, front, maxExposure, maxLot, slack);
      if last.Act? && last.step.Begin? {
        RunKeepsLedger(platform, d, front);
        VolumeAdmits(Final(platform, d, front).backend.table, last.step, maxExposure, maxLot, slack);
      }
    }
  }

  lemma AtTheEnd(platform: Platform, d: Discipline, es: seq<Event>)
    requires d.serial && Legal(platform, d, es)
    ensures var s := Final(platform, d, es);
            ValidTable(s.backend.table) && Ticketed(s) && OpenRows(s.backend.table) !! InFlightRows(s)
  {
    RunKeepsLedger(platform, d, es);
    OpenIsNotInFlight(platform, Final(platform, d, es));
  }

  /** Open and in flight are part of what is exposed. */
  lemma OpenAndFlyingWeigh(s: State, w: Weight, m: real)
    requires Light(s, w, m) && Ticketed(s) && OpenRows(s.backend.table) !! InFlightRows(s)
    ensures SumOver(OpenRows(s.backend.table), RowWeight(s.backend.table, w))
            + SumOver(InFlightRows(s), RowWeight(s.backend.table, w)) <= RowExposure(s, w)
  {
    var r, both := RowWeight(s.backend.table, w), OpenRows(s.backend.table) + InFlightRows(s);
    ExposedIsWeighed(s);
    SumDisjoint(OpenRows(s.backend.table), InFlightRows(s), r);
    SumLess(both, Exposed(s), r, r);
  }

  lemma CountsAreSizes(s: State)
    ensures SumOver(OpenRows(s.backend.table), RowWeight(s.backend.table, CountWeight()))
            + SumOver(InFlightRows(s), RowWeight(s.backend.table, CountWeight()))
            + CallExposure(s.backend, CountWeight())
         == (|OpenRows(s.backend.table)| + InFlightCount(s)) as real
  {
    var r, c := RowWeight(s.backend.table, CountWeight()), CallWeight(s.backend, CountWeight());
    SameSum(OpenRows(s.backend.table), r, Ones());
    SameSum(InFlightRows(s), r, Ones());
    SameSum(AdmittedCalls(s.backend), c, Ones());
    SumOfOnes(OpenRows(s.backend.table));
    SumOfOnes(InFlightRows(s));
    SumOfOnes(AdmittedCalls(s.backend));
  }

  lemma CountIsWithin(s: State)
    requires Light(s, CountWeight(), 1.0) && Ticketed(s) && OpenRows(s.backend.table) !! InFlightRows(s)
    ensures (|OpenRows(s.backend.table)| + InFlightCount(s)) as real <= Exposure(s, CountWeight())
  {
    CountsAreSizes(s);
    OpenAndFlyingWeigh(s, CountWeight(), 1.0);
  }

  lemma WholeBound(size: nat, maxPositions: nat, more: nat)
    requires size as real <= maxPositions as real + Times(more, 1.0)
    ensures size <= maxPositions + more
  {
    TimesOne(more);
  }

  ghost function OpenAndFlying(s: State): nat { OpenCount(s.backend.table) + InFlightCount(s) }

  lemma CountOfRun(platform: Platform, d: Discipline, es: seq<Event>, limit: real)
    requires d.serial && Legal(platform, d, es) && Gated(platform, d, es, CountWeight(), limit, 1.0)
    ensures var s := Final(platform, d, es);
            OpenAndFlying(s) as real <= Exposure(s, CountWeight())
  {
    AtTheEnd(platform, d, es);
    RunStaysLight(platform, d, es, CountWeight(), limit, 1.0);
    SummaryOfTable(Final(platform, d, es).backend.table);
    CountIsWithin(Final(platform, d, es));
  }

  lemma CountWithin(platform: Platform, d: Discipline, es: seq<Event>, maxPositions: nat, peak: nat)
    requires d.serial && Legal(platform, d, es)
    requires Gated(platform, d, es, CountWeight(), maxPositions as real, 1.0)
    requires peak >= 1 && PeaksAt(platform, d, es, peak)
    ensures OpenAndFlying(Final(platform, d, es)) as real
         <= maxPositions as real + Times(peak - 1 + Late(platform, d, es), 1.0)
  {
    RunKeepsBound(platform, d, es, CountWeight(), maxPositions as real, 1.0, peak);
    CountOfRun(platform, d, es, maxPositions as real);
  }

  lemma WholeCountWithin(platform: Platform, d: Discipline, es: seq<Event>, maxPositions: nat, peak: nat, size: nat,
                         more: nat)
    requires d.serial && Legal(platform, d, es)
    requires Gated(platform, d, es, CountWeight(), maxPositions as real, 1.0)
    requires peak >= 1 && PeaksAt(platform, d, es, peak)
    requires size == OpenAndFlying(Final(platform, d, es)) && more == peak - 1 + Late(platform, d, es)
    ensures size <= maxPositions + more
  {
    CountWithin(platform, d, es, maxPositions, peak);
    WholeBound(size, maxPositions, more);
  }

  /**
   * Executed-open positions and OPENs in flight together never exceed maxPositions - 1 + W + L, whatever the
   * interleaving, where W is the most OPENs ever in flight at once and L counts the copies at stake in late verdicts.
   */
  lemma {:induction false} PositionsOvershoot(platform: Platform, d: Discipline, es: seq<Event>, maxPositions: nat,
                                              peak: nat)
    requires d.serial && Legal(platform, d, es) && FixedPositions(es, maxPositions)
    requires peak >= 1 && PeaksAt(platform, d, es, peak)
    ensures var s := Final(platform, d, es);
            OpenCount(s.backend.table) + InFlightCount(s) <= maxPositions + peak - 1 + Late(platform, d, es)
  {
    var size, more := OpenAndFlying(Final(platform, d, es)), peak - 1 + Late(platform, d, es);
    CountIsGated(platform, d, es, maxPositions);
    WholeCountWithin(platform, d, es, maxPositions, peak, size, more);
  }

  /** The volume of the OPENs in flight. */
  ghost function InFlightVolume(s: State): real {
    SumOver(InFlightRows(s), RowWeight(s.backend.table, VolumeWeight())) + CallExposure(s.backend, VolumeWeight())
  }

  lemma VolumeIsWithin(s: State, maxLot: real)
    requires ValidTable(s.backend.table) && Ticketed(s) && OpenRows(s.backend.table) !! InFlightRows(s)
    requires Light(s, VolumeWeight(), maxLot)
    ensures TotalVolume(s.backend.table) + InFlightVolume(s) <= Exposure(s, VolumeWeight())
  {
    SummaryOfTable(s.backend.table);
    OpenAndFlyingWeigh(s, VolumeWeight(), maxLot);
  }

  lemma VolumeOfRun(platform: Platform, d: Discipline, es: seq<Event>, limit: real, maxLot: real)
    requires d.serial && Legal(platform, d, es) && maxLot >= 0.0
             && Gated(platform, d, es, VolumeWeight(), limit, maxLot)
    ensures var s := Final(platform, d, es);
            TotalVolume(s.backend.table) + InFlightVolume(s) <= Exposure(s, VolumeWeight())
  {
    AtTheEnd(platform, d, es);
    RunStaysLight(platform, d, es, VolumeWeight(), limit, maxLot);
    VolumeIsWithin(Final(platform, d, es), maxLot);
  }

  lemma VolumeWithin(platform: Platform, d: Discipline, es: seq<Event>, limit: real, maxLot: real, peak: nat)
    requires d.serial && Legal(platform, d, es) && Gated(platform, d, es, VolumeWeight(), limit, maxLot)
    requires limit >= 0.0 && maxLot >= 0.0 && peak >= 1 && PeaksAt(platform, d, es, peak)
    ensures var s := Final(platform, d, es);
            TotalVolume(s.backend.table) + InFlightVolume(s) <= Bound(limit, peak, Late(platform, d, es), maxLot)
  {
    RunKeepsBound(platform, d, es, VolumeWeight(), limit, maxLot, peak);
    VolumeOfRun(platform, d, es, limit, maxLot);
  }

  /**
   * Their volume together never exceeds maxExposure + (W - 1 + L) * maxLot, and half a hundredth without a lot step.
   */
  lemma {:induction false} VolumeOvershoot(platform: Platform, d: Discipline, es: seq<Event>, maxExposure: real,
                                           maxLot: real, peak: nat)
    requires d.serial && Legal(platform, d, es) && FixedExposure(es, maxExposure, maxLot)
    requires maxExposure >= 0.0 && maxLot >= 0.0 && peak >= 1 && PeaksAt(platform, d, es, peak)
    ensures var s := Final(platform, d, es);
            TotalVolume(s.backend.table) + InFlightVolume(s)
            <= maxExposure + Slack(es) + Times(peak - 1 + Late(platform, d, es), maxLot)
  {
    VolumeIsGated(platform, d, es, maxExposure, maxLot, Slack(es));
    VolumeWithin(platform, d, es, maxExposure + Slack(es), maxLot, peak);
  }

  /** Without late verdicts, and for an MT5 Slave in any case: with W = 1 both limits are exact. */
  lemma LimitsWithoutVerdicts(platform: Platform, d: Discipline, es: seq<Event>, maxPositions: nat, maxExposure: real,
                              maxLot: real, peak: nat)
    requires d.serial && (platform == Mt5 || d.timely) && Legal(platform, d, es)
    requires FixedPositions(es, maxPositions) && FixedExposure(es, maxExposure, maxLot)
    requires maxExposure >= 0.0 && maxLot >= 0.0 && peak >= 1 && PeaksAt(platform, d, es, peak)
    ensures var s := Final(platform, d, es);
            && OpenCount(s.backend.table) + InFlightCount(s) <= maxPositions + peak - 1
            && TotalVolume(s.backend.table) + InFlightVolume(s) <= maxExposure + Slack(es) + Times(peak - 1, maxLot)
  {
    NoneLate(platform, d, es);
    PositionsOvershoot(platform, d, es, maxPositions, peak);
    VolumeOvershoot(platform, d, es, maxExposure, maxLot, peak);
  }
}
