/** What MISSING_COPY and a wholly silent report say at the end of a run. */
module SilentReports {
  import opened Common
  import opened ReconciliationEngine
  import opened CopyOrders
  import opened CopyProtocol
  import opened SlaveTerminal
  import opened SlaveRun
  import opened AtMostOnce
  import opened Agreement
  import opened StopsAndTargets
  import opened FindingMeanings

  /** Some OPEN or CLOSE of the Master ticket is EXECUTED. */
  ghost predicate IsExecutedFor(t: Table, masterTicket: string) {
    exists id ::
      && id in t.rows && t.rows[id].status == Executed
      && (t.rows[id].event.action == Open || t.rows[id].event.action == Close)
      && t.rows[id].event.masterTicket == masterTicket
  }

  /** What the comparison takes for copied is what has an EXECUTED OPEN or CLOSE. */
  lemma CopiedIff(t: Table, input: Input, m: string)
    requires ValidTable(t) && input.openCopies == OpenCopies(t) && input.closedCopies == ClosedCopies(t)
    ensures IsCopied(input, m) <==> IsExecutedFor(t, m)
  {
    if c :| c in input.openCopies && c.masterTicket == m {
      OpenCopiesAre(t, c);
      assert t.rows[c.copyId].event.masterTicket == m;
    }
    if c :| c in input.closedCopies && c.masterTicket == m {
      ClosedCopiesAre(t, c);
    }
    if id :| && id in t.rows && t.rows[id].status == Executed
             && (t.rows[id].event.action == Open || t.rows[id].event.action == Close)
             && t.rows[id].event.masterTicket == m
    {
      ExecutedIsListed(t, id);
    }
  }

  lemma ExecutedIsListed(t: Table, id: string)
    requires ValidTable(t) && id in t.rows && t.rows[id].status == Executed
    requires t.rows[id].event.action == Open || t.rows[id].event.action == Close
    ensures var m := t.rows[id].event.masterTicket;
            || (exists c :: c in OpenCopies(t) && c.masterTicket == m)
            || (exists c :: c in ClosedCopies(t) && c.masterTicket == m)
  {
    var m := t.rows[id].event.masterTicket;
    if m in ClosedTickets(t) {
      var x :| x in t.rows && Done(t.rows[x], Close) && t.rows[x].event.masterTicket == m;
      ClosedCopiesAre(t, ClosedCopy(m, t.rows[x].slaveTicket));
    } else {
      OpenCopiesAre(t, AsOpenCopy(t, id));
    }
  }

  /**
   * At the end of any run, overlapping polls and late verdicts included: a Master position is reported MISSING_COPY as
   * often as it is listed if no OPEN and no CLOSE of its ticket is EXECUTED, and else never.
   */
  lemma MissingAtEnd(platform: Platform, d: Discipline, es: seq<Event>, masterPositions: seq<MasterPosition>,
                     volumeTolerance: Option<real>, priceTolerance: Option<real>, p: MasterPosition)
    requires Legal(platform, d, es)
    ensures var input := ComparedAtEnd(platform, d, es, masterPositions, volumeTolerance, priceTolerance);
            multiset(Findings(input))[MissingCopy(p.ticket, p.symbol, p.volume)]
            == if IsExecutedFor(Final(platform, d, es).backend.table, p.ticket) then 0 else multiset(masterPositions)[p]
  {
    var input := ComparedAtEnd(platform, d, es, masterPositions, volumeTolerance, priceTolerance);
    OneRowPerEvent(platform, d, es);
    CopiedIff(Final(platform, d, es).backend.table, input, p.ticket);
    MissingIsCounted(input, p);
  }

  lemma StrayIsReported(input: Input, i: nat)
    requires i < |input.slavePositions| && IsStray(input, input.slavePositions[i])
    ensures var q := input.slavePositions[i];
            UnexpectedSlavePosition(q.ticket, q.symbol, q.volume, q.comment) in Findings(input)
  {
    var q := input.slavePositions[i];
    var f := UnexpectedSlavePosition(q.ticket, q.symbol, q.volume, q.comment);
    assert i in DuePlaces(input, f);
    ReportedAsDue(input, f);
    assert f in multiset(Findings(input));
  }

  lemma UntaggedIsStray(t: Table, input: Input, q: SlavePosition)
    requires ValidTable(t) && input.openCopies == OpenCopies(t)
    requires forall id :: IsOpenRow(t, id) ==> q.comment != Some("copy:" + id)
    ensures IsStray(input, q)
  {
    forall c | c in input.openCopies ensures !Tagged(q, c.copyId) { OpenCopiesAre(t, c); }
  }

  /** A position whose comment names no open copy is reported with its ticket, symbol, volume and comment. */
  lemma UnknownIsReported(platform: Platform, d: Discipline, es: seq<Event>, masterPositions: seq<MasterPosition>,
                          volumeTolerance: Option<real>, priceTolerance: Option<real>, p: Position)
    requires Legal(platform, d, es) && p in Final(platform, d, es).book
    requires forall id :: IsOpenRow(Final(platform, d, es).backend.table, id) ==> p.comment != "copy:" + id
    ensures UnexpectedSlavePosition(p.ticket, p.symbol, p.volume, Some(p.comment)) in
            Findings(ComparedAtEnd(platform, d, es, masterPositions, volumeTolerance, priceTolerance))
  {
    var s := Final(platform, d, es);
    var input := ComparedAtEnd(platform, d, es, masterPositions, volumeTolerance, priceTolerance);
    OneRowPerEvent(platform, d, es);
    var i :| 0 <= i < |s.book| && s.book[i] == p;
    UntaggedIsStray(s.backend.table, input, input.slavePositions[i]);
    StrayIsReported(input, i);
  }

  ghost predicate AllExecuted(t: Table, masterPositions: seq<MasterPosition>) {
    forall p :: p in masterPositions ==> IsExecutedFor(t, p.ticket)
  }

  lemma NoneMissingIff(t: Table, input: Input)
    requires ValidTable(t) && input.openCopies == OpenCopies(t) && input.closedCopies == ClosedCopies(t)
    ensures (forall f :: f in Findings(input) ==> !f.MissingCopy?) <==> AllExecuted(t, input.masterPositions)
  {
    forall m ensures IsCopied(input, m) <==> IsExecutedFor(t, m) { CopiedIff(t, input, m); }
    forall f: Finding | f.MissingCopy?
      ensures f in Findings(input)
              <==> MasterPosition(f.masterTicket, f.symbol, f.volume) in input.masterPositions
                   && !IsExecutedFor(t, f.masterTicket)
    {
      MissingIsCounted(input, MasterPosition(f.masterTicket, f.symbol, f.volume));
      assert f in Findings(input) <==> f in multiset(Findings(input));
    }
    if forall f :: f in Findings(input) ==> !f.MissingCopy? {
      forall p | p in input.masterPositions ensures IsExecutedFor(t, p.ticket) {
        assert MissingCopy(p.ticket, p.symbol, p.volume) !in Findings(input);
      }
    }
  }

  lemma NothingIn<T>(s: seq<T>)
    ensures s == [] <==> forall x :: x !in s
  {
    if s != [] { assert s[0] in s; }
  }

  lemma SilentIfNeither(input: Input)
    ensures Findings(input) == []
            <==> OnlyMissingCopies(input) && forall f :: f in Findings(input) ==> !f.MissingCopy?
  {
    NothingIn(Findings(input));
  }

  /**
   * After any run with polls one at a time in which every execution has been reported, the report is empty exactly if
   * no late verdict matters, the prices expected of every open copy fit those handed out last, and every Master
   * position has an EXECUTED OPEN or CLOSE.
   */
  lemma {:induction false} SilentIff(platform: Platform, d: Discipline, es: seq<Event>,
                                     masterPositions: seq<MasterPosition>, volumeTolerance: Option<real>,
                                     priceTolerance: Option<real>)
    requires SettlesIn(platform, d, es)
    requires volumeTolerance.GetOr(DEFAULT_VOLUME_TOLERANCE) >= HALF_VOLUME_UNIT
    ensures Findings(ComparedAtEnd(platform, d, es, masterPositions, volumeTolerance, priceTolerance)) == []
            <==> && NoVerdictMatters(platform, d, es)
                 && AllPricesFit(platform, Final(platform, d, es), priceTolerance.GetOr(DEFAULT_PRICE_TOLERANCE))
                 && AllExecuted(Final(platform, d, es).backend.table, masterPositions)
  {
    var input := ComparedAtEnd(platform, d, es, masterPositions, volumeTolerance, priceTolerance);
    OneRowPerEvent(platform, d, es);
    SilentIfNeither(input);
    NoneMissingIff(Final(platform, d, es).backend.table, input);
    ComparisonIsQuietIff(platform, d, es, masterPositions, volumeTolerance, priceTolerance);
  }
}
