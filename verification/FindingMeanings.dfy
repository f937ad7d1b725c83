/** What each kind of finding means, on the lists that are compared. */
module FindingMeanings {
  import opened Common
  import opened ReconciliationEngine
  import opened ReconciliationTheorems

  // ---------------------------------------------------------------- the meaning of each kind

  /** The Master ticket has been copied: some EXECUTED OPEN or CLOSE is for it. */
  ghost predicate IsCopied(input: Input, masterTicket: string) {
    || (exists c :: c in input.openCopies && c.masterTicket == masterTicket)
    || (exists c :: c in input.closedCopies && c.masterTicket == masterTicket)
  }

  /** The position that counts for a ticket: the last one listed under it. */
  ghost predicate CountsFor(s: seq<SlavePosition>, ticket: string, p: SlavePosition) {
    exists i :: 0 <= i < |s| && s[i] == p && p.ticket == ticket && forall j :: i < j < |s| ==> s[j].ticket != ticket
  }

  ghost predicate HasPosition(s: seq<SlavePosition>, ticket: string) { exists p :: p in s && p.ticket == ticket }

  /** The comment is "copy:" and this id, which is not empty and stands on one line. */
  predicate Tagged(p: SlavePosition, copyId: string) {
    && p.comment == Some("copy:" + copyId) && copyId != ""
    && '\n' !in copyId && '\r' !in copyId && '\U{2028}' !in copyId && '\U{2029}' !in copyId
  }

  ghost function TaggedPlaces(s: seq<SlavePosition>, copyId: string): set<nat> {
    set i: nat | i < |s| && Tagged(s[i], copyId)
  }

  predicate FarApart(expected: real, actual: real, tolerance: real) {
    actual > expected + tolerance || actual < expected - tolerance
  }

  predicate PriceWrong(expected: Option<real>, actual: Option<real>, tolerance: real) {
    expected.Some? && (actual.None? || FarApart(expected.value, actual.value, tolerance))
  }

  /** This open copy, looked up by its ticket, gives rise to the finding. */
  ghost predicate DueForCopy(input: Input, c: OpenCopy, f: Finding) {
    var held := input.slavePositions;
    c.slaveTicket.Some? && c.slaveTicket.value != "" &&
    match f
    case SlavePositionMissing(m, t) => c.masterTicket == m && c.slaveTicket.value == t && !HasPosition(held, t)
    case VolumeMismatch(m, t, expected, actual) =>
      && c.masterTicket == m && c.slaveTicket.value == t && c.requestedVolume == Some(expected)
      && FarApart(expected, actual, input.volumeTolerance.GetOr(0.01))
      && exists p :: CountsFor(held, t, p) && p.volume == actual
    case SlTpMismatch(m, t, expected, actual) =>
      && c.masterTicket == m && c.slaveTicket.value == t && m in input.expected && expected == input.expected[m]
      && (exists p :: CountsFor(held, t, p) && actual == ExpectedSlTp(p.sl, p.tp))
      && (PriceWrong(expected.sl, actual.sl, input.priceTolerance.GetOr(0.0001))
          || PriceWrong(expected.tp, actual.tp, input.priceTolerance.GetOr(0.0001)))
    case _ => false
  }

  /** This position, whose comment names no open copy, is unexpected. */
  ghost predicate IsStray(input: Input, p: SlavePosition) {
    !exists c :: c in input.openCopies && Tagged(p, c.copyId)
  }

  ghost predicate IsGroup(input: Input, copyId: string, n: nat) {
    && n == |TaggedPlaces(input.slavePositions, copyId)| && n >= 2
    && exists c :: c in input.openCopies && c.copyId == copyId
  }

  /** The places of the compared lists that the finding is about, one report each. */
  ghost function DuePlaces(input: Input, f: Finding): set<nat> {
    var held := input.slavePositions;
    match f
    case MissingCopy(m, symbol, volume) =>
      set i: nat | i < |input.masterPositions|
                   && input.masterPositions[i] == MasterPosition(m, symbol, volume) && !IsCopied(input, m)
    case SlaveNotClosed(m, t) =>
      set i: nat | i < |input.closedCopies|
                   && input.closedCopies[i] == ClosedCopy(m, Some(t)) && t != "" && HasPosition(held, t)
    case UnexpectedSlavePosition(t, symbol, volume, comment) =>
      set i: nat | i < |held| && held[i].ticket == t && held[i].symbol == symbol && held[i].volume == volume
                   && held[i].comment == comment && IsStray(input, held[i])
    case DuplicateSlavePosition(t, copyId, n) =>
      set i: nat | i < |held| && held[i].ticket == t && Tagged(held[i], copyId) && IsGroup(input, copyId, n)
    case _ =>
      set i: nat | i < |input.openCopies| && DueForCopy(input, input.openCopies[i], f)
  }

  // ---------------------------------------------------------------- lookups

  lemma {:induction false} LastCounts(s: seq<SlavePosition>, ticket: string, p: SlavePosition)
    ensures LastWithTicket(s, ticket) == Some(p) <==> CountsFor(s, ticket, p)
  {
    if s != [] {
      var front, last := s[..|s| - 1], s[|s| - 1];
      LastCounts(front, ticket, p);
      if last.ticket == ticket {
        if p == last { assert s[|s| - 1] == p; }
      } else {
        if CountsFor(front, ticket, p) {
          var i :| 0 <= i < |front| && front[i] == p && p.ticket == ticket
                   && forall j :: i < j < |front| ==> front[j].ticket != ticket;
          assert s[i] == p && forall j :: i < j < |s| ==> s[j].ticket != ticket;
        }
        if CountsFor(s, ticket, p) {
          var i :| 0 <= i < |s| && s[i] == p && p.ticket == ticket && forall j :: i < j < |s| ==> s[j].ticket != ticket;
          assert front[i] == p && forall j :: i < j < |front| ==> front[j].ticket != ticket;
        }
      }
    }
  }

  lemma TaggedIff(p: SlavePosition, copyId: string)
    ensures ExtractCopyId(p.comment) == Some(copyId) <==> Tagged(p, copyId)
  {}

  lemma OneMorePlace(s: seq<SlavePosition>, p: SlavePosition, copyId: string)
    ensures TaggedPlaces(s + [p], copyId)
            == if Tagged(p, copyId) then TaggedPlaces(s, copyId) + {|s|} else TaggedPlaces(s, copyId)
  {
    forall i: nat | i < |s| ensures (s + [p])[i] == s[i] {}
  }

  lemma {:induction false} SiblingsCount(s: seq<SlavePosition>, copyId: string)
    ensures |Siblings(s, copyId)| == |TaggedPlaces(s, copyId)|
  {
    if s == [] {
      assert TaggedPlaces(s, copyId) == {};
    } else {
      var front, last := s[..|s| - 1], s[|s| - 1];
      assert s == front + [last];
      SiblingsCount(front, copyId);
      TaggedIff(last, copyId);
      OneMorePlace(front, last, copyId);
    }
  }

  // ---------------------------------------------------------------- every finding is due, every due one is reported

  lemma NotFrom<T(!new)>(s: seq<T>, rule: T -> seq<Finding>, f: Finding)
    requires forall x :: x in s ==> f !in rule(x)
    ensures f !in Collect(s, rule)
  {
    CollectMember(s, rule, f);
  }

  lemma OnlyMissing(input: Input, f: Finding)
    ensures f in Collect(input.masterPositions, MissingRule(input)) ==> f.MissingCopy?
  {
    if !f.MissingCopy? { NotFrom(input.masterPositions, MissingRule(input), f); }
  }

  lemma OnlyForCopies(input: Input, f: Finding)
    ensures f in Collect(input.openCopies, OpenCopyRule(input)) ==>
              f.SlavePositionMissing? || f.VolumeMismatch? || f.SlTpMismatch?
  {
    if !(f.SlavePositionMissing? || f.VolumeMismatch? || f.SlTpMismatch?) {
      NotFrom(input.openCopies, OpenCopyRule(input), f);
    }
  }

  lemma OnlyNotClosed(input: Input, f: Finding)
    ensures f in Collect(input.closedCopies, NotClosedRule(input)) ==> f.SlaveNotClosed?
  {
    if !f.SlaveNotClosed? { NotFrom(input.closedCopies, NotClosedRule(input), f); }
  }

  lemma OnlyUnexpected(input: Input, f: Finding)
    ensures f in Collect(input.slavePositions, UnexpectedRule(input)) ==> f.UnexpectedSlavePosition?
  {
    if !f.UnexpectedSlavePosition? { NotFrom(input.slavePositions, UnexpectedRule(input), f); }
  }

  lemma OnlyDuplicates(input: Input, f: Finding)
    ensures f in Collect(input.slavePositions, DuplicateRule(input, OpenCopyIds(input))) ==> f.DuplicateSlavePosition?
  {
    if !f.DuplicateSlavePosition? { NotFrom(input.slavePositions, DuplicateRule(input, OpenCopyIds(input)), f); }
  }

  // ---------------------------------------------------------------- counting

  ghost function PlacesOf<T(!new)>(s: seq<T>, due: T -> bool): set<nat> { set i: nat | i < |s| && due(s[i]) }

  lemma PlacesGrow<T(!new)>(s: seq<T>, x: T, due: T -> bool)
    ensures PlacesOf(s + [x], due) == if due(x) then PlacesOf(s, due) + {|s|} else PlacesOf(s, due)
  {
    forall i: nat | i < |s| ensures (s + [x])[i] == s[i] {}
  }

  /** A rule that gives f once for exactly the elements that are due gives it as often as there are such places. */
  lemma {:induction false} CountedByPlace<T(!new)>(s: seq<T>, rule: T -> seq<Finding>, f: Finding, due: T -> bool)
    requires forall x :: multiset(rule(x))[f] == if due(x) then 1 else 0
    ensures multiset(Collect(s, rule))[f] == |PlacesOf(s, due)|
  {
    if s == [] {
      assert PlacesOf(s, due) == {};
    } else {
      var front, last := s[..|s| - 1], s[|s| - 1];
      assert s == front + [last];
      CountedByPlace(front, rule, f, due);
      PlacesGrow(front, last, due);
      assert multiset(Collect(s, rule)) == multiset(Collect(front, rule)) + multiset(rule(last));
    }
  }

  lemma CountParts(a: seq<Finding>, b: seq<Finding>, c: seq<Finding>, d: seq<Finding>, e: seq<Finding>, f: Finding)
    ensures multiset(a + b + c + d + e)[f]
         == multiset(a)[f] + multiset(b)[f] + multiset(c)[f] + multiset(d)[f] + multiset(e)[f]
  {
    assert multiset(a + b + c + d + e) == multiset(a) + multiset(b) + multiset(c) + multiset(d) + multiset(e);
  }

  /** Each kind is counted in one list. */
  lemma CountedByKind(input: Input, f: Finding)
    ensures multiset(Findings(input))[f] ==
              match f
              case MissingCopy(_, _, _) => multiset(Collect(input.masterPositions, MissingRule(input)))[f]
              case SlaveNotClosed(_, _) => multiset(Collect(input.closedCopies, NotClosedRule(input)))[f]
              case UnexpectedSlavePosition(_, _, _, _) =>
                multiset(Collect(input.slavePositions, UnexpectedRule(input)))[f]
              case DuplicateSlavePosition(_, _, _) =>
                multiset(Collect(input.slavePositions, DuplicateRule(input, OpenCopyIds(input))))[f]
              case _ => multiset(Collect(input.openCopies, OpenCopyRule(input)))[f]
  {
    OnlyMissing(input, f);
    OnlyForCopies(input, f);
    OnlyNotClosed(input, f);
    OnlyUnexpected(input, f);
    OnlyDuplicates(input, f);
    CountParts(Collect(input.masterPositions, MissingRule(input)), Collect(input.openCopies, OpenCopyRule(input)),
               Collect(input.closedCopies, NotClosedRule(input)),
               Collect(input.slavePositions, UnexpectedRule(input)),
               Collect(input.slavePositions, DuplicateRule(input, OpenCopyIds(input))), f);
  }

  // ---------------------------------------------------------------- one kind after another

  lemma MissingIsDue(input: Input, f: Finding)
    requires f.MissingCopy?
    ensures multiset(Collect(input.masterPositions, MissingRule(input)))[f] == |DuePlaces(input, f)|
  {
    var due := (p: MasterPosition) =>
      p == MasterPosition(f.masterTicket, f.symbol, f.volume) && !IsCopied(input, f.masterTicket);
    CountedByPlace(input.masterPositions, MissingRule(input), f, due);
    assert PlacesOf(input.masterPositions, due) == DuePlaces(input, f);
  }

  lemma VolumeRuleIs(input: Input, c: OpenCopy, t: string, p: SlavePosition, f: Finding)
    ensures multiset(VolumeFindings(input, c, t, p))[f]
         == if && f.VolumeMismatch? && f.masterTicket == c.masterTicket && f.slaveTicket == t
               && c.requestedVolume == Some(f.expectedVolume) && f.actualVolume == p.volume
               && FarApart(f.expectedVolume, f.actualVolume, input.volumeTolerance.GetOr(0.01))
            then 1 else 0
  {}

  lemma SlTpRuleIs(input: Input, c: OpenCopy, t: string, p: SlavePosition, f: Finding)
    ensures multiset(SlTpFindings(input, c, t, p))[f]
         == if && f.SlTpMismatch? && f.masterTicket == c.masterTicket && f.slaveTicket == t
               && c.masterTicket in input.expected && f.expectedSlTp == input.expected[c.masterTicket]
               && f.actualSlTp == ExpectedSlTp(p.sl, p.tp)
               && (PriceWrong(f.expectedSlTp.sl, f.actualSlTp.sl, input.priceTolerance.GetOr(0.0001))
                   || PriceWrong(f.expectedSlTp.tp, f.actualSlTp.tp, input.priceTolerance.GetOr(0.0001)))
            then 1 else 0
  {}

  lemma NoneCounts(s: seq<SlavePosition>, t: string)
    requires LastWithTicket(s, t).None?
    ensures !HasPosition(s, t) && forall p :: !CountsFor(s, t, p)
  {
    LastWithTicketExists(s, t);
    forall p: SlavePosition ensures !CountsFor(s, t, p) { LastCounts(s, t, p); }
  }

  lemma OneCounts(s: seq<SlavePosition>, t: string, p: SlavePosition)
    requires LastWithTicket(s, t) == Some(p)
    ensures HasPosition(s, t) && forall q :: CountsFor(s, t, q) <==> q == p
  {
    LastWithTicketExists(s, t);
    forall q: SlavePosition ensures CountsFor(s, t, q) <==> q == p { LastCounts(s, t, q); }
  }

  lemma HeldCopyRuleIs(input: Input, c: OpenCopy, t: string, p: SlavePosition, f: Finding)
    requires c.slaveTicket == Some(t) && t != "" && LastWithTicket(input.slavePositions, t) == Some(p)
    ensures multiset(OpenCopyRule(input)(c))[f] == if DueForCopy(input, c, f) then 1 else 0
  {
    OneCounts(input.slavePositions, t, p);
    VolumeRuleIs(input, c, t, p, f);
    SlTpRuleIs(input, c, t, p, f);
    assert OpenCopyRule(input)(c) == VolumeFindings(input, c, t, p) + SlTpFindings(input, c, t, p);
  }

  lemma LostCopyRuleIs(input: Input, c: OpenCopy, t: string, f: Finding)
    requires c.slaveTicket == Some(t) && t != "" && LastWithTicket(input.slavePositions, t).None?
    ensures multiset(OpenCopyRule(input)(c))[f] == if DueForCopy(input, c, f) then 1 else 0
  {
    NoneCounts(input.slavePositions, t);
    assert OpenCopyRule(input)(c) == [SlavePositionMissing(c.masterTicket, t)];
  }

  lemma CopyRuleIs(input: Input, c: OpenCopy, f: Finding)
    ensures multiset(OpenCopyRule(input)(c))[f] == if DueForCopy(input, c, f) then 1 else 0
  {
    if HasTicket(c.slaveTicket) {
      var t := c.slaveTicket.value;
      match LastWithTicket(input.slavePositions, t)
      case Some(p) => HeldCopyRuleIs(input, c, t, p, f);
      case None => LostCopyRuleIs(input, c, t, f);
    }
  }

  lemma CopyIsDue(input: Input, f: Finding)
    requires f.SlavePositionMissing? || f.VolumeMismatch? || f.SlTpMismatch?
    ensures multiset(Collect(input.openCopies, OpenCopyRule(input)))[f] == |DuePlaces(input, f)|
  {
    var due := (c: OpenCopy) => DueForCopy(input, c, f);
    forall c: OpenCopy ensures multiset(OpenCopyRule(input)(c))[f] == if due(c) then 1 else 0 {
      CopyRuleIs(input, c, f);
    }
    CountedByPlace(input.openCopies, OpenCopyRule(input), f, due);
    assert PlacesOf(input.openCopies, due) == DuePlaces(input, f);
  }

  lemma NotClosedIsDue(input: Input, f: Finding)
    requires f.SlaveNotClosed?
    ensures multiset(Collect(input.closedCopies, NotClosedRule(input)))[f] == |DuePlaces(input, f)|
  {
    var due := (c: ClosedCopy) =>
      c == ClosedCopy(f.masterTicket, Some(f.slaveTicket)) && f.slaveTicket != ""
      && HasPosition(input.slavePositions, f.slaveTicket);
    CountedByPlace(input.closedCopies, NotClosedRule(input), f, due);
    assert PlacesOf(input.closedCopies, due) == DuePlaces(input, f);
  }

  lemma StrayIff(input: Input, p: SlavePosition)
    ensures IsStray(input, p) <==> !exists id :: Traces(input, p, id)
  {
    if id :| Traces(input, p, id) {
      TaggedIff(p, id);
      var c :| c in input.openCopies && c.copyId == id;
      assert Tagged(p, c.copyId);
    }
    if c :| c in input.openCopies && Tagged(p, c.copyId) {
      TaggedIff(p, c.copyId);
      assert Traces(input, p, c.copyId);
    }
  }

  predicate IsAt(p: SlavePosition, f: Finding)
    requires f.UnexpectedSlavePosition?
  {
    p.ticket == f.slaveTicket && p.symbol == f.symbol && p.volume == f.volume && p.comment == f.comment
  }

  lemma UnexpectedRuleIs(input: Input, p: SlavePosition, f: Finding)
    requires f.UnexpectedSlavePosition?
    ensures multiset(UnexpectedRule(input)(p))[f] == if IsAt(p, f) && IsStray(input, p) then 1 else 0
  {
    StrayIff(input, p);
  }

  lemma UnexpectedIsDue(input: Input, f: Finding)
    requires f.UnexpectedSlavePosition?
    ensures multiset(Collect(input.slavePositions, UnexpectedRule(input)))[f] == |DuePlaces(input, f)|
  {
    var due := (p: SlavePosition) => IsAt(p, f) && IsStray(input, p);
    forall p: SlavePosition ensures multiset(UnexpectedRule(input)(p))[f] == if due(p) then 1 else 0 {
      UnexpectedRuleIs(input, p, f);
    }
    CountedByPlace(input.slavePositions, UnexpectedRule(input), f, due);
    assert PlacesOf(input.slavePositions, due) == DuePlaces(input, f);
  }

  lemma DuplicateRuleIs(input: Input, p: SlavePosition, f: Finding)
    requires f.DuplicateSlavePosition?
    ensures multiset(DuplicateRule(input, OpenCopyIds(input))(p))[f]
         == if p.ticket == f.slaveTicket && Tagged(p, f.copyId) && IsGroup(input, f.copyId, f.duplicateCount) then 1
            else 0
  {
    TaggedIff(p, f.copyId);
    SiblingsCount(input.slavePositions, f.copyId);
  }

  lemma DuplicateIsDue(input: Input, f: Finding)
    requires f.DuplicateSlavePosition?
    ensures multiset(Collect(input.slavePositions, DuplicateRule(input, OpenCopyIds(input))))[f]
         == |DuePlaces(input, f)|
  {
    var rule := DuplicateRule(input, OpenCopyIds(input));
    var due := (p: SlavePosition) =>
      p.ticket == f.slaveTicket && Tagged(p, f.copyId) && IsGroup(input, f.copyId, f.duplicateCount);
    forall p: SlavePosition ensures multiset(rule(p))[f] == if due(p) then 1 else 0 { DuplicateRuleIs(input, p, f); }
    CountedByPlace(input.slavePositions, rule, f, due);
    assert PlacesOf(input.slavePositions, due) == DuePlaces(input, f);
  }

  /** A comparison reports exactly what is due, as often as it is due, for each of the seven kinds. */
  lemma ReportedAsDue(input: Input, f: Finding)
    ensures multiset(Findings(input))[f] == |DuePlaces(input, f)|
  {
    CountedByKind(input, f);
    match f {
      case MissingCopy(_, _, _) => MissingIsDue(input, f);
      case SlaveNotClosed(_, _) => NotClosedIsDue(input, f);
      case UnexpectedSlavePosition(_, _, _, _) => UnexpectedIsDue(input, f);
      case DuplicateSlavePosition(_, _, _) => DuplicateIsDue(input, f);
      case _ => CopyIsDue(input, f);
    }
  }

  // ---------------------------------------------------------------- how often MISSING_COPY is reported

  lemma {:induction false} ListedTimes(s: seq<MasterPosition>, p: MasterPosition)
    ensures |PlacesOf(s, (q: MasterPosition) => q == p)| == multiset(s)[p]
  {
    var due := (q: MasterPosition) => q == p;
    if s == [] {
      assert PlacesOf(s, due) == {};
    } else {
      var front, last := s[..|s| - 1], s[|s| - 1];
      assert s == front + [last];
      ListedTimes(front, p);
      PlacesGrow(front, last, due);
      assert multiset(s) == multiset(front) + multiset{last};
    }
  }

  /** MISSING_COPY is reported once for every time the Master position is listed and its ticket not copied. */
  lemma MissingIsCounted(input: Input, p: MasterPosition)
    ensures multiset(Findings(input))[MissingCopy(p.ticket, p.symbol, p.volume)]
         == if IsCopied(input, p.ticket) then 0 else multiset(input.masterPositions)[p]
  {
    var f := MissingCopy(p.ticket, p.symbol, p.volume);
    ReportedAsDue(input, f);
    ListedTimes(input.masterPositions, p);
    if IsCopied(input, p.ticket) {
      assert DuePlaces(input, f) == {};
    } else {
      assert DuePlaces(input, f) == PlacesOf(input.masterPositions, (q: MasterPosition) => q == p);
    }
  }
}
