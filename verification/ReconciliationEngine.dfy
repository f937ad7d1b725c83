/** The comparison of three states; `Findings` is what `CompareState` means. */
module ReconciliationEngine {
  import opened Common

  datatype MasterPosition = MasterPosition(ticket: string, symbol: string, volume: real)

  datatype SlavePosition = SlavePosition(
    ticket: string, symbol: string, volume: real, sl: Option<real>, tp: Option<real>, comment: Option<string>)

  /** An EXECUTED OPEN with no EXECUTED CLOSE. */
  datatype OpenCopy = OpenCopy(
    copyId: string, masterTicket: string, slaveTicket: Option<string>, requestedVolume: Option<real>)

  /** An EXECUTED CLOSE. */
  datatype ClosedCopy = ClosedCopy(masterTicket: string, slaveTicket: Option<string>)

  datatype ExpectedSlTp = ExpectedSlTp(sl: Option<real>, tp: Option<real>)

  datatype Input = Input(
    masterPositions: seq<MasterPosition>,
    openCopies: seq<OpenCopy>,
    closedCopies: seq<ClosedCopy>,
    slavePositions: seq<SlavePosition>,
    expected: map<string, ExpectedSlTp>,
    volumeTolerance: Option<real>,
    priceTolerance: Option<real>)

  datatype Finding =
    | MissingCopy(masterTicket: string, symbol: string, volume: real)
    | SlavePositionMissing(masterTicket: string, slaveTicket: string)
    | VolumeMismatch(masterTicket: string, slaveTicket: string, expectedVolume: real, actualVolume: real)
    | SlTpMismatch(masterTicket: string, slaveTicket: string, expectedSlTp: ExpectedSlTp, actualSlTp: ExpectedSlTp)
    | SlaveNotClosed(masterTicket: string, slaveTicket: string)
    | UnexpectedSlavePosition(slaveTicket: string, symbol: string, volume: real, comment: Option<string>)
    | DuplicateSlavePosition(slaveTicket: string, copyId: string, duplicateCount: nat)

  const DEFAULT_VOLUME_TOLERANCE := 0.01
  const DEFAULT_PRICE_TOLERANCE := 0.0001

  const COPY_PREFIX := "copy:"

  /** The characters that `.` does not match in a JavaScript pattern. */
  predicate IsLineTerminator(c: char) {
    c == '\n' || c == '\r' || c == '\U{2028}' || c == '\U{2029}'
  }

  predicate IsTraceable(id: string) {
    id != "" && forall c :: c in id ==> !IsLineTerminator(c)
  }

  /** The copy id a comment carries: /^copy:(.+)$/. */
  function ExtractCopyId(comment: Option<string>): (id: Option<string>)
    ensures id.Some? <==> comment.Some? && exists x :: IsTraceable(x) && comment.value == COPY_PREFIX + x
    ensures forall x :: IsTraceable(x) && comment == Some(COPY_PREFIX + x) ==> id == Some(x)
  {
    if comment.None? then None
    else
      var c := comment.value;
      if COPY_PREFIX <= c && IsTraceable(c[|COPY_PREFIX|..]) then
        assert c == COPY_PREFIX + c[|COPY_PREFIX|..];
        Some(c[|COPY_PREFIX|..])
      else None
  }

  /** The rule that reads a non-empty ticket, as `if (!copy.slaveTicket)` does. */
  predicate HasTicket(t: Option<string>) { t.Some? && t.value != "" }

  /** The position a `Map` built from the list answers with: the last one carrying the ticket. */
  function LastWithTicket(s: seq<SlavePosition>, ticket: string): Option<SlavePosition> {
    if s == [] then None
    else if s[|s| - 1].ticket == ticket then Some(s[|s| - 1])
    else LastWithTicket(s[..|s| - 1], ticket)
  }

  predicate PriceOff(expected: Option<real>, actual: Option<real>, tolerance: real) {
    expected.Some? && (actual.None? || Abs(actual.value - expected.value) > tolerance)
  }

  predicate VolumeOff(expected: Option<real>, actual: real, tolerance: real) {
    expected.Some? && Abs(actual - expected.value) > tolerance
  }

  ghost predicate IsOpen(input: Input, masterTicket: string) {
    exists c :: c in input.openCopies && c.masterTicket == masterTicket
  }

  ghost predicate IsClosed(input: Input, masterTicket: string) {
    exists c :: c in input.closedCopies && c.masterTicket == masterTicket
  }

  ghost predicate IsOpenCopyId(input: Input, id: string) {
    exists c :: c in input.openCopies && c.copyId == id
  }

  /** A position whose comment names a known open copy. */
  ghost predicate Traces(input: Input, p: SlavePosition, id: string) {
    ExtractCopyId(p.comment) == Some(id) && IsOpenCopyId(input, id)
  }

  ghost function TracingRule(id: string): SlavePosition -> seq<SlavePosition> {
    (p: SlavePosition) => if ExtractCopyId(p.comment) == Some(id) then [p] else []
  }

  /** All the positions whose comment carries one copy id. */
  ghost function Siblings(s: seq<SlavePosition>, id: string): seq<SlavePosition> {
    Collect(s, TracingRule(id))
  }

  ghost function MissingRule(input: Input): MasterPosition -> seq<Finding> {
    (p: MasterPosition) =>
      if IsOpen(input, p.ticket) || IsClosed(input, p.ticket) then []
      else [MissingCopy(p.ticket, p.symbol, p.volume)]
  }

  ghost function VolumeFindings(input: Input, c: OpenCopy, ticket: string, p: SlavePosition): seq<Finding> {
    if VolumeOff(c.requestedVolume, p.volume, input.volumeTolerance.GetOr(DEFAULT_VOLUME_TOLERANCE)) then
      [VolumeMismatch(c.masterTicket, ticket, c.requestedVolume.value, p.volume)]
    else []
  }

  ghost function SlTpFindings(input: Input, c: OpenCopy, ticket: string, p: SlavePosition): seq<Finding> {
    var tolerance := input.priceTolerance.GetOr(DEFAULT_PRICE_TOLERANCE);
    if c.masterTicket in input.expected
       && var e := input.expected[c.masterTicket]; (PriceOff(e.sl, p.sl, tolerance) || PriceOff(e.tp, p.tp, tolerance))
    then [SlTpMismatch(c.masterTicket, ticket, input.expected[c.masterTicket], ExpectedSlTp(p.sl, p.tp))]
    else []
  }

  ghost function OpenCopyRule(input: Input): OpenCopy -> seq<Finding> {
    (c: OpenCopy) =>
      if !HasTicket(c.slaveTicket) then []
      else
        var ticket := c.slaveTicket.value;
        match LastWithTicket(input.slavePositions, ticket)
        case None => [SlavePositionMissing(c.masterTicket, ticket)]
        case Some(p) => VolumeFindings(input, c, ticket, p) + SlTpFindings(input, c, ticket, p)
  }

  ghost function NotClosedRule(input: Input): ClosedCopy -> seq<Finding> {
    (c: ClosedCopy) =>
      if HasTicket(c.slaveTicket) && exists p :: p in input.slavePositions && p.ticket == c.slaveTicket.value then
        [SlaveNotClosed(c.masterTicket, c.slaveTicket.value)]
      else []
  }

  ghost function UnexpectedRule(input: Input): SlavePosition -> seq<Finding> {
    (p: SlavePosition) =>
      if exists id :: Traces(input, p, id) then []
      else [UnexpectedSlavePosition(p.ticket, p.symbol, p.volume, p.comment)]
  }

  /** Duplicates, counted only for the copy ids in `ids`. */
  ghost function DuplicateRule(input: Input, ids: set<string>): SlavePosition -> seq<Finding> {
    (p: SlavePosition) =>
      var id := ExtractCopyId(p.comment);
      if id.Some? && id.value in ids && Traces(input, p, id.value)
        && |Siblings(input.slavePositions, id.value)| >= 2 then
        [DuplicateSlavePosition(p.ticket, id.value, |Siblings(input.slavePositions, id.value)|)]
      else []
  }

  ghost function OpenCopyIds(input: Input): set<string> { set c | c in input.openCopies :: c.copyId }

  /** What a run of the comparison reports; the order of duplicates is not part of it. */
  ghost function Findings(input: Input): seq<Finding> {
    Collect(input.masterPositions, MissingRule(input))
    + Collect(input.openCopies, OpenCopyRule(input))
    + Collect(input.closedCopies, NotClosedRule(input))
    + Collect(input.slavePositions, UnexpectedRule(input))
    + Collect(input.slavePositions, DuplicateRule(input, OpenCopyIds(input)))
  }

  // ---------------------------------------------------------------- the algorithm

  /** new Map(slavePositions.map(p => [p.ticket, p])) */
  method IndexByTicket(positions: seq<SlavePosition>) returns (byTicket: map<string, SlavePosition>)
    ensures forall t :: t in byTicket <==> LastWithTicket(positions, t).Some?
    ensures forall t :: t in byTicket ==> LastWithTicket(positions, t) == Some(byTicket[t])
  {
    byTicket := map[];
    for i := 0 to |positions|
      invariant forall t :: t in byTicket <==> LastWithTicket(positions[..i], t).Some?
      invariant forall t :: t in byTicket ==> LastWithTicket(positions[..i], t) == Some(byTicket[t])
    {
      assert positions[..i + 1][..i] == positions[..i];
      byTicket := byTicket[positions[i].ticket := positions[i]];
    }
    assert positions[..|positions|] == positions;
  }

  lemma {:induction false} LastWithTicketExists(s: seq<SlavePosition>, t: string)
    ensures LastWithTicket(s, t).Some? <==> exists p :: p in s && p.ticket == t
    ensures LastWithTicket(s, t).Some? ==> LastWithTicket(s, t).value in s && LastWithTicket(s, t).value.ticket == t
  {
    if s != [] {
      assert s == s[..|s| - 1] + [s[|s| - 1]];
      LastWithTicketExists(s[..|s| - 1], t);
    }
  }

  lemma SiblingsCarryTheId(s: seq<SlavePosition>, id: string, p: SlavePosition)
    ensures p in Siblings(s, id) <==> p in s && ExtractCopyId(p.comment) == Some(id)
  {
    CollectMember(s, TracingRule(id), p);
  }

  /** Adding one copy id to the ids already handled adds exactly that id's group. */
  lemma {:induction false} DuplicatesOfOneMoreId(input: Input, s: seq<SlavePosition>, ids: set<string>, id: string)
    requires id !in ids
    ensures multiset(Collect(s, DuplicateRule(input, ids + {id})))
         == multiset(Collect(s, DuplicateRule(input, ids)))
           + multiset(Collect(Siblings(s, id), DuplicateRule(input, {id})))
  {
    if s != [] {
      var front, last := s[..|s| - 1], s[|s| - 1];
      DuplicatesOfOneMoreId(input, front, ids, id);
      if ExtractCopyId(last.comment) == Some(id) {
        assert (Siblings(front, id) + [last])[..|Siblings(front, id)|] == Siblings(front, id);
      } else {
        assert Siblings(s, id) == Siblings(front, id);
      }
    }
  }

  /** Master positions that no copy accounts for. */
  method CheckMasterPositions(input: Input) returns (findings: seq<Finding>)
    ensures findings == Collect(input.masterPositions, MissingRule(input))
  {
    findings := [];
    var openMasterTickets := set c | c in input.openCopies :: c.masterTicket;
    var closedMasterTickets := set c | c in input.closedCopies :: c.masterTicket;
    for i := 0 to |input.masterPositions|
      invariant findings == Collect(input.masterPositions[..i], MissingRule(input))
    {
      var masterPos := input.masterPositions[i];
      CollectStep(input.masterPositions, i, MissingRule(input));
      if masterPos.ticket !in openMasterTickets && masterPos.ticket !in closedMasterTickets {
        findings := findings + [MissingCopy(masterPos.ticket, masterPos.symbol, masterPos.volume)];
      }
    }
    CollectAll(input.masterPositions, MissingRule(input));
  }

  /** Open copies the Slave does not hold, or holds with another volume, SL or TP. */
  method CheckOpenCopies(input: Input, slavePositionByTicket: map<string, SlavePosition>)
    returns (findings: seq<Finding>)
    requires forall t :: t in slavePositionByTicket <==> LastWithTicket(input.slavePositions, t).Some?
    requires forall t :: t in slavePositionByTicket ==>
               LastWithTicket(input.slavePositions, t) == Some(slavePositionByTicket[t])
    ensures findings == Collect(input.openCopies, OpenCopyRule(input))
  {
    findings := [];
    var volumeTolerance := input.volumeTolerance.GetOr(DEFAULT_VOLUME_TOLERANCE);
    var priceTolerance := input.priceTolerance.GetOr(DEFAULT_PRICE_TOLERANCE);
    for i := 0 to |input.openCopies|
      invariant findings == Collect(input.openCopies[..i], OpenCopyRule(input))
    {
      var copy := input.openCopies[i];
      CollectStep(input.openCopies, i, OpenCopyRule(input));
      if !HasTicket(copy.slaveTicket) { continue; }
      var ticket := copy.slaveTicket.value;
      if ticket !in slavePositionByTicket {
        findings := findings + [SlavePositionMissing(copy.masterTicket, ticket)];
        continue;
      }
      var slavePos := slavePositionByTicket[ticket];
      if VolumeOff(copy.requestedVolume, slavePos.volume, volumeTolerance) {
        findings := findings + [VolumeMismatch(copy.masterTicket, ticket, copy.requestedVolume.value, slavePos.volume)];
      }
      if copy.masterTicket in input.expected {
        var expected := input.expected[copy.masterTicket];
        var slMismatch := PriceOff(expected.sl, slavePos.sl, priceTolerance);
        var tpMismatch := PriceOff(expected.tp, slavePos.tp, priceTolerance);
        if slMismatch || tpMismatch {
          findings := findings
            + [SlTpMismatch(copy.masterTicket, ticket, expected, ExpectedSlTp(slavePos.sl, slavePos.tp))];
        }
      }
    }
    CollectAll(input.openCopies, OpenCopyRule(input));
  }

  /** Closed copies whose position the Slave still holds. */
  method CheckClosedCopies(input: Input, slavePositionByTicket: map<string, SlavePosition>)
    returns (findings: seq<Finding>)
    requires forall t :: t in slavePositionByTicket <==> LastWithTicket(input.slavePositions, t).Some?
    ensures findings == Collect(input.closedCopies, NotClosedRule(input))
  {
    findings := [];
    for i := 0 to |input.closedCopies|
      invariant findings == Collect(input.closedCopies[..i], NotClosedRule(input))
    {
      var copy := input.closedCopies[i];
      CollectStep(input.closedCopies, i, NotClosedRule(input));
      if HasTicket(copy.slaveTicket) {
        LastWithTicketExists(input.slavePositions, copy.slaveTicket.value);
        if copy.slaveTicket.value in slavePositionByTicket {
          findings := findings + [SlaveNotClosed(copy.masterTicket, copy.slaveTicket.value)];
        }
      }
    }
    CollectAll(input.closedCopies, NotClosedRule(input));
  }

  /** A `Map` from known copy id to the positions carrying it. */
  ghost predicate Groups(s: seq<SlavePosition>, known: set<string>, byId: map<string, seq<SlavePosition>>) {
    && byId.Keys <= known
    && (forall id :: id in byId ==> byId[id] == Siblings(s, id))
    && (forall id :: id in known - byId.Keys ==> Siblings(s, id) == [])
  }

  lemma SiblingsStep(s: seq<SlavePosition>, i: nat, id: string)
    requires i < |s|
    ensures Siblings(s[..i + 1], id)
         == Siblings(s[..i], id) + if ExtractCopyId(s[i].comment) == Some(id) then [s[i]] else []
  {
    CollectStep(s, i, TracingRule(id));
  }

  lemma GroupsSkipped(s: seq<SlavePosition>, i: nat, known: set<string>, byId: map<string, seq<SlavePosition>>)
    requires i < |s| && Groups(s[..i], known, byId)
    requires ExtractCopyId(s[i].comment).None? || ExtractCopyId(s[i].comment).value !in known
    ensures Groups(s[..i + 1], known, byId)
  {
    forall id | id in known ensures Siblings(s[..i + 1], id) == Siblings(s[..i], id) {
      SiblingsStep(s, i, id);
    }
  }

  /** Putting one more position under its known copy id keeps the groups right. */
  lemma GroupsExtended(s: seq<SlavePosition>, i: nat, known: set<string>,
                       byId: map<string, seq<SlavePosition>>, id: string)
    requires i < |s| && Groups(s[..i], known, byId)
    requires ExtractCopyId(s[i].comment) == Some(id) && id in known
    ensures Groups(s[..i + 1], known, byId[id := (if id in byId then byId[id] else []) + [s[i]]])
  {
    forall x | x in known ensures Siblings(s[..i + 1], x) == Siblings(s[..i], x) + if x == id then [s[i]] else [] {
      SiblingsStep(s, i, x);
    }
  }

  /** Traces every Slave position back to an open copy, grouping those that do. */
  method TracePositions(input: Input)
    returns (findings: seq<Finding>, byId: map<string, seq<SlavePosition>>)
    ensures findings == Collect(input.slavePositions, UnexpectedRule(input))
    ensures Groups(input.slavePositions, OpenCopyIds(input), byId)
  {
    findings, byId := [], map[];
    var openCopyIds := set c | c in input.openCopies :: c.copyId;
    for i := 0 to |input.slavePositions|
      invariant findings == Collect(input.slavePositions[..i], UnexpectedRule(input))
      invariant Groups(input.slavePositions[..i], openCopyIds, byId)
    {
      var slavePos := input.slavePositions[i];
      var copyId := ExtractCopyId(slavePos.comment);
      CollectStep(input.slavePositions, i, UnexpectedRule(input));
      assert (exists id :: Traces(input, slavePos, id)) <==> copyId.Some? && Traces(input, slavePos, copyId.value);
      if copyId.None? || copyId.value !in openCopyIds {
        GroupsSkipped(input.slavePositions, i, openCopyIds, byId);
        findings := findings
          + [UnexpectedSlavePosition(slavePos.ticket, slavePos.symbol, slavePos.volume, slavePos.comment)];
        continue;
      }
      var list := if copyId.value in byId then byId[copyId.value] else [];
      GroupsExtended(input.slavePositions, i, openCopyIds, byId, copyId.value);
      byId := byId[copyId.value := list + [slavePos]];
    }
    assert input.slavePositions[..|input.slavePositions|] == input.slavePositions;
  }

  /** One finding for every position of a group of two or more. */
  method ReportDuplicates(input: Input, byId: map<string, seq<SlavePosition>>)
    returns (findings: seq<Finding>)
    requires Groups(input.slavePositions, OpenCopyIds(input), byId)
    ensures multiset(findings) == multiset(Collect(input.slavePositions, DuplicateRule(input, OpenCopyIds(input))))
  {
    findings := [];
    ghost var done := OpenCopyIds(input) - byId.Keys;
    NoDuplicatesWithoutSiblings(input, done);
    var rest := byId.Keys;
    while rest != {}
      invariant rest <= byId.Keys && done == OpenCopyIds(input) - rest
      invariant multiset(findings) == multiset(Collect(input.slavePositions, DuplicateRule(input, done)))
      decreases rest
    {
      var copyId :| copyId in rest;
      DuplicatesOfOneMoreId(input, input.slavePositions, done, copyId);
      var groupFindings := ReportGroup(input, copyId, byId[copyId]);
      findings := findings + groupFindings;
      rest, done := rest - {copyId}, done + {copyId};
    }
    assert done == OpenCopyIds(input);
  }

  method ReportGroup(input: Input, copyId: string, positions: seq<SlavePosition>) returns (findings: seq<Finding>)
    requires positions == Siblings(input.slavePositions, copyId) && copyId in OpenCopyIds(input)
    ensures findings == Collect(positions, DuplicateRule(input, {copyId}))
  {
    findings := [];
    if |positions| <= 1 {
      CollectEmpty(positions, DuplicateRule(input, {copyId}));
      return;
    }
    for j := 0 to |positions|
      invariant findings == Collect(positions[..j], DuplicateRule(input, {copyId}))
    {
      CollectStep(positions, j, DuplicateRule(input, {copyId}));
      SiblingsCarryTheId(input.slavePositions, copyId, positions[j]);
      assert Traces(input, positions[j], copyId);
      findings := findings + [DuplicateSlavePosition(positions[j].ticket, copyId, |positions|)];
    }
    CollectAll(positions, DuplicateRule(input, {copyId}));
  }

  /** The Map-based comparison reports exactly `Findings`. */
  method CompareState(input: Input) returns (findings: seq<Finding>)
    ensures multiset(findings) == multiset(Findings(input))
  {
    var slavePositionByTicket := IndexByTicket(input.slavePositions);
    var missing := CheckMasterPositions(input);
    var mismatched := CheckOpenCopies(input, slavePositionByTicket);
    var notClosed := CheckClosedCopies(input, slavePositionByTicket);
    var unexpected, positionsByCopyId := TracePositions(input);
    var duplicates := ReportDuplicates(input, positionsByCopyId);
    findings := missing + mismatched + notClosed + unexpected + duplicates;
  }

  lemma NoDuplicatesWithoutSiblings(input: Input, ids: set<string>)
    requires forall id :: id in ids ==> Siblings(input.slavePositions, id) == []
    ensures Collect(input.slavePositions, DuplicateRule(input, ids)) == []
  {
    CollectEmpty(input.slavePositions, DuplicateRule(input, ids));
  }
}
