/** What the findings of a comparison say about the two books. */
module ReconciliationTheorems {
  import opened Common
  import opened ReconciliationEngine

  // ---------------------------------------------------------------- order does not matter

  ghost predicate SameData(a: Input, b: Input) {
    && multiset(a.masterPositions) == multiset(b.masterPositions)
    && multiset(a.openCopies) == multiset(b.openCopies)
    && multiset(a.closedCopies) == multiset(b.closedCopies)
    && multiset(a.slavePositions) == multiset(b.slavePositions)
    && a.expected == b.expected
    && a.volumeTolerance == b.volumeTolerance
    && a.priceTolerance == b.priceTolerance
  }

  ghost predicate DistinctTickets(s: seq<SlavePosition>) {
    forall p, q :: p in s && q in s && p.ticket == q.ticket ==> p == q
  }

  lemma SameMembers<T>(s: seq<T>, t: seq<T>, x: T)
    requires multiset(s) == multiset(t)
    ensures x in s <==> x in t
  {
    assert x in s <==> x in multiset(s);
    assert x in t <==> x in multiset(t);
  }

  lemma SameLookup(s: seq<SlavePosition>, t: seq<SlavePosition>, ticket: string)
    requires multiset(s) == multiset(t) && DistinctTickets(s)
    ensures LastWithTicket(s, ticket) == LastWithTicket(t, ticket)
  {
    LastWithTicketExists(s, ticket);
    LastWithTicketExists(t, ticket);
    forall p ensures p in s <==> p in t { SameMembers(s, t, p); }
  }

  lemma SameSiblings(s: seq<SlavePosition>, t: seq<SlavePosition>, id: string)
    requires multiset(s) == multiset(t)
    ensures |Siblings(s, id)| == |Siblings(t, id)|
  {
    CollectPermuted(s, t, TracingRule(id));
    assert |multiset(Siblings(s, id))| == |Siblings(s, id)|;
    assert |multiset(Siblings(t, id))| == |Siblings(t, id)|;
  }

  lemma SameCopies(a: Input, b: Input)
    requires SameData(a, b)
    ensures forall t :: IsOpen(a, t) <==> IsOpen(b, t)
    ensures forall t :: IsClosed(a, t) <==> IsClosed(b, t)
    ensures forall id :: IsOpenCopyId(a, id) <==> IsOpenCopyId(b, id)
    ensures OpenCopyIds(a) == OpenCopyIds(b)
  {
    forall c ensures c in a.openCopies <==> c in b.openCopies { SameMembers(a.openCopies, b.openCopies, c); }
    forall c ensures c in a.closedCopies <==> c in b.closedCopies { SameMembers(a.closedCopies, b.closedCopies, c); }
  }

  lemma Reordered<T(!new), R>(s: seq<T>, t: seq<T>, f: T -> seq<R>, g: T -> seq<R>)
    requires multiset(s) == multiset(t)
    requires forall x :: x in s ==> f(x) == g(x)
    ensures multiset(Collect(s, f)) == multiset(Collect(t, g))
  {
    CollectCongruent(s, f, g);
    CollectPermuted(s, t, g);
  }

  lemma SameMissing(a: Input, b: Input)
    requires SameData(a, b)
    ensures multiset(Collect(a.masterPositions, MissingRule(a))) == multiset(Collect(b.masterPositions, MissingRule(b)))
  {
    SameCopies(a, b);
    Reordered(a.masterPositions, b.masterPositions, MissingRule(a), MissingRule(b));
  }

  lemma SameOpenCopyFindings(a: Input, b: Input)
    requires SameData(a, b) && DistinctTickets(a.slavePositions)
    ensures multiset(Collect(a.openCopies, OpenCopyRule(a))) == multiset(Collect(b.openCopies, OpenCopyRule(b)))
  {
    forall c | c in a.openCopies ensures OpenCopyRule(a)(c) == OpenCopyRule(b)(c) {
      if HasTicket(c.slaveTicket) { SameLookup(a.slavePositions, b.slavePositions, c.slaveTicket.value); }
    }
    Reordered(a.openCopies, b.openCopies, OpenCopyRule(a), OpenCopyRule(b));
  }

  lemma SameNotClosed(a: Input, b: Input)
    requires SameData(a, b)
    ensures multiset(Collect(a.closedCopies, NotClosedRule(a))) == multiset(Collect(b.closedCopies, NotClosedRule(b)))
  {
    forall p ensures p in a.slavePositions <==> p in b.slavePositions {
      SameMembers(a.slavePositions, b.slavePositions, p);
    }
    Reordered(a.closedCopies, b.closedCopies, NotClosedRule(a), NotClosedRule(b));
  }

  lemma SameUnexpected(a: Input, b: Input)
    requires SameData(a, b)
    ensures multiset(Collect(a.slavePositions, UnexpectedRule(a)))
            == multiset(Collect(b.slavePositions, UnexpectedRule(b)))
  {
    SameCopies(a, b);
    forall p | p in a.slavePositions ensures UnexpectedRule(a)(p) == UnexpectedRule(b)(p) {
      assert forall id :: Traces(a, p, id) <==> Traces(b, p, id);
    }
    Reordered(a.slavePositions, b.slavePositions, UnexpectedRule(a), UnexpectedRule(b));
  }

  lemma SameDuplicates(a: Input, b: Input)
    requires SameData(a, b)
    ensures multiset(Collect(a.slavePositions, DuplicateRule(a, OpenCopyIds(a))))
         == multiset(Collect(b.slavePositions, DuplicateRule(b, OpenCopyIds(b))))
  {
    SameCopies(a, b);
    var ids := OpenCopyIds(a);
    forall p | p in a.slavePositions ensures DuplicateRule(a, ids)(p) == DuplicateRule(b, ids)(p) {
      var id := ExtractCopyId(p.comment);
      if id.Some? { SameSiblings(a.slavePositions, b.slavePositions, id.value); }
    }
    Reordered(a.slavePositions, b.slavePositions, DuplicateRule(a, ids), DuplicateRule(b, ids));
  }

  /** Reordering any of the four lists leaves the findings the same, as a multiset. */
  lemma OrderDoesNotMatter(a: Input, b: Input)
    requires SameData(a, b) && DistinctTickets(a.slavePositions)
    ensures multiset(Findings(a)) == multiset(Findings(b))
  {
    SameMissing(a, b);
    SameOpenCopyFindings(a, b);
    SameNotClosed(a, b);
    SameUnexpected(a, b);
    SameDuplicates(a, b);
  }

  // ---------------------------------------------------------------- every position is accounted for once

  /** How many of the positions belong to a copy. */
  ghost function GroupSize(s: seq<SlavePosition>): string -> real { (id: string) => |Siblings(s, id)| as real }

  ghost function Unexpected(input: Input, s: seq<SlavePosition>): seq<Finding> { Collect(s, UnexpectedRule(input)) }

  lemma GroupGrows(s: seq<SlavePosition>, p: SlavePosition, id: string)
    ensures GroupSize(s + [p])(id) == GroupSize(s)(id) + if ExtractCopyId(p.comment) == Some(id) then 1.0 else 0.0
  {
    assert (s + [p])[..|s|] == s;
  }

  /** One more position joins the group its comment names, or is unexpected. */
  lemma GroupsGrow(input: Input, s: seq<SlavePosition>, p: SlavePosition)
    ensures var ids := OpenCopyIds(input);
            |Unexpected(input, s + [p])| as real + SumOver(ids, GroupSize(s + [p]))
            == |Unexpected(input, s)| as real + SumOver(ids, GroupSize(s)) + 1.0
  {
    var ids, id := OpenCopyIds(input), ExtractCopyId(p.comment);
    var f, g := GroupSize(s), GroupSize(s + [p]);
    assert (s + [p])[..|s|] == s;
    forall x ensures g(x) == f(x) + if id == Some(x) then 1.0 else 0.0 { GroupGrows(s, p, x); }
    if id.Some? && id.value in ids {
      assert Traces(input, p, id.value);
      var others := ids - {id.value};
      SumLess(others, others, f, g);
      SumLess(others, others, g, f);
      SumRemove(ids, id.value, f);
      SumRemove(ids, id.value, g);
    } else {
      assert !exists x :: Traces(input, p, x);
      SumLess(ids, ids, f, g);
      SumLess(ids, ids, g, f);
    }
  }

  /** Every Slave position is either reported as unexpected or counted in the group of exactly one open copy. */
  lemma {:induction false} PositionsArePartitioned(input: Input, s: seq<SlavePosition>)
    ensures |Unexpected(input, s)| as real + SumOver(OpenCopyIds(input), GroupSize(s)) == |s| as real
  {
    if s == [] {
      SumLess(OpenCopyIds(input), OpenCopyIds(input), GroupSize(s), Zeros());
      SumLess(OpenCopyIds(input), OpenCopyIds(input), Zeros(), GroupSize(s));
      SumOfZeros(OpenCopyIds(input));
    } else {
      var front, last := s[..|s| - 1], s[|s| - 1];
      assert s == front + [last];
      PositionsArePartitioned(input, front);
      GroupsGrow(input, front, last);
    }
  }

  ghost function Zeros(): string -> real { (id: string) => 0.0 }

  lemma {:induction false} SumOfZeros(ids: set<string>)
    ensures SumOver(ids, Zeros()) == 0.0
  {
    if ids != {} {
      var x :| x in ids;
      SumRemove(ids, x, Zeros());
      SumOfZeros(ids - {x});
    }
  }

  // ---------------------------------------------------------------- an empty report is strong

  ghost function HeldTicket(): SlavePosition -> Option<string> { (p: SlavePosition) => Some(p.ticket) }

  ghost function TracedId(): SlavePosition -> Option<string> { (p: SlavePosition) => ExtractCopyId(p.comment) }

  ghost function OpenTicket(): OpenCopy -> Option<string> { (c: OpenCopy) => c.slaveTicket }

  ghost function OpenId(): OpenCopy -> Option<string> { (c: OpenCopy) => Some(c.copyId) }

  /** Rows as the copy_orders table holds them: ids are unique, and EXECUTED opens carry ticket and volume. */
  ghost predicate WellFormedOpens(s: seq<OpenCopy>) {
    && Distinct(Map(s, OpenId()))
    && Distinct(Map(s, OpenTicket()))
    && forall c :: c in s ==> HasTicket(c.slaveTicket) && c.requestedVolume.Some?
  }

  /** A bijection by ticket: n open copies, n distinct tickets held, and they are the same tickets. */
  ghost predicate MatchedByTicket(opens: seq<OpenCopy>, positions: seq<SlavePosition>) {
    && |opens| == |positions|
    && Distinct(Map(positions, HeldTicket()))
    && ToSet(Map(opens, OpenTicket())) == ToSet(Map(positions, HeldTicket()))
  }

  /** A bijection by comment: n open copies, n distinct copy ids in the comments, and they are the same ids. */
  ghost predicate MatchedByComment(opens: seq<OpenCopy>, positions: seq<SlavePosition>) {
    && |opens| == |positions|
    && Distinct(Map(positions, TracedId()))
    && ToSet(Map(opens, OpenId())) == ToSet(Map(positions, TracedId()))
  }

  ghost predicate VolumesWithin(opens: seq<OpenCopy>, positions: seq<SlavePosition>, tolerance: real) {
    forall c, p :: c in opens && p in positions && c.slaveTicket == Some(p.ticket) && c.requestedVolume.Some? ==>
      Abs(p.volume - c.requestedVolume.value) <= tolerance
  }

  /** No finding of any kind but MISSING_COPY and SLTP_MISMATCH. */
  ghost predicate BooksAgree(input: Input) {
    forall f :: f in Findings(input) ==> f.MissingCopy? || f.SlTpMismatch?
  }

  lemma FindingOf(input: Input, f: Finding)
    ensures f in Findings(input) <==>
      || (exists p :: p in input.masterPositions && f in MissingRule(input)(p))
      || (exists c :: c in input.openCopies && f in OpenCopyRule(input)(c))
      || (exists c :: c in input.closedCopies && f in NotClosedRule(input)(c))
      || (exists p :: p in input.slavePositions && f in UnexpectedRule(input)(p))
      || (exists p :: p in input.slavePositions && f in DuplicateRule(input, OpenCopyIds(input))(p))
  {
    CollectMember(input.masterPositions, MissingRule(input), f);
    CollectMember(input.openCopies, OpenCopyRule(input), f);
    CollectMember(input.closedCopies, NotClosedRule(input), f);
    CollectMember(input.slavePositions, UnexpectedRule(input), f);
    CollectMember(input.slavePositions, DuplicateRule(input, OpenCopyIds(input)), f);
  }

  lemma AgreementFindsEveryCopy(input: Input, c: OpenCopy)
    requires BooksAgree(input) && c in input.openCopies && HasTicket(c.slaveTicket)
    ensures LastWithTicket(input.slavePositions, c.slaveTicket.value).Some?
    ensures !VolumeOff(c.requestedVolume, LastWithTicket(input.slavePositions, c.slaveTicket.value).value.volume,
                       input.volumeTolerance.GetOr(DEFAULT_VOLUME_TOLERANCE))
  {
    var ticket := c.slaveTicket.value;
    var held := LastWithTicket(input.slavePositions, ticket);
    if held.None? {
      FindingOf(input, SlavePositionMissing(c.masterTicket, ticket));
    } else if VolumeOff(c.requestedVolume, held.value.volume, input.volumeTolerance.GetOr(DEFAULT_VOLUME_TOLERANCE)) {
      var f := VolumeMismatch(c.masterTicket, ticket, c.requestedVolume.value, held.value.volume);
      FindingOf(input, f);
    }
  }

  lemma AgreementTracesEveryPosition(input: Input, p: SlavePosition)
    requires BooksAgree(input) && p in input.slavePositions
    ensures exists c :: c in input.openCopies && ExtractCopyId(p.comment) == Some(c.copyId)
  {
    if !exists id :: Traces(input, p, id) {
      var f := UnexpectedSlavePosition(p.ticket, p.symbol, p.volume, p.comment);
      FindingOf(input, f);
    }
  }

  /** A copy id has two siblings exactly when two places of the list carry it. */
  lemma {:induction false} TwoSiblings(s: seq<SlavePosition>, id: string)
    ensures |Siblings(s, id)| >= 1 <==> exists i :: 0 <= i < |s| && ExtractCopyId(s[i].comment) == Some(id)
    ensures |Siblings(s, id)| >= 2 <==>
              exists i, j :: 0 <= i < j < |s| && ExtractCopyId(s[i].comment) == Some(id) == ExtractCopyId(s[j].comment)
  {
    if s != [] {
      var front := s[..|s| - 1];
      TwoSiblings(front, id);
      forall i | 0 <= i < |front| ensures front[i] == s[i] {}
      if |Siblings(front, id)| >= 1 {
        var i :| 0 <= i < |front| && ExtractCopyId(front[i].comment) == Some(id);
        assert ExtractCopyId(s[i].comment) == Some(id);
      }
      if |Siblings(front, id)| >= 2 {
        var i, j :| 0 <= i < j < |front|
          && ExtractCopyId(front[i].comment) == Some(id) == ExtractCopyId(front[j].comment);
        assert ExtractCopyId(s[i].comment) == Some(id) == ExtractCopyId(s[j].comment);
      }
    }
  }

  lemma AgreementHasNoDuplicates(input: Input, i: nat, j: nat)
    requires BooksAgree(input) && i < j < |input.slavePositions|
    ensures ExtractCopyId(input.slavePositions[i].comment) != ExtractCopyId(input.slavePositions[j].comment)
  {
    var p, q := input.slavePositions[i], input.slavePositions[j];
    AgreementTracesEveryPosition(input, p);
    if ExtractCopyId(p.comment) == ExtractCopyId(q.comment) {
      var id := ExtractCopyId(p.comment).value;
      TwoSiblings(input.slavePositions, id);
      var f := DuplicateSlavePosition(p.ticket, id, |Siblings(input.slavePositions, id)|);
      assert Traces(input, p, id) && id in OpenCopyIds(input);
      FindingOf(input, f);
    }
  }

  lemma AgreementHasClosed(input: Input, c: ClosedCopy, p: SlavePosition)
    requires BooksAgree(input) && c in input.closedCopies && p in input.slavePositions
    ensures c.slaveTicket != Some(p.ticket) || p.ticket == ""
  {
    if c.slaveTicket == Some(p.ticket) && p.ticket != "" {
      FindingOf(input, SlaveNotClosed(c.masterTicket, p.ticket));
    }
  }

  /** No closed copy's ticket is still held. */
  ghost predicate ClosedAreGone(input: Input) {
    forall c, p :: c in input.closedCopies && p in input.slavePositions && HasTicket(c.slaveTicket) ==>
      c.slaveTicket != Some(p.ticket)
  }

  lemma Members<T(!new), R(!new)>(s: seq<T>, f: T -> R, r: R)
    ensures r in ToSet(Map(s, f)) <==> exists x :: x in s && f(x) == r
  {
    if r in Map(s, f) {
      var i :| 0 <= i < |Map(s, f)| && Map(s, f)[i] == r;
      assert s[i] in s;
    }
    if x :| x in s && f(x) == r {
      var i :| 0 <= i < |s| && s[i] == x;
      assert Map(s, f)[i] == r;
    }
  }

  /** The pigeonhole step: n distinct tickets held, n distinct ids traced back, so nothing is left over. */
  lemma AgreementIsOneToOne(input: Input)
    requires BooksAgree(input) && WellFormedOpens(input.openCopies)
    ensures MatchedByTicket(input.openCopies, input.slavePositions)
    ensures MatchedByComment(input.openCopies, input.slavePositions)
  {
    var opens, positions := input.openCopies, input.slavePositions;
    var wanted, held := Map(opens, OpenTicket()), Map(positions, HeldTicket());
    var known, traced := Map(opens, OpenId()), Map(positions, TracedId());
    forall t | t in ToSet(wanted) ensures t in ToSet(held) {
      Members(opens, OpenTicket(), t);
      var c :| c in opens && c.slaveTicket == t;
      AgreementFindsEveryCopy(input, c);
      LastWithTicketExists(positions, t.value);
      Members(positions, HeldTicket(), t);
    }
    forall id | id in ToSet(traced) ensures id in ToSet(known) {
      Members(positions, TracedId(), id);
      var p :| p in positions && ExtractCopyId(p.comment) == id;
      AgreementTracesEveryPosition(input, p);
      Members(opens, OpenId(), id);
    }
    forall i, j | 0 <= i < j < |traced| ensures traced[i] != traced[j] { AgreementHasNoDuplicates(input, i, j); }
    DistinctSize(wanted);
    DistinctSize(held);
    DistinctSize(known);
    DistinctSize(traced);
    SubsetSize(ToSet(wanted), ToSet(held));
    SubsetSize(ToSet(traced), ToSet(known));
    SubsetOfEqualSize(ToSet(wanted), ToSet(held));
    SubsetOfEqualSize(ToSet(traced), ToSet(known));
  }

  /** Equal key sets: every element of the first list has a partner in the second. */
  lemma {:induction false} Partner<A(!new), B(!new), K(!new)>(s: seq<A>, t: seq<B>, f: A -> K, g: B -> K, x: A)
    returns (y: B)
    requires ToSet(Map(s, f)) == ToSet(Map(t, g)) && x in s
    ensures y in t && f(x) == g(y)
  {
    Members(s, f, f(x));
    Members(t, g, f(x));
    y :| y in t && g(y) == f(x);
  }

  lemma HeldOnce(positions: seq<SlavePosition>, p: SlavePosition)
    requires Distinct(Map(positions, HeldTicket())) && p in positions
    ensures LastWithTicket(positions, p.ticket) == Some(p)
  {
    LastWithTicketExists(positions, p.ticket);
    var q := LastWithTicket(positions, p.ticket).value;
    var i :| 0 <= i < |positions| && positions[i] == p;
    var j :| 0 <= j < |positions| && positions[j] == q;
    assert Map(positions, HeldTicket())[i] == Map(positions, HeldTicket())[j];
  }

  /** The two books match one to one, by ticket and by comment, within tolerance, and nothing closed is held. */
  ghost predicate BooksMatch(input: Input) {
    && MatchedByTicket(input.openCopies, input.slavePositions)
    && MatchedByComment(input.openCopies, input.slavePositions)
    && VolumesWithin(input.openCopies, input.slavePositions, input.volumeTolerance.GetOr(DEFAULT_VOLUME_TOLERANCE))
    && ClosedAreGone(input)
  }

  lemma AgreementMatches(input: Input)
    requires BooksAgree(input) && WellFormedOpens(input.openCopies)
    ensures BooksMatch(input)
  {
    var opens, positions := input.openCopies, input.slavePositions;
    AgreementIsOneToOne(input);
    forall c, p | c in opens && p in positions && c.slaveTicket == Some(p.ticket) && c.requestedVolume.Some?
      ensures Abs(p.volume - c.requestedVolume.value) <= input.volumeTolerance.GetOr(DEFAULT_VOLUME_TOLERANCE)
    {
      AgreementFindsEveryCopy(input, c);
      HeldOnce(positions, p);
    }
    forall c, p | c in input.closedCopies && p in positions && HasTicket(c.slaveTicket)
      ensures c.slaveTicket != Some(p.ticket)
    {
      AgreementHasClosed(input, c, p);
    }
  }

  lemma MatchedCopyHasNoFinding(input: Input, c: OpenCopy, f: Finding)
    requires BooksMatch(input) && c in input.openCopies && f in OpenCopyRule(input)(c)
    ensures f.SlTpMismatch?
  {
    var p := Partner(input.openCopies, input.slavePositions, OpenTicket(), HeldTicket(), c);
    HeldOnce(input.slavePositions, p);
  }

  lemma SiblingsOfDistinct(positions: seq<SlavePosition>, id: string)
    requires Distinct(Map(positions, TracedId()))
    ensures |Siblings(positions, id)| <= 1
  {
    TwoSiblings(positions, id);
    var ids := Map(positions, TracedId());
    forall i, j | 0 <= i < j < |positions|
      ensures !(ExtractCopyId(positions[i].comment) == Some(id) == ExtractCopyId(positions[j].comment))
    {
      assert ids[i] != ids[j];
    }
  }

  lemma MatchedPositionIsExpected(input: Input, p: SlavePosition)
    requires BooksMatch(input) && p in input.slavePositions
    ensures UnexpectedRule(input)(p) == [] && DuplicateRule(input, OpenCopyIds(input))(p) == []
  {
    var c := Partner(input.slavePositions, input.openCopies, TracedId(), OpenId(), p);
    assert Traces(input, p, c.copyId);
    SiblingsOfDistinct(input.slavePositions, c.copyId);
  }

  /**
   * With the uniqueness the copy_orders table enforces, a comparison reports nothing but MISSING_COPY and
   * SLTP_MISMATCH exactly when the books match.
   */
  lemma AgreementIff(input: Input)
    requires WellFormedOpens(input.openCopies)
    ensures BooksAgree(input) <==> BooksMatch(input)
  {
    if BooksAgree(input) { AgreementMatches(input); }
    if BooksMatch(input) {
      forall f | f in Findings(input) ensures f.MissingCopy? || f.SlTpMismatch? {
        FindingOf(input, f);
        if c :| c in input.openCopies && f in OpenCopyRule(input)(c) {
          MatchedCopyHasNoFinding(input, c, f);
        } else if p :| p in input.slavePositions
                       && (f in UnexpectedRule(input)(p) || f in DuplicateRule(input, OpenCopyIds(input))(p)) {
          MatchedPositionIsExpected(input, p);
        }
      }
    }
  }

  // ---------------------------------------------------------------- how far volumes can drift

  ghost function HeldVolume(): SlavePosition -> real { (p: SlavePosition) => p.volume }

  /** requestedVolume ?? 0, as getOpenPositionsSummary sums it. */
  ghost function OpenVolume(): OpenCopy -> real { (c: OpenCopy) => c.requestedVolume.GetOr(0.0) }

  lemma WithoutKeepsDistinct<T>(s: seq<T>, i: nat)
    requires i < |s| && Distinct(s)
    ensures Distinct(Without(s, i)) && ToSet(Without(s, i)) == ToSet(s) - {s[i]}
  {
    forall x | x in s && x != s[i] ensures x in Without(s, i) {
      var j :| 0 <= j < |s| && s[j] == x;
      assert Without(s, i)[if j < i then j else j - 1] == x;
    }
  }

  ghost predicate Within<K(!new)>(keys: seq<K>, xs: seq<real>, keys': seq<K>, ys: seq<real>, tolerance: real)
    requires |keys| == |xs| == |keys'| == |ys|
  {
    forall i, j :: 0 <= i < |keys| && 0 <= j < |keys'| && keys[i] == keys'[j] ==> Abs(ys[j] - xs[i]) <= tolerance
  }

  lemma WithinWithout<K(!new)>(keys: seq<K>, xs: seq<real>, keys': seq<K>, ys: seq<real>, tolerance: real, j: nat)
    requires 0 < |keys| == |xs| == |keys'| == |ys| && j < |ys| && Within(keys, xs, keys', ys, tolerance)
    ensures Within(Without(keys, 0), Without(xs, 0), Without(keys', j), Without(ys, j), tolerance)
  {}

  /** Two keyed columns of numbers, the same keys in any order, each pair within a tolerance. */
  lemma {:induction false} MatchedSums<K(!new)>(
      keys: seq<K>, xs: seq<real>, keys': seq<K>, ys: seq<real>, tolerance: real)
    requires |keys| == |xs| == |keys'| == |ys|
    requires Distinct(keys) && Distinct(keys') && ToSet(keys) == ToSet(keys')
    requires Within(keys, xs, keys', ys, tolerance)
    ensures Abs(Sum(ys) - Sum(xs)) <= Times(|keys|, tolerance)
    decreases |keys|
  {
    if keys != [] {
      assert keys[0] in ToSet(keys');
      var j :| 0 <= j < |keys'| && keys'[j] == keys[0];
      WithoutKeepsDistinct(keys, 0);
      WithoutKeepsDistinct(keys', j);
      WithinWithout(keys, xs, keys', ys, tolerance, j);
      MatchedSums(Without(keys, 0), Without(xs, 0), Without(keys', j), Without(ys, j), tolerance);
      SumWithout(xs, 0);
      SumWithout(ys, j);
    }
  }

  /** A silent comparison bounds how far the exposure check's total is from what the Slave really holds. */
  lemma SilenceBoundsExposure(input: Input)
    requires BooksAgree(input) && WellFormedOpens(input.openCopies)
    ensures Abs(Sum(Map(input.slavePositions, HeldVolume())) - Sum(Map(input.openCopies, OpenVolume())))
         <= Times(|input.openCopies|, input.volumeTolerance.GetOr(DEFAULT_VOLUME_TOLERANCE))
  {
    AgreementMatches(input);
    var opens, positions := input.openCopies, input.slavePositions;
    var keys, keys' := Map(opens, OpenTicket()), Map(positions, HeldTicket());
    forall i, j | 0 <= i < |keys| && 0 <= j < |keys'| && keys[i] == keys'[j]
      ensures Abs(Map(positions, HeldVolume())[j] - Map(opens, OpenVolume())[i])
           <= input.volumeTolerance.GetOr(DEFAULT_VOLUME_TOLERANCE)
    {
      assert opens[i] in opens && positions[j] in positions;
    }
    MatchedSums(keys, Map(opens, OpenVolume()), keys', Map(positions, HeldVolume()),
                input.volumeTolerance.GetOr(DEFAULT_VOLUME_TOLERANCE));
  }

  // ---------------------------------------------------------------- what the comparison cannot see

  /** The same input, with the comments of two held positions exchanged. */
  function Crossed(input: Input, i: nat, j: nat): (crossed: Input)
    requires i < |input.slavePositions| && j < |input.slavePositions|
    ensures |crossed.slavePositions| == |input.slavePositions| && crossed.openCopies == input.openCopies
  {
    var p, q := input.slavePositions[i], input.slavePositions[j];
    input.(slavePositions := input.slavePositions[i := p.(comment := q.comment)][j := q.(comment := p.comment)])
  }

  /** The ticket of the position and the id in its comment name the same open copy. */
  ghost predicate NamesOneCopy(input: Input, p: SlavePosition) {
    exists c :: c in input.openCopies && c.slaveTicket == Some(p.ticket) && ExtractCopyId(p.comment) == Some(c.copyId)
  }

  lemma SwapKeepsSet<T>(s: seq<T>, t: seq<T>, i: nat, j: nat)
    requires i < |s| && j < |s| && t == s[i := s[j]][j := s[i]]
    ensures ToSet(s) == ToSet(t)
  {
    forall x | x in s ensures x in t {
      var k :| 0 <= k < |s| && s[k] == x;
      assert t[if k == i then j else if k == j then i else k] == x;
    }
  }

  lemma CrossedKeepsKeys(input: Input, i: nat, j: nat)
    requires i < |input.slavePositions| && j < |input.slavePositions|
    ensures var positions, crossed := input.slavePositions, Crossed(input, i, j).slavePositions;
            && Map(crossed, HeldTicket()) == Map(positions, HeldTicket())
            && Map(crossed, TracedId())
               == Map(positions, TracedId())[i := TracedId()(positions[j])][j := TracedId()(positions[i])]
  {}

  lemma CrossedKeepsTraces(input: Input, i: nat, j: nat)
    requires i < |input.slavePositions| && j < |input.slavePositions|
    requires MatchedByComment(input.openCopies, input.slavePositions)
    ensures MatchedByComment(input.openCopies, Crossed(input, i, j).slavePositions)
  {
    CrossedKeepsKeys(input, i, j);
    var traced := Map(input.slavePositions, TracedId());
    SwapKeepsSet(traced, traced[i := traced[j]][j := traced[i]], i, j);
  }

  /** Every position of the crossed input has the ticket and the volume of one that is held. */
  lemma CrossedPosition(input: Input, i: nat, j: nat, p: SlavePosition)
    requires i < |input.slavePositions| && j < |input.slavePositions| && p in Crossed(input, i, j).slavePositions
    ensures exists q :: q in input.slavePositions && q.ticket == p.ticket && q.volume == p.volume
  {
    var k :| 0 <= k < |input.slavePositions| && Crossed(input, i, j).slavePositions[k] == p;
    assert input.slavePositions[k] in input.slavePositions;
  }

  lemma CrossedMatches(input: Input, i: nat, j: nat)
    requires i < |input.slavePositions| && j < |input.slavePositions| && BooksMatch(input)
    ensures BooksMatch(Crossed(input, i, j))
  {
    var crossed := Crossed(input, i, j);
    CrossedKeepsKeys(input, i, j);
    CrossedKeepsTraces(input, i, j);
    forall c, p | c in crossed.openCopies && p in crossed.slavePositions && c.slaveTicket == Some(p.ticket)
                  && c.requestedVolume.Some?
      ensures Abs(p.volume - c.requestedVolume.value) <= input.volumeTolerance.GetOr(DEFAULT_VOLUME_TOLERANCE)
    {
      CrossedPosition(input, i, j, p);
    }
    forall c, p | c in input.closedCopies && p in crossed.slavePositions && HasTicket(c.slaveTicket)
      ensures c.slaveTicket != Some(p.ticket)
    {
      CrossedPosition(input, i, j, p);
    }
  }

  lemma SameTicketSameCopy(opens: seq<OpenCopy>, c: OpenCopy, d: OpenCopy)
    requires WellFormedOpens(opens) && c in opens && d in opens && c.slaveTicket == d.slaveTicket
    ensures c == d
  {
    var i :| 0 <= i < |opens| && opens[i] == c;
    var j :| 0 <= j < |opens| && opens[j] == d;
    assert Map(opens, OpenTicket())[i] == Map(opens, OpenTicket())[j];
  }

  lemma CrossedIsMisnamed(input: Input, i: nat, j: nat)
    requires WellFormedOpens(input.openCopies) && BooksMatch(input)
    requires i < |input.slavePositions| && j < |input.slavePositions| && i != j
    ensures var p, q := input.slavePositions[i], Crossed(input, i, j).slavePositions[i];
            !(NamesOneCopy(input, p) && NamesOneCopy(Crossed(input, i, j), q))
  {
    var positions := input.slavePositions;
    var p, q := positions[i], Crossed(input, i, j).slavePositions[i];
    var traced := Map(positions, TracedId());
    assert traced[i] != traced[j];
    if NamesOneCopy(input, p) && NamesOneCopy(Crossed(input, i, j), q) {
      var c :| c in input.openCopies && c.slaveTicket == Some(p.ticket) && ExtractCopyId(p.comment) == Some(c.copyId);
      var d :| d in input.openCopies && d.slaveTicket == Some(q.ticket) && ExtractCopyId(q.comment) == Some(d.copyId);
      SameTicketSameCopy(input.openCopies, c, d);
      assert false;
    }
  }

  /**
   * The ticket and the comment of one position are never held against each other. Exchanging the comments of any two
   * positions of any input never turns a silent comparison into a finding or back, and though both inputs are silent,
   * at most one of them has comments that belong to their tickets.
   */
  lemma CrossedCommentsAreSilent(input: Input, i: nat, j: nat)
    requires WellFormedOpens(input.openCopies)
    requires i < |input.slavePositions| && j < |input.slavePositions| && i != j
    ensures BooksAgree(Crossed(input, i, j)) <==> BooksAgree(input)
    ensures var p, q := input.slavePositions[i], Crossed(input, i, j).slavePositions[i];
            BooksAgree(input) ==> !(NamesOneCopy(input, p) && NamesOneCopy(Crossed(input, i, j), q))
  {
    var crossed := Crossed(input, i, j);
    AgreementIff(input);
    AgreementIff(crossed);
    if BooksMatch(input) {
      CrossedMatches(input, i, j);
      CrossedIsMisnamed(input, i, j);
    }
    if BooksMatch(crossed) {
      CrossedMatches(crossed, i, j);
      assert Crossed(crossed, i, j).slavePositions == input.slavePositions;
    }
  }
}
