/**
 * The book of a Slave against what it was handed and how each instruction came out: it holds exactly what the filled
 * OPENs opened and no filled CLOSE has closed.
 */
module Ledger {
  import opened Common
  import opened ReconciliationEngine
  import opened CopyOrders
  import opened CopyProtocol
  import opened SlaveTerminal
  import opened SlaveRun
  import opened AtMostOnce

  // ---------------------------------------------------------------- what happened

  predicate FilledAs(handed: seq<Instruction>, outcomes: seq<Outcome>, k: int, action: Action, ticket: string) {
    0 <= k < |outcomes| <= |handed| && handed[k].action == action && outcomes[k] == Filled(ticket)
  }

  predicate Holds(book: seq<Position>, ticket: string) {
    exists p :: p in book && p.ticket == ticket
  }

  /** The position that the k-th instruction opened. */
  predicate HeldFrom(handed: seq<Instruction>, outcomes: seq<Outcome>, p: Position, k: int) {
    && FilledAs(handed, outcomes, k, Open, p.ticket)
    && p.comment == COPY_PREFIX + handed[k].copyId
    && p.symbol == handed[k].symbol
    && p.volume == handed[k].volume.GetOr(0.0)
  }

  /** An OPEN's ticket was never seen before; a CLOSE or MODIFY answers with the ticket it was given. */
  ghost predicate TicketsSound(handed: seq<Instruction>, outcomes: seq<Outcome>) {
    && |outcomes| <= |handed|
    && (forall k :: 0 <= k < |outcomes| && handed[k].action == Open ==> outcomes[k] != Filled(""))
    && (forall k, t :: FilledAs(handed, outcomes, k, Open, t) ==> Filled(t) !in outcomes[..k])
    && (forall k :: 0 <= k < |outcomes| && outcomes[k].Filled? && handed[k].action != Open ==>
          handed[k].slaveTicket == Some(outcomes[k].ticket))
  }

  ghost predicate BookSound(handed: seq<Instruction>, outcomes: seq<Outcome>, book: seq<Position>) {
    && DistinctBook(book)
    && (forall p :: p in book ==> exists k :: HeldFrom(handed, outcomes, p, k))
    && (forall p, k :: p in book ==> !FilledAs(handed, outcomes, k, Close, p.ticket))
    && (forall k, t :: FilledAs(handed, outcomes, k, Open, t) ==>
          Holds(book, t) || exists j :: FilledAs(handed, outcomes, j, Close, t))
  }

  /** The effects so far do not depend on what is handed over later. */
  lemma EffectsKeep(handed: seq<Instruction>, more: seq<Instruction>, outcomes: seq<Outcome>, book: seq<Position>)
    requires handed <= more && TicketsSound(handed, outcomes) && BookSound(handed, outcomes, book)
    ensures TicketsSound(more, outcomes) && BookSound(more, outcomes, book)
  {
    forall k, a, t ensures FilledAs(handed, outcomes, k, a, t) <==> FilledAs(more, outcomes, k, a, t) {}
    forall p | p in book ensures exists k :: HeldFrom(more, outcomes, p, k) {
      var k :| HeldFrom(handed, outcomes, p, k);
      assert HeldFrom(more, outcomes, p, k);
    }
    forall k, t | FilledAs(more, outcomes, k, Open, t) && !Holds(book, t)
      ensures exists j :: FilledAs(more, outcomes, j, Close, t)
    {
      assert FilledAs(handed, outcomes, k, Open, t);
      var j :| FilledAs(handed, outcomes, j, Close, t);
      assert FilledAs(more, outcomes, j, Close, t);
    }
  }

  lemma FilledBefore(handed: seq<Instruction>, outcomes: seq<Outcome>, j: int, k: int, action: Action, ticket: string)
    ensures FilledAs(handed, outcomes, j, action, ticket) ==> Filled(ticket) in outcomes
    ensures FilledAs(handed, outcomes, j, action, ticket) && j < k <= |outcomes| ==> Filled(ticket) in outcomes[..k]
  {
    if FilledAs(handed, outcomes, j, action, ticket) && j < k <= |outcomes| {
      assert outcomes[..k][j] == Filled(ticket);
    }
  }

  /** Two OPENs are never filled with the same ticket. */
  lemma TicketOpensOnce(handed: seq<Instruction>, outcomes: seq<Outcome>, j: int, k: int, ticket: string)
    requires TicketsSound(handed, outcomes)
    requires FilledAs(handed, outcomes, j, Open, ticket) && FilledAs(handed, outcomes, k, Open, ticket)
    ensures j == k
  {
    FilledBefore(handed, outcomes, j, k, Open, ticket);
    FilledBefore(handed, outcomes, k, j, Open, ticket);
  }

  // ---------------------------------------------------------------- one more execution

  lemma OneMoreFilled(
      handed: seq<Instruction>, outcomes: seq<Outcome>, o: Outcome, k: int, action: Action, ticket: string)
    requires |outcomes| < |handed|
    ensures FilledAs(handed, outcomes + [o], k, action, ticket) <==>
              FilledAs(handed, outcomes, k, action, ticket)
              || (k == |outcomes| && o == Filled(ticket) && handed[k].action == action)
  {}

  lemma ExecutionKeepsTickets(s: State, o: Outcome)
    requires |s.outcomes| < |s.backend.handed| && BrokerMay(s, o)
    requires TicketsSound(s.backend.handed, s.outcomes)
    ensures TicketsSound(s.backend.handed, s.outcomes + [o])
  {
    var handed, outcomes := s.backend.handed, s.outcomes;
    forall k, t | FilledAs(handed, outcomes + [o], k, Open, t) ensures Filled(t) !in (outcomes + [o])[..k] {
      OneMoreFilled(handed, outcomes, o, k, Open, t);
      assert (outcomes + [o])[..k] == outcomes[..k];
      assert outcomes[..|outcomes|] == outcomes;
    }
  }

  lemma HeldLater(handed: seq<Instruction>, outcomes: seq<Outcome>, o: Outcome, p: Position, k: int)
    requires HeldFrom(handed, outcomes, p, k)
    ensures |outcomes| < |handed| ==> HeldFrom(handed, outcomes + [o], p, k)
  {}

  /** Everything held after an execution was held before it, or has just been opened. */
  lemma {:induction false} ComesFrom(s: State, o: Outcome, p: Position) returns (k: int)
    requires |s.outcomes| < |s.backend.handed| && BookSound(s.backend.handed, s.outcomes, s.book)
    requires p in AfterExecution(s.book, s.backend.handed[|s.outcomes|], o)
    ensures HeldFrom(s.backend.handed, s.outcomes + [o], p, k)
    ensures k == |s.outcomes| || Holds(s.book, p.ticket)
    ensures k == |s.outcomes| ==> o == Filled(p.ticket) && s.backend.handed[k].action == Open
    ensures k != |s.outcomes| && o == Filled(p.ticket) ==> s.backend.handed[|s.outcomes|].action != Close
  {
    var n, handed := |s.outcomes|, s.backend.handed;
    var i := handed[n];
    RemoveKeepsTheRest(s.book, if o.Filled? then o.ticket else "");
    RepriceIsPointwise(s.book, if o.Filled? then o.ticket else "", i);
    if o.Filled? && i.action == Open && p == OpenedPosition(i, o.ticket) {
      k := n;
    } else {
      var q :| q in s.book && q.ticket == p.ticket && q.comment == p.comment && q.symbol == p.symbol
        && q.volume == p.volume;
      k :| HeldFrom(handed, s.outcomes, q, k);
      HeldLater(handed, s.outcomes, o, q, k);
    }
  }

  lemma ExecutionHoldsOrCloses(s: State, o: Outcome, k: int, t: string)
    requires |s.outcomes| < |s.backend.handed| && BookSound(s.backend.handed, s.outcomes, s.book)
    requires FilledAs(s.backend.handed, s.outcomes + [o], k, Open, t)
    ensures Holds(AfterExecution(s.book, s.backend.handed[|s.outcomes|], o), t)
            || exists j :: FilledAs(s.backend.handed, s.outcomes + [o], j, Close, t)
  {
    var n, handed := |s.outcomes|, s.backend.handed;
    var i := handed[n];
    var after := AfterExecution(s.book, i, o);
    if k == n {
      assert OpenedPosition(i, t) in after;
    } else {
      assert FilledAs(handed, s.outcomes, k, Open, t);
      if Holds(s.book, t) {
        var p :| p in s.book && p.ticket == t;
        if i.action == Close && o == Filled(t) {
          assert FilledAs(handed, s.outcomes + [o], n, Close, t);
        } else {
          StaysOrCloses(s.book, i, o, p);
        }
      } else {
        var j :| FilledAs(handed, s.outcomes, j, Close, t);
        assert FilledAs(handed, s.outcomes + [o], j, Close, t);
      }
    }
  }

  lemma StaysOrCloses(book: seq<Position>, i: Instruction, o: Outcome, p: Position)
    requires p in book && !(i.action == Close && o == Filled(p.ticket))
    ensures Holds(AfterExecution(book, i, o), p.ticket)
  {
    var after := AfterExecution(book, i, o);
    if o.Refused? || i.action == Open {
      assert p in after;
    } else if i.action == Close {
      RemoveKeepsTheRest(book, o.ticket);
      assert p in after;
    } else {
      RepriceIsPointwise(book, o.ticket, i);
      var k :| 0 <= k < |book| && book[k] == p;
      assert after[k] in after && after[k].ticket == p.ticket;
    }
  }

  lemma ExecutionKeepsBook(s: State, o: Outcome)
    requires |s.outcomes| < |s.backend.handed| && BrokerMay(s, o)
    requires TicketsSound(s.backend.handed, s.outcomes) && BookSound(s.backend.handed, s.outcomes, s.book)
    ensures BookSound(s.backend.handed, s.outcomes + [o], AfterExecution(s.book, s.backend.handed[|s.outcomes|], o))
  {
    var n, handed := |s.outcomes|, s.backend.handed;
    var i := handed[n];
    var after := AfterExecution(s.book, i, o);
    forall p | p in s.book ensures Filled(p.ticket) in s.outcomes {
      var k :| HeldFrom(handed, s.outcomes, p, k);
      assert s.outcomes[k] in s.outcomes;
    }
    ExecutionStaysDistinct(s.book, i, o);
    forall p | p in after ensures exists k :: HeldFrom(handed, s.outcomes + [o], p, k) { var k := ComesFrom(s, o, p); }
    forall p, j | p in after ensures !FilledAs(handed, s.outcomes + [o], j, Close, p.ticket) {
      var k := ComesFrom(s, o, p);
      OneMoreFilled(handed, s.outcomes, o, j, Close, p.ticket);
      FilledBefore(handed, s.outcomes, j, n, Close, p.ticket);
    }
    forall k, t | FilledAs(handed, s.outcomes + [o], k, Open, t)
      ensures Holds(after, t) || exists j :: FilledAs(handed, s.outcomes + [o], j, Close, t)
    {
      ExecutionHoldsOrCloses(s, o, k, t);
    }
  }
}
