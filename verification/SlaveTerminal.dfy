/** A Slave's position book and the connector; the broker may refuse any order. */
module SlaveTerminal {
  import opened Common
  import opened ReconciliationEngine
  import opened CopyOrders
  import opened CopyProtocol

  datatype Position = Position(ticket: string, symbol: string, volume: real, sl: real, tp: real, comment: string)

  /** What the broker answers; a done OPEN carries the new ticket, a done CLOSE or MODIFY the one it acted on. */
  datatype Outcome = Refused(reason: string) | Filled(ticket: string)

  /** A missing stop or target is sent as zero. */
  function OpenedPosition(i: Instruction, ticket: string): Position {
    Position(ticket, i.symbol, i.volume.GetOr(0.0), i.sl.GetOr(0.0), i.tp.GetOr(0.0), COPY_PREFIX + i.copyId)
  }

  function Repriced(p: Position, i: Instruction): Position {
    p.(sl := i.sl.GetOr(0.0), tp := i.tp.GetOr(0.0))
  }

  function Remove(book: seq<Position>, ticket: string): seq<Position> {
    if book == [] then []
    else if book[0].ticket == ticket then Remove(book[1..], ticket)
    else [book[0]] + Remove(book[1..], ticket)
  }

  function Reprice(book: seq<Position>, ticket: string, i: Instruction): seq<Position> {
    if book == [] then []
    else [if book[0].ticket == ticket then Repriced(book[0], i) else book[0]] + Reprice(book[1..], ticket, i)
  }

  /** The book after the broker's answer. */
  function AfterExecution(book: seq<Position>, i: Instruction, o: Outcome): seq<Position> {
    if o.Refused? then book
    else
      match i.action
      case Open => book + [OpenedPosition(i, o.ticket)]
      case Close => Remove(book, o.ticket)
      case Modify => Reprice(book, o.ticket, i)
  }

  /** The message the connector sends back. */
  function ResultOf(i: Instruction, o: Outcome): Result {
    match o
    case Refused(reason) => Result(i.copyId, false, None, Some(reason))
    case Filled(ticket) => Result(i.copyId, true, Some(ticket), None)
  }

  function HeldAt(): Position -> string { (p: Position) => p.ticket }

  /** No ticket is held twice. */
  ghost predicate DistinctBook(book: seq<Position>) {
    Distinct(Map(book, HeldAt()))
  }

  // ---------------------------------------------------------------- what the operations do to the book

  lemma {:induction false} RemoveKeepsTheRest(book: seq<Position>, ticket: string)
    ensures forall p :: p in Remove(book, ticket) <==> p in book && p.ticket != ticket
    ensures |Remove(book, ticket)| <= |book|
  {
    if book != [] {
      RemoveKeepsTheRest(book[1..], ticket);
      assert book == [book[0]] + book[1..];
    }
  }

  lemma {:induction false} RepriceIsPointwise(book: seq<Position>, ticket: string, i: Instruction)
    ensures |Reprice(book, ticket, i)| == |book|
    ensures forall k :: 0 <= k < |book| ==>
      Reprice(book, ticket, i)[k] == (if book[k].ticket == ticket then Repriced(book[k], i) else book[k])
  {
    if book != [] {
      RepriceIsPointwise(book[1..], ticket, i);
    }
  }

  lemma DistinctBookMeans(book: seq<Position>)
    ensures DistinctBook(book) <==> forall i, j :: 0 <= i < j < |book| ==> book[i].ticket != book[j].ticket
  {
    var tickets := Map(book, HeldAt());
    forall i, j | 0 <= i < j < |book| ensures tickets[i] != tickets[j] <==> book[i].ticket != book[j].ticket {}
    if forall i, j :: 0 <= i < j < |book| ==> book[i].ticket != book[j].ticket {
      forall i, j | 0 <= i < j < |tickets| ensures tickets[i] != tickets[j] {
        assert book[i].ticket != book[j].ticket;
      }
    }
    if DistinctBook(book) {
      forall i, j | 0 <= i < j < |book| ensures book[i].ticket != book[j].ticket {
        assert tickets[i] != tickets[j];
      }
    }
  }

  lemma {:induction false} RemoveStaysDistinct(book: seq<Position>, ticket: string)
    requires DistinctBook(book)
    ensures DistinctBook(Remove(book, ticket))
  {
    DistinctBookMeans(book);
    if book != [] {
      var rest := book[1..];
      forall i, j | 0 <= i < j < |rest| ensures rest[i].ticket != rest[j].ticket {
        assert book[i + 1].ticket != book[j + 1].ticket;
      }
      DistinctBookMeans(rest);
      RemoveStaysDistinct(rest, ticket);
      RemoveKeepsTheRest(rest, ticket);
      var kept := Remove(book, ticket);
      var others := Remove(rest, ticket);
      DistinctBookMeans(others);
      if book[0].ticket != ticket {
        forall i, j | 0 <= i < j < |kept| ensures kept[i].ticket != kept[j].ticket {
          assert kept[j] == others[j - 1] && others[j - 1] in rest;
          if i > 0 { assert kept[i] == others[i - 1]; }
        }
        DistinctBookMeans(kept);
      }
    }
  }

  lemma ExecutionStaysDistinct(book: seq<Position>, i: Instruction, o: Outcome)
    requires DistinctBook(book)
    requires o.Filled? && i.action == Open ==> forall p :: p in book ==> p.ticket != o.ticket
    ensures DistinctBook(AfterExecution(book, i, o))
  {
    var after := AfterExecution(book, i, o);
    DistinctBookMeans(book);
    DistinctBookMeans(after);
    if o.Filled? {
      match i.action
      case Open =>
        forall j, k | 0 <= j < k < |after| ensures after[j].ticket != after[k].ticket {
          assert book[j] in book;
        }
      case Close => RemoveStaysDistinct(book, o.ticket);
      case Modify => RepriceIsPointwise(book, o.ticket, i);
    }
  }

  /** The `positions` array of the connector, changed in place by one instruction at a time. */
  class Terminal {
    var positions: seq<Position>

    constructor ()
      ensures positions == []
    {
      positions := [];
    }

    method FindIndex(ticket: string) returns (index: int)
      ensures -1 <= index < |positions|
      ensures index >= 0 ==> positions[index].ticket == ticket
      ensures index == -1 ==> forall p :: p in positions ==> p.ticket != ticket
    {
      index := 0;
      while index < |positions|
        invariant 0 <= index <= |positions|
        invariant forall k :: 0 <= k < index ==> positions[k].ticket != ticket
      {
        if positions[index].ticket == ticket { return; }
        index := index + 1;
      }
      index := -1;
    }

    /** `answer` is what the broker says to the order, were it sent. */
    method HandleInstruction(i: Instruction, answer: Outcome) returns (result: Result)
      requires DistinctBook(positions)
      requires answer.Filled? && i.action == Open ==> forall p :: p in positions ==> p.ticket != answer.ticket
      requires answer.Filled? && i.action != Open ==> i.slaveTicket == Some(answer.ticket)
      modifies this
      ensures positions == AfterExecution(old(positions), i, answer)
      ensures DistinctBook(positions)
      ensures result == ResultOf(i, answer)
    {
      ExecutionStaysDistinct(positions, i, answer);
      result := ResultOf(i, answer);
      if answer.Refused? { return; }
      match i.action {
        case Open =>
          positions := positions + [OpenedPosition(i, answer.ticket)];
        case Close =>
          var index := FindIndex(answer.ticket);
          SpliceRemoves(positions, index, answer.ticket);
          if index != -1 { positions := positions[..index] + positions[index + 1..]; }
        case Modify =>
          var index := FindIndex(answer.ticket);
          UpdateReprices(positions, index, answer.ticket, i);
          if index != -1 { positions := positions[index := Repriced(positions[index], i)]; }
      }
    }
  }

  lemma {:induction false} RemoveAbsent(book: seq<Position>, ticket: string)
    requires forall p :: p in book ==> p.ticket != ticket
    ensures Remove(book, ticket) == book
  {
    if book != [] {
      assert book == [book[0]] + book[1..];
      RemoveAbsent(book[1..], ticket);
    }
  }

  lemma {:induction false} RemoveOnly(book: seq<Position>, index: nat, ticket: string)
    requires index < |book| && book[index].ticket == ticket
    requires forall k :: 0 <= k < |book| && k != index ==> book[k].ticket != ticket
    ensures Remove(book, ticket) == Without(book, index)
  {
    var rest := book[1..];
    if index == 0 {
      RemoveAbsent(rest, ticket);
      assert Without(book, 0) == rest;
    } else {
      RemoveOnly(rest, index - 1, ticket);
      assert Without(book, index) == [book[0]] + Without(rest, index - 1);
    }
  }

  /** Taking out the one position found removes the ticket. */
  lemma SpliceRemoves(book: seq<Position>, index: int, ticket: string)
    requires DistinctBook(book) && -1 <= index < |book|
    requires index >= 0 ==> book[index].ticket == ticket
    requires index == -1 ==> forall p :: p in book ==> p.ticket != ticket
    ensures Remove(book, ticket) == if index == -1 then book else Without(book, index)
  {
    DistinctBookMeans(book);
    if index == -1 {
      RemoveAbsent(book, ticket);
    } else {
      RemoveOnly(book, index, ticket);
    }
  }

  lemma UpdateReprices(book: seq<Position>, index: int, ticket: string, i: Instruction)
    requires DistinctBook(book) && -1 <= index < |book|
    requires index >= 0 ==> book[index].ticket == ticket
    requires index == -1 ==> forall p :: p in book ==> p.ticket != ticket
    ensures Reprice(book, ticket, i) == if index == -1 then book else book[index := Repriced(book[index], i)]
  {
    RepriceIsPointwise(book, ticket, i);
    DistinctBookMeans(book);
    forall k | 0 <= k < |book|
      ensures Reprice(book, ticket, i)[k] == (if index == -1 then book else book[index := Repriced(book[index], i)])[k]
    {
      assert book[k] in book;
    }
  }
}
