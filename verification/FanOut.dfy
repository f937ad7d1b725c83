/**
 * Many Slaves at once (backend/src/modules/copy-engine/copyEngine.ts, lines 84-100): however their steps interleave,
 * each Slave ends as if it had been alone, and as if the Slaves had been served one after another in any order.
 */
module FanOut {
  import opened Common
  import opened ReconciliationEngine
  import opened CopyOrders
  import opened CopyProtocol
  import opened CopyTable

  // ---------------------------------------------------------------- one step of one Slave

  /** A step, and the Slave it is for. */
  datatype Tagged = Tagged(slaveId: string, step: Step)

  /** The step can be taken; a step that cannot is not. */
  predicate CanStep(e: Engine, x: Tagged) {
    match x.step
    case Begin(n, _, _, _) => Key(x.slaveId, n) !in e.calls
    case Create(n, id) =>
      Key(x.slaveId, n) in e.calls && e.calls[Key(x.slaveId, n)].Creating? && id !in e.rows && IsTraceable(id)
    case Deliver(n, _) => Key(x.slaveId, n) in e.calls && e.calls[Key(x.slaveId, n)].Delivering?
    case PollRead(p, _) => Key(x.slaveId, p) !in e.polls
    case PollWrite(p) => Key(x.slaveId, p) in e.polls
    case Record(_) => true
  }

  /** What the step does to its own Slave, put back among the others. */
  ghost function StepIn(e: Engine, x: Tagged): Engine {
    if CanStep(e, x) && Enabled(ViewOf(e, x.slaveId), x.step)
    then Put(e, x.slaveId, Next(ViewOf(e, x.slaveId), x.step))
    else e
  }

  /** The same for a Slave on its own. */
  ghost function StepAlone(b: Backend, step: Step): Backend {
    if Enabled(b, step) then Next(b, step) else b
  }

  /** Row ids are unique across Slaves: an id belongs to one Slave only. */
  ghost predicate RowsApart(owner: string -> string, e: Engine) {
    forall id :: id in e.rows ==> owner(id) == e.rows[id].slaveId
  }

  predicate IdApart(owner: string -> string, x: Tagged) {
    x.step.Create? ==> owner(x.step.copyId) == x.slaveId
  }

  lemma CanStepAlone(owner: string -> string, e: Engine, x: Tagged)
    requires RowsApart(owner, e) && IdApart(owner, x)
    ensures CanStep(e, x) <==> Enabled(ViewOf(e, x.slaveId), x.step)
  {
    match x.step
    case Begin(n, _, _, _) => OwnIs(e.calls, x.slaveId, n);
    case Create(n, id) =>
      OwnRowIs(e.rows, x.slaveId, id);
      OwnIs(e.calls, x.slaveId, n);
    case Deliver(n, _) => OwnIs(e.calls, x.slaveId, n);
    case PollRead(p, _) => OwnIs(e.polls, x.slaveId, p);
    case PollWrite(p) => OwnIs(e.polls, x.slaveId, p);
    case Record(_) =>
  }

  /** What a step does to the ids and rows of its Slave: nothing, or one row more. */
  lemma NextAddsAtMostOne(b: Backend, step: Step)
    requires Enabled(b, step)
    ensures var t, t' := b.table, Next(b, step).table;
            || (t'.ids == t.ids && t'.rows.Keys == t.rows.Keys)
            || (step.Create? && step.copyId !in t.rows && t'.ids == t.ids + [step.copyId]
                && t'.rows.Keys == t.rows.Keys + {step.copyId})
  {}

  lemma SameExtends(e: Engine, slaveId: string, t: Table)
    requires t.ids == OwnIds(e.ids, e.rows, slaveId) && t.rows.Keys == OwnRows(e.rows, slaveId).Keys
    ensures Extends(e, slaveId, t) && NewIds(e, slaveId, t) == []
  {}

  lemma RowExtends(e: Engine, slaveId: string, t: Table, id: string)
    requires t.ids == OwnIds(e.ids, e.rows, slaveId) + [id] && id !in e.rows
    requires t.rows.Keys == OwnRows(e.rows, slaveId).Keys + {id}
    ensures Extends(e, slaveId, t) && NewIds(e, slaveId, t) == [id]
  {}

  lemma NextExtends(e: Engine, x: Tagged)
    requires CanStep(e, x) && Enabled(ViewOf(e, x.slaveId), x.step)
    ensures Extends(e, x.slaveId, Next(ViewOf(e, x.slaveId), x.step).table)
    ensures var more := NewIds(e, x.slaveId, Next(ViewOf(e, x.slaveId), x.step).table);
            more == [] || (x.step.Create? && more == [x.step.copyId])
  {
    var b, t' := ViewOf(e, x.slaveId), Next(ViewOf(e, x.slaveId), x.step).table;
    NextAddsAtMostOne(b, x.step);
    if t'.ids == b.table.ids && t'.rows.Keys == b.table.rows.Keys {
      SameExtends(e, x.slaveId, t');
    } else {
      RowExtends(e, x.slaveId, t', x.step.copyId);
    }
  }

  /** A step does to its own Slave what it would do there alone, and to every other Slave nothing. */
  lemma StepIsLocal(owner: string -> string, e: Engine, x: Tagged, t: string)
    requires Consistent(e) && RowsApart(owner, e) && IdApart(owner, x)
    ensures ViewOf(StepIn(e, x), t) == if t == x.slaveId then StepAlone(ViewOf(e, t), x.step) else ViewOf(e, t)
  {
    CanStepAlone(owner, e, x);
    if CanStep(e, x) {
      NextExtends(e, x);
      PutIsLocal(e, x.slaveId, Next(ViewOf(e, x.slaveId), x.step), t);
    }
  }

  lemma PutStaysApart(owner: string -> string, e: Engine, slaveId: string, b: Backend)
    requires RowsApart(owner, e) && Extends(e, slaveId, b.table)
    requires forall id :: id in NewIds(e, slaveId, b.table) ==> owner(id) == slaveId
    ensures RowsApart(owner, Put(e, slaveId, b))
  {
    forall id | id in b.table.rows ensures owner(id) == slaveId {
      OwnRowIs(e.rows, slaveId, id);
      assert id in OwnRows(e.rows, slaveId).Keys || id in ToSet(NewIds(e, slaveId, b.table));
    }
  }

  lemma StepStaysApart(owner: string -> string, e: Engine, x: Tagged)
    requires Consistent(e) && RowsApart(owner, e) && IdApart(owner, x)
    ensures Consistent(StepIn(e, x)) && RowsApart(owner, StepIn(e, x))
  {
    if CanStep(e, x) && Enabled(ViewOf(e, x.slaveId), x.step) {
      NextExtends(e, x);
      PutIsConsistent(e, x.slaveId, Next(ViewOf(e, x.slaveId), x.step));
      PutStaysApart(owner, e, x.slaveId, Next(ViewOf(e, x.slaveId), x.step));
    }
  }

  /** Rows stay with their owners whenever each Slave sees no more than its own step. */
  lemma ViewsStayApart(owner: string -> string, e: Engine, e': Engine, x: Tagged)
    requires RowsApart(owner, e) && IdApart(owner, x)
    requires OnlySees(e, e', x.slaveId, StepAlone(ViewOf(e, x.slaveId), x.step))
    ensures RowsApart(owner, e')
  {
    forall id | id in e'.rows ensures owner(id) == e'.rows[id].slaveId {
      var t := e'.rows[id].slaveId;
      OwnRowIs(e'.rows, t, id);
      assert id in ViewOf(e', t).table.rows;
      if Enabled(ViewOf(e, t), x.step) { NextAddsAtMostOne(ViewOf(e, t), x.step); }
      OwnRowIs(e.rows, t, id);
    }
  }

  // ---------------------------------------------------------------- any interleaving

  ghost function RunIn(e: Engine, xs: seq<Tagged>): Engine {
    if xs == [] then e else StepIn(RunIn(e, xs[..|xs| - 1]), xs[|xs| - 1])
  }

  ghost function RunAlone(b: Backend, steps: seq<Step>): Backend {
    if steps == [] then b else StepAlone(RunAlone(b, steps[..|steps| - 1]), steps[|steps| - 1])
  }

  /** The steps of one Slave, in order. */
  function StepsOf(xs: seq<Tagged>, slaveId: string): seq<Step> {
    if xs == [] then []
    else if xs[|xs| - 1].slaveId == slaveId then StepsOf(xs[..|xs| - 1], slaveId) + [xs[|xs| - 1].step]
    else StepsOf(xs[..|xs| - 1], slaveId)
  }

  ghost predicate Apart(owner: string -> string, e: Engine, xs: seq<Tagged>) {
    Consistent(e) && RowsApart(owner, e) && forall x :: x in xs ==> IdApart(owner, x)
  }

  lemma {:induction false} RunStaysApart(owner: string -> string, e: Engine, xs: seq<Tagged>)
    requires Apart(owner, e, xs)
    ensures Consistent(RunIn(e, xs)) && RowsApart(owner, RunIn(e, xs))
  {
    if xs != [] {
      var front := xs[..|xs| - 1];
      assert forall x :: x in front ==> x in xs;
      RunStaysApart(owner, e, front);
      StepStaysApart(owner, RunIn(e, front), xs[|xs| - 1]);
    }
  }

  lemma RunAloneOneMore(b: Backend, xs: seq<Tagged>, t: string)
    requires xs != []
    ensures var before, last := RunAlone(b, StepsOf(xs[..|xs| - 1], t)), xs[|xs| - 1];
            RunAlone(b, StepsOf(xs, t)) == if last.slaveId == t then StepAlone(before, last.step) else before
  {
    var steps := StepsOf(xs[..|xs| - 1], t);
    assert (steps + [xs[|xs| - 1].step])[..|steps|] == steps;
  }

  /** Each Slave sees the steps of its own, taken alone. */
  ghost predicate AllAsAlone(e: Engine, e': Engine, xs: seq<Tagged>) {
    forall t :: ViewOf(e', t) == RunAlone(ViewOf(e, t), StepsOf(xs, t))
  }

  lemma AsAloneOneMore(e: Engine, between: Engine, e': Engine, xs: seq<Tagged>, i: nat)
    requires i < |xs| && AllAsAlone(e, between, xs[..i])
    requires OnlySees(between, e', xs[i].slaveId, StepAlone(ViewOf(between, xs[i].slaveId), xs[i].step))
    ensures AllAsAlone(e, e', xs[..i + 1])
  {
    forall t ensures ViewOf(e', t) == RunAlone(ViewOf(e, t), StepsOf(xs[..i + 1], t)) {
      assert xs[..i + 1][..i] == xs[..i];
      RunAloneOneMore(ViewOf(e, t), xs[..i + 1], t);
    }
  }

  /** However the Slaves' steps interleave, each Slave ends as if it had been alone. */
  lemma {:induction false} SlavesDoNotInterfere(owner: string -> string, e: Engine, xs: seq<Tagged>, t: string)
    requires Apart(owner, e, xs)
    ensures ViewOf(RunIn(e, xs), t) == RunAlone(ViewOf(e, t), StepsOf(xs, t))
  {
    if xs != [] {
      var front, last := xs[..|xs| - 1], xs[|xs| - 1];
      assert forall x :: x in front ==> x in xs;
      SlavesDoNotInterfere(owner, e, front, t);
      RunStaysApart(owner, e, front);
      StepIsLocal(owner, RunIn(e, front), last, t);
      RunAloneOneMore(ViewOf(e, t), xs, t);
    }
  }

  function Tag(slaveId: string, steps: seq<Step>): seq<Tagged> {
    seq(|steps|, i requires 0 <= i < |steps| => Tagged(slaveId, steps[i]))
  }

  /** The Slaves one after another, in this order. */
  function OneByOne(order: seq<string>, xs: seq<Tagged>): seq<Tagged> {
    if order == [] then []
    else OneByOne(order[..|order| - 1], xs) + Tag(order[|order| - 1], StepsOf(xs, order[|order| - 1]))
  }

  lemma {:induction false} StepsOfConcat(xs: seq<Tagged>, ys: seq<Tagged>, t: string)
    ensures StepsOf(xs + ys, t) == StepsOf(xs, t) + StepsOf(ys, t)
  {
    if ys == [] {
      assert xs + ys == xs;
    } else {
      assert (xs + ys)[..|xs + ys| - 1] == xs + ys[..|ys| - 1];
      StepsOfConcat(xs, ys[..|ys| - 1], t);
    }
  }

  lemma {:induction false} StepsOfTag(slaveId: string, steps: seq<Step>, t: string)
    ensures StepsOf(Tag(slaveId, steps), t) == if t == slaveId then steps else []
  {
    if steps != [] {
      var front := steps[..|steps| - 1];
      StepsOfTag(slaveId, front, t);
      assert Tag(slaveId, steps)[..|steps| - 1] == Tag(slaveId, front);
      assert steps == front + [steps[|steps| - 1]];
    }
  }

  lemma {:induction false} StepsOneByOne(order: seq<string>, xs: seq<Tagged>, t: string)
    requires Distinct(order)
    ensures StepsOf(OneByOne(order, xs), t) == if t in order then StepsOf(xs, t) else []
  {
    if order != [] {
      var front, last := order[..|order| - 1], order[|order| - 1];
      assert order == front + [last];
      StepsOneByOne(front, xs, t);
      StepsOfConcat(OneByOne(front, xs), Tag(last, StepsOf(xs, last)), t);
      StepsOfTag(last, StepsOf(xs, last), t);
      assert last !in front;
    }
  }

  lemma {:induction false} StepsOfOthers(xs: seq<Tagged>, t: string)
    requires forall x :: x in xs ==> x.slaveId != t
    ensures StepsOf(xs, t) == []
  {
    if xs != [] {
      assert forall x :: x in xs[..|xs| - 1] ==> x in xs;
      StepsOfOthers(xs[..|xs| - 1], t);
    }
  }

  lemma {:induction false} StepsComeFrom(xs: seq<Tagged>, t: string, step: Step)
    requires step in StepsOf(xs, t)
    ensures Tagged(t, step) in xs
  {
    var front, last := xs[..|xs| - 1], xs[|xs| - 1];
    assert xs == front + [last];
    if !(last.slaveId == t && last.step == step) { StepsComeFrom(front, t, step); }
  }

  lemma {:induction false} OneByOneComesFrom(order: seq<string>, xs: seq<Tagged>, x: Tagged)
    requires x in OneByOne(order, xs)
    ensures x in xs
  {
    var front, last := order[..|order| - 1], order[|order| - 1];
    if x in OneByOne(front, xs) {
      OneByOneComesFrom(front, xs, x);
    } else {
      assert x in Tag(last, StepsOf(xs, last));
      StepsComeFrom(xs, last, x.step);
    }
  }

  /**
   * Fan-out confluence: any interleaving of the steps of several Slaves, calls that throw among them, leaves every
   * Slave with the same rows, calls, polls and instructions as running the Slaves one after another, in any order.
   */
  lemma FanOutIsConfluent(owner: string -> string, e: Engine, xs: seq<Tagged>, order: seq<string>, t: string)
    requires Apart(owner, e, xs) && Distinct(order) && forall x :: x in xs ==> x.slaveId in order
    ensures ViewOf(RunIn(e, xs), t) == ViewOf(RunIn(e, OneByOne(order, xs)), t)
  {
    forall x | x in OneByOne(order, xs) ensures IdApart(owner, x) { OneByOneComesFrom(order, xs, x); }
    SlavesDoNotInterfere(owner, e, xs, t);
    SlavesDoNotInterfere(owner, e, OneByOne(order, xs), t);
    StepsOneByOne(order, xs, t);
    if t !in order { StepsOfOthers(xs, t); }
  }
}
