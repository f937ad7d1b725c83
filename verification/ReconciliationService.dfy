/** A reconciliation run: fresh pairs compared, their findings replaced. */
module ReconciliationService {
  import opened Common
  import opened ReconciliationEngine
  import opened CopyOrders
  import opened Agreement
  import opened CopyEngine
  import opened CopyTable
  import AtMostOnce
  import CopyProtocol
  import SilentReports
  import SlaveRun
  import StopsAndTargets

  /** A snapshot is None when what was stored does not parse. */
  datatype MasterRecord = MasterRecord(id: string, snapshot: Option<seq<MasterPosition>>, snapshotAt: Option<int>)

  datatype SlaveRecord = SlaveRecord(
    id: string, master: MasterRecord, snapshot: Option<seq<SlavePosition>>, snapshotAt: Option<int>)

  datatype Options = Options(masterId: Option<string>, slaveId: Option<string>)

  datatype Environment = Environment(stalenessSeconds: int, volumeTolerance: real, priceTolerance: real)

  /** A row of reconciliation_findings. */
  datatype Stored = Stored(masterId: string, slaveId: string, finding: Finding)

  datatype Summary = Summary(pairsScanned: nat, pairsSkippedStale: nat, findingsCreated: nat)

  predicate IsFresh(at: Option<int>, now: int, env: Environment) {
    at.Some? && now - at.value <= env.stalenessSeconds * 1000
  }

  predicate IsScannable(s: SlaveRecord, now: int, env: Environment) {
    IsFresh(s.master.snapshotAt, now, env) && IsFresh(s.snapshotAt, now, env)
  }

  /** The where clause; an empty id does not filter. */
  predicate IsSelected(s: SlaveRecord, options: Options) {
    && (HasTicket(options.slaveId) ==> s.id == options.slaveId.value)
    && (HasTicket(options.masterId) ==> s.master.id == options.masterId.value)
  }

  function SelectedOf(slaves: seq<SlaveRecord>, options: Options): seq<SlaveRecord> {
    if slaves == [] then []
    else
      SelectedOf(slaves[..|slaves| - 1], options)
      + if IsSelected(slaves[|slaves| - 1], options) then [slaves[|slaves| - 1]] else []
  }

  predicate OfPair(f: Stored, masterId: string, slaveId: string) {
    f.masterId == masterId && f.slaveId == slaveId
  }

  /** A pair's findings in the table. */
  function FindingsOf(table: seq<Stored>, masterId: string, slaveId: string): seq<Finding> {
    if table == [] then []
    else if OfPair(table[0], masterId, slaveId) then [table[0].finding] + FindingsOf(table[1..], masterId, slaveId)
    else FindingsOf(table[1..], masterId, slaveId)
  }

  /** deleteMany where masterId and slaveId */
  function Deleted(table: seq<Stored>, masterId: string, slaveId: string): seq<Stored> {
    if table == [] then []
    else if OfPair(table[0], masterId, slaveId) then Deleted(table[1..], masterId, slaveId)
    else [table[0]] + Deleted(table[1..], masterId, slaveId)
  }

  /** The rows createMany inserts. */
  function Rows(findings: seq<Finding>, masterId: string, slaveId: string): seq<Stored> {
    seq(|findings|, i requires 0 <= i < |findings| => Stored(masterId, slaveId, findings[i]))
  }

  lemma {:induction false} FindingsOfConcat(a: seq<Stored>, b: seq<Stored>, masterId: string, slaveId: string)
    ensures FindingsOf(a + b, masterId, slaveId) == FindingsOf(a, masterId, slaveId) + FindingsOf(b, masterId, slaveId)
  {
    if a == [] {
      assert a + b == b;
    } else {
      assert (a + b)[1..] == a[1..] + b;
      FindingsOfConcat(a[1..], b, masterId, slaveId);
    }
  }

  lemma {:induction false} FindingsOfDeleted(
      table: seq<Stored>, m: string, s: string, masterId: string, slaveId: string)
    ensures FindingsOf(Deleted(table, m, s), masterId, slaveId)
         == if m == masterId && s == slaveId then [] else FindingsOf(table, masterId, slaveId)
  {
    if table != [] { FindingsOfDeleted(table[1..], m, s, masterId, slaveId); }
  }

  lemma {:induction false} FindingsOfRows(
      findings: seq<Finding>, m: string, s: string, masterId: string, slaveId: string)
    ensures FindingsOf(Rows(findings, m, s), masterId, slaveId) ==
            if m == masterId && s == slaveId then findings else []
  {
    if findings != [] {
      FindingsOfRows(findings[1..], m, s, masterId, slaveId);
      assert Rows(findings, m, s)[1..] == Rows(findings[1..], m, s);
      assert findings == [findings[0]] + findings[1..];
    }
  }

  /** Replacing a pair's findings leaves every other pair's as they were. */
  lemma ReplaceIsLocal(
      table: seq<Stored>, findings: seq<Finding>, m: string, s: string, masterId: string, slaveId: string)
    ensures FindingsOf(Deleted(table, m, s) + Rows(findings, m, s), masterId, slaveId)
         == if m == masterId && s == slaveId then findings else FindingsOf(table, masterId, slaveId)
  {
    FindingsOfConcat(Deleted(table, m, s), Rows(findings, m, s), masterId, slaveId);
    FindingsOfDeleted(table, m, s, masterId, slaveId);
    FindingsOfRows(findings, m, s, masterId, slaveId);
  }

  // ---------------------------------------------------------------- what a run amounts to

  /** What compareState is given for a pair. */
  ghost function PairInput(t: Table, s: SlaveRecord, env: Environment): Input {
    Input(s.master.snapshot.GetOr([]), OpenCopies(t), ClosedCopies(t), s.snapshot.GetOr([]), Expectations(t),
          Some(env.volumeTolerance), Some(env.priceTolerance))
  }

  ghost predicate DistinctSlaves(slaves: seq<SlaveRecord>) {
    forall i, j :: 0 <= i < j < |slaves| ==> slaves[i].id != slaves[j].id
  }

  /** A pair a run comes to: whether it is scanned, and what compareState finds for it. */
  datatype Scan = Scan(masterId: string, slaveId: string, scannable: bool, wanted: multiset<Finding>)

  ghost function ScanOf(e: Engine, s: SlaveRecord, now: int, env: Environment): Scan {
    Scan(s.master.id, s.id, IsScannable(s, now, env),
      multiset(Findings(PairInput(OwnTable(e.ids, e.rows, s.id), s, env))))
  }

  ghost function ScansOf(e: Engine, slaves: seq<SlaveRecord>, now: int, env: Environment): seq<Scan> {
    seq(|slaves|, i requires 0 <= i < |slaves| => ScanOf(e, slaves[i], now, env))
  }

  ghost predicate DistinctScans(scans: seq<Scan>) {
    forall i, j :: 0 <= i < j < |scans| ==> scans[i].slaveId != scans[j].slaveId
  }

  ghost function Scanned(scans: seq<Scan>): nat {
    if scans == [] then 0 else Scanned(scans[..|scans| - 1]) + if scans[|scans| - 1].scannable then 1 else 0
  }

  ghost function Created(scans: seq<Scan>): nat {
    if scans == [] then 0
    else Created(scans[..|scans| - 1]) + if scans[|scans| - 1].scannable then |scans[|scans| - 1].wanted| else 0
  }

  ghost predicate IsScanned(scans: seq<Scan>, masterId: string, slaveId: string) {
    exists i :: 0 <= i < |scans| && scans[i].scannable && scans[i].masterId == masterId && scans[i].slaveId == slaveId
  }

  /** The scanned pairs hold exactly their findings, all others what they held. */
  ghost predicate Replaced(scans: seq<Scan>, before: seq<Stored>, after: seq<Stored>) {
    && (forall i :: 0 <= i < |scans| && scans[i].scannable ==>
          multiset(FindingsOf(after, scans[i].masterId, scans[i].slaveId)) == scans[i].wanted)
    && (forall m, s :: !IsScanned(scans, m, s) ==> FindingsOf(after, m, s) == FindingsOf(before, m, s))
  }

  ghost predicate IsRun(scans: seq<Scan>, before: seq<Stored>, after: seq<Stored>, summary: Summary) {
    && Replaced(scans, before, after)
    && summary.pairsScanned == Scanned(scans)
    && summary.pairsScanned + summary.pairsSkippedStale == |scans|
    && summary.findingsCreated == Created(scans)
  }

  /** A rerun on the same inputs reports the same counts and leaves every pair with the same findings. */
  lemma RerunChangesNothing(scans: seq<Scan>, first: seq<Stored>, second: seq<Stored>, third: seq<Stored>,
                            s1: Summary, s2: Summary, masterId: string, slaveId: string)
    requires IsRun(scans, first, second, s1) && IsRun(scans, second, third, s2)
    ensures s1 == s2
    ensures multiset(FindingsOf(third, masterId, slaveId)) == multiset(FindingsOf(second, masterId, slaveId))
  {
    if IsScanned(scans, masterId, slaveId) {
      var i :| 0 <= i < |scans| && scans[i].scannable && scans[i].masterId == masterId && scans[i].slaveId == slaveId;
    }
  }

  /** One more pair scanned. */
  lemma ScanOneMore(scans: seq<Scan>, scan: Scan, before: seq<Stored>, table: seq<Stored>, findings: seq<Finding>)
    requires DistinctScans(scans + [scan]) && Replaced(scans, before, table)
    requires scan.scannable && multiset(findings) == scan.wanted
    ensures Replaced(
              scans + [scan], before,
              Deleted(table, scan.masterId, scan.slaveId) + Rows(findings, scan.masterId, scan.slaveId))
  {
    var longer := scans + [scan];
    var after := Deleted(table, scan.masterId, scan.slaveId) + Rows(findings, scan.masterId, scan.slaveId);
    forall i | 0 <= i < |longer| && longer[i].scannable
      ensures multiset(FindingsOf(after, longer[i].masterId, longer[i].slaveId)) == longer[i].wanted
    {
      ReplaceIsLocal(table, findings, scan.masterId, scan.slaveId, longer[i].masterId, longer[i].slaveId);
      assert i < |scans| ==> longer[i] == scans[i] && longer[i].slaveId != longer[|scans|].slaveId;
    }
    forall m, s | !IsScanned(longer, m, s) ensures FindingsOf(after, m, s) == FindingsOf(before, m, s) {
      StillNotScanned(scans, scan, m, s);
      ReplaceIsLocal(table, findings, scan.masterId, scan.slaveId, m, s);
    }
  }

  lemma StillNotScanned(scans: seq<Scan>, scan: Scan, m: string, s: string)
    requires !IsScanned(scans + [scan], m, s)
    ensures !IsScanned(scans, m, s) && !(scan.scannable && scan.masterId == m && scan.slaveId == s)
  {
    var longer := scans + [scan];
    assert longer[|scans|] == scan;
    forall i | 0 <= i < |scans| ensures !(scans[i].scannable && scans[i].masterId == m && scans[i].slaveId == s) {
      assert longer[i] == scans[i];
    }
  }

  lemma SkipOneMore(scans: seq<Scan>, scan: Scan, before: seq<Stored>, table: seq<Stored>)
    requires Replaced(scans, before, table) && !scan.scannable
    ensures Replaced(scans + [scan], before, table)
  {
    forall m, s | !IsScanned(scans + [scan], m, s) ensures !IsScanned(scans, m, s) {
      StillNotScanned(scans, scan, m, s);
    }
  }

  lemma CountOneMore(scans: seq<Scan>, scan: Scan)
    ensures Scanned(scans + [scan]) == Scanned(scans) + if scan.scannable then 1 else 0
    ensures Created(scans + [scan]) == Created(scans) + if scan.scannable then |scan.wanted| else 0
  {
    assert (scans + [scan])[..|scans|] == scans;
  }

  // ---------------------------------------------------------------- which pairs are scanned

  /** A filter that is set names one id. */
  predicate Passes(filter: Option<string>, id: string) {
    filter.None? || filter.value == "" || filter.value == id
  }

  predicate IsAskedFor(s: SlaveRecord, options: Options) {
    Passes(options.slaveId, s.id) && Passes(options.masterId, s.master.id)
  }

  /** Both snapshots were taken, and not longer ago than the staleness allows. */
  predicate BothRecent(s: SlaveRecord, now: int, env: Environment) {
    && s.master.snapshotAt.Some? && s.master.snapshotAt.value + 1000 * env.stalenessSeconds >= now
    && s.snapshotAt.Some? && s.snapshotAt.value + 1000 * env.stalenessSeconds >= now
  }

  /** The places of the Slaves that are asked for and recent, or asked for and not. */
  function Places(all: seq<SlaveRecord>, options: Options, now: int, env: Environment, recent: bool): set<nat> {
    set i: nat | i < |all| && IsAskedFor(all[i], options) && BothRecent(all[i], now, env) == recent
  }

  lemma OneMorePlace(all: seq<SlaveRecord>, s: SlaveRecord, options: Options, now: int, env: Environment, recent: bool)
    ensures var places := Places(all, options, now, env, recent);
            Places(all + [s], options, now, env, recent)
            == if IsAskedFor(s, options) && BothRecent(s, now, env) == recent then places + {|all|} else places
  {
    forall i: nat | i < |all| ensures (all + [s])[i] == all[i] {}
  }

  function FreshOnes(slaves: seq<SlaveRecord>, now: int, env: Environment): nat {
    if slaves == [] then 0
    else
      FreshOnes(slaves[..|slaves| - 1], now, env) + if IsScannable(slaves[|slaves| - 1], now, env) then 1 else 0
  }

  lemma {:induction false} FreshAreScanned(e: Engine, slaves: seq<SlaveRecord>, now: int, env: Environment)
    ensures Scanned(ScansOf(e, slaves, now, env)) == FreshOnes(slaves, now, env)
  {
    if slaves != [] {
      var front := slaves[..|slaves| - 1];
      FreshAreScanned(e, front, now, env);
      assert ScansOf(e, slaves, now, env)[..|front|] == ScansOf(e, front, now, env);
    }
  }

  lemma SelectedOneMore(front: seq<SlaveRecord>, s: SlaveRecord, options: Options, now: int, env: Environment)
    ensures var before, after := SelectedOf(front, options), SelectedOf(front + [s], options);
            if IsAskedFor(s, options) then
              && |after| == |before| + 1
              && FreshOnes(after, now, env) == FreshOnes(before, now, env) + if BothRecent(s, now, env) then 1 else 0
            else after == before
  {
    assert (front + [s])[..|front|] == front;
    assert (SelectedOf(front, options) + [s])[..|SelectedOf(front, options)|] == SelectedOf(front, options);
  }

  lemma {:induction false} FreshArePlaces(all: seq<SlaveRecord>, options: Options, now: int, env: Environment)
    ensures FreshOnes(SelectedOf(all, options), now, env) == |Places(all, options, now, env, true)|
    ensures |SelectedOf(all, options)|
         == |Places(all, options, now, env, true)| + |Places(all, options, now, env, false)|
  {
    if all != [] {
      var front, s := all[..|all| - 1], all[|all| - 1];
      assert all == front + [s];
      FreshArePlaces(front, options, now, env);
      SelectedOneMore(front, s, options, now, env);
      OneMorePlace(front, s, options, now, env, true);
      OneMorePlace(front, s, options, now, env, false);
    }
  }

  /** A run scans as many pairs as are asked for and recent, and skips as many as are asked for and not. */
  lemma PairsAreCounted(e: Engine, all: seq<SlaveRecord>, options: Options, now: int, env: Environment)
    ensures var scans := ScansOf(e, SelectedOf(all, options), now, env);
            && Scanned(scans) == |Places(all, options, now, env, true)|
            && |scans| - Scanned(scans) == |Places(all, options, now, env, false)|
  {
    FreshAreScanned(e, SelectedOf(all, options), now, env);
    FreshArePlaces(all, options, now, env);
  }

  lemma {:induction false} SelectedAre(all: seq<SlaveRecord>, options: Options, s: SlaveRecord)
    ensures s in SelectedOf(all, options) <==> s in all && IsAskedFor(s, options)
  {
    if all != [] {
      assert all == all[..|all| - 1] + [all[|all| - 1]];
      SelectedAre(all[..|all| - 1], options, s);
    }
  }

  /** These scans are of these Slaves. */
  ghost predicate ScansAreOf(scans: seq<Scan>, slaves: seq<SlaveRecord>, now: int, env: Environment) {
    && |scans| == |slaves|
    && forall i :: 0 <= i < |slaves| ==>
         && scans[i].scannable == BothRecent(slaves[i], now, env)
         && scans[i].masterId == slaves[i].master.id && scans[i].slaveId == slaves[i].id
  }

  lemma ScannedAre(scans: seq<Scan>, slaves: seq<SlaveRecord>, now: int, env: Environment, masterId: string,
                   slaveId: string)
    requires ScansAreOf(scans, slaves, now, env)
    ensures IsScanned(scans, masterId, slaveId)
            <==> exists s :: s in slaves && s.id == slaveId && s.master.id == masterId && BothRecent(s, now, env)
  {
    if i :| && 0 <= i < |scans| && scans[i].scannable && scans[i].masterId == masterId
            && scans[i].slaveId == slaveId
    {
      assert slaves[i] in slaves;
    }
    if s :| s in slaves && s.id == slaveId && s.master.id == masterId && BothRecent(s, now, env) {
      var i :| 0 <= i < |slaves| && slaves[i] == s;
      assert scans[i].scannable;
    }
  }

  /** A pair is scanned exactly if its Slave is asked for and both its snapshots are recent. */
  lemma ScannedIff(e: Engine, all: seq<SlaveRecord>, options: Options, now: int, env: Environment, masterId: string,
                   slaveId: string)
    ensures IsScanned(ScansOf(e, SelectedOf(all, options), now, env), masterId, slaveId)
            <==> exists s :: && s in all && s.id == slaveId && s.master.id == masterId
                             && IsAskedFor(s, options) && BothRecent(s, now, env)
  {
    var slaves := SelectedOf(all, options);
    assert ScansAreOf(ScansOf(e, slaves, now, env), slaves, now, env);
    ScannedAre(ScansOf(e, slaves, now, env), slaves, now, env, masterId, slaveId);
    forall s: SlaveRecord ensures s in SelectedOf(all, options) <==> s in all && IsAskedFor(s, options) {
      SelectedAre(all, options, s);
    }
  }

  /** A pair whose Slave is at the end of this run, its snapshot a heartbeat of that moment. */
  ghost predicate PairIsAt(platform: CopyProtocol.Platform, d: SlaveRun.Discipline, es: seq<SlaveRun.Event>, e: Engine,
                           s: SlaveRecord)
    requires SlaveRun.Legal(platform, d, es)
  {
    var end := SlaveRun.Final(platform, d, es);
    OwnTable(e.ids, e.rows, s.id) == end.backend.table && s.snapshot == Some(Snapshot(platform, end.book))
  }

  /**
   * End to end through a reconciliation: a pair whose Slave has settled gets nothing but MISSING_COPY exactly if no
   * late verdict matters and the prices expected of every open copy fit those handed out last.
   */
  lemma {:induction false} SettledPairIsQuietIff(platform: CopyProtocol.Platform, d: SlaveRun.Discipline,
                                                 es: seq<SlaveRun.Event>, e: Engine, s: SlaveRecord, now: int,
                                                 env: Environment)
    requires SettlesIn(platform, d, es) && PairIsAt(platform, d, es, e, s)
    requires env.volumeTolerance >= AtMostOnce.HALF_VOLUME_UNIT
    ensures (forall f :: f in ScanOf(e, s, now, env).wanted ==> f.MissingCopy?)
            <==> && NoVerdictMatters(platform, d, es)
                 && StopsAndTargets.AllPricesFit(platform, SlaveRun.Final(platform, d, es), env.priceTolerance)
  {
    var masterPositions := s.master.snapshot.GetOr([]);
    var input := PairInput(OwnTable(e.ids, e.rows, s.id), s, env);
    StopsAndTargets.ComparisonIsQuietIff(platform, d, es, masterPositions, Some(env.volumeTolerance),
                                         Some(env.priceTolerance));
    assert input
           == ComparedAtEnd(platform, d, es, masterPositions, Some(env.volumeTolerance), Some(env.priceTolerance));
    forall f ensures f in ScanOf(e, s, now, env).wanted <==> f in Findings(input) {}
  }

  /** And it gets no finding at all exactly if moreover every position of the Master's snapshot has been copied. */
  lemma {:induction false} SettledPairIsSilentIff(platform: CopyProtocol.Platform, d: SlaveRun.Discipline,
                                                  es: seq<SlaveRun.Event>, e: Engine, s: SlaveRecord, now: int,
                                                  env: Environment)
    requires SettlesIn(platform, d, es) && PairIsAt(platform, d, es, e, s)
    requires env.volumeTolerance >= AtMostOnce.HALF_VOLUME_UNIT
    ensures ScanOf(e, s, now, env).wanted == multiset{}
            <==> && NoVerdictMatters(platform, d, es)
                 && StopsAndTargets.AllPricesFit(platform, SlaveRun.Final(platform, d, es), env.priceTolerance)
                 && SilentReports.AllExecuted(OwnTable(e.ids, e.rows, s.id), s.master.snapshot.GetOr([]))
  {
    var masterPositions := s.master.snapshot.GetOr([]);
    SilentReports.SilentIff(platform, d, es, masterPositions, Some(env.volumeTolerance), Some(env.priceTolerance));
    assert PairInput(OwnTable(e.ids, e.rows, s.id), s, env)
           == ComparedAtEnd(platform, d, es, masterPositions, Some(env.volumeTolerance), Some(env.priceTolerance));
  }

  // ---------------------------------------------------------------- the run

  class Reconciliation {
    const engine: LiveEngine
    var findings: seq<Stored>

    constructor (engine: LiveEngine)
      ensures this.engine == engine && findings == []
    {
      this.engine := engine;
      findings := [];
    }

    method Select(all: seq<SlaveRecord>, options: Options) returns (slaves: seq<SlaveRecord>)
      ensures slaves == SelectedOf(all, options)
    {
      slaves := [];
      for i := 0 to |all|
        invariant slaves == SelectedOf(all[..i], options)
      {
        assert all[..i + 1][..i] == all[..i];
        if IsSelected(all[i], options) { slaves := slaves + [all[i]]; }
      }
      assert all[..|all|] == all;
    }

    /** One lookup per open copy. */
    method ExpectedSlTpOf(slaveId: string, open: seq<OpenCopy>) returns (expected: map<string, ExpectedSlTp>)
      requires engine.Valid() && open == OpenCopies(OwnTable(engine.ids, engine.rows, slaveId))
      ensures expected == Expectations(OwnTable(engine.ids, engine.rows, slaveId))
    {
      ghost var t := OwnTable(engine.ids, engine.rows, slaveId);
      expected := map[];
      for i := 0 to |open|
        invariant forall m :: m in expected <==>
                  GetExpectedSlTp(t, m).Some? && exists c :: c in open[..i] && c.masterTicket == m
        invariant forall m :: m in expected ==> GetExpectedSlTp(t, m) == Some(expected[m])
      {
        assert open[..i + 1] == open[..i] + [open[i]];
        var e := engine.FindExpectedSlTp(slaveId, open[i].masterTicket);
        if e.Some? { expected := expected[open[i].masterTicket := e.value]; }
      }
      assert open[..|open|] == open;
    }

    method ComparePair(slave: SlaveRecord, now: int, env: Environment) returns (found: seq<Finding>)
      requires engine.Valid()
      ensures multiset(found) == ScanOf(engine.Contents(), slave, now, env).wanted
    {
      var open, closed := engine.FindCopyOrderPositions(slave.id);
      var expected := ExpectedSlTpOf(slave.id, open);
      found := CompareState(Input(slave.master.snapshot.GetOr([]), open, closed, slave.snapshot.GetOr([]), expected,
                                  Some(env.volumeTolerance), Some(env.priceTolerance)));
    }

    /** One round of the loop. */
    method ReconcilePair(slave: SlaveRecord, now: int, env: Environment) returns (scanned: bool, found: seq<Finding>)
      requires engine.Valid()
      modifies this`findings
      ensures scanned == IsScannable(slave, now, env)
      ensures !scanned ==> findings == old(findings)
      ensures scanned ==>
        && multiset(found) == ScanOf(engine.Contents(), slave, now, env).wanted
        && findings == Deleted(old(findings), slave.master.id, slave.id) + Rows(found, slave.master.id, slave.id)
    {
      if !IsFresh(slave.master.snapshotAt, now, env) || !IsFresh(slave.snapshotAt, now, env) { return false, []; }
      found := ComparePair(slave, now, env);
      findings := Deleted(findings, slave.master.id, slave.id);
      findings := findings + Rows(found, slave.master.id, slave.id);
      scanned := true;
    }

    method RunReconciliation(all: seq<SlaveRecord>, options: Options, now: int, env: Environment)
      returns (summary: Summary)
      requires engine.Valid() && DistinctSlaves(SelectedOf(all, options))
      modifies this`findings
      ensures IsRun(ScansOf(engine.Contents(), SelectedOf(all, options), now, env), old(findings), findings, summary)
    {
      var slaves := Select(all, options);
      var pairsScanned, pairsSkippedStale, findingsCreated: nat := 0, 0, 0;
      ghost var scans := ScansOf(engine.Contents(), slaves, now, env);
      for i := 0 to |slaves|
        invariant Replaced(scans[..i], old(findings), findings)
        invariant pairsScanned == Scanned(scans[..i]) && pairsScanned + pairsSkippedStale == i
        invariant findingsCreated == Created(scans[..i])
      {
        ghost var table := findings;
        var scanned, found := ReconcilePair(slaves[i], now, env);
        RunOneMore(scans, i, old(findings), table, findings, scanned, found);
        if scanned {
          pairsScanned := pairsScanned + 1;
          findingsCreated := findingsCreated + |found|;
        } else {
          pairsSkippedStale := pairsSkippedStale + 1;
        }
      }
      assert scans[..|slaves|] == scans;
      summary := Summary(pairsScanned, pairsSkippedStale, findingsCreated);
    }
  }

  lemma RunOneMore(
      scans: seq<Scan>, i: nat, before: seq<Stored>, table: seq<Stored>, after: seq<Stored>, scanned: bool,
      found: seq<Finding>)
    requires i < |scans| && DistinctScans(scans) && Replaced(scans[..i], before, table) && scanned == scans[i].scannable
    requires !scanned ==> after == table
    requires scanned ==>
      && multiset(found) == scans[i].wanted
      && after == Deleted(table, scans[i].masterId, scans[i].slaveId) + Rows(found, scans[i].masterId, scans[i].slaveId)
    ensures Replaced(scans[..i + 1], before, after)
    ensures Scanned(scans[..i + 1]) == Scanned(scans[..i]) + if scanned then 1 else 0
    ensures Created(scans[..i + 1]) == Created(scans[..i]) + if scanned then |found| else 0
  {
    assert scans[..i + 1] == scans[..i] + [scans[i]];
    CountOneMore(scans[..i], scans[i]);
    if scanned {
      assert |multiset(found)| == |found|;
      ScanOneMore(scans[..i], scans[i], before, table, found);
    } else {
      SkipOneMore(scans[..i], scans[i], before, table);
    }
  }
}
