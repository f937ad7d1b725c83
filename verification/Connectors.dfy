/** Connector tokens: registration, cached authentication, heartbeats, sweep. */
module Connectors {
  import opened Common

  datatype Owner = Master(masterId: string) | Slave(slaveId: string)

  datatype Status = Connecting | Online | Offline

  /** A row of connectors, found by the hash of its token. */
  datatype Connector = Connector(
    id: string,
    masterId: Option<string>,
    slaveId: Option<string>,
    status: Status,
    lastHeartbeatAt: Option<int>)

  datatype OwnerType = MasterOwner | SlaveOwner

  datatype Authenticated = Authenticated(
    connectorId: string,
    ownerType: OwnerType,
    masterId: Option<string>,
    slaveId: Option<string>)

  /** A cached answer and the moment it expires. */
  datatype Entry = Entry(answer: Authenticated, expiresAt: int)

  const TOKEN_CACHE_TTL_SECONDS := 300

  /** A cached answer lives this long; `now` is in milliseconds throughout. */
  const TOKEN_CACHE_TTL := TOKEN_CACHE_TTL_SECONDS * 1000

  datatype State = State(connectors: map<string, Connector>, cache: map<string, Entry>)

  const EMPTY := State(map[], map[])

  /** An empty id reads as none. */
  predicate IsSet(id: Option<string>) { id.Some? && id.value != "" }

  function AnswerFor(c: Connector): Authenticated {
    Authenticated(c.id, if IsSet(c.masterId) then MasterOwner else SlaveOwner, c.masterId, c.slaveId)
  }

  /** What a lookup without any cache answers. */
  function DirectAnswer(connectors: map<string, Connector>, tokenHash: string): Option<Authenticated> {
    if tokenHash in connectors then Some(AnswerFor(connectors[tokenHash])) else None
  }

  predicate IsCached(s: State, tokenHash: string, now: int) {
    tokenHash in s.cache && now < s.cache[tokenHash].expiresAt
  }

  datatype Op =
    | Authenticate(tokenHash: string, now: int)
    | Register(owner: Owner, connectorId: string, tokenHash: string)
    | Heartbeat(connectorId: string, now: int)
    | Sweep(now: int, thresholdSeconds: int)

  function CachedAnswer(s: State, tokenHash: string, now: int): Option<Authenticated> {
    if IsCached(s, tokenHash, now) then Some(s.cache[tokenHash].answer) else DirectAnswer(s.connectors, tokenHash)
  }

  /** Hits and misses leave the cache as it is; only a connector found in the table is cached. */
  function AfterAuthenticate(s: State, tokenHash: string, now: int): State {
    if IsCached(s, tokenHash, now) || tokenHash !in s.connectors then s
    else s.(cache := s.cache[tokenHash := Entry(AnswerFor(s.connectors[tokenHash]), now + TOKEN_CACHE_TTL)])
  }

  function NewConnector(owner: Owner, id: string): Connector {
    match owner
    case Master(m) => Connector(id, Some(m), None, Connecting, None)
    case Slave(x) => Connector(id, None, Some(x), Connecting, None)
  }

  /** A second connector with the same hash violates the unique key. */
  function Registered(connectors: map<string, Connector>, owner: Owner, id: string, tokenHash: string)
    : map<string, Connector>
  {
    if tokenHash in connectors then connectors else connectors[tokenHash := NewConnector(owner, id)]
  }

  function Beaten(connectors: map<string, Connector>, id: string, now: int): map<string, Connector> {
    map h | h in connectors ::
      if connectors[h].id == id then connectors[h].(lastHeartbeatAt := Some(now), status := Online) else connectors[h]
  }

  predicate IsStale(c: Connector, now: int, thresholdSeconds: int) {
    c.status == Online && (c.lastHeartbeatAt.None? || c.lastHeartbeatAt.value < now - thresholdSeconds * 1000)
  }

  function Swept(connectors: map<string, Connector>, now: int, thresholdSeconds: int): map<string, Connector> {
    map h | h in connectors ::
      if IsStale(connectors[h], now, thresholdSeconds) then connectors[h].(status := Offline) else connectors[h]
  }

  function Apply(s: State, op: Op): State {
    match op
    case Authenticate(h, now) => AfterAuthenticate(s, h, now)
    case Register(owner, id, h) => s.(connectors := Registered(s.connectors, owner, id, h))
    case Heartbeat(id, now) => s.(connectors := Beaten(s.connectors, id, now))
    case Sweep(now, threshold) => s.(connectors := Swept(s.connectors, now, threshold))
  }

  // ---------------------------------------------------------------- the cache is invisible

  /** Whatever is cached, expired or not, is what the table would answer. */
  ghost predicate CacheAgrees(s: State) {
    forall h :: h in s.cache ==> DirectAnswer(s.connectors, h) == Some(s.cache[h].answer)
  }

  lemma ApplyKeepsAgreement(s: State, op: Op)
    requires CacheAgrees(s)
    ensures CacheAgrees(Apply(s, op))
  {
    var s' := Apply(s, op);
    forall h | h in s'.cache ensures DirectAnswer(s'.connectors, h) == Some(s'.cache[h].answer) {
      if h in s.cache { assert DirectAnswer(s.connectors, h) == Some(s.cache[h].answer); }
    }
  }

  /** The service as it runs: the answers to the authentications of a run, in order. */
  function Answers(s: State, ops: seq<Op>): seq<Option<Authenticated>>
    decreases |ops|
  {
    if ops == [] then []
    else
      (if ops[0].Authenticate? then [CachedAnswer(s, ops[0].tokenHash, ops[0].now)] else [])
      + Answers(Apply(s, ops[0]), ops[1..])
  }

  /** The same service with no cache at all. */
  function DirectAnswers(connectors: map<string, Connector>, ops: seq<Op>): seq<Option<Authenticated>>
    decreases |ops|
  {
    if ops == [] then []
    else
      (if ops[0].Authenticate? then [DirectAnswer(connectors, ops[0].tokenHash)] else [])
      + DirectAnswers(Apply(State(connectors, map[]), ops[0]).connectors, ops[1..])
  }

  lemma TableIgnoresCache(s: State, op: Op)
    ensures Apply(s, op).connectors == Apply(State(s.connectors, map[]), op).connectors
  {}

  /** Over every run, whatever the clock does to the cache, each authentication answers what a direct lookup would. */
  lemma {:induction false} CacheIsInvisible(s: State, ops: seq<Op>)
    requires CacheAgrees(s)
    ensures Answers(s, ops) == DirectAnswers(s.connectors, ops)
    decreases |ops|
  {
    if ops != [] {
      ApplyKeepsAgreement(s, ops[0]);
      TableIgnoresCache(s, ops[0]);
      CacheIsInvisible(Apply(s, ops[0]), ops[1..]);
    }
  }

  function Table(s: State, ops: seq<Op>): map<string, Connector>
    decreases |ops|
  {
    if ops == [] then s.connectors else Table(Apply(s, ops[0]), ops[1..])
  }

  /** A connector's owner never changes: its token answers the same from its registration on. */
  lemma {:induction false} OwnersNeverChange(s: State, ops: seq<Op>, tokenHash: string)
    requires tokenHash in s.connectors
    ensures DirectAnswer(Table(s, ops), tokenHash) == DirectAnswer(s.connectors, tokenHash)
    decreases |ops|
  {
    if ops != [] {
      assert AnswerFor(Apply(s, ops[0]).connectors[tokenHash]) == AnswerFor(s.connectors[tokenHash]);
      OwnersNeverChange(Apply(s, ops[0]), ops[1..], tokenHash);
    }
  }

  /** What the owner of a token is told, from its registration on. */
  predicate Owned(answer: Option<Authenticated>, owner: Owner, connectorId: string) {
    && answer.Some? && answer.value.connectorId == connectorId
    && match owner
       case Master(m) =>
         && answer.value.masterId == Some(m) && answer.value.slaveId == None
         && (answer.value.ownerType == MasterOwner <==> m != "")
       case Slave(x) =>
         answer.value.masterId == None && answer.value.slaveId == Some(x) && answer.value.ownerType == SlaveOwner
  }

  /**
   * A token registered for a Master answers as that Master, one for a Slave as that Slave, over every run that follows
   * its registration. (A Master with an empty id would answer as a Slave.)
   */
  lemma RegisteredAnswers(s: State, owner: Owner, connectorId: string, tokenHash: string, ops: seq<Op>)
    requires tokenHash !in s.connectors
    ensures var registered := Apply(s, Register(owner, connectorId, tokenHash));
            Owned(DirectAnswer(Table(registered, ops), tokenHash), owner, connectorId)
  {
    OwnersNeverChange(Apply(s, Register(owner, connectorId, tokenHash)), ops, tokenHash);
  }

  /** The connectors heard from are ONLINE as of now, and no other is touched. */
  lemma HeartbeatIsExact(connectors: map<string, Connector>, id: string, now: int, h: string)
    requires h in connectors
    ensures h in Beaten(connectors, id, now)
    ensures var before, after := connectors[h], Beaten(connectors, id, now)[h];
            if before.id == id then after.status == Online && after.lastHeartbeatAt == Some(now) else after == before
  {}

  /** ONLINE means heard from. */
  ghost predicate OnlineWasHeard(connectors: map<string, Connector>) {
    forall h :: h in connectors && connectors[h].status == Online ==> connectors[h].lastHeartbeatAt.Some?
  }

  lemma {:induction false} OnlineIsHeard(s: State, ops: seq<Op>)
    requires OnlineWasHeard(s.connectors)
    ensures OnlineWasHeard(Table(s, ops))
    decreases |ops|
  {
    if ops != [] { OnlineIsHeard(Apply(s, ops[0]), ops[1..]); }
  }

  /** After a sweep a connector is ONLINE exactly if it was and has been heard from within the threshold. */
  lemma SweepIsExact(connectors: map<string, Connector>, now: int, thresholdSeconds: int, h: string)
    requires h in connectors
    ensures var before, after := connectors[h], Swept(connectors, now, thresholdSeconds)[h];
            && (after.status == Online <==>
                  && before.status == Online && before.lastHeartbeatAt.Some?
                  && now - before.lastHeartbeatAt.value <= thresholdSeconds * 1000)
            && (after != before ==> before.status == Online && after == before.(status := Offline))
  {}

  // ---------------------------------------------------------------- the service

  class ConnectorService {
    var connectors: map<string, Connector>
    var cache: map<string, Entry>

    constructor ()
      ensures Contents() == EMPTY && CacheAgrees(Contents())
    {
      connectors, cache := map[], map[];
    }

    ghost function Contents(): State
      reads this
    {
      State(connectors, cache)
    }

    method AuthenticateConnector(tokenHash: string, now: int) returns (answer: Option<Authenticated>)
      requires CacheAgrees(Contents())
      modifies this`cache
      ensures answer == DirectAnswer(connectors, tokenHash)
      ensures Contents() == Apply(old(Contents()), Authenticate(tokenHash, now)) && CacheAgrees(Contents())
    {
      ApplyKeepsAgreement(Contents(), Authenticate(tokenHash, now));
      if tokenHash in cache && now < cache[tokenHash].expiresAt {
        return Some(cache[tokenHash].answer);
      }
      if tokenHash !in connectors { return None; }
      var result := AnswerFor(connectors[tokenHash]);
      cache := cache[tokenHash := Entry(result, now + TOKEN_CACHE_TTL)];
      return Some(result);
    }

    method RegisterConnector(owner: Owner, connectorId: string, tokenHash: string)
      requires CacheAgrees(Contents())
      modifies this`connectors
      ensures Contents() == Apply(old(Contents()), Register(owner, connectorId, tokenHash)) && CacheAgrees(Contents())
    {
      ApplyKeepsAgreement(Contents(), Register(owner, connectorId, tokenHash));
      if tokenHash !in connectors { connectors := connectors[tokenHash := NewConnector(owner, connectorId)]; }
    }

    method RecordHeartbeat(connectorId: string, now: int)
      requires CacheAgrees(Contents())
      modifies this`connectors
      ensures Contents() == Apply(old(Contents()), Heartbeat(connectorId, now)) && CacheAgrees(Contents())
    {
      ApplyKeepsAgreement(Contents(), Heartbeat(connectorId, now));
      connectors := Beaten(connectors, connectorId, now);
    }

    method SweepOfflineConnectors(now: int, thresholdSeconds: int) returns (count: nat)
      requires CacheAgrees(Contents())
      modifies this`connectors
      ensures Contents() == Apply(old(Contents()), Sweep(now, thresholdSeconds)) && CacheAgrees(Contents())
      ensures count == |set h | h in old(connectors) && IsStale(old(connectors)[h], now, thresholdSeconds)|
    {
      ApplyKeepsAgreement(Contents(), Sweep(now, thresholdSeconds));
      count := |set h | h in connectors && IsStale(connectors[h], now, thresholdSeconds)|;
      connectors := Swept(connectors, now, thresholdSeconds);
    }
  }
}
