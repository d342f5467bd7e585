/**
 Completion signals: every finished download leaves one durable signal, and a dispatcher turns each
 signal into at most one reconcile event under a lease. Filing the event and settling the signal are one
 transaction, so a dispatcher that lost its lease leaves nothing behind.
 */
module CompletionSignals {
  import opened Outcomes
  import opened Int64
  import opened Ordering
  import E = AutomationEvents

  type Id = E.Id

  const LEASE_DURATION: I64 := 30_000_000
  const MAX_ATTEMPTS: nat := 10
  const RECOVERY_BATCH: nat := 1000

  datatype Status = Pending | Running | Completed | Failed

  datatype Outcome = EventCreated(event: Id) | NoMapping | DispatchFailed

  /** A row of download_completion_signals, whose key is the download task. */
  datatype Signal = Signal(
    connection: Id, version: nat, status: Status, outcome: Option<Outcome>,
    attempts: nat, leaseToken: Option<Id>, leaseExpires: Option<I64>, createdAt: I64, updatedAt: I64)
  {
    function Leased(token: Id, now: I64): Signal {
      this.(status := Running, attempts := attempts + 1, leaseToken := Some(token),
            leaseExpires := Some(SatAdd(now, LEASE_DURATION)), updatedAt := now)
    }

    function Recovered(now: I64): Signal {
      var spent := attempts >= MAX_ATTEMPTS;
      this.(status := if spent then Failed else Pending, outcome := if spent then Some(DispatchFailed) else None,
            leaseToken := None, leaseExpires := None, updatedAt := now)
    }

    function Settled(result: Outcome, now: I64): Signal {
      this.(status := Completed, outcome := Some(result), leaseToken := None, leaseExpires := None, updatedAt := now)
    }
  }

  /** A download-completion source: finished downloads of the connection reconcile the inbox. */
  datatype Mapping = Mapping(connection: Id, inbox: Id, enabled: bool)

  datatype Tables = Tables(signals: map<Id, Signal>, mappings: map<Id, Mapping>, events: E.Tables, nextToken: Id)

  datatype Lease = Lease(task: Id, connection: Id, version: nat, token: Id)

  datatype Dispatched = Dispatched(task: Id, event: Option<Id>)

  datatype Error = LeaseLost | Internal

  /** The task store records a download's first completion, and only the first. */
  function RecordTx(signals: map<Id, Signal>, task: Id, connection: Id, version: nat, now: I64): map<Id, Signal> {
    if task in signals then signals
    else signals[task := Signal(connection, version, Pending, None, 0, None, None, now, now)]
  }

  // ---- Recovering expired leases -----------------------------------------------------------------

  predicate Expired(signal: Signal, now: I64) {
    signal.status.Running? && signal.leaseExpires.Some? && signal.leaseExpires.value <= now
  }

  function ExpiredKeys(signals: map<Id, Signal>, now: I64): set<Key> {
    set task | task in signals && Expired(signals[task], now) :: Key(signals[task].leaseExpires.value, task)
  }

  function First(keys: seq<Key>, limit: nat): seq<Key> {
    if |keys| > limit then keys[..limit] else keys
  }

  function PrepareTx(db: Tables, now: I64): (Tables, nat) {
    var batch := First(Ascending(ExpiredKeys(db.signals, now)), RECOVERY_BATCH);
    var tasks := set k | k in batch :: k.minor;
    (db.(signals := map task | task in db.signals ::
           if task in tasks then db.signals[task].Recovered(now) else db.signals[task]), |batch|)
  }

  // ---- Claiming ------------------------------------------------------------------------------------

  predicate Claimable(signal: Signal) {
    signal.status.Pending? && signal.attempts < MAX_ATTEMPTS
  }

  function ClaimKeys(signals: map<Id, Signal>): set<Key> {
    set task | task in signals && Claimable(signals[task]) :: Key(signals[task].createdAt, task)
  }

  function ClaimTx(db: Tables, now: I64): (Tables, Option<Lease>) {
    var minted, keys := db.(nextToken := db.nextToken + 1), ClaimKeys(db.signals);
    if keys == {} then (minted, None)
    else
      var task := Least(keys).minor;
      var signal := db.signals[task];
      (minted.(signals := db.signals[task := signal.Leased(db.nextToken, now)]),
       Some(Lease(task, signal.connection, signal.version, db.nextToken)))
  }

  // ---- Dispatching ---------------------------------------------------------------------------------

  predicate Holds(signals: map<Id, Signal>, lease: Lease) {
    && lease.task in signals
    && signals[lease.task].status.Running?
    && signals[lease.task].leaseToken == Some(lease.token)
  }

  function EnabledKeys(mappings: map<Id, Mapping>, connection: Id): set<Key> {
    set source | source in mappings && mappings[source].enabled && mappings[source].connection == connection :: Key(source, 0)
  }

  /** Settling fails without the lease, and what the transaction wrote before is rolled back with it. */
  function SettleTx(db: Tables, tx: Tables, lease: Lease, outcome: Outcome, now: I64): (Tables, Result<Dispatched, Error>) {
    if Holds(tx.signals, lease) then
      (tx.(signals := tx.signals[lease.task := tx.signals[lease.task].Settled(outcome, now)]),
       Ok(Dispatched(lease.task, if outcome.EventCreated? then Some(outcome.event) else None)))
    else (db, Err(LeaseLost))
  }

  function DispatchTx(db: Tables, lease: Lease, now: I64): (Tables, Result<Dispatched, Error>) {
    var found := First(Ascending(EnabledKeys(db.mappings, lease.connection)), 2);
    if found == [] then SettleTx(db, db, lease, NoMapping, now)
    else if |found| != 1 then (db, Err(Internal))
    else
      var source := found[0].major;
      assert found[0] in EnabledKeys(db.mappings, lease.connection);
      var (events, event) :=
        E.InsertTx(db.events, source, E.CompletionOf(lease.task, lease.version), E.Reconcile(db.mappings[source].inbox), now);
      if event.None? then (db, Err(Internal))
      else SettleTx(db, db.(events := events), lease, EventCreated(event.value), now)
  }

  function RunOnceTx(db: Tables, now: I64): (Tables, Result<Option<Dispatched>, Error>) {
    var (claimed, lease) := ClaimTx(db, now);
    if lease.None? then (claimed, Ok(None))
    else
      var (next, r) := DispatchTx(claimed, lease.value, now);
      (next, if r.Ok? then Ok(Some(r.value)) else Err(r.error))
  }

  // ---- What recovery and claims pick -----------------------------------------------------------------

  lemma OnlyExpired(signals: map<Id, Signal>, now: I64)
    ensures forall k | k in First(Ascending(ExpiredKeys(signals, now)), RECOVERY_BATCH) ::
              k.minor in signals && Expired(signals[k.minor], now) && k == Key(signals[k.minor].leaseExpires.value, k.minor)
  {
    var keys := Ascending(ExpiredKeys(signals, now));
    forall k | k in First(keys, RECOVERY_BATCH)
      ensures k.minor in signals && Expired(signals[k.minor], now) && k == Key(signals[k.minor].leaseExpires.value, k.minor)
    {
      assert k in keys;
    }
  }

  /** The signal went back to waiting, or failed with its attempts spent, and lost its lease. */
  predicate IsRecovered(before: Signal, after: Signal) {
    && before.status.Running? && after.leaseToken.None? && after.leaseExpires.None? && after.attempts == before.attempts
    && after.connection == before.connection && after.version == before.version && after.createdAt == before.createdAt
    && (if before.attempts < MAX_ATTEMPTS then after.status.Pending? && after.outcome.None?
        else after.status.Failed? && after.outcome == Some(DispatchFailed))
  }

  /** Of two expired leases the one with the earlier deadline, then the smaller task, is recovered first. */
  ghost predicate RecoveredBefore(before: map<Id, Signal>, after: map<Id, Signal>, a: Id, b: Id)
    requires after.Keys == before.Keys && a in before && b in before
  {
    before[a].leaseExpires.Some? && before[b].leaseExpires.Some? && IsRecovered(before[a], after[a]) && after[b] == before[b] ==>
      Below(Key(before[a].leaseExpires.value, a), Key(before[b].leaseExpires.value, b))
  }

  /** Recovery picks expired leases only, the earliest deadlines first, and all of them below the limit. */
  ghost predicate RecoversInOrder(before: map<Id, Signal>, after: map<Id, Signal>, now: I64, all: bool) {
    && after.Keys == before.Keys
    && (forall task | task in before :: if after[task] == before[task] then all ==> !Expired(before[task], now)
                                        else Expired(before[task], now) && IsRecovered(before[task], after[task]))
    && (forall a, b | a in before && b in before && Expired(before[a], now) && Expired(before[b], now) ::
          RecoveredBefore(before, after, a, b))
  }

  lemma ExpiredAreListed(signals: map<Id, Signal>, now: I64, task: Id) returns (i: nat)
    requires task in signals && Expired(signals[task], now)
    ensures var keys := Ascending(ExpiredKeys(signals, now)); i < |keys| && keys[i] == Key(signals[task].leaseExpires.value, task)
  {
    var keys := Ascending(ExpiredKeys(signals, now));
    assert Key(signals[task].leaseExpires.value, task) in keys;
    i :| 0 <= i < |keys| && keys[i] == Key(signals[task].leaseExpires.value, task);
  }

  lemma BatchIsEarliest(db: Tables, now: I64, a: Id, b: Id)
    requires a in db.signals && b in db.signals && Expired(db.signals[a], now) && Expired(db.signals[b], now)
    ensures RecoveredBefore(db.signals, PrepareTx(db, now).0.signals, a, b)
  {
    OnlyExpired(db.signals, now);
    var batch := First(Ascending(ExpiredKeys(db.signals, now)), RECOVERY_BATCH);
    var i := ExpiredAreListed(db.signals, now, a);
    var j := ExpiredAreListed(db.signals, now, b);
    if j < |batch| {
      assert batch[j].minor == b && batch[j] in batch;
    }
    if i >= |batch| {
      assert PrepareTx(db, now).0.signals[a] == db.signals[a];
    }
  }

  /** Unless a thousand leases had expired at once, recovery leaves none expired; it takes the earliest deadlines first. */
  lemma RecoveryIsInOrder(db: Tables, now: I64)
    ensures var (next, recovered) := PrepareTx(db, now);
            RecoversInOrder(db.signals, next.signals, now, recovered < RECOVERY_BATCH)
  {
    OnlyExpired(db.signals, now);
    var keys := Ascending(ExpiredKeys(db.signals, now));
    forall task | task in db.signals && Expired(db.signals[task], now) && |keys| <= RECOVERY_BATCH
      ensures PrepareTx(db, now).0.signals[task] == db.signals[task].Recovered(now)
    {
      var i := ExpiredAreListed(db.signals, now, task);
      assert keys[i] in First(keys, RECOVERY_BATCH);
    }
    forall a, b | a in db.signals && b in db.signals && Expired(db.signals[a], now) && Expired(db.signals[b], now)
      ensures RecoveredBefore(db.signals, PrepareTx(db, now).0.signals, a, b)
    {
      BatchIsEarliest(db, now, a, b);
    }
  }

  /** The lease is for the oldest waiting signal, ties broken by task, and there is one whenever a signal waits. */
  ghost predicate LeasesOldest(signals: map<Id, Signal>, lease: Option<Lease>) {
    if lease.Some? then
      && lease.value.task in signals && Claimable(signals[lease.value.task])
      && forall task | task in signals && Claimable(signals[task]) && task != lease.value.task ::
           Below(Key(signals[lease.value.task].createdAt, lease.value.task), Key(signals[task].createdAt, task))
    else forall task | task in signals :: !Claimable(signals[task])
  }

  lemma ClaimTakesOldest(db: Tables, now: I64)
    ensures LeasesOldest(db.signals, ClaimTx(db, now).1)
  {
    var keys := ClaimKeys(db.signals);
    forall task | task in db.signals && Claimable(db.signals[task])
      ensures Key(db.signals[task].createdAt, task) in keys
    {
    }
  }

  // ---- The dispatcher ------------------------------------------------------------------------------

  class DownloadCompletionDispatcher {
    var db: Tables

    constructor (db: Tables)
      ensures this.db == db
    {
      this.db := db;
    }

    method Prepare(now: I64) returns (recovered: nat)
      modifies this
      ensures (db, recovered) == PrepareTx(old(db), now)
      ensures RecoversInOrder(old(db.signals), db.signals, now, recovered < RECOVERY_BATCH)
    {
      RecoveryIsInOrder(db, now);
      var batch := First(Ascending(ExpiredKeys(db.signals, now)), RECOVERY_BATCH);
      var tasks := set k | k in batch :: k.minor;
      db := db.(signals := map task | task in db.signals ::
                  if task in tasks then db.signals[task].Recovered(now) else db.signals[task]);
      recovered := |batch|;
    }

    method ClaimOne(now: I64) returns (lease: Option<Lease>)
      modifies this
      ensures (db, lease) == ClaimTx(old(db), now)
      ensures LeasesOldest(old(db.signals), lease)
      ensures lease.Some? ==> Holds(db.signals, lease.value) && db.signals[lease.value.task].attempts == old(db.signals)[lease.value.task].attempts + 1
    {
      ClaimTakesOldest(db, now);
      var token, keys := db.nextToken, ClaimKeys(db.signals);
      db := db.(nextToken := token + 1);
      if keys == {} {
        return None;
      }
      var task := Least(keys).minor;
      var signal := db.signals[task];
      db := db.(signals := db.signals[task := signal.Leased(token, now)]);
      lease := Some(Lease(task, signal.connection, signal.version, token));
    }

    /** The update at the end of a dispatch; it must hit exactly one row. */
    method CompleteSignal(tx: Tables, lease: Lease, outcome: Outcome, now: I64) returns (hit: bool, next: Tables)
      ensures hit <==> Holds(tx.signals, lease)
      ensures next == if hit then tx.(signals := tx.signals[lease.task := tx.signals[lease.task].Settled(outcome, now)]) else tx
    {
      if lease.task !in tx.signals {
        return false, tx;
      }
      var signal := tx.signals[lease.task];
      hit := signal.status.Running? && signal.leaseToken == Some(lease.token);
      next := if hit then tx.(signals := tx.signals[lease.task := signal.Settled(outcome, now)]) else tx;
    }

    /** One transaction on a copy of the tables, put in place on commit. */
    method Dispatch(lease: Lease, now: I64) returns (r: Result<Dispatched, Error>)
      modifies this
      ensures (db, r) == DispatchTx(old(db), lease, now)
    {
      var found := First(Ascending(EnabledKeys(db.mappings, lease.connection)), 2);
      var tx, outcome := db, NoMapping;
      if found != [] {
        if |found| != 1 {
          return Err(Internal);
        }
        var source := found[0].major;
        assert found[0] in EnabledKeys(db.mappings, lease.connection);
        var (events, event) :=
          E.InsertTx(tx.events, source, E.CompletionOf(lease.task, lease.version), E.Reconcile(db.mappings[source].inbox), now);
        if event.None? {
          return Err(Internal);
        }
        tx, outcome := tx.(events := events), EventCreated(event.value);
      }
      var hit;
      hit, tx := CompleteSignal(tx, lease, outcome, now);
      if !hit {
        return Err(LeaseLost);
      }
      db := tx;
      r := Ok(Dispatched(lease.task, if outcome.EventCreated? then Some(outcome.event) else None));
    }

    method RunOnce(now: I64) returns (r: Result<Option<Dispatched>, Error>)
      modifies this
      ensures (db, r) == RunOnceTx(old(db), now)
    {
      var lease := ClaimOne(now);
      if lease.None? {
        return Ok(None);
      }
      var dispatched := Dispatch(lease.value, now);
      r := if dispatched.Ok? then Ok(Some(dispatched.value)) else Err(dispatched.error);
    }
  }

  // ---- The life of a signal ------------------------------------------------------------------------

  ghost predicate SignalOk(signal: Signal, nextToken: Id) {
    && (signal.status.Running? <==> signal.leaseToken.Some?)
    && (signal.leaseToken.Some? <==> signal.leaseExpires.Some?)
    && (signal.leaseToken.Some? ==> signal.leaseToken.value < nextToken && signal.attempts >= 1)
    && (signal.outcome.Some? <==> signal.status.Completed? || signal.status.Failed?)
    && (signal.outcome == Some(DispatchFailed) <==> signal.status.Failed?)
    && (signal.status.Pending? ==> signal.attempts < MAX_ATTEMPTS)
    && (signal.status.Failed? ==> signal.attempts == MAX_ATTEMPTS)
    && signal.attempts <= MAX_ATTEMPTS
  }

  ghost predicate SignalsOk(signals: map<Id, Signal>, nextToken: Id) {
    forall task | task in signals :: SignalOk(signals[task], nextToken)
  }

  ghost predicate SignalFollows(before: Signal, after: Signal, leased: bool, settled: bool, token: Id) {
    && after.connection == before.connection && after.version == before.version
    && after.attempts == (if leased then before.attempts + 1 else before.attempts)
    && (leased ==> before.status.Pending? && after.status.Running? && after.leaseToken == Some(token))
    && (settled ==> before.status.Running? && after.status.Completed?)
    && (after.status.Running? && !leased ==> after == before)
    && (after.status.Completed? && !settled ==> after == before)
    && (before.status.Completed? || before.status.Failed? ==> after == before)
  }

  /** What one step does to the signals: none disappears, new ones are pending, the rest follow their life. */
  ghost predicate SignalsFollow(before: map<Id, Signal>, after: map<Id, Signal>, leased: Option<Id>, settled: Option<Id>,
                                token: Id, nextToken: Id) {
    && token <= nextToken && SignalsOk(after, nextToken)
    && (forall task | task in before ::
          task in after && SignalFollows(before[task], after[task], leased == Some(task), settled == Some(task), token))
    && (forall task | task in after && task !in before :: after[task].status.Pending? && after[task].attempts == 0)
    && (leased.Some? ==> leased.value in before) && (settled.Some? ==> settled.value in before)
  }

  lemma RecordFollows(signals: map<Id, Signal>, task: Id, connection: Id, version: nat, now: I64, token: Id)
    requires SignalsOk(signals, token)
    ensures SignalsFollow(signals, RecordTx(signals, task, connection, version, now), None, None, token, token)
  {
  }

  lemma PrepareFollows(db: Tables, now: I64)
    requires SignalsOk(db.signals, db.nextToken)
    ensures SignalsFollow(db.signals, PrepareTx(db, now).0.signals, None, None, db.nextToken, db.nextToken)
  {
    OnlyExpired(db.signals, now);
  }

  /** The lease handed out is the one the row carries, and its signal was waiting. */
  lemma ClaimFollows(db: Tables, now: I64)
    requires SignalsOk(db.signals, db.nextToken)
    ensures var (next, lease) := ClaimTx(db, now);
            var leased := if lease.Some? then Some(lease.value.task) else None;
            && SignalsFollow(db.signals, next.signals, leased, None, db.nextToken, next.nextToken)
            && (lease.Some? ==> Holds(next.signals, lease.value))
  {
  }

  lemma SettleFollows(signals: map<Id, Signal>, lease: Lease, outcome: Outcome, now: I64, token: Id)
    requires SignalsOk(signals, token) && Holds(signals, lease) && !outcome.DispatchFailed?
    ensures SignalsFollow(signals, signals[lease.task := signals[lease.task].Settled(outcome, now)], None, Some(lease.task), token, token)
  {
  }
}
