/**
 The durable automation event store: six statuses, lease tokens, attempt budgets, an outbox record for
 every transition and idempotent commands.

 Each transaction is specified as a function from the tables before to the tables after and the
 answer; the class below performs it in place. Whole runs of these transactions are in AutomationRuns.
 */
module AutomationEvents {
  import opened Outcomes
  import opened Int64
  import opened Ordering
  import opened Texts

  type Id = nat

  const MAX_ATTEMPTS: nat := 10
  const CLAIM_ROUNDS: nat := 100
  const RECLAIM_BATCH: nat := 1000

  /** What a dedup digest is taken of: what the sender supplied, or a finished download and its version. */
  datatype DedupKey = Supplied(digest: Id) | CompletionOf(task: Id, version: nat)

  datatype Action = CreateDownload | ReconcileInbox

  datatype Status = Pending | Running | RetryWait | Completed | Failed | Cancelled

  datatype FailureCode =
    | PayloadInvalid
    | DownstreamConflict
    | NotConfigured
    | Unauthorized
    | RateLimited
    | Unavailable

  datatype Payload =
    | Download(connection: Id, link: string, name: string)
    | Reconcile(inbox: Id)
  {
    function Action(): Action {
      if Download? then CreateDownload else ReconcileInbox
    }
  }

  datatype DownstreamKind = DownloadTask | ReconcileRequest

  datatype Downstream = Downstream(kind: DownstreamKind, id: Id, resultCount: nat)

  /** A row of automation_events. `request` stands for the payload and its digest, fixed at insertion. */
  datatype Event = Event(
    source: Id, dedup: DedupKey, action: Action, request: Payload,
    status: Status, downstream: Option<Downstream>, failure: Option<FailureCode>,
    attempts: nat, retryAt: Option<I64>, leaseToken: Option<Id>, leaseExpires: Option<I64>,
    version: nat, createdAt: I64, updatedAt: I64)
  {
    function Leased(token: Id, expires: I64, now: I64): Event {
      this.(status := Running, attempts := attempts + 1, retryAt := None,
            leaseToken := Some(token), leaseExpires := Some(expires), updatedAt := now)
    }

    /** The payload no longer opens, or no longer agrees with the action. */
    function Unreadable(now: I64): Event {
      this.(status := Failed, attempts := attempts + 1, failure := Some(PayloadInvalid), retryAt := None,
            leaseToken := None, leaseExpires := None, updatedAt := now)
    }

    function Finished(result: Downstream, now: I64): Event {
      this.(status := Completed, downstream := Some(result), failure := None,
            leaseToken := None, leaseExpires := None, updatedAt := now)
    }

    function Failing(code: FailureCode, retry: Option<I64>, now: I64): Event {
      this.(status := if retry.Some? then RetryWait else Failed, failure := Some(code), retryAt := retry,
            leaseToken := None, leaseExpires := None, updatedAt := now)
    }

    function Abandoned(now: I64): Event {
      Failing(Unavailable, if attempts >= MAX_ATTEMPTS then None else Some(now), now)
    }

    function Withdrawn(now: I64): Event {
      this.(status := Cancelled, retryAt := None, leaseToken := None, leaseExpires := None, updatedAt := now)
    }

    function Renewed(now: I64): Event {
      this.(status := Pending, attempts := 0, retryAt := None, failure := None, updatedAt := now)
    }
  }

  datatype Operation = Cancel | Retry

  datatype Receipt = Receipt(operation: Operation, version: nat)

  datatype CommandKey = CommandKey(event: Id, key: string)

  /** An automation-event-changed outbox record. */
  datatype Change = Change(event: Id, version: nat, status: Status, action: Action, failure: Option<FailureCode>)

  datatype Tables = Tables(
    events: map<Id, Event>, outbox: seq<Change>, receipts: map<CommandKey, Receipt>, nextId: Id)

  datatype Lease = Lease(id: Id, payload: Payload, attempt: nat, token: Id)

  datatype Round = NothingDue | Rejected(id: Id) | Claimed(lease: Lease)

  datatype Error = Validation | LeaseLost | Conflict | InvalidState | NotFound

  function ChangeOf(id: Id, row: Event): Change {
    Change(id, row.version, row.status, row.action, row.failure)
  }

  /** Every UPDATE raises projection_version by one and writes the row it leaves to the outbox. */
  function Publish(db: Tables, id: Id, row: Event): Tables
    requires id in db.events
  {
    var next := row.(version := db.events[id].version + 1);
    db.(events := db.events[id := next], outbox := db.outbox + [ChangeOf(id, next)])
  }

  // ---- Claiming --------------------------------------------------------------------------------

  predicate Due(row: Event, now: I64) {
    && row.attempts < MAX_ATTEMPTS
    && (row.status.Pending? || (row.status.RetryWait? && row.retryAt.Some? && row.retryAt.value <= now))
  }

  function DueKeys(events: map<Id, Event>, now: I64): set<Key> {
    set id | id in events && Due(events[id], now) :: Key(events[id].createdAt, id)
  }

  /** The oldest due event, ties broken by id. */
  function FirstDue(events: map<Id, Event>, now: I64): (r: Option<Id>)
    ensures r.None? ==> forall id | id in events :: !Due(events[id], now)
    ensures r.Some? ==> r.value in events && Due(events[r.value], now)
    ensures r.Some? ==> forall id | id in events && Due(events[id], now) && id != r.value ::
                          Below(Key(events[r.value].createdAt, r.value), Key(events[id].createdAt, id))
  {
    var keys := DueKeys(events, now);
    if keys == {} then
      assert forall id | id in events && Due(events[id], now) :: Key(events[id].createdAt, id) in keys;
      None
    else
      var k := Least(keys);
      assert forall id | id in events && Due(events[id], now) :: Key(events[id].createdAt, id) in keys;
      Some(k.minor)
  }

  function LeaseOf(id: Id, row: Event, token: Id): Lease {
    Lease(id, row.request, row.attempts + 1, token)
  }

  /** One round of claiming is one transaction. `unreadable` are the events whose payload does not open now. */
  function ClaimRoundTx(db: Tables, token: Id, expires: I64, now: I64, unreadable: set<Id>): (Tables, Round) {
    match FirstDue(db.events, now)
    case None => (db, NothingDue)
    case Some(id) =>
      var row := db.events[id];
      if id in unreadable then
        (Publish(db, id, row.Unreadable(now)), Rejected(id))
      else
        (Publish(db, id, row.Leased(token, expires, now)), Claimed(LeaseOf(id, row, token)))
  }

  /** A lease that is handed out is the one its row carries. */
  function ClaimRoundsTx(db: Tables, token: Id, expires: I64, now: I64, unreadable: set<Id>, rounds: nat)
    : (r: (Tables, Option<Lease>))
    ensures r.1.Some? ==> Holds(r.0, r.1.value) && r.1.value.attempt == r.0.events[r.1.value.id].attempts
    decreases rounds
  {
    if rounds == 0 then (db, None) else
      var (next, round) := ClaimRoundTx(db, token, expires, now, unreadable);
      match round
      case NothingDue => (next, None)
      case Claimed(lease) => (next, Some(lease))
      case Rejected(_) => ClaimRoundsTx(next, token, expires, now, unreadable, rounds - 1)
  }

  function ClaimOneTx(db: Tables, now: I64, duration: I64, unreadable: set<Id>)
    : (Tables, Result<Option<Lease>, Error>)
  {
    if duration <= 0 then (db, Err(Validation)) else
      var minted := db.(nextId := db.nextId + 1);
      if now + duration > MAX then (minted, Err(Validation)) else
        var (next, lease) := ClaimRoundsTx(minted, db.nextId, now + duration, now, unreadable, CLAIM_ROUNDS);
        (next, Ok(lease))
  }

  // ---- Reporting -------------------------------------------------------------------------------

  /** The row still carries this very lease. Its deadline is not consulted. */
  predicate Holds(db: Tables, lease: Lease) {
    && lease.id in db.events
    && db.events[lease.id].status.Running?
    && db.events[lease.id].leaseToken == Some(lease.token)
  }

  function CompleteTx(db: Tables, lease: Lease, result: Downstream, now: I64): (Tables, Result<(), Error>) {
    if Holds(db, lease) then (Publish(db, lease.id, db.events[lease.id].Finished(result, now)), Ok(()))
    else (db, Err(LeaseLost))
  }

  /** Two to the power of `n`. */
  function Pow2(n: nat): nat {
    if n == 0 then 1 else 2 * Pow2(n - 1)
  }

  /** One second, doubled for every attempt after the first. */
  function Backoff(attempt: nat): I64 {
    var exponent := if attempt == 0 then 0 else if attempt - 1 > 10 then 10 else attempt - 1;
    SatMul(1_000_000, Clamp(Pow2(exponent)))
  }

  function RetryAt(lease: Lease, recoverable: bool, now: I64): Option<I64> {
    if recoverable && lease.attempt < MAX_ATTEMPTS then Some(SatAdd(now, Backoff(lease.attempt))) else None
  }

  function FailTx(db: Tables, lease: Lease, code: FailureCode, recoverable: bool, now: I64)
    : (Tables, Result<(), Error>)
  {
    if Holds(db, lease) then
      (Publish(db, lease.id, db.events[lease.id].Failing(code, RetryAt(lease, recoverable, now), now)), Ok(()))
    else (db, Err(LeaseLost))
  }

  // ---- Reclaiming expired leases ---------------------------------------------------------------

  predicate Expired(row: Event, now: I64) {
    row.status.Running? && row.leaseExpires.Some? && row.leaseExpires.value <= now
  }

  function ExpiredKeys(events: map<Id, Event>, now: I64): set<Key> {
    set id | id in events && Expired(events[id], now) :: Key(events[id].leaseExpires.value, id)
  }

  ghost predicate KeysOf(keys: seq<Key>, events: map<Id, Event>, now: I64) {
    && Increasing(keys)
    && forall i | 0 <= i < |keys| ::
         && keys[i].minor in events
         && Expired(events[keys[i].minor], now)
         && keys[i].major == events[keys[i].minor].leaseExpires.value
  }

  /** At most a thousand expired leases, earliest deadline first. */
  function ExpiredBatch(events: map<Id, Event>, now: I64): (ids: seq<Id>)
    ensures forall id | id in ids :: id in events && Expired(events[id], now)
    ensures forall i, j | 0 <= i < j < |ids| :: ids[i] != ids[j]
    ensures |ids| <= RECLAIM_BATCH
    ensures |ids| < RECLAIM_BATCH ==> forall id | id in events && Expired(events[id], now) :: id in ids
  {
    var keys := Ascending(ExpiredKeys(events, now));
    KeysMatch(events, now);
    BatchIsComplete(events, now);
    IdsOf(if |keys| < RECLAIM_BATCH then keys else keys[..RECLAIM_BATCH], events, now)
  }

  function IdsOf(keys: seq<Key>, events: map<Id, Event>, now: I64): (ids: seq<Id>)
    requires KeysOf(keys, events, now)
    ensures |ids| == |keys| && forall i | 0 <= i < |ids| :: ids[i] == keys[i].minor
    ensures forall id | id in ids :: id in events && Expired(events[id], now)
    ensures forall i, j | 0 <= i < j < |ids| :: ids[i] != ids[j]
  {
    seq(|keys|, i requires 0 <= i < |keys| => keys[i].minor)
  }

  lemma KeysMatch(events: map<Id, Event>, now: I64)
    ensures KeysOf(Ascending(ExpiredKeys(events, now)), events, now)
  {
    var keys := Ascending(ExpiredKeys(events, now));
    forall i | 0 <= i < |keys|
      ensures && keys[i].minor in events
              && Expired(events[keys[i].minor], now)
              && keys[i].major == events[keys[i].minor].leaseExpires.value
    {
      assert keys[i] in keys;
    }
  }

  lemma BatchIsComplete(events: map<Id, Event>, now: I64)
    requires KeysOf(Ascending(ExpiredKeys(events, now)), events, now)
    ensures forall id | id in events && Expired(events[id], now) ::
              id in IdsOf(Ascending(ExpiredKeys(events, now)), events, now)
  {
    var keys := Ascending(ExpiredKeys(events, now));
    forall id | id in events && Expired(events[id], now)
      ensures id in IdsOf(keys, events, now)
    {
      var k := Key(events[id].leaseExpires.value, id);
      assert k in keys;
      var i :| 0 <= i < |keys| && keys[i] == k;
      assert IdsOf(keys, events, now)[i] == id;
    }
  }

  function ReclaimTx(db: Tables, ids: seq<Id>, now: I64): (r: Tables)
    requires forall id | id in ids :: id in db.events
    ensures r.events.Keys == db.events.Keys
  {
    if ids == [] then db else
      var before := ReclaimTx(db, ids[..|ids| - 1], now);
      var id := ids[|ids| - 1];
      Publish(before, id, before.events[id].Abandoned(now))
  }

  /** Reclaiming one more row leaves the rows of the rest of the batch alone. */
  lemma ReclaimNext(db: Tables, ids: seq<Id>, i: nat, now: I64)
    requires forall id | id in ids :: id in db.events
    requires forall j, k | 0 <= j < k < |ids| :: ids[j] != ids[k]
    requires i < |ids|
    ensures forall id | id in ids[..i] :: id in db.events
    ensures forall id | id in ids[..i + 1] :: id in db.events
    ensures var before := ReclaimTx(db, ids[..i], now);
            && ids[i] in before.events
            && before.events[ids[i]] == db.events[ids[i]]
            && ReclaimTx(db, ids[..i + 1], now) == Publish(before, ids[i], before.events[ids[i]].Abandoned(now))
  {
    assert ids[..i + 1][..i] == ids[..i];
    ReclaimRows(db, ids[..i], now);
  }

  /** Reclaiming rewrites exactly the rows of the batch, each once. */
  lemma {:induction false} ReclaimRows(db: Tables, ids: seq<Id>, now: I64)
    requires forall id | id in ids :: id in db.events
    requires forall j, k | 0 <= j < k < |ids| :: ids[j] != ids[k]
    ensures forall id | id in db.events ::
              ReclaimTx(db, ids, now).events[id] ==
              if id in ids then db.events[id].Abandoned(now).(version := db.events[id].version + 1) else db.events[id]
  {
    if ids != [] {
      var n := |ids| - 1;
      ReclaimRows(db, ids[..n], now);
      assert ids == ids[..n] + [ids[n]];
      assert ids[n] !in ids[..n];
    }
  }

  function ReclaimExpiredTx(db: Tables, now: I64): (Tables, nat) {
    var ids := ExpiredBatch(db.events, now);
    (ReclaimTx(db, ids, now), |ids|)
  }

  // ---- Commands --------------------------------------------------------------------------------

  predicate Allowed(row: Event, operation: Operation) {
    match operation
    case Cancel => row.downstream.None? && (row.status.Pending? || row.status.RetryWait?)
    case Retry => row.status.Failed?
  }

  function Commanded(row: Event, operation: Operation, now: I64): Event {
    match operation
    case Cancel => row.Withdrawn(now)
    case Retry => row.Renewed(now)
  }

  /** An unknown event answers InvalidState: the UPDATE affects no row. */
  function CommandTx(db: Tables, id: Id, operation: Operation, key: string, now: I64)
    : (Tables, Result<Event, Error>)
  {
    var receipt := CommandKey(id, key);
    if !ValidKey(key) then (db, Err(Validation))
    else if receipt in db.receipts then
      if db.receipts[receipt].operation != operation then (db, Err(Conflict))
      else if id in db.events then (db, Ok(db.events[id]))
      else (db, Err(NotFound))
    else if id in db.events && Allowed(db.events[id], operation) then
      var next := Publish(db, id, Commanded(db.events[id], operation, now));
      (next.(receipts := db.receipts[receipt := Receipt(operation, next.events[id].version)]), Ok(next.events[id]))
    else (db, Err(InvalidState))
  }

  // ---- Insertion -------------------------------------------------------------------------------

  predicate Occupied(db: Tables, source: Id, dedup: DedupKey) {
    exists id :: id in db.events && db.events[id].source == source && db.events[id].dedup == dedup
  }

  function NewEvent(source: Id, dedup: DedupKey, payload: Payload, now: I64): Event {
    Event(source, dedup, payload.Action(), payload, Pending, None, None, 0, None, None, None, 1, now, now)
  }

  /** A fresh event, unless the source already used this dedup key (the UNIQUE constraint). */
  function InsertTx(db: Tables, source: Id, dedup: DedupKey, payload: Payload, now: I64): (Tables, Option<Id>) {
    if Occupied(db, source, dedup) then (db, None) else
      var id := db.nextId;
      var row := NewEvent(source, dedup, payload, now);
      (Tables(db.events[id := row], db.outbox + [ChangeOf(id, row)], db.receipts, id + 1), Some(id))
  }

  // ---- The store -------------------------------------------------------------------------------

  class AutomationEventStore {
    var events: map<Id, Event>
    var outbox: seq<Change>
    var receipts: map<CommandKey, Receipt>
    var nextId: Id

    ghost function Contents(): Tables
      reads this
    {
      Tables(events, outbox, receipts, nextId)
    }

    constructor ()
      ensures Contents() == Tables(map[], [], map[], 0)
    {
      events, outbox, receipts, nextId := map[], [], map[], 0;
    }

    method NewId() returns (id: Id)
      modifies this`nextId
      ensures id == old(nextId) && nextId == id + 1
    {
      id := nextId;
      nextId := nextId + 1;
    }

    method WriteEvent(id: Id)
      requires id in events
      modifies this`outbox
      ensures outbox == old(outbox) + [ChangeOf(id, events[id])]
    {
      var row := events[id];
      outbox := outbox + [Change(id, row.version, row.status, row.action, row.failure)];
    }

    method ClaimRound(token: Id, expires: I64, now: I64, unreadable: set<Id>) returns (round: Round)
      modifies this
      ensures (Contents(), round) == ClaimRoundTx(old(Contents()), token, expires, now, unreadable)
    {
      var first := FirstDue(events, now);
      if first.None? {
        return NothingDue;
      }
      var id := first.value;
      var row := events[id];
      if id in unreadable {
        events := events[id := row.(
          status := Failed, attempts := row.attempts + 1, failure := Some(PayloadInvalid), retryAt := None,
          leaseToken := None, leaseExpires := None, version := row.version + 1, updatedAt := now)];
        WriteEvent(id);
        return Rejected(id);
      }
      events := events[id := row.(
        status := Running, attempts := row.attempts + 1, retryAt := None, leaseToken := Some(token),
        leaseExpires := Some(expires), version := row.version + 1, updatedAt := now)];
      WriteEvent(id);
      round := Claimed(Lease(id, row.request, row.attempts + 1, token));
    }

    /** Round after round in transactions of their own, until one finds a readable event or none is due. */
    method ClaimRounds(token: Id, expires: I64, now: I64, unreadable: set<Id>, rounds: nat) returns (r: Option<Lease>)
      modifies this
      ensures (Contents(), r) == ClaimRoundsTx(old(Contents()), token, expires, now, unreadable, rounds)
    {
      for round := 0 to rounds
        invariant ClaimRoundsTx(Contents(), token, expires, now, unreadable, rounds - round)
               == ClaimRoundsTx(old(Contents()), token, expires, now, unreadable, rounds)
      {
        var outcome := ClaimRound(token, expires, now, unreadable);
        match outcome {
          case NothingDue => return None;
          case Claimed(lease) => return Some(lease);
          case Rejected(_) =>
        }
      }
      r := None;
    }

    method ClaimOne(now: I64, duration: I64, unreadable: set<Id>) returns (r: Result<Option<Lease>, Error>)
      modifies this
      ensures (Contents(), r) == ClaimOneTx(old(Contents()), now, duration, unreadable)
    {
      if duration <= 0 {
        return Err(Validation);
      }
      var token := NewId();
      if now + duration > MAX {
        return Err(Validation);
      }
      var lease := ClaimRounds(token, now + duration, now, unreadable, CLAIM_ROUNDS);
      r := Ok(lease);
    }

    method Complete(lease: Lease, result: Downstream, now: I64) returns (r: Result<(), Error>)
      modifies this`events, this`outbox
      ensures (Contents(), r) == CompleteTx(old(Contents()), lease, result, now)
    {
      if lease.id !in events {
        return Err(LeaseLost);
      }
      var row := events[lease.id];
      if !row.status.Running? || row.leaseToken != Some(lease.token) {
        return Err(LeaseLost);
      }
      events := events[lease.id := row.(
        status := Completed, downstream := Some(result), failure := None, leaseToken := None,
        leaseExpires := None, version := row.version + 1, updatedAt := now)];
      WriteEvent(lease.id);
      return Ok(());
    }

    method Fail(lease: Lease, code: FailureCode, recoverable: bool, now: I64) returns (r: Result<(), Error>)
      modifies this`events, this`outbox
      ensures (Contents(), r) == FailTx(old(Contents()), lease, code, recoverable, now)
    {
      var retry := recoverable && lease.attempt < MAX_ATTEMPTS;
      var status := if retry then RetryWait else Failed;
      var retryAt := if retry then Some(SatAdd(now, Backoff(lease.attempt))) else None;
      if lease.id !in events {
        return Err(LeaseLost);
      }
      var row := events[lease.id];
      if !row.status.Running? || row.leaseToken != Some(lease.token) {
        return Err(LeaseLost);
      }
      events := events[lease.id := row.(
        status := status, failure := Some(code), retryAt := retryAt, leaseToken := None,
        leaseExpires := None, version := row.version + 1, updatedAt := now)];
      WriteEvent(lease.id);
      return Ok(());
    }

    method ReclaimRow(id: Id, now: I64)
      requires id in events
      modifies this`events, this`outbox
      ensures Expired(old(events)[id], now) ==>
                Contents() == Publish(old(Contents()), id, old(events)[id].Abandoned(now))
    {
      var row := events[id];
      if row.status.Running? && row.leaseExpires.Some? && row.leaseExpires.value <= now {
        var exhausted := row.attempts >= MAX_ATTEMPTS;
        events := events[id := row.(
          status := if exhausted then Failed else RetryWait, failure := Some(Unavailable),
          retryAt := if exhausted then None else Some(now), leaseToken := None,
          leaseExpires := None, version := row.version + 1, updatedAt := now)];
      }
      WriteEvent(id);
    }

    method ReclaimExpired(now: I64) returns (reclaimed: nat)
      modifies this`events, this`outbox
      ensures (Contents(), reclaimed) == ReclaimExpiredTx(old(Contents()), now)
    {
      var ids := ExpiredBatch(events, now);
      ghost var before := Contents();
      for i := 0 to |ids|
        invariant forall id | id in ids[..i] :: id in before.events
        invariant Contents() == ReclaimTx(before, ids[..i], now)
      {
        ReclaimNext(before, ids, i, now);
        ReclaimRow(ids[i], now);
      }
      assert ids[..|ids|] == ids;
      return |ids|;
    }

    method Command(id: Id, operation: Operation, key: string, now: I64) returns (r: Result<Event, Error>)
      modifies this`events, this`outbox, this`receipts
      ensures (Contents(), r) == CommandTx(old(Contents()), id, operation, key, now)
    {
      if !ValidKey(key) {
        return Err(Validation);
      }
      var receipt := CommandKey(id, key);
      if receipt in receipts {
        if receipts[receipt].operation != operation {
          return Err(Conflict);
        }
        return if id in events then Ok(events[id]) else Err(NotFound);
      }
      if id !in events {
        return Err(InvalidState);
      }
      var row := events[id];
      match operation {
        case Cancel =>
          if row.downstream.Some? || !(row.status.Pending? || row.status.RetryWait?) {
            return Err(InvalidState);
          }
          events := events[id := row.(
            status := Cancelled, retryAt := None, leaseToken := None, leaseExpires := None,
            version := row.version + 1, updatedAt := now)];
        case Retry =>
          if !row.status.Failed? {
            return Err(InvalidState);
          }
          events := events[id := row.(
            status := Pending, attempts := 0, retryAt := None, failure := None,
            version := row.version + 1, updatedAt := now)];
      }
      WriteEvent(id);
      receipts := receipts[receipt := Receipt(operation, events[id].version)];
      return Ok(events[id]);
    }

    method Insert(source: Id, dedup: DedupKey, payload: Payload, now: I64) returns (r: Option<Id>)
      modifies this
      ensures (Contents(), r) == InsertTx(old(Contents()), source, dedup, payload, now)
    {
      if exists id | id in events :: events[id].source == source && events[id].dedup == dedup {
        return None;
      }
      var id := NewId();
      events := events[id := NewEvent(source, dedup, payload, now)];
      WriteEvent(id);
      return Some(id);
    }
  }
}
