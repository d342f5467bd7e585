/**
 Automation sources, their sealed secrets and the RSS poll lease.

 Sealing is symbolic: a sealed text opens exactly under the associated data it was sealed with. Secrets are
 bound to the configuration version, cursors to the version of the source they were polled from, rotation
 receipts to the version the rotation produced.
 */
module AutomationSources {
  import opened Outcomes
  import opened Int64
  import opened Ordering
  import opened Texts
  import opened AutomationEvents

  const SCHEMA: nat := 1
  const MAX_POLL_ATTEMPTS: nat := 10

  datatype Kind = Rss | Webhook | DownloadCompletion

  datatype SealKind = FeedUrl | WebhookKey | FeedCursor | RotationReceipt

  datatype Aad = Aad(owner: Id, kind: SealKind, version: nat, schema: nat)

  datatype Sealed = Sealed(aad: Aad, text: string)

  function Open(aad: Aad, sealed: Sealed): Option<string> {
    if sealed.aad == aad then Some(sealed.text) else None
  }

  /** A validated source input; a webhook's key is generated or retained, never part of the input. */
  datatype SourceInput =
    | RssInput(enabled: bool, interval: nat, url: string)
    | WebhookInput(enabled: bool)
    | CompletionInput(enabled: bool)
  {
    function Kind(): Kind {
      match this
      case RssInput(_, _, _) => Rss
      case WebhookInput(_) => Webhook
      case CompletionInput(_) => DownloadCompletion
    }

    function Interval(): nat {
      if RssInput? then interval else 0
    }

    function Secret(key: string): Option<string> {
      match this
      case RssInput(_, _, url) => Some(url)
      case WebhookInput(_) => Some(key)
      case CompletionInput(_) => None
    }
  }

  datatype Source = Source(
    kind: Kind, enabled: bool, version: nat, interval: nat, secret: Option<Sealed>, projection: nat, createdAt: I64)

  datatype Runtime = Runtime(
    nextPoll: Option<I64>, cursor: Option<Sealed>, leaseToken: Option<Id>, leaseExpires: Option<I64>, attempts: nat)

  datatype RotationKey = RotationKey(source: Id, key: string)

  /** `expected` stands for the request digest, which covers the source and its expected version. */
  datatype Rotation = Rotation(id: Id, expected: nat, version: nat, secret: Sealed)

  datatype Sources = Sources(
    rows: map<Id, Source>, runtime: map<Id, Runtime>, rotations: map<RotationKey, Rotation>,
    events: Tables, nextId: Id)

  datatype SourceError =
    | Invalid
    | Unknown
    | VersionConflict
    | ResourceConflict
    | RequestConflict
    | Disabled
    | NoSecret
    | CheckpointFailed
    | Internal

  function SealKindOf(kind: Kind): Option<SealKind> {
    match kind
    case Rss => Some(FeedUrl)
    case Webhook => Some(WebhookKey)
    case DownloadCompletion => None
  }

  function Seal(id: Id, version: nat, kind: Kind, secret: Option<string>): Option<Sealed> {
    if secret.Some? && SealKindOf(kind).Some? then Some(Sealed(Aad(id, SealKindOf(kind).value, version, SCHEMA), secret.value))
    else None
  }

  function FirstPoll(input: SourceInput, now: I64): Option<I64> {
    if input.RssInput? && input.enabled then Some(now) else None
  }

  // ---- Configuration ---------------------------------------------------------------------------

  function InsertSourceTx(db: Sources, input: SourceInput, key: string, now: I64): (Sources, Id) {
    var id := db.nextId;
    var row := Source(input.Kind(), input.enabled, 1, input.Interval(), Seal(id, 1, input.Kind(), input.Secret(key)), 1, now);
    (db.(rows := db.rows[id := row],
         runtime := db.runtime[id := Runtime(FirstPoll(input, now), None, None, None, 0)],
         nextId := id + 1), id)
  }

  function LoadSecret(db: Sources, id: Id): Result<string, SourceError> {
    if id !in db.rows then Err(Unknown) else
      var row := db.rows[id];
      match SealKindOf(row.kind)
      case None => Err(NoSecret)
      case Some(kind) =>
        if row.secret.None? then Err(Internal) else
          match Open(Aad(id, kind, row.version, row.secret.value.aad.schema), row.secret.value)
          case None => Err(Internal)
          case Some(text) => Ok(text)
  }

  /** The transaction of `replace`; `retained` is the webhook key its caller read beforehand. */
  function ReplaceTx(db: Sources, id: Id, expected: int, input: SourceInput, retained: string, now: I64)
    : (Sources, Result<(), SourceError>)
  {
    if expected < 1 then (db, Err(VersionConflict))
    else if id !in db.rows then (db, Err(Unknown))
    else if db.rows[id].kind != input.Kind() then (db, Err(Invalid))
    else if db.rows[id].version != expected then (db, Err(VersionConflict))
    else
      var row := db.rows[id].(
        enabled := input.enabled, version := expected + 1, interval := input.Interval(),
        secret := Seal(id, expected + 1, input.Kind(), input.Secret(retained)),
        projection := db.rows[id].projection + 1);
      (db.(rows := db.rows[id := row],
           runtime := if id in db.runtime then db.runtime[id := Runtime(FirstPoll(input, now), None, None, None, 0)]
                      else db.runtime), Ok(()))
  }

  predicate HasActiveEvents(events: map<Id, Event>, source: Id) {
    exists e | e in events :: events[e].source == source
      && (events[e].status.Pending? || events[e].status.Running? || events[e].status.RetryWait?)
  }

  function DeleteTx(db: Sources, id: Id, expected: int): (Sources, Result<(), SourceError>) {
    if expected < 1 then (db, Err(VersionConflict))
    else if id !in db.rows then (db, Err(Unknown))
    else if db.rows[id].version != expected then (db, Err(VersionConflict))
    else if db.rows[id].enabled || HasActiveEvents(db.events.events, id) then (db, Err(ResourceConflict))
    else
      (db.(rows := db.rows - {id}, runtime := db.runtime - {id},
           rotations := map k | k in db.rotations && k.source != id :: db.rotations[k]), Ok(()))
  }

  function RotateTx(db: Sources, id: Id, expected: int, key: string, generated: string)
    : (Sources, Result<string, SourceError>)
  {
    var receipt := RotationKey(id, key);
    if expected < 1 || !ValidKey(key) || !(32 <= |generated| <= 128) then (db, Err(Invalid))
    else if receipt in db.rotations then
      var stored := db.rotations[receipt];
      if stored.expected != expected then (db, Err(RequestConflict)) else
        match Open(Aad(stored.id, RotationReceipt, stored.version, stored.secret.aad.schema), stored.secret)
        case None => (db, Err(Internal))
        case Some(text) => if id in db.rows then (db, Ok(text)) else (db, Err(Internal))
    else if id !in db.rows || !db.rows[id].kind.Webhook? then (db, Err(Unknown))
    else if db.rows[id].version != expected then (db, Err(VersionConflict))
    else
      var next := expected + 1;
      var row := db.rows[id].(version := next, projection := db.rows[id].projection + 1,
                              secret := Some(Sealed(Aad(id, WebhookKey, next, SCHEMA), generated)));
      var rotation := Rotation(db.nextId, expected, next,
                               Sealed(Aad(db.nextId, RotationReceipt, next, SCHEMA), generated));
      (db.(rows := db.rows[id := row], rotations := db.rotations[receipt := rotation], nextId := db.nextId + 1),
       Ok(generated))
  }

  // ---- Polling ---------------------------------------------------------------------------------

  datatype PollLease = PollLease(source: Id, version: nat, token: Id, url: string, cursor: Option<string>)

  datatype Draft = Draft(dedup: DedupKey, payload: Payload)

  predicate Pollable(db: Sources, id: Id, now: I64) {
    && id in db.rows && id in db.runtime
    && db.rows[id].kind.Rss? && db.rows[id].enabled && db.rows[id].secret.Some?
    && (db.runtime[id].nextPoll.Some? ==> db.runtime[id].nextPoll.value <= now)
    && (db.runtime[id].leaseExpires.Some? ==> db.runtime[id].leaseExpires.value <= now)
  }

  function PollKey(db: Sources, id: Id): Key
    requires id in db.rows && id in db.runtime
  {
    Key(if db.runtime[id].nextPoll.Some? then db.runtime[id].nextPoll.value else 0, db.rows[id].createdAt)
  }

  /** One of the sources due first. Equal keys are in no particular order. */
  predicate MayPoll(db: Sources, id: Id, now: I64) {
    Pollable(db, id, now) && forall other | other in db.rows && Pollable(db, other, now) :: !Below(PollKey(db, other), PollKey(db, id))
  }

  function ClaimPollTx(db: Sources, now: I64, duration: I64, id: Id): (Sources, Result<PollLease, SourceError>)
    requires MayPoll(db, id, now)
  {
    var row := db.rows[id];
    var run := db.runtime[id];
    var token := db.nextId;
    var next := db.(nextId := token + 1,
                    runtime := db.runtime[id := run.(leaseToken := Some(token), leaseExpires := Some(SatAdd(now, duration)))]);
    var url := Open(Aad(id, FeedUrl, row.version, row.secret.value.aad.schema), row.secret.value);
    var cursor := if run.cursor.None? then Some(None) else
      match Open(Aad(id, FeedCursor, row.version, run.cursor.value.aad.schema), run.cursor.value)
      case None => None
      case Some(text) => Some(Some(text));
    if url.None? || cursor.None? then (next, Err(Internal))
    else (next, Ok(PollLease(id, row.version, token, url.value, cursor.value)))
  }

  /** The event a source already holds under a dedup key. */
  function Stored(events: map<Id, Event>, source: Id, dedup: DedupKey): (id: Id)
    requires exists e :: e in events && events[e].source == source && events[e].dedup == dedup
    ensures id in events && events[id].source == source && events[id].dedup == dedup
  {
    var keys := set e | e in events && events[e].source == source && events[e].dedup == dedup :: Key(e, 0);
    assert keys != {} by {
      var e :| e in events && events[e].source == source && events[e].dedup == dedup;
      assert Key(e, 0) in keys;
    }
    var e :| e in events && events[e].source == source && events[e].dedup == dedup && Key(e, 0) == Least(keys);
    e
  }

  /** The drafts in order; None if one reuses a dedup key for something else. */
  function DraftsTx(events: Tables, source: Id, drafts: seq<Draft>, now: I64): Option<(Tables, nat)> {
    if drafts == [] then Some((events, 0)) else
      var earlier := DraftsTx(events, source, drafts[..|drafts| - 1], now);
      if earlier.None? then None else
        var (before, accepted) := earlier.value;
        var draft := drafts[|drafts| - 1];
        var (after, id) := InsertTx(before, source, draft.dedup, draft.payload, now);
        if id.Some? then Some((after, accepted + 1))
        else if before.events[Stored(before.events, source, draft.dedup)].request == draft.payload then Some((before, accepted))
        else None
  }

  predicate HoldsPoll(db: Sources, id: Id, version: nat, token: Id, now: I64) {
    && id in db.rows && id in db.runtime
    && db.rows[id].kind.Rss? && db.rows[id].version == version
    && db.runtime[id].leaseToken == Some(token)
    && db.runtime[id].leaseExpires.Some? && db.runtime[id].leaseExpires.value > now
  }

  function CommitPollTx(db: Sources, lease: PollLease, cursor: Option<string>, drafts: seq<Draft>, now: I64)
    : (Sources, Result<nat, SourceError>)
  {
    var id := lease.source;
    if !HoldsPoll(db, id, lease.version, lease.token, now) then (db, Err(Invalid))
    else if !db.rows[id].enabled then (db, Err(Disabled))
    else
      match DraftsTx(db.events, id, drafts, now)
      case None => (db, Err(RequestConflict))
      case Some((events, accepted)) =>
        var sealed := if cursor.None? then None
                      else Some(Sealed(Aad(id, FeedCursor, lease.version, SCHEMA), cursor.value));
        var next := SatAdd(now, SatMul(Clamp(db.rows[id].interval), 1_000_000));
        (db.(events := events,
             runtime := db.runtime[id := Runtime(Some(next), sealed, None, None, 0)],
             rows := db.rows[id := db.rows[id].(projection := db.rows[id].projection + 1)]), Ok(accepted))
  }

  /** Seconds until the next poll after the given number of consecutive failures. */
  function PollDelay(attempt: nat): I64
    requires 1 <= attempt <= MAX_POLL_ATTEMPTS
  {
    var delay := SatMul(60, Clamp(Pow2(attempt - 1)));
    if delay > 86_400 then 86_400 else delay
  }

  /** `checkpoint`: the failure to report is itself a checkpoint that failed; the lease is then left to expire. */
  function FailPollTx(db: Sources, lease: PollLease, checkpoint: bool, now: I64): (Sources, Result<(), SourceError>) {
    var id := lease.source;
    if checkpoint then (db, Err(CheckpointFailed))
    else if !HoldsPoll(db, id, lease.version, lease.token, now) || !db.rows[id].enabled then (db, Err(Invalid)) else
      var run := db.runtime[id];
      var attempt := if run.attempts + 1 > MAX_POLL_ATTEMPTS then MAX_POLL_ATTEMPTS else run.attempts + 1;
      (db.(runtime := db.runtime[id := run.(
             nextPoll := Some(SatAdd(now, SatMul(PollDelay(attempt), 1_000_000))),
             leaseToken := None, leaseExpires := None, attempts := attempt)],
           rows := db.rows[id := db.rows[id].(projection := db.rows[id].projection + 1)]), Ok(()))
  }

  // ---- The store -------------------------------------------------------------------------------

  class AutomationSourceStore {
    var rows: map<Id, Source>
    var runtime: map<Id, Runtime>
    var rotations: map<RotationKey, Rotation>
    var events: Tables
    var nextId: Id

    ghost function Contents(): Sources
      reads this
    {
      Sources(rows, runtime, rotations, events, nextId)
    }

    method NewId() returns (id: Id)
      modifies this`nextId
      ensures id == old(nextId) && nextId == id + 1
    {
      id := nextId;
      nextId := nextId + 1;
    }

    method Insert(input: SourceInput, generated: string, now: I64) returns (id: Id)
      modifies this
      ensures (Contents(), id) == InsertSourceTx(old(Contents()), input, generated, now)
    {
      id := NewId();
      var sealed := Seal(id, 1, input.Kind(), input.Secret(generated));
      rows := rows[id := Source(input.Kind(), input.enabled, 1, input.Interval(), sealed, 1, now)];
      var nextPoll := if input.RssInput? && input.enabled then Some(now) else None;
      runtime := runtime[id := Runtime(nextPoll, None, None, None, 0)];
    }

    /** Reads the key to retain and replaces, nothing happening in between. */
    method Replace(id: Id, expected: int, input: SourceInput, now: I64) returns (r: Result<(), SourceError>)
      modifies this`rows, this`runtime
      ensures LoadSecret(old(Contents()), id).Ok? ==>
                (Contents(), r) == ReplaceTx(old(Contents()), id, expected, input, LoadSecret(old(Contents()), id).value, now)
      ensures id in old(rows) && !old(rows)[id].kind.Webhook? ==>
                (Contents(), r) == ReplaceTx(old(Contents()), id, expected, input, "", now)
      ensures r.Err? ==> Contents() == old(Contents())
    {
      if expected < 1 {
        return Err(VersionConflict);
      }
      if id !in rows {
        return Err(Unknown);
      }
      var current := rows[id];
      if current.kind != input.Kind() {
        return Err(Invalid);
      }
      var retained := "";
      if current.kind.Webhook? {
        if current.secret.None? {
          return Err(Internal);
        }
        var held := Open(Aad(id, WebhookKey, current.version, current.secret.value.aad.schema), current.secret.value);
        if held.None? {
          return Err(Internal);
        }
        retained := held.value;
      }
      var next := expected + 1;
      var sealed := Seal(id, next, input.Kind(), input.Secret(retained));
      if current.version != expected {
        return Err(VersionConflict);
      }
      rows := rows[id := current.(
        enabled := input.enabled, version := next, interval := input.Interval(), secret := sealed,
        projection := current.projection + 1)];
      var nextPoll := if input.RssInput? && input.enabled then Some(now) else None;
      if id in runtime {
        runtime := runtime[id := Runtime(nextPoll, None, None, None, 0)];
      }
      return Ok(());
    }

    method Delete(id: Id, expected: int) returns (r: Result<(), SourceError>)
      modifies this`rows, this`runtime, this`rotations
      ensures (Contents(), r) == DeleteTx(old(Contents()), id, expected)
    {
      if expected < 1 {
        return Err(VersionConflict);
      }
      if id !in rows {
        return Err(Unknown);
      }
      if rows[id].version != expected {
        return Err(VersionConflict);
      }
      if rows[id].enabled {
        return Err(ResourceConflict);
      }
      if HasActiveEvents(events.events, id) {
        return Err(ResourceConflict);
      }
      rows, runtime := rows - {id}, runtime - {id};
      rotations := map k | k in rotations && k.source != id :: rotations[k];
      return Ok(());
    }

    method RotateWebhookSecret(id: Id, expected: int, key: string, generated: string)
      returns (r: Result<string, SourceError>)
      modifies this`rows, this`rotations, this`nextId
      ensures (Contents(), r) == RotateTx(old(Contents()), id, expected, key, generated)
    {
      if expected < 1 || !ValidKey(key) || |generated| < 32 || |generated| > 128 {
        return Err(Invalid);
      }
      var receipt := RotationKey(id, key);
      if receipt in rotations {
        var stored := rotations[receipt];
        if stored.expected != expected {
          return Err(RequestConflict);
        }
        var replayed := Open(Aad(stored.id, RotationReceipt, stored.version, stored.secret.aad.schema), stored.secret);
        if replayed.None? || id !in rows {
          return Err(Internal);
        }
        return Ok(replayed.value);
      }
      if id !in rows || !rows[id].kind.Webhook? {
        return Err(Unknown);
      }
      var current := rows[id];
      if current.version != expected {
        return Err(VersionConflict);
      }
      var next := expected + 1;
      rows := rows[id := current.(
        secret := Some(Sealed(Aad(id, WebhookKey, next, SCHEMA), generated)), version := next,
        projection := current.projection + 1)];
      var receiptId := NewId();
      var sealed := Sealed(Aad(receiptId, RotationReceipt, next, SCHEMA), generated);
      rotations := rotations[receipt := Rotation(receiptId, expected, next, sealed)];
      return Ok(generated);
    }

    /** Leases one of the sources due first, if any source is due. */
    method ClaimDueRssSource(now: I64, duration: I64) returns (chosen: Option<Id>, r: Option<Result<PollLease, SourceError>>)
      modifies this`runtime, this`nextId
      ensures duration <= 0 ==> chosen.None? && r == Some(Err(Invalid))
      ensures duration > 0 && chosen.None? ==> r.None? && forall id | id in rows :: !Pollable(old(Contents()), id, now)
      ensures chosen.None? ==> Contents() == old(Contents())
      ensures chosen.Some? ==>
                && duration > 0
                && MayPoll(old(Contents()), chosen.value, now)
                && r.Some?
                && (Contents(), r.value) == ClaimPollTx(old(Contents()), now, duration, chosen.value)
    {
      if duration <= 0 {
        return None, Some(Err(Invalid));
      }
      var db := Sources(rows, runtime, rotations, events, nextId);
      var keys := set id | id in rows && Pollable(db, id, now) :: PollKey(db, id);
      assert forall id | id in rows && Pollable(db, id, now) :: PollKey(db, id) in keys;
      if keys == {} {
        return None, None;
      }
      var least := Least(keys);
      assert IsLeast(least, keys);
      var id :| id in rows && Pollable(db, id, now) && PollKey(db, id) == least;
      assert MayPoll(db, id, now) by {
        forall other | other in rows && Pollable(db, other, now)
          ensures !Below(PollKey(db, other), PollKey(db, id))
        {
          assert PollKey(db, other) in keys;
        }
      }
      var row, run := rows[id], runtime[id];
      var token := NewId();
      runtime := runtime[id := run.(leaseToken := Some(token), leaseExpires := Some(SatAdd(now, duration)))];
      var url := Open(Aad(id, FeedUrl, row.version, row.secret.value.aad.schema), row.secret.value);
      if url.None? {
        return Some(id), Some(Err(Internal));
      }
      if run.cursor.None? {
        return Some(id), Some(Ok(PollLease(id, row.version, token, url.value, None)));
      }
      var cursor := Open(Aad(id, FeedCursor, row.version, run.cursor.value.aad.schema), run.cursor.value);
      if cursor.None? {
        return Some(id), Some(Err(Internal));
      }
      return Some(id), Some(Ok(PollLease(id, row.version, token, url.value, Some(cursor.value))));
    }

    /** The drafts, the cursor and the release of the lease commit together or not at all. */
    method CommitRssPoll(lease: PollLease, cursor: Option<string>, drafts: seq<Draft>, now: I64)
      returns (r: Result<nat, SourceError>)
      modifies this`rows, this`runtime, this`events
      ensures (Contents(), r) == CommitPollTx(old(Contents()), lease, cursor, drafts, now)
    {
      var id := lease.source;
      if id !in rows || id !in runtime || !rows[id].kind.Rss? || rows[id].version != lease.version {
        return Err(Invalid);
      }
      var row, run := rows[id], runtime[id];
      if run.leaseToken != Some(lease.token) || run.leaseExpires.None? || run.leaseExpires.value <= now {
        return Err(Invalid);
      }
      if !row.enabled {
        return Err(Disabled);
      }
      var written, accepted := events, 0;
      for i := 0 to |drafts|
        invariant DraftsTx(events, id, drafts[..i], now) == Some((written, accepted))
        invariant events == old(events)
      {
        assert drafts[..i + 1][..i] == drafts[..i];
        var (next, inserted) := InsertTx(written, id, drafts[i].dedup, drafts[i].payload, now);
        if inserted.Some? {
          written, accepted := next, accepted + 1;
        } else if written.events[Stored(written.events, id, drafts[i].dedup)].request != drafts[i].payload {
          DraftsStayRefused(events, id, drafts, i + 1, now);
          return Err(RequestConflict);
        }
      }
      assert drafts[..|drafts|] == drafts;
      events := written;
      var sealed := if cursor.None? then None
                    else Some(Sealed(Aad(id, FeedCursor, lease.version, SCHEMA), cursor.value));
      var next := SatAdd(now, SatMul(Clamp(row.interval), 1_000_000));
      runtime := runtime[id := Runtime(Some(next), sealed, None, None, 0)];
      rows := rows[id := row.(projection := row.projection + 1)];
      return Ok(accepted);
    }

    method CommitFailure(lease: PollLease, checkpoint: bool, now: I64) returns (r: Result<(), SourceError>)
      modifies this`rows, this`runtime
      ensures (Contents(), r) == FailPollTx(old(Contents()), lease, checkpoint, now)
    {
      if checkpoint {
        return Err(CheckpointFailed);
      }
      var id := lease.source;
      if id !in rows || id !in runtime || !rows[id].kind.Rss? || !rows[id].enabled || rows[id].version != lease.version {
        return Err(Invalid);
      }
      var row, run := rows[id], runtime[id];
      if run.leaseToken != Some(lease.token) || run.leaseExpires.None? || run.leaseExpires.value <= now {
        return Err(Invalid);
      }
      var attempt := if run.attempts + 1 < MAX_POLL_ATTEMPTS then run.attempts + 1 else MAX_POLL_ATTEMPTS;
      runtime := runtime[id := run.(
        nextPoll := Some(SatAdd(now, SatMul(PollDelay(attempt), 1_000_000))), attempts := attempt,
        leaseToken := None, leaseExpires := None)];
      rows := rows[id := row.(projection := row.projection + 1)];
      return Ok(());
    }
  }

  /** Once a draft is refused, the whole poll is. */
  lemma {:induction false} DraftsStayRefused(events: Tables, source: Id, drafts: seq<Draft>, i: nat, now: I64)
    requires i <= |drafts|
    requires DraftsTx(events, source, drafts[..i], now).None?
    ensures DraftsTx(events, source, drafts, now).None?
    decreases |drafts| - i
  {
    if i == |drafts| {
      assert drafts[..i] == drafts;
    } else {
      assert drafts[..i + 1][..i] == drafts[..i];
      DraftsStayRefused(events, source, drafts, i + 1, now);
    }
  }
}
