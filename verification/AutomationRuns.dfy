/**
 Whole runs of the automation core: any interleaving of the event store's transactions, of workers that
 claim, deliver, report or crash in between, and of the downstream reconcile requests.

 A run is a sequence of steps from the empty tables. A worker's memory is part of the world only while the
 worker lives, so a crash forgets a lease but never touches a table.
 */
module AutomationRuns {
  import opened Outcomes
  import opened Int64
  import opened AutomationEvents
  import S = ScanScheduling
  import D = ReconcileRequests

  datatype Answer = Delivered(result: Downstream) | Refused(code: FailureCode, recoverable: bool)

  datatype Worker = Working(lease: Lease) | Answered(lease: Lease, answer: Answer)

  datatype World = World(store: Tables, downstream: D.Requests, workers: map<Id, Worker>)

  datatype Step =
    | Insert(source: Id, dedup: DedupKey, payload: Payload, now: I64)
    | Claim(worker: Id, now: I64, duration: I64, unreadable: set<Id>)
    | Deliver(worker: Id, now: I64, external: Answer)
    | Report(worker: Id, now: I64)
    | Crash(worker: Id)
    | Reclaim(now: I64)
    | Command(id: Id, operation: Operation, key: string, now: I64)
    | OtherRequest(text: string, inbox: Id, now: I64)
    | ScheduleScan(inbox: Id, now: I64)
    | AdvanceScan(task: Id, status: S.TaskStatus, observedFiles: nat, errors: nat)
    | SetInbox(inbox: Id, available: bool)
    | SetAccount(present: bool)

  const EMPTY := World(Tables(map[], [], map[], 0), D.Requests(S.Scans(map[], false, map[], 0), map[], 0), map[])

  // ---- One step --------------------------------------------------------------------------------

  predicate Claims(w: World, s: Step) {
    s.Claim? && s.worker !in w.workers && s.duration > 0 && s.now + s.duration <= MAX
  }

  /** The table with the next lease token drawn. */
  function Minted(db: Tables): Tables {
    db.(nextId := db.nextId + 1)
  }

  function ClaimStep(w: World, worker: Id, expires: I64, now: I64, unreadable: set<Id>): World {
    var (store, round) := ClaimRoundTx(Minted(w.store), w.store.nextId, expires, now, unreadable);
    World(store, w.downstream,
          if round.Claimed? then w.workers[worker := Working(round.lease)] else w.workers)
  }

  function FailureOf(error: D.Error): Answer {
    match error
    case Conflict => Refused(DownstreamConflict, false)
    case Validation => Refused(PayloadInvalid, false)
    case NotFound => Refused(NotConfigured, true)
    case _ => Refused(Unavailable, true)
  }

  /** The downstream call, keyed by the event id. A download port answers what it likes. */
  function DeliverTx(db: D.Requests, lease: Lease, now: I64, external: Answer): (D.Requests, Answer) {
    match lease.payload
    case Download(_, _, _) => (db, external)
    case Reconcile(inbox) =>
      var (next, answer) := D.AcceptTx(db, D.EventKey(lease.id), inbox, now);
      match answer
      case Ok(view) =>
        var count := if view.row.observedFiles.Some? then view.row.observedFiles.value else 0;
        (next, Delivered(Downstream(ReconcileRequest, view.id, count)))
      case Err(error) => (next, FailureOf(error))
  }

  function ReportTx(db: Tables, worker: Worker, now: I64): Tables
    requires worker.Answered?
  {
    match worker.answer
    case Delivered(result) => CompleteTx(db, worker.lease, result, now).0
    case Refused(code, recoverable) => FailTx(db, worker.lease, code, recoverable, now).0
  }

  function Apply(w: World, s: Step): World {
    match s
    case Insert(source, dedup, payload, now) => w.(store := InsertTx(w.store, source, dedup, payload, now).0)
    case Claim(worker, now, duration, unreadable) =>
      if Claims(w, s) then ClaimStep(w, worker, now + duration, now, unreadable) else w
    case Deliver(worker, now, external) =>
      if worker !in w.workers || !w.workers[worker].Working? then w else
        var lease := w.workers[worker].lease;
        var (downstream, answer) := DeliverTx(w.downstream, lease, now, external);
        w.(downstream := downstream, workers := w.workers[worker := Answered(lease, answer)])
    case Report(worker, now) =>
      if worker !in w.workers || !w.workers[worker].Answered? then w else
        w.(store := ReportTx(w.store, w.workers[worker], now), workers := w.workers - {worker})
    case Crash(worker) => w.(workers := w.workers - {worker})
    case Reclaim(now) => w.(store := ReclaimExpiredTx(w.store, now).0)
    case Command(id, operation, key, now) => w.(store := CommandTx(w.store, id, operation, key, now).0)
    case OtherRequest(text, inbox, now) =>
      w.(downstream := D.AcceptTx(w.downstream, D.CallerKey(text), inbox, now).0)
    case ScheduleScan(inbox, now) =>
      w.(downstream := w.downstream.(scans := S.ScheduleTx(w.downstream.scans, inbox, now).0))
    case AdvanceScan(task, status, files, errors) =>
      w.(downstream := w.downstream.(scans := S.AdvanceTx(w.downstream.scans, task, status, files, errors)))
    case SetInbox(inbox, available) =>
      w.(downstream := w.downstream.(scans := w.downstream.scans.(
        inboxes := w.downstream.scans.inboxes[inbox := available])))
    case SetAccount(present) =>
      w.(downstream := w.downstream.(scans := w.downstream.scans.(account := present)))
  }

  function Exec(steps: seq<Step>): World {
    if steps == [] then EMPTY else Apply(Exec(steps[..|steps| - 1]), steps[|steps| - 1])
  }

  // ---- Row invariant ---------------------------------------------------------------------------

  ghost predicate RowOk(row: Event) {
    && (row.status.Running? <==> row.leaseToken.Some?)
    && (row.leaseToken.Some? <==> row.leaseExpires.Some?)
    && (row.status.RetryWait? <==> row.retryAt.Some?)
    && (row.status.Completed? <==> row.downstream.Some?)
    && (row.status.Pending? ==> row.attempts == 0 && row.failure.None?)
    && (row.status.RetryWait? ==> 1 <= row.attempts < MAX_ATTEMPTS)
    && (row.status.Running? ==> 1 <= row.attempts)
    && (row.status.RetryWait? || row.status.Failed? ==> row.failure.Some?)
    && row.attempts <= MAX_ATTEMPTS
    && row.version >= 1
    && row.action == row.request.Action()
  }

  /** The outbox records of one event, oldest first. */
  ghost function Log(outbox: seq<Change>, id: Id): seq<Change> {
    if outbox == [] then [] else
      var before := Log(outbox[..|outbox| - 1], id);
      if outbox[|outbox| - 1].event == id then before + [outbox[|outbox| - 1]] else before
  }

  /** Versions 1, 2, ..., current without gap or repeat, the newest telling the row as it stands. */
  ghost predicate Logged(db: Tables, id: Id) {
    var log := Log(db.outbox, id);
    if id in db.events then
      && |log| == db.events[id].version >= 1
      && (forall k | 0 <= k < |log| :: log[k].version == k + 1)
      && log[|log| - 1] == ChangeOf(id, db.events[id])
    else log == []
  }

  ghost predicate StoreOk(db: Tables) {
    && (forall id | id in db.events :: id < db.nextId && RowOk(db.events[id]))
    && (forall id | id in db.events && db.events[id].leaseToken.Some? :: db.events[id].leaseToken.value < db.nextId)
    && (forall id :: Logged(db, id))
    && (forall a, b | a in db.events && b in db.events
                    && db.events[a].source == db.events[b].source && db.events[a].dedup == db.events[b].dedup :: a == b)
  }

  /** A row that keeps its identity, as every UPDATE does. */
  ghost predicate SameIdentity(before: Event, after: Event) {
    && after.source == before.source && after.dedup == before.dedup
    && after.action == before.action && after.request == before.request
  }

  lemma LogAppend(outbox: seq<Change>, change: Change, id: Id)
    ensures Log(outbox + [change], id) == if change.event == id then Log(outbox, id) + [change] else Log(outbox, id)
  {
    assert (outbox + [change])[..|outbox|] == outbox;
  }

  lemma PublishKeeps(db: Tables, id: Id, row: Event)
    requires StoreOk(db) && id in db.events
    requires RowOk(row) && SameIdentity(db.events[id], row)
    requires row.leaseToken.Some? ==> row.leaseToken.value < db.nextId
    ensures StoreOk(Publish(db, id, row))
  {
    var next := Publish(db, id, row);
    forall other
      ensures Logged(next, other)
    {
      assert Logged(db, other);
      LogAppend(db.outbox, ChangeOf(id, next.events[id]), other);
    }
  }

  lemma InsertKeeps(db: Tables, source: Id, dedup: DedupKey, payload: Payload, now: I64)
    requires StoreOk(db)
    ensures StoreOk(InsertTx(db, source, dedup, payload, now).0)
  {
    if !Occupied(db, source, dedup) {
      var row := NewEvent(source, dedup, payload, now);
      var next := InsertTx(db, source, dedup, payload, now).0;
      forall other
        ensures Logged(next, other)
      {
        assert Logged(db, other);
        LogAppend(db.outbox, ChangeOf(db.nextId, row), other);
      }
    }
  }

  lemma {:induction false} ReclaimKeeps(db: Tables, ids: seq<Id>, now: I64)
    requires StoreOk(db)
    requires forall id | id in ids :: id in db.events && Expired(db.events[id], now)
    requires forall j, k | 0 <= j < k < |ids| :: ids[j] != ids[k]
    ensures StoreOk(ReclaimTx(db, ids, now))
    ensures ReclaimTx(db, ids, now).nextId == db.nextId
  {
    if ids != [] {
      var n := |ids| - 1;
      ReclaimKeeps(db, ids[..n], now);
      ReclaimRows(db, ids[..n], now);
      var before := ReclaimTx(db, ids[..n], now);
      assert ids[n] in ids && ids[n] !in ids[..n];
      PublishKeeps(before, ids[n], before.events[ids[n]].Abandoned(now));
    }
  }

  // ---- The whole world -------------------------------------------------------------------------

  /** A live worker's lease is genuine; if it is still the current one, it also counts the attempts right. */
  ghost predicate LeaseOk(db: Tables, lease: Lease) {
    && lease.id in db.events
    && lease.token < db.nextId
    && lease.payload == db.events[lease.id].request
    && (Holds(db, lease) ==> lease.attempt == db.events[lease.id].attempts)
  }

  ghost predicate IsRequestOf(db: D.Requests, result: Downstream, id: Id, inbox: Id) {
    && result.kind.ReconcileRequest?
    && result.id in db.rows
    && db.rows[result.id].key == D.EventKey(id)
    && db.rows[result.id].inbox == inbox
  }

  ghost predicate WorkerOk(db: Tables, downstream: D.Requests, worker: Worker) {
    && LeaseOk(db, worker.lease)
    && (worker.Answered? && worker.answer.Delivered? && worker.lease.payload.Reconcile? ==>
          IsRequestOf(downstream, worker.answer.result, worker.lease.id, worker.lease.payload.inbox))
  }

  ghost predicate WorkersOk(w: World) {
    forall p | p in w.workers :: WorkerOk(w.store, w.downstream, w.workers[p])
  }

  /** What was requested under an event's key was requested for that event. */
  ghost predicate RequestsMatch(db: Tables, downstream: D.Requests) {
    forall r | r in downstream.rows && downstream.rows[r].key.EventKey? ::
      && downstream.rows[r].key.event in db.events
      && db.events[downstream.rows[r].key.event].request == Reconcile(downstream.rows[r].inbox)
  }

  /** A stored downstream relation is the event's own request. */
  ghost predicate EventsMatch(db: Tables, downstream: D.Requests) {
    forall id | id in db.events && db.events[id].downstream.Some? && db.events[id].request.Reconcile? ::
      IsRequestOf(downstream, db.events[id].downstream.value, id, db.events[id].request.inbox)
  }

  ghost predicate WorldOk(w: World) {
    && StoreOk(w.store)
    && D.RequestsOk(w.downstream)
    && WorkersOk(w)
    && RequestsMatch(w.store, w.downstream)
    && EventsMatch(w.store, w.downstream)
  }

  /** How one row may change: it keeps its identity, and a live lease only by staying as it is. */
  ghost predicate RowEvolves(before: Event, after: Event, minted: Id) {
    && SameIdentity(before, after)
    && (after.status.Running? && after.leaseToken.Some? && after.leaseToken.value < minted ==> after == before)
  }

  ghost predicate Evolves(before: Tables, after: Tables) {
    && before.nextId <= after.nextId
    && forall id | id in before.events ::
         id in after.events && RowEvolves(before.events[id], after.events[id], before.nextId)
  }

  ghost predicate SameDownstreams(before: Tables, after: Tables) {
    && after.events.Keys == before.events.Keys
    && forall id | id in before.events :: after.events[id].downstream == before.events[id].downstream
  }

  // ---- What each transaction does to the event table --------------------------------------------

  lemma PublishEvolves(db: Tables, id: Id, row: Event)
    requires id in db.events && SameIdentity(db.events[id], row)
    requires row.status.Running? ==> row.leaseToken.Some? && row.leaseToken.value >= db.nextId
    ensures Evolves(db, Publish(db, id, row))
  {
  }

  lemma MintKeeps(db: Tables)
    requires StoreOk(db)
    ensures StoreOk(Minted(db))
  {
    assert forall id :: Logged(db, id) ==> Logged(Minted(db), id);
  }

  lemma ClaimRoundKeeps(db: Tables, expires: I64, now: I64, unreadable: set<Id>)
    requires StoreOk(Minted(db))
    ensures StoreOk(ClaimRoundTx(Minted(db), db.nextId, expires, now, unreadable).0)
  {
    var first := FirstDue(db.events, now);
    if first.Some? {
      var row := db.events[first.value];
      if first.value in unreadable {
        PublishKeeps(Minted(db), first.value, row.Unreadable(now));
      } else {
        PublishKeeps(Minted(db), first.value, row.Leased(db.nextId, expires, now));
      }
    }
  }

  lemma ClaimRoundEvolves(db: Tables, expires: I64, now: I64, unreadable: set<Id>)
    ensures var store := ClaimRoundTx(Minted(db), db.nextId, expires, now, unreadable).0;
            Evolves(db, store) && SameDownstreams(db, store)
  {
  }

  lemma ClaimRoundLeases(db: Tables, expires: I64, now: I64, unreadable: set<Id>)
    ensures var (store, round) := ClaimRoundTx(Minted(db), db.nextId, expires, now, unreadable);
            round.Claimed? ==> LeaseOk(store, round.lease) && Holds(store, round.lease)
  {
  }

  lemma ReportTxKeeps(db: Tables, worker: Worker, now: I64)
    requires StoreOk(db) && LeaseOk(db, worker.lease) && worker.Answered?
    ensures var store := ReportTx(db, worker, now);
            && StoreOk(store)
            && Evolves(db, store)
            && store.events.Keys == db.events.Keys
            && (forall id | id in db.events && id != worker.lease.id :: store.events[id] == db.events[id])
            && (store.events[worker.lease.id].downstream == db.events[worker.lease.id].downstream
                || (worker.answer.Delivered?
                    && store.events[worker.lease.id].downstream == Some(worker.answer.result)))
  {
    if Holds(db, worker.lease) {
      var row := db.events[worker.lease.id];
      match worker.answer
      case Delivered(result) =>
        PublishKeeps(db, worker.lease.id, row.Finished(result, now));
        PublishEvolves(db, worker.lease.id, row.Finished(result, now));
      case Refused(code, recoverable) =>
        var failing := row.Failing(code, RetryAt(worker.lease, recoverable, now), now);
        PublishKeeps(db, worker.lease.id, failing);
        PublishEvolves(db, worker.lease.id, failing);
    }
  }

  lemma ReceiptKeeps(db: Tables, receipts: map<CommandKey, Receipt>)
    requires StoreOk(db)
    ensures StoreOk(db.(receipts := receipts))
  {
    assert forall id :: Logged(db, id) ==> Logged(db.(receipts := receipts), id);
  }

  lemma CommandKeeps(db: Tables, id: Id, operation: Operation, key: string, now: I64)
    requires StoreOk(db)
    ensures var store := CommandTx(db, id, operation, key, now).0;
            && StoreOk(store)
            && Evolves(db, store)
            && SameDownstreams(db, store)
  {
    var store := CommandTx(db, id, operation, key, now).0;
    if store != db {
      var row := Commanded(db.events[id], operation, now);
      PublishKeeps(db, id, row);
      ReceiptKeeps(Publish(db, id, row), store.receipts);
      assert store == Publish(db, id, row).(receipts := store.receipts);
      PublishEvolves(db, id, row);
    }
  }

  lemma ReclaimExpiredKeeps(db: Tables, now: I64)
    requires StoreOk(db)
    ensures var store := ReclaimExpiredTx(db, now).0;
            && StoreOk(store)
            && Evolves(db, store)
            && SameDownstreams(db, store)
  {
    var ids := ExpiredBatch(db.events, now);
    ReclaimKeeps(db, ids, now);
    ReclaimRows(db, ids, now);
  }

  // ---- Frames ----------------------------------------------------------------------------------

  /** A transaction of the event store that leaves downstream relations alone keeps the world in order. */
  lemma StoreMoves(w: World, store: Tables)
    requires WorldOk(w) && StoreOk(store) && Evolves(w.store, store)
    requires forall id | id in store.events && store.events[id].downstream.Some? && store.events[id].request.Reconcile? ::
               IsRequestOf(w.downstream, store.events[id].downstream.value, id, store.events[id].request.inbox)
    ensures WorldOk(w.(store := store))
  {
    assert RequestsMatch(store, w.downstream) by {
      forall r | r in w.downstream.rows && w.downstream.rows[r].key.EventKey?
        ensures w.downstream.rows[r].key.event in store.events
        ensures store.events[w.downstream.rows[r].key.event].request == Reconcile(w.downstream.rows[r].inbox)
      {
        var id := w.downstream.rows[r].key.event;
        assert id in w.store.events;
        assert RowEvolves(w.store.events[id], store.events[id], w.store.nextId);
      }
    }
    forall p | p in w.workers
      ensures WorkerOk(store, w.downstream, w.workers[p])
    {
      assert WorkerOk(w.store, w.downstream, w.workers[p]);
      var id := w.workers[p].lease.id;
      assert RowEvolves(w.store.events[id], store.events[id], w.store.nextId);
    }
  }

  /** The common case: no downstream relation changes. */
  lemma StoreMovesQuietly(w: World, store: Tables)
    requires WorldOk(w) && StoreOk(store) && Evolves(w.store, store) && SameDownstreams(w.store, store)
    ensures WorldOk(w.(store := store))
  {
    forall id | id in store.events && store.events[id].downstream.Some? && store.events[id].request.Reconcile?
      ensures IsRequestOf(w.downstream, store.events[id].downstream.value, id, store.events[id].request.inbox)
    {
      assert RowEvolves(w.store.events[id], store.events[id], w.store.nextId);
    }
    StoreMoves(w, store);
  }

  /** The downstream tables may only grow, and new requests under an event key belong to that event. */
  lemma DownstreamMoves(w: World, downstream: D.Requests)
    requires WorldOk(w) && D.RequestsOk(downstream) && D.Keeps(w.downstream, downstream)
    requires forall r | r in downstream.rows && r !in w.downstream.rows && downstream.rows[r].key.EventKey? ::
               && downstream.rows[r].key.event in w.store.events
               && w.store.events[downstream.rows[r].key.event].request == Reconcile(downstream.rows[r].inbox)
    ensures WorldOk(w.(downstream := downstream))
  {
    forall p | p in w.workers
      ensures WorkerOk(w.store, downstream, w.workers[p])
    {
      assert WorkerOk(w.store, w.downstream, w.workers[p]);
    }
  }

  lemma WorkerJoins(w: World, p: Id, worker: Worker)
    requires WorldOk(w) && WorkerOk(w.store, w.downstream, worker)
    ensures WorldOk(w.(workers := w.workers[p := worker]))
  {
  }

  // ---- Every step ------------------------------------------------------------------------------

  lemma ClaimStoreKeeps(w: World, expires: I64, now: I64, unreadable: set<Id>)
    requires WorldOk(w)
    ensures WorldOk(w.(store := ClaimRoundTx(Minted(w.store), w.store.nextId, expires, now, unreadable).0))
  {
    MintKeeps(w.store);
    ClaimRoundKeeps(w.store, expires, now, unreadable);
    ClaimRoundEvolves(w.store, expires, now, unreadable);
    StoreMovesQuietly(w, ClaimRoundTx(Minted(w.store), w.store.nextId, expires, now, unreadable).0);
  }

  lemma ClaimKeeps(w: World, worker: Id, expires: I64, now: I64, unreadable: set<Id>, next: World)
    requires WorldOk(w) && next == ClaimStep(w, worker, expires, now, unreadable)
    ensures WorldOk(next)
  {
    var (store, round) := ClaimRoundTx(Minted(w.store), w.store.nextId, expires, now, unreadable);
    ClaimStoreKeeps(w, expires, now, unreadable);
    ClaimRoundLeases(w.store, expires, now, unreadable);
    if round.Claimed? {
      WorkerJoins(w.(store := store), worker, Working(round.lease));
    }
  }

  lemma ClaimApplies(w: World, s: Step, next: World)
    requires s.Claim? && next == Apply(w, s)
    ensures next == if Claims(w, s) then ClaimStep(w, s.worker, s.now + s.duration, s.now, s.unreadable) else w
  {
  }

  lemma ClaimStepKeeps(w: World, s: Step, next: World)
    requires WorldOk(w) && s.Claim? && next == Apply(w, s)
    ensures WorldOk(next)
  {
    ClaimApplies(w, s, next);
    if Claims(w, s) {
      ClaimKeeps(w, s.worker, s.now + s.duration, s.now, s.unreadable, next);
    }
  }

  lemma AcceptMoves(w: World, lease: Lease, now: I64)
    requires WorldOk(w) && LeaseOk(w.store, lease) && lease.payload.Reconcile?
    ensures var (next, answer) := D.AcceptTx(w.downstream, D.EventKey(lease.id), lease.payload.inbox, now);
            && WorldOk(w.(downstream := next))
            && (answer.Ok? ==> && answer.value.id in next.rows
                               && next.rows[answer.value.id].key == D.EventKey(lease.id)
                               && next.rows[answer.value.id].inbox == lease.payload.inbox)
  {
    D.AcceptIsIdempotent(w.downstream, D.EventKey(lease.id), lease.payload.inbox, now);
    DownstreamMoves(w, D.AcceptTx(w.downstream, D.EventKey(lease.id), lease.payload.inbox, now).0);
  }

  lemma DeliverMoves(w: World, lease: Lease, now: I64, external: Answer)
    requires WorldOk(w) && LeaseOk(w.store, lease)
    ensures var (downstream, answer) := DeliverTx(w.downstream, lease, now, external);
            && WorldOk(w.(downstream := downstream))
            && WorkerOk(w.store, downstream, Answered(lease, answer))
  {
    if lease.payload.Reconcile? {
      AcceptMoves(w, lease, now);
    }
  }

  lemma DeliverKeeps(w: World, s: Step)
    requires WorldOk(w) && s.Deliver? && s.worker in w.workers && w.workers[s.worker].Working?
    ensures WorldOk(Apply(w, s))
  {
    var lease := w.workers[s.worker].lease;
    assert WorkerOk(w.store, w.downstream, w.workers[s.worker]);
    DeliverMoves(w, lease, s.now, s.external);
    var (downstream, answer) := DeliverTx(w.downstream, lease, s.now, s.external);
    WorkerJoins(w.(downstream := downstream), s.worker, Answered(lease, answer));
    assert Apply(w, s) == w.(downstream := downstream, workers := w.workers[s.worker := Answered(lease, answer)]);
  }

  lemma ReportKeeps(w: World, s: Step)
    requires WorldOk(w) && s.Report? && s.worker in w.workers && w.workers[s.worker].Answered?
    ensures WorldOk(Apply(w, s))
  {
    var worker := w.workers[s.worker];
    assert WorkerOk(w.store, w.downstream, worker);
    ReportTxKeeps(w.store, worker, s.now);
    var store := ReportTx(w.store, worker, s.now);
    forall id | id in store.events && store.events[id].downstream.Some? && store.events[id].request.Reconcile?
      ensures IsRequestOf(w.downstream, store.events[id].downstream.value, id, store.events[id].request.inbox)
    {
      assert RowEvolves(w.store.events[id], store.events[id], w.store.nextId);
    }
    StoreMoves(w, store);
  }

  lemma StoreStepKeeps(w: World, s: Step)
    requires WorldOk(w) && (s.Insert? || s.Reclaim? || s.Command?)
    ensures WorldOk(Apply(w, s))
  {
    match s {
      case Insert(source, dedup, payload, now) =>
        InsertKeeps(w.store, source, dedup, payload, now);
        StoreMoves(w, InsertTx(w.store, source, dedup, payload, now).0);
      case Reclaim(now) =>
        ReclaimExpiredKeeps(w.store, now);
        StoreMovesQuietly(w, ReclaimExpiredTx(w.store, now).0);
      case Command(id, operation, key, now) =>
        CommandKeeps(w.store, id, operation, key, now);
        StoreMovesQuietly(w, CommandTx(w.store, id, operation, key, now).0);
    }
  }

  lemma OtherRequestMoves(w: World, text: string, inbox: Id, now: I64)
    requires WorldOk(w)
    ensures WorldOk(w.(downstream := D.AcceptTx(w.downstream, D.CallerKey(text), inbox, now).0))
  {
    var downstream := D.AcceptTx(w.downstream, D.CallerKey(text), inbox, now).0;
    D.AcceptIsIdempotent(w.downstream, D.CallerKey(text), inbox, now);
    DownstreamMoves(w, downstream);
  }

  lemma RequestStepKeeps(w: World, text: string, inbox: Id, now: I64)
    requires WorldOk(w)
    ensures WorldOk(Apply(w, OtherRequest(text, inbox, now)))
  {
    OtherRequestMoves(w, text, inbox, now);
    assert Apply(w, OtherRequest(text, inbox, now)) == w.(downstream := D.AcceptTx(w.downstream, D.CallerKey(text), inbox, now).0);
  }

  lemma ScansMove(w: World, scans: S.Scans)
    requires WorldOk(w) && S.OneActiveScan(scans)
    requires forall t | t in w.downstream.scans.tasks ::
               t in scans.tasks && scans.tasks[t].inbox == w.downstream.scans.tasks[t].inbox
    ensures WorldOk(w.(downstream := w.downstream.(scans := scans)))
  {
    DownstreamMoves(w, w.downstream.(scans := scans));
  }

  lemma ScanStepKeeps(w: World, s: Step)
    requires WorldOk(w)
    requires s.ScheduleScan? || s.AdvanceScan? || s.SetInbox? || s.SetAccount?
    ensures WorldOk(Apply(w, s))
  {
    var scans := w.downstream.scans;
    if s.ScheduleScan? {
      S.ScheduleKeepsOneActive(scans, s.inbox, s.now);
    } else if s.AdvanceScan? {
      S.AdvanceKeepsOneActive(scans, s.task, s.status, s.observedFiles, s.errors);
    }
    ScansMove(w, Apply(w, s).downstream.scans);
  }

  lemma StepKeeps(w: World, s: Step)
    requires WorldOk(w)
    ensures WorldOk(Apply(w, s))
  {
    match s
    case Claim(_, _, _, _) => ClaimStepKeeps(w, s, Apply(w, s));
    case Deliver(worker, _, _) => if worker in w.workers && w.workers[worker].Working? { DeliverKeeps(w, s); }
    case Report(worker, _) => if worker in w.workers && w.workers[worker].Answered? { ReportKeeps(w, s); }
    case Crash(_) =>
    case Insert(_, _, _, _) => StoreStepKeeps(w, s);
    case Reclaim(_) => StoreStepKeeps(w, s);
    case Command(_, _, _, _) => StoreStepKeeps(w, s);
    case OtherRequest(text, inbox, now) => RequestStepKeeps(w, text, inbox, now);
    case _ => ScanStepKeeps(w, s);
  }

  /** Every reachable world, after any interleaving and any crashes, is in order. */
  lemma {:induction false} EveryRunIsOk(steps: seq<Step>)
    ensures WorldOk(Exec(steps))
  {
    if steps != [] {
      EveryRunIsOk(steps[..|steps| - 1]);
      StepKeeps(Exec(steps[..|steps| - 1]), steps[|steps| - 1]);
    }
  }
}
