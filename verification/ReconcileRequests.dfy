/**
 The idempotent downstream side of the automation worker: a request key is bound to one inbox and one
 reconcile request for ever.
 */
module ReconcileRequests {
  import opened Outcomes
  import opened Int64
  import opened Ordering
  import opened Texts
  import opened ScanScheduling

  /** "automation:{event id}" for the worker; any other text for another caller. */
  datatype RequestKey = EventKey(event: Id) | CallerKey(text: string)

  /** A worker's key is always well-formed. */
  predicate WellFormed(key: RequestKey) {
    key.CallerKey? ==> ValidKey(key.text)
  }

  datatype RequestStatus = Accepted | Done | Unsuccessful

  datatype Request = Request(
    key: RequestKey, inbox: Id, task: Id, status: RequestStatus, observedFiles: Option<nat>, errors: Option<nat>)

  datatype Requests = Requests(scans: Scans, rows: map<Id, Request>, nextId: Id)

  datatype Error = Validation | Conflict | NotFound | RootUnavailable | ConfigInvalid

  datatype View = View(id: Id, row: Request)

  function Bound(rows: map<Id, Request>, key: RequestKey): set<Key> {
    set id | id in rows && rows[id].key == key :: Key(id, 0)
  }

  function FindKey(rows: map<Id, Request>, key: RequestKey): (r: Option<Id>)
    ensures r.Some? ==> r.value in rows && rows[r.value].key == key
    ensures r.None? ==> forall id | id in rows :: rows[id].key != key
  {
    assert forall id | id in rows && rows[id].key == key :: Key(id, 0) in Bound(rows, key);
    if Bound(rows, key) == {} then None else Some(Least(Bound(rows, key)).major)
  }

  /** Freeze the outcome of an accepted request once its scan has finished. */
  function Refreshed(row: Request, tasks: map<Id, ScanTask>): Request {
    if row.status.Accepted? && row.task in tasks && !tasks[row.task].Active() then
      var task := tasks[row.task];
      row.(status := if task.status.Completed? || task.status.PartialSuccess? then Done else Unsuccessful,
           observedFiles := Some(task.observedFiles), errors := Some(task.errors))
    else row
  }

  function AcceptTx(db: Requests, key: RequestKey, inbox: Id, now: I64): (Requests, Result<View, Error>) {
    if !WellFormed(key) then (db, Err(Validation)) else
    match FindKey(db.rows, key)
    case Some(id) =>
      if db.rows[id].inbox != inbox then (db, Err(Conflict)) else
        var row := Refreshed(db.rows[id], db.scans.tasks);
        (db.(rows := db.rows[id := row]), Ok(View(id, row)))
    case None =>
      if inbox !in db.scans.inboxes then (db, Err(NotFound))
      else if !db.scans.inboxes[inbox] then (db, Err(RootUnavailable))
      else
        var (scans, schedule) := ScheduleTx(db.scans, inbox, now);
        if schedule.None? || schedule.value.Unavailable? then (db, Err(ConfigInvalid)) else
          var row := Request(key, inbox, schedule.value.task, Accepted, None, None);
          (Requests(scans, db.rows[db.nextId := row], db.nextId + 1), Ok(View(db.nextId, row)))
  }

  class ReconcileRequestService {
    var inboxes: map<Id, bool>
    var account: bool
    var tasks: map<Id, ScanTask>
    var nextTask: Id
    var requests: map<Id, Request>
    var nextRequest: Id

    ghost function Contents(): Requests
      reads this
    {
      Requests(Scans(inboxes, account, tasks, nextTask), requests, nextRequest)
    }

    method ScheduleReconcile(inbox: Id, now: I64) returns (r: Option<Schedule>)
      modifies this`tasks, this`nextTask
      ensures (Scans(inboxes, account, tasks, nextTask), r) == ScheduleTx(old(Contents()).scans, inbox, now)
    {
      if inbox !in inboxes {
        return None;
      }
      var active := ActiveScan(tasks, inbox);
      if active.Some? {
        return Some(Existing(active.value));
      }
      if !account {
        return Some(Unavailable);
      }
      if !inboxes[inbox] {
        return Some(Unavailable);
      }
      var id := nextTask;
      nextTask := nextTask + 1;
      tasks := tasks[id := ScanTask(inbox, true, Queued, 0, 0, now)];
      return Some(Created(id));
    }

    method RefreshTerminal(id: Id)
      requires id in requests
      modifies this`requests
      ensures requests == old(requests)[id := Refreshed(old(requests)[id], tasks)]
    {
      var row := requests[id];
      if row.status.Accepted? && row.task in tasks {
        var task := tasks[row.task];
        if !(task.status.Queued? || task.status.Running?) {
          var good := task.status.Completed? || task.status.PartialSuccess?;
          requests := requests[id := row.(
            status := if good then Done else Unsuccessful,
            observedFiles := Some(task.observedFiles), errors := Some(task.errors))];
        }
      }
    }

    method Accept(key: RequestKey, inbox: Id, now: I64) returns (r: Result<View, Error>)
      modifies this
      ensures (Contents(), r) == AcceptTx(old(Contents()), key, inbox, now)
    {
      if key.CallerKey? && !ValidKey(key.text) {
        return Err(Validation);
      }
      var existing := FindKey(requests, key);
      if existing.Some? {
        var id := existing.value;
        if requests[id].inbox != inbox {
          return Err(Conflict);
        }
        RefreshTerminal(id);
        return Ok(View(id, requests[id]));
      }
      if inbox !in inboxes {
        return Err(NotFound);
      }
      if !inboxes[inbox] {
        return Err(RootUnavailable);
      }
      var schedule := ScheduleReconcile(inbox, now);
      if schedule.None? || schedule.value.Unavailable? {
        return Err(ConfigInvalid);
      }
      var id := nextRequest;
      nextRequest := nextRequest + 1;
      requests := requests[id := Request(key, inbox, schedule.value.task, Accepted, None, None)];
      return Ok(View(id, requests[id]));
    }
  }

  // ---- Idempotence -----------------------------------------------------------------------------

  /** The UNIQUE key column, as a consequence of `accept` rather than an assumption. */
  ghost predicate KeysUnique(db: Requests) {
    && (forall id | id in db.rows :: id < db.nextId)
    && forall a, b | a in db.rows && b in db.rows && db.rows[a].key == db.rows[b].key :: a == b
  }

  ghost predicate RequestOk(row: Request, tasks: map<Id, ScanTask>) {
    && row.task in tasks
    && tasks[row.task].inbox == row.inbox
    && WellFormed(row.key)
    && (row.status.Accepted? <==> row.observedFiles.None?)
    && (row.observedFiles.None? <==> row.errors.None?)
  }

  ghost predicate RequestsOk(db: Requests) {
    && KeysUnique(db)
    && OneActiveScan(db.scans)
    && forall id | id in db.rows :: RequestOk(db.rows[id], db.scans.tasks)
  }

  /** Nothing a request was accepted for changes afterwards: its key, its inbox, its scan and its outcome. */
  ghost predicate KeepsRow(before: Request, after: Request) {
    && after.key == before.key
    && after.inbox == before.inbox
    && after.task == before.task
    && (before.status.Accepted? || after == before)
  }

  ghost predicate Keeps(before: Requests, after: Requests) {
    forall id | id in before.rows :: id in after.rows && KeepsRow(before.rows[id], after.rows[id])
  }

  lemma RefreshKeeps(db: Requests, id: Id)
    requires RequestsOk(db) && id in db.rows
    ensures var next := db.(rows := db.rows[id := Refreshed(db.rows[id], db.scans.tasks)]);
            RequestsOk(next) && Keeps(db, next)
  {
    var row := Refreshed(db.rows[id], db.scans.tasks);
    assert row.key == db.rows[id].key && row.inbox == db.rows[id].inbox && row.task == db.rows[id].task;
  }

  lemma AddKeeps(db: Requests, scans: Scans, row: Request)
    requires RequestsOk(db)
    requires OneActiveScan(scans)
    requires forall t | t in db.scans.tasks :: t in scans.tasks && scans.tasks[t] == db.scans.tasks[t]
    requires forall id | id in db.rows :: db.rows[id].key != row.key
    requires RequestOk(row, scans.tasks)
    ensures var next := Requests(scans, db.rows[db.nextId := row], db.nextId + 1);
            RequestsOk(next) && Keeps(db, next)
  {
  }

  /**
   Accepting is idempotent. An answer names a request bound to exactly this key and inbox, a key that
   is already bound to the inbox always answers with its own request, and it conflicts exactly when the
   key is bound to another inbox.
   */
  lemma AcceptIsIdempotent(db: Requests, key: RequestKey, inbox: Id, now: I64)
    requires RequestsOk(db)
    ensures var (next, answer) := AcceptTx(db, key, inbox, now);
            && RequestsOk(next)
            && Keeps(db, next)
            && (answer.Ok? ==>
                  && answer.value.id in next.rows
                  && next.rows[answer.value.id] == answer.value.row
                  && answer.value.row.key == key
                  && answer.value.row.inbox == inbox)
            && (answer == Err(Validation) <==> !WellFormed(key))
            && (answer == Err(Conflict) <==> exists id :: id in db.rows && db.rows[id].key == key && db.rows[id].inbox != inbox)
            && (forall id | id in db.rows && db.rows[id].key == key && db.rows[id].inbox == inbox ::
                  answer.Ok? && answer.value.id == id && next.scans == db.scans && next.rows.Keys == db.rows.Keys)
  {
    match FindKey(db.rows, key)
    case Some(id) => RefreshKeeps(db, id);
    case None =>
      if AcceptTx(db, key, inbox, now).1.Ok? {
        ScheduleKeepsOneActive(db.scans, inbox, now);
        var (scans, schedule) := ScheduleTx(db.scans, inbox, now);
        AddKeeps(db, scans, Request(key, inbox, schedule.value.task, Accepted, None, None));
      }
  }

  /** Accepting twice, whatever happened in between, names the same request. */
  lemma AcceptTwice(db: Requests, later: Requests, key: RequestKey, inbox: Id, now: I64, again: I64)
    requires RequestsOk(db) && RequestsOk(later)
    requires AcceptTx(db, key, inbox, now).1.Ok?
    requires Keeps(AcceptTx(db, key, inbox, now).0, later)
    ensures AcceptTx(later, key, inbox, again).1.Ok?
    ensures AcceptTx(later, key, inbox, again).1.value.id == AcceptTx(db, key, inbox, now).1.value.id
  {
    AcceptIsIdempotent(db, key, inbox, now);
    AcceptIsIdempotent(later, key, inbox, again);
  }
}
