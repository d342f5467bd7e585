/** Automatic full scans of inboxes: at most one is queued or running for an inbox at any time. */
module ScanScheduling {
  import opened Outcomes
  import opened Int64
  import opened Ordering

  type Id = nat

  datatype TaskStatus = Queued | Running | PartialSuccess | Completed | Failed | Cancelled

  datatype ScanTask = ScanTask(
    inbox: Id, automatic: bool, status: TaskStatus, observedFiles: nat, errors: nat, createdAt: I64)
  {
    predicate Active() {
      status.Queued? || status.Running?
    }
  }

  /** `inboxes` holds, for every registered inbox, whether it is available. */
  datatype Scans = Scans(inboxes: map<Id, bool>, account: bool, tasks: map<Id, ScanTask>, nextId: Id)

  datatype Schedule = Unavailable | Existing(task: Id) | Created(task: Id)

  function ActiveKeys(tasks: map<Id, ScanTask>, inbox: Id): set<Key> {
    set id | id in tasks && tasks[id].inbox == inbox && tasks[id].automatic && tasks[id].Active()
      :: Key(tasks[id].createdAt, id)
  }

  /** The oldest automatic scan of the inbox that is still queued or running. */
  function ActiveScan(tasks: map<Id, ScanTask>, inbox: Id): (r: Option<Id>)
    ensures r.Some? ==> r.value in tasks && tasks[r.value].inbox == inbox && tasks[r.value].automatic && tasks[r.value].Active()
    ensures r.None? ==> forall id | id in tasks && tasks[id].inbox == inbox && tasks[id].automatic :: !tasks[id].Active()
  {
    var keys := ActiveKeys(tasks, inbox);
    assert forall id | id in tasks && tasks[id].inbox == inbox && tasks[id].automatic && tasks[id].Active() ::
        Key(tasks[id].createdAt, id) in keys;
    if keys == {} then None else Some(Least(keys).minor)
  }

  /** An unregistered inbox has no policy to fall back on: None. */
  function ScheduleTx(db: Scans, inbox: Id, now: I64): (Scans, Option<Schedule>) {
    if inbox !in db.inboxes then (db, None) else
      var active := ActiveScan(db.tasks, inbox);
      if active.Some? then (db, Some(Existing(active.value)))
      else if !db.account || !db.inboxes[inbox] then (db, Some(Unavailable))
      else
        var task := ScanTask(inbox, true, Queued, 0, 0, now);
        (db.(tasks := db.tasks[db.nextId := task], nextId := db.nextId + 1), Some(Created(db.nextId)))
  }

  /** What the task store may do to a scan: a finished automatic scan stays finished. */
  function AdvanceTx(db: Scans, id: Id, status: TaskStatus, observedFiles: nat, errors: nat): Scans {
    if id in db.tasks && db.tasks[id].Active() then
      db.(tasks := db.tasks[id := db.tasks[id].(status := status, observedFiles := observedFiles, errors := errors)])
    else db
  }

  ghost predicate OneActiveScan(db: Scans) {
    && (forall id | id in db.tasks :: id < db.nextId)
    && forall a, b | a in db.tasks && b in db.tasks && a != b && db.tasks[a].inbox == db.tasks[b].inbox
                   && db.tasks[a].automatic && db.tasks[b].automatic ::
         !(db.tasks[a].Active() && db.tasks[b].Active())
  }

  lemma ScheduleKeepsOneActive(db: Scans, inbox: Id, now: I64)
    requires OneActiveScan(db)
    ensures OneActiveScan(ScheduleTx(db, inbox, now).0)
    ensures var (next, answer) := ScheduleTx(db, inbox, now);
            answer.Some? && !answer.value.Unavailable? ==>
              && answer.value.task in next.tasks
              && next.tasks[answer.value.task].inbox == inbox
              && next.tasks[answer.value.task].automatic
              && next.tasks[answer.value.task].Active()
  {
  }

  lemma AdvanceKeepsOneActive(db: Scans, id: Id, status: TaskStatus, observedFiles: nat, errors: nat)
    requires OneActiveScan(db)
    ensures OneActiveScan(AdvanceTx(db, id, status, observedFiles, errors))
  {
  }
}
