/**
 What the runs of AutomationRuns promise over time: stale workers are fenced, an event completes at most
 once under one downstream request, a retry budget bounds claims and delays, commands apply once, and the
 outbox alone rebuilds the public state of every event.
 */
module AutomationHistory {
  import opened Outcomes
  import opened Int64
  import opened Ordering
  import opened Texts
  import opened AutomationEvents
  import opened AutomationRuns
  import D = ReconcileRequests

  // ---- What one step does to one event ----------------------------------------------------------

  /** The step spends one attempt of the event, whether its payload opens or not. */
  ghost predicate Attempts(w: World, s: Step, id: Id) {
    Claims(w, s) && FirstDue(w.store.events, s.now) == Some(id)
  }

  ghost predicate Leases(w: World, s: Step, id: Id) {
    Attempts(w, s, id) && id !in s.unreadable
  }

  /** A retry command takes effect and opens a fresh budget. */
  ghost predicate Renews(w: World, s: Step, id: Id) {
    && s.Command? && s.operation.Retry? && s.id == id
    && ValidKey(s.key) && CommandKey(id, s.key) !in w.store.receipts
    && id in w.store.events && w.store.events[id].status.Failed?
  }

  /** A worker reports on the event and the report takes effect. */
  ghost predicate Commits(w: World, s: Step, id: Id) {
    && s.Report? && s.worker in w.workers && w.workers[s.worker].Answered?
    && w.workers[s.worker].lease.id == id
    && Holds(w.store, w.workers[s.worker].lease)
  }

  ghost predicate Completes(w: World, s: Step, id: Id) {
    Commits(w, s, id) && w.workers[s.worker].answer.Delivered?
  }

  /** How far ahead a failed attempt schedules the next one. Reclaiming retries at once. */
  ghost function Delay(w: World, s: Step, id: Id): int {
    if Commits(w, s, id) && w.workers[s.worker].answer.Refused? then
      var retry := RetryAt(w.workers[s.worker].lease, w.workers[s.worker].answer.recoverable, s.now);
      if retry.Some? then retry.value - s.now else 0
    else 0
  }

  ghost predicate RowFollows(w: World, s: Step, id: Id, before: Event, after: Event) {
    && after.attempts == (if Attempts(w, s, id) then before.attempts + 1 else if Renews(w, s, id) then 0 else before.attempts)
    && (Leases(w, s, id) ==> after.status.Running? && after.leaseToken == Some(w.store.nextId))
    && (after.status.Running? && !Leases(w, s, id) ==> after == before)
    && (before.status.Running? && !after.status.Running? ==> s.Report? || s.Reclaim?)
    && (Renews(w, s, id) ==> !after.status.Running?)
    && (after.status.Completed? <==> before.status.Completed? || Completes(w, s, id))
    && (before.status.Completed? || before.status.Cancelled? ==> after == before)
    && SameIdentity(before, after)
  }

  /** The step's effect on an existing row, and on nothing but existing rows unless it inserts. */
  ghost predicate Follows(w: World, s: Step, id: Id) {
    var after := Apply(w, s).store.events;
    if id in w.store.events then id in after && RowFollows(w, s, id, w.store.events[id], after[id])
    else id in after ==> s.Insert? && after[id] == NewEvent(s.source, s.dedup, s.payload, s.now)
  }

  lemma ReclaimRowFollows(db: Tables, ids: seq<Id>, now: I64, id: Id)
    requires forall x | x in ids :: x in db.events
    requires forall j, k | 0 <= j < k < |ids| :: ids[j] != ids[k]
    ensures var events := ReclaimTx(db, ids, now).events;
            && (id in events <==> id in db.events)
            && (id in db.events ==>
                  events[id] == if id in ids then db.events[id].Abandoned(now).(version := db.events[id].version + 1)
                                else db.events[id])
  {
    ReclaimRows(db, ids, now);
  }

  lemma ReclaimFollows(w: World, s: Step, id: Id)
    requires s.Reclaim?
    ensures Follows(w, s, id)
  {
    var ids, events := ExpiredBatch(w.store.events, s.now), w.store.events;
    assert Apply(w, s).store == ReclaimTx(w.store, ids, s.now);
    ReclaimRowFollows(w.store, ids, s.now, id);
  }

  lemma ClaimFollows(w: World, s: Step, id: Id)
    requires s.Claim?
    requires id in w.store.events ==> RowOk(w.store.events[id])
    ensures Follows(w, s, id)
  {
    if Claims(w, s) {
      var step := ClaimStep(w, s.worker, s.now + s.duration, s.now, s.unreadable);
      assert Apply(w, s) == step;
    }
  }

  lemma ReportFollows(w: World, s: Step, id: Id)
    requires s.Report?
    requires id in w.store.events ==> RowOk(w.store.events[id])
    ensures Follows(w, s, id)
  {
    if s.worker in w.workers && w.workers[s.worker].Answered? {
      assert Apply(w, s).store == ReportTx(w.store, w.workers[s.worker], s.now);
    }
  }

  lemma CommandFollows(w: World, s: Step, id: Id)
    requires s.Command?
    requires id in w.store.events ==> RowOk(w.store.events[id])
    ensures Follows(w, s, id)
  {
    assert Apply(w, s).store == CommandTx(w.store, s.id, s.operation, s.key, s.now).0;
  }

  lemma StepFollows(w: World, s: Step, id: Id)
    requires id in w.store.events ==> RowOk(w.store.events[id]) && id < w.store.nextId
    ensures Follows(w, s, id)
  {
    match s
    case Claim(_, _, _, _) => ClaimFollows(w, s, id);
    case Report(_, _) => ReportFollows(w, s, id);
    case Reclaim(_) => ReclaimFollows(w, s, id);
    case Command(_, _, _, _) => CommandFollows(w, s, id);
    case Insert(source, dedup, payload, now) =>
      assert Apply(w, s).store == InsertTx(w.store, source, dedup, payload, now).0;
    case _ => assert Apply(w, s).store == w.store;
  }

  // ---- Histories of a run ----------------------------------------------------------------------

  ghost function Before(steps: seq<Step>): World
    requires steps != []
  {
    Exec(steps[..|steps| - 1])
  }

  ghost function Last(steps: seq<Step>): Step
    requires steps != []
  {
    steps[|steps| - 1]
  }

  /** The token of the newest lease the run has handed out for the event. */
  ghost function NewestToken(steps: seq<Step>, id: Id): Option<Id> {
    if steps == [] then None
    else if Leases(Before(steps), Last(steps), id) then Some(Before(steps).store.nextId)
    else NewestToken(steps[..|steps| - 1], id)
  }

  /** Claims of the event since it was inserted or last renewed. */
  ghost function ClaimsInBudget(steps: seq<Step>, id: Id): nat {
    if steps == [] then 0 else
      var earlier := ClaimsInBudget(steps[..|steps| - 1], id);
      if Renews(Before(steps), Last(steps), id) then 0
      else if Attempts(Before(steps), Last(steps), id) then earlier + 1
      else earlier
  }

  /** Microseconds of retry delay scheduled since the event was inserted or last renewed. */
  ghost function DelayInBudget(steps: seq<Step>, id: Id): int {
    if steps == [] then 0
    else if Renews(Before(steps), Last(steps), id) then 0
    else DelayInBudget(steps[..|steps| - 1], id) + Delay(Before(steps), Last(steps), id)
  }

  ghost function Completions(steps: seq<Step>, id: Id): nat {
    if steps == [] then 0
    else Completions(steps[..|steps| - 1], id) + if Completes(Before(steps), Last(steps), id) then 1 else 0
  }

  lemma Extend(steps: seq<Step>, id: Id)
    requires steps != []
    ensures WorldOk(Before(steps)) && WorldOk(Exec(steps))
    ensures Exec(steps) == Apply(Before(steps), Last(steps))
    ensures Follows(Before(steps), Last(steps), id)
  {
    EveryRunIsOk(steps[..|steps| - 1]);
    EveryRunIsOk(steps);
    StepFollows(Before(steps), Last(steps), id);
  }

  // ---- Fencing ---------------------------------------------------------------------------------

  lemma {:induction false} RunningHoldsNewest(steps: seq<Step>, id: Id)
    ensures id in Exec(steps).store.events && Exec(steps).store.events[id].status.Running? ==>
              Exec(steps).store.events[id].leaseToken == NewestToken(steps, id)
  {
    if steps != [] {
      RunningHoldsNewest(steps[..|steps| - 1], id);
      Extend(steps, id);
    }
  }

  /**
   Stale workers are fenced by token: a report takes effect exactly when the event is running and the
   worker holds the newest lease ever handed out for it; every other report leaves the tables as they are.
   The lease's deadline plays no part.
   */
  lemma OnlyTheNewestLeaseCommits(steps: seq<Step>, s: Step)
    requires s.Report? && s.worker in Exec(steps).workers && Exec(steps).workers[s.worker].Answered?
    ensures var w := Exec(steps);
            var lease := w.workers[s.worker].lease;
            && lease.id in w.store.events
            && (Commits(w, s, lease.id) <==>
                  w.store.events[lease.id].status.Running? && NewestToken(steps, lease.id) == Some(lease.token))
            && (Commits(w, s, lease.id) <==> Apply(w, s).store != w.store)
  {
    var w := Exec(steps);
    var lease := w.workers[s.worker].lease;
    EveryRunIsOk(steps);
    assert WorkerOk(w.store, w.downstream, w.workers[s.worker]);
    RunningHoldsNewest(steps, lease.id);
    assert Apply(w, s).store == ReportTx(w.store, w.workers[s.worker], s.now);
    if Holds(w.store, lease) {
      assert Apply(w, s).store.events[lease.id].version == w.store.events[lease.id].version + 1;
    }
  }

  // ---- Completion ------------------------------------------------------------------------------

  /** An event completes at most once in its life, and is completed exactly when it has. */
  lemma {:induction false} CompletesAtMostOnce(steps: seq<Step>, id: Id)
    ensures Completions(steps, id) ==
              if id in Exec(steps).store.events && Exec(steps).store.events[id].status.Completed? then 1 else 0
  {
    if steps != [] {
      CompletesAtMostOnce(steps[..|steps| - 1], id);
      Extend(steps, id);
      var w := Before(steps);
      if Completes(w, Last(steps), id) {
        assert w.store.events[id].status.Running?;
      }
    }
  }

  /** Completed and cancelled events never change again, and no event ever changes what it was inserted for. */
  lemma {:induction false} TerminalForEver(steps: seq<Step>, more: seq<Step>, id: Id)
    requires id in Exec(steps).store.events
    ensures id in Exec(steps + more).store.events
    ensures SameIdentity(Exec(steps).store.events[id], Exec(steps + more).store.events[id])
    ensures Exec(steps).store.events[id].status.Completed? || Exec(steps).store.events[id].status.Cancelled? ==>
              Exec(steps + more).store.events[id] == Exec(steps).store.events[id]
  {
    if more == [] {
      assert steps + more == steps;
    } else {
      var n := |more| - 1;
      TerminalForEver(steps, more[..n], id);
      assert (steps + more)[..|steps + more| - 1] == steps + more[..n];
      Extend(steps + more, id);
    }
  }

  /**
   Across every crash, reclaim and repeated claim, an inbox-reconcile event has at most one downstream
   request, made for its own inbox; once the event is completed, that request is the one it stores, and
   every worker that still carries an answer home carries that same request.
   */
  lemma OneRequestPerEvent(steps: seq<Step>, id: Id)
    requires id in Exec(steps).store.events && Exec(steps).store.events[id].request.Reconcile?
    ensures var w := Exec(steps);
            var row := w.store.events[id];
            && (forall a, b | a in w.downstream.rows && b in w.downstream.rows
                            && w.downstream.rows[a].key == D.EventKey(id) && w.downstream.rows[b].key == D.EventKey(id) ::
                  a == b && w.downstream.rows[a].inbox == row.request.inbox)
            && (row.status.Completed? ==>
                  row.downstream.Some? && IsRequestOf(w.downstream, row.downstream.value, id, row.request.inbox))
            && (forall p | p in w.workers && w.workers[p].lease.id == id && w.workers[p].Answered?
                         && w.workers[p].answer.Delivered? ::
                  IsRequestOf(w.downstream, w.workers[p].answer.result, id, row.request.inbox))
  {
    EveryRunIsOk(steps);
    var w := Exec(steps);
    assert RowOk(w.store.events[id]);
    assert EventsMatch(w.store, w.downstream);
    forall p | p in w.workers && w.workers[p].lease.id == id && w.workers[p].Answered? && w.workers[p].answer.Delivered?
      ensures IsRequestOf(w.downstream, w.workers[p].answer.result, id, w.store.events[id].request.inbox)
    {
      assert WorkerOk(w.store, w.downstream, w.workers[p]);
    }
  }

  /** Delivering an event again never meets a key conflict, and answers with the request it already has. */
  lemma DeliveryIsIdempotent(steps: seq<Step>, s: Step, r: Id)
    requires s.Deliver? && s.worker in Exec(steps).workers && Exec(steps).workers[s.worker].Working?
    requires Exec(steps).workers[s.worker].lease.payload.Reconcile?
    requires r in Exec(steps).downstream.rows
    requires Exec(steps).downstream.rows[r].key == D.EventKey(Exec(steps).workers[s.worker].lease.id)
    ensures var after := Apply(Exec(steps), s);
            && after.workers[s.worker].answer.Delivered?
            && after.workers[s.worker].answer.result.id == r
            && after.downstream.rows.Keys == Exec(steps).downstream.rows.Keys
            && after.downstream.scans == Exec(steps).downstream.scans
  {
    EveryRunIsOk(steps);
    var w := Exec(steps);
    var lease := w.workers[s.worker].lease;
    assert WorkerOk(w.store, w.downstream, w.workers[s.worker]);
    assert w.store.events[lease.id].request == Reconcile(w.downstream.rows[r].inbox);
    D.AcceptIsIdempotent(w.downstream, D.EventKey(lease.id), lease.payload.inbox, s.now);
    var (downstream, answer) := DeliverTx(w.downstream, lease, s.now, s.external);
    assert Apply(w, s) == w.(downstream := downstream, workers := w.workers[s.worker := Answered(lease, answer)]);
  }

  // ---- Budget ----------------------------------------------------------------------------------

  lemma {:induction false} Pow2Grows(n: nat)
    requires n <= 9
    ensures 1 <= Pow2(n) <= 512 && (n == 9 ==> Pow2(n) == 512)
  {
    if n > 0 {
      Pow2Grows(n - 1);
      assert n == 1 || n == 2 || n == 3 || n == 4 || n == 5 || n == 6 || n == 7 || n == 8 || n == 9;
      assert Pow2(0) == 1 && Pow2(1) == 2 && Pow2(2) == 4 && Pow2(3) == 8 && Pow2(4) == 16;
      assert Pow2(5) == 32 && Pow2(6) == 64 && Pow2(7) == 128 && Pow2(8) == 256 && Pow2(9) == 512;
    }
  }

  lemma BackoffDoubles(attempt: nat)
    requires 1 <= attempt <= MAX_ATTEMPTS
    ensures Backoff(attempt) == 1_000_000 * Pow2(attempt - 1)
  {
    Pow2Grows(attempt - 1);
  }

  /** Attempts whose failure, if recoverable, has had its delay scheduled. */
  ghost function Spent(row: Event): nat {
    var settled := if row.status.Running? && row.attempts > 0 then row.attempts - 1 else row.attempts;
    if settled > MAX_ATTEMPTS - 1 then MAX_ATTEMPTS - 1 else settled
  }

  lemma DelayIsOneBackoff(w: World, s: Step, id: Id)
    requires WorldOk(w) && id in w.store.events
    ensures 0 <= Delay(w, s, id)
    ensures Delay(w, s, id) > 0 ==>
              && w.store.events[id].status.Running?
              && 1 <= w.store.events[id].attempts < MAX_ATTEMPTS
              && Delay(w, s, id) <= 1_000_000 * Pow2(w.store.events[id].attempts - 1)
              && Commits(w, s, id)
  {
    if Commits(w, s, id) {
      assert WorkerOk(w.store, w.downstream, w.workers[s.worker]);
      assert RowOk(w.store.events[id]);
      BackoffDoubles(w.store.events[id].attempts);
      Pow2Grows(w.store.events[id].attempts - 1);
    }
  }

  lemma Pow2Monotone(a: nat, b: nat)
    requires a <= b
    ensures 1 <= Pow2(a) <= Pow2(b)
  {
    if a < b {
      Pow2Monotone(a, b - 1);
    } else if a > 0 {
      Pow2Monotone(a - 1, a - 1);
    }
  }

  lemma DelayStep(w: World, s: Step, id: Id, earlier: int)
    requires WorldOk(w) && id in w.store.events && Follows(w, s, id)
    requires 0 <= earlier <= 1_000_000 * (Pow2(Spent(w.store.events[id])) - 1)
    ensures var after := Apply(w, s).store.events[id];
            !Renews(w, s, id) ==> 0 <= earlier + Delay(w, s, id) <= 1_000_000 * (Pow2(Spent(after)) - 1)
  {
    var row := w.store.events[id];
    var after := Apply(w, s).store.events[id];
    DelayIsOneBackoff(w, s, id);
    assert RowOk(row);
    if Delay(w, s, id) > 0 {
      assert Spent(row) == row.attempts - 1 && Pow2(row.attempts) == 2 * Pow2(row.attempts - 1);
      assert !after.status.Running? by {
        assert !Leases(w, s, id);
        assert Apply(w, s).store == ReportTx(w.store, w.workers[s.worker], s.now);
      }
      assert Spent(after) == row.attempts;
    } else if !Renews(w, s, id) {
      Pow2Monotone(Spent(row), Spent(after));
    }
  }

  /**
   A retry budget allows at most ten claims, and `attempt_count` is exactly the number of claims spent; the
   delays scheduled within one budget sum to at most 511 seconds, whatever the interleaving.
   */
  lemma {:induction false} BudgetBoundsClaimsAndDelays(steps: seq<Step>, id: Id)
    ensures id !in Exec(steps).store.events ==> ClaimsInBudget(steps, id) == 0 && DelayInBudget(steps, id) == 0
    ensures id in Exec(steps).store.events ==>
              && ClaimsInBudget(steps, id) == Exec(steps).store.events[id].attempts <= MAX_ATTEMPTS
              && 0 <= DelayInBudget(steps, id) <= 1_000_000 * (Pow2(Spent(Exec(steps).store.events[id])) - 1)
    ensures DelayInBudget(steps, id) <= 511_000_000
  {
    if steps != [] {
      BudgetBoundsClaimsAndDelays(steps[..|steps| - 1], id);
      Extend(steps, id);
      var w := Before(steps);
      if id in w.store.events {
        DelayStep(w, Last(steps), id, DelayInBudget(steps[..|steps| - 1], id));
        assert RowOk(Exec(steps).store.events[id]);
      }
      if id in Exec(steps).store.events {
        Pow2Monotone(Spent(Exec(steps).store.events[id]), 9);
        Pow2Grows(9);
      }
    }
  }

  /**
   In every reachable table the status says which columns are set and how many attempts are spent, and a
   worker whose lease is still the current one counts the attempts as the row does.
   */
  lemma StatusSaysWhatIsSet(steps: seq<Step>, id: Id, worker: Id)
    requires id in Exec(steps).store.events
    ensures var w := Exec(steps);
            var row := w.store.events[id];
            && (row.status.Running? <==> row.leaseToken.Some?) && (row.status.Running? <==> row.leaseExpires.Some?)
            && (row.status.RetryWait? <==> row.retryAt.Some?)
            && (row.status.Completed? <==> row.downstream.Some?)
            && (row.status.Pending? ==> row.attempts == 0)
            && (row.status.RetryWait? ==> 1 <= row.attempts <= 9) && row.attempts <= 10
            && (worker in w.workers && w.workers[worker].lease.id == id && Holds(w.store, w.workers[worker].lease) ==>
                  w.workers[worker].lease.attempt == row.attempts)
  {
    EveryRunIsOk(steps);
    var w := Exec(steps);
    assert RowOk(w.store.events[id]);
    assert worker in w.workers ==> WorkerOk(w.store, w.downstream, w.workers[worker]);
  }

  /** The claim guard on attempts never strands an event: whatever waits to be claimed becomes due. */
  lemma WaitingEventsBecomeDue(steps: seq<Step>, id: Id, now: I64)
    requires id in Exec(steps).store.events
    requires Exec(steps).store.events[id].status.Pending? || Exec(steps).store.events[id].status.RetryWait?
    requires Exec(steps).store.events[id].retryAt.Some? ==> Exec(steps).store.events[id].retryAt.value <= now
    ensures Due(Exec(steps).store.events[id], now)
    ensures FirstDue(Exec(steps).store.events, now).Some?
  {
    EveryRunIsOk(steps);
    assert RowOk(Exec(steps).store.events[id]);
  }

  // ---- Outbox ----------------------------------------------------------------------------------

  /** Fold the outbox into the last word about every event. */
  ghost function Replay(outbox: seq<Change>): map<Id, Change> {
    if outbox == [] then map[] else
      Replay(outbox[..|outbox| - 1])[outbox[|outbox| - 1].event := outbox[|outbox| - 1]]
  }

  lemma {:induction false} ReplayIsLastWord(outbox: seq<Change>, id: Id)
    ensures id in Replay(outbox) <==> Log(outbox, id) != []
    ensures id in Replay(outbox) ==> Replay(outbox)[id] == Log(outbox, id)[|Log(outbox, id)| - 1]
  {
    if outbox != [] {
      ReplayIsLastWord(outbox[..|outbox| - 1], id);
    }
  }

  lemma LogsRebuild(db: Tables)
    requires forall id :: Logged(db, id)
    ensures Replay(db.outbox) == map id | id in db.events :: ChangeOf(id, db.events[id])
  {
    forall id
      ensures id in Replay(db.outbox) <==> id in db.events
      ensures id in db.events ==> Replay(db.outbox)[id] == ChangeOf(id, db.events[id])
    {
      ReplayIsLastWord(db.outbox, id);
      assert Logged(db, id);
    }
  }

  /**
   For every event the outbox holds versions 1, 2, ..., current without gap or repeat, and replaying the
   outbox alone rebuilds version, status, action and failure of every event, after every step of every run.
   */
  lemma OutboxRebuildsEvents(steps: seq<Step>)
    ensures var db := Exec(steps).store;
            && (forall id | id in db.events ::
                  && |Log(db.outbox, id)| == db.events[id].version
                  && forall k | 0 <= k < |Log(db.outbox, id)| :: Log(db.outbox, id)[k].version == k + 1)
            && Replay(db.outbox) == map id | id in db.events :: ChangeOf(id, db.events[id])
  {
    var db := Exec(steps).store;
    assert forall id :: Logged(db, id) by {
      EveryRunIsOk(steps);
    }
    LogsRebuild(db);
    forall id | id in db.events
      ensures |Log(db.outbox, id)| == db.events[id].version
      ensures forall k | 0 <= k < |Log(db.outbox, id)| :: Log(db.outbox, id)[k].version == k + 1
    {
      assert Logged(db, id);
    }
  }

  // ---- Commands --------------------------------------------------------------------------------

  lemma {:induction false} ReceiptsAreKept(steps: seq<Step>, more: seq<Step>, key: CommandKey)
    requires key in Exec(steps).store.receipts && key.event in Exec(steps).store.events
    ensures key in Exec(steps + more).store.receipts
    ensures Exec(steps + more).store.receipts[key] == Exec(steps).store.receipts[key]
  {
    if more == [] {
      assert steps + more == steps;
    } else {
      var n := |more| - 1;
      ReceiptsAreKept(steps, more[..n], key);
      assert (steps + more)[..|steps + more| - 1] == steps + more[..n];
      ReceiptStays(Before(steps + more), Last(steps + more), key);
    }
  }

  lemma ReceiptStays(w: World, s: Step, key: CommandKey)
    requires key in w.store.receipts
    ensures key in Apply(w, s).store.receipts && Apply(w, s).store.receipts[key] == w.store.receipts[key]
  {
    match s
    case Reclaim(now) => ReclaimKeepsReceipts(w.store, ExpiredBatch(w.store.events, now), now);
    case Claim(worker, now, duration, unreadable) =>
      if Claims(w, s) {
        assert Apply(w, s) == ClaimStep(w, worker, now + duration, now, unreadable);
      }
    case Report(worker, now) =>
      if worker in w.workers && w.workers[worker].Answered? {
        assert Apply(w, s).store == ReportTx(w.store, w.workers[worker], now);
      }
    case Command(id, operation, k, now) => assert Apply(w, s).store == CommandTx(w.store, id, operation, k, now).0;
    case Insert(source, dedup, payload, now) =>
      assert Apply(w, s).store == InsertTx(w.store, source, dedup, payload, now).0;
    case _ => assert Apply(w, s).store == w.store;
  }

  lemma {:induction false} ReclaimKeepsReceipts(db: Tables, ids: seq<Id>, now: I64)
    requires forall id | id in ids :: id in db.events
    ensures ReclaimTx(db, ids, now).receipts == db.receipts
  {
    if ids != [] {
      ReclaimKeepsReceipts(db, ids[..|ids| - 1], now);
    }
  }

  /**
   A command applies once. After it succeeded, and whatever happened since, the same key with the same
   operation changes nothing and answers with the event as it is, and with the other operation conflicts.
   */
  lemma CommandsApplyOnce(steps: seq<Step>, more: seq<Step>, id: Id, operation: Operation, key: string, now: I64, again: I64)
    requires CommandTx(Exec(steps).store, id, operation, key, now).1.Ok?
    ensures var later := Exec(steps + [Command(id, operation, key, now)] + more).store;
            && id in later.events
            && CommandTx(later, id, operation, key, again) == (later, Ok(later.events[id]))
            && (forall other | other != operation :: CommandTx(later, id, other, key, again) == (later, Err(Conflict)))
  {
    var issued := steps + [Command(id, operation, key, now)];
    assert issued[..|issued| - 1] == steps;
    assert Exec(issued).store == CommandTx(Exec(steps).store, id, operation, key, now).0;
    ReceiptsAreKept(issued, more, CommandKey(id, key));
    TerminalForEver(issued, more, id);
  }

  // ---- Claiming in order -----------------------------------------------------------------------

  ghost function ClaimKey(row: Event, id: Id): Key {
    Key(row.createdAt, id)
  }

  /** Every due event with a key before `bound` had an unreadable payload and has been failed. */
  ghost predicate RefusedBefore(db: Tables, next: Tables, now: I64, unreadable: set<Id>, bound: Option<Key>) {
    && next.events.Keys == db.events.Keys
    && (forall id | id in db.events && db.events[id].status.Failed? :: next.events[id] == db.events[id])
    && (forall id | id in db.events && Due(db.events[id], now) && (bound.Some? ==> Below(ClaimKey(db.events[id], id), bound.value)) ::
          id in unreadable && next.events[id].status.Failed?)
  }

  ghost predicate TookOldest(db: Tables, next: Tables, lease: Option<Lease>, now: I64, unreadable: set<Id>, rounds: nat) {
    && (lease.Some? ==>
          && lease.value.id in db.events && lease.value.id !in unreadable
          && Due(db.events[lease.value.id], now)
          && RefusedBefore(db, next, now, unreadable, Some(ClaimKey(db.events[lease.value.id], lease.value.id))))
    && (lease.None? && |DueKeys(db.events, now)| < rounds ==> RefusedBefore(db, next, now, unreadable, None))
  }

  lemma RefusingOneMore(db: Tables, mid: Tables, next: Tables, first: Id, lease: Option<Lease>, now: I64,
                        unreadable: set<Id>, rounds: nat)
    requires first in db.events && Due(db.events[first], now) && first in unreadable
    requires mid == Publish(db, first, db.events[first].Unreadable(now))
    requires TookOldest(mid, next, lease, now, unreadable, rounds)
    ensures TookOldest(db, next, lease, now, unreadable, rounds + 1)
  {
    RejectingShrinks(db, mid, first, now);
    assert forall id | id in db.events && id != first :: mid.events[id] == db.events[id];
    assert mid.events[first].status.Failed?;
  }

  lemma FirstReadable(db: Tables, id: Id, row: Event, now: I64, unreadable: set<Id>, lease: Lease, rounds: nat)
    requires FirstDue(db.events, now) == Some(id) && id !in unreadable && lease.id == id
    ensures TookOldest(db, Publish(db, id, row), Some(lease), now, unreadable, rounds)
  {
  }

  /**
   A claim takes the oldest due event whose payload opens. Every older due event had an unreadable payload
   and is now failed; if nothing was leased although rounds were left, no due event had a readable payload.
   */
  lemma {:induction false} ClaimTakesOldestReadable(db: Tables, token: Id, expires: I64, now: I64, unreadable: set<Id>, rounds: nat)
    ensures var (next, lease) := ClaimRoundsTx(db, token, expires, now, unreadable, rounds);
            TookOldest(db, next, lease, now, unreadable, rounds)
    decreases rounds
  {
    var first := FirstDue(db.events, now);
    if rounds > 0 && first.Some? {
      var row := db.events[first.value];
      if first.value in unreadable {
        var mid := Publish(db, first.value, row.Unreadable(now));
        ClaimTakesOldestReadable(mid, token, expires, now, unreadable, rounds - 1);
        var (next, lease) := ClaimRoundsTx(mid, token, expires, now, unreadable, rounds - 1);
        RefusingOneMore(db, mid, next, first.value, lease, now, unreadable, rounds - 1);
      } else {
        FirstReadable(db, first.value, row.Leased(token, expires, now), now, unreadable, LeaseOf(first.value, row, token), rounds);
      }
    }
  }

  lemma RejectingShrinks(db: Tables, next: Tables, id: Id, now: I64)
    requires id in db.events && Due(db.events[id], now)
    requires next == Publish(db, id, db.events[id].Unreadable(now))
    ensures |DueKeys(next.events, now)| == |DueKeys(db.events, now)| - 1
  {
    var key := ClaimKey(db.events[id], id);
    assert key in DueKeys(db.events, now);
    forall k
      ensures k in DueKeys(next.events, now) <==> k in DueKeys(db.events, now) - {key}
    {
      if k in DueKeys(db.events, now) - {key} {
        var other :| other in db.events && Due(db.events[other], now) && k == Key(db.events[other].createdAt, other);
        assert next.events[other] == db.events[other];
      }
    }
    assert DueKeys(next.events, now) == DueKeys(db.events, now) - {key};
  }

  /** Unless a thousand leases had expired at once, reclaiming leaves none behind and touches nothing else. */
  lemma ReclaimLeavesNoneExpired(db: Tables, now: I64)
    requires ReclaimExpiredTx(db, now).1 < RECLAIM_BATCH
    ensures var next := ReclaimExpiredTx(db, now).0;
            && next.events.Keys == db.events.Keys
            && (forall id | id in db.events :: !Expired(next.events[id], now))
            && (forall id | id in db.events && !Expired(db.events[id], now) :: next.events[id] == db.events[id])
  {
    ReclaimRows(db, ExpiredBatch(db.events, now), now);
  }
}
