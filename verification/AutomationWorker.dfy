/**
 The worker's unit of work as its code drives the stores: claim, call downstream under a key made from
 the event id, report. Here nothing happens in between; AutomationRuns lets everything happen in between.
 */
module AutomationWorkers {
  import opened Outcomes
  import opened Int64
  import opened AutomationEvents
  import opened AutomationRuns
  import D = ReconcileRequests

  /** The clock as the worker reads it: before the claim, at the downstream call and at the report. */
  datatype Clock = Clock(claim: I64, deliver: I64, report: I64)

  function ReportAnswerTx(db: Tables, lease: Lease, answer: Answer, now: I64): (Tables, Result<(), Error>) {
    match answer
    case Delivered(result) => CompleteTx(db, lease, result, now)
    case Refused(code, recoverable) => FailTx(db, lease, code, recoverable, now)
  }

  function RunOnceTx(db: Tables, requests: D.Requests, clock: Clock, duration: I64, unreadable: set<Id>, external: Answer)
    : (Tables, D.Requests, Result<Option<Id>, Error>)
  {
    var (claimed, lease) := ClaimOneTx(db, clock.claim, duration, unreadable);
    match lease
    case Err(error) => (claimed, requests, Err(error))
    case Ok(None) => (claimed, requests, Ok(None))
    case Ok(Some(lease)) =>
      var (next, answer) := DeliverTx(requests, lease, clock.deliver, external);
      var (reported, r) := ReportAnswerTx(claimed, lease, answer, clock.report);
      (reported, next, if r.Ok? then Ok(Some(lease.id)) else Err(r.error))
  }

  class AutomationWorker {
    const store: AutomationEventStore
    const reconciles: D.ReconcileRequestService

    constructor (store: AutomationEventStore, reconciles: D.ReconcileRequestService)
      ensures this.store == store && this.reconciles == reconciles
    {
      this.store, this.reconciles := store, reconciles;
    }

    /** A download port answers `external`; a reconcile goes to the request service. */
    method CallDownstream(lease: Lease, now: I64, external: Answer) returns (answer: Answer)
      modifies reconciles
      ensures (reconciles.Contents(), answer) == DeliverTx(old(reconciles.Contents()), lease, now, external)
    {
      match lease.payload {
        case Download(_, _, _) => answer := external;
        case Reconcile(inbox) =>
          var view := reconciles.Accept(D.EventKey(lease.id), inbox, now);
          match view {
            case Ok(accepted) =>
              var observed := accepted.row.observedFiles;
              answer := Delivered(Downstream(ReconcileRequest, accepted.id, if observed.Some? then observed.value else 0));
            case Err(error) => answer := FailureOf(error);
          }
      }
    }

    method RunOnce(clock: Clock, duration: I64, unreadable: set<Id>, external: Answer) returns (r: Result<Option<Id>, Error>)
      modifies store, reconciles
      ensures (store.Contents(), reconciles.Contents(), r)
              == RunOnceTx(old(store.Contents()), old(reconciles.Contents()), clock, duration, unreadable, external)
    {
      var claimed := store.ClaimOne(clock.claim, duration, unreadable);
      if claimed.Err? {
        return Err(claimed.error);
      }
      if claimed.value.None? {
        return Ok(None);
      }
      var lease := claimed.value.value;
      var answer := CallDownstream(lease, clock.deliver, external);
      var reported;
      match answer {
        case Delivered(result) => reported := store.Complete(lease, result, clock.report);
        case Refused(code, recoverable) => reported := store.Fail(lease, code, recoverable, clock.report);
      }
      r := if reported.Ok? then Ok(Some(lease.id)) else Err(reported.error);
    }
  }

  // ---- An undisturbed run always lands ------------------------------------------------------------

  /** The event stands as the answer says: completed with its downstream, waiting for a retry, or failed. */
  predicate Stands(row: Event, answer: Answer) {
    && row.leaseToken.None?
    && match answer
       case Delivered(result) => row.status.Completed? && row.downstream == Some(result)
       case Refused(code, recoverable) =>
         && row.failure == Some(code)
         && if recoverable && row.attempts < MAX_ATTEMPTS then row.status.RetryWait? else row.status.Failed?
  }

  lemma HeldReportsLand(db: Tables, lease: Lease, answer: Answer, now: I64)
    requires Holds(db, lease) && lease.attempt == db.events[lease.id].attempts
    ensures var (next, r) := ReportAnswerTx(db, lease, answer, now);
            r == Ok(()) && lease.id in next.events && Stands(next.events[lease.id], answer)
  {
  }

  /** Undisturbed, the worker's report is always accepted, and the event stands as the downstream answered. */
  lemma UndisturbedWorkIsReported(db: Tables, requests: D.Requests, clock: Clock, duration: I64, unreadable: set<Id>,
                                  external: Answer, lease: Lease)
    requires ClaimOneTx(db, clock.claim, duration, unreadable).1 == Ok(Some(lease))
    ensures var answer := DeliverTx(requests, lease, clock.deliver, external).1;
            var (next, _, r) := RunOnceTx(db, requests, clock, duration, unreadable, external);
            r == Ok(Some(lease.id)) && lease.id in next.events && Stands(next.events[lease.id], answer)
  {
    var claimed := ClaimOneTx(db, clock.claim, duration, unreadable).0;
    var answer := DeliverTx(requests, lease, clock.deliver, external).1;
    HeldReportsLand(claimed, lease, answer, clock.report);
    assert RunOnceTx(db, requests, clock, duration, unreadable, external).0 == ReportAnswerTx(claimed, lease, answer, clock.report).0;
  }
}
