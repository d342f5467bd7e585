/**
 Capability calls run at most once. A call is claimed durably before its handler runs and completed
 together with its result and event; a repeated call is answered from the stored result. A call stands
 for its canonical fingerprint.
 */
module CapabilityClaims {
  import opened Outcomes

  type Id = nat

  datatype Name = Scan | TaskStatus | MatchCandidates | CreatePlan | RequestApproval | ApplyPlan | Retry | Cancel | Rollback | SyncExternal

  /** `envelope` is everything else in the call: session, task, actor, input and execution limits. */
  datatype Call = Call(request: Id, capability: Name, key: string, envelope: string)

  datatype Claim = Claim(call: Call, completed: bool)

  /** `claimed` tells the rows of the claim protocol from rows other code recorded. */
  datatype CallRow = CallRow(capability: Name, key: string, result: string, claimed: bool)

  datatype Event = Event(request: Id, result: string)

  datatype Tables = Tables(claims: map<Id, Claim>, calls: map<Id, CallRow>, events: seq<Event>)

  datatype ClaimOutcome = Available | Owned | Replay(result: string) | Conflict | Pending

  datatype Error = RequestConflict | Internal

  /** The request id, or the capability under this key, is taken by another claim or an old call. */
  predicate Occupied(db: Tables, call: Call) {
    || (exists id :: id in db.claims && db.claims[id].call.capability == call.capability && db.claims[id].call.key == call.key)
    || call.request in db.calls
    || (exists id :: id in db.calls && db.calls[id].capability == call.capability && db.calls[id].key == call.key)
  }

  function ClaimTx(db: Tables, call: Call, reserve: bool): (Tables, Result<ClaimOutcome, Error>) {
    if call.request in db.claims then
      var claim := db.claims[call.request];
      if claim.call != call then (db, Ok(Conflict))
      else if !claim.completed then (db, Ok(Pending))
      else if call.request in db.calls then (db, Ok(Replay(db.calls[call.request].result)))
      else (db, Err(Internal))
    else if Occupied(db, call) then (db, Ok(Conflict))
    else if reserve then (db.(claims := db.claims[call.request := Claim(call, false)]), Ok(Owned))
    else (db, Ok(Available))
  }

  function CompleteTx(db: Tables, call: Call, result: string): (Tables, Result<(), Error>) {
    if call.request !in db.claims || db.claims[call.request] != Claim(call, false) then (db, Err(RequestConflict))
    else if call.request in db.calls then (db, Err(Internal))
    else
      (Tables(db.claims[call.request := Claim(call, true)],
              db.calls[call.request := CallRow(call.capability, call.key, result, true)],
              db.events + [Event(call.request, result)]), Ok(()))
  }

  /** Recording a call outside the claim protocol, as older code paths do. */
  function RecordTx(db: Tables, request: Id, capability: Name, key: string, result: string): Tables {
    if request in db.calls then db
    else db.(calls := db.calls[request := CallRow(capability, key, result, false)])
  }

  class CapabilityStore {
    var claims: map<Id, Claim>
    var calls: map<Id, CallRow>
    var events: seq<Event>

    ghost function Contents(): Tables
      reads this
    {
      Tables(claims, calls, events)
    }

    constructor ()
      ensures Contents() == Tables(map[], map[], [])
    {
      claims, calls, events := map[], map[], [];
    }

    method TakeClaim(call: Call, reserve: bool) returns (r: Result<ClaimOutcome, Error>)
      modifies this`claims
      ensures (Contents(), r) == ClaimTx(old(Contents()), call, reserve)
    {
      if call.request in claims {
        var claim := claims[call.request];
        if claim.call != call {
          return Ok(Conflict);
        }
        if !claim.completed {
          return Ok(Pending);
        }
        return if call.request in calls then Ok(Replay(calls[call.request].result)) else Err(Internal);
      }
      var occupied := call.request in calls
        || (exists id :: id in claims && claims[id].call.capability == call.capability && claims[id].call.key == call.key)
        || (exists id :: id in calls && calls[id].capability == call.capability && calls[id].key == call.key);
      if occupied {
        return Ok(Conflict);
      }
      if !reserve {
        return Ok(Available);
      }
      claims := claims[call.request := Claim(call, false)];
      r := Ok(Owned);
    }

    method CompleteClaim(call: Call, result: string) returns (r: Result<(), Error>)
      modifies this
      ensures (Contents(), r) == CompleteTx(old(Contents()), call, result)
    {
      if call.request !in claims || claims[call.request].call != call || claims[call.request].completed {
        return Err(RequestConflict);
      }
      if call.request in calls {
        return Err(Internal);
      }
      claims := claims[call.request := Claim(call, true)];
      calls := calls[call.request := CallRow(call.capability, call.key, result, true)];
      events := events + [Event(call.request, result)];
      r := Ok(());
    }
  }
}
