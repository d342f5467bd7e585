/**
 Runs of the capability gateway: any number of callers at once, each somewhere between its first claim
 check and its answer, any of which may crash. Handlers run at most once and replays agree.
 */
module CapabilityRuns {
  import opened Outcomes
  import opened CapabilityClaims

  /** Where a caller stands: checked, preflighted, owning the claim, running the handler, holding its result. */
  datatype Caller =
    | Arrived(call: Call)
    | Checked(call: Call)
    | Ready(call: Call)
    | Owner(call: Call)
    | Running(call: Call)
    | Executed(call: Call, result: string)
    | Answered(call: Call, answer: Option<string>)

  /** `log` lists the calls whose handler was started. */
  datatype World = World(db: Tables, callers: map<Id, Caller>, log: seq<Call>)

  datatype Step =
    | Arrive(caller: Id, call: Call)
    | Check(caller: Id)
    | Preflight(caller: Id, passes: bool)
    | Reserve(caller: Id)
    | Begin(caller: Id)
    | Finish(caller: Id, result: string)
    | Persist(caller: Id)
    | Crash(caller: Id)
    | Record(request: Id, capability: Name, key: string, result: string)

  const EMPTY := World(Tables(map[], map[], []), map[], [])

  predicate HasHandler(name: Name) {
    !name.Scan? && !name.Retry? && !name.Cancel? && !name.SyncExternal?
  }

  /** What a claim outcome means for the caller; `onward` is where it goes if nothing stands in the way. */
  function Outcome(call: Call, outcome: Result<ClaimOutcome, Error>, onward: Caller): Caller {
    match outcome
    case Ok(Available) => onward
    case Ok(Owned) => onward
    case Ok(Replay(result)) => Answered(call, Some(result))
    case _ => Answered(call, None)
  }

  function Move(w: World, id: Id, caller: Caller): World {
    w.(callers := w.callers[id := caller])
  }

  function Apply(w: World, s: Step): World {
    match s
    case Arrive(id, call) => if id in w.callers then w else Move(w, id, Arrived(call))
    case Check(id) =>
      if id in w.callers && w.callers[id].Arrived? then
        var call := w.callers[id].call;
        Move(w, id, Outcome(call, ClaimTx(w.db, call, false).1, Checked(call)))
      else w
    case Preflight(id, passes) =>
      if id in w.callers && w.callers[id].Checked? then
        Move(w, id, if passes then Ready(w.callers[id].call) else Answered(w.callers[id].call, None))
      else w
    case Reserve(id) =>
      if id in w.callers && w.callers[id].Ready? then
        var call := w.callers[id].call;
        var (db, outcome) := ClaimTx(w.db, call, true);
        Move(w.(db := db), id, Outcome(call, outcome, Owner(call)))
      else w
    case Begin(id) =>
      if id in w.callers && w.callers[id].Owner? then
        var call := w.callers[id].call;
        if HasHandler(call.capability) then Move(w.(log := w.log + [call]), id, Running(call))
        else Move(w, id, Answered(call, None))
      else w
    case Finish(id, result) =>
      if id in w.callers && w.callers[id].Running? then Move(w, id, Executed(w.callers[id].call, result)) else w
    case Persist(id) =>
      if id in w.callers && w.callers[id].Executed? then
        var (db, outcome) := CompleteTx(w.db, w.callers[id].call, w.callers[id].result);
        Move(w.(db := db), id, Answered(w.callers[id].call, if outcome.Ok? then Some(w.callers[id].result) else None))
      else w
    case Crash(id) => w.(callers := w.callers - {id})
    case Record(request, capability, key, result) => w.(db := RecordTx(w.db, request, capability, key, result))
  }

  function Exec(steps: seq<Step>): World {
    if steps == [] then EMPTY else Apply(Exec(steps[..|steps| - 1]), steps[|steps| - 1])
  }

  // ---- What every state keeps -------------------------------------------------------------------

  function CountEvents(events: seq<Event>, request: Id): nat {
    if events == [] then 0
    else CountEvents(events[..|events| - 1], request) + if events[|events| - 1].request == request then 1 else 0
  }

  predicate Owning(c: Caller) {
    c.Owner? || c.Running? || c.Executed?
  }

  /** The caller's claim and log entry, as far as it has come. */
  ghost predicate CallerOk(w: World, c: Caller) {
    && (Owning(c) ==> c.call.request in w.db.claims && w.db.claims[c.call.request] == Claim(c.call, false))
    && (c.Owner? ==> c.call !in w.log)
    && (c.Running? || c.Executed? ==> c.call in w.log)
    && (c.Answered? && c.answer.Some? ==>
          && c.call.request in w.db.claims && w.db.claims[c.call.request] == Claim(c.call, true)
          && c.call.request in w.db.calls && w.db.calls[c.call.request].result == c.answer.value)
  }

  /** A claim is completed if and only if its own call row was written; it has one event then, none before. */
  ghost predicate ClaimOk(w: World, request: Id) {
    && (request in w.db.claims ==>
          && w.db.claims[request].call.request == request
          && (w.db.claims[request].completed <==> request in w.db.calls && w.db.calls[request].claimed))
    && (request !in w.db.claims ==> request in w.db.calls ==> !w.db.calls[request].claimed)
    && CountEvents(w.db.events, request) == (if request in w.db.claims && w.db.claims[request].completed then 1 else 0)
  }

  predicate Rivals(a: Call, b: Call) {
    a.request == b.request || (a.capability == b.capability && a.key == b.key)
  }

  ghost predicate ClaimsApart(claims: map<Id, Claim>) {
    forall a, b | a in claims && b in claims && a != b :: !Rivals(claims[a].call, claims[b].call)
  }

  ghost predicate LogClaimed(w: World) {
    forall i | 0 <= i < |w.log| :: w.log[i].request in w.db.claims && w.db.claims[w.log[i].request].call == w.log[i]
  }

  ghost predicate LogDistinct(log: seq<Call>) {
    forall i, j | 0 <= i < j < |log| :: log[i] != log[j]
  }

  /** No two callers own the same claim. */
  ghost predicate OwnersApart(callers: map<Id, Caller>) {
    forall a, b | a in callers && b in callers && a != b && Owning(callers[a]) && Owning(callers[b]) ::
      callers[a].call.request != callers[b].call.request
  }

  ghost predicate WorldOk(w: World) {
    && (forall id | id in w.callers :: CallerOk(w, w.callers[id]))
    && (forall request :: ClaimOk(w, request))
    && ClaimsApart(w.db.claims) && LogClaimed(w) && LogDistinct(w.log) && OwnersApart(w.callers)
  }

  // ---- Steps keep it ----------------------------------------------------------------------------

  /** A caller moves and nothing else changes. */
  lemma MoveKeeps(w: World, id: Id, caller: Caller)
    requires WorldOk(w) && CallerOk(w, caller)
    requires Owning(caller) ==> id in w.callers && Owning(w.callers[id]) && w.callers[id].call == caller.call
    ensures WorldOk(Move(w, id, caller))
  {
    var next := Move(w, id, caller);
    forall other | other in next.callers
      ensures CallerOk(next, next.callers[other])
    {
      if other != id {
        assert CallerOk(w, w.callers[other]);
      }
    }
    forall request
      ensures ClaimOk(next, request)
    {
      assert ClaimOk(w, request);
    }
  }

  lemma CheckKeeps(w: World, id: Id)
    requires WorldOk(w)
    ensures WorldOk(Apply(w, Check(id)))
  {
    if id in w.callers && w.callers[id].Arrived? {
      var call := w.callers[id].call;
      assert ClaimOk(w, call.request);
      MoveKeeps(w, id, Outcome(call, ClaimTx(w.db, call, false).1, Checked(call)));
    }
  }

  lemma NewClaimKeeps(w: World, id: Id, call: Call)
    requires WorldOk(w) && id in w.callers && w.callers[id] == Ready(call)
    requires call.request !in w.db.claims && !Occupied(w.db, call)
    ensures WorldOk(Move(w.(db := ClaimTx(w.db, call, true).0), id, Owner(call)))
  {
    var next := Move(w.(db := ClaimTx(w.db, call, true).0), id, Owner(call));
    forall other | other in next.callers
      ensures CallerOk(next, next.callers[other])
    {
      if other != id {
        assert CallerOk(w, w.callers[other]);
      }
    }
    forall request
      ensures ClaimOk(next, request)
    {
      assert ClaimOk(w, request);
    }
    forall a | a in w.db.claims
      ensures !Rivals(w.db.claims[a].call, call)
    {
      assert ClaimOk(w, a);
    }
    forall other | other in w.callers && Owning(w.callers[other])
      ensures w.callers[other].call.request != call.request
    {
      assert CallerOk(w, w.callers[other]);
    }
  }

  lemma ReserveKeeps(w: World, id: Id)
    requires WorldOk(w)
    ensures WorldOk(Apply(w, Reserve(id)))
  {
    if id in w.callers && w.callers[id].Ready? {
      var call := w.callers[id].call;
      assert ClaimOk(w, call.request);
      var (db, outcome) := ClaimTx(w.db, call, true);
      if outcome == Ok(Owned) {
        NewClaimKeeps(w, id, call);
      } else {
        MoveKeeps(w, id, Outcome(call, outcome, Owner(call)));
        assert w.(db := db) == w;
      }
    }
  }

  lemma BeginKeeps(w: World, id: Id)
    requires WorldOk(w)
    ensures WorldOk(Apply(w, Begin(id)))
  {
    if id in w.callers && w.callers[id].Owner? {
      var call := w.callers[id].call;
      assert CallerOk(w, w.callers[id]);
      if HasHandler(call.capability) {
        var next := Apply(w, Begin(id));
        forall other | other in next.callers
          ensures CallerOk(next, next.callers[other])
        {
          if other != id {
            assert CallerOk(w, w.callers[other]);
          }
        }
        forall request
          ensures ClaimOk(next, request)
        {
          assert ClaimOk(w, request);
        }
      } else {
        MoveKeeps(w, id, Answered(call, None));
      }
    }
  }

  lemma CompletionKeeps(w: World, id: Id)
    requires WorldOk(w) && id in w.callers && w.callers[id].Executed?
    requires CompleteTx(w.db, w.callers[id].call, w.callers[id].result).1.Ok?
    ensures WorldOk(Apply(w, Persist(id)))
  {
    var call, next := w.callers[id].call, Apply(w, Persist(id));
    assert CallerOk(w, w.callers[id]);
    forall other | other in next.callers
      ensures CallerOk(next, next.callers[other])
    {
      if other != id {
        assert CallerOk(w, w.callers[other]);
      }
    }
    forall request
      ensures ClaimOk(next, request)
    {
      assert ClaimOk(w, request);
      assert next.db.events[..|w.db.events|] == w.db.events;
    }
    forall a, b | a in next.db.claims && b in next.db.claims && a != b
      ensures !Rivals(next.db.claims[a].call, next.db.claims[b].call)
    {
      assert w.db.claims[a].call == next.db.claims[a].call && w.db.claims[b].call == next.db.claims[b].call;
    }
  }

  lemma PersistKeeps(w: World, id: Id)
    requires WorldOk(w)
    ensures WorldOk(Apply(w, Persist(id)))
  {
    if id in w.callers && w.callers[id].Executed? {
      var call := w.callers[id].call;
      if CompleteTx(w.db, call, w.callers[id].result).1.Ok? {
        CompletionKeeps(w, id);
      } else {
        MoveKeeps(w, id, Answered(call, None));
        assert w.(db := w.db) == w;
      }
    }
  }

  lemma CrashKeeps(w: World, id: Id)
    requires WorldOk(w)
    ensures WorldOk(Apply(w, Crash(id)))
  {
    var next := Apply(w, Crash(id));
    forall other | other in next.callers
      ensures CallerOk(next, next.callers[other])
    {
      assert CallerOk(w, w.callers[other]);
    }
    forall request
      ensures ClaimOk(next, request)
    {
      assert ClaimOk(w, request);
    }
  }

  lemma RecordKeeps(w: World, s: Step)
    requires WorldOk(w) && s.Record?
    ensures WorldOk(Apply(w, s))
  {
    var next := Apply(w, s);
    forall other | other in next.callers
      ensures CallerOk(next, next.callers[other])
    {
      assert CallerOk(w, w.callers[other]);
    }
    forall request
      ensures ClaimOk(next, request)
    {
      assert ClaimOk(w, request);
    }
  }

  lemma StepKeeps(w: World, s: Step)
    requires WorldOk(w)
    ensures WorldOk(Apply(w, s))
  {
    match s
    case Arrive(id, call) => if id !in w.callers { MoveKeeps(w, id, Arrived(call)); }
    case Check(id) => CheckKeeps(w, id);
    case Preflight(id, passes) =>
      if id in w.callers && w.callers[id].Checked? {
        MoveKeeps(w, id, if passes then Ready(w.callers[id].call) else Answered(w.callers[id].call, None));
      }
    case Reserve(id) => ReserveKeeps(w, id);
    case Begin(id) => BeginKeeps(w, id);
    case Finish(id, result) =>
      if id in w.callers && w.callers[id].Running? {
        assert CallerOk(w, w.callers[id]);
        MoveKeeps(w, id, Executed(w.callers[id].call, result));
      }
    case Persist(id) => PersistKeeps(w, id);
    case Crash(id) => CrashKeeps(w, id);
    case Record(_, _, _, _) => RecordKeeps(w, s);
  }

  lemma {:induction false} EveryWorldIsOk(steps: seq<Step>)
    ensures WorldOk(Exec(steps))
  {
    if steps != [] {
      EveryWorldIsOk(steps[..|steps| - 1]);
      StepKeeps(Exec(steps[..|steps| - 1]), steps[|steps| - 1]);
    }
  }

  // ---- What the gateway promises ------------------------------------------------------------------

  /**
   Across all interleavings, retries and crashes a handler is started at most once for a request id and
   at most once for an idempotency key of a capability.
   */
  lemma HandlersRunAtMostOnce(steps: seq<Step>, i: nat, j: nat)
    requires i < j < |Exec(steps).log|
    ensures var log := Exec(steps).log;
            log[i].request != log[j].request && !(log[i].capability == log[j].capability && log[i].key == log[j].key)
  {
    EveryWorldIsOk(steps);
    var w := Exec(steps);
    var a, b := w.log[i], w.log[j];
    assert a != b && w.db.claims[a.request].call == a && w.db.claims[b.request].call == b;
    if a.request != b.request {
      assert !Rivals(w.db.claims[a.request].call, w.db.claims[b.request].call);
    }
  }

  lemma StepKeepsResults(w: World, s: Step, request: Id)
    requires request in w.db.claims && w.db.claims[request].completed && request in w.db.calls
    ensures var next := Apply(w, s);
            && request in next.db.claims && next.db.claims[request] == w.db.claims[request]
            && request in next.db.calls && next.db.calls[request] == w.db.calls[request]
  {
  }

  lemma {:induction false} ResultsStay(steps: seq<Step>, k: nat, request: Id)
    requires k <= |steps|
    requires var db := Exec(steps[..k]).db; request in db.claims && db.claims[request].completed && request in db.calls
    ensures var past, db := Exec(steps[..k]).db, Exec(steps).db;
            && request in db.claims && db.claims[request] == past.claims[request]
            && request in db.calls && db.calls[request] == past.calls[request]
  {
    if k == |steps| {
      assert steps[..k] == steps;
    } else {
      var earlier := steps[..|steps| - 1];
      assert earlier[..k] == steps[..k];
      ResultsStay(earlier, k, request);
      StepKeepsResults(Exec(earlier), steps[|steps| - 1], request);
    }
  }

  /** Every caller that gets a result for a request gets the one stored result, whenever it asks. */
  lemma ReplaysAgree(steps: seq<Step>, a: Id, b: Id)
    requires var callers := Exec(steps).callers;
             && a in callers && b in callers && callers[a].Answered? && callers[b].Answered?
             && callers[a].answer.Some? && callers[b].answer.Some?
             && callers[a].call.request == callers[b].call.request
    ensures var w := Exec(steps);
            && w.callers[a].answer == w.callers[b].answer && w.callers[a].call == w.callers[b].call
            && w.callers[a].call.request in w.db.calls
            && w.callers[a].answer == Some(w.db.calls[w.callers[a].call.request].result)
  {
    EveryWorldIsOk(steps);
    var w := Exec(steps);
    assert CallerOk(w, w.callers[a]) && CallerOk(w, w.callers[b]);
  }

  /** A stored result is replayed at every later time, to exactly the call it was made for. */
  lemma CompletedCallsReplayForEver(steps: seq<Step>, k: nat, call: Call, reserve: bool)
    requires k <= |steps|
    requires var db := Exec(steps[..k]).db; call.request in db.claims && db.claims[call.request].completed
    ensures var past := Exec(steps[..k]).db;
            && call.request in past.calls
            && ClaimTx(Exec(steps).db, call, reserve)
               == (Exec(steps).db, Ok(if past.claims[call.request].call == call then Replay(past.calls[call.request].result) else Conflict))
  {
    EveryWorldIsOk(steps[..k]);
    assert ClaimOk(Exec(steps[..k]), call.request);
    ResultsStay(steps, k, call.request);
  }

  /** A claim is completed if and only if the protocol wrote exactly one call row and one event row for it. */
  lemma CompletedMeansOneRowEach(steps: seq<Step>, request: Id)
    requires request in Exec(steps).db.claims
    ensures var db := Exec(steps).db;
            && (db.claims[request].completed <==> request in db.calls && db.calls[request].claimed)
            && CountEvents(db.events, request) == (if db.claims[request].completed then 1 else 0)
  {
    EveryWorldIsOk(steps);
    assert ClaimOk(Exec(steps), request);
  }

  // ---- Claims nobody will complete ----------------------------------------------------------------

  /** The claim is pending and no caller that could complete it is left. */
  ghost predicate Abandoned(w: World, request: Id) {
    && request in w.db.claims && !w.db.claims[request].completed
    && forall id | id in w.callers && Owning(w.callers[id]) :: w.callers[id].call.request != request
  }

  /** The owner crashes, finds no handler for its capability, or has its completion refused. */
  predicate GivesUp(w: World, s: Step, id: Id)
    requires id in w.callers
  {
    || s == Crash(id)
    || (s == Begin(id) && w.callers[id].Owner? && !HasHandler(w.callers[id].call.capability))
    || (s == Persist(id) && w.callers[id].Executed? && CompleteTx(w.db, w.callers[id].call, w.callers[id].result).1.Err?)
  }

  lemma OwnerStays(w: World, s: Step, id: Id)
    requires WorldOk(w) && id in w.callers && Owning(w.callers[id]) && !GivesUp(w, s, id)
    ensures !Abandoned(Apply(w, s), w.callers[id].call.request)
  {
    var next, request := Apply(w, s), w.callers[id].call.request;
    assert CallerOk(w, w.callers[id]);
    if s != Persist(id) || !w.callers[id].Executed? {
      assert id in next.callers && Owning(next.callers[id]) && next.callers[id].call.request == request;
    }
  }

  lemma OwnerLeaves(w: World, s: Step, id: Id)
    requires WorldOk(w) && id in w.callers && Owning(w.callers[id]) && GivesUp(w, s, id)
    ensures Abandoned(Apply(w, s), w.callers[id].call.request)
  {
    assert CallerOk(w, w.callers[id]);
  }

  /** An owned claim is abandoned by exactly the steps in which its owner gives up. */
  lemma ClaimsAreAbandonedByTheirOwners(steps: seq<Step>, s: Step, id: Id)
    requires id in Exec(steps).callers && Owning(Exec(steps).callers[id])
    ensures var w := Exec(steps); Abandoned(Apply(w, s), w.callers[id].call.request) <==> GivesUp(w, s, id)
  {
    EveryWorldIsOk(steps);
    if GivesUp(Exec(steps), s, id) {
      OwnerLeaves(Exec(steps), s, id);
    } else {
      OwnerStays(Exec(steps), s, id);
    }
  }

  lemma StepLeavesAbandoned(w: World, s: Step, request: Id)
    requires Abandoned(w, request)
    ensures Abandoned(Apply(w, s), request) && Apply(w, s).db.claims[request] == w.db.claims[request]
  {
    var next := Apply(w, s);
    forall id | id in next.callers && Owning(next.callers[id])
      ensures next.callers[id].call.request != request
    {
      if id in w.callers && Owning(w.callers[id]) {
        assert w.callers[id].call.request != request;
      }
    }
  }

  /**
   An abandoned claim stays pending for ever: no later step completes it, no result is ever stored for it by
   the protocol, and the same call is told to wait at every later time, while any other call under its
   request id conflicts.
   */
  lemma {:induction false} AbandonedClaimsPendForEver(steps: seq<Step>, more: seq<Step>, request: Id, call: Call, reserve: bool)
    requires Abandoned(Exec(steps), request) && call.request == request
    ensures var w, later := Exec(steps), Exec(steps + more);
            && Abandoned(later, request) && later.db.claims[request] == w.db.claims[request]
            && (request in later.db.calls ==> !later.db.calls[request].claimed)
            && ClaimTx(later.db, call, reserve).1 == Ok(if w.db.claims[request].call == call then Pending else Conflict)
  {
    EveryWorldIsOk(steps + more);
    assert ClaimOk(Exec(steps + more), request);
    if more == [] {
      assert steps + more == steps;
    } else {
      var n := |more| - 1;
      AbandonedClaimsPendForEver(steps, more[..n], request, call, reserve);
      assert (steps + more)[..|steps + more| - 1] == steps + more[..n];
      StepLeavesAbandoned(Exec(steps + more[..n]), more[n], request);
    }
  }
}
