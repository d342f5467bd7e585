/**
 The stability gate of discovered files. A tracked file has immutable revisions, one for each set of facts
 seen at its path; a revision's state advances with every observation until it is stable and asks once
 for processing. Paths are the raw bytes; whether a display path marks an auxiliary video is an input.
 */
module FileRevisions {
  import opened Outcomes
  import opened Int64
  import opened Ordering

  type Id = nat

  const MINIMUM_AGE := 60
  const OBSERVATION_INTERVAL := 30
  const RECONCILE_INTERVAL := 900

  datatype Policy = Policy(minimumAge: I64, interval: I64, reconcile: I64, watcher: bool, version: nat)

  datatype Place = Place(inbox: Id, path: seq<nat>)

  datatype Facts = Facts(identity: seq<nat>, size: I64, modifiedNs: I64)

  datatype AuxiliaryReason = Sample | Trailer | Extra

  datatype Source = Scan | Watcher | Reconcile

  datatype Observation = Observation(
    place: Place, identity: seq<nat>, size: nat, modifiedNs: I64, auxiliary: Option<AuxiliaryReason>)

  datatype Status = Observing | Stable | Missing | Superseded | Skipped

  datatype Tracked = Tracked(current: Option<Id>, lastObserved: I64, missingAt: Option<I64>, version: nat)

  /** The policy values are a snapshot taken when the revision was first seen. */
  datatype Revision = Revision(place: Place, facts: Facts, minimumAge: I64, interval: I64, policyVersion: nat)

  datatype State = State(
    status: Status, matching: I64, firstObserved: I64, lastCounted: I64, lastObserved: I64,
    nextCheck: Option<I64>, stableAt: Option<I64>, missingAt: Option<I64>,
    source: Source, skip: Option<AuxiliaryReason>, version: nat)

  /** `requests` holds, for each revision that asked for processing, when it asked. */
  datatype Tables = Tables(
    inboxes: set<Id>, policies: map<Id, Policy>, tracked: map<Place, Tracked>,
    revisions: map<Id, Revision>, states: map<Id, State>, requests: map<Id, I64>, nextId: Id)

  datatype Outcome = Outcome(
    revision: Id, status: Status, matching: I64, processingRequested: bool, skip: Option<AuxiliaryReason>)

  datatype Error = Internal | InboxNotFound | ValidationFailed | VersionConflict

  // ---- Arithmetic of the gate -------------------------------------------------------------------

  function SecondsToUs(seconds: I64): I64 {
    SatMul(seconds, 1_000_000)
  }

  /** The first microsecond at which the file is old enough. */
  function AgeDueAt(modifiedNs: I64, minimumAge: I64): I64 {
    SatAdd(modifiedNs / 1_000 + (if modifiedNs % 1_000 != 0 then 1 else 0), SecondsToUs(minimumAge))
  }

  function Later(a: I64, b: I64): I64 {
    if a < b then b else a
  }

  function NextCheckAt(modifiedNs: I64, minimumAge: I64, lastCounted: I64, interval: I64, matching: I64): I64 {
    var due := AgeDueAt(modifiedNs, minimumAge);
    if matching >= 2 then due else Later(due, SatAdd(lastCounted, SecondsToUs(interval)))
  }

  /** The observation is far enough from the last counted one to count. */
  predicate Counts(r: Revision, s: State, now: I64) {
    now >= SatAdd(s.lastCounted, SecondsToUs(r.interval))
  }

  // ---- Row updates ------------------------------------------------------------------------------

  /** The state of a current revision after one more observation of the same facts. */
  function Advanced(r: Revision, s: State, source: Source, now: I64): State {
    var returning := s.status.Missing?;
    var resumed := if !returning then s.status else if s.skip.Some? then Skipped else Observing;
    var matching: I64 :=
      if returning then 1
      else if s.status.Observing? && Counts(r, s, now) then SatAdd(s.matching, 1)
      else s.matching;
    var last := Later(s.lastObserved, now);
    var counted := if resumed.Observing? && (returning || Counts(r, s, now)) then now else s.lastCounted;
    var status :=
      if resumed.Observing? && matching >= 2 && last >= AgeDueAt(r.facts.modifiedNs, r.minimumAge) then Stable
      else resumed;
    State(
      status, matching, if returning then now else s.firstObserved, counted, last,
      if status.Observing? then Some(NextCheckAt(r.facts.modifiedNs, r.minimumAge, counted, r.interval, matching)) else None,
      if status.Stable? then (if s.stableAt.Some? then s.stableAt else Some(now)) else None,
      None, source, s.skip, s.version + 1)
  }

  /** The state of a revision that has just become current; the schedule follows the policy in force. */
  function Begun(facts: Facts, policy: Policy, auxiliary: Option<AuxiliaryReason>, source: Source, now: I64,
                 version: nat): State {
    var status := if auxiliary.Some? then Skipped else Observing;
    State(
      status, 1, now, now, now,
      if status.Observing? then Some(NextCheckAt(facts.modifiedNs, policy.minimumAge, now, policy.interval, 1)) else None,
      None, None, source, auxiliary, version)
  }

  function Replaced(s: State): State {
    s.(status := if s.status.Missing? then Missing else Superseded, nextCheck := None, version := s.version + 1)
  }

  function Lost(s: State, now: I64): State {
    s.(status := Missing, missingAt := Some(now), nextCheck := None, version := s.version + 1)
  }

  // ---- Transactions -----------------------------------------------------------------------------

  function DefaultPolicy(): Policy {
    Policy(MINIMUM_AGE, OBSERVATION_INTERVAL, RECONCILE_INTERVAL, true, 1)
  }

  /** The policy of the inbox, created on first use; None for an unregistered inbox. */
  function EnsurePolicy(db: Tables, inbox: Id): (Tables, Option<Policy>) {
    if inbox in db.policies then (db, Some(db.policies[inbox]))
    else if inbox in db.inboxes then (db.(policies := db.policies[inbox := DefaultPolicy()]), Some(DefaultPolicy()))
    else (db, None)
  }

  function Matches(revisions: map<Id, Revision>, place: Place, facts: Facts): set<Key> {
    set id | id in revisions && revisions[id].place == place && revisions[id].facts == facts :: Key(0, id)
  }

  function FindRevision(revisions: map<Id, Revision>, place: Place, facts: Facts): (r: Option<Id>)
    ensures r.Some? ==> r.value in revisions && revisions[r.value].place == place && revisions[r.value].facts == facts
    ensures r.None? ==> forall id | id in revisions && revisions[id].place == place :: revisions[id].facts != facts
  {
    var keys := Matches(revisions, place, facts);
    assert forall id | id in revisions && revisions[id].place == place && revisions[id].facts == facts :: Key(0, id) in keys;
    if keys == {} then None else Some(Least(keys).minor)
  }

  function TrackTx(db: Tables, place: Place, now: I64): (next: Tables)
    ensures place in next.tracked
  {
    if place in db.tracked then db else db.(tracked := db.tracked[place := Tracked(None, now, None, 1)])
  }

  function SupersedeTx(db: Tables, current: Option<Id>): Tables {
    if current.Some? && current.value in db.states then
      db.(states := db.states[current.value := Replaced(db.states[current.value])])
    else db
  }

  /** Makes the revision with these facts current, creating it unless the place has had it before. */
  function BeginTx(db: Tables, place: Place, facts: Facts, policy: Policy, auxiliary: Option<AuxiliaryReason>,
                   source: Source, now: I64): (Tables, Outcome)
    requires place in db.tracked
  {
    var known := FindRevision(db.revisions, place, facts);
    var id := if known.Some? then known.value else db.nextId;
    var revisions := if known.Some? then db.revisions
                     else db.revisions[id := Revision(place, facts, policy.minimumAge, policy.interval, policy.version)];
    var version := if id in db.states then db.states[id].version + 1 else 1;
    var state := Begun(facts, policy, auxiliary, source, now, version);
    var row := db.tracked[place];
    (db.(revisions := revisions, states := db.states[id := state],
         tracked := db.tracked[place := Tracked(Some(id), now, None, row.version + 1)], nextId := db.nextId + 1),
     Outcome(id, state.status, 1, false, auxiliary))
  }

  function AdvanceTx(db: Tables, place: Place, id: Id, source: Source, now: I64): (Tables, Outcome)
    requires place in db.tracked && id in db.revisions && id in db.states
  {
    var state := Advanced(db.revisions[id], db.states[id], source, now);
    var requested := state.status.Stable? && id !in db.requests;
    var row := db.tracked[place];
    (db.(requests := if requested then db.requests[id := now] else db.requests,
         states := db.states[id := state],
         tracked := db.tracked[place := Tracked(row.current, state.lastObserved, None, row.version + 1)]),
     Outcome(id, state.status, state.matching, requested, state.skip))
  }

  /** The current revision if it has exactly these facts. */
  predicate SameFacts(db: Tables, place: Place, facts: Facts) {
    && place in db.tracked && db.tracked[place].current.Some?
    && var id := db.tracked[place].current.value;
       id in db.revisions && id in db.states && db.revisions[id].facts == facts
  }

  function ObserveTx(db: Tables, o: Observation, source: Source, now: I64): (Tables, Result<Outcome, Error>) {
    if o.size > MAX then (db, Err(Internal))
    else
      var (ensured, policy) := EnsurePolicy(db, o.place.inbox);
      if policy.None? then (db, Err(InboxNotFound))
      else
        var facts := Facts(o.identity, o.size, o.modifiedNs);
        if SameFacts(ensured, o.place, facts) then
          var (next, outcome) := AdvanceTx(ensured, o.place, ensured.tracked[o.place].current.value, source, now);
          (next, Ok(outcome))
        else
          var tracking := TrackTx(ensured, o.place, now);
          var superseded := SupersedeTx(tracking, tracking.tracked[o.place].current);
          var (next, outcome) := BeginTx(superseded, o.place, facts, policy.value, o.auxiliary, source, now);
          (next, Ok(outcome))
  }

  function MarkMissingTx(db: Tables, place: Place, now: I64): (Tables, bool) {
    if place in db.tracked && db.tracked[place].current.Some? then
      var row, id := db.tracked[place], db.tracked[place].current.value;
      (db.(tracked := db.tracked[place := row.(missingAt := Some(now), version := row.version + 1)],
           states := if id in db.states then db.states[id := Lost(db.states[id], now)] else db.states), true)
    else (db, false)
  }

  predicate Within(minimumAge: I64, interval: I64, reconcile: I64) {
    0 <= minimumAge <= 86_400 && 1 <= interval <= 86_400 && 60 <= reconcile <= 604_800
  }

  function PutPolicyTx(db: Tables, inbox: Id, minimumAge: I64, interval: I64, reconcile: I64, watcher: bool,
                       expected: nat): (Tables, Result<Policy, Error>) {
    if !Within(minimumAge, interval, reconcile) then (db, Err(ValidationFailed))
    else
      var (ensured, policy) := EnsurePolicy(db, inbox);
      if policy.None? then (db, Err(InboxNotFound))
      else if policy.value.version != expected then (db, Err(VersionConflict))
      else
        var next := Policy(minimumAge, interval, reconcile, watcher, expected + 1);
        (ensured.(policies := ensured.policies[inbox := next]), Ok(next))
  }

  // ---- The service ------------------------------------------------------------------------------

  class RevisionService {
    var inboxes: set<Id>
    var policies: map<Id, Policy>
    var tracked: map<Place, Tracked>
    var revisions: map<Id, Revision>
    var states: map<Id, State>
    var requests: map<Id, I64>
    var nextId: Id

    ghost function Contents(): Tables
      reads this
    {
      Tables(inboxes, policies, tracked, revisions, states, requests, nextId)
    }

    constructor (inboxes: set<Id>)
      ensures Contents() == Tables(inboxes, map[], map[], map[], map[], map[], 0)
    {
      this.inboxes := inboxes;
      policies, tracked, revisions, states, requests := map[], map[], map[], map[], map[];
      nextId := 0;
    }

    method NewId() returns (id: Id)
      modifies this`nextId
      ensures id == old(nextId) && nextId == old(nextId) + 1
    {
      id := nextId;
      nextId := nextId + 1;
    }

    method LoadOrEnsurePolicy(inbox: Id) returns (policy: Option<Policy>)
      modifies this`policies
      ensures (Contents(), policy) == EnsurePolicy(old(Contents()), inbox)
    {
      if inbox in policies {
        return Some(policies[inbox]);
      }
      if inbox !in inboxes {
        return None;
      }
      policies := policies[inbox := DefaultPolicy()];
      policy := Some(policies[inbox]);
    }

    method EnsureProcessingRequest(id: Id, now: I64) returns (created: bool)
      modifies this`requests
      ensures created == (id !in old(requests))
      ensures requests == if created then old(requests)[id := now] else old(requests)
    {
      created := id !in requests;
      if created {
        requests := requests[id := now];
      }
    }

    method AdvanceExisting(place: Place, id: Id, source: Source, now: I64) returns (outcome: Outcome)
      requires place in tracked && id in revisions && id in states
      modifies this
      ensures (Contents(), outcome) == AdvanceTx(old(Contents()), place, id, source, now)
    {
      var r, s := revisions[id], states[id];
      ghost var want := Advanced(r, s, source, now);
      var status, matching := s.status, s.matching;
      if status == Missing {
        status := if s.skip.Some? then Skipped else Observing;
        matching := 1;
      } else if status == Observing && now >= SatAdd(s.lastCounted, SecondsToUs(r.interval)) {
        matching := SatAdd(matching, 1);
      }
      var last := Later(s.lastObserved, now);
      var counted := s.lastCounted;
      if status == Observing
         && ((matching == 1 && s.status == Missing) || now >= SatAdd(s.lastCounted, SecondsToUs(r.interval))) {
        counted := now;
      }
      assert matching == want.matching && counted == want.lastCounted && last == want.lastObserved;
      if status == Observing && matching >= 2 && last >= AgeDueAt(r.facts.modifiedNs, r.minimumAge) {
        status := Stable;
      }
      var nextCheck := None;
      if status == Observing {
        nextCheck := Some(NextCheckAt(r.facts.modifiedNs, r.minimumAge, counted, r.interval, matching));
      }
      assert status == want.status && nextCheck == want.nextCheck;
      var requested := false;
      if status == Stable {
        requested := EnsureProcessingRequest(id, now);
      }
      states := states[id := State(
        status, matching, if s.status == Missing then now else s.firstObserved, counted, last, nextCheck,
        if status != Stable then None else if s.stableAt.Some? then s.stableAt else Some(now),
        None, source, s.skip, s.version + 1)];
      tracked := tracked[place := Tracked(tracked[place].current, last, None, tracked[place].version + 1)];
      outcome := Outcome(id, status, matching, requested, s.skip);
    }

    method CreateOrReactivate(place: Place, facts: Facts, policy: Policy, auxiliary: Option<AuxiliaryReason>,
                              source: Source, now: I64) returns (outcome: Outcome)
      requires place in tracked
      modifies this
      ensures (Contents(), outcome) == BeginTx(old(Contents()), place, facts, policy, auxiliary, source, now)
    {
      var id := NewId();
      var known := FindRevision(revisions, place, facts);
      if known.Some? {
        id := known.value;
      } else {
        revisions := revisions[id := Revision(place, facts, policy.minimumAge, policy.interval, policy.version)];
      }
      var status := if auxiliary.Some? then Skipped else Observing;
      var nextCheck := None;
      if status == Observing {
        nextCheck := Some(NextCheckAt(facts.modifiedNs, policy.minimumAge, now, policy.interval, 1));
      }
      var version := if id in states then states[id].version + 1 else 1;
      states := states[id := State(status, 1, now, now, now, nextCheck, None, None, source, auxiliary, version)];
      tracked := tracked[place := Tracked(Some(id), now, None, tracked[place].version + 1)];
      outcome := Outcome(id, status, 1, false, auxiliary);
    }

    method Observe(o: Observation, source: Source, now: I64) returns (r: Result<Outcome, Error>)
      modifies this
      ensures (Contents(), r) == ObserveTx(old(Contents()), o, source, now)
    {
      if o.size > MAX {
        return Err(Internal);
      }
      var policy := LoadOrEnsurePolicy(o.place.inbox);
      if policy.None? {
        return Err(InboxNotFound);
      }
      var facts := Facts(o.identity, o.size, o.modifiedNs);
      if o.place !in tracked {
        tracked := tracked[o.place := Tracked(None, now, None, 1)];
      } else if tracked[o.place].current.Some? {
        var id := tracked[o.place].current.value;
        if id in revisions && id in states && revisions[id].facts == facts {
          var outcome := AdvanceExisting(o.place, id, source, now);
          return Ok(outcome);
        }
        if id in states {
          states := states[id := Replaced(states[id])];
        }
      }
      var outcome := CreateOrReactivate(o.place, facts, policy.value, o.auxiliary, source, now);
      r := Ok(outcome);
    }

    method MarkMissing(place: Place, now: I64) returns (found: bool)
      modifies this
      ensures (Contents(), found) == MarkMissingTx(old(Contents()), place, now)
    {
      if place !in tracked || tracked[place].current.None? {
        return false;
      }
      var row := tracked[place];
      tracked := tracked[place := row.(missingAt := Some(now), version := row.version + 1)];
      if row.current.value in states {
        states := states[row.current.value := Lost(states[row.current.value], now)];
      }
      found := true;
    }

    method PutPolicy(inbox: Id, minimumAge: I64, interval: I64, reconcile: I64, watcher: bool, expected: nat)
      returns (r: Result<Policy, Error>)
      modifies this
      ensures (Contents(), r) == PutPolicyTx(old(Contents()), inbox, minimumAge, interval, reconcile, watcher, expected)
    {
      if !Within(minimumAge, interval, reconcile) {
        return Err(ValidationFailed);
      }
      var before := policies;
      var policy := LoadOrEnsurePolicy(inbox);
      if policy.None? {
        return Err(InboxNotFound);
      }
      if policy.value.version != expected {
        policies := before;
        return Err(VersionConflict);
      }
      policies := policies[inbox := Policy(minimumAge, interval, reconcile, watcher, expected + 1)];
      r := Ok(policies[inbox]);
    }
  }
}
