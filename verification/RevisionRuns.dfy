/**
 Runs of the revision service: observations arrive in any order and at any time, files go missing and
 return, policies change. What every reachable table keeps, when a revision is stable, when the
 scheduled check is the exact instant of stabilisation, and how often processing is requested.
 */
module RevisionRuns {
  import opened Outcomes
  import opened Int64
  import opened FileRevisions

  datatype Step =
    | Observe(o: Observation, source: Source, now: I64)
    | MarkMissing(place: Place, now: I64)
    | PutPolicy(inbox: Id, minimumAge: I64, interval: I64, reconcile: I64, watcher: bool, expected: nat)
    | Register(inbox: Id)

  function Init(): Tables {
    Tables({}, map[], map[], map[], map[], map[], 0)
  }

  function Apply(db: Tables, s: Step): Tables {
    match s
    case Observe(o, source, now) => ObserveTx(db, o, source, now).0
    case MarkMissing(place, now) => MarkMissingTx(db, place, now).0
    case PutPolicy(inbox, minimumAge, interval, reconcile, watcher, expected) =>
      PutPolicyTx(db, inbox, minimumAge, interval, reconcile, watcher, expected).0
    case Register(inbox) => db.(inboxes := db.inboxes + {inbox})
  }

  function Exec(steps: seq<Step>): Tables {
    if steps == [] then Init() else Apply(Exec(steps[..|steps| - 1]), steps[|steps| - 1])
  }

  // ---- The gate's arithmetic --------------------------------------------------------------------

  /** Saturation never distorts the age gate: it is the exact comparison in nanoseconds. */
  lemma AgeGateIsExact(t: I64, modifiedNs: I64, minimumAge: I64)
    requires 0 <= minimumAge <= 86_400
    ensures t >= AgeDueAt(modifiedNs, minimumAge) <==> 1_000 * t >= modifiedNs + minimumAge * 1_000_000_000
  {
  }

  /**
   The interval gate counts an observation exactly when it is an interval later, unless the sum
   saturates and the observation carries the largest instant there is.
   */
  lemma IntervalGateIsExact(r: Revision, s: State, now: I64)
    requires 1 <= r.interval <= 86_400
    ensures (Counts(r, s, now) <==> now - s.lastCounted >= r.interval * 1_000_000)
            <==> !(now == MAX && s.lastCounted > MAX - r.interval * 1_000_000)
  {
  }

  // ---- What every reachable table keeps -----------------------------------------------------------

  predicate Bounded(minimumAge: I64, interval: I64) {
    0 <= minimumAge <= 86_400 && 1 <= interval <= 86_400
  }

  /** A revision, its state and its standing at its place. */
  predicate RowOk(r: Revision, s: State, current: bool, requested: bool) {
    && Bounded(r.minimumAge, r.interval)
    && s.matching >= 1 && s.lastCounted <= s.lastObserved
    && (if current then !s.status.Superseded? else s.status.Superseded? || s.status.Missing?)
    && (s.status.Observing? || s.status.Stable? ==> s.skip.None?)
    && (s.status.Skipped? ==> s.skip.Some?)
    && (s.nextCheck.Some? <==> s.status.Observing?)
    && (s.status.Stable? ==>
          requested && s.matching >= 2 && s.lastObserved >= AgeDueAt(r.facts.modifiedNs, r.minimumAge))
  }

  ghost predicate RevisionOk(db: Tables, id: Id) {
    && id in db.revisions && id < db.nextId && id in db.states
    && db.revisions[id].place in db.tracked
    && RowOk(db.revisions[id], db.states[id], db.tracked[db.revisions[id].place].current == Some(id), id in db.requests)
  }

  ghost predicate TrackedOk(db: Tables, place: Place) {
    && place in db.tracked
    && var current := db.tracked[place].current;
       current.Some? && current.value in db.revisions && db.revisions[current.value].place == place
  }

  predicate SameFile(a: Revision, b: Revision) {
    a.place == b.place && a.facts == b.facts
  }

  ghost predicate FactsIdentify(revisions: map<Id, Revision>) {
    forall a, b | a in revisions && b in revisions && SameFile(revisions[a], revisions[b]) :: a == b
  }

  ghost predicate PoliciesOk(policies: map<Id, Policy>) {
    forall inbox | inbox in policies :: Bounded(policies[inbox].minimumAge, policies[inbox].interval)
  }

  ghost predicate TablesOk(db: Tables) {
    && PoliciesOk(db.policies)
    && (forall id {:trigger RevisionOk(db, id)} | id in db.revisions :: RevisionOk(db, id))
    && (forall place {:trigger TrackedOk(db, place)} | place in db.tracked :: TrackedOk(db, place))
    && db.states.Keys == db.revisions.Keys && db.requests.Keys <= db.revisions.Keys
    && FactsIdentify(db.revisions)
  }

  lemma PolicyChangeKeeps(db: Tables, next: Tables)
    requires TablesOk(db) && PoliciesOk(next.policies)
    requires next == db.(inboxes := next.inboxes, policies := next.policies)
    ensures TablesOk(next)
  {
    forall id | id in next.revisions
      ensures RevisionOk(next, id)
    {
      assert RevisionOk(db, id);
    }
    forall p | p in next.tracked
      ensures TrackedOk(next, p)
    {
      assert TrackedOk(db, p);
    }
  }

  lemma LostIsOk(r: Revision, s: State, current: bool, now: I64, requested: bool)
    requires RowOk(r, s, current, requested)
    ensures RowOk(r, Lost(s, now), current, requested)
    ensures RowOk(r, Replaced(s), false, requested)
  {
  }

  lemma AdvancedIsOk(r: Revision, s: State, source: Source, now: I64, requested: bool)
    requires RowOk(r, s, true, requested)
    ensures var next := Advanced(r, s, source, now);
            RowOk(r, next, true, requested || next.status.Stable?)
  {
  }

  lemma UpdateKeepsRow(db: Tables, place: Place, id: Id, row: State, t: Tracked, requests: map<Id, I64>, other: Id)
    requires RevisionOk(db, other) && place in db.tracked && db.tracked[place].current == t.current == Some(id)
    requires requests.Keys == db.requests.Keys || requests.Keys == db.requests.Keys + {id}
    requires id in db.revisions && db.revisions[id].place == place && RowOk(db.revisions[id], row, true, id in requests)
    ensures RevisionOk(db.(states := db.states[id := row], tracked := db.tracked[place := t], requests := requests), other)
  {
    if other != id {
      assert other in requests <==> other in db.requests;
    }
  }

  lemma UpdateKeepsPlace(db: Tables, place: Place, id: Id, row: State, t: Tracked, requests: map<Id, I64>, p: Place)
    requires TrackedOk(db, p) && place in db.tracked && db.tracked[place].current == t.current
    ensures TrackedOk(db.(states := db.states[id := row], tracked := db.tracked[place := t], requests := requests), p)
  {
  }

  lemma UpdateKeepsKeys(states: map<Id, State>, revisions: map<Id, Revision>, id: Id, row: State)
    requires states.Keys == revisions.Keys && id in revisions
    ensures states[id := row].Keys == revisions.Keys
  {
  }

  /** A new state for the current revision of a place leaves everything else as it was. */
  lemma UpdateKeeps(db: Tables, place: Place, id: Id, row: State, t: Tracked, requests: map<Id, I64>)
    requires TablesOk(db) && place in db.tracked && db.tracked[place].current == t.current == Some(id)
    requires requests.Keys == db.requests.Keys || requests.Keys == db.requests.Keys + {id}
    requires id in db.revisions && RowOk(db.revisions[id], row, true, id in requests)
    ensures TablesOk(db.(states := db.states[id := row], tracked := db.tracked[place := t], requests := requests))
  {
    var next := db.(states := db.states[id := row], tracked := db.tracked[place := t], requests := requests);
    assert TrackedOk(db, place);
    UpdateKeepsKeys(db.states, db.revisions, id, row);
    forall other | other in next.revisions
      ensures RevisionOk(next, other)
    {
      assert RevisionOk(db, other);
      UpdateKeepsRow(db, place, id, row, t, requests, other);
    }
    forall p | p in next.tracked
      ensures TrackedOk(next, p)
    {
      assert TrackedOk(db, p);
      UpdateKeepsPlace(db, place, id, row, t, requests, p);
    }
  }

  lemma AdvanceKeeps(db: Tables, place: Place, id: Id, source: Source, now: I64)
    requires TablesOk(db) && place in db.tracked && db.tracked[place].current == Some(id)
    requires id in db.revisions && id in db.states
    ensures TablesOk(AdvanceTx(db, place, id, source, now).0)
  {
    var next := AdvanceTx(db, place, id, source, now).0;
    assert TrackedOk(db, place) && RevisionOk(db, id);
    AdvancedIsOk(db.revisions[id], db.states[id], source, now, id in db.requests);
    UpdateKeeps(db, place, id, next.states[id], next.tracked[place], next.requests);
  }

  /** What BeginTx meets: the place is tracked, and every revision of it is out of the way. */
  ghost predicate Vacated(db: Tables, place: Place) {
    && PoliciesOk(db.policies) && place in db.tracked
    && (forall id {:trigger VacatedRow(db, place, id)} | id in db.revisions :: VacatedRow(db, place, id))
    && (forall p {:trigger TrackedOk(db, p)} | p in db.tracked && p != place :: TrackedOk(db, p))
    && db.states.Keys == db.revisions.Keys && db.requests.Keys <= db.revisions.Keys
    && FactsIdentify(db.revisions)
  }

  ghost predicate VacatedRow(db: Tables, place: Place, id: Id) {
    && id in db.revisions && id < db.nextId && id in db.states
    && db.revisions[id].place in db.tracked
    && RowOk(db.revisions[id], db.states[id],
             db.revisions[id].place != place && db.tracked[db.revisions[id].place].current == Some(id), id in db.requests)
  }

  lemma SupersedeVacatesRow(db: Tables, place: Place, now: I64, id: Id)
    requires TablesOk(db) && id in db.revisions
    ensures var tracking := TrackTx(db, place, now);
            VacatedRow(SupersedeTx(tracking, tracking.tracked[place].current), place, id)
  {
    assert RevisionOk(db, id);
    var r, s := db.revisions[id], db.states[id];
    var current := db.tracked[r.place].current == Some(id);
    LostIsOk(r, s, current, now, id in db.requests);
    if place in db.tracked {
      assert TrackedOk(db, place);
    }
  }

  lemma SupersedeChangesOneState(db: Tables, current: Option<Id>)
    ensures var next := SupersedeTx(db, current);
            && next.policies == db.policies && next.revisions == db.revisions && next.requests == db.requests
            && next.tracked == db.tracked && next.nextId == db.nextId && next.states.Keys == db.states.Keys
    ensures forall id | id in db.states ::
              SupersedeTx(db, current).states[id] == if current == Some(id) then Replaced(db.states[id]) else db.states[id]
  {
    if current.Some? && current.value in db.states {
      assert db.states[current.value := Replaced(db.states[current.value])].Keys == db.states.Keys;
    }
  }

  lemma SupersedeKeepsTables(db: Tables, place: Place, now: I64)
    ensures var tracking := TrackTx(db, place, now);
            var next := SupersedeTx(tracking, tracking.tracked[place].current);
            && next.policies == db.policies && next.revisions == db.revisions && next.requests == db.requests
            && next.states.Keys == db.states.Keys && next.tracked == tracking.tracked
  {
    var tracking := TrackTx(db, place, now);
    SupersedeChangesOneState(tracking, tracking.tracked[place].current);
  }

  lemma SupersedeVacates(db: Tables, place: Place, now: I64)
    requires TablesOk(db)
    ensures var tracking := TrackTx(db, place, now);
            Vacated(SupersedeTx(tracking, tracking.tracked[place].current), place)
  {
    var tracking := TrackTx(db, place, now);
    var next := SupersedeTx(tracking, tracking.tracked[place].current);
    SupersedeKeepsTables(db, place, now);
    forall id | id in next.revisions
      ensures VacatedRow(next, place, id)
    {
      SupersedeVacatesRow(db, place, now, id);
    }
    forall p | p in next.tracked && p != place
      ensures TrackedOk(next, p)
    {
      assert TrackedOk(db, p);
    }
  }

  lemma BeginKeepsRow(db: Tables, place: Place, facts: Facts, policy: Policy, auxiliary: Option<AuxiliaryReason>,
                      source: Source, now: I64, id: Id)
    requires Vacated(db, place) && Bounded(policy.minimumAge, policy.interval)
    requires id in BeginTx(db, place, facts, policy, auxiliary, source, now).0.revisions
    ensures RevisionOk(BeginTx(db, place, facts, policy, auxiliary, source, now).0, id)
  {
    if id in db.revisions {
      assert VacatedRow(db, place, id);
    }
  }

  lemma BeginKeepsFacts(db: Tables, place: Place, facts: Facts, policy: Policy, auxiliary: Option<AuxiliaryReason>,
                        source: Source, now: I64)
    requires Vacated(db, place)
    ensures var next := BeginTx(db, place, facts, policy, auxiliary, source, now).0;
            && FactsIdentify(next.revisions) && next.states.Keys == next.revisions.Keys
            && next.requests.Keys <= next.revisions.Keys && next.policies == db.policies
  {
    var known := FindRevision(db.revisions, place, facts);
    forall id | id in db.revisions
      ensures id < db.nextId
      ensures known.None? ==> !SameFile(db.revisions[id], Revision(place, facts, policy.minimumAge, policy.interval, policy.version))
    {
      assert VacatedRow(db, place, id);
    }
  }

  lemma BeginKeeps(db: Tables, place: Place, facts: Facts, policy: Policy, auxiliary: Option<AuxiliaryReason>,
                   source: Source, now: I64)
    requires Vacated(db, place) && Bounded(policy.minimumAge, policy.interval)
    ensures TablesOk(BeginTx(db, place, facts, policy, auxiliary, source, now).0)
  {
    var (next, outcome) := BeginTx(db, place, facts, policy, auxiliary, source, now);
    BeginKeepsFacts(db, place, facts, policy, auxiliary, source, now);
    forall id | id in next.revisions
      ensures RevisionOk(next, id)
    {
      BeginKeepsRow(db, place, facts, policy, auxiliary, source, now, id);
    }
    forall p | p in next.tracked
      ensures TrackedOk(next, p)
    {
      if p != place {
        assert TrackedOk(db, p) && VacatedRow(db, place, db.tracked[p].current.value);
      }
    }
  }

  lemma EnsureKeeps(db: Tables, inbox: Id)
    requires TablesOk(db)
    ensures TablesOk(EnsurePolicy(db, inbox).0)
    ensures EnsurePolicy(db, inbox).1.Some? ==>
              var policy := EnsurePolicy(db, inbox).1.value; Bounded(policy.minimumAge, policy.interval)
  {
    PolicyChangeKeeps(db, EnsurePolicy(db, inbox).0);
  }

  lemma ObserveKeeps(db: Tables, o: Observation, source: Source, now: I64)
    requires TablesOk(db)
    ensures TablesOk(ObserveTx(db, o, source, now).0)
  {
    var (ensured, policy) := EnsurePolicy(db, o.place.inbox);
    EnsureKeeps(db, o.place.inbox);
    if o.size <= MAX && policy.Some? {
      var facts := Facts(o.identity, o.size, o.modifiedNs);
      if SameFacts(ensured, o.place, facts) {
        AdvanceKeeps(ensured, o.place, ensured.tracked[o.place].current.value, source, now);
      } else {
        SupersedeVacates(ensured, o.place, now);
        var tracking := TrackTx(ensured, o.place, now);
        BeginKeeps(SupersedeTx(tracking, tracking.tracked[o.place].current), o.place, facts, policy.value, o.auxiliary, source, now);
      }
    }
  }

  lemma MarkMissingKeeps(db: Tables, place: Place, now: I64)
    requires TablesOk(db)
    ensures TablesOk(MarkMissingTx(db, place, now).0)
  {
    var next := MarkMissingTx(db, place, now).0;
    if place in db.tracked {
      assert TrackedOk(db, place);
      var id := db.tracked[place].current.value;
      assert RevisionOk(db, id);
      LostIsOk(db.revisions[id], db.states[id], true, now, id in db.requests);
      UpdateKeeps(db, place, id, next.states[id], next.tracked[place], db.requests);
      assert next == db.(states := next.states, tracked := next.tracked);
    }
  }

  lemma PutPolicyKeeps(db: Tables, s: Step)
    requires TablesOk(db) && s.PutPolicy?
    ensures TablesOk(Apply(db, s))
  {
    EnsureKeeps(db, s.inbox);
    PolicyChangeKeeps(db, Apply(db, s));
  }

  lemma StepKeeps(db: Tables, s: Step)
    requires TablesOk(db)
    ensures TablesOk(Apply(db, s))
  {
    match s
    case Observe(o, source, now) => ObserveKeeps(db, o, source, now);
    case MarkMissing(place, now) => MarkMissingKeeps(db, place, now);
    case PutPolicy(_, _, _, _, _, _) => PutPolicyKeeps(db, s);
    case Register(inbox) =>
      PolicyChangeKeeps(db, Apply(db, s));
  }

  lemma {:induction false} EveryTableIsOk(steps: seq<Step>)
    ensures TablesOk(Exec(steps))
  {
    if steps != [] {
      EveryTableIsOk(steps[..|steps| - 1]);
      StepKeeps(Exec(steps[..|steps| - 1]), steps[|steps| - 1]);
    }
  }
}
