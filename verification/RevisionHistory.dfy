/**
 What the runs of RevisionRuns promise over time: a stable revision was seen at least twice, an
 interval apart, and once when it was old enough; the scheduled check is the exact instant it
 becomes stable; processing is requested exactly once, and only for what was stable.
 */
module RevisionHistory {
  import opened Outcomes
  import opened Int64
  import opened FileRevisions
  import opened RevisionRuns

  // ---- What one step does to one revision ---------------------------------------------------------

  function FactsOf(o: Observation): Facts
    requires o.size <= MAX
  {
    Facts(o.identity, o.size, o.modifiedNs)
  }

  function Answer(db: Tables, s: Step): Option<Outcome> {
    if s.Observe? && ObserveTx(db, s.o, s.source, s.now).1.Ok? then Some(ObserveTx(db, s.o, s.source, s.now).1.value)
    else None
  }

  /** The step observes a file and the service answers with this revision. */
  predicate Touches(db: Tables, s: Step, id: Id) {
    Answer(db, s).Some? && Answer(db, s).value.revision == id
  }

  predicate Same(db: Tables, s: Step) {
    s.Observe? && s.o.size <= MAX && SameFacts(db, s.o.place, FactsOf(s.o))
  }

  /** The observation continues the run of matching observations the revision is in. */
  predicate Continues(db: Tables, s: Step, id: Id) {
    Touches(db, s, id) && Same(db, s) && id in db.states && !db.states[id].status.Missing?
  }

  ghost predicate Untouched(before: State, after: State) {
    after == before || after == Replaced(before) || exists now :: after == Lost(before, now)
  }

  ghost predicate Follows(db: Tables, s: Step, id: Id) {
    var next := Apply(db, s);
    && (id in db.revisions ==> id in next.revisions && next.revisions[id] == db.revisions[id])
    && (id in next.states <==> id in db.states || Touches(db, s, id))
    && (Touches(db, s, id) ==>
          && id in next.revisions && s.o.size <= MAX
          && next.revisions[id].place == s.o.place && next.revisions[id].facts == FactsOf(s.o))
    && (Touches(db, s, id) && Same(db, s) ==>
          && id in db.states && id in db.revisions
          && next.states[id] == Advanced(db.revisions[id], db.states[id], s.source, s.now)
          && (id in next.requests <==> id in db.requests || next.states[id].status.Stable?)
          && (Answer(db, s).value.processingRequested <==> id in next.requests && id !in db.requests))
    && (Touches(db, s, id) && !Same(db, s) ==>
          && EnsurePolicy(db, s.o.place.inbox).1.Some?
          && (exists version :: next.states[id]
                 == Begun(FactsOf(s.o), EnsurePolicy(db, s.o.place.inbox).1.value, s.o.auxiliary, s.source, s.now, version))
          && (id !in db.revisions ==>
                var policy := EnsurePolicy(db, s.o.place.inbox).1.value;
                next.revisions[id].minimumAge == policy.minimumAge && next.revisions[id].interval == policy.interval)
          && !Answer(db, s).value.processingRequested
          && (id in next.requests <==> id in db.requests))
    && (!Touches(db, s, id) ==>
          && (id in db.states ==> Untouched(db.states[id], next.states[id]))
          && (id in next.requests <==> id in db.requests))
  }

  lemma AdvanceFollows(db: Tables, s: Step, id: Id)
    requires TablesOk(db) && s.Observe? && Same(db, s) && EnsurePolicy(db, s.o.place.inbox).1.Some?
    ensures Follows(db, s, id)
  {
    var ensured := EnsurePolicy(db, s.o.place.inbox).0;
    assert TrackedOk(db, s.o.place);
    var current := db.tracked[s.o.place].current.value;
    assert Apply(db, s) == AdvanceTx(ensured, s.o.place, current, s.source, s.now).0;
  }

  /** What making a revision current does to the tables' rows. */
  lemma BeginRows(db: Tables, place: Place, facts: Facts, policy: Policy, auxiliary: Option<AuxiliaryReason>,
                  source: Source, now: I64, id: Id)
    requires place in db.tracked
    ensures var (next, outcome) := BeginTx(db, place, facts, policy, auxiliary, source, now);
            && next.requests == db.requests && !outcome.processingRequested
            && outcome.revision in next.revisions
            && (outcome.revision in db.revisions || outcome.revision == db.nextId)
            && SameFile(next.revisions[outcome.revision], Revision(place, facts, 0, 0, 0))
            && (outcome.revision !in db.revisions ==>
                  && next.revisions[outcome.revision].minimumAge == policy.minimumAge
                  && next.revisions[outcome.revision].interval == policy.interval)
            && (id != outcome.revision ==>
                  && (id in next.states <==> id in db.states)
                  && (id in db.states ==> next.states[id] == db.states[id]))
            && (id in db.revisions && id < db.nextId ==> id in next.revisions && next.revisions[id] == db.revisions[id])
  {
  }

  lemma SupersedeRows(db: Tables, place: Place, now: I64, id: Id)
    ensures var tracking := TrackTx(db, place, now);
            var next := SupersedeTx(tracking, tracking.tracked[place].current);
            && next.revisions == db.revisions && next.requests == db.requests && next.nextId == db.nextId
            && (id in next.states <==> id in db.states)
            && (id in db.states ==> Untouched(db.states[id], next.states[id]))
  {
    var tracking := TrackTx(db, place, now);
    SupersedeChangesOneState(tracking, tracking.tracked[place].current);
  }

  lemma BeginFollows(db: Tables, s: Step, id: Id)
    requires TablesOk(db) && s.Observe? && s.o.size <= MAX && !Same(db, s) && EnsurePolicy(db, s.o.place.inbox).1.Some?
    ensures Follows(db, s, id)
  {
    var (ensured, policy) := EnsurePolicy(db, s.o.place.inbox);
    var tracking := TrackTx(ensured, s.o.place, s.now);
    var superseded := SupersedeTx(tracking, tracking.tracked[s.o.place].current);
    SupersedeRows(ensured, s.o.place, s.now, id);
    BeginRows(superseded, s.o.place, FactsOf(s.o), policy.value, s.o.auxiliary, s.source, s.now, id);
    var (next, outcome) := BeginTx(superseded, s.o.place, FactsOf(s.o), policy.value, s.o.auxiliary, s.source, s.now);
    assert Apply(db, s) == next && Answer(db, s) == Some(outcome);
    assert id in db.revisions ==> RevisionOk(db, id);
    if id == outcome.revision {
      var version := if id in superseded.states then superseded.states[id].version + 1 else 1;
      assert next.states[id] == Begun(FactsOf(s.o), policy.value, s.o.auxiliary, s.source, s.now, version);
    }
  }

  lemma MarkFollows(db: Tables, s: Step, id: Id)
    requires s.MarkMissing?
    ensures Follows(db, s, id)
  {
    var next := Apply(db, s);
    if id in db.states && next.states[id] != db.states[id] {
      assert next.states[id] == Lost(db.states[id], s.now);
    }
  }

  lemma UnchangedFollows(db: Tables, s: Step, id: Id)
    requires db.states.Keys == db.revisions.Keys
    requires !Touches(db, s, id)
    requires var next := Apply(db, s);
             next.revisions == db.revisions && next.states == db.states && next.requests == db.requests
    ensures Follows(db, s, id)
  {
  }

  lemma ObserveFollows(db: Tables, s: Step, id: Id)
    requires TablesOk(db) && s.Observe?
    ensures Follows(db, s, id)
  {
    if s.o.size <= MAX && EnsurePolicy(db, s.o.place.inbox).1.Some? {
      if Same(db, s) {
        AdvanceFollows(db, s, id);
      } else {
        BeginFollows(db, s, id);
      }
    } else {
      assert Apply(db, s) == db;
      UnchangedFollows(db, s, id);
    }
  }

  lemma StepFollows(db: Tables, s: Step, id: Id)
    requires TablesOk(db)
    ensures Follows(db, s, id)
  {
    match s
    case Observe(_, _, _) => ObserveFollows(db, s, id);
    case MarkMissing(_, _) => MarkFollows(db, s, id);
    case PutPolicy(_, _, _, _, _, _) => UnchangedFollows(db, s, id);
    case Register(_) => UnchangedFollows(db, s, id);
  }

  // ---- Observations of a revision along a run ---------------------------------------------------

  function Before(steps: seq<Step>): Tables
    requires steps != []
  {
    Exec(steps[..|steps| - 1])
  }

  function Last(steps: seq<Step>): Step
    requires steps != []
  {
    steps[|steps| - 1]
  }

  /** When the revision was observed, over the whole run. */
  function Times(steps: seq<Step>, id: Id): seq<I64> {
    if steps == [] then []
    else Times(steps[..|steps| - 1], id) + if Touches(Before(steps), Last(steps), id) then [Last(steps).now] else []
  }

  /** The observation continues the epoch and lies far enough after the last counted one to count. */
  predicate CountsToward(db: Tables, s: Step, id: Id) {
    Continues(db, s, id) && id in db.revisions && db.states[id].status.Observing? && Counts(db.revisions[id], db.states[id], s.now)
  }

  /** The counted observations since the revision last became current or came back from missing. */
  function CountedTimes(steps: seq<Step>, id: Id): seq<I64> {
    if steps == [] then []
    else
      var db, s := Before(steps), Last(steps);
      if !Touches(db, s, id) then CountedTimes(steps[..|steps| - 1], id)
      else if !Continues(db, s, id) then [s.now]
      else CountedTimes(steps[..|steps| - 1], id) + if CountsToward(db, s, id) then [s.now] else []
  }

  function Gap(r: Revision): int {
    r.interval * 1_000_000
  }

  /** The one family of observations that counts too early: the sum saturates at the largest instant. */
  predicate Saturates(db: Tables, s: Step, id: Id) {
    CountsToward(db, s, id) && s.now == MAX && db.states[id].lastCounted > MAX - Gap(db.revisions[id])
  }

  /** No observation of this revision has saturated since its epoch began. */
  predicate NeverSaturates(steps: seq<Step>, id: Id) {
    steps == [] ||
    var db, s := Before(steps), Last(steps);
    if !Touches(db, s, id) then NeverSaturates(steps[..|steps| - 1], id)
    else Continues(db, s, id) ==> NeverSaturates(steps[..|steps| - 1], id) && !Saturates(db, s, id)
  }

  // ---- The chain of counted observations --------------------------------------------------------

  /** Each counted observation lies at least one interval after the one before. */
  predicate SpacedOut(counted: seq<I64>, gap: int) {
    forall k | 0 <= k < |counted| - 1 :: counted[k + 1] - counted[k] >= gap
  }

  /** What the gate demands of a counted observation, with its saturating sum. */
  predicate Gated(counted: seq<I64>, gap: int) {
    forall k | 0 <= k < |counted| - 1 :: counted[k + 1] >= Clamp(counted[k] + gap)
  }

  /** The row holds the first and the last counted instant, and counts no more than there were. */
  predicate Tells(s: State, counted: seq<I64>) {
    s.skip.None? ==>
      && 1 <= s.matching <= |counted|
      && counted[0] == s.firstObserved && counted[|counted| - 1] == s.lastCounted
  }

  lemma AdvanceCounts(r: Revision, s: State, source: Source, now: I64, counted: seq<I64>)
    requires RowOk(r, s, true, s.status.Stable?) && !s.status.Missing? && Tells(s, counted) && Gated(counted, Gap(r))
    ensures var more := counted + if s.status.Observing? && Counts(r, s, now) then [now] else [];
            Tells(Advanced(r, s, source, now), more) && Gated(more, Gap(r))
  {
  }

  ghost predicate Chained(db: Tables, id: Id, counted: seq<I64>) {
    id in db.revisions && id in db.states && Tells(db.states[id], counted) && Gated(counted, Gap(db.revisions[id]))
  }

  lemma ContinuedStep(db: Tables, s: Step, id: Id, before: seq<I64>)
    requires TablesOk(db) && Continues(db, s, id) && Chained(db, id, before)
    ensures Chained(Apply(db, s), id, before + if CountsToward(db, s, id) then [s.now] else [])
  {
    StepFollows(db, s, id);
    assert RevisionOk(db, id) && TrackedOk(db, s.o.place);
    AdvanceCounts(db.revisions[id], db.states[id], s.source, s.now, before);
  }

  lemma StartedStep(db: Tables, s: Step, id: Id)
    requires TablesOk(db) && Touches(db, s, id) && !Continues(db, s, id)
    ensures Chained(Apply(db, s), id, [s.now])
  {
    StepFollows(db, s, id);
  }

  lemma UntouchedStep(db: Tables, s: Step, id: Id, before: seq<I64>)
    requires TablesOk(db) && !Touches(db, s, id) && Chained(db, id, before)
    ensures Chained(Apply(db, s), id, before)
  {
    StepFollows(db, s, id);
  }

  lemma OnlyTouchesAdd(db: Tables, s: Step, id: Id)
    requires TablesOk(db) && id in Apply(db, s).revisions && id !in db.revisions
    ensures Touches(db, s, id) && !Continues(db, s, id)
  {
    StepKeeps(db, s);
    StepFollows(db, s, id);
  }

  /** In every run the row tells the chain of its counted observations, and the gate let each of them through. */
  lemma {:induction false} RowsTellTheChain(steps: seq<Step>, id: Id)
    requires id in Exec(steps).revisions
    ensures Chained(Exec(steps), id, CountedTimes(steps, id))
  {
    var earlier, db, s := steps[..|steps| - 1], Before(steps), Last(steps);
    EveryTableIsOk(earlier);
    if id in db.revisions {
      RowsTellTheChain(earlier, id);
    } else {
      OnlyTouchesAdd(db, s, id);
    }
    if !Touches(db, s, id) {
      UntouchedStep(db, s, id, CountedTimes(earlier, id));
    } else if Continues(db, s, id) {
      ContinuedStep(db, s, id, CountedTimes(earlier, id));
    } else {
      StartedStep(db, s, id);
    }
  }

  lemma OneMoreIsSpaced(r: Revision, s: State, counted: seq<I64>, now: I64)
    requires Bounded(r.minimumAge, r.interval) && s.skip.None? && Tells(s, counted) && Counts(r, s, now)
    ensures SpacedOut(counted + [now], Gap(r)) <==> SpacedOut(counted, Gap(r)) && !(now == MAX && s.lastCounted > MAX - Gap(r))
  {
    IntervalGateIsExact(r, s, now);
    var more := counted + [now];
    assert more[|counted|] == now && more[|counted| - 1] == s.lastCounted;
    if SpacedOut(more, Gap(r)) {
      forall k | 0 <= k < |counted| - 1
        ensures counted[k + 1] - counted[k] >= Gap(r)
      {
        assert more[k + 1] - more[k] >= Gap(r);
      }
    }
  }

  /** A chain of spaced instants spans at least its number of gaps. */
  lemma {:induction false} SpacedSpan(counted: seq<I64>, gap: nat)
    requires counted != [] && SpacedOut(counted, gap)
    ensures counted[|counted| - 1] - counted[0] >= (|counted| - 1) * gap
  {
    var n := |counted| - 1;
    if n > 0 {
      SpacedSpan(counted[..n], gap);
      assert n * gap == (n - 1) * gap + gap;
    }
  }

  lemma FewerGaps(few: nat, many: nat, gap: nat)
    requires few <= many
    ensures few * gap <= many * gap
  {
  }

  /**
   The counted observations of a revision's epoch lie an interval apart each, even with observations out of
   order, if and only if none of them saturated. Then the row's span covers as many intervals as it counted.
   */
  lemma {:induction false} CountedObservationsAreSpaced(steps: seq<Step>, id: Id)
    requires id in Exec(steps).revisions
    ensures id in Exec(steps).states
    ensures SpacedOut(CountedTimes(steps, id), Gap(Exec(steps).revisions[id])) <==> NeverSaturates(steps, id)
    ensures var r, s := Exec(steps).revisions[id], Exec(steps).states[id];
            NeverSaturates(steps, id) && s.skip.None? ==> s.lastCounted - s.firstObserved >= (s.matching - 1) * Gap(r)
  {
    var r := Exec(steps).revisions[id];
    RowsTellTheChain(steps, id);
    SpacedUnlessSaturated(steps, id);
    if NeverSaturates(steps, id) && Exec(steps).states[id].skip.None? {
      EveryTableIsOk(steps);
      assert RevisionOk(Exec(steps), id);
      SpacedSpan(CountedTimes(steps, id), Gap(r));
      FewerGaps(Exec(steps).states[id].matching - 1, |CountedTimes(steps, id)| - 1, Gap(r));
    }
  }

  lemma {:induction false} SpacedUnlessSaturated(steps: seq<Step>, id: Id)
    requires id in Exec(steps).revisions
    ensures SpacedOut(CountedTimes(steps, id), Gap(Exec(steps).revisions[id])) <==> NeverSaturates(steps, id)
  {
    if steps != [] {
      var earlier, db, s := steps[..|steps| - 1], Before(steps), Last(steps);
      EveryTableIsOk(earlier);
      StepFollows(db, s, id);
      if id in db.revisions {
        SpacedUnlessSaturated(earlier, id);
        if CountsToward(db, s, id) {
          RowsTellTheChain(earlier, id);
          assert RevisionOk(db, id);
          OneMoreIsSpaced(db.revisions[id], db.states[id], CountedTimes(earlier, id), s.now);
        } else {
          assert CountedTimes(earlier, id) + [] == CountedTimes(earlier, id);
        }
      } else {
        NothingCountedYet(earlier, id);
      }
    }
  }

  lemma {:induction false} NothingCountedYet(steps: seq<Step>, id: Id)
    requires id !in Exec(steps).revisions
    ensures CountedTimes(steps, id) == [] && NeverSaturates(steps, id)
  {
    if steps != [] {
      EveryTableIsOk(steps[..|steps| - 1]);
      StepFollows(Before(steps), Last(steps), id);
      NothingCountedYet(steps[..|steps| - 1], id);
    }
  }

  // ---- Stability ----------------------------------------------------------------------------------

  lemma {:induction false} LastObservedIsReal(steps: seq<Step>, id: Id)
    requires id in Exec(steps).states
    ensures Exec(steps).states[id].lastObserved in Times(steps, id)
  {
    if steps != [] {
      var db, s := Before(steps), Last(steps);
      EveryTableIsOk(steps[..|steps| - 1]);
      StepFollows(db, s, id);
      if id in db.states {
        LastObservedIsReal(steps[..|steps| - 1], id);
      }
    }
  }

  ghost predicate SeenTwice(counted: seq<I64>, gap: int) {
    exists i, j :: 0 <= i < j < |counted| && counted[j] - counted[i] >= gap
  }

  ghost predicate SeenOldEnough(r: Revision, times: seq<I64>) {
    exists k :: 0 <= k < |times| && 1_000 * times[k] >= r.facts.modifiedNs + r.minimumAge * 1_000_000_000
  }

  lemma {:induction false} GatedClimbs(counted: seq<I64>, gap: nat, i: nat)
    requires Gated(counted, gap) && i < |counted|
    ensures counted[i] >= counted[0]
  {
    if i > 0 {
      GatedClimbs(counted, gap, i - 1);
      assert counted[i - 1 + 1] >= Clamp(counted[i - 1] + gap);
    }
  }

  /** Two gated instants an interval apart exist exactly when the first leaves room for an interval. */
  lemma TwoInstantsApart(counted: seq<I64>, gap: nat)
    requires Gated(counted, gap) && |counted| >= 2
    ensures SeenTwice(counted, gap) <==> counted[0] <= MAX - gap
  {
    if counted[0] <= MAX - gap {
      assert counted[0 + 1] >= Clamp(counted[0] + gap);
      assert counted[1] - counted[0] >= gap;
    }
    if i, j :| 0 <= i < j < |counted| && counted[j] - counted[i] >= gap {
      GatedClimbs(counted, gap, i);
    }
  }

  /**
   A stable revision was observed, at some time, no earlier than its modification time plus its minimum age,
   and counted in its current epoch two observations of its own facts at least its interval apart; the
   latter if and only if its epoch began at least an interval before the largest instant.
   */
  lemma StableMeansSeenTwiceAndOldEnough(steps: seq<Step>, id: Id)
    requires id in Exec(steps).revisions && id in Exec(steps).states && Exec(steps).states[id].status.Stable?
    ensures var r, s := Exec(steps).revisions[id], Exec(steps).states[id];
            && (SeenTwice(CountedTimes(steps, id), Gap(r)) <==> s.firstObserved <= MAX - Gap(r))
            && SeenOldEnough(r, Times(steps, id))
  {
    EveryTableIsOk(steps);
    assert RevisionOk(Exec(steps), id);
    RowsTellTheChain(steps, id);
    LastObservedIsReal(steps, id);
    var r, s := Exec(steps).revisions[id], Exec(steps).states[id];
    TwoInstantsApart(CountedTimes(steps, id), Gap(r));
    var k :| 0 <= k < |Times(steps, id)| && Times(steps, id)[k] == s.lastObserved;
    AgeGateIsExact(Times(steps, id)[k], r.facts.modifiedNs, r.minimumAge);
  }

  lemma TwoObservations(db: Tables, o: Observation, source: Source)
    requires o.place.inbox in db.inboxes && db.policies == map[] && db.tracked == map[] && db.revisions == map[] && db.states == map[]
    requires o.size <= MAX && o.auxiliary.None?
    ensures var first := ObserveTx(db, o, source, MAX - 1).0;
            && Same(first, Observe(o, source, MAX)) && o.place.inbox in first.policies
            && first.tracked[o.place].current == Some(db.nextId)
            && first.revisions == map[db.nextId := Revision(o.place, FactsOf(o), MINIMUM_AGE, OBSERVATION_INTERVAL, 1)]
            && first.states == map[db.nextId := Begun(FactsOf(o), DefaultPolicy(), None, source, MAX - 1, 1)]
  {
    var policy := DefaultPolicy();
    assert FindRevision(db.revisions, o.place, FactsOf(o)).None?;
  }

  /** A file first seen one microsecond before the largest instant is stable at that instant, after one microsecond. */
  lemma SaturationBreaksTheChain(o: Observation, source: Source)
    requires o.size <= MAX && o.auxiliary.None?
    ensures var run := [Register(o.place.inbox), Observe(o, source, MAX - 1), Observe(o, source, MAX)];
            var r, s := Exec(run).revisions, Exec(run).states;
            && 0 in r && 0 in s && s[0].status.Stable?
            && s[0].matching == 2 && s[0].lastCounted - s[0].firstObserved == 1 < (s[0].matching - 1) * Gap(r[0])
            && !NeverSaturates(run, 0) && !SeenTwice(CountedTimes(run, 0), Gap(r[0]))
  {
    var run := [Register(o.place.inbox), Observe(o, source, MAX - 1), Observe(o, source, MAX)];
    assert run[..2][..1][..0] == [] && run[..2][..1] == [Register(o.place.inbox)] && run[..2][1] == run[1];
    assert Exec(run[..1]) == Apply(Init(), Register(o.place.inbox)) by {
      assert run[..1][..0] == [];
    }
    assert Exec(run[..2]) == Apply(Exec(run[..1]), run[1]) by {
      assert run[..2][..1] == run[..1];
    }
    assert Exec(run) == Apply(Exec(run[..2]), run[2]);
    TwoObservations(Exec(run[..1]), o, source);
    CountedObservationsAreSpaced(run, 0);
    StableMeansSeenTwiceAndOldEnough(run, 0);
  }

  // ---- The scheduled check ----------------------------------------------------------------------

  predicate OnSchedule(r: Revision, s: State) {
    s.nextCheck == Some(NextCheckAt(r.facts.modifiedNs, r.minimumAge, s.lastCounted, r.interval, s.matching))
  }

  /**
   A check scheduled from the revision's own snapshot is the exact instant: an observation of the same
   facts at or after it makes the revision stable, and none does before it unless it is out of order.
   */
  lemma ScheduledCheckIsTheInstant(r: Revision, s: State, source: Source, now: I64)
    requires RowOk(r, s, true, false) && s.status.Observing? && OnSchedule(r, s)
    ensures now >= s.nextCheck.value ==> Advanced(r, s, source, now).status.Stable?
    ensures now >= s.lastObserved ==> (Advanced(r, s, source, now).status.Stable? <==> now >= s.nextCheck.value)
  {
  }

  lemma AdvancedIsOnSchedule(r: Revision, s: State, source: Source, now: I64)
    ensures var next := Advanced(r, s, source, now); next.status.Observing? ==> OnSchedule(r, next)
  {
  }

  /**
   A revision that comes back under the policy values in force is scheduled by those, not by its own
   snapshot: the check is the exact instant if and only if both give the same instant.
   */
  lemma ReactivationScheduleIsExactOnlyIfPoliciesAgree(r: Revision, policy: Policy, source: Source, now: I64, version: nat)
    requires Bounded(r.minimumAge, r.interval) && Bounded(policy.minimumAge, policy.interval)
    ensures var s := Begun(r.facts, policy, None, source, now, version);
            (forall t: I64 | t >= now :: Advanced(r, s, source, t).status.Stable? <==> t >= s.nextCheck.value)
            <==> NextCheckAt(r.facts.modifiedNs, policy.minimumAge, now, policy.interval, 1)
                 == NextCheckAt(r.facts.modifiedNs, r.minimumAge, now, r.interval, 1)
  {
    var s := Begun(r.facts, policy, None, source, now, version);
    var own := NextCheckAt(r.facts.modifiedNs, r.minimumAge, now, r.interval, 1);
    var row := s.(nextCheck := Some(own));
    forall t: I64 | t >= now
      ensures Advanced(r, s, source, t).status.Stable? <==> t >= own
    {
      ScheduledCheckIsTheInstant(r, row, source, t);
      assert Advanced(r, s, source, t) == Advanced(r, row, source, t);
    }
    assert own >= now && s.nextCheck.value >= now;
    if s.nextCheck.value != own {
      var t := if own < s.nextCheck.value then own else s.nextCheck.value;
      assert !(Advanced(r, s, source, t).status.Stable? <==> t >= s.nextCheck.value);
    }
  }

  /** The policy in force gives a revision that becomes current the same first check as its own snapshot. */
  predicate BeginAgrees(db: Tables, s: Step, id: Id)
    requires s.Observe?
  {
    var r, policy := Apply(db, s).revisions, EnsurePolicy(db, s.o.place.inbox).1;
    && id in r && policy.Some?
    && NextCheckAt(r[id].facts.modifiedNs, policy.value.minimumAge, s.now, policy.value.interval, 1)
       == NextCheckAt(r[id].facts.modifiedNs, r[id].minimumAge, s.now, r[id].interval, 1)
  }

  /** The latest observation of this revision advanced it, or made it current under a policy that agrees with it. */
  predicate LastBeginAgrees(steps: seq<Step>, id: Id) {
    steps == [] ||
    var db, s := Before(steps), Last(steps);
    if !Touches(db, s, id) then LastBeginAgrees(steps[..|steps| - 1], id)
    else Same(db, s) || BeginAgrees(db, s, id)
  }

  /** It does agree when the revision is new, and when the policy in force has the values of its snapshot. */
  lemma SameValuesAgree(db: Tables, s: Step, id: Id)
    requires TablesOk(db) && Touches(db, s, id) && !Same(db, s)
    requires id in db.revisions ==>
               var policy := EnsurePolicy(db, s.o.place.inbox).1;
               policy.Some? ==> db.revisions[id].minimumAge == policy.value.minimumAge && db.revisions[id].interval == policy.value.interval
    ensures BeginAgrees(db, s, id)
  {
    StepFollows(db, s, id);
  }

  /** Off its own schedule a revision can only be where it became current and was not observed since. */
  predicate JustBegun(s: State) {
    s.matching == 1 && s.lastCounted == s.lastObserved && s.nextCheck.Some? && s.nextCheck.value >= s.lastObserved
  }

  lemma BeginSchedule(db: Tables, s: Step, id: Id)
    requires TablesOk(db) && Touches(db, s, id) && !Same(db, s)
    ensures var next := Apply(db, s);
            && id in next.revisions && id in next.states
            && (next.states[id].status.Observing? ==>
                  JustBegun(next.states[id]) && (OnSchedule(next.revisions[id], next.states[id]) <==> BeginAgrees(db, s, id)))
  {
    StepFollows(db, s, id);
    StepKeeps(db, s);
    assert RevisionOk(Apply(db, s), id);
    EnsureKeeps(db, s.o.place.inbox);
  }

  /**
   In every run a pending check follows the revision's own snapshot if and only if its latest observation
   advanced it or made it current under a policy that gives the same first check.
   */
  lemma {:induction false} EveryCheckIsOnSchedule(steps: seq<Step>, id: Id)
    requires id in Exec(steps).revisions && id in Exec(steps).states && Exec(steps).states[id].status.Observing?
    ensures OnSchedule(Exec(steps).revisions[id], Exec(steps).states[id]) <==> LastBeginAgrees(steps, id)
    ensures LastBeginAgrees(steps, id) || JustBegun(Exec(steps).states[id])
  {
    var db, s := Before(steps), Last(steps);
    EveryTableIsOk(steps[..|steps| - 1]);
    StepFollows(db, s, id);
    if Touches(db, s, id) {
      if Same(db, s) {
        AdvancedIsOnSchedule(db.revisions[id], db.states[id], s.source, s.now);
      } else {
        BeginSchedule(db, s, id);
      }
    } else {
      EveryCheckIsOnSchedule(steps[..|steps| - 1], id);
    }
  }

  /** An observation of the revision's own facts, no earlier than the latest the row remembers. */
  predicate InOrder(db: Tables, s: Step, id: Id) {
    Touches(db, s, id) && Same(db, s) && id in db.states && s.now >= db.states[id].lastObserved
  }

  lemma AnswerIsAdvanced(db: Tables, s: Step, id: Id)
    requires TablesOk(db) && Touches(db, s, id) && Same(db, s)
    ensures id in db.states && id in db.revisions
    ensures Answer(db, s).value.status == Advanced(db.revisions[id], db.states[id], s.source, s.now).status
  {
    AdvanceFollows(db, s, id);
  }

  /** An observation of the same facts at or after an own check is answered with a stable revision, whatever its order. */
  lemma ObservationsAfterTheCheckAreStable(steps: seq<Step>, s: Step, id: Id)
    requires id in Exec(steps).states && Exec(steps).states[id].status.Observing? && LastBeginAgrees(steps, id)
    requires Touches(Exec(steps), s, id) && Same(Exec(steps), s)
    ensures var check := Exec(steps).states[id].nextCheck;
            && check.Some?
            && (s.now >= check.value ==> Answer(Exec(steps), s).value.status.Stable?)
            && (InOrder(Exec(steps), s, id) ==> (Answer(Exec(steps), s).value.status.Stable? <==> s.now >= check.value))
  {
    EveryTableIsOk(steps);
    AnswerIsAdvanced(Exec(steps), s, id);
    assert RevisionOk(Exec(steps), id);
    EveryCheckIsOnSchedule(steps, id);
    ScheduledCheckIsTheInstant(Exec(steps).revisions[id], Exec(steps).states[id], s.source, s.now);
  }

  lemma ObservedFacts(db: Tables, s: Step)
    ensures forall inbox | inbox in db.policies :: inbox in Apply(db, s).policies
    ensures Answer(db, s).Some? ==> s.o.place.inbox in Apply(db, s).policies
  {
  }

  /** Every revision could be observed again: its inbox has a policy and its size is one. */
  lemma {:induction false} RevisionsAreObservable(steps: seq<Step>, id: Id)
    requires id in Exec(steps).revisions
    ensures Exec(steps).revisions[id].facts.size >= 0 && Exec(steps).revisions[id].place.inbox in Exec(steps).policies
  {
    var db, s := Before(steps), Last(steps);
    EveryTableIsOk(steps[..|steps| - 1]);
    EveryTableIsOk(steps);
    StepFollows(db, s, id);
    ObservedFacts(db, s);
    if id in db.revisions {
      RevisionsAreObservable(steps[..|steps| - 1], id);
    }
  }

  /** The same facts observed once more. */
  function Again(r: Revision, now: I64): Step
    requires r.facts.size >= 0
  {
    Observe(Observation(r.place, r.facts.identity, r.facts.size, r.facts.modifiedNs, None), Scan, now)
  }

  lemma AgainTouches(steps: seq<Step>, id: Id, now: I64)
    requires id in Exec(steps).revisions && id in Exec(steps).states && Exec(steps).states[id].status.Observing?
    requires Exec(steps).revisions[id].facts.size >= 0
    ensures var s := Again(Exec(steps).revisions[id], now); Touches(Exec(steps), s, id) && Same(Exec(steps), s)
  {
    EveryTableIsOk(steps);
    RevisionsAreObservable(steps, id);
    var db, r := Exec(steps), Exec(steps).revisions[id];
    assert RevisionOk(db, id) && TrackedOk(db, r.place);
  }

  /** Off schedule, one of the two instants tells the check from the instant of stability. */
  lemma OffScheduleIsOff(r: Revision, s: State) returns (t: I64)
    requires RowOk(r, s, true, false) && s.status.Observing? && !OnSchedule(r, s) && JustBegun(s)
    ensures t >= s.lastObserved && !(Advanced(r, s, Scan, t).status.Stable? <==> t >= s.nextCheck.value)
  {
    var own := NextCheckAt(r.facts.modifiedNs, r.minimumAge, s.lastCounted, r.interval, 1);
    t := if own < s.nextCheck.value then own else s.nextCheck.value;
    ScheduledCheckIsTheInstant(r, s.(nextCheck := Some(own)), Scan, t);
    assert Advanced(r, s, Scan, t) == Advanced(r, s.(nextCheck := Some(own)), Scan, t);
  }

  /**
   The scheduled check is the exact instant of stabilisation: among observations in order, exactly those at
   or after it are answered with a stable revision, if and only if the revision is on its own schedule.
   */
  lemma TheCheckIsTheInstant(steps: seq<Step>, id: Id)
    requires id in Exec(steps).revisions && id in Exec(steps).states && Exec(steps).states[id].status.Observing?
    ensures var db := Exec(steps);
            db.states[id].nextCheck.Some?
            && ((forall s | InOrder(db, s, id) ::
                   Answer(db, s).value.status.Stable? <==> s.now >= db.states[id].nextCheck.value)
                <==> LastBeginAgrees(steps, id))
  {
    var db := Exec(steps);
    EveryTableIsOk(steps);
    assert RevisionOk(db, id);
    EveryCheckIsOnSchedule(steps, id);
    if LastBeginAgrees(steps, id) {
      forall s | InOrder(db, s, id)
        ensures Answer(db, s).value.status.Stable? <==> s.now >= db.states[id].nextCheck.value
      {
        ObservationsAfterTheCheckAreStable(steps, s, id);
      }
    } else {
      var t := OffScheduleIsOff(db.revisions[id], db.states[id]);
      RevisionsAreObservable(steps, id);
      var s := Again(db.revisions[id], t);
      AgainTouches(steps, id, t);
      AnswerIsAdvanced(db, s, id);
      assert InOrder(db, s, id);
    }
  }

  // ---- Processing is requested once -------------------------------------------------------------

  predicate EverStable(steps: seq<Step>, id: Id) {
    || (id in Exec(steps).states && Exec(steps).states[id].status.Stable?)
    || (steps != [] && EverStable(steps[..|steps| - 1], id))
  }

  /** How many observations reported that they had just requested processing. */
  function Requested(steps: seq<Step>, id: Id): nat {
    if steps == [] then 0
    else
      var answer := Answer(Before(steps), Last(steps));
      Requested(steps[..|steps| - 1], id)
        + if answer.Some? && answer.value.revision == id && answer.value.processingRequested then 1 else 0
  }

  lemma TouchRequests(db: Tables, s: Step, id: Id)
    requires TablesOk(db) && Touches(db, s, id)
    ensures id in Apply(db, s).requests <==> id in db.requests || (id in Apply(db, s).states && Apply(db, s).states[id].status.Stable?)
  {
    StepFollows(db, s, id);
  }

  lemma StepRequests(db: Tables, s: Step, id: Id)
    requires TablesOk(db)
    ensures id in Apply(db, s).requests <==> id in db.requests || (id in Apply(db, s).states && Apply(db, s).states[id].status.Stable?)
  {
    if Touches(db, s, id) {
      TouchRequests(db, s, id);
    } else {
      StepFollows(db, s, id);
      if id in db.states {
        assert RevisionOk(db, id);
      }
    }
  }

  /** A processing request exists if and only if the revision was stable at some time, and one observation reported it. */
  lemma {:induction false} RequestedOnceIfEverStable(steps: seq<Step>, id: Id)
    ensures id in Exec(steps).requests <==> EverStable(steps, id)
    ensures Requested(steps, id) == if id in Exec(steps).requests then 1 else 0
  {
    if steps != [] {
      RequestedOnceIfEverStable(steps[..|steps| - 1], id);
      EveryTableIsOk(steps[..|steps| - 1]);
      StepRequests(Before(steps), Last(steps), id);
      StepFollows(Before(steps), Last(steps), id);
    }
  }

  // ---- Every place has one current revision -------------------------------------------------------

  /**
   In every reachable table a tracked place has one current revision, observing, stable, missing or
   skipped; all its other revisions are superseded or missing and differ in their facts; a revision
   with a reason to be skipped is never stable.
   */
  lemma OneCurrentRevision(steps: seq<Step>, place: Place, id: Id)
    requires var db := Exec(steps); place in db.tracked && id in db.revisions && db.revisions[id].place == place
    ensures var db := Exec(steps);
            && id in db.states && db.tracked[place].current.Some? && db.tracked[place].current.value in db.revisions
            && var current := db.tracked[place].current.value;
               && db.revisions[current].place == place
               && (id == current ==> !db.states[id].status.Superseded?)
               && (id != current ==>
                     && (db.states[id].status.Superseded? || db.states[id].status.Missing?)
                     && db.revisions[id].facts != db.revisions[current].facts)
               && (db.states[id].skip.Some? ==> !db.states[id].status.Stable? && !db.states[id].status.Observing?)
  {
    EveryTableIsOk(steps);
    var db := Exec(steps);
    assert RevisionOk(db, id) && TrackedOk(db, place);
    var current := db.tracked[place].current.value;
    if id != current {
      assert !SameFile(db.revisions[id], db.revisions[current]);
    }
  }
}
