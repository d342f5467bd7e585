/**
 Whole runs of the completion signals beside the automation core: downloads finish, mappings change,
 dispatchers claim, dispatch and crash, expired leases are recovered, and in between the automation core
 takes any steps of its own. Every such run is, underneath, a run of the automation core, so that what
 holds of all its runs holds here as well.
 */
module CompletionRuns {
  import opened Outcomes
  import opened Int64
  import opened Ordering
  import opened CompletionSignals
  import E = AutomationEvents
  import A = AutomationRuns
  import H = AutomationHistory
  import D = ReconcileRequests

  datatype World = World(
    signals: map<Id, Signal>, mappings: map<Id, Mapping>, nextToken: Id,
    automation: A.World, dispatchers: map<Id, Lease>)

  datatype Step =
    | Record(task: Id, connection: Id, version: nat, now: I64)
    | SetMapping(source: Id, mapping: Option<Mapping>)
    | Prepare(now: I64)
    | Claim(dispatcher: Id, now: I64)
    | Dispatch(dispatcher: Id, now: I64)
    | Crash(dispatcher: Id)
    | Automation(step: A.Step)

  const EMPTY := World(map[], map[], 0, A.EMPTY, map[])

  // ---- One step ----------------------------------------------------------------------------------

  function View(w: World): Tables {
    Tables(w.signals, w.mappings, w.automation.store, w.nextToken)
  }

  function Put(w: World, db: Tables): World {
    w.(signals := db.signals, mappings := db.mappings, nextToken := db.nextToken,
       automation := w.automation.(store := db.events))
  }

  /** The partial unique index on enabled mappings refuses a second one for the same connection. */
  predicate Clashes(mappings: map<Id, Mapping>, source: Id, mapping: Mapping) {
    mapping.enabled && exists other :: other in mappings && other != source
                                       && mappings[other].enabled && mappings[other].connection == mapping.connection
  }

  /** Only the dispatcher files events under a completion's dedup key. */
  predicate Foreign(s: A.Step) {
    s.Insert? ==> s.dedup.Supplied?
  }

  function Apply(w: World, s: Step): World {
    match s
    case Record(task, connection, version, now) => w.(signals := RecordTx(w.signals, task, connection, version, now))
    case SetMapping(source, mapping) =>
      if mapping.None? then w.(mappings := w.mappings - {source})
      else if Clashes(w.mappings, source, mapping.value) then w
      else w.(mappings := w.mappings[source := mapping.value])
    case Prepare(now) => Put(w, PrepareTx(View(w), now).0)
    case Claim(dispatcher, now) =>
      if dispatcher in w.dispatchers then w
      else
        var (db, lease) := ClaimTx(View(w), now);
        Put(w, db).(dispatchers := if lease.Some? then w.dispatchers[dispatcher := lease.value] else w.dispatchers)
    case Dispatch(dispatcher, now) =>
      if dispatcher !in w.dispatchers then w
      else Put(w, DispatchTx(View(w), w.dispatchers[dispatcher], now).0).(dispatchers := w.dispatchers - {dispatcher})
    case Crash(dispatcher) => w.(dispatchers := w.dispatchers - {dispatcher})
    case Automation(step) => if Foreign(step) then w.(automation := A.Apply(w.automation, step)) else w
  }

  function Exec(steps: seq<Step>): World {
    if steps == [] then EMPTY else Apply(Exec(steps[..|steps| - 1]), steps[|steps| - 1])
  }

  // ---- What every run keeps ------------------------------------------------------------------------

  /** The event was filed for this task's completion. */
  ghost predicate FiledFor(events: map<Id, E.Event>, event: Id, task: Id) {
    event in events && events[event].dedup.CompletionOf? && events[event].dedup.task == task
  }

  ghost predicate Answers(event: E.Event, signal: Signal) {
    event.dedup.CompletionOf? && event.dedup.version == signal.version && event.request.Reconcile?
  }

  /** Signals and the events filed for them name each other. */
  ghost predicate EventsMatch(signals: map<Id, Signal>, events: map<Id, E.Event>) {
    && (forall e, task | FiledFor(events, e, task) ::
          task in signals && signals[task].outcome == Some(EventCreated(e)) && Answers(events[e], signals[task]))
    && (forall task | task in signals && signals[task].outcome.Some? && signals[task].outcome.value.EventCreated? ::
          FiledFor(events, signals[task].outcome.value.event, task))
  }

  ghost predicate OneEnabled(mappings: map<Id, Mapping>) {
    forall a, b | a in mappings && b in mappings && mappings[a].enabled && mappings[b].enabled
                  && mappings[a].connection == mappings[b].connection :: a == b
  }

  ghost predicate LeaseOk(signals: map<Id, Signal>, lease: Lease) {
    && lease.task in signals
    && lease.connection == signals[lease.task].connection && lease.version == signals[lease.task].version
  }

  ghost predicate WorldOk(w: World) {
    && SignalsOk(w.signals, w.nextToken)
    && EventsMatch(w.signals, w.automation.store.events)
    && OneEnabled(w.mappings)
    && (forall d | d in w.dispatchers :: LeaseOk(w.signals, w.dispatchers[d]))
  }

  // ---- What a dispatch amounts to ------------------------------------------------------------------

  /** The source whose mapping a dispatch uses. */
  ghost function MappingFor(mappings: map<Id, Mapping>, connection: Id): Option<Id> {
    var found := Ascending(EnabledKeys(mappings, connection));
    if found == [] then None else Some(found[0].major)
  }

  lemma MappingIsEnabled(mappings: map<Id, Mapping>, connection: Id)
    requires OneEnabled(mappings)
    ensures |First(Ascending(EnabledKeys(mappings, connection)), 2)| <= 1
    ensures var source := MappingFor(mappings, connection);
            if source.Some? then
              source.value in mappings && mappings[source.value].enabled && mappings[source.value].connection == connection
            else forall other | other in mappings && mappings[other].enabled :: mappings[other].connection != connection
  {
    var found := Ascending(EnabledKeys(mappings, connection));
    if found == [] {
      forall other | other in mappings && mappings[other].enabled
        ensures mappings[other].connection != connection
      {
        assert Key(other, 0) !in found;
      }
    } else {
      assert found[0] in found;
    }
  }

  /** A dispatch that holds its lease files its event, if the connection is mapped, and settles the signal. */
  ghost predicate DispatchedAs(w: World, lease: Lease, now: I64, next: Tables, event: Option<Id>)
    requires lease.task in w.signals
  {
    var source := MappingFor(w.mappings, lease.connection);
    var signal := w.signals[lease.task];
    && next.mappings == w.mappings && next.nextToken == w.nextToken
    && if source.None? || source.value !in w.mappings then
         && event.None? && next.events == w.automation.store
         && next.signals == w.signals[lease.task := signal.Settled(NoMapping, now)]
       else
         && event == Some(w.automation.store.nextId)
         && next.events == A.Apply(w.automation, Filing(w, lease, now)).store
         && next.signals == w.signals[lease.task := signal.Settled(EventCreated(event.value), now)]
  }

  /** The insertion a dispatch makes, as a step of the automation core. */
  ghost function Filing(w: World, lease: Lease, now: I64): A.Step
    requires var source := MappingFor(w.mappings, lease.connection); source.Some? && source.value in w.mappings
  {
    var source := MappingFor(w.mappings, lease.connection).value;
    A.Insert(source, E.CompletionOf(lease.task, lease.version), E.Reconcile(w.mappings[source].inbox), now)
  }

  /** Without the lease nothing is written; with it a dispatch meets no conflict and no second mapping. */
  lemma DispatchLands(w: World, lease: Lease, now: I64)
    requires WorldOk(w) && LeaseOk(w.signals, lease)
    ensures var (next, r) := DispatchTx(View(w), lease, now);
            && (r.Ok? <==> Holds(w.signals, lease))
            && (r.Err? ==> next == View(w))
            && (r.Ok? ==> r.value.task == lease.task && DispatchedAs(w, lease, now, next, r.value.event))
  {
    MappingIsEnabled(w.mappings, lease.connection);
    var found := Ascending(EnabledKeys(w.mappings, lease.connection));
    assert First(found, 2) == found;
    if found != [] && Holds(w.signals, lease) {
      var source := found[0].major;
      NothingFiledYet(w, lease, source);
    }
  }

  lemma NothingFiledYet(w: World, lease: Lease, source: Id)
    requires WorldOk(w) && Holds(w.signals, lease)
    ensures !E.Occupied(w.automation.store, source, E.CompletionOf(lease.task, lease.version))
  {
    assert SignalOk(w.signals[lease.task], w.nextToken);
    forall e | e in w.automation.store.events
      ensures w.automation.store.events[e].dedup != E.CompletionOf(lease.task, lease.version)
    {
      assert !FiledFor(w.automation.store.events, e, lease.task);
    }
  }

  // ---- Every step ----------------------------------------------------------------------------------

  /** The task whose signal the step leases. */
  ghost function Leased(w: World, s: Step): Option<Id> {
    if !s.Claim? || s.dispatcher in w.dispatchers then None
    else
      var lease := ClaimTx(View(w), s.now).1;
      if lease.Some? then Some(lease.value.task) else None
  }

  /** The task whose signal the step settles. */
  ghost function SettledBy(w: World, s: Step): Option<Id> {
    if !s.Dispatch? || s.dispatcher !in w.dispatchers then None
    else
      var r := DispatchTx(View(w), w.dispatchers[s.dispatcher], s.now).1;
      if r.Ok? then Some(r.value.task) else None
  }

  ghost predicate StepFollows(w: World, s: Step) {
    SignalsFollow(w.signals, Apply(w, s).signals, Leased(w, s), SettledBy(w, s), w.nextToken, Apply(w, s).nextToken)
  }

  lemma ClaimStep(w: World, s: Step)
    requires WorldOk(w) && s.Claim?
    ensures StepFollows(w, s)
  {
    if s.dispatcher !in w.dispatchers {
      ClaimFollows(View(w), s.now);
    }
  }

  lemma DispatchStep(w: World, s: Step)
    requires WorldOk(w) && s.Dispatch?
    ensures StepFollows(w, s)
  {
    if s.dispatcher in w.dispatchers {
      DispatchFollows(w, w.dispatchers[s.dispatcher], s.now);
    }
  }

  lemma SignalsStep(w: World, s: Step)
    requires WorldOk(w)
    ensures StepFollows(w, s)
  {
    match s
    case Record(task, connection, version, now) => RecordFollows(w.signals, task, connection, version, now, w.nextToken);
    case Prepare(now) => PrepareFollows(View(w), now);
    case Claim(_, _) => ClaimStep(w, s);
    case Dispatch(_, _) => DispatchStep(w, s);
    case _ =>
  }

  lemma DispatchFollows(w: World, lease: Lease, now: I64)
    requires WorldOk(w) && LeaseOk(w.signals, lease)
    ensures var (next, r) := DispatchTx(View(w), lease, now);
            SignalsFollow(w.signals, next.signals, None, if r.Ok? then Some(r.value.task) else None, w.nextToken, next.nextToken)
  {
    var (next, r) := DispatchTx(View(w), lease, now);
    DispatchLands(w, lease, now);
    if r.Ok? {
      var outcome := next.signals[lease.task].outcome.value;
      SettleFollows(w.signals, lease, outcome, now, w.nextToken);
    }
  }

  /** What the automation core does underneath: a dispatch that files an event inserts it. */
  ghost function Under(w: World, s: Step): Option<A.Step> {
    match s
    case Automation(step) => if Foreign(step) then Some(step) else None
    case Dispatch(dispatcher, now) =>
      if dispatcher !in w.dispatchers then None
      else
        var lease := w.dispatchers[dispatcher];
        var r := DispatchTx(View(w), lease, now).1;
        var source := MappingFor(w.mappings, lease.connection);
        if r.Ok? && r.value.event.Some? && source.Some? && source.value in w.mappings then Some(Filing(w, lease, now)) else None
    case _ => None
  }

  lemma UnderStep(w: World, s: Step)
    requires WorldOk(w)
    ensures Apply(w, s).automation == if Under(w, s).Some? then A.Apply(w.automation, Under(w, s).value) else w.automation
  {
    match s
    case Dispatch(dispatcher, now) =>
      if dispatcher in w.dispatchers {
        assert LeaseOk(w.signals, w.dispatchers[dispatcher]);
        DispatchLands(w, w.dispatchers[dispatcher], now);
      }
    case _ =>
  }

  ghost function Beneath(steps: seq<Step>): seq<A.Step> {
    if steps == [] then []
    else
      var before, step := steps[..|steps| - 1], Under(Exec(steps[..|steps| - 1]), steps[|steps| - 1]);
      if step.Some? then Beneath(before) + [step.value] else Beneath(before)
  }

  /** A step of the core leaves an event's identity alone, and files events only by inserting them. */
  ghost predicate EventKeeps(before: map<Id, E.Event>, after: map<Id, E.Event>, s: A.Step, e: Id) {
    if e in before then e in after && A.SameIdentity(before[e], after[e])
    else e in after ==> s.Insert? && after[e].dedup == s.dedup
  }

  lemma EventStep(a: A.World, s: A.Step, e: Id)
    requires e in a.store.events ==> A.RowOk(a.store.events[e]) && e < a.store.nextId
    ensures EventKeeps(a.store.events, A.Apply(a, s).store.events, s, e)
  {
    H.StepFollows(a, s, e);
  }

  lemma EventsKeep(a: A.World, s: A.Step, after: map<Id, E.Event>)
    requires A.StoreOk(a.store) && after == A.Apply(a, s).store.events
    ensures forall e :: EventKeeps(a.store.events, after, s, e)
  {
    forall e
      ensures EventKeeps(a.store.events, after, s, e)
    {
      EventStep(a, s, e);
    }
  }

  /** Foreign steps of the core neither file completion events nor change what filed ones are. */
  lemma ForeignStepsMatch(signals: map<Id, Signal>, before: map<Id, E.Event>, after: map<Id, E.Event>, s: A.Step)
    requires EventsMatch(signals, before) && Foreign(s) && forall e :: EventKeeps(before, after, s, e)
    ensures EventsMatch(signals, after)
  {
    forall e, task | FiledFor(after, e, task)
      ensures FiledFor(before, e, task) && A.SameIdentity(before[e], after[e])
    {
      assert EventKeeps(before, after, s, e);
    }
    forall e, task | FiledFor(before, e, task)
      ensures FiledFor(after, e, task)
    {
      assert EventKeeps(before, after, s, e);
    }
  }

  lemma FilingMatches(w: World, lease: Lease, now: I64)
    requires WorldOk(w) && A.StoreOk(w.automation.store) && LeaseOk(w.signals, lease) && Holds(w.signals, lease)
    ensures var next := DispatchTx(View(w), lease, now).0; EventsMatch(next.signals, next.events.events)
  {
    DispatchLands(w, lease, now);
    var next := DispatchTx(View(w), lease, now).0;
    assert SignalOk(w.signals[lease.task], w.nextToken);
    var before := w.automation.store.events;
    forall e, task | FiledFor(next.events.events, e, task)
      ensures task in next.signals && next.signals[task].outcome == Some(EventCreated(e))
      ensures Answers(next.events.events[e], next.signals[task])
    {
      assert e in before ==> FiledFor(before, e, task);
    }
  }

  /** Signals that only wait, run or fail leave the filed events where they are. */
  lemma QuietSignalsMatch(w: World, next: World, s: Step)
    requires WorldOk(w) && next.automation == w.automation
    requires SignalsFollow(w.signals, next.signals, Leased(w, s), None, w.nextToken, next.nextToken)
    ensures EventsMatch(next.signals, next.automation.store.events)
  {
    forall e, task | FiledFor(w.automation.store.events, e, task)
      ensures task in next.signals && next.signals[task] == w.signals[task]
    {
      assert SignalOk(w.signals[task], w.nextToken);
    }
    forall task | task in next.signals && next.signals[task].outcome.Some? && next.signals[task].outcome.value.EventCreated?
      ensures task in w.signals && next.signals[task] == w.signals[task]
    {
      assert SignalOk(next.signals[task], next.nextToken);
    }
  }

  lemma LeaseStays(w: World, next: World, s: Step, lease: Lease)
    requires SignalsFollow(w.signals, next.signals, Leased(w, s), SettledBy(w, s), w.nextToken, next.nextToken)
    requires LeaseOk(w.signals, lease)
    ensures LeaseOk(next.signals, lease)
  {
  }

  lemma NewLease(w: World, s: Step)
    requires WorldOk(w) && s.Claim? && s.dispatcher !in w.dispatchers && ClaimTx(View(w), s.now).1.Some?
    ensures LeaseOk(Apply(w, s).signals, ClaimTx(View(w), s.now).1.value)
  {
  }

  lemma DispatchersCome(w: World, s: Step, d: Id)
    requires d in Apply(w, s).dispatchers
    ensures if d in w.dispatchers then Apply(w, s).dispatchers[d] == w.dispatchers[d]
            else s.Claim? && s.dispatcher == d && ClaimTx(View(w), s.now).1 == Some(Apply(w, s).dispatchers[d])
  {
  }

  lemma LeasesStay(w: World, s: Step, next: World)
    requires WorldOk(w) && next == Apply(w, s)
    ensures forall d | d in next.dispatchers :: LeaseOk(next.signals, next.dispatchers[d])
  {
    SignalsStep(w, s);
    forall d | d in next.dispatchers
      ensures LeaseOk(next.signals, next.dispatchers[d])
    {
      DispatchersCome(w, s, d);
      if d in w.dispatchers {
        LeaseStays(w, next, s, w.dispatchers[d]);
      } else {
        NewLease(w, s);
      }
    }
  }

  lemma MappingsStay(w: World, s: Step)
    requires WorldOk(w)
    ensures OneEnabled(Apply(w, s).mappings)
  {
    match s
    case Dispatch(dispatcher, now) =>
      if dispatcher in w.dispatchers {
        DispatchLands(w, w.dispatchers[dispatcher], now);
      }
    case _ =>
  }

  lemma MatchStays(w: World, s: Step)
    requires WorldOk(w) && A.StoreOk(w.automation.store)
    ensures EventsMatch(Apply(w, s).signals, Apply(w, s).automation.store.events)
  {
    SignalsStep(w, s);
    match s
    case Automation(step) =>
      if Foreign(step) {
        var after := A.Apply(w.automation, step).store.events;
        EventsKeep(w.automation, step, after);
        ForeignStepsMatch(w.signals, w.automation.store.events, after, step);
      }
    case Dispatch(dispatcher, now) =>
      if dispatcher in w.dispatchers {
        var lease := w.dispatchers[dispatcher];
        DispatchLands(w, lease, now);
        if Holds(w.signals, lease) {
          FilingMatches(w, lease, now);
        }
      }
    case _ => QuietSignalsMatch(w, Apply(w, s), s);
  }

  /** Every run keeps signals, events and mappings in order, and is a run of the automation core underneath. */
  lemma {:induction false} EveryRunIsOk(steps: seq<Step>)
    ensures WorldOk(Exec(steps)) && Exec(steps).automation == A.Exec(Beneath(steps))
  {
    if steps != [] {
      var w, s := Exec(steps[..|steps| - 1]), steps[|steps| - 1];
      EveryRunIsOk(steps[..|steps| - 1]);
      A.EveryRunIsOk(Beneath(steps[..|steps| - 1]));
      StepKeeps(w, s);
      UnderStep(w, s);
      BeneathExtends(steps);
    }
  }

  lemma BeneathExtends(steps: seq<Step>)
    requires steps != []
    ensures var before := Beneath(steps[..|steps| - 1]);
            var step := Under(Exec(steps[..|steps| - 1]), steps[|steps| - 1]);
            A.Exec(Beneath(steps)) == if step.Some? then A.Apply(A.Exec(before), step.value) else A.Exec(before)
  {
    var before := Beneath(steps[..|steps| - 1]);
    var step := Under(Exec(steps[..|steps| - 1]), steps[|steps| - 1]);
    if step.Some? {
      assert Beneath(steps)[..|before|] == before;
    }
  }

  lemma StepKeeps(w: World, s: Step)
    requires WorldOk(w) && A.StoreOk(w.automation.store)
    ensures WorldOk(Apply(w, s))
  {
    SignalsStep(w, s);
    LeasesStay(w, s, Apply(w, s));
    MappingsStay(w, s);
    MatchStays(w, s);
  }

  // ---- What a completion comes to ------------------------------------------------------------------

  /**
   In every reachable state an event filed for a download's completion exists exactly when its signal is
   settled as that event. So there is never more than one, whatever crashed, expired or was claimed again.
   */
  lemma OneEventPerCompletion(steps: seq<Step>, task: Id, event: Id)
    ensures var w := Exec(steps);
            && (FiledFor(w.automation.store.events, event, task) <==>
                  task in w.signals && w.signals[task].outcome == Some(EventCreated(event)))
            && (FiledFor(w.automation.store.events, event, task) ==>
                  && w.signals[task].status.Completed?
                  && w.automation.store.events[event].dedup.version == w.signals[task].version
                  && forall other | FiledFor(w.automation.store.events, other, task) :: other == event)
  {
    EveryRunIsOk(steps);
    var w := Exec(steps);
    if task in w.signals {
      assert SignalOk(w.signals[task], w.nextToken);
    }
  }

  /** From the download to the scan: a completion never makes more than one reconcile request. */
  lemma OneRequestPerCompletion(steps: seq<Step>, task: Id, a: Id, b: Id)
    requires var rows := Exec(steps).automation.downstream.rows; a in rows && b in rows
    requires var rows := Exec(steps).automation.downstream.rows; rows[a].key.EventKey? && rows[b].key.EventKey?
    requires var w := Exec(steps);
             && FiledFor(w.automation.store.events, w.automation.downstream.rows[a].key.event, task)
             && FiledFor(w.automation.store.events, w.automation.downstream.rows[b].key.event, task)
    ensures a == b
  {
    EveryRunIsOk(steps);
    var w := Exec(steps);
    var event := w.automation.downstream.rows[a].key.event;
    OneEventPerCompletion(steps, task, event);
    H.OneRequestPerEvent(Beneath(steps), event);
  }

  /** The token of the newest lease the run has handed out for the signal, and how many there were. */
  ghost function NewestToken(steps: seq<Step>, task: Id): Option<Id> {
    if steps == [] then None
    else if Leased(Exec(steps[..|steps| - 1]), steps[|steps| - 1]) == Some(task) then Some(Exec(steps[..|steps| - 1]).nextToken)
    else NewestToken(steps[..|steps| - 1], task)
  }

  ghost function Claims(steps: seq<Step>, task: Id): nat {
    if steps == [] then 0
    else
      Claims(steps[..|steps| - 1], task)
      + if Leased(Exec(steps[..|steps| - 1]), steps[|steps| - 1]) == Some(task) then 1 else 0
  }

  lemma {:induction false} LeasesAreCounted(steps: seq<Step>, task: Id)
    ensures var w := Exec(steps);
            if task in w.signals then
              && w.signals[task].attempts == Claims(steps, task)
              && (w.signals[task].status.Running? ==> w.signals[task].leaseToken == NewestToken(steps, task))
            else Claims(steps, task) == 0
  {
    if steps != [] {
      var w, s := Exec(steps[..|steps| - 1]), steps[|steps| - 1];
      EveryRunIsOk(steps[..|steps| - 1]);
      LeasesAreCounted(steps[..|steps| - 1], task);
      SignalsStep(w, s);
    }
  }

  /**
   A dispatch commits exactly when its signal still runs under the newest lease handed out for it. It then
   settles the signal with the event of the one enabled mapping, or without one if none is enabled; a
   dispatcher without that lease changes nothing at all.
   */
  lemma OnlyTheNewestLeaseDispatches(steps: seq<Step>, dispatcher: Id, now: I64)
    requires dispatcher in Exec(steps).dispatchers
    ensures var w := Exec(steps);
            var lease := w.dispatchers[dispatcher];
            var (next, r) := DispatchTx(View(w), lease, now);
            && lease.task in w.signals
            && (r.Ok? <==> w.signals[lease.task].status.Running? && NewestToken(steps, lease.task) == Some(lease.token))
            && (r.Ok? ==> DispatchedAs(w, lease, now, next, r.value.event))
            && (r.Err? ==> next == View(w))
  {
    var w := Exec(steps);
    EveryRunIsOk(steps);
    LeasesAreCounted(steps, w.dispatchers[dispatcher].task);
    DispatchLands(w, w.dispatchers[dispatcher], now);
  }

  /** At most ten claims ever, and no signal is stranded: it waits to be claimed, is leased, or is finished for good. */
  lemma NoSignalIsStranded(steps: seq<Step>, task: Id)
    requires task in Exec(steps).signals
    ensures var signal := Exec(steps).signals[task];
            && Claims(steps, task) == signal.attempts <= MAX_ATTEMPTS
            && (signal.status.Pending? ==> Claimable(signal))
            && (signal.status.Running? <==> signal.leaseToken.Some? && signal.leaseExpires.Some?)
            && (signal.status.Failed? ==> Claims(steps, task) == MAX_ATTEMPTS)
  {
    EveryRunIsOk(steps);
    LeasesAreCounted(steps, task);
    assert SignalOk(Exec(steps).signals[task], Exec(steps).nextToken);
  }

  /** A settled or failed signal never changes again, so no run settles one twice. */
  lemma {:induction false} FinishedForEver(steps: seq<Step>, more: seq<Step>, task: Id)
    requires task in Exec(steps).signals
    requires Exec(steps).signals[task].status.Completed? || Exec(steps).signals[task].status.Failed?
    ensures task in Exec(steps + more).signals && Exec(steps + more).signals[task] == Exec(steps).signals[task]
  {
    if more == [] {
      assert steps + more == steps;
    } else {
      var earlier := steps + more[..|more| - 1];
      assert (steps + more)[..|steps + more| - 1] == earlier;
      FinishedForEver(steps, more[..|more| - 1], task);
      EveryRunIsOk(earlier);
      SignalsStep(Exec(earlier), more[|more| - 1]);
    }
  }

  lemma ClaimedStaysOk(w: World, now: I64) returns (next: World, lease: Lease)
    requires WorldOk(w) && A.StoreOk(w.automation.store) && ClaimTx(View(w), now).1.Some?
    ensures View(next) == ClaimTx(View(w), now).0 && lease == ClaimTx(View(w), now).1.value
    ensures WorldOk(next) && LeaseOk(next.signals, lease) && Holds(next.signals, lease) && next.mappings == w.mappings
  {
    var idle, turn := w.(dispatchers := map[]), Claim(0, now);
    next, lease := Apply(idle, turn), ClaimTx(View(w), now).1.value;
    StepKeeps(idle, turn);
    NewLease(idle, turn);
    ClaimFollows(View(w), now);
  }

  /** Undisturbed, one turn of the dispatcher settles the oldest waiting signal, whatever happened before. */
  lemma UndisturbedTurnSettles(steps: seq<Step>, now: I64)
    requires ClaimTx(View(Exec(steps)), now).1.Some?
    ensures var w := Exec(steps);
            var lease := ClaimTx(View(w), now).1.value;
            var (next, r) := RunOnceTx(View(w), now);
            && r.Ok? && r.value.Some? && r.value.value.task == lease.task
            && lease.task in next.signals && next.signals[lease.task].status.Completed?
            && (r.value.value.event.Some? <==> MappingFor(w.mappings, lease.connection).Some?)
  {
    var w := Exec(steps);
    EveryRunIsOk(steps);
    A.EveryRunIsOk(Beneath(steps));
    var claimed, lease := ClaimedStaysOk(w, now);
    DispatchLands(claimed, lease, now);
    MappingIsEnabled(w.mappings, lease.connection);
  }
}
