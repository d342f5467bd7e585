/**
 Runs of the discovery coordinator. Watcher callbacks offer hints at any moment of a tick; the tick
 drains the channel, recovers from overflow, releases due paths and schedules scans. No hint for a
 watched inbox is lost.
 */
module WatchRuns {
  import opened Outcomes
  import opened Int64
  import opened Ordering
  import opened WatchHints
  import S = ScanScheduling

  /**
   Where a tick stands. `full`: a hint found the coalescer full; `lost` are such hints. Between the receive
   that finds the channel empty (Drained) and the taking of the flag more hints may arrive. `todo` are the
   inboxes still to schedule, `hints` those whose inboxes they are.
   */
  datatype Phase =
    | Idle
    | Draining(full: bool, lost: set<nat>)
    | Drained(full: bool, lost: set<nat>)
    | Cleared(hints: set<nat>)
    | Recovering(todo: seq<Id>, hints: set<nat>)
    | Releasing
    | Scheduling(todo: seq<Id>, hints: set<nat>)
    | Periodic(todo: seq<Id>)

  /**
   `seen` lists every hint ever offered; a hint is known by its index there. `raising` are hints whose
   sender found the channel full and is about to raise the flag, `lost` those the flag stands for.
   `ids` says which hints each pending path holds, `served` which hints had a scan scheduled for their inbox
   since, and `off` which inboxes were at some time not watched.
   */
  datatype World = World(
    seen: seq<Hint>, channel: seq<nat>, overflow: bool, raising: set<nat>, lost: set<nat>,
    pending: map<Spot, Held>, ids: map<Spot, set<nat>>, phase: Phase, now: I64,
    scans: S.Scans, enabled: set<Id>, off: set<Id>, served: set<nat>)

  datatype Step =
    | Offer(hint: Hint)
    | Raise(i: nat)
    | MarkOverflow
    | Begin(now: I64)
    | Drain
    | DrainEnd
    | TakeOverflow
    | ListWatched
    | ScheduleNext
    | Release
    | ListDue(due: seq<Id>)
    | Policies(enabled: set<Id>, inboxes: map<Id, bool>, account: bool)
    | Advance(task: Id, status: S.TaskStatus, files: nat, errors: nat)

  predicate Watched(scans: S.Scans, enabled: set<Id>, inbox: Id) {
    inbox in scans.inboxes && scans.inboxes[inbox] && inbox in enabled
  }

  function WatchedInboxes(scans: S.Scans, enabled: set<Id>): set<Id> {
    set inbox | inbox in scans.inboxes && Watched(scans, enabled, inbox)
  }

  ghost predicate Lists(todo: seq<Id>, inboxes: set<Id>) {
    forall inbox :: inbox in todo <==> inbox in inboxes
  }

  /** The inboxes in ascending order. */
  function Sorted(inboxes: set<Id>): (todo: seq<Id>)
    ensures Lists(todo, inboxes)
  {
    var keys := set inbox | inbox in inboxes :: Key(0, inbox);
    var q := Ascending(keys);
    assert forall k | k in q :: k in keys;
    assert forall inbox | inbox in inboxes :: Key(0, inbox) in q;
    Minors(q)
  }

  function Minors(keys: seq<Key>): (ids: seq<Id>)
    requires forall k | k in keys :: k.minor >= 0
    ensures forall id: Id :: id in ids <==> exists k :: k in keys && k.minor == id
  {
    if keys == [] then []
    else
      assert keys == [keys[0]] + keys[1..];
      [keys[0].minor] + Minors(keys[1..])
  }

  function Ids(ids: map<Spot, set<nat>>): set<nat> {
    set spot, i | spot in ids && i in ids[spot] :: i
  }

  function InboxesOf(pending: map<Spot, Held>): set<Id> {
    set spot | spot in pending :: spot.inbox
  }

  function IdsAt(ids: map<Spot, set<nat>>, spot: Spot): set<nat> {
    if spot in ids then ids[spot] else {}
  }

  function NowOff(w: World, scans: S.Scans, enabled: set<Id>): set<Id> {
    set i | 0 <= i < |w.seen| && !Watched(scans, enabled, w.seen[i].inbox) :: w.seen[i].inbox
  }

  /** One hint moves from the channel to the coalescer, or is dropped if its inbox is not watched any more. */
  function DrainOne(w: World): World
    requires w.phase.Draining? && w.channel != [] && w.channel[0] < |w.seen|
  {
    var i := w.channel[0];
    var hint := w.seen[i];
    var spot := SpotOf(hint);
    var rest := w.(channel := w.channel[1..]);
    if hint.inbox !in w.enabled then rest
    else
      var (pending, kept) := PushTx(w.pending, COALESCER_CAPACITY, hint);
      if kept then rest.(pending := pending, ids := w.ids[spot := IdsAt(w.ids, spot) + {i}])
      else rest.(phase := Draining(true, w.phase.lost + {i}))
  }

  function ScheduleOne(w: World): World
    requires (w.phase.Recovering? || w.phase.Scheduling? || w.phase.Periodic?) && w.phase.todo != []
  {
    var inbox := w.phase.todo[0];
    var (scans, _) := S.ScheduleTx(w.scans, inbox, w.now);
    var served := w.served + set i | 0 <= i < |w.seen| && w.seen[i].inbox == inbox;
    w.(scans := scans, served := served, phase := w.phase.(todo := w.phase.todo[1..]))
  }

  predicate Enabled(w: World, s: Step) {
    match s
    case Offer(_) => true
    case Raise(i) => i in w.raising
    case MarkOverflow => true
    case Begin(_) => w.phase.Idle?
    case Drain => w.phase.Draining? && w.channel != [] && w.channel[0] < |w.seen|
    case DrainEnd => w.phase.Draining? && w.channel == []
    case TakeOverflow => w.phase.Drained?
    case ListWatched => w.phase.Cleared?
    case ScheduleNext =>
      && (w.phase.Recovering? || w.phase.Scheduling? || w.phase.Periodic?)
      && (w.phase.todo == [] || w.phase.todo[0] in w.scans.inboxes)
    case Release => w.phase.Releasing?
    case ListDue(_) => w.phase.Scheduling? && w.phase.todo == []
    case Policies(_, _, _) => true
    case Advance(_, _, _, _) => true
  }

  function Apply(w: World, s: Step): World
    requires Enabled(w, s)
  {
    match s
    case Offer(hint) =>
      var i := |w.seen|;
      var offered := w.(seen := w.seen + [hint],
                        off := w.off + if Watched(w.scans, w.enabled, hint.inbox) then {} else {hint.inbox});
      if |w.channel| < CHANNEL_CAPACITY then offered.(channel := w.channel + [i]) else offered.(raising := w.raising + {i})
    case Raise(i) => w.(raising := w.raising - {i}, lost := w.lost + {i}, overflow := true)
    case MarkOverflow => w.(overflow := true)
    case Begin(now) => w.(phase := Draining(false, {}), now := now)
    case Drain => DrainOne(w)
    case DrainEnd => w.(phase := Drained(w.phase.full, w.phase.lost))
    case TakeOverflow =>
      if w.overflow || w.phase.full then
        w.(overflow := false, lost := {}, pending := map[], ids := map[],
           phase := Cleared(w.lost + w.phase.lost + Ids(w.ids)))
      else w.(phase := Releasing)
    case ListWatched => w.(phase := Recovering(Sorted(WatchedInboxes(w.scans, w.enabled)), w.phase.hints))
    case ScheduleNext =>
      if w.phase.todo != [] then ScheduleOne(w)
      else if w.phase.Recovering? then w.(phase := Releasing)
      else if w.phase.Periodic? then w.(phase := Idle)
      else w
    case Release =>
      var ready := Released(w.pending, w.now);
      w.(pending := Waiting(w.pending, w.now), ids := map spot | spot in w.ids && spot !in ready :: w.ids[spot],
         phase := Scheduling(Sorted(InboxesOf(ready)), Ids(map spot | spot in w.ids && spot in ready :: w.ids[spot])))
    case ListDue(due) => w.(phase := Periodic(due))
    case Policies(enabled, inboxes, account) =>
      var scans := w.scans.(inboxes := inboxes, account := account);
      w.(scans := scans, enabled := enabled, off := w.off + NowOff(w, scans, enabled))
    case Advance(task, status, files, errors) => w.(scans := S.AdvanceTx(w.scans, task, status, files, errors))
  }

  function Init(): World {
    World([], [], false, {}, {}, map[], map[], Idle, 0, S.Scans(map[], false, map[], 0), {}, {}, {})
  }

  function Exec(steps: seq<Step>): World {
    if steps == [] then Init()
    else
      var w, s := Exec(steps[..|steps| - 1]), steps[|steps| - 1];
      if Enabled(w, s) then Apply(w, s) else w
  }

  // ---- What every state keeps -------------------------------------------------------------------

  ghost predicate Tracked(w: World, i: nat)
    requires i < |w.seen|
  {
    || i in w.channel
    || i in w.raising
    || i in w.lost
    || i in IdsAt(w.ids, SpotOf(w.seen[i]))
    || ((w.phase.Draining? || w.phase.Drained?) && i in w.phase.lost)
    || ((w.phase.Cleared? || w.phase.Recovering? || w.phase.Scheduling?) && i in w.phase.hints)
    || i in w.served
    || w.seen[i].inbox in w.off
  }

  /** A hint whose turn to be scheduled has come: its inbox is still to do, done, or was not watched. */
  ghost predicate InTurn(w: World, i: nat)
    requires i < |w.seen| && (w.phase.Recovering? || w.phase.Scheduling?)
  {
    w.seen[i].inbox in w.phase.todo || i in w.served || w.seen[i].inbox in w.off
  }

  ghost predicate PhaseOk(w: World) {
    match w.phase
    case Draining(full, lost) => lost != {} ==> full
    case Drained(full, lost) => lost != {} ==> full
    case Recovering(_, hints) => forall i | i in hints :: i < |w.seen| && InTurn(w, i)
    case Scheduling(_, hints) => forall i | i in hints :: i < |w.seen| && InTurn(w, i)
    case Cleared(hints) => forall i | i in hints :: i < |w.seen|
    case _ => true
  }

  ghost predicate HeldOk(w: World, spot: Spot) {
    && (spot in w.ids <==> spot in w.pending)
    && (spot in w.ids ==> forall i | i in w.ids[spot] :: i < |w.seen| && SpotOf(w.seen[i]) == spot)
  }

  /** After a tick has released what was due, nothing held is due. */
  predicate Fresh(phase: Phase) {
    phase.Idle? || phase.Scheduling? || phase.Periodic?
  }

  ghost predicate Bounded(w: World) {
    && |w.channel| <= CHANNEL_CAPACITY && |w.pending| <= COALESCER_CAPACITY
    && (forall k | 0 <= k < |w.channel| :: w.channel[k] < |w.seen|)
    && (forall i | i in w.raising :: i < |w.seen|) && (forall i | i in w.lost :: i < |w.seen|)
    && (w.phase.Draining? || w.phase.Drained? ==> forall i | i in w.phase.lost :: i < |w.seen|)
    && (w.lost != {} ==> w.overflow)
  }

  ghost predicate OffOk(w: World) {
    forall i | 0 <= i < |w.seen| && !Watched(w.scans, w.enabled, w.seen[i].inbox) :: w.seen[i].inbox in w.off
  }

  ghost predicate WorldOk(w: World) {
    && Bounded(w) && PhaseOk(w) && OffOk(w) && S.OneActiveScan(w.scans)
    && (forall i: nat | i < |w.seen| :: Tracked(w, i))
    && (forall spot :: HeldOk(w, spot))
    && (Fresh(w.phase) ==> forall spot | spot in w.pending :: !Due(w.pending[spot], w.now))
  }

  // ---- Steps keep it ----------------------------------------------------------------------------

  lemma OfferTracks(w: World, s: Step, j: nat)
    requires WorldOk(w) && s.Offer? && j < |Apply(w, s).seen|
    ensures Tracked(Apply(w, s), j)
  {
    var next, i := Apply(w, s), |w.seen|;
    if j < i {
      assert Tracked(w, j);
    } else if |w.channel| < CHANNEL_CAPACITY {
      assert next.channel[|w.channel|] == i;
    }
  }

  lemma OfferHolds(w: World, s: Step, spot: Spot)
    requires HeldOk(w, spot) && s.Offer?
    ensures HeldOk(Apply(w, s), spot)
  {
  }

  lemma OfferPhase(w: World, s: Step)
    requires PhaseOk(w) && s.Offer?
    ensures PhaseOk(Apply(w, s))
  {
    var next := Apply(w, s);
    if w.phase.Recovering? || w.phase.Scheduling? {
      forall j | j in w.phase.hints
        ensures j < |next.seen| && InTurn(next, j)
      {
        assert InTurn(w, j);
      }
    }
  }

  lemma OfferKeeps(w: World, s: Step)
    requires WorldOk(w) && s.Offer?
    ensures WorldOk(Apply(w, s))
  {
    var next := Apply(w, s);
    forall j: nat | j < |next.seen|
      ensures Tracked(next, j)
    {
      OfferTracks(w, s, j);
    }
    forall spot
      ensures HeldOk(next, spot)
    {
      OfferHolds(w, s, spot);
    }
    OfferPhase(w, s);
  }

  lemma FlagKeeps(w: World, s: Step)
    requires WorldOk(w) && (s.Raise? || s.MarkOverflow?) && Enabled(w, s)
    ensures WorldOk(Apply(w, s))
  {
    var next := Apply(w, s);
    forall j: nat | j < |next.seen|
      ensures Tracked(next, j)
    {
      assert Tracked(w, j);
    }
    forall spot
      ensures HeldOk(next, spot)
    {
      assert HeldOk(w, spot);
    }
    if w.phase.Recovering? || w.phase.Scheduling? {
      assert forall j | j in w.phase.hints :: InTurn(w, j) ==> InTurn(next, j);
    }
  }

  lemma DrainTracks(w: World, j: nat)
    requires WorldOk(w) && Enabled(w, Drain) && j < |w.seen|
    ensures Tracked(Apply(w, Drain), j)
  {
    var next, i := Apply(w, Drain), w.channel[0];
    assert Tracked(w, j);
    assert w.channel == [i] + next.channel;
    if j == i && w.seen[i].inbox !in w.enabled {
      assert !Watched(w.scans, w.enabled, w.seen[i].inbox);
    }
  }

  lemma DrainFrame(w: World)
    requires Enabled(w, Drain)
    ensures var next := Apply(w, Drain);
            && next.seen == w.seen && next.scans == w.scans && next.enabled == w.enabled && next.off == w.off
            && next.phase.Draining?
  {
    assert Apply(w, Drain) == DrainOne(w);
  }

  lemma DrainHolds(w: World, spot: Spot)
    requires Enabled(w, Drain) && HeldOk(w, spot)
    ensures HeldOk(Apply(w, Drain), spot)
  {
    var i, next := w.channel[0], Apply(w, Drain);
    var hint := w.seen[i];
    if hint.inbox in w.enabled && spot == SpotOf(hint) && PushTx(w.pending, COALESCER_CAPACITY, hint).1 {
      assert next.ids[spot] == IdsAt(w.ids, spot) + {i};
    } else {
      assert spot in next.ids <==> spot in w.ids;
    }
  }

  lemma PushFits(pending: map<Spot, Held>, hint: Hint)
    requires |pending| <= COALESCER_CAPACITY
    ensures |PushTx(pending, COALESCER_CAPACITY, hint).0| <= COALESCER_CAPACITY
  {
    var spot := SpotOf(hint);
    if spot in pending || |pending| < COALESCER_CAPACITY {
      PutGrows(pending, spot, PushTx(pending, COALESCER_CAPACITY, hint).0[spot]);
    }
  }

  lemma PutGrows<K, V>(m: map<K, V>, k: K, v: V)
    ensures |m[k := v]| == |m| + if k in m then 0 else 1
  {
    assert m[k := v].Keys == m.Keys + {k};
  }

  lemma DrainBounds(w: World)
    requires Bounded(w) && PhaseOk(w) && Enabled(w, Drain)
    ensures Bounded(Apply(w, Drain)) && PhaseOk(Apply(w, Drain))
  {
    PushFits(w.pending, w.seen[w.channel[0]]);
    assert w.channel == [w.channel[0]] + w.channel[1..];
  }

  lemma DrainKeeps(w: World)
    requires WorldOk(w) && Enabled(w, Drain)
    ensures WorldOk(Apply(w, Drain))
  {
    var next := Apply(w, Drain);
    DrainFrame(w);
    DrainBounds(w);
    assert OffOk(next);
    forall j: nat | j < |next.seen|
      ensures Tracked(next, j)
    {
      DrainTracks(w, j);
    }
    forall spot
      ensures HeldOk(next, spot)
    {
      assert HeldOk(w, spot);
      DrainHolds(w, spot);
    }
  }

  lemma ClearTracks(w: World, j: nat)
    requires WorldOk(w) && Enabled(w, TakeOverflow) && j < |w.seen|
    ensures Tracked(Apply(w, TakeOverflow), j)
  {
    assert Tracked(w, j);
    if j in IdsAt(w.ids, SpotOf(w.seen[j])) {
      assert j in Ids(w.ids);
    }
  }

  lemma TakeOverflowKeeps(w: World)
    requires WorldOk(w) && Enabled(w, TakeOverflow)
    ensures WorldOk(Apply(w, TakeOverflow))
  {
    var next := Apply(w, TakeOverflow);
    forall j: nat | j < |next.seen|
      ensures Tracked(next, j)
    {
      ClearTracks(w, j);
    }
    HeldAreSeen(w);
    assert PhaseOk(next) && Bounded(next) && OffOk(next);
    forall spot
      ensures HeldOk(next, spot)
    {
      assert HeldOk(w, spot);
      TakeOverflowHolds(w, spot);
    }
  }

  lemma HeldAreSeen(w: World)
    requires forall spot :: HeldOk(w, spot)
    ensures forall i | i in Ids(w.ids) :: i < |w.seen|
  {
    forall i | i in Ids(w.ids)
      ensures i < |w.seen|
    {
      var spot :| spot in w.ids && i in w.ids[spot];
      assert HeldOk(w, spot);
    }
  }

  lemma TakeOverflowHolds(w: World, spot: Spot)
    requires Enabled(w, TakeOverflow) && HeldOk(w, spot)
    ensures HeldOk(Apply(w, TakeOverflow), spot)
  {
  }

  lemma ListWatchedKeeps(w: World)
    requires WorldOk(w) && w.phase.Cleared?
    ensures WorldOk(Apply(w, ListWatched))
  {
    var next := Apply(w, ListWatched);
    forall i | i in w.phase.hints
      ensures i < |w.seen| && InTurn(next, i)
    {
      if w.seen[i].inbox in WatchedInboxes(w.scans, w.enabled) {
        assert w.seen[i].inbox in next.phase.todo;
      } else {
        assert !Watched(w.scans, w.enabled, w.seen[i].inbox);
      }
    }
    forall j: nat | j < |next.seen|
      ensures Tracked(next, j)
    {
      assert Tracked(w, j);
    }
    forall spot
      ensures HeldOk(next, spot)
    {
      assert HeldOk(w, spot);
    }
  }

  lemma ScheduleOneKeeps(w: World)
    requires WorldOk(w) && Enabled(w, ScheduleNext) && w.phase.todo != []
    ensures WorldOk(Apply(w, ScheduleNext))
  {
    var next, inbox := Apply(w, ScheduleNext), w.phase.todo[0];
    S.ScheduleKeepsOneActive(w.scans, inbox, w.now);
    assert next.scans.inboxes == w.scans.inboxes;
    assert w.phase.todo == [inbox] + next.phase.todo;
    forall j: nat | j < |next.seen|
      ensures Tracked(next, j)
    {
      assert Tracked(w, j);
    }
    forall spot
      ensures HeldOk(next, spot)
    {
      assert HeldOk(w, spot);
    }
    if !w.phase.Periodic? {
      forall i | i in w.phase.hints
        ensures InTurn(next, i)
      {
        assert InTurn(w, i);
      }
    }
  }

  /** Once everything is scheduled the hints of the phase have all been served. */
  lemma PhaseDoneKeeps(w: World)
    requires WorldOk(w) && Enabled(w, ScheduleNext) && w.phase.todo == []
    ensures WorldOk(Apply(w, ScheduleNext))
  {
    var next := Apply(w, ScheduleNext);
    forall j: nat | j < |next.seen|
      ensures Tracked(next, j)
    {
      assert Tracked(w, j);
      if w.phase.Recovering? && j in w.phase.hints {
        assert InTurn(w, j);
      }
    }
    forall spot
      ensures HeldOk(next, spot)
    {
      assert HeldOk(w, spot);
    }
  }

  lemma ListDueKeeps(w: World, due: seq<Id>)
    requires WorldOk(w) && Enabled(w, ListDue(due))
    ensures WorldOk(Apply(w, ListDue(due)))
  {
    var next := Apply(w, ListDue(due));
    forall j: nat | j < |next.seen|
      ensures Tracked(next, j)
    {
      assert Tracked(w, j);
      if j in w.phase.hints {
        assert InTurn(w, j);
      }
    }
    forall spot
      ensures HeldOk(next, spot)
    {
      assert HeldOk(w, spot);
    }
  }

  lemma ReleasedInTurn(w: World, i: nat)
    requires WorldOk(w) && w.phase.Releasing?
    requires i in Apply(w, Release).phase.hints
    ensures i < |w.seen| && w.seen[i].inbox in Apply(w, Release).phase.todo
  {
    var ready := Released(w.pending, w.now);
    var spot :| spot in w.ids && spot in ready && i in w.ids[spot];
    assert HeldOk(w, spot);
    assert spot.inbox in InboxesOf(ready);
  }

  lemma ReleaseTracks(w: World, j: nat)
    requires WorldOk(w) && w.phase.Releasing? && j < |w.seen|
    ensures Tracked(Apply(w, Release), j)
  {
    assert Tracked(w, j);
    var next, spot := Apply(w, Release), SpotOf(w.seen[j]);
    if j in IdsAt(w.ids, spot) {
      assert HeldOk(w, spot);
      var gone := map k | k in w.ids && k in Released(w.pending, w.now) :: w.ids[k];
      if spot in gone {
        assert j in gone[spot];
        assert j in Ids(gone);
      }
    }
  }

  lemma ReleaseKeeps(w: World)
    requires WorldOk(w) && w.phase.Releasing?
    ensures WorldOk(Apply(w, Release))
  {
    var next := Apply(w, Release);
    forall j: nat | j < |next.seen|
      ensures Tracked(next, j)
    {
      ReleaseTracks(w, j);
    }
    forall spot
      ensures HeldOk(next, spot)
    {
      assert HeldOk(w, spot);
    }
    forall i | i in next.phase.hints
      ensures i < |next.seen| && InTurn(next, i)
    {
      ReleasedInTurn(w, i);
    }
    WaitingIsSmaller(w.pending, w.now);
  }

  lemma WaitingIsSmaller(pending: map<Spot, Held>, now: I64)
    ensures |Waiting(pending, now)| <= |pending|
  {
    var kept := Waiting(pending, now).Keys;
    assert kept <= pending.Keys;
    assert pending.Keys == kept + (pending.Keys - kept);
  }

  lemma PoliciesKeep(w: World, s: Step)
    requires WorldOk(w) && s.Policies?
    ensures WorldOk(Apply(w, s))
  {
    var next := Apply(w, s);
    forall j: nat | j < |next.seen|
      ensures Tracked(next, j)
    {
      assert Tracked(w, j);
    }
    forall spot
      ensures HeldOk(next, spot)
    {
      assert HeldOk(w, spot);
    }
    if w.phase.Recovering? || w.phase.Scheduling? {
      assert forall j | j in w.phase.hints :: InTurn(w, j) ==> InTurn(next, j);
    }
  }

  lemma QuietKeeps(w: World, s: Step)
    requires WorldOk(w) && (s.Begin? || s.DrainEnd? || s.Advance?) && Enabled(w, s)
    ensures WorldOk(Apply(w, s))
  {
    var next := Apply(w, s);
    if s.Advance? {
      S.AdvanceKeepsOneActive(w.scans, s.task, s.status, s.files, s.errors);
    }
    assert next.scans.inboxes == w.scans.inboxes;
    forall j: nat | j < |next.seen|
      ensures Tracked(next, j)
    {
      assert Tracked(w, j);
    }
    forall spot
      ensures HeldOk(next, spot)
    {
      assert HeldOk(w, spot);
    }
    if w.phase.Recovering? || w.phase.Scheduling? {
      assert forall j | j in w.phase.hints :: InTurn(w, j) ==> InTurn(next, j);
    }
  }

  lemma StepKeeps(w: World, s: Step)
    requires WorldOk(w) && Enabled(w, s)
    ensures WorldOk(Apply(w, s))
  {
    match s
    case Offer(_) => OfferKeeps(w, s);
    case Raise(_) => FlagKeeps(w, s);
    case MarkOverflow => FlagKeeps(w, s);
    case Begin(_) => QuietKeeps(w, s);
    case Drain => DrainKeeps(w);
    case DrainEnd => QuietKeeps(w, s);
    case TakeOverflow => TakeOverflowKeeps(w);
    case ListWatched => ListWatchedKeeps(w);
    case ScheduleNext => if w.phase.todo != [] { ScheduleOneKeeps(w); } else { PhaseDoneKeeps(w); }
    case Release => ReleaseKeeps(w);
    case ListDue(due) => ListDueKeeps(w, due);
    case Policies(_, _, _) => PoliciesKeep(w, s);
    case Advance(_, _, _, _) => QuietKeeps(w, s);
  }

  lemma {:induction false} EveryWorldIsOk(steps: seq<Step>)
    ensures WorldOk(Exec(steps))
  {
    if steps != [] {
      EveryWorldIsOk(steps[..|steps| - 1]);
      var w, s := Exec(steps[..|steps| - 1]), steps[|steps| - 1];
      if Enabled(w, s) {
        StepKeeps(w, s);
      }
    }
  }

  // ---- What the coordinator promises --------------------------------------------------------------

  /**
   Between ticks every hint ever offered for an inbox that stayed watched is in the channel, covered by
   the overflow flag or about to raise it, held for less than the window since the first hint for
   its path, or has had a scan scheduled for its inbox since it was offered.
   */
  lemma NoHintIsLost(steps: seq<Step>, i: nat)
    requires i < |Exec(steps).seen| && Exec(steps).phase.Idle? && Exec(steps).seen[i].inbox !in Exec(steps).off
    ensures var w := Exec(steps);
            var spot := SpotOf(w.seen[i]);
            || i in w.channel
            || i in w.raising
            || (i in w.lost && w.overflow)
            || (spot in w.pending && i in IdsAt(w.ids, spot) && w.now < SatAdd(w.pending[spot].first, WINDOW))
            || i in w.served
  {
    EveryWorldIsOk(steps);
    var w := Exec(steps);
    assert Tracked(w, i) && HeldOk(w, SpotOf(w.seen[i]));
  }

  /** The channel and the coalescer never outgrow their capacities, and an inbox has one automatic scan at most. */
  lemma CapacitiesHold(steps: seq<Step>, a: Id, b: Id)
    ensures var w := Exec(steps);
            && |w.channel| <= CHANNEL_CAPACITY && |w.pending| <= COALESCER_CAPACITY
            && (a in w.scans.tasks && b in w.scans.tasks && a != b && w.scans.tasks[a].inbox == w.scans.tasks[b].inbox
                && w.scans.tasks[a].automatic && w.scans.tasks[b].automatic
                ==> !(w.scans.tasks[a].Active() && w.scans.tasks[b].Active()))
  {
    EveryWorldIsOk(steps);
  }

  // ---- From holding a hint to serving it --------------------------------------------------------

  ghost predicate HeldSince(w: World, i: nat, spot: Spot, first: I64) {
    spot in w.pending && w.pending[spot].first == first && i in IdsAt(w.ids, spot)
  }

  /** A held hint stays held under the same first instant until a tick takes it up, and then gets its turn. */
  ghost predicate OnItsWay(w: World, i: nat, spot: Spot, first: I64) {
    && i < |w.seen| && SpotOf(w.seen[i]) == spot
    && (|| HeldSince(w, i, spot, first)
        || ((w.phase.Cleared? || w.phase.Recovering? || w.phase.Scheduling?) && i in w.phase.hints)
        || i in w.served
        || spot.inbox in w.off)
  }

  lemma DrainOnItsWay(w: World, i: nat, spot: Spot, first: I64)
    requires Enabled(w, Drain) && OnItsWay(w, i, spot, first)
    ensures OnItsWay(Apply(w, Drain), i, spot, first)
  {
    assert Apply(w, Drain) == DrainOne(w);
  }

  lemma TakeOverflowOnItsWay(w: World, i: nat, spot: Spot, first: I64)
    requires Enabled(w, TakeOverflow) && OnItsWay(w, i, spot, first)
    ensures OnItsWay(Apply(w, TakeOverflow), i, spot, first)
  {
    if HeldSince(w, i, spot, first) {
      assert i in Ids(w.ids);
    }
  }

  lemma ReleaseOnItsWay(w: World, i: nat, spot: Spot, first: I64)
    requires Enabled(w, Release) && OnItsWay(w, i, spot, first)
    ensures OnItsWay(Apply(w, Release), i, spot, first)
  {
    if HeldSince(w, i, spot, first) {
      var ready := Released(w.pending, w.now);
      var gone := map k | k in w.ids && k in ready :: w.ids[k];
      if spot in ready {
        assert i in gone[spot];
        assert i in Ids(gone);
      }
    }
  }

  /** The hints of a phase leave it only once their inbox was scheduled or stopped being watched. */
  lemma PhaseEndOnItsWay(w: World, s: Step, i: nat, spot: Spot, first: I64)
    requires WorldOk(w) && Enabled(w, s) && (s.ScheduleNext? || s.ListDue?) && OnItsWay(w, i, spot, first)
    ensures OnItsWay(Apply(w, s), i, spot, first)
  {
    if (w.phase.Recovering? || w.phase.Scheduling?) && i in w.phase.hints {
      assert InTurn(w, i);
    }
  }

  lemma StepOnItsWay(w: World, s: Step, i: nat, spot: Spot, first: I64)
    requires WorldOk(w) && Enabled(w, s) && OnItsWay(w, i, spot, first)
    ensures OnItsWay(Apply(w, s), i, spot, first)
  {
    match s
    case Drain => DrainOnItsWay(w, i, spot, first);
    case TakeOverflow => TakeOverflowOnItsWay(w, i, spot, first);
    case Release => ReleaseOnItsWay(w, i, spot, first);
    case ScheduleNext => PhaseEndOnItsWay(w, s, i, spot, first);
    case ListDue(_) => PhaseEndOnItsWay(w, s, i, spot, first);
    case _ =>
  }

  lemma RunGoesOn(steps: seq<Step>, more: seq<Step>)
    requires more != []
    ensures var w, s := Exec(steps + more[..|more| - 1]), more[|more| - 1];
            Exec(steps + more) == if Enabled(w, s) then Apply(w, s) else w
  {
    assert (steps + more)[..|steps + more| - 1] == steps + more[..|more| - 1];
  }

  lemma {:induction false} StaysOnItsWay(steps: seq<Step>, more: seq<Step>, i: nat, spot: Spot, first: I64)
    requires OnItsWay(Exec(steps), i, spot, first)
    ensures OnItsWay(Exec(steps + more), i, spot, first)
  {
    if more == [] {
      assert steps + more == steps;
    } else {
      var n := |more| - 1;
      StaysOnItsWay(steps, more[..n], i, spot, first);
      EveryWorldIsOk(steps + more[..n]);
      RunGoesOn(steps, more);
      if Enabled(Exec(steps + more[..n]), more[n]) {
        StepOnItsWay(Exec(steps + more[..n]), more[n], i, spot, first);
      }
    }
  }

  /**
   A hint that is ever held under a first instant is served by the first tick that begins a window after
   that instant, whatever is offered, released, lost or switched off and on before and during that tick;
   only an inbox that was at some time not watched is excused.
   */
  lemma DueHintsAreServed(steps: seq<Step>, more: seq<Step>, i: nat, spot: Spot, first: I64)
    requires HeldSince(Exec(steps), i, spot, first)
    requires Exec(steps + more).phase.Idle? && Exec(steps + more).now >= SatAdd(first, WINDOW)
    ensures i in Exec(steps + more).served || spot.inbox in Exec(steps + more).off
  {
    EveryWorldIsOk(steps);
    EveryWorldIsOk(steps + more);
    assert HeldOk(Exec(steps), spot);
    StaysOnItsWay(steps, more, i, spot, first);
  }

  /** Being served means more than a mark: the scheduling call leaves a queued or running scan of the inbox. */
  lemma ServingLeavesAnActiveScan(w: World)
    requires WorldOk(w) && Enabled(w, ScheduleNext) && w.phase.todo != []
    requires w.scans.account && Watched(w.scans, w.enabled, w.phase.todo[0])
    ensures var next, inbox := Apply(w, ScheduleNext), w.phase.todo[0];
            && (exists id :: id in next.scans.tasks && next.scans.tasks[id].inbox == inbox
                             && next.scans.tasks[id].automatic && next.scans.tasks[id].Active())
            && (forall i | 0 <= i < |w.seen| && w.seen[i].inbox == inbox :: i in next.served)
  {
    S.ScheduleKeepsOneActive(w.scans, w.phase.todo[0], w.now);
    var (scans, answer) := S.ScheduleTx(w.scans, w.phase.todo[0], w.now);
    assert answer.Some? && !answer.value.Unavailable?;
    assert Apply(w, ScheduleNext).scans == scans && answer.value.task in scans.tasks;
  }
}
