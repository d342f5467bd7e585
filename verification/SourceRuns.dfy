/**
 Runs of the source store: configuration changes, rotations, polls that claim, commit, fail or vanish, and
 any transaction of the event store in between.
 */
module SourceRuns {
  import opened Outcomes
  import opened Int64
  import opened Ordering
  import opened Texts
  import opened AutomationEvents
  import opened AutomationSources
  import R = AutomationRuns

  /** `polls` is what live pollers remember; a poller may try its lease any number of times. */
  datatype World = World(db: Sources, polls: map<Id, PollLease>)

  datatype Step =
    | Insert(input: SourceInput, key: string, now: I64)
    | Replace(id: Id, expected: int, input: SourceInput, retained: string, now: I64)
    | Delete(id: Id, expected: int)
    | Rotate(id: Id, expected: int, key: string, generated: string)
    | ClaimPoll(poller: Id, now: I64, duration: I64, id: Id)
    | CommitPoll(poller: Id, cursor: Option<string>, drafts: seq<Draft>, now: I64)
    | FailPoll(poller: Id, checkpoint: bool, now: I64)
    | Forget(poller: Id)
    | Events(after: Tables)

  ghost const EMPTY := World(Sources(map[], map[], map[], R.EMPTY.store, 0), map[])

  ghost predicate Claims(w: World, s: Step) {
    s.ClaimPoll? && s.poller !in w.polls && s.duration > 0 && MayPoll(w.db, s.id, s.now)
  }

  ghost function ClaimStep(w: World, s: Step): World
    requires Claims(w, s)
  {
    var (db, answer) := ClaimPollTx(w.db, s.now, s.duration, s.id);
    World(db, if answer.Ok? then w.polls[s.poller := answer.value] else w.polls)
  }

  ghost function Apply(w: World, s: Step): World {
    match s
    case Insert(input, key, now) => w.(db := InsertSourceTx(w.db, input, key, now).0)
    case Replace(id, expected, input, retained, now) => w.(db := ReplaceTx(w.db, id, expected, input, retained, now).0)
    case Delete(id, expected) => w.(db := DeleteTx(w.db, id, expected).0)
    case Rotate(id, expected, key, generated) => w.(db := RotateTx(w.db, id, expected, key, generated).0)
    case ClaimPoll(_, _, _, _) => if Claims(w, s) then ClaimStep(w, s) else w
    case CommitPoll(poller, cursor, drafts, now) =>
      if poller in w.polls then w.(db := CommitPollTx(w.db, w.polls[poller], cursor, drafts, now).0) else w
    case FailPoll(poller, checkpoint, now) =>
      if poller in w.polls then w.(db := FailPollTx(w.db, w.polls[poller], checkpoint, now).0) else w
    case Forget(poller) => w.(polls := w.polls - {poller})
    case Events(after) =>
      if R.StoreOk(after) && R.Evolves(w.db.events, after) then w.(db := w.db.(events := after)) else w
  }

  ghost function Exec(steps: seq<Step>): World {
    if steps == [] then EMPTY else Apply(Exec(steps[..|steps| - 1]), steps[|steps| - 1])
  }

  // ---- Invariant -------------------------------------------------------------------------------

  ghost predicate SourceOk(id: Id, row: Source, run: Runtime, nextId: Id) {
    && id < nextId
    && row.version >= 1
    && (row.secret.Some? <==> SealKindOf(row.kind).Some?)
    && (row.secret.Some? ==> row.secret.value.aad == Aad(id, SealKindOf(row.kind).value, row.version, SCHEMA))
    && (run.cursor.Some? ==> row.kind.Rss? && run.cursor.value.aad == Aad(id, FeedCursor, row.version, SCHEMA))
    && (run.leaseToken.Some? <==> run.leaseExpires.Some?)
    && (run.leaseToken.Some? ==> row.kind.Rss? && run.leaseToken.value < nextId)
    && run.attempts <= MAX_POLL_ATTEMPTS
  }

  ghost predicate RotationOk(rotation: Rotation, nextId: Id) {
    && rotation.id < nextId
    && rotation.secret.aad == Aad(rotation.id, RotationReceipt, rotation.version, SCHEMA)
  }

  ghost predicate RowsOk(db: Sources) {
    && db.rows.Keys == db.runtime.Keys
    && forall id | id in db.rows :: SourceOk(id, db.rows[id], db.runtime[id], db.nextId)
  }

  ghost predicate RotationsOk(db: Sources) {
    forall k | k in db.rotations :: RotationOk(db.rotations[k], db.nextId) && k.source < db.nextId
  }

  ghost predicate WorldOk(w: World) {
    && RowsOk(w.db)
    && RotationsOk(w.db)
    && R.StoreOk(w.db.events)
    && forall p | p in w.polls :: w.polls[p].token < w.db.nextId
  }

  /** No event disappears or changes what it was inserted for. */
  ghost predicate KeepsEvents(before: Tables, after: Tables) {
    forall id | id in before.events :: id in after.events && R.SameIdentity(before.events[id], after.events[id])
  }

  // ---- Drafts ----------------------------------------------------------------------------------

  ghost predicate Filed(events: Tables, source: Id, draft: Draft) {
    exists e :: e in events.events && events.events[e].source == source && events.events[e].dedup == draft.dedup
      && events.events[e].request == draft.payload
  }

  lemma FiledStays(before: Tables, after: Tables, source: Id, draft: Draft)
    requires KeepsEvents(before, after) && Filed(before, source, draft)
    ensures Filed(after, source, draft)
  {
    var e :| e in before.events && before.events[e].source == source && before.events[e].dedup == draft.dedup
             && before.events[e].request == draft.payload;
    assert R.SameIdentity(before.events[e], after.events[e]);
  }

  lemma InsertGrows(events: Tables, source: Id, draft: Draft, now: I64)
    requires R.StoreOk(events)
    ensures var (after, id) := InsertTx(events, source, draft.dedup, draft.payload, now);
            && R.StoreOk(after)
            && KeepsEvents(events, after)
            && |after.events| == |events.events| + (if id.Some? then 1 else 0)
            && (id.Some? ==> Filed(after, source, draft))
  {
    R.InsertKeeps(events, source, draft.dedup, draft.payload, now);
    var (after, id) := InsertTx(events, source, draft.dedup, draft.payload, now);
    if id.Some? {
      assert id.value !in events.events;
      assert after.events[id.value].dedup == draft.dedup;
    }
  }

  lemma NextDraftGrows(before: Tables, source: Id, draft: Draft, now: I64)
    requires R.StoreOk(before)
    requires InsertTx(before, source, draft.dedup, draft.payload, now).1.None? ==>
               Occupied(before, source, draft.dedup) && before.events[Stored(before.events, source, draft.dedup)].request == draft.payload
    ensures Filed(InsertTx(before, source, draft.dedup, draft.payload, now).0, source, draft)
  {
    InsertGrows(before, source, draft, now);
  }

  /** An accepted batch files every draft, and its answer is the growth of the event table. */
  lemma {:induction false} DraftsGrow(events: Tables, source: Id, drafts: seq<Draft>, now: I64)
    requires R.StoreOk(events) && DraftsTx(events, source, drafts, now).Some?
    ensures var (after, accepted) := DraftsTx(events, source, drafts, now).value;
            && R.StoreOk(after)
            && KeepsEvents(events, after)
            && |after.events| == |events.events| + accepted
            && (forall draft | draft in drafts :: Filed(after, source, draft))
  {
    if drafts != [] {
      var n := |drafts| - 1;
      DraftsGrow(events, source, drafts[..n], now);
      var before := DraftsTx(events, source, drafts[..n], now).value.0;
      InsertGrows(before, source, drafts[n], now);
      NextDraftGrows(before, source, drafts[n], now);
      var after := InsertTx(before, source, drafts[n].dedup, drafts[n].payload, now).0;
      forall draft | draft in drafts
        ensures Filed(after, source, draft)
      {
        if draft != drafts[n] {
          assert draft in drafts[..n];
          FiledStays(before, after, source, draft);
        }
      }
    }
  }

  /** Filing the same drafts again, however much later, adds nothing. */
  lemma {:induction false} FiledDraftsAddNothing(events: Tables, source: Id, drafts: seq<Draft>, now: I64)
    requires R.StoreOk(events)
    requires forall draft | draft in drafts :: Filed(events, source, draft)
    ensures DraftsTx(events, source, drafts, now) == Some((events, 0))
  {
    if drafts != [] {
      var n := |drafts| - 1;
      FiledDraftsAddNothing(events, source, drafts[..n], now);
      assert Filed(events, source, drafts[n]);
    }
  }

  /** A dedup key stands for something else: in the table, or earlier in the same batch. */
  ghost predicate Clashes(events: Tables, source: Id, drafts: seq<Draft>, i: nat)
    requires i < |drafts|
  {
    || (exists e :: e in events.events && events.events[e].source == source
                 && events.events[e].dedup == drafts[i].dedup && events.events[e].request != drafts[i].payload)
    || (exists j :: 0 <= j < i && drafts[j].dedup == drafts[i].dedup && drafts[j].payload != drafts[i].payload)
  }

  /** Whatever a batch added under its source came from one of its drafts. */
  lemma {:induction false} DraftsAddOnlyDrafts(events: Tables, source: Id, drafts: seq<Draft>, now: I64, e: Id)
    requires R.StoreOk(events) && DraftsTx(events, source, drafts, now).Some?
    ensures var after := DraftsTx(events, source, drafts, now).value.0;
            e in after.events && e !in events.events ==>
              exists j :: 0 <= j < |drafts| && after.events[e].dedup == drafts[j].dedup && after.events[e].request == drafts[j].payload
                       && after.events[e].source == source
    ensures e in events.events ==> e in DraftsTx(events, source, drafts, now).value.0.events
                                   && DraftsTx(events, source, drafts, now).value.0.events[e] == events.events[e]
  {
    if drafts != [] {
      var n := |drafts| - 1;
      DraftsAddOnlyDrafts(events, source, drafts[..n], now, e);
      DraftsGrow(events, source, drafts[..n], now);
      var before := DraftsTx(events, source, drafts[..n], now).value.0;
      var after := DraftsTx(events, source, drafts, now).value.0;
      if e in after.events && e !in events.events {
        if e in before.events {
          var j :| 0 <= j < n && before.events[e].dedup == drafts[..n][j].dedup && before.events[e].request == drafts[..n][j].payload;
          assert drafts[..n][j] == drafts[j];
          assert after.events[e] == before.events[e];
        } else {
          assert after.events[e].dedup == drafts[n].dedup;
        }
      }
    }
  }

  lemma RefusedDraftClashes(events: Tables, source: Id, drafts: seq<Draft>, now: I64)
    requires R.StoreOk(events) && drafts != []
    requires DraftsTx(events, source, drafts[..|drafts| - 1], now).Some? && DraftsTx(events, source, drafts, now).None?
    ensures Clashes(events, source, drafts, |drafts| - 1)
  {
    var n := |drafts| - 1;
    DraftsGrow(events, source, drafts[..n], now);
    var before := DraftsTx(events, source, drafts[..n], now).value.0;
    var e := Stored(before.events, source, drafts[n].dedup);
    DraftsAddOnlyDrafts(events, source, drafts[..n], now, e);
    if e !in events.events {
      var j :| 0 <= j < n && before.events[e].dedup == drafts[..n][j].dedup && before.events[e].request == drafts[..n][j].payload;
      assert drafts[j] == drafts[..n][j];
    }
  }

  /** A clash with the table or with an earlier draft is there when the draft's turn comes. */
  lemma ClashIsStored(events: Tables, source: Id, drafts: seq<Draft>, now: I64) returns (filed: Draft)
    requires R.StoreOk(events) && drafts != []
    requires DraftsTx(events, source, drafts[..|drafts| - 1], now).Some? && Clashes(events, source, drafts, |drafts| - 1)
    ensures var before := DraftsTx(events, source, drafts[..|drafts| - 1], now).value.0;
            && R.StoreOk(before) && Filed(before, source, filed)
            && filed.dedup == drafts[|drafts| - 1].dedup && filed.payload != drafts[|drafts| - 1].payload
  {
    var n := |drafts| - 1;
    DraftsGrow(events, source, drafts[..n], now);
    if e :| e in events.events && events.events[e].source == source
            && events.events[e].dedup == drafts[n].dedup && events.events[e].request != drafts[n].payload {
      DraftsAddOnlyDrafts(events, source, drafts[..n], now, e);
      filed := Draft(drafts[n].dedup, events.events[e].request);
    } else {
      var j :| 0 <= j < n && drafts[j].dedup == drafts[n].dedup && drafts[j].payload != drafts[n].payload;
      assert drafts[..n][j] == drafts[j];
      filed := drafts[j];
    }
  }

  /** One more draft is refused exactly when it clashes. */
  lemma NextDraftRefused(events: Tables, source: Id, drafts: seq<Draft>, now: I64)
    requires R.StoreOk(events) && drafts != []
    requires DraftsTx(events, source, drafts[..|drafts| - 1], now).Some?
    ensures DraftsTx(events, source, drafts, now).None? <==> Clashes(events, source, drafts, |drafts| - 1)
  {
    if DraftsTx(events, source, drafts, now).None? {
      RefusedDraftClashes(events, source, drafts, now);
    }
    if Clashes(events, source, drafts, |drafts| - 1) {
      var filed := ClashIsStored(events, source, drafts, now);
      assert Occupied(DraftsTx(events, source, drafts[..|drafts| - 1], now).value.0, source, filed.dedup);
    }
  }

  /** A batch is refused as a whole exactly when one of its drafts clashes. */
  lemma {:induction false} RefusedExactlyOnClash(events: Tables, source: Id, drafts: seq<Draft>, now: I64)
    requires R.StoreOk(events)
    ensures DraftsTx(events, source, drafts, now).None? <==> exists i :: 0 <= i < |drafts| && Clashes(events, source, drafts, i)
  {
    if drafts != [] {
      var n := |drafts| - 1;
      RefusedExactlyOnClash(events, source, drafts[..n], now);
      forall i | 0 <= i < n
        ensures Clashes(events, source, drafts[..n], i) <==> Clashes(events, source, drafts, i)
      {
        assert forall j | 0 <= j <= i :: drafts[..n][j] == drafts[j];
      }
      if DraftsTx(events, source, drafts[..n], now).Some? {
        NextDraftRefused(events, source, drafts, now);
      } else {
        var i :| 0 <= i < n && Clashes(events, source, drafts[..n], i);
        assert Clashes(events, source, drafts, i);
      }
    }
  }

  // ---- Every step ------------------------------------------------------------------------------

  ghost predicate Moves(w: World, after: World) {
    WorldOk(after) && KeepsEvents(w.db.events, after.db.events)
  }

  lemma InsertSourceKeeps(w: World, s: Step)
    requires WorldOk(w) && s.Insert?
    ensures Moves(w, Apply(w, s))
  {
    assert Apply(w, s).db == InsertSourceTx(w.db, s.input, s.key, s.now).0;
  }

  lemma ReplaceKeeps(w: World, s: Step)
    requires WorldOk(w) && s.Replace?
    ensures Moves(w, Apply(w, s))
  {
    assert Apply(w, s).db == ReplaceTx(w.db, s.id, s.expected, s.input, s.retained, s.now).0;
  }

  lemma DeleteKeeps(w: World, s: Step)
    requires WorldOk(w) && s.Delete?
    ensures Moves(w, Apply(w, s))
  {
    assert Apply(w, s).db == DeleteTx(w.db, s.id, s.expected).0;
  }

  lemma RotateTxKeeps(db: Sources, id: Id, expected: int, key: string, generated: string)
    requires RowsOk(db) && RotationsOk(db)
    ensures var next := RotateTx(db, id, expected, key, generated).0;
            RowsOk(next) && RotationsOk(next) && next.events == db.events && next.nextId >= db.nextId
  {
    var next := RotateTx(db, id, expected, key, generated).0;
    if next != db {
      forall other | other in next.rows
        ensures SourceOk(other, next.rows[other], next.runtime[other], next.nextId)
      {
        assert SourceOk(other, db.rows[other], db.runtime[other], db.nextId);
      }
    }
  }

  lemma RotateKeeps(w: World, s: Step)
    requires WorldOk(w) && s.Rotate?
    ensures Moves(w, Apply(w, s))
  {
    RotateTxKeeps(w.db, s.id, s.expected, s.key, s.generated);
    assert Apply(w, s) == w.(db := RotateTx(w.db, s.id, s.expected, s.key, s.generated).0);
  }

  lemma ClaimPollKeeps(w: World, s: Step)
    requires WorldOk(w) && s.ClaimPoll?
    ensures Moves(w, Apply(w, s))
  {
    if Claims(w, s) {
      assert Apply(w, s) == ClaimStep(w, s);
      assert SourceOk(s.id, w.db.rows[s.id], w.db.runtime[s.id], w.db.nextId);
    }
  }

  lemma CommitPollRows(db: Sources, lease: PollLease, cursor: Option<string>, drafts: seq<Draft>, now: I64)
    requires RowsOk(db) && RotationsOk(db)
    ensures var next := CommitPollTx(db, lease, cursor, drafts, now).0;
            RowsOk(next) && RotationsOk(next) && next.nextId == db.nextId
  {
    var next := CommitPollTx(db, lease, cursor, drafts, now).0;
    forall id | id in next.rows
      ensures SourceOk(id, next.rows[id], next.runtime[id], next.nextId)
    {
      assert SourceOk(id, db.rows[id], db.runtime[id], db.nextId);
    }
  }

  lemma CommitPollEvents(db: Sources, lease: PollLease, cursor: Option<string>, drafts: seq<Draft>, now: I64)
    requires R.StoreOk(db.events)
    ensures var next := CommitPollTx(db, lease, cursor, drafts, now).0;
            R.StoreOk(next.events) && KeepsEvents(db.events, next.events)
  {
    if DraftsTx(db.events, lease.source, drafts, now).Some? {
      DraftsGrow(db.events, lease.source, drafts, now);
    }
  }

  lemma CommitPollKeeps(w: World, s: Step)
    requires WorldOk(w) && s.CommitPoll? && s.poller in w.polls
    ensures Moves(w, Apply(w, s))
  {
    CommitPollRows(w.db, w.polls[s.poller], s.cursor, s.drafts, s.now);
    CommitPollEvents(w.db, w.polls[s.poller], s.cursor, s.drafts, s.now);
    assert Apply(w, s) == w.(db := CommitPollTx(w.db, w.polls[s.poller], s.cursor, s.drafts, s.now).0);
  }

  lemma FailPollKeeps(w: World, s: Step)
    requires WorldOk(w) && s.FailPoll? && s.poller in w.polls
    ensures Moves(w, Apply(w, s))
  {
    assert Apply(w, s).db == FailPollTx(w.db, w.polls[s.poller], s.checkpoint, s.now).0;
  }

  lemma EventsKeep(w: World, s: Step)
    requires WorldOk(w) && s.Events?
    ensures Moves(w, Apply(w, s))
  {
    if R.Evolves(w.db.events, s.after) {
      forall id | id in w.db.events.events
        ensures id in s.after.events && R.SameIdentity(w.db.events.events[id], s.after.events[id])
      {
        assert R.RowEvolves(w.db.events.events[id], s.after.events[id], w.db.events.nextId);
      }
    }
  }

  lemma StepKeeps(w: World, s: Step)
    requires WorldOk(w)
    ensures Moves(w, Apply(w, s))
  {
    match s
    case Insert(_, _, _) => InsertSourceKeeps(w, s);
    case Replace(_, _, _, _, _) => ReplaceKeeps(w, s);
    case Delete(_, _) => DeleteKeeps(w, s);
    case Rotate(_, _, _, _) => RotateKeeps(w, s);
    case ClaimPoll(_, _, _, _) => ClaimPollKeeps(w, s);
    case CommitPoll(poller, _, _, _) => if poller in w.polls { CommitPollKeeps(w, s); }
    case FailPoll(poller, _, _) => if poller in w.polls { FailPollKeeps(w, s); }
    case Forget(_) =>
    case Events(_) => EventsKeep(w, s);
  }

  lemma {:induction false} EveryRunIsOk(steps: seq<Step>)
    ensures WorldOk(Exec(steps))
  {
    if steps == [] {
      R.EveryRunIsOk([]);
    } else {
      EveryRunIsOk(steps[..|steps| - 1]);
      StepKeeps(Exec(steps[..|steps| - 1]), steps[|steps| - 1]);
    }
  }

  // ---- Secrets stay openable -------------------------------------------------------------------

  /**
   Through any run, every stored secret opens under the associated data its reader builds, so does the feed
   URL and cursor of every poll that can be claimed, and the receipt of every rotation that can be replayed.
   */
  lemma EverySecretOpens(steps: seq<Step>)
    ensures var db := Exec(steps).db;
            && (forall id | id in db.rows && !db.rows[id].kind.DownloadCompletion? ::
                  db.rows[id].secret.Some? && LoadSecret(db, id) == Ok(db.rows[id].secret.value.text))
            && (forall id, now: I64, duration: I64 | MayPoll(db, id, now) :: ClaimPollTx(db, now, duration, id).1.Ok?)
            && (forall k, generated | k in db.rotations && k.source in db.rows && ValidKey(k.key)
                                    && db.rotations[k].expected >= 1 && 32 <= |generated| <= 128 ::
                  RotateTx(db, k.source, db.rotations[k].expected, k.key, generated) == (db, Ok(db.rotations[k].secret.text)))
  {
    EveryRunIsOk(steps);
    var db := Exec(steps).db;
    forall id, now: I64, duration: I64 | MayPoll(db, id, now)
      ensures ClaimPollTx(db, now, duration, id).1.Ok?
    {
      assert SourceOk(id, db.rows[id], db.runtime[id], db.nextId);
    }
    forall id | id in db.rows && !db.rows[id].kind.DownloadCompletion?
      ensures db.rows[id].secret.Some? && LoadSecret(db, id) == Ok(db.rows[id].secret.value.text)
    {
      assert SourceOk(id, db.rows[id], db.runtime[id], db.nextId);
    }
    forall k, generated | k in db.rotations && k.source in db.rows && ValidKey(k.key)
                        && db.rotations[k].expected >= 1 && 32 <= |generated| <= 128
      ensures RotateTx(db, k.source, db.rotations[k].expected, k.key, generated) == (db, Ok(db.rotations[k].secret.text))
    {
      assert RotationOk(db.rotations[k], db.nextId);
    }
  }

  // ---- What survives a run ---------------------------------------------------------------------

  /** What a step can do to a source that is there before and after it. */
  ghost predicate SourceFollows(before: Source, after: Source) {
    && after.kind == before.kind
    && after.version >= before.version
    && (after.version == before.version ==> after.secret == before.secret && after.enabled == before.enabled)
  }

  ghost predicate Survives(before: Sources, after: Sources, id: Id) {
    && before.nextId <= after.nextId
    && (id in after.rows && id < before.nextId ==>
          && id in before.rows
          && SourceFollows(before.rows[id], after.rows[id])
          && forall k | k in before.rotations && k.source == id ::
               k in after.rotations && after.rotations[k] == before.rotations[k])
  }

  lemma ReplaceSurvives(db: Sources, i: Id, expected: int, input: SourceInput, retained: string, now: I64, id: Id)
    requires RowsOk(db)
    ensures Survives(db, ReplaceTx(db, i, expected, input, retained, now).0, id)
  {
  }

  lemma DeleteSurvives(db: Sources, i: Id, expected: int, id: Id)
    requires RowsOk(db)
    ensures Survives(db, DeleteTx(db, i, expected).0, id)
  {
  }

  lemma RotateSurvives(db: Sources, i: Id, expected: int, key: string, generated: string, id: Id)
    requires RowsOk(db)
    ensures Survives(db, RotateTx(db, i, expected, key, generated).0, id)
  {
  }

  lemma SurvivalConfigured(w: World, s: Step, id: Id)
    requires RowsOk(w.db)
    requires s.Insert? || s.Replace? || s.Delete? || s.Rotate?
    ensures Survives(w.db, Apply(w, s).db, id)
  {
    match s {
      case Insert(input, key, now) => assert Apply(w, s).db == InsertSourceTx(w.db, input, key, now).0;
      case Replace(i, expected, input, retained, now) => ReplaceSurvives(w.db, i, expected, input, retained, now, id);
      case Delete(i, expected) => DeleteSurvives(w.db, i, expected, id);
      case Rotate(i, expected, key, generated) => RotateSurvives(w.db, i, expected, key, generated, id);
    }
  }

  lemma SurvivalPolled(w: World, s: Step, id: Id)
    requires RowsOk(w.db)
    requires s.ClaimPoll? || s.CommitPoll? || s.FailPoll?
    ensures Survives(w.db, Apply(w, s).db, id)
  {
    match s {
      case ClaimPoll(_, _, _, _) => if Claims(w, s) { assert Apply(w, s) == ClaimStep(w, s); }
      case CommitPoll(poller, cursor, drafts, now) =>
        if poller in w.polls {
          assert Apply(w, s).db == CommitPollTx(w.db, w.polls[poller], cursor, drafts, now).0;
        }
      case FailPoll(poller, checkpoint, now) =>
        if poller in w.polls {
          assert Apply(w, s).db == FailPollTx(w.db, w.polls[poller], checkpoint, now).0;
        }
    }
  }

  lemma StepSurvives(w: World, s: Step, id: Id)
    requires WorldOk(w)
    ensures Survives(w.db, Apply(w, s).db, id)
  {
    match s
    case Insert(_, _, _) => SurvivalConfigured(w, s, id);
    case Replace(_, _, _, _, _) => SurvivalConfigured(w, s, id);
    case Delete(_, _) => SurvivalConfigured(w, s, id);
    case Rotate(_, _, _, _) => SurvivalConfigured(w, s, id);
    case ClaimPoll(_, _, _, _) => SurvivalPolled(w, s, id);
    case CommitPoll(_, _, _, _) => SurvivalPolled(w, s, id);
    case FailPoll(_, _, _) => SurvivalPolled(w, s, id);
    case _ =>
  }

  lemma {:induction false} RunSurvives(steps: seq<Step>, more: seq<Step>, id: Id)
    requires id < Exec(steps).db.nextId
    ensures Survives(Exec(steps).db, Exec(steps + more).db, id)
  {
    if more == [] {
      assert steps + more == steps;
    } else {
      var n := |more| - 1;
      RunSurvives(steps, more[..n], id);
      assert (steps + more)[..|steps + more| - 1] == steps + more[..n];
      EveryRunIsOk(steps + more[..n]);
      StepSurvives(Exec(steps + more[..n]), more[n], id);
    }
  }

  /** The receipt of a rotation holds the key it answered with, sealed for the reader of that receipt. */
  lemma RotationIsFiled(db: Sources, id: Id, expected: int, key: string, generated: string)
    requires RowsOk(db) && RotationsOk(db) && RotateTx(db, id, expected, key, generated).1.Ok?
    ensures var (next, r) := RotateTx(db, id, expected, key, generated);
            var receipt := RotationKey(id, key);
            && id < next.nextId && receipt in next.rotations
            && next.rotations[receipt].expected == expected && r == Ok(next.rotations[receipt].secret.text)
  {
    assert id in db.rows && SourceOk(id, db.rows[id], db.runtime[id], db.nextId);
    assert RotationKey(id, key) in db.rotations ==> RotationOk(db.rotations[RotationKey(id, key)], db.nextId);
  }

  lemma ReceiptReplays(db: Sources, id: Id, expected: int, key: string, again: string, other: int)
    requires RotationsOk(db) && id in db.rows && RotationKey(id, key) in db.rotations
    requires db.rotations[RotationKey(id, key)].expected == expected >= 1
    requires ValidKey(key) && 32 <= |again| <= 128 && other >= 1 && other != expected
    ensures RotateTx(db, id, expected, key, again) == (db, Ok(db.rotations[RotationKey(id, key)].secret.text))
    ensures RotateTx(db, id, other, key, again) == (db, Err(RequestConflict))
  {
    assert RotationOk(db.rotations[RotationKey(id, key)], db.nextId);
  }

  /**
   An exact replay of a rotation answers with that rotation's own key for as long as the source exists, even
   after later rotations and replacements; the same idempotency key with another version conflicts.
   */
  lemma RotationReplaysItsOwnKey(steps: seq<Step>, more: seq<Step>, id: Id, expected: int, key: string,
                                 generated: string, again: string, other: int)
    requires RotateTx(Exec(steps).db, id, expected, key, generated).1.Ok?
    requires 32 <= |again| <= 128 && other >= 1 && other != expected
    ensures var issued := steps + [Rotate(id, expected, key, generated)];
            var later := Exec(issued + more).db;
            id in later.rows ==>
              && RotateTx(later, id, expected, key, again) == (later, RotateTx(Exec(steps).db, id, expected, key, generated).1)
              && RotateTx(later, id, other, key, again) == (later, Err(RequestConflict))
  {
    var issued := steps + [Rotate(id, expected, key, generated)];
    assert issued[..|issued| - 1] == steps;
    EveryRunIsOk(steps);
    EveryRunIsOk(issued);
    EveryRunIsOk(issued + more);
    RotationIsFiled(Exec(steps).db, id, expected, key, generated);
    assert Exec(issued).db == RotateTx(Exec(steps).db, id, expected, key, generated).0;
    RunSurvives(issued, more, id);
    if id in Exec(issued + more).db.rows {
      ReceiptReplays(Exec(issued + more).db, id, expected, key, again, other);
    }
  }

  /** Within one configuration version the secret never changes. */
  lemma VersionPinsSecret(steps: seq<Step>, more: seq<Step>, id: Id)
    requires id in Exec(steps).db.rows && id in Exec(steps + more).db.rows
    requires Exec(steps).db.rows[id].version == Exec(steps + more).db.rows[id].version
    ensures LoadSecret(Exec(steps).db, id) == LoadSecret(Exec(steps + more).db, id)
  {
    EveryRunIsOk(steps);
    assert SourceOk(id, Exec(steps).db.rows[id], Exec(steps).db.runtime[id], Exec(steps).db.nextId);
    RunSurvives(steps, more, id);
  }

  // ---- Keys across a replacement ---------------------------------------------------------------

  /** The replacement, which expects `expected` and brings the key its caller read, leaves the key in force alone. */
  ghost predicate KeepsKey(db: Sources, id: Id, expected: int, enabled: bool, read: string, now: I64) {
    var (after, r) := ReplaceTx(db, id, expected, WebhookInput(enabled), read, now);
    r.Ok? ==> LoadSecret(after, id) == LoadSecret(db, id)
  }

  /** A webhook at this version, with this key in force and the rotation receipt free. */
  ghost predicate StandsAt(db: Sources, id: Id, version: nat, key: string, receipt: RotationKey) {
    && id in db.rows && db.rows[id].kind.Webhook? && db.rows[id].version == version
    && LoadSecret(db, id) == Ok(key) && receipt !in db.rotations
  }

  lemma ReplacementStands(db: Sources, id: Id, version: nat, enabled: bool, read: string, now: I64, receipt: RotationKey)
    requires id in db.rows && db.rows[id].kind.Webhook? && db.rows[id].version == version >= 1 && receipt !in db.rotations
    ensures var (after, r) := ReplaceTx(db, id, version, WebhookInput(enabled), read, now);
            r.Ok? && StandsAt(after, id, version + 1, read, receipt)
  {
  }

  lemma RotationStands(db: Sources, id: Id, version: nat, key: string, generated: string, old': string)
    requires StandsAt(db, id, version, old', RotationKey(id, key)) && version >= 1
    requires ValidKey(key) && 32 <= |generated| <= 128
    ensures var after := RotateTx(db, id, version, key, generated).0;
            && id in after.rows && after.rows[id].kind.Webhook? && after.rows[id].version == version + 1
            && LoadSecret(after, id) == Ok(generated)
  {
  }

  lemma AppendsOne(steps: seq<Step>, s: Step)
    ensures Exec(steps + [s]) == Apply(Exec(steps), s)
  {
    assert (steps + [s])[..|steps + [s]| - 1] == steps;
  }

  /** Replacements that keep the key raise the version as far as one likes. */
  lemma {:induction false} VersionsClimb(steps: seq<Step>, id: Id, version: nat, target: nat, key: string, receipt: RotationKey)
    returns (more: seq<Step>)
    requires StandsAt(Exec(steps).db, id, version, key, receipt) && 1 <= version <= target
    ensures StandsAt(Exec(steps + more).db, id, target, key, receipt)
    decreases target - version
  {
    if version == target {
      more := [];
      assert steps + more == steps;
    } else {
      var s := Replace(id, version, WebhookInput(true), key, 0);
      ReplacementStands(Exec(steps).db, id, version, true, key, 0, receipt);
      AppendsOne(steps, s);
      var rest := VersionsClimb(steps + [s], id, version + 1, target, key, receipt);
      more := [s] + rest;
      assert steps + [s] + rest == steps + more;
    }
  }

  /** A version still to come can be reached by a rotation, and the replacement then undoes it. */
  lemma RotatedKeyIsUndone(steps: seq<Step>, id: Id, expected: int, enabled: bool, now: I64, read: string,
                           key: string, generated: string) returns (more: seq<Step>)
    requires id in Exec(steps).db.rows
    requires StandsAt(Exec(steps).db, id, Exec(steps).db.rows[id].version, read, RotationKey(id, key))
    requires expected > Exec(steps).db.rows[id].version >= 1
    requires ValidKey(key) && 32 <= |generated| <= 128 && generated != read
    ensures !KeepsKey(Exec(steps + more).db, id, expected, enabled, read, now)
  {
    var climb := VersionsClimb(steps, id, Exec(steps).db.rows[id].version, expected - 1, read, RotationKey(id, key));
    var rotate := Rotate(id, expected - 1, key, generated);
    more := climb + [rotate];
    RotationStands(Exec(steps + climb).db, id, expected - 1, key, generated, read);
    AppendsOne(steps + climb, rotate);
    assert steps + climb + [rotate] == steps + more;
    ReplacementPutsBack(Exec(steps + more).db, id, expected, enabled, read, now);
  }

  lemma ReplacementPutsBack(db: Sources, id: Id, version: nat, enabled: bool, read: string, now: I64)
    requires id in db.rows && db.rows[id].kind.Webhook? && db.rows[id].version == version >= 1
    ensures var (after, r) := ReplaceTx(db, id, version, WebhookInput(enabled), read, now);
            r.Ok? && LoadSecret(after, id) == Ok(read)
  {
  }

  lemma OldVersionsKeepTheKey(steps: seq<Step>, more: seq<Step>, id: Id, expected: int, enabled: bool, now: I64, read: string)
    requires id in Exec(steps).db.rows && LoadSecret(Exec(steps).db, id) == Ok(read)
    requires expected <= Exec(steps).db.rows[id].version
    ensures KeepsKey(Exec(steps + more).db, id, expected, enabled, read, now)
  {
    var before := Exec(steps + more).db;
    if ReplaceTx(before, id, expected, WebhookInput(enabled), read, now).1.Ok? {
      EveryRunIsOk(steps);
      assert SourceOk(id, Exec(steps).db.rows[id], Exec(steps).db.runtime[id], Exec(steps).db.nextId);
      RunSurvives(steps, more, id);
      VersionPinsSecret(steps, more, id);
      ReplacementPutsBack(before, id, expected, enabled, read, now);
    }
  }

  /**
   A replacement brings the webhook key its caller read before. Whatever happens in between, it leaves the
   key in force alone if and only if the version it expects is none that was still to come at that reading:
   a later one can be the work of a rotation, which the replacement would undo.
   */
  lemma ReplaceRetainsKey(steps: seq<Step>, id: Id, expected: int, enabled: bool, now: I64, key: string, generated: string)
    requires id in Exec(steps).db.rows && Exec(steps).db.rows[id].kind.Webhook? && LoadSecret(Exec(steps).db, id).Ok?
    requires ValidKey(key) && RotationKey(id, key) !in Exec(steps).db.rotations
    requires 32 <= |generated| <= 128 && generated != LoadSecret(Exec(steps).db, id).value
    ensures var read := LoadSecret(Exec(steps).db, id).value;
            (forall more: seq<Step> :: KeepsKey(Exec(steps + more).db, id, expected, enabled, read, now))
            <==> expected <= Exec(steps).db.rows[id].version
  {
    var read := LoadSecret(Exec(steps).db, id).value;
    EveryRunIsOk(steps);
    assert SourceOk(id, Exec(steps).db.rows[id], Exec(steps).db.runtime[id], Exec(steps).db.nextId);
    if expected <= Exec(steps).db.rows[id].version {
      forall more: seq<Step>
        ensures KeepsKey(Exec(steps + more).db, id, expected, enabled, read, now)
      {
        OldVersionsKeepTheKey(steps, more, id, expected, enabled, now, read);
      }
    } else {
      var more := RotatedKeyIsUndone(steps, id, expected, enabled, now, read, key, generated);
    }
  }

  /** The shortest such run: a caller that expects version 2 while it reads at version 1 undoes the rotation between. */
  lemma ReplaceMayRestoreRotatedKey(old': string, new': string)
    requires old' != new' && 32 <= |new'| <= 128
    ensures var created := [Insert(WebhookInput(true), old', 0)];
            var rotated := created + [Rotate(0, 1, "r", new')];
            var replaced := rotated + [Replace(0, 2, WebhookInput(true), old', 0)];
            && LoadSecret(Exec(created).db, 0) == Ok(old')
            && LoadSecret(Exec(rotated).db, 0) == Ok(new')
            && LoadSecret(Exec(replaced).db, 0) == Ok(old')
  {
    var created := [Insert(WebhookInput(true), old', 0)];
    assert created[..0] == [] && Exec([]) == EMPTY;
    assert Exec(created).db == InsertSourceTx(EMPTY.db, WebhookInput(true), old', 0).0;
    var rotated := created + [Rotate(0, 1, "r", new')];
    assert rotated[..1] == created;
    var replaced := rotated + [Replace(0, 2, WebhookInput(true), old', 0)];
    assert replaced[..2] == rotated;
    assert Utf8Length("r"[1..]) == 0;
    assert ValidKey("r");
    var db := Exec(created).db;
    assert db.rows[0].version == 1;
    assert Exec(rotated).db == RotateTx(db, 0, 1, "r", new').0;
  }

  // ---- Poll leases -----------------------------------------------------------------------------

  ghost function Before(steps: seq<Step>): World
    requires steps != []
  {
    Exec(steps[..|steps| - 1])
  }

  ghost function Last(steps: seq<Step>): Step
    requires steps != []
  {
    steps[|steps| - 1]
  }

  /** The poll commits, as a success or as a failure. */
  ghost predicate Takes(w: World, s: Step) {
    || (s.CommitPoll? && s.poller in w.polls
        && CommitPollTx(w.db, w.polls[s.poller], s.cursor, s.drafts, s.now).1.Ok?)
    || (s.FailPoll? && s.poller in w.polls && FailPollTx(w.db, w.polls[s.poller], s.checkpoint, s.now).1.Ok?)
  }

  /** The newest poll lease handed out for the source. */
  ghost function NewestPoll(steps: seq<Step>, id: Id): Option<Id> {
    if steps == [] then None
    else if Claims(Before(steps), Last(steps)) && Last(steps).id == id then Some(Before(steps).db.nextId)
    else NewestPoll(steps[..|steps| - 1], id)
  }

  ghost function Commits(steps: seq<Step>, token: Id): nat {
    if steps == [] then 0 else
      Commits(steps[..|steps| - 1], token)
      + if Takes(Before(steps), Last(steps)) && Before(steps).polls[Last(steps).poller].token == token then 1 else 0
  }

  ghost predicate Live(db: Sources, token: Id) {
    exists id :: id in db.runtime && db.runtime[id].leaseToken == Some(token)
  }

  /** How a step may change the lease of one source: a fresh claim, a release, or nothing. */
  ghost predicate LeaseFollows(w: World, s: Step, id: Id) {
    var after := Apply(w, s).db.runtime;
    id in after && after[id].leaseToken.Some? ==>
      if Claims(w, s) && s.id == id then after[id].leaseToken == Some(w.db.nextId)
      else && id in w.db.runtime && after[id].leaseToken == w.db.runtime[id].leaseToken
           && !(Takes(w, s) && w.polls[s.poller].source == id)
  }

  lemma LeaseConfigured(w: World, s: Step, id: Id)
    requires RowsOk(w.db)
    requires s.Insert? || s.Replace? || s.Delete? || s.Rotate?
    ensures LeaseFollows(w, s, id)
  {
    match s {
      case Insert(input, key, now) => assert Apply(w, s).db == InsertSourceTx(w.db, input, key, now).0;
      case Replace(i, expected, input, retained, now) =>
        assert Apply(w, s).db == ReplaceTx(w.db, i, expected, input, retained, now).0;
      case Delete(i, expected) => assert Apply(w, s).db == DeleteTx(w.db, i, expected).0;
      case Rotate(i, expected, key, generated) =>
        assert Apply(w, s).db == RotateTx(w.db, i, expected, key, generated).0;
    }
  }

  lemma LeasePolled(w: World, s: Step, id: Id)
    requires RowsOk(w.db)
    requires s.ClaimPoll? || s.CommitPoll? || s.FailPoll?
    ensures LeaseFollows(w, s, id)
  {
    match s {
      case ClaimPoll(_, _, _, _) => if Claims(w, s) { assert Apply(w, s) == ClaimStep(w, s); }
      case CommitPoll(poller, cursor, drafts, now) =>
        if poller in w.polls {
          assert Apply(w, s).db == CommitPollTx(w.db, w.polls[poller], cursor, drafts, now).0;
        }
      case FailPoll(poller, checkpoint, now) =>
        if poller in w.polls {
          assert Apply(w, s).db == FailPollTx(w.db, w.polls[poller], checkpoint, now).0;
        }
    }
  }

  lemma LeaseAfter(w: World, s: Step, id: Id)
    requires WorldOk(w)
    ensures LeaseFollows(w, s, id)
  {
    match s
    case Insert(_, _, _) => LeaseConfigured(w, s, id);
    case Replace(_, _, _, _, _) => LeaseConfigured(w, s, id);
    case Delete(_, _) => LeaseConfigured(w, s, id);
    case Rotate(_, _, _, _) => LeaseConfigured(w, s, id);
    case ClaimPoll(_, _, _, _) => LeasePolled(w, s, id);
    case CommitPoll(_, _, _, _) => LeasePolled(w, s, id);
    case FailPoll(_, _, _) => LeasePolled(w, s, id);
    case _ =>
  }

  lemma {:induction false} LiveIsNewest(steps: seq<Step>, id: Id)
    ensures id in Exec(steps).db.runtime && Exec(steps).db.runtime[id].leaseToken.Some? ==>
              Exec(steps).db.runtime[id].leaseToken == NewestPoll(steps, id)
  {
    if steps != [] {
      LiveIsNewest(steps[..|steps| - 1], id);
      EveryRunIsOk(steps[..|steps| - 1]);
      LeaseAfter(Before(steps), Last(steps), id);
    }
  }

  /**
   A poll commits only under the newest lease of a source that is still enabled, still at the version the
   lease was claimed at, and before the lease's deadline.
   */
  lemma OnlyTheNewestPollCommits(steps: seq<Step>, s: Step)
    requires Takes(Exec(steps), s)
    ensures var w := Exec(steps);
            var lease := w.polls[s.poller];
            && lease.source in w.db.rows
            && w.db.rows[lease.source].enabled
            && w.db.rows[lease.source].version == lease.version
            && NewestPoll(steps, lease.source) == Some(lease.token)
            && w.db.runtime[lease.source].leaseExpires.Some?
            && s.now < w.db.runtime[lease.source].leaseExpires.value
  {
    LiveIsNewest(steps, Exec(steps).polls[s.poller].source);
  }

  /** Tokens identify the source they were claimed for. */
  lemma {:induction false} TokensAreUnique(steps: seq<Step>, a: Id, b: Id)
    requires a in Exec(steps).db.runtime && b in Exec(steps).db.runtime
    requires Exec(steps).db.runtime[a].leaseToken.Some?
    requires Exec(steps).db.runtime[a].leaseToken == Exec(steps).db.runtime[b].leaseToken
    ensures a == b
  {
    EveryRunIsOk(steps);
    if steps != [] {
      EveryRunIsOk(steps[..|steps| - 1]);
      var w, s := Before(steps), Last(steps);
      LeaseAfter(w, s, a);
      LeaseAfter(w, s, b);
      assert forall id | id in w.db.rows :: SourceOk(id, w.db.rows[id], w.db.runtime[id], w.db.nextId);
      if !(Claims(w, s) && s.id == a) && !(Claims(w, s) && s.id == b) {
        TokensAreUnique(steps[..|steps| - 1], a, b);
      }
    }
  }

  /** A poll lease commits at most once, and is never live again afterwards. */
  lemma {:induction false} PollCommitsAtMostOnce(steps: seq<Step>, token: Id)
    ensures Commits(steps, token) <= 1
    ensures token >= Exec(steps).db.nextId ==> Commits(steps, token) == 0
    ensures Commits(steps, token) == 1 ==> !Live(Exec(steps).db, token)
  {
    if steps != [] {
      var earlier := steps[..|steps| - 1];
      var w, s := Before(steps), Last(steps);
      PollCommitsAtMostOnce(earlier, token);
      EveryRunIsOk(earlier);
      EveryRunIsOk(steps);
      StepSurvives(w, s, 0);
      if Live(Exec(steps).db, token) {
        var id :| id in Exec(steps).db.runtime && Exec(steps).db.runtime[id].leaseToken == Some(token);
        LeaseAfter(w, s, id);
        assert SourceOk(id, Exec(steps).db.rows[id], Exec(steps).db.runtime[id], Exec(steps).db.nextId);
        if !(Claims(w, s) && s.id == id) {
          assert Live(w.db, token);
          if Takes(w, s) && w.polls[s.poller].token == token {
            TokensAreUnique(earlier, id, w.polls[s.poller].source);
          }
        }
      }
      if Takes(w, s) && w.polls[s.poller].token == token {
        assert w.db.runtime[w.polls[s.poller].source].leaseToken == Some(token);
        assert Live(w.db, token);
      }
    }
  }

  lemma RunGoesOn(steps: seq<Step>, more: seq<Step>)
    requires more != []
    ensures Exec(steps + more) == Apply(Exec(steps + more[..|more| - 1]), more[|more| - 1])
  {
    assert (steps + more)[..|steps + more| - 1] == steps + more[..|more| - 1];
  }

  lemma OneStepKeeps(steps: seq<Step>, s: Step)
    ensures KeepsEvents(Exec(steps).db.events, Apply(Exec(steps), s).db.events)
  {
    EveryRunIsOk(steps);
    StepKeeps(Exec(steps), s);
  }

  lemma KeepingComposes(a: Tables, b: Tables, c: Tables)
    requires KeepsEvents(a, b) && KeepsEvents(b, c)
    ensures KeepsEvents(a, c)
  {
  }

  lemma {:induction false} EventsAreKept(steps: seq<Step>, more: seq<Step>)
    ensures KeepsEvents(Exec(steps).db.events, Exec(steps + more).db.events)
  {
    if more == [] {
      assert steps + more == steps;
    } else {
      var n := |more| - 1;
      EventsAreKept(steps, more[..n]);
      RunGoesOn(steps, more);
      OneStepKeeps(steps + more[..n], more[n]);
      KeepingComposes(Exec(steps).db.events, Exec(steps + more[..n]).db.events, Exec(steps + more).db.events);
    }
  }

  /**
   A successful poll is all or nothing: its answer is the growth of the event table, every draft is filed, and
   the same drafts committed again by any later poll of the source add no event. A poll that does not
   succeed leaves every table as it was.
   */
  lemma PollsFileDraftsOnce(steps: seq<Step>, more: seq<Step>, s: Step, again: I64)
    requires s.CommitPoll? && s.poller in Exec(steps).polls
    ensures var w := Exec(steps);
            var lease := w.polls[s.poller];
            var (after, r) := CommitPollTx(w.db, lease, s.cursor, s.drafts, s.now);
            && (r.Err? ==> after == w.db)
            && (r.Ok? ==>
                  && |after.events.events| == |w.db.events.events| + r.value
                  && (forall draft | draft in s.drafts :: Filed(after.events, lease.source, draft))
                  && var later := Exec(steps + [s] + more).db.events;
                     DraftsTx(later, lease.source, s.drafts, again) == Some((later, 0)))
  {
    var w := Exec(steps);
    var lease := w.polls[s.poller];
    EveryRunIsOk(steps);
    var (after, r) := CommitPollTx(w.db, lease, s.cursor, s.drafts, s.now);
    if r.Ok? {
      DraftsGrow(w.db.events, lease.source, s.drafts, s.now);
      var issued := steps + [s];
      assert issued[..|issued| - 1] == steps;
      assert Exec(issued).db == after;
      EventsAreKept(issued, more);
      EveryRunIsOk(issued + more);
      var later := Exec(issued + more).db.events;
      forall draft | draft in s.drafts
        ensures Filed(later, lease.source, draft)
      {
        FiledStays(after.events, later, lease.source, draft);
      }
      FiledDraftsAddNothing(later, lease.source, s.drafts, again);
    }
  }
}
