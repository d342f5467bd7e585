/** One tick of the discovery coordinator, as its loops run when no hint arrives in between. */
module WatchTick {
  import opened Outcomes
  import opened Int64
  import opened WatchHints
  import opened WatchRuns
  import S = ScanScheduling

  lemma ReleasedAreMade(pending: map<Spot, Held>, now: I64, made: seq<Id>)
    requires Lists(made, InboxesOf(Released(pending, now)))
    ensures |Waiting(pending, now)| <= |pending|
    ensures forall spot | spot in pending :: spot in Waiting(pending, now) || spot.inbox in made
  {
    WaitingIsSmaller(pending, now);
    forall spot | spot in pending
      ensures spot in Waiting(pending, now) || spot.inbox in made
    {
      if spot in Released(pending, now) {
        assert spot.inbox in InboxesOf(Released(pending, now));
      }
    }
  }

  class DiscoveryCoordinator {
    const channel: WatchChannel
    const coalescer: WatchCoalescer
    var scans: S.Scans
    var enabled: set<Id>
    var calls: seq<Id>

    constructor (channel: WatchChannel, scans: S.Scans, enabled: set<Id>)
      ensures this.channel == channel && this.scans == scans && this.enabled == enabled && calls == []
      ensures fresh(coalescer) && coalescer.pending == map[] && coalescer.capacity == COALESCER_CAPACITY
    {
      this.channel, this.scans, this.enabled, calls := channel, scans, enabled, [];
      coalescer := new WatchCoalescer(COALESCER_CAPACITY);
    }

    /** Policies belong to registered inboxes. */
    ghost predicate Valid()
      reads this, coalescer
    {
      && S.OneActiveScan(scans) && (forall inbox | inbox in enabled :: inbox in scans.inboxes)
      && (forall spot | spot in coalescer.pending :: spot.inbox in scans.inboxes)
      && |coalescer.pending| <= coalescer.capacity == COALESCER_CAPACITY
    }

    method ScheduleReconcile(inbox: Id, now: I64) returns (answer: Option<S.Schedule>)
      modifies `scans, `calls
      ensures (scans, answer) == S.ScheduleTx(old(scans), inbox, now) && calls == old(calls) + [inbox]
    {
      scans, answer := S.ScheduleTx(scans, inbox, now).0, S.ScheduleTx(scans, inbox, now).1;
      calls := calls + [inbox];
    }

    method ScheduleMany(inboxes: seq<Id>, now: I64)
      requires S.OneActiveScan(scans)
      modifies `scans, `calls
      ensures calls == old(calls) + inboxes
      ensures S.OneActiveScan(scans) && scans.inboxes == old(scans.inboxes)
    {
      for i := 0 to |inboxes|
        invariant calls == old(calls) + inboxes[..i]
        invariant S.OneActiveScan(scans) && scans.inboxes == old(scans.inboxes)
      {
        S.ScheduleKeepsOneActive(scans, inboxes[i], now);
        var answer := ScheduleReconcile(inboxes[i], now);
        assert inboxes[..i + 1] == inboxes[..i] + [inboxes[i]];
      }
      assert inboxes[..|inboxes|] == inboxes;
    }

    /** The hint is held, or was dropped for want of room, or came from an inbox without a watcher. */
    method DrainChannel() returns (full: bool)
      requires Valid()
      modifies channel, coalescer
      ensures Valid() && channel.hints == [] && channel.overflow == old(channel.overflow)
      ensures forall spot | spot in old(coalescer.pending) :: spot in coalescer.pending
      ensures !full ==> forall hint | hint in old(channel.hints) && hint.inbox in enabled :: SpotOf(hint) in coalescer.pending
    {
      full := false;
      ghost var hints := channel.hints;
      while channel.hints != []
        invariant Valid() && channel.overflow == old(channel.overflow)
        invariant forall spot | spot in old(coalescer.pending) :: spot in coalescer.pending
        invariant !full ==> forall hint | hint in hints && hint !in channel.hints && hint.inbox in enabled ::
                    SpotOf(hint) in coalescer.pending
        decreases |channel.hints|
      {
        ghost var before := channel.hints;
        var hint := channel.TryRecv();
        assert before == [hint.value] + channel.hints;
        if hint.value.inbox in enabled {
          PushFits(coalescer.pending, hint.value);
          var kept := coalescer.Push(hint.value);
          if !kept {
            full := true;
          }
        }
      }
    }

    /** After an overflow nothing held can be relied on, so every watched inbox is scanned. */
    method Recover(full: bool, now: I64) returns (made: seq<Id>)
      requires Valid()
      modifies this`scans, this`calls, channel, coalescer
      ensures Valid() && channel.hints == old(channel.hints) && !channel.overflow && scans.inboxes == old(scans.inboxes)
      ensures calls == old(calls) + made
      ensures if old(channel.overflow) || full then
                coalescer.pending == map[] && forall inbox | Watched(scans, enabled, inbox) :: inbox in made
              else made == [] && coalescer.pending == old(coalescer.pending)
    {
      made := [];
      var overflow := channel.TakeOverflow();
      if overflow || full {
        coalescer.Clear();
        made := Sorted(WatchedInboxes(scans, enabled));
        ScheduleMany(made, now);
      }
    }

    method ReleaseDue(now: I64) returns (made: seq<Id>)
      requires Valid()
      modifies this`scans, this`calls, coalescer
      ensures Valid() && scans.inboxes == old(scans.inboxes) && calls == old(calls) + made
      ensures forall spot | spot in coalescer.pending :: !Due(coalescer.pending[spot], now)
      ensures forall spot | spot in old(coalescer.pending) :: spot in coalescer.pending || spot.inbox in made
    {
      ghost var before := coalescer.pending;
      var ready := coalescer.DrainReady(now);
      made := Sorted(InboxesOf(ready));
      ReleasedAreMade(before, now, made);
      ScheduleMany(made, now);
    }

    /** The first half of a tick: whatever was in the channel is now held, or its inbox is being scanned. */
    method DrainAndRecover(now: I64) returns (made: seq<Id>)
      requires Valid()
      modifies this`scans, this`calls, channel, coalescer
      ensures Valid() && channel.hints == [] && !channel.overflow && scans.inboxes == old(scans.inboxes)
      ensures calls == old(calls) + made
      ensures forall hint | hint in old(channel.hints) && Watched(scans, enabled, hint.inbox) ::
                SpotOf(hint) in coalescer.pending || hint.inbox in made
      ensures forall spot | spot in old(coalescer.pending) && Watched(scans, enabled, spot.inbox) ::
                spot in coalescer.pending || spot.inbox in made
      ensures old(channel.overflow) ==> forall inbox | Watched(scans, enabled, inbox) :: inbox in made
    {
      var full := DrainChannel();
      made := Recover(full, now);
    }

    /** `due` are the inboxes whose periodic scan is due when the tick gets there; `made` the calls of this tick. */
    method Tick(now: I64, due: seq<Id>) returns (made: seq<Id>)
      requires Valid()
      modifies this`scans, this`calls, channel, coalescer
      ensures Valid() && channel.hints == [] && !channel.overflow && scans.inboxes == old(scans.inboxes)
      ensures calls == old(calls) + made
      ensures forall spot | spot in coalescer.pending :: !Due(coalescer.pending[spot], now)
      ensures forall hint | hint in old(channel.hints) && Watched(scans, enabled, hint.inbox) ::
                SpotOf(hint) in coalescer.pending || hint.inbox in made
      ensures forall spot | spot in old(coalescer.pending) && Watched(scans, enabled, spot.inbox) ::
                spot in coalescer.pending || spot.inbox in made
      ensures old(channel.overflow) ==> forall inbox | Watched(scans, enabled, inbox) :: inbox in made
      ensures forall inbox | inbox in due :: inbox in made
    {
      var recovered := DrainAndRecover(now);
      var released := ReleaseDue(now);
      ScheduleMany(due, now);
      made := recovered + released + due;
    }
  }
}
