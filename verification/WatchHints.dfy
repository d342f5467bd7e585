/**
 File system hints on their way to a scan: a bounded channel with a sticky overflow flag, and a bounded
 coalescer that holds each path for a window of two seconds.
 */
module WatchHints {
  import opened Outcomes
  import opened Int64

  type Id = nat

  const WINDOW := 2_000_000
  const CHANNEL_CAPACITY := 1_024
  const COALESCER_CAPACITY := 4_096

  datatype Hint = Hint(inbox: Id, path: seq<nat>, observedAt: I64)

  /** Hints for the same path of the same inbox are one. */
  datatype Spot = Spot(inbox: Id, path: seq<nat>)

  datatype Held = Held(first: I64, observedAt: I64)

  function SpotOf(hint: Hint): Spot {
    Spot(hint.inbox, hint.path)
  }

  function Newer(a: I64, b: I64): I64 {
    if a < b then b else a
  }

  /** False when a new path finds the coalescer full; the hint is then not kept. */
  function PushTx(pending: map<Spot, Held>, capacity: nat, hint: Hint): (map<Spot, Held>, bool) {
    var spot := SpotOf(hint);
    if spot in pending then
      (pending[spot := pending[spot].(observedAt := Newer(pending[spot].observedAt, hint.observedAt))], true)
    else if |pending| >= capacity then (pending, false)
    else (pending[spot := Held(hint.observedAt, hint.observedAt)], true)
  }

  predicate Due(held: Held, now: I64) {
    now >= SatAdd(held.first, WINDOW)
  }

  function Waiting(pending: map<Spot, Held>, now: I64): map<Spot, Held> {
    map spot | spot in pending && !Due(pending[spot], now) :: pending[spot]
  }

  function Released(pending: map<Spot, Held>, now: I64): map<Spot, Held> {
    map spot | spot in pending && Due(pending[spot], now) :: pending[spot]
  }

  class WatchChannel {
    var hints: seq<Hint>
    var overflow: bool
    const capacity: nat

    constructor (capacity: nat)
      requires capacity > 0
      ensures hints == [] && !overflow && this.capacity == capacity
    {
      hints, overflow := [], false;
      this.capacity := capacity;
    }

    method TrySend(hint: Hint) returns (sent: bool)
      modifies this
      ensures sent <==> |old(hints)| < capacity
      ensures hints == (if sent then old(hints) + [hint] else old(hints)) && overflow == (old(overflow) || !sent)
    {
      sent := |hints| < capacity;
      if sent {
        hints := hints + [hint];
      } else {
        MarkOverflow();
      }
    }

    method TryRecv() returns (hint: Option<Hint>)
      modifies this`hints
      ensures if old(hints) == [] then hint.None? && hints == [] else hint == Some(old(hints)[0]) && hints == old(hints)[1..]
    {
      if hints == [] {
        hint := None;
      } else {
        hint := Some(hints[0]);
        hints := hints[1..];
      }
    }

    method MarkOverflow()
      modifies this`overflow
      ensures overflow
    {
      overflow := true;
    }

    method TakeOverflow() returns (was: bool)
      modifies this`overflow
      ensures was == old(overflow) && !overflow
    {
      was := overflow;
      overflow := false;
    }
  }

  class WatchCoalescer {
    var pending: map<Spot, Held>
    const capacity: nat

    constructor (capacity: nat)
      requires capacity > 0
      ensures pending == map[] && this.capacity == capacity
    {
      pending := map[];
      this.capacity := capacity;
    }

    method Push(hint: Hint) returns (kept: bool)
      modifies this
      ensures (pending, kept) == PushTx(old(pending), capacity, hint)
    {
      var spot := SpotOf(hint);
      if spot in pending {
        var held := pending[spot];
        pending := pending[spot := held.(observedAt := if held.observedAt < hint.observedAt then hint.observedAt else held.observedAt)];
        return true;
      }
      if |pending| >= capacity {
        return false;
      }
      pending := pending[spot := Held(hint.observedAt, hint.observedAt)];
      kept := true;
    }

    /** The released hints are given by their spots; the source lists them in the order of the spots. */
    method DrainReady(now: I64) returns (ready: map<Spot, Held>)
      modifies this
      ensures pending == Waiting(old(pending), now) && ready == Released(old(pending), now)
    {
      var spots := set spot | spot in pending && now >= SatAdd(pending[spot].first, WINDOW);
      ready := map[];
      ghost var before := pending;
      while spots != {}
        invariant forall spot | spot in spots :: spot in before && Due(before[spot], now)
        invariant forall spot | spot in before && Due(before[spot], now) :: spot in spots || spot in ready
        invariant forall spot | spot in ready :: spot in before && spot !in spots && Due(before[spot], now) && ready[spot] == before[spot]
        invariant forall spot :: spot in pending <==> spot in before && spot !in ready
        invariant forall spot | spot in pending :: pending[spot] == before[spot]
        decreases |spots|
      {
        var spot :| spot in spots;
        spots := spots - {spot};
        ready := ready[spot := pending[spot]];
        pending := pending - {spot};
      }
      assert pending == Waiting(before, now);
      assert ready == Released(before, now);
    }

    method Clear()
      modifies this
      ensures pending == map[]
    {
      pending := map[];
    }
  }
}
