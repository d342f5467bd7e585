/**
 The worker pool of the directory scanner. `WorkState` is the state its threads share under one lock;
 `Pool` is the whole machine: that state, the two flags outside the lock, the bounded channel, the
 consumer, and for every thread the point its code has reached. Threads and consumer take turns at
 every shared access, in any order.
 */
module ScanPool {
  import opened Outcomes
  import opened ScanTree

  const QUEUE_CAPACITY := 64
  const CHANNEL_CAPACITY := 1_000

  // ---- The shared state and its critical sections -----------------------------------------------

  datatype Work = Work(queue: seq<Item>, outstanding: nat, stopped: bool)

  datatype Polled = Take(item: Item) | Wait | Leave

  function HaltTx(w: Work): Work {
    w.(queue := [], stopped := true)
  }

  function PollTx(w: Work, stop: bool): (Work, Polled) {
    if stop || w.stopped || w.outstanding == 0 then (HaltTx(w), Leave)
    else if w.queue != [] then (w.(queue := w.queue[1..]), Take(w.queue[0]))
    else (w, Wait)
  }

  function OfferTx(w: Work, item: Item): (Work, bool) {
    if |w.queue| < QUEUE_CAPACITY then
      (w.(queue := w.queue + [item], outstanding := w.outstanding + 1), true)
    else (w, false)
  }

  function FinishTx(w: Work): Work {
    w.(outstanding := if w.outstanding == 0 then 0 else w.outstanding - 1)
  }

  class WorkState {
    var queue: seq<Item>
    var outstanding: nat
    var stopped: bool

    ghost function Contents(): Work
      reads this
    {
      Work(queue, outstanding, stopped)
    }

    constructor (root: Directory)
      ensures Contents() == Work([Item([], root, true)], 1, false)
    {
      queue := [Item([], root, true)];
      outstanding := 1;
      stopped := false;
    }

    /** One look at the queue under the lock. Leave wakes every waiter, Wait releases the lock. */
    method Poll(stop: bool) returns (r: Polled)
      modifies this
      ensures (Contents(), r) == PollTx(old(Contents()), stop)
    {
      if stop || stopped || outstanding == 0 {
        stopped := true;
        queue := [];
        return Leave;
      }
      if queue != [] {
        r := Take(queue[0]);
        queue := queue[1..];
      } else {
        r := Wait;
      }
    }

    /** False tells the caller to process the directory itself. */
    method Offer(item: Item) returns (accepted: bool)
      modifies this
      ensures (Contents(), accepted) == OfferTx(old(Contents()), item)
    {
      accepted := |queue| < QUEUE_CAPACITY;
      if accepted {
        queue := queue + [item];
        outstanding := outstanding + 1;
      }
    }

    method Finish()
      modifies this
      ensures Contents() == FinishTx(old(Contents()))
    {
      if outstanding > 0 {
        outstanding := outstanding - 1;
      }
    }

    method Halt()
      modifies this
      ensures Contents() == HaltTx(old(Contents()))
    {
      stopped := true;
      queue := [];
    }
  }

  // ---- Threads ----------------------------------------------------------------------------------

  /**
   Where a worker's code stands between two shared accesses; `next` is what it does afterwards, so
   a directory processed inline carries its parent's loop along.
   */
  datatype Code =
    | Finish
    | Start(item: Item, next: Code)
    | OpenStream(item: Item, next: Code)
    | Read(item: Item, rest: Entries, next: Code)
    | Offer(child: Item, next: Code)
    | Send(message: Message, next: Code, refused: Code)
    | Push(message: Message, next: Code, refused: Code)
    | Announce(next: Code)
    | Halt(next: Code)

  datatype Worker = Idle | Waiting | Busy(code: Code) | Exited
  {
    predicate Active() {
      Idle? || Busy?
    }
  }

  /** After its loop the consumer stops everybody and then drops its end of the channel. */
  datatype Consumer = Listening | Leaving | Gone

  datatype Pool = Pool(
    work: Work, stop: bool, fatal: bool, channel: seq<Message>, received: seq<Message>,
    consumer: Consumer, workers: seq<Worker>)

  function Workers(n: nat): (ws: seq<Worker>)
    ensures |ws| == n && forall i | 0 <= i < n :: ws[i] == Idle
  {
    if n == 0 then [] else [Idle] + Workers(n - 1)
  }

  function Init(root: Directory, concurrency: nat): Pool {
    Pool(Work([Item([], root, true)], 1, false), false, false, [], [], Listening, Workers(concurrency))
  }

  function Woken(w: Worker): Worker {
    if w.Waiting? then Idle else w
  }

  function WakeAll(ws: seq<Worker>): (woken: seq<Worker>)
    ensures |woken| == |ws|
    ensures forall i | 0 <= i < |ws| :: woken[i] == Woken(ws[i])
  {
    if ws == [] then [] else [Woken(ws[0])] + WakeAll(ws[1..])
  }

  /** `wake` is the waiter the system picks. It may also pick none, which only allows more runs. */
  function WakeOne(ws: seq<Worker>, wake: nat): (woken: seq<Worker>)
    ensures |woken| == |ws|
  {
    if wake < |ws| then ws[wake := Woken(ws[wake])] else ws
  }

  /** A stream or directory that fails: fatal for the root, one error message otherwise. */
  function Fails(item: Item, fatal: bool, next: Code): Code {
    if item.root || fatal then Announce(next)
    else Send(Error(item.path, WholeDirectory), next, next)
  }

  /** The code a thread reaches by a step that touches no shared state but the two flags. */
  function Advance(code: Code, stop: bool, fatal: bool): Code
    requires code.Start? || code.OpenStream? || code.Read? || code.Send?
  {
    match code
    case Start(item, next) =>
      if stop || fatal then next else Send(Visited(item.path), OpenStream(item, next), next)
    case OpenStream(item, next) =>
      (match item.directory
       case Unreadable(f) => Fails(item, f, next)
       case Readable(entries) => Read(item, entries, next))
    case Read(item, rest, next) => if stop || fatal then next else ReadEntry(item, rest, next)
    case Send(message, next, refused) => if stop then refused else Push(message, next, refused)
  }

  function ReadEntry(item: Item, rest: Entries, next: Code): Code {
    match rest
    case End => next
    case Broken(fatal) => Fails(item, fatal, next)
    case More(name, entry, tail) =>
      var path, onward := item.path + [name], Read(item, tail, next);
      match entry
      case Regular => Send(File(path), onward, next)
      case Ignored => Send(Skipped(path), onward, next)
      case Failing(fatal, scope) => if fatal then Announce(next) else Send(Error(path, scope), onward, next)
      case Child(directory) => Offer(Item(path, directory, false), onward)
  }

  function Resume(p: Pool, i: nat, code: Code): Pool
    requires i < |p.workers|
  {
    p.(workers := p.workers[i := Busy(code)])
  }

  function Rouse(p: Pool): (r: Pool)
    ensures |r.workers| == |p.workers|
  {
    p.(workers := WakeAll(p.workers))
  }

  /** One shared access of a worker that is processing a directory. */
  function Run(p: Pool, i: nat, code: Code, wake: nat): Pool
    requires i < |p.workers|
  {
    match code
    case Finish =>
      var q := Rouse(p.(work := FinishTx(p.work)));
      q.(workers := q.workers[i := Idle])
    case Offer(child, next) =>
      var (work, accepted) := OfferTx(p.work, child);
      if accepted then Resume(p.(work := work, workers := WakeOne(p.workers, wake)), i, next)
      else Resume(p, i, Start(child, next))
    case Push(message, next, refused) =>
      if p.consumer.Gone? then Resume(p.(stop := true), i, Halt(refused))
      else if |p.channel| < CHANNEL_CAPACITY then Resume(p.(channel := p.channel + [message]), i, next)
      else p
    case Announce(next) =>
      if p.fatal then Resume(p, i, Halt(next))
      else Resume(p.(fatal := true), i, Send(Fatal, Halt(next), Halt(next)))
    case Halt(next) => Resume(Rouse(p.(work := HaltTx(p.work))), i, next)
    case _ => Resume(p, i, Advance(code, p.stop, p.fatal))
  }

  /** The top of a worker's loop. */
  function Poll(p: Pool, i: nat): Pool
    requires i < |p.workers|
  {
    var (work, polled) := PollTx(p.work, p.stop);
    var q := p.(work := work);
    match polled
    case Take(item) => Resume(q, i, Start(item, Finish))
    case Wait => q.(workers := q.workers[i := Waiting])
    case Leave => var r := Rouse(q); r.(workers := r.workers[i := Exited])
  }

  datatype Step =
    | Turn(worker: nat, wake: nat)
    | Receive
    | Break
    | Drop
    | SinkFails
    | Stop
    | Spurious(worker: nat)

  predicate AllExited(p: Pool) {
    forall i | 0 <= i < |p.workers| :: p.workers[i].Exited?
  }

  /** The step does something: a full channel blocks, a waiting thread sleeps, a finished one is gone. */
  predicate Enabled(p: Pool, s: Step) {
    match s
    case Turn(i, _) =>
      && i < |p.workers| && p.workers[i].Active()
      && !(p.workers[i].Busy? && p.workers[i].code.Push? && !p.consumer.Gone? && |p.channel| >= CHANNEL_CAPACITY)
    case Receive => p.consumer.Listening? && p.channel != []
    case Break => p.consumer.Listening? && (p.stop || (p.channel == [] && AllExited(p)))
    case Drop => p.consumer.Leaving?
    case SinkFails => p.consumer.Listening?
    case Stop => !p.stop
    case Spurious(i) => i < |p.workers| && p.workers[i].Waiting?
  }

  function Apply(p: Pool, s: Step): Pool
    requires Enabled(p, s)
  {
    match s
    case Turn(i, wake) => if p.workers[i].Idle? then Poll(p, i) else Run(p, i, p.workers[i].code, wake)
    case Receive =>
      p.(received := p.received + [p.channel[0]], channel := p.channel[1..], stop := p.stop || p.channel[0].Fatal?)
    case Break => p.(stop := true, consumer := Leaving)
    case Drop => p.(channel := [], consumer := Gone)
    case SinkFails => p.(stop := true, consumer := Leaving)
    case Stop => p.(stop := true)
    case Spurious(i) => p.(workers := p.workers[i := Idle])
  }

  /** The states of a run; a step that is not enabled leaves the state as it is. */
  function Exec(root: Directory, concurrency: nat, steps: seq<Step>): Pool {
    if steps == [] then Init(root, concurrency)
    else
      var p := Exec(root, concurrency, steps[..|steps| - 1]);
      var s := steps[|steps| - 1];
      if Enabled(p, s) then Apply(p, s) else p
  }
}
