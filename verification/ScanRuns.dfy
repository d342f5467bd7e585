/**
 Every interleaving of the scanner's threads, its consumer and outside stops: what all states keep,
 that an undisturbed scan delivers exactly what the tree deserves, that the pool never deadlocks and
 that every run ends.
 */
module ScanRuns {
  import opened ScanTree
  import opened ScanPool

  // ---- Counting over threads and queue ----------------------------------------------------------

  function ItemOwes(item: Item, m: Message): nat {
    DirectoryOwes(item.path, item.directory, item.root, m)
  }

  /** How many copies of `m` the code still sends if nothing stops it. */
  function Owes(code: Code, m: Message): nat {
    match code
    case Finish => 0
    case Start(item, next) => ItemOwes(item, m) + Owes(next, m)
    case OpenStream(item, next) => ContentsOwe(item.path, item.directory, item.root, m) + Owes(next, m)
    case Read(item, rest, next) => EntriesOwe(item.path, rest, item.root, m) + Owes(next, m)
    case Offer(child, next) => ItemOwes(child, m) + Owes(next, m)
    case Send(message, next, _) => Once(message, m) + Owes(next, m)
    case Push(message, next, _) => Once(message, m) + Owes(next, m)
    case Announce(next) => Owes(next, m)
    case Halt(next) => Owes(next, m)
  }

  /** A bound on the shared accesses a directory costs, whatever happens. */
  function Cost(d: Directory): nat
    decreases d
  {
    10 + if d.Readable? then EntriesCost(d.entries) else 0
  }

  function EntriesCost(entries: Entries): nat
    decreases entries
  {
    match entries
    case More(_, entry, rest) =>
      6 + (if entry.Child? then Cost(entry.directory) else 0) + EntriesCost(rest)
    case _ => 6
  }

  function Max(a: nat, b: nat): nat {
    if a < b then b else a
  }

  function CodeCost(code: Code): nat {
    match code
    case Finish => 1
    case Start(item, next) => Cost(item.directory) + CodeCost(next)
    case OpenStream(item, next) =>
      6 + (if item.directory.Readable? then EntriesCost(item.directory.entries) else 0) + CodeCost(next)
    case Read(_, rest, next) => EntriesCost(rest) + CodeCost(next)
    case Offer(child, next) => Cost(child.directory) + 3 + CodeCost(next)
    case Send(_, next, refused) => 3 + Max(CodeCost(next), CodeCost(refused))
    case Push(_, next, refused) => 2 + Max(CodeCost(next), CodeCost(refused))
    case Announce(next) => 5 + CodeCost(next)
    case Halt(next) => 1 + CodeCost(next)
  }

  function WorkerOwes(w: Worker, m: Message): nat {
    if w.Busy? then Owes(w.code, m) else 0
  }

  function WorkerCost(w: Worker): nat {
    if w.Busy? then CodeCost(w.code) else 0
  }

  /** Sleeping again after a wakeup and leaving for good are the only moves this pays for. */
  function Wakefulness(w: Worker, n: nat): nat {
    match w
    case Exited => 0
    case Waiting => n
    case _ => n + 1
  }

  function One(b: bool): nat {
    if b then 1 else 0
  }

  function AllOwe(ws: seq<Worker>, m: Message): nat {
    if ws == [] then 0 else WorkerOwes(ws[0], m) + AllOwe(ws[1..], m)
  }

  function AllCost(ws: seq<Worker>): nat {
    if ws == [] then 0 else WorkerCost(ws[0]) + AllCost(ws[1..])
  }

  function AllWakefulness(ws: seq<Worker>, n: nat): nat {
    if ws == [] then 0 else Wakefulness(ws[0], n) + AllWakefulness(ws[1..], n)
  }

  function BusyCount(ws: seq<Worker>): nat {
    if ws == [] then 0 else One(ws[0].Busy?) + BusyCount(ws[1..])
  }

  function QueueOwes(queue: seq<Item>, m: Message): nat {
    if queue == [] then 0 else ItemOwes(queue[0], m) + QueueOwes(queue[1..], m)
  }

  function QueueCost(queue: seq<Item>): nat {
    if queue == [] then 0 else Cost(queue[0].directory) + 2 + QueueCost(queue[1..])
  }

  lemma {:induction false} Replace(ws: seq<Worker>, i: nat, w: Worker, m: Message, n: nat)
    requires i < |ws|
    ensures AllOwe(ws[i := w], m) + WorkerOwes(ws[i], m) == AllOwe(ws, m) + WorkerOwes(w, m)
    ensures AllCost(ws[i := w]) + WorkerCost(ws[i]) == AllCost(ws) + WorkerCost(w)
    ensures AllWakefulness(ws[i := w], n) + Wakefulness(ws[i], n) == AllWakefulness(ws, n) + Wakefulness(w, n)
    ensures BusyCount(ws[i := w]) + One(ws[i].Busy?) == BusyCount(ws) + One(w.Busy?)
  {
    if i > 0 {
      Replace(ws[1..], i - 1, w, m, n);
      assert ws[i := w][1..] == ws[1..][i - 1 := w];
    } else {
      assert ws[0 := w][1..] == ws[1..];
    }
  }

  lemma {:induction false} WakingAll(ws: seq<Worker>, m: Message, n: nat)
    ensures AllOwe(WakeAll(ws), m) == AllOwe(ws, m)
    ensures AllCost(WakeAll(ws)) == AllCost(ws)
    ensures AllWakefulness(WakeAll(ws), n) <= AllWakefulness(ws, n) + |ws|
    ensures BusyCount(WakeAll(ws)) == BusyCount(ws)
  {
    if ws != [] {
      WakingAll(ws[1..], m, n);
    }
  }

  lemma WakingOne(ws: seq<Worker>, wake: nat, m: Message, n: nat)
    ensures AllOwe(WakeOne(ws, wake), m) == AllOwe(ws, m)
    ensures AllCost(WakeOne(ws, wake)) == AllCost(ws)
    ensures AllWakefulness(WakeOne(ws, wake), n) <= AllWakefulness(ws, n) + 1
    ensures BusyCount(WakeOne(ws, wake)) == BusyCount(ws)
  {
    if wake < |ws| {
      Replace(ws, wake, Woken(ws[wake]), m, n);
    }
  }

  lemma {:induction false} Append(queue: seq<Item>, item: Item, m: Message)
    ensures QueueOwes(queue + [item], m) == QueueOwes(queue, m) + ItemOwes(item, m)
    ensures QueueCost(queue + [item]) == QueueCost(queue) + Cost(item.directory) + 2
  {
    if queue == [] {
      assert queue + [item] == [item];
      assert [item][1..] == [];
    } else {
      Append(queue[1..], item, m);
      assert (queue + [item])[1..] == queue[1..] + [item];
    }
  }

  lemma {:induction false} BusyCounts(ws: seq<Worker>, i: nat)
    requires i < |ws| && ws[i].Busy?
    ensures BusyCount(ws) >= 1
  {
    if i > 0 {
      BusyCounts(ws[1..], i - 1);
    }
  }

  lemma {:induction false} SomeoneBusy(ws: seq<Worker>) returns (i: nat)
    requires BusyCount(ws) >= 1
    ensures i < |ws| && ws[i].Busy?
  {
    if ws[0].Busy? {
      i := 0;
    } else {
      i := SomeoneBusy(ws[1..]);
      i := i + 1;
    }
  }

  lemma {:induction false} NobodyBusy(ws: seq<Worker>, m: Message)
    requires forall i | 0 <= i < |ws| :: !ws[i].Busy?
    ensures AllOwe(ws, m) == 0 && BusyCount(ws) == 0 && AllCost(ws) == 0
  {
    if ws != [] {
      NobodyBusy(ws[1..], m);
    }
  }

  // ---- What every state keeps -------------------------------------------------------------------

  /** The code is on its way to stop the pool, or has found a fatal failure to tell about. */
  predicate Stopping(code: Code) {
    match code
    case Finish => false
    case Send(message, next, refused) => message.Fatal? || Stopping(next) || Stopping(refused)
    case Push(message, next, refused) => message.Fatal? || Stopping(next) || Stopping(refused)
    case Halt(_) => true
    case Start(_, next) => Stopping(next)
    case OpenStream(_, next) => Stopping(next)
    case Read(_, _, next) => Stopping(next)
    case Offer(_, next) => Stopping(next)
    case Announce(next) => Stopping(next)
  }

  predicate Calm(p: Pool) {
    !p.stop && !p.fatal
  }

  ghost predicate Bounded(p: Pool) {
    |p.work.queue| <= QUEUE_CAPACITY && |p.channel| <= CHANNEL_CAPACITY
  }

  /** `outstanding` counts the queued and the running directories; a halt may only discard from it. */
  ghost predicate Counted(p: Pool) {
    && p.work.outstanding >= |p.work.queue| + BusyCount(p.workers)
    && (!p.work.stopped ==> p.work.outstanding == |p.work.queue| + BusyCount(p.workers))
  }

  ghost predicate Awake(ws: seq<Worker>) {
    exists j :: 0 <= j < |ws| && ws[j].Active()
  }

  /** Whoever sleeps has somebody awake who wakes everybody before leaving or sleeping too. */
  ghost predicate Watched(ws: seq<Worker>) {
    forall i | 0 <= i < |ws| && ws[i].Waiting? :: Awake(ws)
  }

  ghost predicate Quiet(p: Pool, w: Worker) {
    && (w.Busy? && Stopping(w.code) ==> !Calm(p))
    && (w.Exited? ==> p.work.stopped)
  }

  ghost predicate Settled(p: Pool) {
    && (forall i | 0 <= i < |p.workers| :: Quiet(p, p.workers[i]))
    && (Calm(p) && p.work.stopped ==> p.work.outstanding == 0)
    && (!p.consumer.Listening? ==> p.stop)
  }

  function Accounted(p: Pool, m: Message): nat {
    multiset(p.received)[m] + multiset(p.channel)[m] + QueueOwes(p.work.queue, m) + AllOwe(p.workers, m)
  }

  /** Until somebody stops, every message is received, in the channel, or still owed by exactly one party. */
  ghost predicate Conserved(p: Pool, root: Directory) {
    Calm(p) ==> forall m :: Accounted(p, m) == DirectoryOwes([], root, true, m)
  }

  ghost predicate Ok(p: Pool, root: Directory) {
    Bounded(p) && Counted(p) && Watched(p.workers) && Settled(p) && Conserved(p, root)
  }

  // ---- Steps keep it, and use up a budget -------------------------------------------------------

  function WorkLeft(p: Pool): nat {
    QueueCost(p.work.queue) + AllCost(p.workers)
  }

  function ConsumerLeft(c: Consumer): nat {
    match c case Listening => 2 case Leaving => 1 case Gone => 0
  }

  function Slack(p: Pool): nat {
    AllWakefulness(p.workers, |p.workers|) + |p.channel| + One(!p.stop) + ConsumerLeft(p.consumer)
  }

  /** One unit of work pays for waking everybody and for one message in the channel. */
  predicate Spends(p: Pool, q: Pool) {
    && |q.workers| == |p.workers|
    && ((WorkLeft(q) < WorkLeft(p) && Slack(q) <= Slack(p) + |p.workers| + 1)
        || (WorkLeft(q) <= WorkLeft(p) && Slack(q) < Slack(p)))
  }

  lemma SendOwes(message: Message, next: Code, refused: Code, m: Message)
    ensures Owes(Send(message, next, refused), m) == Once(message, m) + Owes(next, m)
  {
  }

  lemma ReadOneOwes(item: Item, name: nat, entry: Entry, tail: Entries, next: Code, m: Message)
    requires !(entry.Failing? && entry.fatal)
    ensures Owes(ReadEntry(item, More(name, entry, tail), next), m)
            == EntryOwes(item.path + [name], entry, m) + Owes(Read(item, tail, next), m)
  {
    var path, onward := item.path + [name], Read(item, tail, next);
    match entry
    case Regular => SendOwes(File(path), onward, next, m);
    case Ignored => SendOwes(Skipped(path), onward, next, m);
    case Failing(_, scope) => SendOwes(Error(path, scope), onward, next, m);
    case Child(directory) => assert ItemOwes(Item(path, directory, false), m) == EntryOwes(path, entry, m);
  }

  lemma ReadEntryOwes(item: Item, rest: Entries, next: Code, m: Message)
    ensures Owes(ReadEntry(item, rest, next), m) == EntriesOwe(item.path, rest, item.root, m) + Owes(next, m)
  {
    if rest.More? && !(rest.entry.Failing? && rest.entry.fatal) {
      ReadOneOwes(item, rest.name, rest.entry, rest.rest, next, m);
    }
  }

  lemma ReadEntryCosts(item: Item, rest: Entries, next: Code)
    ensures CodeCost(ReadEntry(item, rest, next)) < EntriesCost(rest) + CodeCost(next)
    ensures Stopping(ReadEntry(item, rest, next)) ==> Stopping(next)
  {
    if rest.More? {
      var tail := Read(item, rest.rest, next);
      assert CodeCost(tail) == EntriesCost(rest.rest) + CodeCost(next);
      assert Stopping(tail) == Stopping(next);
    }
  }

  lemma AdvanceOwes(code: Code, m: Message)
    requires code.Start? || code.OpenStream? || code.Read? || code.Send?
    ensures Owes(Advance(code, false, false), m) == Owes(code, m)
  {
    match code
    case Start(item, next) =>
    case OpenStream(item, next) =>
    case Read(item, rest, next) => ReadEntryOwes(item, rest, next, m);
    case Send(_, _, _) =>
  }

  lemma AdvanceCosts(code: Code, stop: bool, fatal: bool)
    requires code.Start? || code.OpenStream? || code.Read? || code.Send?
    ensures CodeCost(Advance(code, stop, fatal)) < CodeCost(code)
    ensures Stopping(Advance(code, stop, fatal)) ==> Stopping(code)
  {
    match code
    case Start(item, next) =>
      var opening := OpenStream(item, next);
      assert CodeCost(opening) + 4 == CodeCost(code);
      assert Stopping(opening) == Stopping(next);
    case OpenStream(item, next) =>
    case Read(item, rest, next) => ReadEntryCosts(item, rest, next);
    case Send(_, _, _) =>
  }

  /** A thread that goes on alone, leaving the shared work as it is. */
  lemma ResumeKeeps(p: Pool, i: nat, code: Code, root: Directory)
    requires Ok(p, root) && i < |p.workers| && p.workers[i].Busy?
    requires CodeCost(code) < CodeCost(p.workers[i].code)
    requires Stopping(code) ==> !Calm(p)
    requires Calm(p) ==> forall m :: Owes(code, m) == Owes(p.workers[i].code, m)
    ensures Ok(Resume(p, i, code), root) && Spends(p, Resume(p, i, code))
  {
    var q := Resume(p, i, code);
    forall m
      ensures Calm(p) ==> Accounted(q, m) == Accounted(p, m)
      ensures BusyCount(q.workers) == BusyCount(p.workers)
      ensures Spends(p, q)
    {
      Replace(p.workers, i, Busy(code), m, |p.workers|);
    }
    assert Spends(p, q) && BusyCount(q.workers) == BusyCount(p.workers) by {
      Replace(p.workers, i, Busy(code), Fatal, |p.workers|);
    }
    assert q.workers[i].Active();
  }

  lemma LocalKeeps(p: Pool, i: nat, root: Directory)
    requires Ok(p, root) && i < |p.workers| && p.workers[i].Busy?
    requires var code := p.workers[i].code; code.Start? || code.OpenStream? || code.Read? || code.Send?
    ensures var q := Resume(p, i, Advance(p.workers[i].code, p.stop, p.fatal)); Ok(q, root) && Spends(p, q)
  {
    var code := p.workers[i].code;
    assert Quiet(p, p.workers[i]);
    AdvanceCosts(code, p.stop, p.fatal);
    forall m
      ensures Owes(Advance(code, false, false), m) == Owes(code, m)
    {
      AdvanceOwes(code, m);
    }
    ResumeKeeps(p, i, Advance(code, p.stop, p.fatal), root);
  }

  lemma AnnounceKeeps(p: Pool, i: nat, root: Directory)
    requires Ok(p, root) && i < |p.workers| && p.workers[i].Busy? && p.workers[i].code.Announce?
    ensures var q := Run(p, i, p.workers[i].code, 0); Ok(q, root) && Spends(p, q)
  {
    var code := p.workers[i].code;
    var r := p.(fatal := true);
    assert Ok(r, root) by {
      forall j | 0 <= j < |p.workers|
        ensures Quiet(r, r.workers[j])
      {
        assert Quiet(p, p.workers[j]);
      }
    }
    ResumeKeeps(r, i, if p.fatal then Halt(code.next) else Send(Fatal, Halt(code.next), Halt(code.next)), root);
    assert p.fatal ==> r == p;
  }

  lemma PushKeeps(p: Pool, i: nat, root: Directory)
    requires Ok(p, root) && i < |p.workers| && p.workers[i].Busy? && p.workers[i].code.Push?
    requires p.consumer.Gone? || |p.channel| < CHANNEL_CAPACITY
    ensures var q := Run(p, i, p.workers[i].code, 0); Ok(q, root) && Spends(p, q)
  {
    var code := p.workers[i].code;
    assert Quiet(p, p.workers[i]);
    if p.consumer.Gone? {
      assert p.(stop := true) == p;
      ResumeKeeps(p, i, Halt(code.refused), root);
    } else {
      var q := Resume(p.(channel := p.channel + [code.message]), i, code.next);
      forall m
        ensures Calm(p) ==> Accounted(q, m) == Accounted(p, m)
      {
        Replace(p.workers, i, Busy(code.next), m, |p.workers|);
      }
      Replace(p.workers, i, Busy(code.next), Fatal, |p.workers|);
      assert q.workers[i].Active();
      forall j | 0 <= j < |q.workers|
        ensures Quiet(q, q.workers[j])
      {
        assert Quiet(p, p.workers[j]);
      }
    }
  }

  lemma EnqueueKeeps(p: Pool, i: nat, wake: nat, root: Directory)
    requires Ok(p, root) && i < |p.workers| && p.workers[i].Busy? && p.workers[i].code.Offer?
    requires |p.work.queue| < QUEUE_CAPACITY
    ensures var q := Run(p, i, p.workers[i].code, wake); Ok(q, root) && Spends(p, q)
  {
    var code, n := p.workers[i].code, |p.workers|;
    assert Quiet(p, p.workers[i]);
    var q := Run(p, i, code, wake);
    var roused := WakeOne(p.workers, wake);
    assert q.workers == roused[i := Busy(code.next)] && roused[i] == p.workers[i];
    forall m
      ensures Calm(p) ==> Accounted(q, m) == Accounted(p, m)
    {
      WakingOne(p.workers, wake, m, n);
      Replace(roused, i, Busy(code.next), m, n);
      Append(p.work.queue, code.child, m);
    }
    assert Counted(q) && Spends(p, q) by {
      WakingOne(p.workers, wake, Fatal, n);
      Replace(roused, i, Busy(code.next), Fatal, n);
      Append(p.work.queue, code.child, Fatal);
    }
    BusyCounts(p.workers, i);
    assert q.workers[i].Active();
    forall j | 0 <= j < |q.workers|
      ensures Quiet(q, q.workers[j])
    {
      assert Quiet(p, p.workers[j]);
    }
  }

  /** With the queue full the directory is processed on the spot, before the rest of its parent. */
  lemma InlineKeeps(p: Pool, i: nat, wake: nat, root: Directory)
    requires Ok(p, root) && i < |p.workers| && p.workers[i].Busy? && p.workers[i].code.Offer?
    requires |p.work.queue| == QUEUE_CAPACITY
    ensures var q := Run(p, i, p.workers[i].code, wake); Ok(q, root) && Spends(p, q)
  {
    var code := p.workers[i].code;
    assert Quiet(p, p.workers[i]);
    assert forall m :: Owes(Start(code.child, code.next), m) == Owes(code, m);
    ResumeKeeps(p, i, Start(code.child, code.next), root);
  }

  lemma HaltKeeps(p: Pool, i: nat, root: Directory)
    requires Ok(p, root) && i < |p.workers| && p.workers[i].Busy? && p.workers[i].code.Halt?
    ensures var q := Run(p, i, p.workers[i].code, 0); Ok(q, root) && Spends(p, q)
  {
    var code, n := p.workers[i].code, |p.workers|;
    assert Quiet(p, p.workers[i]);
    var q := Run(p, i, code, 0);
    var roused := WakeAll(p.workers);
    WakingAll(p.workers, Fatal, n);
    Replace(roused, i, Busy(code.next), Fatal, n);
    forall j | 0 <= j < |q.workers|
      ensures Quiet(q, q.workers[j]) && !q.workers[j].Waiting?
    {
      assert Quiet(p, p.workers[j]);
    }
  }

  lemma FinishKeeps(p: Pool, i: nat, root: Directory)
    requires Ok(p, root) && i < |p.workers| && p.workers[i].Busy? && p.workers[i].code.Finish?
    ensures var q := Run(p, i, p.workers[i].code, 0); Ok(q, root) && Spends(p, q)
  {
    var n := |p.workers|;
    var q := Run(p, i, Finish, 0);
    var roused := WakeAll(p.workers);
    forall m
      ensures Calm(p) ==> Accounted(q, m) == Accounted(p, m)
    {
      WakingAll(p.workers, m, n);
      Replace(roused, i, Idle, m, n);
    }
    WakingAll(p.workers, Fatal, n);
    Replace(roused, i, Idle, Fatal, n);
    BusyCounts(p.workers, i);
    forall j | 0 <= j < |q.workers|
      ensures Quiet(q, q.workers[j]) && !q.workers[j].Waiting?
    {
      assert Quiet(p, p.workers[j]);
    }
  }

  lemma TakeKeeps(p: Pool, i: nat, root: Directory)
    requires Ok(p, root) && i < |p.workers| && p.workers[i].Idle?
    requires PollTx(p.work, p.stop).1.Take?
    ensures Ok(Poll(p, i), root) && Spends(p, Poll(p, i))
  {
    var n, q := |p.workers|, Poll(p, i);
    var item := p.work.queue[0];
    var code := Start(item, Finish);
    var done := code.next;
    assert done == Finish && CodeCost(done) == 1 && !Stopping(done);
    assert !Stopping(code) && CodeCost(code) == Cost(item.directory) + 1;
    forall m
      ensures Calm(p) ==> Accounted(q, m) == Accounted(p, m)
    {
      assert Owes(done, m) == 0;
      assert Owes(code, m) == ItemOwes(item, m);
      Replace(p.workers, i, Busy(code), m, n);
    }
    Replace(p.workers, i, Busy(code), Fatal, n);
    assert q.workers[i].Active();
    forall j | 0 <= j < n
      ensures Quiet(q, q.workers[j])
    {
      assert Quiet(p, p.workers[j]);
    }
  }

  lemma SleepKeeps(p: Pool, i: nat, root: Directory)
    requires Ok(p, root) && i < |p.workers| && p.workers[i].Idle?
    requires PollTx(p.work, p.stop).1.Wait?
    ensures Ok(Poll(p, i), root) && Spends(p, Poll(p, i))
  {
    var n, q := |p.workers|, Poll(p, i);
    forall m
      ensures Calm(p) ==> Accounted(q, m) == Accounted(p, m)
    {
      Replace(p.workers, i, Waiting, m, n);
    }
    Replace(p.workers, i, Waiting, Fatal, n);
    var j := SomeoneBusy(q.workers);
    assert q.workers[j].Active();
    forall j | 0 <= j < n
      ensures Quiet(q, q.workers[j])
    {
      assert Quiet(p, p.workers[j]);
    }
  }

  /** Clearing the queue on the way out discards nothing unless somebody stopped the scan. */
  lemma LeaveKeeps(p: Pool, i: nat, root: Directory)
    requires Ok(p, root) && i < |p.workers| && p.workers[i].Idle?
    requires PollTx(p.work, p.stop).1.Leave?
    ensures Ok(Poll(p, i), root) && Spends(p, Poll(p, i))
    ensures p.work.outstanding == 0 || Calm(p) ==> p.work.queue == []
  {
    var n, q := |p.workers|, Poll(p, i);
    var roused := WakeAll(p.workers);
    forall m
      ensures Calm(p) ==> Accounted(q, m) == Accounted(p, m)
    {
      WakingAll(p.workers, m, n);
      Replace(roused, i, Exited, m, n);
    }
    WakingAll(p.workers, Fatal, n);
    Replace(roused, i, Exited, Fatal, n);
    forall j | 0 <= j < n
      ensures Quiet(q, q.workers[j]) && !q.workers[j].Waiting?
    {
      assert Quiet(p, p.workers[j]);
    }
  }

  lemma TurnKeeps(p: Pool, s: Step, root: Directory)
    requires Ok(p, root) && s.Turn? && Enabled(p, s)
    ensures Ok(Apply(p, s), root) && Spends(p, Apply(p, s))
  {
    var i := s.worker;
    if p.workers[i].Idle? {
      match PollTx(p.work, p.stop).1
      case Take(_) => TakeKeeps(p, i, root);
      case Wait => SleepKeeps(p, i, root);
      case Leave => LeaveKeeps(p, i, root);
    } else {
      match p.workers[i].code
      case Finish => FinishKeeps(p, i, root);
      case Offer(_, _) =>
        if |p.work.queue| < QUEUE_CAPACITY { EnqueueKeeps(p, i, s.wake, root); } else { InlineKeeps(p, i, s.wake, root); }
      case Push(_, _, _) => PushKeeps(p, i, root);
      case Announce(_) => AnnounceKeeps(p, i, root);
      case Halt(_) => HaltKeeps(p, i, root);
      case _ => LocalKeeps(p, i, root);
    }
  }

  lemma StoppingKeeps(p: Pool, q: Pool)
    requires Settled(p) && q.stop && q.workers == p.workers && q.work == p.work
    ensures Settled(q)
  {
    forall i | 0 <= i < |q.workers|
      ensures Quiet(q, q.workers[i])
    {
      assert Quiet(p, p.workers[i]);
    }
  }

  lemma ReceiveKeeps(p: Pool, root: Directory)
    requires Ok(p, root) && Enabled(p, Receive)
    ensures Ok(Apply(p, Receive), root) && Spends(p, Apply(p, Receive))
  {
    var q := Apply(p, Receive);
    assert p.channel == [p.channel[0]] + p.channel[1..];
    assert forall m :: Accounted(q, m) == Accounted(p, m);
    forall i | 0 <= i < |q.workers|
      ensures Quiet(q, q.workers[i])
    {
      assert Quiet(p, p.workers[i]);
    }
  }

  lemma SpuriousKeeps(p: Pool, i: nat, root: Directory)
    requires Ok(p, root) && Enabled(p, Spurious(i))
    ensures Ok(Apply(p, Spurious(i)), root)
  {
    var q := Apply(p, Spurious(i));
    forall m
      ensures Accounted(q, m) == Accounted(p, m)
    {
      Replace(p.workers, i, Idle, m, 0);
    }
    Replace(p.workers, i, Idle, Fatal, 0);
    assert q.workers[i].Active();
    forall j | 0 <= j < |q.workers|
      ensures Quiet(q, q.workers[j])
    {
      assert Quiet(p, p.workers[j]);
    }
  }

  /** Every step keeps the invariants, and every step but a spurious wakeup spends from a budget. */
  lemma StepKeeps(p: Pool, s: Step, root: Directory)
    requires Ok(p, root) && Enabled(p, s)
    ensures Ok(Apply(p, s), root)
    ensures !s.Spurious? ==> Spends(p, Apply(p, s))
  {
    match s
    case Turn(_, _) => TurnKeeps(p, s, root);
    case Receive => ReceiveKeeps(p, root);
    case Spurious(i) => SpuriousKeeps(p, i, root);
    case _ => StoppingKeeps(p, Apply(p, s));
  }

  lemma {:induction false} WorkersIdle(n: nat, m: Message)
    ensures AllOwe(Workers(n), m) == 0 && BusyCount(Workers(n)) == 0 && AllCost(Workers(n)) == 0
  {
    NobodyBusy(Workers(n), m);
  }

  lemma InitIsOk(root: Directory, concurrency: nat)
    ensures Ok(Init(root, concurrency), root)
  {
    var p := Init(root, concurrency);
    forall m
      ensures Accounted(p, m) == DirectoryOwes([], root, true, m)
      ensures BusyCount(p.workers) == 0
    {
      WorkersIdle(concurrency, m);
      Append([], Item([], root, true), m);
      assert p.work.queue == [] + [Item([], root, true)];
    }
    WorkersIdle(concurrency, Fatal);
  }

  lemma {:induction false} EveryStateIsOk(root: Directory, concurrency: nat, steps: seq<Step>)
    ensures Ok(Exec(root, concurrency, steps), root)
    ensures |Exec(root, concurrency, steps).workers| == concurrency
  {
    if steps == [] {
      InitIsOk(root, concurrency);
    } else {
      EveryStateIsOk(root, concurrency, steps[..|steps| - 1]);
      var p, s := Exec(root, concurrency, steps[..|steps| - 1]), steps[|steps| - 1];
      if Enabled(p, s) {
        StepKeeps(p, s, root);
      }
    }
  }

  // ---- Bounds and wakeups -----------------------------------------------------------------------

  /**
   In every state of every run the queue and the channel stay within their capacities, a finishing
   worker still finds itself counted, giving up because nothing is outstanding discards no directory,
   and whoever sleeps while the pool is running has a worker that polls or is busy.
   */
  lemma PoolStaysInBounds(root: Directory, concurrency: nat, steps: seq<Step>, i: nat)
    ensures var p := Exec(root, concurrency, steps);
            && |p.work.queue| <= QUEUE_CAPACITY
            && |p.channel| <= CHANNEL_CAPACITY
            && (p.work.outstanding == 0 ==> p.work.queue == [])
            && (i < |p.workers| && p.workers[i] == Busy(Finish) ==>
                  p.work.outstanding >= 1 && FinishTx(p.work).outstanding == p.work.outstanding - 1)
            && (i < |p.workers| && p.workers[i].Waiting? ==> exists j :: 0 <= j < |p.workers| && p.workers[j].Active())
            && (!p.work.stopped ==> p.work.outstanding == |p.work.queue| + BusyCount(p.workers))
  {
    EveryStateIsOk(root, concurrency, steps);
    var p := Exec(root, concurrency, steps);
    if i < |p.workers| && p.workers[i].Busy? {
      BusyCounts(p.workers, i);
    }
  }

  // ---- What an undisturbed scan delivers --------------------------------------------------------

  predicate SoundCode(code: Code) {
    match code
    case Finish => true
    case Start(item, next) => Sound(item.directory, item.root) && SoundCode(next)
    case OpenStream(item, next) => Sound(item.directory, item.root) && SoundCode(next)
    case Read(item, rest, next) => SoundEntries(rest, item.root) && SoundCode(next)
    case Offer(child, next) => Sound(child.directory, child.root) && SoundCode(next)
    case Send(message, next, refused) => !message.Fatal? && SoundCode(next) && SoundCode(refused)
    case Push(message, next, refused) => !message.Fatal? && SoundCode(next) && SoundCode(refused)
    case Announce(_) => false
    case Halt(next) => SoundCode(next)
  }

  ghost predicate SoundPool(p: Pool) {
    && !p.fatal
    && (forall i | 0 <= i < |p.work.queue| :: Sound(p.work.queue[i].directory, p.work.queue[i].root))
    && (forall i | 0 <= i < |p.workers| && p.workers[i].Busy? :: SoundCode(p.workers[i].code))
  }

  lemma SoundAdvance(code: Code, stop: bool)
    requires SoundCode(code)
    requires code.Start? || code.OpenStream? || code.Read? || code.Send?
    ensures SoundCode(Advance(code, stop, false))
  {
    match code
    case Start(item, next) => assert SoundCode(OpenStream(item, next));
    case OpenStream(item, next) =>
    case Read(item, rest, next) =>
      if rest.More? {
        assert SoundCode(Read(item, rest.rest, next));
      }
    case Send(_, _, _) =>
  }

  lemma SoundTurn(p: Pool, i: nat, wake: nat)
    requires SoundPool(p) && i < |p.workers| && p.workers[i].Busy?
    ensures SoundPool(Run(p, i, p.workers[i].code, wake))
  {
    var code := p.workers[i].code;
    if code.Start? || code.OpenStream? || code.Read? || code.Send? {
      SoundAdvance(code, p.stop);
    }
  }

  lemma SoundStep(p: Pool, s: Step)
    requires SoundPool(p) && Enabled(p, s)
    ensures SoundPool(Apply(p, s))
  {
    if s.Turn? && p.workers[s.worker].Busy? {
      SoundTurn(p, s.worker, s.wake);
    } else if s.Turn? && PollTx(p.work, p.stop).1.Take? {
      assert SoundCode(Start(p.work.queue[0], Finish));
    }
  }

  /** Without a fatal failure in the tree nothing raises the fatal flag. */
  lemma {:induction false} SoundTreesNeverTurnFatal(root: Directory, concurrency: nat, steps: seq<Step>)
    requires Sound(root, true)
    ensures SoundPool(Exec(root, concurrency, steps))
  {
    if steps != [] {
      SoundTreesNeverTurnFatal(root, concurrency, steps[..|steps| - 1]);
      var p, s := Exec(root, concurrency, steps[..|steps| - 1]), steps[|steps| - 1];
      if Enabled(p, s) {
        SoundStep(p, s);
      }
    }
  }

  /** Nothing is left over once every worker has exited and the channel has run dry. */
  lemma NothingLeftOver(p: Pool, root: Directory, m: Message)
    requires Ok(p, root) && Calm(p) && |p.workers| >= 1
    requires AllExited(p) && p.channel == []
    ensures multiset(p.received)[m] == DirectoryOwes([], root, true, m)
  {
    NobodyBusy(p.workers, m);
    assert Quiet(p, p.workers[0]);
    assert p.work.queue == [];
    assert Accounted(p, m) == DirectoryOwes([], root, true, m);
  }

  /**
   The scan's promise. When the channel ends without anybody having stopped the scan, the consumer has
   received every message the tree deserves exactly once, whatever the number of workers and however
   they were interleaved: one visit for each reachable directory, and one file, skip or error for
   each other entry, children processed inline included.
   */
  lemma ScanReportsTheTreeExactlyOnce(root: Directory, concurrency: nat, steps: seq<Step>, m: Message)
    requires concurrency >= 1 && Sound(root, true) && Distinct(root)
    requires var p := Exec(root, concurrency, steps); AllExited(p) && p.channel == [] && !p.stop
    ensures multiset(Exec(root, concurrency, steps).received)[m]
            == if !m.Fatal? && Reports(root, m.path, m) then 1 else 0
  {
    EveryStateIsOk(root, concurrency, steps);
    SoundTreesNeverTurnFatal(root, concurrency, steps);
    NothingLeftOver(Exec(root, concurrency, steps), root, m);
    EachDeservedMessageOnce([], root, true, m);
    if !m.Fatal? {
      assert m.path[0..] == m.path;
    }
  }

  // ---- Progress and termination -----------------------------------------------------------------

  predicate Over(p: Pool) {
    AllExited(p) && p.consumer.Gone?
  }

  /** In every state a thread or the consumer can move by itself, until all are done. */
  lemma NeverDeadlocks(root: Directory, concurrency: nat, steps: seq<Step>) returns (s: Step)
    requires !Over(Exec(root, concurrency, steps))
    ensures Enabled(Exec(root, concurrency, steps), s)
    ensures s.Turn? || s.Receive? || s.Break? || s.Drop?
  {
    EveryStateIsOk(root, concurrency, steps);
    var p := Exec(root, concurrency, steps);
    if p.consumer.Listening? && p.channel != [] {
      s := Receive;
    } else if p.consumer.Leaving? {
      s := Drop;
    } else if AllExited(p) {
      s := Break;
    } else {
      var i :| 0 <= i < |p.workers| && !p.workers[i].Exited?;
      if p.workers[i].Waiting? {
        assert Awake(p.workers);
      }
      var j :| 0 <= j < |p.workers| && p.workers[j].Active();
      s := Turn(j, 0);
    }
  }

  function Measure(p: Pool): nat {
    (|p.workers| + 2) * WorkLeft(p) + Slack(p)
  }

  lemma {:induction false} Scaled(k: nat, before: nat, after: nat)
    requires after <= before
    ensures k * after <= k * before
    ensures after < before ==> k * after + k <= k * before
  {
    if k > 0 {
      Scaled(k - 1, before, after);
      assert k * after == (k - 1) * after + after;
      assert k * before == (k - 1) * before + before;
    }
  }

  lemma SpendingLowersMeasure(p: Pool, q: Pool)
    requires Spends(p, q)
    ensures Measure(q) < Measure(p)
  {
    Scaled(|p.workers| + 2, WorkLeft(p), WorkLeft(q));
  }

  /** How many steps of the run did something other than wake a thread for no reason. */
  function Moves(root: Directory, concurrency: nat, steps: seq<Step>): nat {
    if steps == [] then 0
    else
      var earlier, s := steps[..|steps| - 1], steps[|steps| - 1];
      Moves(root, concurrency, earlier)
        + One(Enabled(Exec(root, concurrency, earlier), s) && !s.Spurious?)
  }

  function Wakeups(root: Directory, concurrency: nat, steps: seq<Step>): nat {
    if steps == [] then 0
    else
      var earlier, s := steps[..|steps| - 1], steps[|steps| - 1];
      Wakeups(root, concurrency, earlier) + One(Enabled(Exec(root, concurrency, earlier), s) && s.Spurious?)
  }

  lemma WakingUpCosts(p: Pool, i: nat)
    requires Enabled(p, Spurious(i))
    ensures Measure(Apply(p, Spurious(i))) == Measure(p) + 1
  {
    Replace(p.workers, i, Idle, Fatal, |p.workers|);
  }

  lemma {:induction false} MovesSpendTheMeasure(root: Directory, concurrency: nat, steps: seq<Step>)
    ensures Moves(root, concurrency, steps) + Measure(Exec(root, concurrency, steps))
            <= Measure(Init(root, concurrency)) + Wakeups(root, concurrency, steps)
  {
    if steps != [] {
      var earlier, s := steps[..|steps| - 1], steps[|steps| - 1];
      MovesSpendTheMeasure(root, concurrency, earlier);
      EveryStateIsOk(root, concurrency, earlier);
      var p := Exec(root, concurrency, earlier);
      if Enabled(p, s) {
        if s.Spurious? {
          WakingUpCosts(p, s.worker);
        } else {
          StepKeeps(p, s, root);
          SpendingLowersMeasure(p, Apply(p, s));
        }
      }
    }
  }

  lemma {:induction false} IdleWakefulness(k: nat, n: nat)
    ensures AllWakefulness(Workers(k), n) == k * (n + 1)
  {
    if k > 0 {
      IdleWakefulness(k - 1, n);
      assert Workers(k)[1..] == Workers(k - 1);
    }
  }

  lemma InitialBudget(root: Directory, concurrency: nat)
    ensures Measure(Init(root, concurrency))
            == (concurrency + 2) * (Cost(root) + 2) + concurrency * (concurrency + 1) + 3
  {
    WorkersIdle(concurrency, Fatal);
    IdleWakefulness(concurrency, concurrency);
    Append([], Item([], root, true), Fatal);
    assert Init(root, concurrency).work.queue == [] + [Item([], root, true)];
    assert WorkLeft(Init(root, concurrency)) == Cost(root) + 2;
  }

  /**
   Every run ends: whatever the interleaving, failures and stops included, the moves of a run are
   bounded by the size of the tree and the number of workers, plus one for each spurious wakeup.
   */
  lemma EveryRunEnds(root: Directory, concurrency: nat, steps: seq<Step>)
    ensures Moves(root, concurrency, steps)
            <= (concurrency + 2) * (Cost(root) + 2) + concurrency * (concurrency + 1) + 3
               + Wakeups(root, concurrency, steps)
  {
    InitialBudget(root, concurrency);
    MovesSpendTheMeasure(root, concurrency, steps);
  }
}
