/**
 The consumer loop of the scanner: it collects files and errors, checkpoints them to a sink and decides
 what the scan returns. The specification says which stretch of the messages each batch covers.
 */
module ScanConsumer {
  import opened Outcomes
  import opened ScanTree
  import opened ScanPool
  import ScanRuns

  const BATCH_SIZE := 500
  const CHECKPOINT_INTERVAL := 128

  datatype Failure = Failure(path: Path, scope: Scope)

  datatype Counts = Counts(visited: nat, files: nat, skipped: nat, errors: nat)

  datatype Batch = Batch(files: seq<Path>, errors: seq<Failure>, counts: Counts)

  datatype SinkError = TaskInvalidState | OtherFailure(code: nat)

  datatype ScanError = Boundary | SinkFailed(error: SinkError) | LeaseLost

  /** The batches committed so far; `budget` more attempts succeed, the one after fails and commits nothing. */
  class ObservationSink {
    var written: seq<Batch>
    var budget: nat
    const fault: SinkError

    constructor (budget: nat, fault: SinkError)
      ensures written == [] && this.budget == budget && this.fault == fault
    {
      written, this.budget, this.fault := [], budget, fault;
    }

    method WriteBatch(files: seq<Path>, errors: seq<Failure>, counts: Counts) returns (error: Option<SinkError>)
      modifies this
      ensures if old(budget) == 0 then error == Some(fault) && budget == 0 && written == old(written)
              else error == None && budget == old(budget) - 1 && written == old(written) + [Batch(files, errors, counts)]
    {
      if budget == 0 {
        error := Some(fault);
      } else {
        error := None;
        budget := budget - 1;
        written := written + [Batch(files, errors, counts)];
      }
    }
  }

  // ---- What the messages amount to ----------------------------------------------------------------

  function FilesOf(m: Message): seq<Path> {
    if m.File? then [m.path] else []
  }

  function ErrorsOf(m: Message): seq<Failure> {
    if m.Error? then [Failure(m.path, m.scope)] else []
  }

  function Counted(c: Counts, m: Message): Counts {
    match m
    case Visited(_) => c.(visited := c.visited + 1)
    case Skipped(_) => c.(skipped := c.skipped + 1)
    case File(_) => c.(files := c.files + 1)
    case Error(_, _) => c.(errors := c.errors + 1)
    case Fatal => c
  }

  /** The counts over the first `n` messages. */
  function Tally(ms: seq<Message>, n: nat): Counts
    requires n <= |ms|
  {
    if n == 0 then Counts(0, 0, 0, 0) else Counted(Tally(ms, n - 1), ms[n - 1])
  }

  /** The files and errors in the stretch `from..to`, with the counts over all messages before `to`. */
  function Collect(ms: seq<Message>, from: nat, to: nat): Batch
    requires from <= to <= |ms|
  {
    if to == from then Batch([], [], Tally(ms, from))
    else
      var earlier, m := Collect(ms, from, to - 1), ms[to - 1];
      Batch(earlier.files + FilesOf(m), earlier.errors + ErrorsOf(m), Counted(earlier.counts, m))
  }

  lemma {:induction false} TallyCountsAll(ms: seq<Message>, n: nat)
    requires n <= |ms| && forall i | 0 <= i < n :: !ms[i].Fatal?
    ensures var c := Tally(ms, n); c.visited + c.files + c.skipped + c.errors == n
  {
    if n > 0 {
      TallyCountsAll(ms, n - 1);
    }
  }

  lemma {:induction false} CollectTallies(ms: seq<Message>, from: nat, to: nat)
    requires from <= to <= |ms|
    ensures Collect(ms, from, to).counts == Tally(ms, to)
    ensures |Collect(ms, from, to).files| + |Collect(ms, from, to).errors| <= to - from
  {
    if from < to {
      CollectTallies(ms, from, to - 1);
    }
  }

  predicate EndsFatal(heard: seq<Message>) {
    heard != [] && heard[|heard| - 1].Fatal?
  }

  /** The messages the loop looks at: all, or up to and including the first fatal one. */
  function Heard(messages: seq<Message>): (heard: seq<Message>)
    ensures |heard| <= |messages|
  {
    if messages == [] then []
    else if messages[0].Fatal? then [messages[0]]
    else [messages[0]] + Heard(messages[1..])
  }

  lemma {:induction false} HeardAt(messages: seq<Message>, i: nat)
    requires i < |Heard(messages)|
    ensures Heard(messages)[i] == messages[i]
    ensures messages[i].Fatal? ==> i + 1 == |Heard(messages)|
    ensures EndsFatal(Heard(messages)) && i + 1 == |Heard(messages)| ==> messages[i].Fatal?
  {
    if i > 0 {
      HeardAt(messages[1..], i - 1);
    }
  }

  ghost predicate NoneFatal(messages: seq<Message>) {
    forall i | 0 <= i < |messages| :: !messages[i].Fatal?
  }

  lemma {:induction false} HeardToTheEnd(messages: seq<Message>)
    requires !EndsFatal(Heard(messages))
    ensures Heard(messages) == messages && NoneFatal(messages)
  {
    if messages != [] {
      assert Heard(messages) == [messages[0]] + Heard(messages[1..]);
      HeardToTheEnd(messages[1..]);
    }
  }

  /** The loop has not yet looked at the fatal message that ends what is heard, if there is one. */
  ghost predicate Listening(heard: seq<Message>, i: nat) {
    EndsFatal(heard) ==> i < |heard|
  }

  lemma NextHeard(messages: seq<Message>, i: nat)
    requires i < |messages| && Listening(Heard(messages), i)
    ensures var heard := Heard(messages);
            && i < |heard| && messages[i] == heard[i]
            && (messages[i].Fatal? <==> EndsFatal(heard) && i + 1 == |heard|)
            && (!messages[i].Fatal? ==> Listening(heard, i + 1))
  {
    if !EndsFatal(Heard(messages)) {
      HeardToTheEnd(messages);
    }
    HeardAt(messages, i);
  }

  /** Where round `i` starts: every round before it took 128 messages. */
  function Start(i: nat): nat {
    if i == 0 then 0 else Start(i - 1) + CHECKPOINT_INTERVAL
  }

  lemma {:induction false} StartIsMultiple(i: nat)
    ensures Start(i) == CHECKPOINT_INTERVAL * i
  {
    if i > 0 {
      StartIsMultiple(i - 1);
    }
  }

  function Rounds(n: nat): nat {
    (n + CHECKPOINT_INTERVAL - 1) / CHECKPOINT_INTERVAL
  }

  /** Every round starts inside the messages, and the last one reaches their end. */
  lemma StartsInside(n: nat, k: nat)
    requires k <= Rounds(n)
    ensures k < Rounds(n) ==> Start(k) < n
    ensures k == Rounds(n) ==> n <= Start(k)
  {
    StartIsMultiple(k);
  }

  lemma RoundsFor(n: nat, k: nat, rest: nat)
    requires n == Start(k) + rest && rest <= CHECKPOINT_INTERVAL
    ensures Rounds(n) == if rest == 0 then k else k + 1
  {
    StartIsMultiple(k);
  }

  lemma StartGrows(i: nat)
    ensures Start(i + 1) == Start(i) + CHECKPOINT_INTERVAL
  {
  }

  function Min(a: nat, b: nat): nat {
    if a < b then a else b
  }

  /** The batch of round `i` covers its own stretch of 128 messages and tallies all messages before its end. */
  function Round(ms: seq<Message>, i: nat): Batch {
    StartGrows(i);
    Collect(ms, Min(Start(i), |ms|), Min(Start(i + 1), |ms|))
  }

  function Plan(ms: seq<Message>, k: nat): (plan: seq<Batch>)
    ensures |plan| == k
  {
    if k == 0 then [] else Plan(ms, k - 1) + [Round(ms, k - 1)]
  }

  /** What the scan returns for the messages heard when `budget` writes succeed before one fails. */
  function Verdict(heard: seq<Message>, budget: nat, fault: SinkError): Result<Counts, ScanError> {
    var n := Rounds(|heard|);
    if budget < n then
      if EndsFatal(heard) && budget == n - 1 && fault.TaskInvalidState? then Err(Boundary)
      else Err(SinkFailed(fault))
    else if EndsFatal(heard) then Err(Boundary)
    else if heard == [] then Err(LeaseLost)
    else Ok(Tally(heard, |heard|))
  }

  // ---- The loop ---------------------------------------------------------------------------------

  /** `i` messages into the scan and after `rounds` checkpoints, `held` is what waits for the next one. */
  ghost predicate Underway(heard: seq<Message>, rounds: nat, i: nat, held: Batch, events: nat,
                           written: seq<Batch>, earlier: seq<Batch>, left: nat, budget: nat) {
    && Start(rounds) <= i <= |heard| && events == i - Start(rounds) < CHECKPOINT_INTERVAL
    && held == Collect(heard, Start(rounds), i)
    && left == budget - rounds && written == earlier + Plan(heard, rounds)
  }

  /** What the code after the loop finds: a failed write, a fatal message, or the end of the messages. */
  ghost predicate Concludable(heard: seq<Message>, rounds: nat, held: Batch, events: nat, fatal: bool,
                              sinkError: Option<SinkError>, fault: SinkError,
                              written: seq<Batch>, earlier: seq<Batch>, left: nat, budget: nat) {
    && left == budget - rounds && written == earlier + Plan(heard, rounds)
    && (sinkError.Some? ==>
          && rounds < Rounds(|heard|) && left == 0 && sinkError.value == fault
          && (fatal <==> rounds == Rounds(|heard|) - 1 && EndsFatal(heard)))
    && (sinkError.None? ==> (fatal <==> EndsFatal(heard)) && (fatal ==> rounds == Rounds(|heard|)))
    && (sinkError.None? && !fatal ==>
          && held.counts == Tally(heard, |heard|) && (held.counts == Counts(0, 0, 0, 0) <==> heard == [])
          && |held.files| + |held.errors| <= events
          && (events > 0 ==> rounds + 1 == Rounds(|heard|) && Round(heard, rounds) == held)
          && (events == 0 ==> rounds == Rounds(|heard|)))
  }

  lemma OneMore(earlier: seq<Batch>, heard: seq<Message>, rounds: nat)
    ensures earlier + Plan(heard, rounds) + [Round(heard, rounds)] == earlier + Plan(heard, rounds + 1)
  {
    assert Plan(heard, rounds + 1) == Plan(heard, rounds) + [Round(heard, rounds)];
  }

  /** At a checkpoint what is held back is exactly the next planned batch. */
  lemma DueRound(ms: seq<Message>, rounds: nat, i: nat)
    requires Start(rounds) < i <= |ms| && i <= Start(rounds) + CHECKPOINT_INTERVAL
    requires i == |ms| || i == Start(rounds) + CHECKPOINT_INTERVAL
    ensures rounds < Rounds(|ms|) && (i == |ms| <==> rounds + 1 == Rounds(|ms|))
    ensures Round(ms, rounds) == Collect(ms, Start(rounds), i)
  {
    StartIsMultiple(rounds);
  }

  method Absorb(message: Message, files: seq<Path>, errors: seq<Failure>, counts: Counts)
    returns (files': seq<Path>, errors': seq<Failure>, counts': Counts, fatal: bool)
    ensures files' == files + FilesOf(message) && errors' == errors + ErrorsOf(message)
    ensures counts' == Counted(counts, message)
    ensures fatal <==> message.Fatal?
  {
    files', errors', counts', fatal := files, errors, counts, false;
    match message {
      case Visited(_) => counts' := counts.(visited := counts.visited + 1);
      case Skipped(_) => counts' := counts.(skipped := counts.skipped + 1);
      case File(path) =>
        counts' := counts.(files := counts.files + 1);
        files' := files + [path];
      case Error(path, scope) =>
        counts' := counts.(errors := counts.errors + 1);
        errors' := errors + [Failure(path, scope)];
      case Fatal => fatal := true;
    }
  }

  /** One message; when a checkpoint is due it is written. */
  method Turn(message: Message, files: seq<Path>, errors: seq<Failure>, counts: Counts, events: nat, sink: ObservationSink,
              ghost heard: seq<Message>, ghost rounds: nat, ghost i: nat, ghost earlier: seq<Batch>, ghost budget: nat)
    returns (files': seq<Path>, errors': seq<Failure>, counts': Counts, events': nat, fatal: bool,
             sinkError: Option<SinkError>, ghost rounds': nat)
    requires Underway(heard, rounds, i, Batch(files, errors, counts), events, sink.written, earlier, sink.budget, budget)
    requires i < |heard| && message == heard[i] && (message.Fatal? <==> EndsFatal(heard) && i + 1 == |heard|)
    modifies sink
    ensures fatal <==> message.Fatal?
    ensures if sinkError.None? && !fatal then
              Underway(heard, rounds', i + 1, Batch(files', errors', counts'), events', sink.written, earlier, sink.budget, budget)
            else
              Concludable(heard, rounds', Batch(files', errors', counts'), events', fatal, sinkError, sink.fault,
                          sink.written, earlier, sink.budget, budget)
  {
    rounds', sinkError := rounds, None;
    files', errors', counts', fatal := Absorb(message, files, errors, counts);
    events' := events + 1;
    CollectTallies(heard, Start(rounds), i + 1);
    if fatal || |files'| + |errors'| >= BATCH_SIZE || events' >= CHECKPOINT_INTERVAL {
      DueRound(heard, rounds, i + 1);
      OneMore(earlier, heard, rounds);
      sinkError := sink.WriteBatch(files', errors', counts');
      files', errors' := [], [];
      if sinkError.None? {
        rounds', events' := rounds + 1, 0;
      }
    }
  }

  /** After the loop: errors are reported in order of precedence, and what is left is written once. */
  method Conclude(files: seq<Path>, errors: seq<Failure>, counts: Counts, events: nat, fatal: bool,
                  sinkError: Option<SinkError>, sink: ObservationSink,
                  ghost heard: seq<Message>, ghost budget: nat, ghost rounds: nat, ghost earlier: seq<Batch>)
    returns (r: Result<Counts, ScanError>)
    requires Concludable(heard, rounds, Batch(files, errors, counts), events, fatal, sinkError, sink.fault,
                         sink.written, earlier, sink.budget, budget)
    modifies sink
    ensures sink.written == earlier + Plan(heard, Min(budget, Rounds(|heard|)))
    ensures r == Verdict(heard, budget, sink.fault)
  {
    if fatal && sinkError == Some(TaskInvalidState) {
      return Err(Boundary);
    }
    if sinkError.Some? {
      return Err(SinkFailed(sinkError.value));
    }
    if !fatal && (files != [] || errors != [] || events > 0) {
      OneMore(earlier, heard, rounds);
      var failure := sink.WriteBatch(files, errors, counts);
      if failure.Some? {
        return Err(SinkFailed(failure.value));
      }
    }
    if fatal {
      return Err(Boundary);
    }
    if events == 0 && counts == Counts(0, 0, 0, 0) {
      return Err(LeaseLost);
    }
    r := Ok(counts);
  }

  lemma EndIsConcludable(ms: seq<Message>, rounds: nat, held: Batch, events: nat, fault: SinkError,
                         written: seq<Batch>, earlier: seq<Batch>, left: nat, budget: nat)
    requires Listening(Heard(ms), |ms|)
    requires Underway(Heard(ms), rounds, |ms|, held, events, written, earlier, left, budget)
    ensures Concludable(Heard(ms), rounds, held, events, false, None, fault, written, earlier, left, budget)
  {
    HeardToTheEnd(ms);
    TallyCountsAll(ms, |ms|);
    CollectTallies(ms, Start(rounds), |ms|);
    if events > 0 {
      DueRound(ms, rounds, |ms|);
    } else {
      RoundsFor(|ms|, rounds, 0);
    }
  }

  /** `messages` is what the channel yields before it ends or the stop signal is seen. */
  method Consume(messages: seq<Message>, sink: ObservationSink) returns (r: Result<Counts, ScanError>)
    modifies sink
    ensures var heard, budget := Heard(messages), old(sink.budget);
            && sink.written == old(sink.written) + Plan(heard, Min(budget, Rounds(|heard|)))
            && r == Verdict(heard, budget, sink.fault)
  {
    ghost var heard, budget, rounds, earlier := Heard(messages), sink.budget, 0, sink.written;
    var files: seq<Path>, errors: seq<Failure> := [], [];
    var counts := Counts(0, 0, 0, 0);
    var events: nat := 0;
    var fatal := false;
    var sinkError: Option<SinkError> := None;
    var i: nat := 0;
    while i < |messages|
      invariant !fatal && sinkError.None?
      invariant i <= |messages| && Listening(heard, i)
      invariant Underway(heard, rounds, i, Batch(files, errors, counts), events, sink.written, earlier, sink.budget, budget)
    {
      NextHeard(messages, i);
      files, errors, counts, events, fatal, sinkError, rounds :=
        Turn(messages[i], files, errors, counts, events, sink, heard, rounds, i, earlier, budget);
      if sinkError.Some? || fatal {
        break;
      }
      i := i + 1;
    }
    if sinkError.None? && !fatal {
      EndIsConcludable(messages, rounds, Batch(files, errors, counts), events, sink.fault, sink.written, earlier, sink.budget, budget);
    }
    r := Conclude(files, errors, counts, events, fatal, sinkError, sink, heard, budget, rounds, earlier);
  }

  // ---- What the batches amount to -----------------------------------------------------------------

  function JoinFiles(batches: seq<Batch>): seq<Path> {
    if batches == [] then [] else JoinFiles(batches[..|batches| - 1]) + batches[|batches| - 1].files
  }

  function JoinErrors(batches: seq<Batch>): seq<Failure> {
    if batches == [] then [] else JoinErrors(batches[..|batches| - 1]) + batches[|batches| - 1].errors
  }

  lemma Reassociate<T>(a: seq<T>, b: seq<T>, c: seq<T>)
    ensures a + b + c == a + (b + c)
  {
  }

  lemma {:induction false} CollectJoins(ms: seq<Message>, from: nat, mid: nat, to: nat)
    requires from <= mid <= to <= |ms|
    ensures Collect(ms, from, to).files == Collect(ms, from, mid).files + Collect(ms, mid, to).files
    ensures Collect(ms, from, to).errors == Collect(ms, from, mid).errors + Collect(ms, mid, to).errors
  {
    if mid < to {
      CollectJoins(ms, from, mid, to - 1);
      var before, after, m := Collect(ms, from, mid), Collect(ms, mid, to - 1), ms[to - 1];
      Reassociate(before.files, after.files, FilesOf(m));
      Reassociate(before.errors, after.errors, ErrorsOf(m));
    }
  }

  lemma RoundExtends(ms: seq<Message>, k: nat)
    ensures var before, after := Collect(ms, 0, Min(Start(k), |ms|)), Collect(ms, 0, Min(Start(k + 1), |ms|));
            && after.files == before.files + Round(ms, k).files
            && after.errors == before.errors + Round(ms, k).errors
  {
    StartGrows(k);
    CollectJoins(ms, 0, Min(Start(k), |ms|), Min(Start(k + 1), |ms|));
  }

  lemma JoinOneMore(batches: seq<Batch>, last: Batch)
    ensures JoinFiles(batches + [last]) == JoinFiles(batches) + last.files
    ensures JoinErrors(batches + [last]) == JoinErrors(batches) + last.errors
  {
    assert (batches + [last])[..|batches|] == batches;
  }

  ghost predicate CoversExactly(plan: seq<Batch>, stretch: Batch) {
    JoinFiles(plan) == stretch.files && JoinErrors(plan) == stretch.errors
  }

  /** The first `k` batches are exactly the files and errors of their stretch, in order. */
  lemma {:induction false} PlanJoins(ms: seq<Message>, k: nat)
    ensures CoversExactly(Plan(ms, k), Collect(ms, 0, Min(Start(k), |ms|)))
  {
    if k > 0 {
      PlanJoins(ms, k - 1);
      JoinOneMore(Plan(ms, k - 1), Round(ms, k - 1));
      RoundExtends(ms, k - 1);
      var plan := Plan(ms, k - 1) + [Round(ms, k - 1)];
      assert CoversExactly(plan, Collect(ms, 0, Min(Start(k), |ms|)));
      assert Plan(ms, k) == plan;
    }
  }

  /** Every batch is small and carries the counts of the prefix it ends. */
  lemma {:induction false} BatchesAreSmallAndCounted(ms: seq<Message>, k: nat, i: nat)
    requires i < k <= Rounds(|ms|)
    ensures var batch := Plan(ms, k)[i];
            && |batch.files| + |batch.errors| <= CHECKPOINT_INTERVAL
            && batch.counts == Tally(ms, Min(Start(i + 1), |ms|))
  {
    if i < k - 1 {
      BatchesAreSmallAndCounted(ms, k - 1, i);
    } else {
      StartGrows(i);
      CollectTallies(ms, Min(Start(i), |ms|), Min(Start(i + 1), |ms|));
    }
  }

  /**
   A scan that returns counts has written every file and error it received, in order, in batches of
   at most 128, and the counts it returns are those of its last batch.
   */
  lemma SuccessWroteEverything(messages: seq<Message>, budget: nat, fault: SinkError)
    requires Verdict(Heard(messages), budget, fault).Ok?
    ensures var plan := Plan(messages, Rounds(|messages|));
            && Heard(messages) == messages && Rounds(|messages|) <= budget && plan != []
            && JoinFiles(plan) == Collect(messages, 0, |messages|).files
            && JoinErrors(plan) == Collect(messages, 0, |messages|).errors
            && Verdict(Heard(messages), budget, fault).value == plan[|plan| - 1].counts == Tally(messages, |messages|)
  {
    HeardToTheEnd(messages);
    StartsInside(|messages|, Rounds(|messages|));
    PlanJoins(messages, Rounds(|messages|));
    BatchesAreSmallAndCounted(messages, Rounds(|messages|), Rounds(|messages|) - 1);
  }

  lemma {:induction false} FilesByPath(ms: seq<Message>, n: nat, path: Path)
    requires n <= |ms|
    ensures multiset(Collect(ms, 0, n).files)[path] == multiset(ms[..n])[File(path)]
  {
    if n > 0 {
      FilesByPath(ms, n - 1, path);
      assert ms[..n] == ms[..n - 1] + [ms[n - 1]];
    }
  }

  lemma WrittenByPath(received: seq<Message>, budget: nat, fault: SinkError, path: Path)
    requires Verdict(Heard(received), budget, fault).Ok?
    ensures multiset(JoinFiles(Plan(Heard(received), Min(budget, Rounds(|Heard(received)|)))))[path]
            == multiset(received)[File(path)]
  {
    SuccessWroteEverything(received, budget, fault);
    FilesByPath(received, |received|, path);
    assert received[..|received|] == received;
  }

  lemma FilesAreRegular(root: Directory, path: Path)
    ensures Reports(root, path, File(path)) <==> Walk(root, path) == Some(Regular)
  {
  }

  /**
   Threads, channel and consumer together: when a scan nobody stopped comes to the end of its channel
   and returns counts, the sink holds each regular file of the tree exactly once and no other file.
   */
  lemma ScanWritesEachFileOnce(root: Directory, concurrency: nat, steps: seq<Step>, budget: nat, fault: SinkError, path: Path)
    requires concurrency >= 1 && Sound(root, true) && Distinct(root)
    requires var p := Exec(root, concurrency, steps); AllExited(p) && p.channel == [] && !p.stop
    requires var p := Exec(root, concurrency, steps); Verdict(Heard(p.received), budget, fault).Ok?
    ensures var received := Exec(root, concurrency, steps).received;
            multiset(JoinFiles(Plan(Heard(received), Min(budget, Rounds(|Heard(received)|)))))[path]
            == if Walk(root, path) == Some(Regular) then 1 else 0
  {
    WrittenByPath(Exec(root, concurrency, steps).received, budget, fault, path);
    ScanRuns.ScanReportsTheTreeExactlyOnce(root, concurrency, steps, File(path));
    FilesAreRegular(root, path);
  }
}
