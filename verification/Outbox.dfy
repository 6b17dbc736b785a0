/**
 Commits, drain workers, readers and crashes around one session's log: a
 transactional outbox feeding an append-only file that any process may drain.
 */
module Outbox {
  import opened Prelude
  import opened Lines
  import opened Transcript
  import opened Conversation
  import opened LogRecovery
  import opened SyncRefinement
  import opened SessionFile

  // A worker that has read the outbox, and one whose sync has returned Ok.
  datatype Worker = Holding(batch: seq<Entry>) | Synced(batch: seq<Entry>)

  datatype World = World(
    history: seq<Entry>,           // everything committed, in commit order
    outbox: seq<Entry>,            // the unacknowledged rows, by sequence
    disk: Disk,
    workers: map<nat, Worker>)

  const INITIAL: World := World([], [], Disk([], []), map[])

  function CommonPrefix(a: seq<Byte>, b: seq<Byte>): (n: nat)
    ensures n <= |a| && n <= |b|
  {
    if a == [] || b == [] || a[0] != b[0] then 0 else 1 + CommonPrefix(a[1..], b[1..])
  }

  // Bytes a power cut may leave: what no pending change touches, then any part of
  // the pending writes, then possibly a tail whose removal had not become durable.
  ghost predicate Survives(d: Disk, bytes: seq<Byte>) {
    exists m: nat, j: nat ::
      && CommonPrefix(d.content, d.durable) <= m <= |d.content|
      && bytes == d.content[..m] + (if m <= j <= |d.durable| then d.durable[m..j] else [])
  }

  datatype Event =
    | Commit(entry: Entry)
    | ReadOutbox(worker: nat)
    | SyncReturns(worker: nat, left: Disk, result: Result<(), LogError>)
    | SyncDies(worker: nat, left: Disk)
    | Acknowledge(worker: nat)
    | WorkerDies(worker: nat)
    | ReadFile(left: Disk)
    | PowerCut(bytes: seq<Byte>)

  // The outbox delete: rows up to the last sequence of the batch.
  function Acknowledged(outbox: seq<Entry>, batch: seq<Entry>): seq<Entry> {
    if batch == [] then outbox else After(outbox, LastSequence(batch))
  }

  ghost predicate Step(s: Session, y: World, event: Event, z: World) {
    match event
    case Commit(e) =>
      e.sequence > LastSequence(y.history) && z == y.(history := y.history + [e], outbox := y.outbox + [e])
    case ReadOutbox(w) =>
      w !in y.workers && z == y.(workers := y.workers[w := Holding(y.outbox)])
    case SyncReturns(w, left, r) =>
      && w in y.workers && y.workers[w].Holding?
      && Follows(y.disk, SyncPlan(s, y.disk.content, y.workers[w].batch), left, r)
      && z == y.(disk := left,
                 workers := if r.Ok? then y.workers[w := Synced(y.workers[w].batch)] else y.workers - {w})
    case SyncDies(w, left) =>
      && w in y.workers && y.workers[w].Holding?
      && LeftBehind(y.disk, SyncPlan(s, y.disk.content, y.workers[w].batch).ops, left)
      && z == y.(disk := left, workers := y.workers - {w})
    case Acknowledge(w) =>
      && w in y.workers && y.workers[w].Synced?
      && z == y.(outbox := Acknowledged(y.outbox, y.workers[w].batch), workers := y.workers - {w})
    case WorkerDies(w) =>
      z == y.(workers := y.workers - {w})
    case ReadFile(left) =>
      LeftBehind(y.disk, RepairOps(y.disk.content), left) && z == y.(disk := left)
    case PowerCut(bytes) =>
      Survives(y.disk, bytes) && z == y.(disk := Disk(bytes, bytes), workers := map[])
  }

  ghost predicate Reachable(s: Session, run: seq<World>) {
    && run != [] && run[0] == INITIAL
    && forall i {:trigger Stepped(s, run[i - 1], run[i])} :: 0 < i < |run| ==> Stepped(s, run[i - 1], run[i])
  }

  ghost predicate Stepped(s: Session, y: World, z: World) {
    exists event :: Step(s, y, event, z)
  }

  // ---------- the invariant ----------

  // The log the committed history will ever give: it stops at an oversized record.
  function FullLog(s: Session, history: seq<Entry>): seq<Byte> {
    LogBytes(s, TakeFitting(s, history))
  }

  // The first n committed entries are whole in these bytes.
  ghost predicate Holds(s: Session, history: seq<Entry>, n: nat, bytes: seq<Byte>) {
    n > 0 ==> n <= FitCount(s, history) && |LogBytes(s, history[..n])| <= |bytes|
  }

  ghost predicate Saved(s: Session, history: seq<Entry>, n: nat, d: Disk) {
    Holds(s, history, n, d.content) && Holds(s, history, n, d.durable)
  }

  ghost predicate DiskInv(s: Session, history: seq<Entry>, d: Disk) {
    d.content <= FullLog(s, history) && d.durable <= FullLog(s, history)
  }

  // A batch is a run of committed entries starting no later than the first unacknowledged one.
  ghost predicate BatchIs(history: seq<Entry>, acked: nat, batch: seq<Entry>, from: nat, until: nat) {
    from <= acked && from <= until <= |history| && batch == history[from..until]
  }

  ghost predicate WorkerInv(s: Session, y: World, acked: nat, worker: Worker) {
    exists from: nat, until: nat ::
      && BatchIs(y.history, acked, worker.batch, from, until)
      && (worker.Synced? && worker.batch != [] ==> Saved(s, y.history, until, y.disk))
  }

  function Acked(y: World): nat {
    if |y.outbox| <= |y.history| then |y.history| - |y.outbox| else 0
  }

  ghost predicate Inv(s: Session, y: World) {
    && Increasing(y.history)
    && y.outbox == y.history[Acked(y)..]
    && DiskInv(s, y.history, y.disk)
    && Saved(s, y.history, Acked(y), y.disk)
    && (forall w :: w in y.workers ==> WorkerInv(s, y, Acked(y), y.workers[w]))
  }

  // ---------- the disk through one call ----------

  lemma FittingPrefix(s: Session, history: seq<Entry>, n: nat)
    requires n <= FitCount(s, history)
    ensures TakeFitting(s, history)[..n] == history[..n]
  {}

  lemma FittingGrows(s: Session, history: seq<Entry>, more: seq<Entry>)
    ensures FitCount(s, history) <= FitCount(s, history + more)
    ensures FullLog(s, history) <= FullLog(s, history + more)
  {
    var n := FitCount(s, history);
    var long := TakeFitting(s, history + more);
    assert forall i :: 0 <= i < |history| ==> (history + more)[i] == history[i];
    assert n <= FitCount(s, history + more);
    assert long[..n] == TakeFitting(s, history);
    LogPrefix(s, long, n);
  }

  // Cutting the history anywhere cuts what fits at the same place, or not at all.
  lemma FittingSlice(s: Session, history: seq<Entry>, n: nat, until: nat)
    requires n <= FitCount(s, history) && n <= until <= |history|
    ensures var w := FitCount(s, history);
            TakeFitting(s, history[n..until]) == history[n..if until <= w then until else w]
  {
    var w := FitCount(s, history);
    FitCountIs(s, history[n..until], (if until <= w then until else w) - n);
  }

  lemma LogPrefix(s: Session, entries: seq<Entry>, n: nat)
    requires n <= |entries|
    ensures LogBytes(s, entries[..n]) <= LogBytes(s, entries)
  {
    assert entries == entries[..n] + entries[n..];
    LogGrows(s, entries[..n], entries[n..]);
  }

  lemma PrefixOf(a: seq<Byte>, full: seq<Byte>)
    requires a <= full
    ensures a == full[..|a|]
  {}

  // What one call may do to the disk, seen from the committed history.
  ghost predicate KeepsDisk(s: Session, history: seq<Entry>, before: Disk, after: Disk) {
    && DiskInv(s, history, after)
    && (forall n: nat :: Saved(s, history, n, before) ==> Saved(s, history, n, after))
  }

  lemma CallOnEmpty(s: Session, history: seq<Entry>, d: Disk, until: nat, left: Disk)
    requires s.wire.Faithful() && Increasing(history) && DiskInv(s, history, d)
    requires d.content == [] && until <= |history|
    requires LeftBehind(d, SyncPlan(s, [], history[..until]).ops, left)
    ensures KeepsDisk(s, history, d, left)
  {
    EmptyCallLeaves(s, history, d, until, left);
    forall n: nat | Saved(s, history, n, d) ensures Saved(s, history, n, left) {
      NothingWholeInNothing(s, history, n);
    }
  }

  lemma EmptyCallLeaves(s: Session, history: seq<Entry>, d: Disk, until: nat, left: Disk)
    requires s.wire.Faithful() && Increasing(history) && DiskInv(s, history, d)
    requires d.content == [] && until <= |history|
    requires LeftBehind(d, SyncPlan(s, [], history[..until]).ops, left)
    ensures DiskInv(s, history, left)
  {
    assert d == Disk([], d.durable);
    IncreasingRun(history, 0, until);
    assert history[0..until] == history[..until];
    SyncOnEmptyLeaves(s, d.durable, history[..until], left);
    FullLogOfPrefix(s, history, until);
  }

  lemma FullLogOfPrefix(s: Session, history: seq<Entry>, until: nat)
    requires until <= |history|
    ensures FullLog(s, history[..until]) <= FullLog(s, history)
    ensures HeaderLine(s) <= FullLog(s, history)
  {
    assert history[..until] + history[until..] == history;
    FittingGrows(s, history[..until], history[until..]);
  }

  lemma TornHeaderCall(s: Session, history: seq<Entry>, d: Disk, batch: seq<Entry>, left: Disk)
    requires s.wire.Faithful() && DiskInv(s, history, d)
    requires 0 < |d.content| < |HeaderLine(s)| || |d.content| > MAX_FILE_BYTES
    requires LeftBehind(d, SyncPlan(s, d.content, batch).ops, left)
    ensures left == d
  {
    if |d.content| <= MAX_FILE_BYTES {
      LogPrefix(s, TakeFitting(s, history), 0);
      assert TakeFitting(s, history)[..0] == [];
      assert d.content == HeaderLine(s)[..|d.content|];
      TornHeaderIsNeverRepaired(s, |d.content|, batch);
    }
  }

  lemma LogOfFitting(s: Session, history: seq<Entry>, n: nat)
    requires n <= FitCount(s, history)
    ensures LogBytes(s, history[..n]) <= FullLog(s, history)
  {
    FittingPrefix(s, history, n);
    LogPrefix(s, TakeFitting(s, history), n);
  }

  // The log a sync builds from a batch of the history is itself a prefix of the history.
  lemma BuiltLog(s: Session, history: seq<Entry>, from: nat, until: nat, n: nat)
    requires Increasing(history) && from <= until <= |history|
    requires from <= n <= FitCount(s, history)
    ensures LogBytes(s, history[..n] + Newer(s, history[..n], history[from..until])) <= FullLog(s, history)
    ensures LogBytes(s, history[..n]) <= FullLog(s, history)
  {
    var m := NewerEnds(s, history, from, until, n);
    JoinedAt(history, n, m);
    LogOfFitting(s, history, n);
    LogOfFitting(s, history, m);
  }

  lemma NewerEnds(s: Session, history: seq<Entry>, from: nat, until: nat, n: nat) returns (m: nat)
    requires Increasing(history) && from <= until <= |history|
    requires from <= n <= FitCount(s, history)
    ensures m == Max(n, Min(until, FitCount(s, history)))
    ensures Newer(s, history[..n], history[from..until]) == history[n..m]
  {
    AfterSuffix(history, from, until, n);
    if n <= until {
      FittingSlice(s, history, n, until);
    }
    m := Max(n, Min(until, FitCount(s, history)));
  }

  // What a call leaves of a readable file, whatever the batch.
  lemma CallLeaves(s: Session, history: seq<Entry>, d: Disk, batch: seq<Entry>, left: Disk)
    requires s.wire.Faithful() && Increasing(history) && DiskInv(s, history, d) && Increasing(batch)
    requires |HeaderLine(s)| <= |d.content| <= MAX_FILE_BYTES
    requires LeftBehind(d, SyncPlan(s, d.content, batch).ops, left)
    ensures var n := Survivors(s, TakeFitting(s, history), |d.content|);
            n <= FitCount(s, history) && SyncLeaves(s, d, history[..n], batch, left)
  {
    var log := TakeFitting(s, history);
    assert Increasing(log);
    PrefixOf(d.content, LogBytes(s, log));
    FittingPrefix(s, history, Survivors(s, log, |d.content|));
    SyncOnLogLeaves(s, log, |d.content|, d.durable, batch, left);
  }

  // A disk between the log of n entries and the full log keeps what was whole within n.
  lemma LeavingKeeps(s: Session, history: seq<Entry>, d: Disk, batch: seq<Entry>, n: nat, left: Disk)
    requires DiskInv(s, history, d) && n <= |history| && SyncLeaves(s, d, history[..n], batch, left)
    requires LogBytes(s, history[..n] + Newer(s, history[..n], batch)) <= FullLog(s, history)
    requires LogBytes(s, history[..n]) <= FullLog(s, history)
    requires |HeaderLine(s)| <= |d.content| && n == Survivors(s, TakeFitting(s, history), |d.content|)
    ensures KeepsDisk(s, history, d, left)
  {
    forall m: nat | Saved(s, history, m, d) ensures Saved(s, history, m, left) {
      SavedSurvives(s, history, m, d.content);
      WholeBelow(s, history, m, n);
    }
  }

  lemma IncreasingRun(history: seq<Entry>, from: nat, until: nat)
    requires Increasing(history) && from <= until <= |history|
    ensures Increasing(history[from..until])
  {}

  lemma CallOnLog(s: Session, history: seq<Entry>, d: Disk, acked: nat, from: nat, until: nat, left: Disk)
    requires s.wire.Faithful() && Increasing(history) && DiskInv(s, history, d)
    requires |HeaderLine(s)| <= |d.content| <= MAX_FILE_BYTES
    requires Saved(s, history, acked, d) && from <= acked && from <= until <= |history|
    requires LeftBehind(d, SyncPlan(s, d.content, history[from..until]).ops, left)
    ensures KeepsDisk(s, history, d, left)
  {
    var n := Survivors(s, TakeFitting(s, history), |d.content|);
    var batch := history[from..until];
    IncreasingRun(history, from, until);
    CallLeaves(s, history, d, batch, left);
    SavedSurvives(s, history, acked, d.content);
    BuiltLog(s, history, from, until, n);
    LeavingKeeps(s, history, d, batch, n, left);
  }

  lemma WholeBelow(s: Session, history: seq<Entry>, m: nat, n: nat)
    requires m <= n <= |history|
    ensures |LogBytes(s, history[..m])| <= |LogBytes(s, history[..n])|
  {
    assert history[..n][..m] == history[..m];
    LogPrefix(s, history[..n], m);
  }

  // What is whole in the content survives its repair.
  lemma SavedSurvives(s: Session, history: seq<Entry>, m: nat, content: seq<Byte>)
    requires |HeaderLine(s)| <= |content| && Holds(s, history, m, content)
    ensures m <= Survivors(s, TakeFitting(s, history), |content|)
  {
    if m > 0 {
      FittingPrefix(s, history, m);
      SurvivorsAtLeast(s, TakeFitting(s, history), |content|, m);
    }
  }

  // One sync call, however it ends, whatever state it finds the file in.
  lemma CallKeeps(s: Session, history: seq<Entry>, d: Disk, acked: nat, from: nat, until: nat, left: Disk)
    requires s.wire.Faithful() && Increasing(history) && DiskInv(s, history, d)
    requires Saved(s, history, acked, d) && from <= acked && from <= until <= |history|
    requires LeftBehind(d, SyncPlan(s, d.content, history[from..until]).ops, left)
    ensures KeepsDisk(s, history, d, left)
  {
    if d.content == [] {
      NothingWholeInNothing(s, history, acked);
      assert history[0..until] == history[..until];
      CallOnEmpty(s, history, d, until, left);
    } else if |HeaderLine(s)| <= |d.content| <= MAX_FILE_BYTES {
      CallOnLog(s, history, d, acked, from, until, left);
    } else {
      TornHeaderCall(s, history, d, history[from..until], left);
    }
  }

  lemma NothingWholeInNothing(s: Session, history: seq<Entry>, n: nat)
    requires Holds(s, history, n, [])
    ensures n == 0
  {
    if n > 0 {
      LogNotEmpty(s, history[..n]);
    }
  }

  lemma LogNotEmpty(s: Session, entries: seq<Entry>)
    ensures |LogBytes(s, entries)| > 0
  {}

  lemma RunIsLeftBehind(d: Disk, ops: seq<Op>)
    ensures LeftBehind(d, ops, Run(d, ops))
  {
    RunAll(d, ops);
  }

  // A sync that returned Ok has made its whole batch durable.
  lemma OkMakesDurable(s: Session, history: seq<Entry>, d: Disk, acked: nat, from: nat, until: nat)
    requires s.wire.Faithful() && Increasing(history) && DiskInv(s, history, d)
    requires Saved(s, history, acked, d) && from <= acked && from <= until <= |history|
    requires SyncPlan(s, d.content, history[from..until]).verdict.Ok?
    ensures Saved(s, history, until, Run(d, SyncPlan(s, d.content, history[from..until]).ops))
  {
    var batch := history[from..until];
    assert Increasing(batch);
    if d.content == [] {
      NothingWholeInNothing(s, history, acked);
      SyncOnEmpty(s, d.durable, batch);
      AllFitIsAll(s, batch);
      assert batch == history[..until];
      FitCountReaches(s, history, 0, until);
    } else if |HeaderLine(s)| <= |d.content| <= MAX_FILE_BYTES {
      OkOnLogMakesDurable(s, history, d, acked, from, until);
    } else {
      var ops := SyncPlan(s, d.content, batch).ops;
      NothingDone(d, ops);
      TornHeaderCall(s, history, d, batch, d);
      NotOkWhenUnreadable(s, history, d, batch);
    }
  }

  lemma NotOkWhenUnreadable(s: Session, history: seq<Entry>, d: Disk, batch: seq<Entry>)
    requires s.wire.Faithful() && DiskInv(s, history, d)
    requires 0 < |d.content| < |HeaderLine(s)| || |d.content| > MAX_FILE_BYTES
    ensures SyncPlan(s, d.content, batch).verdict.Err?
  {
    if |d.content| <= MAX_FILE_BYTES {
      LogPrefix(s, TakeFitting(s, history), 0);
      assert TakeFitting(s, history)[..0] == [];
      assert d.content == HeaderLine(s)[..|d.content|];
      TornHeaderIsNeverRepaired(s, |d.content|, batch);
    }
  }

  lemma FitCountReaches(s: Session, history: seq<Entry>, n: nat, until: nat)
    requires n <= until <= |history| && n <= FitCount(s, history) && AllFit(s, history[n..until])
    ensures until <= FitCount(s, history)
  {
    assert forall i :: n <= i < until ==> history[i] == history[n..until][i - n];
  }

  lemma OkOnLogMakesDurable(s: Session, history: seq<Entry>, d: Disk, acked: nat, from: nat, until: nat)
    requires s.wire.Faithful() && Increasing(history) && DiskInv(s, history, d)
    requires Saved(s, history, acked, d) && from <= acked && from <= until <= |history|
    requires |HeaderLine(s)| <= |d.content| <= MAX_FILE_BYTES
    requires SyncPlan(s, d.content, history[from..until]).verdict.Ok?
    ensures Saved(s, history, until, Run(d, SyncPlan(s, d.content, history[from..until]).ops))
  {
    var n := Survivors(s, TakeFitting(s, history), |d.content|);
    var batch := history[from..until];
    IncreasingRun(history, from, until);
    OkOnLogGives(s, history, d, batch);
    SavedSurvives(s, history, acked, d.content);
    OkReaches(s, history, from, until, n);
    WholeBelow(s, history, until, if n <= until then until else n);
  }

  // What a successful call makes of a readable file.
  lemma OkOnLogGives(s: Session, history: seq<Entry>, d: Disk, batch: seq<Entry>)
    requires s.wire.Faithful() && Increasing(history) && DiskInv(s, history, d) && Increasing(batch)
    requires |HeaderLine(s)| <= |d.content| <= MAX_FILE_BYTES
    requires SyncPlan(s, d.content, batch).verdict.Ok?
    ensures var n := Survivors(s, TakeFitting(s, history), |d.content|);
            var full := LogBytes(s, history[..n] + Newer(s, history[..n], batch));
            && n <= FitCount(s, history)
            && AllFit(s, After(batch, LastSequence(history[..n])))
            && Run(d, SyncPlan(s, d.content, batch).ops) == Disk(full, full)
  {
    var log := TakeFitting(s, history);
    var n := Survivors(s, log, |d.content|);
    assert Increasing(log);
    PrefixOf(d.content, LogBytes(s, log));
    FittingPrefix(s, history, n);
    SyncOnLog(s, log, |d.content|, d.durable, batch);
  }

  // If everything newer fits, the log built from a batch reaches the end of the batch.
  lemma OkReaches(s: Session, history: seq<Entry>, from: nat, until: nat, n: nat)
    requires Increasing(history) && from <= until <= |history|
    requires from <= n <= FitCount(s, history)
    requires AllFit(s, After(history[from..until], LastSequence(history[..n])))
    ensures until <= FitCount(s, history)
    ensures history[..n] + Newer(s, history[..n], history[from..until]) ==
            history[..if n <= until then until else n]
  {
    OkFits(s, history, from, until, n);
    var m := NewerEnds(s, history, from, until, n);
    JoinedAt(history, n, m);
  }

  lemma OkFits(s: Session, history: seq<Entry>, from: nat, until: nat, n: nat)
    requires Increasing(history) && from <= until <= |history|
    requires from <= n <= FitCount(s, history)
    requires AllFit(s, After(history[from..until], LastSequence(history[..n])))
    ensures until <= FitCount(s, history)
  {
    AfterSuffix(history, from, until, n);
    if n <= until {
      FitCountReaches(s, history, n, until);
    }
  }

  lemma JoinedAt(history: seq<Entry>, n: nat, m: nat)
    requires n <= m <= |history|
    ensures history[..n] + history[n..m] == history[..m]
  {}

  // ---------- every step keeps the invariant ----------

  lemma CommitKeepsSaved(s: Session, history: seq<Entry>, e: Entry, n: nat, d: Disk)
    requires Saved(s, history, n, d)
    ensures Saved(s, history + [e], n, d)
  {
    FittingGrows(s, history, [e]);
    if n > 0 {
      assert (history + [e])[..n] == history[..n];
    }
  }

  lemma CommitKeepsWorker(s: Session, y: World, e: Entry, z: World, w: nat)
    requires Inv(s, y) && w in y.workers && z.workers == y.workers && z.disk == y.disk
    requires z.history == y.history + [e] && Acked(z) == Acked(y)
    ensures WorkerInv(s, z, Acked(z), z.workers[w])
  {
    var worker := y.workers[w];
    assert WorkerInv(s, y, Acked(y), worker);
    var from: nat, until: nat :|
      && BatchIs(y.history, Acked(y), worker.batch, from, until)
      && (worker.Synced? && worker.batch != [] ==> Saved(s, y.history, until, y.disk));
    assert z.history[from..until] == y.history[from..until];
    assert BatchIs(z.history, Acked(z), worker.batch, from, until);
    if worker.Synced? && worker.batch != [] {
      CommitKeepsSaved(s, y.history, e, until, y.disk);
    }
  }

  lemma CommitKeepsDisk(s: Session, history: seq<Entry>, e: Entry, d: Disk)
    requires DiskInv(s, history, d)
    ensures DiskInv(s, history + [e], d)
  {
    FittingGrows(s, history, [e]);
  }

  lemma CommitKeepsOrder(history: seq<Entry>, e: Entry)
    requires Increasing(history) && e.sequence > LastSequence(history)
    ensures Increasing(history + [e])
  {}

  lemma CommitKeepsInv(s: Session, y: World, e: Entry, z: World)
    requires Inv(s, y) && e.sequence > LastSequence(y.history)
    requires z == y.(history := y.history + [e], outbox := y.outbox + [e])
    ensures Inv(s, z)
  {
    CommitKeepsOrder(y.history, e);
    CommitKeepsDisk(s, y.history, e, y.disk);
    assert Acked(z) == Acked(y);
    CommitKeepsSaved(s, y.history, e, Acked(y), y.disk);
    assert z.outbox == z.history[Acked(y)..];
    forall w | w in z.workers ensures WorkerInv(s, z, Acked(z), z.workers[w]) {
      CommitKeepsWorker(s, y, e, z, w);
    }
  }

  // A call that keeps the disk keeps what every worker relies on.
  lemma WorkersKeep(s: Session, y: World, z: World, w: nat)
    requires w in y.workers && WorkerInv(s, y, Acked(y), y.workers[w])
    requires z.history == y.history && Acked(y) <= Acked(z) && KeepsDisk(s, y.history, y.disk, z.disk)
    ensures WorkerInv(s, z, Acked(z), y.workers[w])
  {
    var from: nat, until: nat :|
      && BatchIs(y.history, Acked(y), y.workers[w].batch, from, until)
      && (y.workers[w].Synced? && y.workers[w].batch != [] ==> Saved(s, y.history, until, y.disk));
    assert BatchIs(z.history, Acked(z), y.workers[w].batch, from, until);
  }

  lemma SyncKeepsInv(s: Session, y: World, w: nat, left: Disk, ok: bool, z: World)
    requires s.wire.Faithful() && Inv(s, y)
    requires w in y.workers && y.workers[w].Holding?
    requires var plan := SyncPlan(s, y.disk.content, y.workers[w].batch);
             && LeftBehind(y.disk, plan.ops, left)
             && (ok ==> plan.verdict.Ok? && left == Run(y.disk, plan.ops))
    requires z == y.(disk := left,
                     workers := if ok then y.workers[w := Synced(y.workers[w].batch)] else y.workers - {w})
    ensures Inv(s, z)
  {
    var batch := y.workers[w].batch;
    assert WorkerInv(s, y, Acked(y), y.workers[w]);
    var from: nat, until: nat :| BatchIs(y.history, Acked(y), batch, from, until);
    CallKeeps(s, y.history, y.disk, Acked(y), from, until, left);
    forall v | v in z.workers ensures WorkerInv(s, z, Acked(z), z.workers[v]) {
      if ok && v == w {
        OkMakesDurable(s, y.history, y.disk, Acked(y), from, until);
        assert BatchIs(z.history, Acked(z), batch, from, until);
      } else {
        WorkersKeep(s, y, z, v);
      }
    }
  }

  lemma KeepsSame(s: Session, history: seq<Entry>, d: Disk)
    requires DiskInv(s, history, d)
    ensures KeepsDisk(s, history, d, d)
  {}

  lemma AcknowledgeKeepsInv(s: Session, y: World, w: nat, z: World)
    requires Inv(s, y) && w in y.workers && y.workers[w].Synced?
    requires z == y.(outbox := Acknowledged(y.outbox, y.workers[w].batch), workers := y.workers - {w})
    ensures Inv(s, z)
  {
    var acked := AckedAfter(s, y, w);
    assert Acked(z) == acked;
    KeepsSame(s, y.history, y.disk);
    forall v | v in z.workers ensures WorkerInv(s, z, Acked(z), z.workers[v]) {
      WorkersKeep(s, y, z, v);
    }
  }

  lemma AckedAfter(s: Session, y: World, w: nat) returns (acked: nat)
    requires Inv(s, y) && w in y.workers && y.workers[w].Synced?
    ensures Acked(y) <= acked <= |y.history|
    ensures Acknowledged(y.outbox, y.workers[w].batch) == y.history[acked..]
    ensures Saved(s, y.history, acked, y.disk)
  {
    var batch := y.workers[w].batch;
    acked := Acked(y);
    assert WorkerInv(s, y, Acked(y), y.workers[w]);
    if batch != [] {
      var from: nat, until: nat :|
        BatchIs(y.history, Acked(y), batch, from, until) && Saved(s, y.history, until, y.disk);
      AcknowledgedSuffix(y.history, Acked(y), from, until);
      acked := if acked <= until then until else acked;
    }
  }

  // Deleting through the batch's last sequence deletes exactly the rows before `until`.
  lemma AcknowledgedSuffix(history: seq<Entry>, acked: nat, from: nat, until: nat)
    requires Increasing(history) && from < until <= |history| && acked <= |history|
    ensures Acknowledged(history[acked..], history[from..until]) ==
            history[if acked <= until then until else acked..]
  {
    var batch := history[from..until];
    assert LastSequence(batch) == history[until - 1].sequence == LastSequence(history[..until]);
    if acked <= until {
      assert history[acked..|history|] == history[acked..] && history[until..|history|] == history[until..];
      AfterSuffix(history, acked, |history|, until);
    } else {
      AfterAll(history[acked..], LastSequence(batch));
    }
  }

  lemma CommonPrefixOf(a: seq<Byte>, b: seq<Byte>, full: seq<Byte>)
    requires a <= full && b <= full
    ensures CommonPrefix(a, b) == if |a| <= |b| then |a| else |b|
  {
    if a != [] && b != [] {
      assert a[0] == full[0] == b[0];
      CommonPrefixOf(a[1..], b[1..], full[1..]);
    }
  }

  // A power cut leaves a prefix of the full log that holds what both views held.
  lemma SurvivingBytes(s: Session, history: seq<Entry>, d: Disk, bytes: seq<Byte>)
    requires DiskInv(s, history, d) && Survives(d, bytes)
    ensures bytes <= FullLog(s, history)
    ensures KeepsDisk(s, history, d, Disk(bytes, bytes))
  {
    var full := FullLog(s, history);
    CommonPrefixOf(d.content, d.durable, full);
    var m: nat, j: nat :|
      && CommonPrefix(d.content, d.durable) <= m <= |d.content|
      && bytes == d.content[..m] + (if m <= j <= |d.durable| then d.durable[m..j] else []);
    assert bytes == full[..|bytes|];
  }

  // A reader's repair is what a sync of nothing would do, or the first part of it.
  lemma ReadKeepsDisk(s: Session, history: seq<Entry>, d: Disk, acked: nat, left: Disk)
    requires s.wire.Faithful() && Increasing(history) && DiskInv(s, history, d)
    requires Saved(s, history, acked, d) && d.content != []
    requires LeftBehind(d, RepairOps(d.content), left)
    ensures KeepsDisk(s, history, d, left)
  {
    var plan := SyncPlan(s, d.content, []);
    if Recover(s, d.content).Ok? {
      var stored := Recover(s, d.content).value;
      FailedBefore(d, RepairOps(d.content),
                   AppendPlan(s, IdMap(stored), LastSequence(Entries(stored)), []).ops, left);
    }
    assert LeftBehind(d, plan.ops, left);
    assert history[0..0] == [];
    CallKeeps(s, history, d, acked, 0, 0, left);
  }

  lemma ReadKeepsInv(s: Session, y: World, left: Disk, z: World)
    requires s.wire.Faithful() && Inv(s, y)
    requires LeftBehind(y.disk, RepairOps(y.disk.content), left) && z == y.(disk := left)
    ensures Inv(s, z)
  {
    if y.disk.content == [] {
      assert left == y.disk;
      KeepsSame(s, y.history, y.disk);
    } else {
      ReadKeepsDisk(s, y.history, y.disk, Acked(y), left);
    }
    forall v | v in z.workers ensures WorkerInv(s, z, Acked(z), z.workers[v]) {
      WorkersKeep(s, y, z, v);
    }
  }

  lemma ReadOutboxKeepsInv(s: Session, y: World, w: nat, z: World)
    requires Inv(s, y) && z == y.(workers := y.workers[w := Holding(y.outbox)])
    ensures Inv(s, z)
  {
    KeepsSame(s, y.history, y.disk);
    assert BatchIs(z.history, Acked(z), y.outbox, Acked(z), |z.history|);
    forall v | v in z.workers ensures WorkerInv(s, z, Acked(z), z.workers[v]) {
      if v != w {
        WorkersKeep(s, y, z, v);
      }
    }
  }

  lemma DeathKeepsInv(s: Session, y: World, w: nat, z: World)
    requires Inv(s, y) && z == y.(workers := y.workers - {w})
    ensures Inv(s, z)
  {
    KeepsSame(s, y.history, y.disk);
    forall v | v in z.workers ensures WorkerInv(s, z, Acked(z), z.workers[v]) {
      WorkersKeep(s, y, z, v);
    }
  }

  lemma StepKeepsInv(s: Session, y: World, event: Event, z: World)
    requires s.wire.Faithful() && Inv(s, y) && Step(s, y, event, z)
    ensures Inv(s, z)
  {
    match event
    case Commit(e) => CommitKeepsInv(s, y, e, z);
    case ReadOutbox(w) => ReadOutboxKeepsInv(s, y, w, z);
    case SyncReturns(w, left, r) =>
      RunIsLeftBehind(y.disk, SyncPlan(s, y.disk.content, y.workers[w].batch).ops);
      SyncKeepsInv(s, y, w, left, r.Ok?, z);
    case SyncDies(w, left) => SyncKeepsInv(s, y, w, left, false, z);
    case Acknowledge(w) => AcknowledgeKeepsInv(s, y, w, z);
    case WorkerDies(w) => DeathKeepsInv(s, y, w, z);
    case ReadFile(left) => ReadKeepsInv(s, y, left, z);
    case PowerCut(bytes) => SurvivingBytes(s, y.history, y.disk, bytes);
  }

  // ---------- the main results ----------

  lemma ReachableKeepsInv(s: Session, run: seq<World>, i: nat)
    requires s.wire.Faithful() && Reachable(s, run) && i < |run|
    ensures Inv(s, run[i])
  {
    if i > 0 {
      ReachableKeepsInv(s, run, i - 1);
      assert Stepped(s, run[i - 1], run[i]);
      var event :| Step(s, run[i - 1], event, run[i]);
      StepKeepsInv(s, run[i - 1], event, run[i]);
    }
  }

  // What a reader finds in bytes a power cut left: an in-order prefix of the committed
  // history that reaches the outbox. Before anything is acknowledged the file may be
  // unreadable; past the reader's size limit it always is.
  ghost predicate ReadsBackTo(s: Session, history: seq<Entry>, acked: nat, bytes: seq<Byte>) {
    if |bytes| > MAX_FILE_BYTES then acked == 0 || LogBytes(s, history[..Min(acked, |history|)]) <= bytes
    else
      || (acked == 0 && |bytes| < |HeaderLine(s)|)
      || exists n: nat :: acked <= n <= |history| && Recover(s, bytes) == Ok(StoredOf(s, history[..n]))
  }

  // The outbox is a suffix of the committed history, and these bytes read back to it.
  ghost predicate LosesNothing(s: Session, y: World, bytes: seq<Byte>) {
    && Increasing(y.history)
    && |y.outbox| <= |y.history| && y.outbox == y.history[|y.history| - |y.outbox|..]
    && ReadsBackTo(s, y.history, |y.history| - |y.outbox|, bytes)
  }

  lemma ReadsBack(s: Session, history: seq<Entry>, acked: nat, bytes: seq<Byte>)
    requires s.wire.Faithful() && Increasing(history) && acked <= |history|
    requires bytes <= FullLog(s, history) && Holds(s, history, acked, bytes)
    ensures ReadsBackTo(s, history, acked, bytes)
  {
    var log := TakeFitting(s, history);
    PrefixOf(bytes, LogBytes(s, log));
    if |bytes| > MAX_FILE_BYTES {
      if acked > 0 {
        FittingPrefix(s, history, acked);
        LogPrefix(s, log, acked);
      }
    } else if |bytes| >= |HeaderLine(s)| {
      CutLogRecovers(s, log, |bytes|);
      FittingPrefix(s, history, Survivors(s, log, |bytes|));
      SavedSurvives(s, history, acked, bytes);
    } else if acked > 0 {
      HoldsHeader(s, history, acked, bytes);
    }
  }

  lemma HoldsHeader(s: Session, history: seq<Entry>, n: nat, bytes: seq<Byte>)
    requires n > 0 && Holds(s, history, n, bytes)
    ensures |HeaderLine(s)| <= |bytes|
  {}

  /**
   In every interleaving of commits, drains, readers and crashes: the outbox is a suffix
   of the committed history, and whatever a power cut leaves at this moment reads back as
   a duplicate-free in-order prefix of the history that reaches that suffix. Each
   committed entry is therefore in the durable file or still in the outbox.
   */
  lemma NothingIsLost(s: Session, run: seq<World>, i: nat, bytes: seq<Byte>)
    requires s.wire.Faithful() && Reachable(s, run) && i < |run|
    requires Survives(run[i].disk, bytes)
    ensures LosesNothing(s, run[i], bytes)
  {
    ReachableKeepsInv(s, run, i);
    InvLosesNothing(s, run[i], bytes);
  }

  lemma InvLosesNothing(s: Session, y: World, bytes: seq<Byte>)
    requires s.wire.Faithful() && Inv(s, y) && Survives(y.disk, bytes)
    ensures LosesNothing(s, y, bytes)
  {
    OutboxIsSuffix(y.history, y.outbox, Acked(y));
    SurvivingBytes(s, y.history, y.disk, bytes);
    ReadsBack(s, y.history, Acked(y), bytes);
  }

  lemma OutboxIsSuffix(history: seq<Entry>, outbox: seq<Entry>, acked: nat)
    requires acked <= |history| && outbox == history[acked..]
    ensures |outbox| <= |history| && acked == |history| - |outbox|
  {}

  // A reader of these bytes finds this entry in place k.
  ghost predicate InFile(s: Session, bytes: seq<Byte>, k: nat, e: Entry) {
    match Recover(s, bytes)
    case Ok(stored) => k < |stored| && stored[k].entry == Normal(e)
    case Err(_) => false
  }

  lemma ReadBackHolds(s: Session, history: seq<Entry>, acked: nat, bytes: seq<Byte>, k: nat)
    requires ReadsBackTo(s, history, acked, bytes) && |bytes| <= MAX_FILE_BYTES && k < acked <= |history|
    ensures InFile(s, bytes, k, history[k])
  {
    var n: nat :| acked <= n <= |history| && Recover(s, bytes) == Ok(StoredOf(s, history[..n]));
    assert history[..n][k] == history[k];
  }

  lemma SuffixHas(all: seq<Entry>, start: nat, suffix: seq<Entry>, k: nat)
    requires start <= k < |all| && suffix == all[start..]
    ensures all[k] in suffix
  {
    assert suffix[k - start] == all[k];
  }

  /** Each committed entry is still in the outbox or found by a reader in its place. */
  lemma EveryEntrySomewhere(s: Session, run: seq<World>, i: nat, bytes: seq<Byte>, k: nat)
    requires s.wire.Faithful() && Reachable(s, run) && i < |run|
    requires Survives(run[i].disk, bytes) && |bytes| <= MAX_FILE_BYTES && k < |run[i].history|
    ensures run[i].history[k] in run[i].outbox || InFile(s, bytes, k, run[i].history[k])
  {
    NothingIsLost(s, run, i, bytes);
    var history, outbox := run[i].history, run[i].outbox;
    var acked := |history| - |outbox|;
    if k >= acked {
      SuffixHas(history, acked, outbox, k);
    } else {
      ReadBackHolds(s, history, acked, bytes, k);
    }
  }

  // The sizes at which a drain can read the file: past its header, within the reader's limit.
  predicate Readable(s: Session, content: seq<Byte>) {
    |HeaderLine(s)| <= |content| <= MAX_FILE_BYTES
  }

  /** In every reachable state a file of readable size is readable. */
  lemma ReadableSizeSuffices(s: Session, run: seq<World>, i: nat)
    requires s.wire.Faithful() && Reachable(s, run) && i < |run|
    ensures Readable(s, run[i].disk.content) ==> Recover(s, run[i].disk.content).Ok?
  {
    var y := run[i];
    ReachableKeepsInv(s, run, i);
    if Readable(s, y.disk.content) {
      ReadableRecovers(s, y.history, y.disk);
    }
  }

  lemma ReadableRecovers(s: Session, history: seq<Entry>, d: Disk)
    requires s.wire.Faithful() && Increasing(history) && DiskInv(s, history, d) && Readable(s, d.content)
    ensures Recover(s, d.content).Ok?
  {
    var log := TakeFitting(s, history);
    assert Increasing(log);
    PrefixOf(d.content, LogBytes(s, log));
    CutLogRecovers(s, log, |d.content|);
  }

  /**
   A worker's batch, however stale, is refused only for one of three reasons: the file is
   torn inside its header, it is over the reader's limit, or a record is oversized. On an
   empty file a batch must also be there to begin with.
   */
  lemma WhenADrainSucceeds(s: Session, run: seq<World>, i: nat, w: nat)
    requires s.wire.Faithful() && Reachable(s, run) && i < |run|
    requires w in run[i].workers && run[i].workers[w].Holding?
    ensures Readable(s, run[i].disk.content) ==> Recover(s, run[i].disk.content).Ok?
    ensures var y := run[i];
            var batch, content := y.workers[w].batch, y.disk.content;
            SyncPlan(s, content, batch).verdict.Ok? <==>
              if content == [] then batch != [] && |HeaderText(s)| <= MAX_RECORD_BYTES && AllFit(s, batch)
              else && Readable(s, content)
                   && AllFit(s, After(batch, LastSequence(Entries(Recover(s, content).value))))
  {
    var y := run[i];
    ReachableKeepsInv(s, run, i);
    ReadableSizeSuffices(s, run, i);
    assert WorkerInv(s, y, Acked(y), y.workers[w]);
    var from: nat, until: nat :| BatchIs(y.history, Acked(y), y.workers[w].batch, from, until);
    assert Increasing(y.history[from..until]);
    if y.disk.content == [] {
      SyncOnEmpty(s, y.disk.durable, y.workers[w].batch);
    } else if Readable(s, y.disk.content) {
      DrainVerdict(s, y.history, y.disk, Acked(y), from, until);
    } else {
      NotOkWhenUnreadable(s, y.history, y.disk, y.workers[w].batch);
    }
  }

  lemma DrainVerdict(s: Session, history: seq<Entry>, d: Disk, acked: nat, from: nat, until: nat)
    requires s.wire.Faithful() && Increasing(history) && DiskInv(s, history, d)
    requires Saved(s, history, acked, d) && from <= acked && from <= until <= |history|
    requires |HeaderLine(s)| <= |d.content| <= MAX_FILE_BYTES
    ensures Recover(s, d.content).Ok?
    ensures SyncPlan(s, d.content, history[from..until]).verdict.Ok? <==>
            AllFit(s, After(history[from..until], LastSequence(Entries(Recover(s, d.content).value))))
  {
    var log := TakeFitting(s, history);
    var n := Survivors(s, log, |d.content|);
    assert Increasing(log) && Increasing(history[from..until]);
    PrefixOf(d.content, LogBytes(s, log));
    FittingPrefix(s, history, n);
    SyncOnLog(s, log, |d.content|, d.durable, history[from..until]);
    SavedSurvives(s, history, acked, d.content);
    AgreesWithSuffix(history, from, until, n);
    CutLogRecovers(s, log, |d.content|);
    LastOfStored(s, history[..n]);
  }

  /**
   One undisturbed drain from any reachable state whose file is readable and whose
   entries all fit puts the whole history into the file, byte for byte and durably,
   and empties the outbox.
   */
  lemma OneDrainFinishes(s: Session, run: seq<World>, i: nat)
    requires s.wire.Faithful() && Reachable(s, run) && i < |run|
    requires var y := run[i];
             && AllFit(s, y.history)
             && (if y.disk.content == [] then y.outbox != [] && |HeaderText(s)| <= MAX_RECORD_BYTES
                 else |HeaderLine(s)| <= |y.disk.content| <= MAX_FILE_BYTES)
    ensures var y := run[i];
            var plan := SyncPlan(s, y.disk.content, y.outbox);
            && plan.verdict.Ok?
            && Run(y.disk, plan.ops) == Disk(LogBytes(s, y.history), LogBytes(s, y.history))
            && Acknowledged(y.outbox, y.outbox) == []
  {
    var y := run[i];
    ReachableKeepsInv(s, run, i);
    AllFitIsAll(s, y.history);
    var acked := Acked(y);
    assert acked <= |y.history|;
    if y.disk.content == [] {
      NothingWholeInNothing(s, y.history, acked);
      assert y.outbox == y.history;
      SyncOnEmpty(s, y.disk.durable, y.outbox);
    } else {
      PrefixOf(y.disk.content, LogBytes(s, y.history));
      SavedSurvives(s, y.history, acked, y.disk.content);
      SyncRebuildsTheLog(s, y.history, |y.disk.content|, y.disk.durable, acked);
    }
    if y.outbox != [] {
      assert y.history[acked..|y.history|] == y.outbox;
      AcknowledgedSuffix(y.history, acked, acked, |y.history|);
    }
  }
}
