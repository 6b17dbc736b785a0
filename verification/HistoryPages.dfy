/** Pages of the committed history, each read behind its own drain, in any run of the outbox. */
module HistoryPages {
  import opened Prelude
  import opened Lines
  import opened Transcript
  import opened Conversation
  import opened LogRecovery
  import opened SyncRefinement
  import opened SessionFile
  import opened Outbox
  import opened Paging

  /** Whatever a file holds, paging from 0 and from the start are the same once it can be read. */
  lemma ReadFromZero(s: Session, content: seq<Byte>, limit: nat)
    requires Recover(s, content).Ok?
    ensures var entries := Entries(Recover(s, content).value);
            && ForwardPage(entries, Some(0), limit) == ForwardPage(entries, None, limit)
            && ForwardPage(entries, None, limit).entries <= entries
  {
    ReadEntriesIncrease(s, content);
    ZeroIsTheStart(Entries(Recover(s, content).value), limit);
  }

  // ---------- what only grows over a run ----------

  lemma HistoryGrows(s: Session, run: seq<World>, i: nat, j: nat)
    requires Reachable(s, run) && i <= j < |run|
    ensures run[i].history <= run[j].history
  {
    if i < j {
      HistoryGrows(s, run, i, j - 1);
      assert Stepped(s, run[j - 1], run[j]);
    }
  }

  lemma StepKeepsAcked(s: Session, y: World, event: Event, z: World)
    requires Inv(s, y) && Step(s, y, event, z)
    ensures Acked(y) <= Acked(z)
  {
    match event
    case Commit(_) => assert |z.outbox| - |y.outbox| == |z.history| - |y.history|;
    case Acknowledge(w) => var acked := AckedAfter(s, y, w);
    case _ =>
  }

  lemma NextKeepsAcked(s: Session, run: seq<World>, i: nat)
    requires s.wire.Faithful() && Reachable(s, run) && 0 < i < |run|
    ensures Acked(run[i - 1]) <= Acked(run[i])
  {
    ReachableKeepsInv(s, run, i - 1);
    assert Stepped(s, run[i - 1], run[i]);
    var event :| Step(s, run[i - 1], event, run[i]);
    StepKeepsAcked(s, run[i - 1], event, run[i]);
  }

  lemma {:induction false} AckedGrows(s: Session, run: seq<World>, i: nat, j: nat)
    requires s.wire.Faithful() && Reachable(s, run) && i <= j < |run|
    ensures Acked(run[i]) <= Acked(run[j])
    decreases j
  {
    if i < j {
      AckedGrows(s, run, i, j - 1);
      NextKeepsAcked(s, run, j);
    }
  }

  // ---------- one page: drain, then read ----------

  /** A page: the worker that drains for it, and the positions in the run at which it reads
      the outbox, acknowledges its batch, and the file is read. */
  datatype PageRead = PageRead(worker: nat, asked: nat, acked: nat, read: nat)

  // The worker's sync must have returned Ok in between: only then can it acknowledge.
  ghost predicate DrainedAndRead(s: Session, run: seq<World>, p: PageRead) {
    && p.asked < p.acked < p.read < |run|
    && Step(s, run[p.asked], ReadOutbox(p.worker), run[p.asked + 1])
    && (forall i :: p.asked < i <= p.acked ==> p.worker in run[i].workers)
    && Step(s, run[p.acked], Acknowledge(p.worker), run[p.acked + 1])
    && Readable(s, run[p.read].disk.content)
  }

  lemma StepKeepsBatch(s: Session, y: World, event: Event, z: World, w: nat)
    requires Step(s, y, event, z) && w in y.workers && w in z.workers
    ensures z.workers[w].batch == y.workers[w].batch
  {}

  // While it lives a worker keeps the batch it read.
  lemma BatchStays(s: Session, run: seq<World>, p: PageRead, i: nat)
    requires Reachable(s, run) && DrainedAndRead(s, run, p) && p.asked < i <= p.acked
    ensures run[i].workers[p.worker].batch == run[p.asked].outbox
  {
    if i > p.asked + 1 {
      BatchStays(s, run, p, i - 1);
      assert Stepped(s, run[i - 1], run[i]);
      var event :| Step(s, run[i - 1], event, run[i]);
      StepKeepsBatch(s, run[i - 1], event, run[i], p.worker);
    }
  }

  // A batch that is the whole outbox of an earlier moment ends where the history then did.
  lemma BatchEnds(early: seq<Entry>, late: seq<Entry>, acked: nat, batch: seq<Entry>, from: nat, until: nat)
    requires Increasing(late) && early <= late && acked < |early| && batch == early[acked..]
    requires from <= until <= |late| && batch == late[from..until]
    ensures until == |early|
  {
    assert batch[|batch| - 1] == early[|early| - 1] == late[|early| - 1];
    assert batch[|batch| - 1] == late[until - 1];
  }

  /** What a page's drain acknowledged reaches everything committed when it read the outbox. */
  lemma DrainCovers(s: Session, run: seq<World>, p: PageRead)
    requires s.wire.Faithful() && Reachable(s, run) && DrainedAndRead(s, run, p)
    ensures |run[p.asked].history| <= Acked(run[p.acked + 1])
  {
    var early, late := run[p.asked], run[p.acked];
    ReachableKeepsInv(s, run, p.asked);
    ReachableKeepsInv(s, run, p.acked);
    BatchStays(s, run, p, p.acked);
    if early.outbox == [] {
      AckedGrows(s, run, p.asked, p.acked + 1);
    } else {
      HistoryGrows(s, run, p.asked, p.acked);
      AcknowledgeCovers(s, early, late, p.worker, run[p.acked + 1]);
    }
  }

  lemma AcknowledgeCovers(s: Session, early: World, late: World, w: nat, z: World)
    requires Inv(s, early) && Inv(s, late) && early.history <= late.history && early.outbox != []
    requires w in late.workers && late.workers[w].batch == early.outbox && Step(s, late, Acknowledge(w), z)
    ensures |early.history| <= Acked(z)
  {
    var batch, acked := early.outbox, Acked(late);
    assert WorkerInv(s, late, acked, late.workers[w]);
    var from: nat, until: nat :| BatchIs(late.history, acked, batch, from, until);
    BatchEnds(early.history, late.history, Acked(early), batch, from, until);
    AcknowledgedSuffix(late.history, acked, from, until);
  }

  // ---------- what the pages are cut from ----------

  // What a reader finds in the file at one moment of a run.
  function FoundAt(s: Session, run: seq<World>, i: nat): seq<Entry>
    requires i < |run|
  {
    match Recover(s, run[i].disk.content)
    case Ok(stored) => Entries(stored)
    case Err(_) => []
  }

  /** A readable file gives the first so many committed entries, the acknowledged ones among them. */
  lemma FoundIsHistory(s: Session, run: seq<World>, i: nat) returns (n: nat)
    requires s.wire.Faithful() && Reachable(s, run) && i < |run| && Readable(s, run[i].disk.content)
    ensures Acked(run[i]) <= n <= |run[i].history| && FoundAt(s, run, i) == Normals(run[i].history[..n])
    ensures Increasing(FoundAt(s, run, i))
  {
    var y := run[i];
    ReachableKeepsInv(s, run, i);
    var log := TakeFitting(s, y.history);
    n := Survivors(s, log, |y.disk.content|);
    assert Increasing(log);
    PrefixOf(y.disk.content, LogBytes(s, log));
    CutLogRecovers(s, log, |y.disk.content|);
    FittingPrefix(s, y.history, n);
    SavedSurvives(s, y.history, Acked(y), y.disk.content);
    ReadEntriesIncrease(s, y.disk.content);
  }

  /** What a page finds holds everything committed when its drain began. */
  lemma PageFindsHistory(s: Session, run: seq<World>, p: PageRead) returns (n: nat)
    requires s.wire.Faithful() && Reachable(s, run) && DrainedAndRead(s, run, p)
    ensures |run[p.asked].history| <= n <= |run[p.read].history|
    ensures FoundAt(s, run, p.read) == Normals(run[p.read].history[..n]) && Increasing(FoundAt(s, run, p.read))
  {
    DrainCovers(s, run, p);
    AckedGrows(s, run, p.acked + 1, p.read);
    n := FoundIsHistory(s, run, p.read);
  }

  // Each page is read before the next one's drain begins. Between them anything may happen,
  // power cuts included.
  ghost predicate PagesInOrder(s: Session, run: seq<World>, pages: seq<PageRead>) {
    && (forall j :: 0 <= j < |pages| ==> DrainedAndRead(s, run, pages[j]))
    && (forall j :: 0 < j < |pages| ==> pages[j - 1].read <= pages[j].asked)
  }

  function FoundAll(s: Session, run: seq<World>, pages: seq<PageRead>): seq<seq<Entry>>
    requires forall j :: 0 <= j < |pages| ==> pages[j].read < |run|
  {
    seq(|pages|, j requires 0 <= j < |pages| => FoundAt(s, run, pages[j].read))
  }

  lemma NormalsPrefix(short: seq<Entry>, long: seq<Entry>, n: nat, m: nat)
    requires short <= long && n <= |short| && n <= m <= |long|
    ensures Normals(short[..n]) <= Normals(long[..m])
  {}

  /** What a page finds is never less than what the page before it found. */
  lemma FoundGrows(s: Session, run: seq<World>, p: PageRead, q: PageRead)
    requires s.wire.Faithful() && Reachable(s, run) && DrainedAndRead(s, run, p) && DrainedAndRead(s, run, q)
    requires p.read <= q.asked
    ensures FoundAt(s, run, p.read) <= FoundAt(s, run, q.read)
  {
    var n := PageFindsHistory(s, run, p);
    var m := PageFindsHistory(s, run, q);
    HistoryGrows(s, run, p.read, q.asked);
    HistoryGrows(s, run, p.read, q.read);
    NormalsPrefix(run[p.read].history, run[q.read].history, n, m);
  }

  lemma FoundAllGrow(s: Session, run: seq<World>, pages: seq<PageRead>)
    requires s.wire.Faithful() && Reachable(s, run) && PagesInOrder(s, run, pages)
    ensures Growing(FoundAll(s, run, pages))
  {
    var logs := FoundAll(s, run, pages);
    forall j | 0 <= j < |logs| ensures Increasing(logs[j]) {
      var n := PageFindsHistory(s, run, pages[j]);
    }
    forall j | 0 < j < |logs| ensures logs[j - 1] <= logs[j] {
      FoundGrows(s, run, pages[j - 1], pages[j]);
    }
  }

  /**
   A client that follows pages while the session goes on, power cuts included, collects the
   committed history: each entry once, in order, nothing else. Once it is told there is no
   more it holds everything committed before the last page was asked for.
   */
  lemma FollowingCollectsTheHistory(s: Session, run: seq<World>, pages: seq<PageRead>, limit: nat) returns (k: nat)
    requires s.wire.Faithful() && Reachable(s, run) && pages != [] && PagesInOrder(s, run, pages)
    requires AskedForMore(FoundAll(s, run, pages), limit)
    ensures var client, last := Following(FoundAll(s, run, pages), limit), pages[|pages| - 1];
            && k <= |run[last.read].history| && client.collected == Normals(run[last.read].history[..k])
            && (!client.hasMore ==> |run[last.asked].history| <= k)
  {
    var logs, last := FoundAll(s, run, pages), pages[|pages| - 1];
    FoundAllGrow(s, run, pages);
    k := FollowingCollectsTheLog(logs, limit);
    var n := PageFindsHistory(s, run, last);
    assert Normals(run[last.read].history[..n])[..k] == Normals(run[last.read].history[..k]);
  }
}
