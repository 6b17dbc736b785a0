/**
 `sync` refines "append what is newer than the file, after checking that what is
 older is there": its verdict, its final file, and every file an interruption leaves.
 */
module SyncRefinement {
  import opened Prelude
  import opened Lines
  import opened Transcript
  import opened Conversation
  import opened LogRecovery

  // How many entries the writer accepts before the first oversized record.
  function FitCount(s: Session, entries: seq<Entry>): (n: nat)
    ensures n <= |entries|
    ensures forall i :: 0 <= i < n ==> Fits(s, entries[i])
    ensures n < |entries| ==> !Fits(s, entries[n])
  {
    FitCountFrom(s, entries, 0)
  }

  function FitCountFrom(s: Session, entries: seq<Entry>, at: nat): (n: nat)
    requires at <= |entries|
    ensures at <= n <= |entries|
    ensures forall i :: at <= i < n ==> Fits(s, entries[i])
    ensures n < |entries| ==> !Fits(s, entries[n])
    decreases |entries| - at
  {
    if at == |entries| || !Fits(s, entries[at]) then at else FitCountFrom(s, entries, at + 1)
  }

  function TakeFitting(s: Session, entries: seq<Entry>): seq<Entry> {
    entries[..FitCount(s, entries)]
  }

  lemma FitCountIs(s: Session, entries: seq<Entry>, n: nat)
    requires n <= |entries| && forall i :: 0 <= i < n ==> Fits(s, entries[i])
    requires n == |entries| || !Fits(s, entries[n])
    ensures FitCount(s, entries) == n
  {}

  lemma AllFitIsAll(s: Session, entries: seq<Entry>)
    ensures AllFit(s, entries) <==> FitCount(s, entries) == |entries|
    ensures AllFit(s, entries) ==> TakeFitting(s, entries) == entries
  {}

  lemma TakeFittingFirst(s: Session, e: Entry, rest: seq<Entry>)
    requires Fits(s, e)
    ensures TakeFitting(s, [e] + rest) == [e] + TakeFitting(s, rest)
  {
    var n := FitCount(s, rest);
    assert forall i :: 0 < i <= |rest| ==> ([e] + rest)[i] == rest[i - 1];
    FitCountIs(s, [e] + rest, n + 1);
  }

  // Each batch entry the file is already past stands in it under the same identifier.
  ghost predicate AgreesWith(kept: seq<Entry>, batch: seq<Entry>) {
    forall e :: e in batch && e.sequence <= LastSequence(kept) ==> Contains(kept, e)
  }

  ghost predicate Contains(kept: seq<Entry>, e: Entry) {
    exists i :: 0 <= i < |kept| && kept[i].sequence == e.sequence && kept[i].entryId == e.entryId
  }

  // What is appended: the batch entries newer than the file, up to the first oversized one.
  function Newer(s: Session, kept: seq<Entry>, batch: seq<Entry>): seq<Entry> {
    TakeFitting(s, After(batch, LastSequence(kept)))
  }

  // ---------- the identifier map ----------

  ghost predicate HasSequence(kept: seq<Entry>, q: U64) {
    exists i :: 0 <= i < |kept| && kept[i].sequence == q
  }

  lemma IdMapGrows(s: Session, kept: seq<Entry>)
    requires kept != []
    ensures var n := |kept| - 1;
            IdMap(StoredOf(s, kept)) ==
            IdMap(StoredOf(s, kept[..n]))[kept[n].sequence := s.wire.idText(kept[n].entryId)]
  {
    var stored := StoredOf(s, kept);
    assert stored[..|stored| - 1] == StoredOf(s, kept[..|kept| - 1]);
  }

  lemma IdMapKeys(s: Session, kept: seq<Entry>, q: U64)
    ensures q in IdMap(StoredOf(s, kept)) <==> HasSequence(kept, q)
  {
    if kept != [] {
      IdMapGrows(s, kept);
      IdMapKeys(s, kept[..|kept| - 1], q);
      assert forall i :: 0 <= i < |kept| - 1 ==> kept[..|kept| - 1][i] == kept[i];
    }
  }

  lemma IdMapAt(s: Session, kept: seq<Entry>, i: nat)
    requires Increasing(kept) && i < |kept|
    ensures kept[i].sequence in IdMap(StoredOf(s, kept))
    ensures IdMap(StoredOf(s, kept))[kept[i].sequence] == s.wire.idText(kept[i].entryId)
  {
    IdMapGrows(s, kept);
    if i < |kept| - 1 {
      IdMapAt(s, kept[..|kept| - 1], i);
    }
  }

  lemma IdMapBelowLast(s: Session, kept: seq<Entry>)
    requires Increasing(kept)
    ensures forall q :: q in IdMap(StoredOf(s, kept)) ==> q <= LastSequence(kept)
  {
    forall q | q in IdMap(StoredOf(s, kept)) ensures q <= LastSequence(kept) {
      IdMapKeys(s, kept, q);
    }
  }

  // Looking an identifier up by its text is looking it up in the log.
  lemma IdMapAgrees(s: Session, kept: seq<Entry>, e: Entry)
    requires s.wire.Faithful() && Increasing(kept)
    ensures Recorded(s, IdMap(StoredOf(s, kept)), e) <==> Contains(kept, e)
  {
    var ids := IdMap(StoredOf(s, kept));
    if Recorded(s, ids, e) {
      IdMapKeys(s, kept, e.sequence);
      var i :| 0 <= i < |kept| && kept[i].sequence == e.sequence;
      IdMapAt(s, kept, i);
      assert s.wire.parseId(ids[e.sequence]) == Some(kept[i].entryId);
    }
    if Contains(kept, e) {
      var i :| 0 <= i < |kept| && kept[i].sequence == e.sequence && kept[i].entryId == e.entryId;
      IdMapAt(s, kept, i);
    }
  }

  ghost predicate Recorded(s: Session, ids: map<U64, string>, e: Entry) {
    e.sequence in ids && ids[e.sequence] == s.wire.idText(e.entryId)
  }

  // ---------- appending ----------

  lemma AfterAll(entries: seq<Entry>, sequence: nat)
    requires forall i :: 0 <= i < |entries| ==> entries[i].sequence > sequence
    ensures After(entries, sequence) == entries
  {
    if entries != [] {
      AfterAll(entries[1..], sequence);
    }
  }

  lemma IncreasingTail(entries: seq<Entry>)
    requires Increasing(entries) && entries != []
    ensures Increasing(entries[1..])
    ensures forall i :: 0 <= i < |entries[1..]| ==> entries[1..][i].sequence > entries[0].sequence
  {
    assert forall i :: 0 <= i < |entries[1..]| ==> entries[1..][i] == entries[i + 1];
  }

  // After one new entry is appended, all the entries behind it are new as well.
  lemma AfterFirstNew(batch: seq<Entry>, sequence: nat)
    requires Increasing(batch) && batch != [] && batch[0].sequence > sequence
    ensures After(batch, sequence) == batch
    ensures After(batch[1..], batch[0].sequence) == batch[1..]
  {
    IncreasingTail(batch);
    AfterAll(batch, sequence);
    AfterAll(batch[1..], batch[0].sequence);
  }

  ghost predicate OldOnesRecorded(s: Session, ids: map<U64, string>, last: U64, batch: seq<Entry>) {
    forall i :: 0 <= i < |batch| && batch[i].sequence <= last ==> Recorded(s, ids, batch[i])
  }

  lemma OldFirst(s: Session, ids: map<U64, string>, last: U64, batch: seq<Entry>)
    requires batch != [] && batch[0].sequence <= last
    ensures OldOnesRecorded(s, ids, last, batch) <==>
            Recorded(s, ids, batch[0]) && OldOnesRecorded(s, ids, last, batch[1..])
  {
    assert forall i :: 0 < i < |batch| ==> batch[i] == batch[1..][i - 1];
  }

  lemma NoneOld(s: Session, ids: map<U64, string>, last: U64, batch: seq<Entry>)
    requires forall i :: 0 <= i < |batch| ==> batch[i].sequence > last
    ensures OldOnesRecorded(s, ids, last, batch)
  {}

  lemma AllNew(batch: seq<Entry>, last: U64)
    requires Increasing(batch) && batch != [] && batch[0].sequence > last
    ensures forall i :: 0 <= i < |batch| ==> batch[i].sequence > last
  {}

  // The verdict, in terms of the identifier map.
  lemma {:induction false} AppendVerdict(s: Session, ids: map<U64, string>, last: U64, batch: seq<Entry>)
    requires Increasing(batch) && forall q :: q in ids ==> q <= last
    ensures AppendPlan(s, ids, last, batch).verdict.Ok? <==>
            OldOnesRecorded(s, ids, last, batch) && AllFit(s, After(batch, last))
    decreases |batch|
  {
    if batch != [] {
      var e, rest := batch[0], batch[1..];
      IncreasingTail(batch);
      if e.sequence <= last {
        AppendVerdict(s, ids, last, rest);
        OldFirst(s, ids, last, batch);
      } else {
        AllNew(batch, last);
        NoneOld(s, ids, last, batch);
        NoneOld(s, ids, e.sequence, rest);
        AfterFirstNew(batch, last);
        AppendVerdict(s, ids, e.sequence, rest);
        FitsFirst(s, batch);
      }
    }
  }

  /** What a refusal says of the first entry it meets that is neither recorded nor new and
      within the limit. */
  lemma {:induction false} AppendRefusedBecause(s: Session, ids: map<U64, string>, last: U64, batch: seq<Entry>)
    returns (i: nat)
    requires Increasing(batch) && (forall q :: q in ids ==> q <= last)
    requires AppendPlan(s, ids, last, batch).verdict.Err?
    ensures i < |batch|
    ensures forall j :: 0 <= j < i ==>
              if batch[j].sequence <= last then Recorded(s, ids, batch[j]) else Fits(s, batch[j])
    ensures var e, error := batch[i], AppendPlan(s, ids, last, batch).verdict.error;
            if e.sequence > last then !Fits(s, e) && error == LineLimit
            else if e.sequence in ids
            then ids[e.sequence] != s.wire.idText(e.entryId) && error == DifferentEntryId(e.sequence)
            else error == SequenceNotIncreasing(last, e.sequence)
    decreases |batch|
  {
    var e, rest := batch[0], batch[1..];
    IncreasingTail(batch);
    assert forall j :: 0 < j < |batch| ==> batch[j] == rest[j - 1];
    if e.sequence <= last && Recorded(s, ids, e) {
      i := AppendRefusedBecause(s, ids, last, rest);
      i := i + 1;
    } else if e.sequence > last && Fits(s, e) {
      AllNew(batch, last);
      i := AppendRefusedBecause(s, ids, e.sequence, rest);
      i := i + 1;
    } else {
      i := 0;
    }
  }

  lemma FitsFirst(s: Session, entries: seq<Entry>)
    requires entries != []
    ensures AllFit(s, entries) <==> Fits(s, entries[0]) && AllFit(s, entries[1..])
  {
    assert forall i :: 0 < i < |entries| ==> entries[i] == entries[1..][i - 1];
  }

  lemma InterruptedLater(d: Disk, ops: seq<Op>, steps: nat, bytes: nat)
    requires 0 < steps <= |ops|
    ensures Interrupted(d, ops, steps, bytes) == Interrupted(Apply(d, ops[0]), ops[1..], steps - 1, bytes)
  {
    assert ops[..steps][1..] == ops[1..][..steps - 1];
  }

  ghost predicate Between(low: seq<Byte>, middle: seq<Byte>, high: seq<Byte>) {
    low <= middle <= high
  }

  // What may be left when appending `batch` to the log of `kept` stops after some operations.
  ghost predicate LeavesLog(
    s: Session, ids: map<U64, string>, kept: seq<Entry>, batch: seq<Entry>, d: Disk, steps: nat, bytes: nat)
  {
    var plan := AppendPlan(s, ids, LastSequence(kept), batch);
    var target := LogBytes(s, kept + Newer(s, kept, batch));
    steps <= |plan.ops| ==>
      var left := Interrupted(d, plan.ops, steps, bytes);
      && Between(d.content, left.content, target)
      && (left.durable == d.durable || left.durable == left.content)
      && (plan.verdict.Ok? && steps == |plan.ops| ==> left == Disk(target, target))
  }

  // Wherever appending stops, the file holds a byte prefix of the log it is building.
  lemma {:induction false} AppendLeaves(
    s: Session, ids: map<U64, string>, kept: seq<Entry>, batch: seq<Entry>, d: Disk, steps: nat, bytes: nat)
    requires Increasing(batch) && forall q :: q in ids ==> q <= LastSequence(kept)
    requires d.content == LogBytes(s, kept)
    ensures LeavesLog(s, ids, kept, batch, d, steps, bytes)
    decreases |batch|, 1
  {
    if batch == [] {
      AppendNothing(s, ids, kept, d, steps, bytes);
    } else if batch[0].sequence in ids {
      IncreasingTail(batch);
      AppendLeaves(s, ids, kept, batch[1..], d, steps, bytes);
    } else if batch[0].sequence <= LastSequence(kept) || !Fits(s, batch[0]) {
      AppendRefused(s, ids, kept, batch, d, steps, bytes);
    } else if steps < 2 {
      AppendLeavesEarly(s, ids, kept, batch, d, steps, bytes);
    } else if steps <= |AppendPlan(s, ids, LastSequence(kept), batch).ops| {
      AppendLeavesLate(s, ids, kept, batch, d, steps, bytes);
    }
  }

  lemma AppendNothing(s: Session, ids: map<U64, string>, kept: seq<Entry>, d: Disk, steps: nat, bytes: nat)
    requires d.content == LogBytes(s, kept)
    ensures LeavesLog(s, ids, kept, [], d, steps, bytes)
  {
    assert kept + [] == kept;
    if steps == 1 {
      InterruptedLater(d, [Fsync], steps, bytes);
    }
  }

  lemma AppendRefused(
    s: Session, ids: map<U64, string>, kept: seq<Entry>, batch: seq<Entry>, d: Disk, steps: nat, bytes: nat)
    requires d.content == LogBytes(s, kept) && batch != [] && batch[0].sequence !in ids
    requires batch[0].sequence <= LastSequence(kept) || !Fits(s, batch[0])
    ensures LeavesLog(s, ids, kept, batch, d, steps, bytes)
  {
    LogGrows(s, kept, Newer(s, kept, batch));
  }

  lemma AppendLeavesEarly(
    s: Session, ids: map<U64, string>, kept: seq<Entry>, batch: seq<Entry>, d: Disk, steps: nat, bytes: nat)
    requires Increasing(batch) && forall q :: q in ids ==> q <= LastSequence(kept)
    requires d.content == LogBytes(s, kept)
    requires batch != [] && batch[0].sequence > LastSequence(kept) && Fits(s, batch[0])
    requires steps < 2
    ensures LeavesLog(s, ids, kept, batch, d, steps, bytes)
  {
    var e, rest := batch[0], batch[1..];
    var more := AppendPlan(s, ids, e.sequence, rest).ops;
    AfterFirstNew(batch, LastSequence(kept));
    assert batch == [e] + rest;
    TakeFittingFirst(s, e, rest);
    TargetGrows(s, kept, e, TakeFitting(s, rest));
    RecordLeaves(d, EntryText(s, e), more, steps, bytes);
    var left := Interrupted(d, RecordOps(EntryText(s, e)) + more, steps, bytes);
    PrefixTransitive(left.content, LogBytes(s, kept + [e]), LogBytes(s, kept + TakeFitting(s, batch)));
  }

  lemma AppendLeavesLate(
    s: Session, ids: map<U64, string>, kept: seq<Entry>, batch: seq<Entry>, d: Disk, steps: nat, bytes: nat)
    requires Increasing(batch) && forall q :: q in ids ==> q <= LastSequence(kept)
    requires d.content == LogBytes(s, kept)
    requires batch != [] && batch[0].sequence > LastSequence(kept) && Fits(s, batch[0])
    requires 2 <= steps <= |AppendPlan(s, ids, LastSequence(kept), batch).ops|
    ensures LeavesLog(s, ids, kept, batch, d, steps, bytes)
    decreases |batch|, 0
  {
    var e, rest := batch[0], batch[1..];
    var more := AppendPlan(s, ids, e.sequence, rest).ops;
    var grown := LogBytes(s, kept + [e]);
    AfterFirstNew(batch, LastSequence(kept));
    assert batch == [e] + rest;
    TakeFittingFirst(s, e, rest);
    TargetGrows(s, kept, e, TakeFitting(s, rest));
    RecordDone(d, EntryText(s, e), more, steps, bytes);
    IncreasingTail(batch);
    assert LastSequence(kept + [e]) == e.sequence;
    AppendLeaves(s, ids, kept + [e], rest, d.(content := grown), steps - 2, bytes);
    var left := Interrupted(d.(content := grown), more, steps - 2, bytes);
    PrefixTransitive(d.content, grown, left.content);
  }

  lemma PrefixTransitive(a: seq<Byte>, b: seq<Byte>, c: seq<Byte>)
    requires a <= b <= c
    ensures a <= c
  {}

  // Stopped inside the two writes of one record.
  lemma RecordLeaves(d: Disk, text: seq<Byte>, more: seq<Op>, steps: nat, bytes: nat)
    requires steps < 2
    ensures var left := Interrupted(d, RecordOps(text) + more, steps, bytes);
            Between(d.content, left.content, d.content + text + [NEWLINE]) && left.durable == d.durable
  {
    var ops := RecordOps(text) + more;
    if steps == 1 {
      InterruptedLater(d, ops, steps, bytes);
      assert ops[1..][0] == Put([NEWLINE]);
    }
  }

  // Stopped after them.
  lemma RecordDone(d: Disk, text: seq<Byte>, more: seq<Op>, steps: nat, bytes: nat)
    requires 2 <= steps <= 2 + |more|
    ensures Interrupted(d, RecordOps(text) + more, steps, bytes) ==
            Interrupted(d.(content := d.content + text + [NEWLINE]), more, steps - 2, bytes)
  {
    var ops := RecordOps(text) + more;
    InterruptedLater(d, ops, steps, bytes);
    InterruptedLater(Apply(d, Put(text)), ops[1..], steps - 1, bytes);
    assert ops[1..][1..] == more;
  }

  // The log being built, seen before and after its first new record.
  lemma TargetGrows(s: Session, kept: seq<Entry>, e: Entry, more: seq<Entry>)
    ensures LogBytes(s, kept + ([e] + more)) == LogBytes(s, kept + [e]) + EntryLines(s, more)
    ensures LogBytes(s, (kept + [e]) + more) == LogBytes(s, kept + [e]) + EntryLines(s, more)
    ensures LogBytes(s, kept + [e]) == LogBytes(s, kept) + EntryText(s, e) + [NEWLINE]
  {
    assert kept + ([e] + more) == (kept + [e]) + more;
    LogGrows(s, kept, [e]);
    LogGrows(s, kept + [e], more);
    assert EntryLines(s, [e]) == EntryLine(s, e) + [];
  }

  // ---------- whole calls ----------

  // A file state `sync` may leave when `kept` is the log it found after repair.
  ghost predicate SyncLeaves(s: Session, d: Disk, kept: seq<Entry>, batch: seq<Entry>, left: Disk) {
    || left == d
    || (&& Between(LogBytes(s, kept), left.content, LogBytes(s, kept + Newer(s, kept, batch)))
        && (left.durable == d.durable || left.durable == LogBytes(s, kept) || left.durable == left.content))
  }

  lemma RunAll(d: Disk, ops: seq<Op>)
    ensures Interrupted(d, ops, |ops|, 0) == Run(d, ops)
  {
    assert ops[..|ops|] == ops;
  }

  lemma LastOfStored(s: Session, kept: seq<Entry>)
    ensures LastSequence(Entries(StoredOf(s, kept))) == LastSequence(kept)
  {
    if kept != [] {
      assert Entries(StoredOf(s, kept))[|kept| - 1] == Normal(kept[|kept| - 1]);
    }
  }

  lemma CutOfWhole(bytes: seq<Byte>)
    requires EndsWithNewline(bytes)
    ensures CutLength(bytes) == |bytes| && bytes[..CutLength(bytes)] == bytes
  {}

  // The file `content` repairs to the log of `kept`.
  ghost predicate RepairsTo(s: Session, content: seq<Byte>, kept: seq<Entry>) {
    && 0 < CutLength(content) && |content| <= MAX_FILE_BYTES
    && content[..CutLength(content)] == LogBytes(s, kept)
    && Recover(s, content) == Ok(StoredOf(s, kept))
  }

  lemma ResumeOps(s: Session, content: seq<Byte>, kept: seq<Entry>, batch: seq<Entry>)
    requires RepairsTo(s, content, kept)
    ensures var append := AppendPlan(s, IdMap(StoredOf(s, kept)), LastSequence(kept), batch);
            var plan := ResumePlan(s, content, batch);
            && plan.verdict == append.verdict
            && plan.ops == (if EndsWithNewline(content) then append.ops
                            else [Truncate(|LogBytes(s, kept)|), Fsync] + append.ops)
  {
    LastOfStored(s, kept);
    var append := AppendPlan(s, IdMap(StoredOf(s, kept)), LastSequence(kept), batch);
    assert [] + append.ops == append.ops;
  }

  // Stopped inside or after the two operations of a repair.
  lemma RepairLeaves(d: Disk, cut: seq<Byte>, more: seq<Op>, steps: nat, bytes: nat)
    requires |cut| <= |d.content| && d.content[..|cut|] == cut
    requires steps <= 2 + |more|
    ensures Interrupted(d, [Truncate(|cut|), Fsync] + more, steps, bytes) ==
            (if steps == 0 then d
             else if steps == 1 then Disk(cut, d.durable)
             else Interrupted(Disk(cut, cut), more, steps - 2, bytes))
  {
    var ops := [Truncate(|cut|), Fsync] + more;
    if steps >= 1 {
      InterruptedLater(d, ops, steps, bytes);
      if steps >= 2 {
        InterruptedLater(Disk(cut, d.durable), ops[1..], steps - 1, bytes);
        assert ops[1..][1..] == more;
      }
    }
  }

  // Appending after the file has been repaired, at any stopping point.
  lemma ResumeLeaves(s: Session, kept: seq<Entry>, d: Disk, batch: seq<Entry>, steps: nat, bytes: nat)
    requires s.wire.Faithful() && Increasing(kept) && Increasing(batch)
    requires RepairsTo(s, d.content, kept)
    requires steps <= |ResumePlan(s, d.content, batch).ops|
    ensures var plan := ResumePlan(s, d.content, batch);
            var left := Interrupted(d, plan.ops, steps, bytes);
            var target := LogBytes(s, kept + Newer(s, kept, batch));
            && SyncLeaves(s, d, kept, batch, left)
            && (plan.verdict.Ok? && steps == |plan.ops| ==> left == Disk(target, target))
  {
    var ids := IdMap(StoredOf(s, kept));
    IdMapBelowLast(s, kept);
    ResumeOps(s, d.content, kept, batch);
    if EndsWithNewline(d.content) {
      CutOfWhole(d.content);
      AppendLeaves(s, ids, kept, batch, d, steps, bytes);
    } else {
      TornLeaves(s, ids, kept, d, batch, steps, bytes);
    }
  }

  lemma TornLeaves(
    s: Session, ids: map<U64, string>, kept: seq<Entry>, d: Disk, batch: seq<Entry>, steps: nat, bytes: nat)
    requires Increasing(batch) && forall q :: q in ids ==> q <= LastSequence(kept)
    requires LogBytes(s, kept) <= d.content
    requires steps <= 2 + |AppendPlan(s, ids, LastSequence(kept), batch).ops|
    ensures var append := AppendPlan(s, ids, LastSequence(kept), batch);
            var ops := [Truncate(|LogBytes(s, kept)|), Fsync] + append.ops;
            var left := Interrupted(d, ops, steps, bytes);
            var target := LogBytes(s, kept + Newer(s, kept, batch));
            && SyncLeaves(s, d, kept, batch, left)
            && (append.verdict.Ok? && steps == |ops| ==> left == Disk(target, target))
  {
    var append := AppendPlan(s, ids, LastSequence(kept), batch);
    var cut := LogBytes(s, kept);
    RepairLeaves(d, cut, append.ops, steps, bytes);
    if steps >= 2 {
      AppendLeaves(s, ids, kept, batch, Disk(cut, cut), steps - 2, bytes);
      EndsWithFsync(s, ids, LastSequence(kept), batch);
    } else {
      LogGrows(s, kept, Newer(s, kept, batch));
      EndsWithFsync(s, ids, LastSequence(kept), batch);
    }
  }

  // A successful plan has something left to do after any repair: its final fsync.
  lemma EndsWithFsync(s: Session, ids: map<U64, string>, last: U64, batch: seq<Entry>)
    ensures AppendPlan(s, ids, last, batch).verdict.Ok? ==> AppendPlan(s, ids, last, batch).ops != []
    decreases |batch|
  {
    if batch != [] && batch[0].sequence in ids {
      EndsWithFsync(s, ids, last, batch[1..]);
    }
  }

  // Resuming agrees with the log exactly when every older batch entry is in it.
  lemma ResumeVerdict(s: Session, kept: seq<Entry>, content: seq<Byte>, batch: seq<Entry>)
    requires s.wire.Faithful() && Increasing(kept) && Increasing(batch)
    requires Recover(s, content) == Ok(StoredOf(s, kept))
    ensures ResumePlan(s, content, batch).verdict.Ok? <==>
            AgreesWith(kept, batch) && AllFit(s, After(batch, LastSequence(kept)))
  {
    var ids := IdMap(StoredOf(s, kept));
    LastOfStored(s, kept);
    IdMapBelowLast(s, kept);
    AppendVerdict(s, ids, LastSequence(kept), batch);
    forall e | e in batch ensures Recorded(s, ids, e) <==> Contains(kept, e) {
      IdMapAgrees(s, kept, e);
    }
  }

  /**
   `sync` on a log cut at any byte past its header succeeds exactly when the batch
   agrees with what survived and every newer record fits; it then leaves the log of
   both, durably.
   */
  lemma SyncOnLog(s: Session, log: seq<Entry>, length: nat, durable: seq<Byte>, batch: seq<Entry>)
    requires s.wire.Faithful() && Increasing(log) && AllFit(s, log) && Increasing(batch)
    requires |HeaderLine(s)| <= length <= |LogBytes(s, log)| && length <= MAX_FILE_BYTES
    ensures var d := Disk(LogBytes(s, log)[..length], durable);
            var kept := log[..Survivors(s, log, length)];
            var plan := SyncPlan(s, d.content, batch);
            var full := LogBytes(s, kept + Newer(s, kept, batch));
            && (plan.verdict.Ok? <==> AgreesWith(kept, batch) && AllFit(s, After(batch, LastSequence(kept))))
            && (plan.verdict.Ok? ==> Run(d, plan.ops) == Disk(full, full))
  {
    var d := Disk(LogBytes(s, log)[..length], durable);
    var kept := log[..Survivors(s, log, length)];
    CutLogRepairs(s, log, length);
    var ops := SyncPlan(s, d.content, batch).ops;
    ResumeVerdict(s, kept, d.content, batch);
    ResumeLeaves(s, kept, d, batch, |ops|, 0);
    RunAll(d, ops);
  }

  lemma CutLogRepairs(s: Session, log: seq<Entry>, length: nat)
    requires s.wire.Faithful() && Increasing(log) && AllFit(s, log)
    requires |HeaderLine(s)| <= length <= |LogBytes(s, log)| && length <= MAX_FILE_BYTES
    ensures RepairsTo(s, LogBytes(s, log)[..length], log[..Survivors(s, log, length)])
    ensures Increasing(log[..Survivors(s, log, length)])
  {
    CutLogRecovers(s, log, length);
    CutLogShape(s, log, length);
    PrefixIsFine(s, log, Survivors(s, log, length));
  }

  /**
   However a `sync` on such a file stops, the file is untouched or is a prefix of
   the log being built that extends what survived the cut.
   */
  lemma SyncOnLogLeaves(
    s: Session, log: seq<Entry>, length: nat, durable: seq<Byte>, batch: seq<Entry>, left: Disk)
    requires s.wire.Faithful() && Increasing(log) && AllFit(s, log) && Increasing(batch)
    requires |HeaderLine(s)| <= length <= |LogBytes(s, log)| && length <= MAX_FILE_BYTES
    requires var d := Disk(LogBytes(s, log)[..length], durable);
             LeftBehind(d, SyncPlan(s, d.content, batch).ops, left)
    ensures var d := Disk(LogBytes(s, log)[..length], durable);
            SyncLeaves(s, d, log[..Survivors(s, log, length)], batch, left)
  {
    var d := Disk(LogBytes(s, log)[..length], durable);
    var ops := SyncPlan(s, d.content, batch).ops;
    CutLogRepairs(s, log, length);
    var steps: nat, bytes: nat :| steps <= |ops| && left == Interrupted(d, ops, steps, bytes);
    ResumeLeaves(s, log[..Survivors(s, log, length)], d, batch, steps, bytes);
  }

  /** `sync` on an empty file writes the header and then the whole batch. */
  lemma SyncOnEmpty(s: Session, durable: seq<Byte>, batch: seq<Entry>)
    requires s.wire.Faithful() && Increasing(batch)
    ensures var d := Disk([], durable);
            var plan := SyncPlan(s, [], batch);
            var full := LogBytes(s, TakeFitting(s, batch));
            && (plan.verdict.Ok? <==> batch != [] && |HeaderText(s)| <= MAX_RECORD_BYTES && AllFit(s, batch))
            && (plan.verdict.Ok? ==> Run(d, plan.ops) == Disk(full, full))
            && (batch == [] ==> plan == Plan([], Err(MissingWithoutRecords)))
            && (batch != [] && |HeaderText(s)| > MAX_RECORD_BYTES ==> plan == Plan([], Err(LineLimit)))
  {
    if batch != [] && |HeaderText(s)| <= MAX_RECORD_BYTES {
      EmptyLog(s);
      AfterAll(batch, 0);
      ResumeVerdict(s, [], HeaderLine(s), batch);
      var ops := SyncPlan(s, [], batch).ops;
      HeaderThenResume(s, durable, batch, |ops|, 0);
      RunAll(Disk([], durable), ops);
    }
  }

  /** However it stops, the file is a prefix of the log of the batch, and before its first
      entry is written the header is durable. */
  lemma SyncOnEmptyLeaves(s: Session, durable: seq<Byte>, batch: seq<Entry>, left: Disk)
    requires s.wire.Faithful() && Increasing(batch)
    requires LeftBehind(Disk([], durable), SyncPlan(s, [], batch).ops, left)
    ensures left.content <= LogBytes(s, TakeFitting(s, batch))
    ensures left.durable == durable || left.durable == HeaderLine(s) || left.durable == left.content
    ensures |left.content| > |HeaderLine(s)| ==> HeaderLine(s) <= left.durable
  {
    var ops := SyncPlan(s, [], batch).ops;
    var steps: nat, bytes: nat :| steps <= |ops| && left == Interrupted(Disk([], durable), ops, steps, bytes);
    if batch != [] && |HeaderText(s)| <= MAX_RECORD_BYTES {
      HeaderThenResume(s, durable, batch, steps, bytes);
      HeaderComesFirst(s, TakeFitting(s, batch), left);
    } else {
      assert ops == [] && left == Disk([], durable);
    }
  }

  lemma HeaderComesFirst(s: Session, entries: seq<Entry>, left: Disk)
    requires left.content <= LogBytes(s, entries)
    requires |left.content| > |HeaderLine(s)| ==> left.durable == HeaderLine(s) || left.durable == left.content
    ensures |left.content| > |HeaderLine(s)| ==> HeaderLine(s) <= left.durable
  {
    if |left.content| > |HeaderLine(s)| {
      assert left.content[..|HeaderLine(s)|] == LogBytes(s, entries)[..|HeaderLine(s)|];
    }
  }

  lemma EmptyLog(s: Session)
    requires s.wire.Faithful() && |HeaderText(s)| <= MAX_RECORD_BYTES
    ensures RepairsTo(s, HeaderLine(s), [])
  {
    WriteThenRead(s, []);
    LogEndsWithNewline(s, []);
    CutOfWhole(HeaderLine(s));
    assert LogBytes(s, []) == HeaderLine(s);
  }

  // Stopped inside or after the header's own three operations.
  lemma HeaderLeaves(s: Session, durable: seq<Byte>, more: seq<Op>, steps: nat, bytes: nat)
    requires steps <= 3 + |more|
    ensures var header := HeaderLine(s);
            var left := Interrupted(Disk([], durable), RecordOps(HeaderText(s)) + ([Fsync] + more), steps, bytes);
            if steps < 3 then left.content <= header && left.durable == durable
            else left == Interrupted(Disk(header, header), more, steps - 3, bytes)
  {
    var d := Disk([], durable);
    assert [] + HeaderText(s) + [NEWLINE] == HeaderLine(s);
    if steps < 2 {
      RecordLeaves(d, HeaderText(s), [Fsync] + more, steps, bytes);
    } else {
      RecordDone(d, HeaderText(s), [Fsync] + more, steps, bytes);
      if steps > 2 {
        InterruptedLater(Disk(HeaderLine(s), durable), [Fsync] + more, steps - 2, bytes);
        assert ([Fsync] + more)[1..] == more;
      }
    }
  }

  lemma PlanOnEmpty(s: Session, batch: seq<Entry>)
    requires batch != [] && |HeaderText(s)| <= MAX_RECORD_BYTES
    ensures var resume := ResumePlan(s, HeaderLine(s), batch);
            SyncPlan(s, [], batch) == Plan(RecordOps(HeaderText(s)) + ([Fsync] + resume.ops), resume.verdict)
  {}

  lemma StoppedInHeader(s: Session, durable: seq<Byte>, batch: seq<Entry>, steps: nat, bytes: nat)
    requires s.wire.Faithful() && Increasing(batch) && batch != []
    requires |HeaderText(s)| <= MAX_RECORD_BYTES && steps < 3
    ensures var left := Interrupted(Disk([], durable), SyncPlan(s, [], batch).ops, steps, bytes);
            && left.content <= LogBytes(s, TakeFitting(s, batch)) && left.durable == durable
            && left.content <= HeaderLine(s)
            && steps < |SyncPlan(s, [], batch).ops|
  {
    var header := HeaderLine(s);
    var more := ResumePlan(s, header, batch).ops;
    PlanOnEmpty(s, batch);
    HeaderLeaves(s, durable, more, steps, bytes);
    EmptyLog(s);
    ResumeHasOps(s, header, [], batch);
    var left := Interrupted(Disk([], durable), SyncPlan(s, [], batch).ops, steps, bytes);
    PrefixTransitive(left.content, header, LogBytes(s, TakeFitting(s, batch)));
  }

  lemma StoppedPastHeader(s: Session, durable: seq<Byte>, batch: seq<Entry>, steps: nat, bytes: nat)
    requires s.wire.Faithful() && Increasing(batch) && batch != []
    requires |HeaderText(s)| <= MAX_RECORD_BYTES
    requires 3 <= steps <= |SyncPlan(s, [], batch).ops|
    ensures var plan := SyncPlan(s, [], batch);
            var left := Interrupted(Disk([], durable), plan.ops, steps, bytes);
            var full := LogBytes(s, TakeFitting(s, batch));
            && left.content <= full
            && (left.durable == HeaderLine(s) || left.durable == left.content)
            && (plan.verdict.Ok? && steps == |plan.ops| ==> left == Disk(full, full))
  {
    var header := HeaderLine(s);
    PlanOnEmpty(s, batch);
    HeaderLeaves(s, durable, ResumePlan(s, header, batch).ops, steps, bytes);
    EmptyLog(s);
    FirstBatch(s, batch);
    ResumeLeaves(s, [], Disk(header, header), batch, steps - 3, bytes);
  }

  lemma HeaderThenResume(s: Session, durable: seq<Byte>, batch: seq<Entry>, steps: nat, bytes: nat)
    requires s.wire.Faithful() && Increasing(batch) && batch != []
    requires |HeaderText(s)| <= MAX_RECORD_BYTES
    requires steps <= |SyncPlan(s, [], batch).ops|
    ensures var plan := SyncPlan(s, [], batch);
            var left := Interrupted(Disk([], durable), plan.ops, steps, bytes);
            var full := LogBytes(s, TakeFitting(s, batch));
            && left.content <= full
            && (left.durable == durable || left.durable == HeaderLine(s) || left.durable == left.content)
            && (|left.content| > |HeaderLine(s)| ==> left.durable == HeaderLine(s) || left.durable == left.content)
            && (plan.verdict.Ok? && steps == |plan.ops| ==> left == Disk(full, full))
  {
    if steps < 3 {
      StoppedInHeader(s, durable, batch, steps, bytes);
    } else {
      StoppedPastHeader(s, durable, batch, steps, bytes);
    }
  }

  lemma FirstBatch(s: Session, batch: seq<Entry>)
    requires Increasing(batch)
    ensures [] + Newer(s, [], batch) == TakeFitting(s, batch)
    ensures LogBytes(s, []) == HeaderLine(s)
  {
    AfterAll(batch, 0);
  }

  lemma ResumeHasOps(s: Session, content: seq<Byte>, kept: seq<Entry>, batch: seq<Entry>)
    requires RepairsTo(s, content, kept)
    ensures ResumePlan(s, content, batch).verdict.Ok? ==> ResumePlan(s, content, batch).ops != []
  {
    ResumeOps(s, content, kept, batch);
    EndsWithFsync(s, IdMap(StoredOf(s, kept)), LastSequence(kept), batch);
  }

  /**
   The rebuilt file: whatever byte a log is cut at, syncing the entries from any
   point up to the first lost one restores it byte for byte.
   */
  lemma SyncRebuildsTheLog(s: Session, log: seq<Entry>, length: nat, durable: seq<Byte>, from: nat)
    requires s.wire.Faithful() && Increasing(log) && AllFit(s, log)
    requires |HeaderLine(s)| <= length <= |LogBytes(s, log)| && length <= MAX_FILE_BYTES
    requires from <= Survivors(s, log, length)
    ensures var d := Disk(LogBytes(s, log)[..length], durable);
            var plan := SyncPlan(s, d.content, log[from..]);
            && plan.verdict == Ok(())
            && Run(d, plan.ops) == Disk(LogBytes(s, log), LogBytes(s, log))
  {
    var n := Survivors(s, log, length);
    NewerOfSuffix(s, log, from, n);
    SuffixAgrees(log, from, n);
    SyncGives(s, log, length, durable, log[from..], log);
  }

  lemma SuffixAgrees(log: seq<Entry>, from: nat, n: nat)
    requires Increasing(log) && from <= n <= |log|
    ensures Increasing(log[from..]) && AgreesWith(log[..n], log[from..])
  {
    AgreesWithSuffix(log, from, |log|, n);
    assert log[from..|log|] == log[from..];
  }

  lemma SyncGives(
    s: Session, log: seq<Entry>, length: nat, durable: seq<Byte>, batch: seq<Entry>, full: seq<Entry>)
    requires s.wire.Faithful() && Increasing(log) && AllFit(s, log) && Increasing(batch)
    requires |HeaderLine(s)| <= length <= |LogBytes(s, log)| && length <= MAX_FILE_BYTES
    requires var kept := log[..Survivors(s, log, length)];
             && AgreesWith(kept, batch) && AllFit(s, After(batch, LastSequence(kept)))
             && kept + Newer(s, kept, batch) == full
    ensures var d := Disk(LogBytes(s, log)[..length], durable);
            var plan := SyncPlan(s, d.content, batch);
            plan.verdict == Ok(()) && Run(d, plan.ops) == Disk(LogBytes(s, full), LogBytes(s, full))
  {
    SyncOnLog(s, log, length, durable, batch);
    var plan := SyncPlan(s, LogBytes(s, log)[..length], batch);
    assert plan.verdict.Ok?;
    assert plan.verdict.value == ();
  }

  lemma NewerOfSuffix(s: Session, log: seq<Entry>, from: nat, n: nat)
    requires Increasing(log) && AllFit(s, log) && from <= n <= |log|
    ensures AllFit(s, After(log[from..], LastSequence(log[..n])))
    ensures log[..n] + Newer(s, log[..n], log[from..]) == log
  {
    AfterToTheEnd(log, from, n);
    AllFitSuffix(s, log, n);
    AllFitIsAll(s, log[n..]);
    SplitAt(log, n);
  }

  lemma SplitAt(log: seq<Entry>, n: nat)
    requires n <= |log|
    ensures log[..n] + log[n..] == log
  {}

  lemma AfterToTheEnd(log: seq<Entry>, from: nat, n: nat)
    requires Increasing(log) && from <= n <= |log|
    ensures After(log[from..], LastSequence(log[..n])) == log[n..]
  {
    assert log[from..|log|] == log[from..] && log[n..|log|] == log[n..];
    AfterSuffix(log, from, |log|, n);
  }

  lemma AllFitSuffix(s: Session, log: seq<Entry>, n: nat)
    requires AllFit(s, log) && n <= |log|
    ensures AllFit(s, log[n..])
  {}

  // In a log, "newer than its first n entries" means "from position n on".
  lemma AfterSuffix(log: seq<Entry>, from: nat, until: nat, n: nat)
    requires Increasing(log) && from <= until <= |log| && from <= n <= |log|
    ensures After(log[from..until], LastSequence(log[..n])) == if n <= until then log[n..until] else []
    decreases until - from
  {
    if from < until {
      var batch := log[from..until];
      assert batch[1..] == log[from + 1..until];
      if from < n {
        assert batch[0].sequence <= log[n - 1].sequence;
        AfterSuffix(log, from + 1, until, n);
      } else {
        AfterAll(batch, LastSequence(log[..n]));
      }
    }
  }

  lemma AgreesWithSuffix(log: seq<Entry>, from: nat, until: nat, n: nat)
    requires Increasing(log) && from <= until <= |log| && from <= n <= |log|
    ensures AgreesWith(log[..n], log[from..until])
  {
    forall e | e in log[from..until] && e.sequence <= LastSequence(log[..n]) ensures Contains(log[..n], e) {
      var i :| from <= i < until && log[i] == e;
      assert i < n;
      assert log[..n][i] == e;
    }
  }

  // ---------- what a stopped or successful call leaves to the reader ----------

  lemma SurvivorsAtLeast(s: Session, entries: seq<Entry>, length: nat, n: nat)
    requires |HeaderLine(s)| <= length && n <= |entries| && |LogBytes(s, entries[..n])| <= length
    ensures n <= Survivors(s, entries, length)
  {
    var m := Survivors(s, entries, length);
    if m < n {
      assert entries[..n] == entries[..m + 1] + entries[m + 1..n];
      LogGrows(s, entries[..m + 1], entries[m + 1..n]);
    }
  }

  lemma AfterIncreasing(batch: seq<Entry>, sequence: nat)
    requires Increasing(batch)
    ensures Increasing(After(batch, sequence))
    ensures After(batch, sequence) != [] ==> After(batch, sequence)[0].sequence > sequence
  {
    if batch != [] {
      IncreasingTail(batch);
      if batch[0].sequence > sequence {
        AfterFirstNew(batch, sequence);
      } else {
        AfterIncreasing(batch[1..], sequence);
      }
    }
  }

  lemma ExtendedLogIsFine(s: Session, kept: seq<Entry>, batch: seq<Entry>)
    requires Increasing(kept) && AllFit(s, kept) && Increasing(batch)
    ensures Increasing(kept + Newer(s, kept, batch)) && AllFit(s, kept + Newer(s, kept, batch))
  {
    AfterIncreasing(batch, LastSequence(kept));
  }

  /**
   Whatever a `sync` that failed or died leaves, within the file limit the next
   reader gets the log that survived before the call, possibly with more behind it.
   */
  lemma StoppedSyncLosesNothing(
    s: Session, log: seq<Entry>, length: nat, durable: seq<Byte>, batch: seq<Entry>, left: Disk)
    requires s.wire.Faithful() && Increasing(log) && AllFit(s, log) && Increasing(batch)
    requires |HeaderLine(s)| <= length <= |LogBytes(s, log)| && length <= MAX_FILE_BYTES
    requires var d := Disk(LogBytes(s, log)[..length], durable);
             LeftBehind(d, SyncPlan(s, d.content, batch).ops, left)
    requires |left.content| <= MAX_FILE_BYTES
    ensures var kept := log[..Survivors(s, log, length)];
            exists more: seq<Entry> ::
              more <= Newer(s, kept, batch) && Recover(s, left.content) == Ok(StoredOf(s, kept + more))
  {
    var kept := log[..Survivors(s, log, length)];
    SyncOnLogLeaves(s, log, length, durable, batch, left);
    if left.content == LogBytes(s, log)[..length] {
      CutLogRecovers(s, log, length);
      assert kept + [] == kept;
    } else {
      PrefixIsFine(s, log, |kept|);
      var more := RecoverBetween(s, kept, batch, left.content);
    }
  }

  lemma RecoverBetween(s: Session, kept: seq<Entry>, batch: seq<Entry>, content: seq<Byte>)
    returns (more: seq<Entry>)
    requires s.wire.Faithful() && Increasing(kept) && AllFit(s, kept) && Increasing(batch)
    requires Between(LogBytes(s, kept), content, LogBytes(s, kept + Newer(s, kept, batch)))
    requires |content| <= MAX_FILE_BYTES
    ensures more <= Newer(s, kept, batch) && Recover(s, content) == Ok(StoredOf(s, kept + more))
  {
    var newer := Newer(s, kept, batch);
    var full := kept + newer;
    ExtendedLogIsFine(s, kept, batch);
    CutJoined(kept, newer, |kept|);
    SurvivorsAtLeast(s, full, |content|, |kept|);
    PrefixIsCut(content, LogBytes(s, full));
    CutLogRecovers(s, full, |content|);
    var m := Survivors(s, full, |content|);
    more := newer[..m - |kept|];
    CutJoined(kept, newer, m);
  }

  lemma CutJoined(a: seq<Entry>, b: seq<Entry>, m: nat)
    requires |a| <= m <= |a + b|
    ensures (a + b)[..m] == a + b[..m - |a|]
    ensures m == |a| ==> (a + b)[..m] == a
  {}

  lemma PrefixIsCut(a: seq<Byte>, b: seq<Byte>)
    requires a <= b
    ensures b[..|a|] == a
  {}

  /** A successful `sync` is readable exactly while the file is within the reader's limit. */
  lemma ReadAfterSync(s: Session, log: seq<Entry>, length: nat, durable: seq<Byte>, batch: seq<Entry>)
    requires s.wire.Faithful() && Increasing(log) && AllFit(s, log) && Increasing(batch)
    requires |HeaderLine(s)| <= length <= |LogBytes(s, log)| && length <= MAX_FILE_BYTES
    requires SyncPlan(s, LogBytes(s, log)[..length], batch).verdict.Ok?
    ensures var kept := log[..Survivors(s, log, length)];
            var full := kept + Newer(s, kept, batch);
            Recover(s, LogBytes(s, full)) ==
              if |LogBytes(s, full)| <= MAX_FILE_BYTES then Ok(StoredOf(s, full)) else Err(TooLarge)
  {
    var kept := log[..Survivors(s, log, length)];
    PrefixIsFine(s, log, Survivors(s, log, length));
    ExtendedLogIsFine(s, kept, batch);
    if |LogBytes(s, kept + Newer(s, kept, batch))| <= MAX_FILE_BYTES {
      WriteThenRead(s, kept + Newer(s, kept, batch));
    }
  }

  /** The writer has no file limit: one fitting record can put the log beyond every later call. */
  lemma LastFittingRecordCanLockTheLog(s: Session, log: seq<Entry>, e: Entry, later: seq<Entry>)
    requires s.wire.Faithful() && Increasing(log + [e]) && AllFit(s, log + [e])
    requires |LogBytes(s, log)| <= MAX_FILE_BYTES < |LogBytes(s, log + [e])|
    ensures SyncPlan(s, LogBytes(s, log), [e]).verdict == Ok(())
    ensures Run(Disk(LogBytes(s, log), LogBytes(s, log)), SyncPlan(s, LogBytes(s, log), [e]).ops).content
            == LogBytes(s, log + [e])
    ensures Recover(s, LogBytes(s, log + [e])) == Err(TooLarge)
    ensures SyncPlan(s, LogBytes(s, log + [e]), later).verdict == Err(TooLarge)
  {
    var both, length := log + [e], |LogBytes(s, log)|;
    FrontOf(log, e);
    FrontOfLog(s, log, e);
    SyncRebuildsTheLog(s, both, length, LogBytes(s, log), |log|);
  }

  lemma FrontOf(log: seq<Entry>, e: Entry)
    ensures (log + [e])[..|log|] == log && (log + [e])[|log|..] == [e]
    ensures (log + [e])[..|log + [e]|] == log + [e]
  {}

  // Cut where its last record starts, a log holds all the others.
  lemma FrontOfLog(s: Session, log: seq<Entry>, e: Entry)
    requires s.wire.Faithful() && Increasing(log + [e]) && AllFit(s, log + [e])
    requires |LogBytes(s, log)| <= MAX_FILE_BYTES
    ensures |HeaderLine(s)| <= |LogBytes(s, log)|
    ensures LogBytes(s, log) <= LogBytes(s, log + [e])
    ensures LogBytes(s, log + [e])[..|LogBytes(s, log)|] == LogBytes(s, log)
    ensures Survivors(s, log + [e], |LogBytes(s, log)|) == |log|
  {
    var both, length := log + [e], |LogBytes(s, log)|;
    FrontOf(log, e);
    LogGrows(s, log, [e]);
    PrefixIsFine(s, both, |log|);
    SurvivorsAtLeast(s, both, length, |log|);
  }
}
