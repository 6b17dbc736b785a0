/**
 The conversation file as the operating system gives it, and `sync` and `read`
 working on it in place. Any disk call may fail part of the way through.
 */
module SessionFile {
  import opened Prelude
  import opened Lines
  import opened Transcript
  import opened Conversation
  import opened LogRecovery

  class File {
    var content: seq<Byte>
    var durable: seq<Byte>
    var cursor: nat

    function AsDisk(): Disk
      reads this
    {
      Disk(content, durable)
    }

    constructor ()
      ensures content == [] && durable == [] && cursor == 0
    {
      content, durable, cursor := [], [], 0;
    }

    method Open()
      modifies this`cursor
      ensures cursor == 0
    {
      cursor := 0;
    }

    method SeekEnd()
      modifies this`cursor
      ensures cursor == |content|
    {
      cursor := |content|;
    }

    // Leaves the cursor where the data ended, as `read_to_end` does.
    method ReadAll() returns (ok: bool, bytes: seq<Byte>)
      modifies this`cursor
      ensures ok ==> bytes == content && cursor == |content|
    {
      ok, bytes := *, content;
      cursor := if ok then |content| else 0;
    }

    // `write_all` at the cursor: some bytes of the data, all of them if it succeeds.
    method Write(data: seq<Byte>) returns (ok: bool)
      modifies this`content, this`cursor
      ensures exists k: nat :: k <= |data|
                && content == Overwritten(old(content), old(cursor), data[..k])
                && cursor == old(cursor) + k
                && (ok ==> k == |data|)
    {
      var k: nat :| k <= |data|;
      content := Overwritten(content, cursor, data[..k]);
      cursor := cursor + k;
      ok := k == |data|;
    }

    method SetLen(length: nat) returns (ok: bool)
      requires length <= |content|
      modifies this`content
      ensures content == if ok then old(content)[..length] else old(content)
    {
      ok := *;
      if ok {
        content := content[..length];
      }
    }

    method SyncData() returns (ok: bool)
      modifies this`durable
      ensures durable == if ok then content else old(durable)
    {
      ok := *;
      if ok {
        durable := content;
      }
    }
  }

  // A write beyond the end leaves a hole of zero bytes; one before it overwrites.
  function Overwritten(content: seq<Byte>, at: nat, data: seq<Byte>): seq<Byte> {
    var padded := if at <= |content| then content else content + seq(at - |content|, _ => 0 as Byte);
    padded[..at] + data + (if at + |data| <= |padded| then padded[at + |data|..] else [])
  }

  // Byte by byte: the data in their place, and around them what was there, or zero.
  lemma OverwrittenAt(content: seq<Byte>, at: nat, data: seq<Byte>, i: nat)
    requires data != []
    ensures |Overwritten(content, at, data)| == Max(|content|, at + |data|)
    ensures i < |Overwritten(content, at, data)| ==>
              Overwritten(content, at, data)[i] ==
              if at <= i < at + |data| then data[i - at] else if i < |content| then content[i] else 0
  {}

  lemma OverwrittenAtEnd(content: seq<Byte>, data: seq<Byte>)
    ensures Overwritten(content, |content|, data) == content + data
  {
    assert content[..|content|] == content;
  }

  // ---------- following a plan ----------

  lemma RunSplit(d: Disk, front: seq<Op>, back: seq<Op>)
    ensures Run(d, front + back) == Run(Run(d, front), back)
    decreases |front|
  {
    if front == [] {
      assert front + back == back;
    } else {
      assert (front + back)[1..] == front[1..] + back;
      RunSplit(Apply(d, front[0]), front[1..], back);
    }
  }

  // A failure inside `part` is a failure inside any plan that reaches `part`.
  lemma LeftBehindInside(d: Disk, front: seq<Op>, part: seq<Op>, back: seq<Op>, left: Disk)
    requires LeftBehind(Run(d, front), part, left)
    ensures LeftBehind(d, front + part + back, left)
  {
    var here := Run(d, front);
    var steps: nat, bytes: nat :| steps <= |part| && left == Interrupted(here, part, steps, bytes);
    var all := front + part + back;
    assert all[..|front| + steps] == front + part[..steps];
    RunSplit(d, front, part[..steps]);
    if steps < |part| {
      assert all[|front| + steps] == part[steps];
      assert left == Interrupted(d, all, |front| + steps, bytes);
    } else {
      assert part[..steps] == part;
      if steps < |part + back| && back != [] && back[0].Put? {
        // Nothing of the next write has happened.
        assert all[|front| + steps] == back[0];
        assert left.content + back[0].data[..0] == left.content;
      }
      assert left == Interrupted(d, all, |front| + steps, 0);
    }
  }

  lemma NothingDone(d: Disk, ops: seq<Op>)
    ensures LeftBehind(d, ops, d)
  {
    if ops != [] && ops[0].Put? {
      assert d.content + ops[0].data[..0] == d.content;
    }
    assert d == Interrupted(d, ops, 0, 0);
  }

  // `r` is what following `plan` gives, or the disk failed on the way.
  ghost predicate Follows(before: Disk, plan: Plan, after: Disk, r: Result<(), LogError>) {
    || (r == Err(DiskFailure) && LeftBehind(before, plan.ops, after))
    || (r == plan.verdict && after == Run(before, plan.ops))
  }

  method WriteRecord(file: File, text: seq<Byte>) returns (r: Result<(), LogError>)
    requires file.cursor == |file.content|
    modifies file
    ensures file.cursor == |file.content|
    ensures if |text| > MAX_RECORD_BYTES then r == Err(LineLimit) && file.AsDisk() == old(file.AsDisk())
            else Follows(old(file.AsDisk()), Plan(RecordOps(text), Ok(())), file.AsDisk(), r)
  {
    if |text| > MAX_RECORD_BYTES {
      return Err(LineLimit);
    }
    ghost var before := file.AsDisk();
    var ops := RecordOps(text);
    var ok := file.Write(text);
    ghost var k: nat :| k <= |text| && file.content == Overwritten(before.content, |before.content|, text[..k])
                        && file.cursor == |before.content| + k && (ok ==> k == |text|);
    OverwrittenAtEnd(before.content, text[..k]);
    if !ok {
      assert file.AsDisk() == Interrupted(before, ops, 0, k);
      return Err(DiskFailure);
    }
    assert text[..k] == text;
    ghost var middle := file.AsDisk();
    assert middle == Apply(before, ops[0]);
    ok := file.Write([NEWLINE]);
    ghost var j: nat :| j <= 1 && file.content == Overwritten(middle.content, |middle.content|, [NEWLINE][..j])
                        && file.cursor == |middle.content| + j && (ok ==> j == 1);
    OverwrittenAtEnd(middle.content, [NEWLINE][..j]);
    if !ok {
      assert Run(before, ops[..1]) == middle;
      assert file.AsDisk() == Interrupted(before, ops, 1, j);
      return Err(DiskFailure);
    }
    assert [NEWLINE][..j] == [NEWLINE];
    assert ops[1..] == [Put([NEWLINE])];
    assert Run(middle, [Put([NEWLINE])]) == Apply(middle, Put([NEWLINE]));
    assert file.AsDisk() == Run(before, ops);
    return Ok(());
  }

  // ---------- repair_and_read ----------

  // Prepends what has been read to what is still to be read.
  function Behind(front: seq<Stored>, r: Result<seq<Stored>, LogError>): Result<seq<Stored>, LogError> {
    match r
    case Ok(back) => Ok(front + back)
    case Err(error) => Err(error)
  }

  lemma BehindNothing(r: Result<seq<Stored>, LogError>)
    ensures Behind([], r) == r
  {
    match r
    case Ok(back) => assert [] + back == back;
    case Err(_) =>
  }

  lemma ReadNextLine(s: Session, lines: seq<seq<Byte>>, i: nat, front: seq<Stored>, previous: U64)
    requires i < |lines|
    ensures Behind(front, ReadLines(s, lines[i..], previous)) ==
            match ReadLine(s, lines[i], previous)
            case Err(error) => Err(error)
            case Ok(first) => Behind(front + [first], ReadLines(s, lines[i + 1..], first.entry.sequence))
  {
    assert lines[i..][0] == lines[i] && lines[i..][1..] == lines[i + 1..];
    match ReadLine(s, lines[i], previous)
    case Err(error) =>
    case Ok(first) =>
      match ReadLines(s, lines[i + 1..], first.entry.sequence)
      case Err(error) =>
      case Ok(back) => assert front + ([first] + back) == (front + [first]) + back;
  }

  lemma IdMapStep(stored: seq<Stored>, next: Stored)
    ensures IdMap(stored + [next]) == IdMap(stored)[next.entry.sequence := next.idText]
    ensures Entries(stored + [next]) == Entries(stored) + [next.entry]
  {
    assert (stored + [next])[..|stored|] == stored;
  }

  method ReadRecords(s: Session, lines: seq<seq<Byte>>)
    returns (r: Result<(), LogError>, ids: map<U64, string>, transcript: seq<Entry>)
    ensures match ReadLines(s, lines, 0)
            case Err(error) => r == Err(error)
            case Ok(stored) => r == Ok(()) && ids == IdMap(stored) && transcript == Entries(stored)
  {
    ids, transcript := map[], [];
    var previous: U64 := 0;
    var i := 0;
    ghost var stored: seq<Stored> := [];
    BehindNothing(ReadLines(s, lines, 0));
    assert lines[0..] == lines;
    while i < |lines|
      invariant 0 <= i <= |lines|
      invariant ReadLines(s, lines, 0) == Behind(stored, ReadLines(s, lines[i..], previous))
      invariant ids == IdMap(stored) && transcript == Entries(stored)
      invariant previous == LastSequence(transcript)
    {
      ReadNextLine(s, lines, i, stored, previous);
      match ReadLine(s, lines[i], previous) {
        case Err(error) =>
          return Err(error), ids, transcript;
        case Ok(first) =>
          // The sequence is above every earlier one, so the map does not hold it yet.
          IdMapStep(stored, first);
          ids := ids[first.entry.sequence := first.idText];
          transcript := transcript + [first.entry];
          previous := first.entry.sequence;
          stored := stored + [first];
      }
      i := i + 1;
    }
    assert stored + [] == stored;
    r := Ok(());
  }

  method RepairAndRead(file: File, s: Session)
    returns (r: Result<(), LogError>, ids: map<U64, string>, transcript: seq<Entry>)
    modifies file
    ensures Follows(old(file.AsDisk()),
                    Plan(RepairOps(old(file.content)), Verdict(Recover(s, old(file.content)))),
                    file.AsDisk(), r)
    ensures r.Ok? ==>
              match Recover(s, old(file.content))
              case Err(_) => false
              case Ok(stored) => ids == IdMap(stored) && transcript == Entries(stored)
  {
    ghost var before := file.AsDisk();
    ghost var ops := RepairOps(file.content);
    ids, transcript := map[], [];
    if |file.content| > MAX_FILE_BYTES {
      return Err(TooLarge), ids, transcript;
    }
    var ok, bytes := file.ReadAll();
    if !ok {
      NothingDone(before, ops);
      return Err(DiskFailure), ids, transcript;
    }
    if !EndsWithNewline(bytes) {
      var cut := CutLength(bytes);
      if cut == 0 {
        return Err(HeaderTorn), ids, transcript;
      }
      ok := file.SetLen(cut);
      if !ok {
        NothingDone(before, ops);
        return Err(DiskFailure), ids, transcript;
      }
      ok := file.SyncData();
      if !ok {
        assert Run(before, ops[..1]) == file.AsDisk();
        assert file.AsDisk() == Interrupted(before, ops, 1, 0);
        return Err(DiskFailure), ids, transcript;
      }
      bytes := bytes[..cut];
      RunOfRepair(before);
    } else {
      assert bytes[..CutLength(bytes)] == bytes;
    }
    assert file.AsDisk() == Run(before, ops);
    var lines := NonEmptyLines(bytes);
    if lines == [] {
      return Err(HeaderMissing), ids, transcript;
    }
    match s.wire.parse(lines[0]) {
      case None =>
        return Err(BadJson), ids, transcript;
      case Some(header) =>
        if !HeaderMatches(s, header) {
          return Err(IdentityMismatch), ids, transcript;
        }
    }
    r, ids, transcript := ReadRecords(s, lines[1..]);
  }

  function Verdict<T>(r: Result<T, LogError>): Result<(), LogError> {
    match r
    case Ok(_) => Ok(())
    case Err(error) => Err(error)
  }

  /** Every entry of the session, after repairing a torn tail. */
  method Read(file: File, s: Session) returns (r: Result<seq<Entry>, LogError>)
    modifies file
    ensures Follows(old(file.AsDisk()),
                    Plan(RepairOps(old(file.content)), Verdict(Recover(s, old(file.content)))),
                    file.AsDisk(), Verdict(r))
    ensures r.Ok? ==>
              match Recover(s, old(file.content))
              case Err(_) => false
              case Ok(stored) => r.value == Entries(stored)
  {
    file.Open();
    var done, _, transcript := RepairAndRead(file, s);
    r := match done case Ok(_) => Ok(transcript) case Err(error) => Err(error);
  }

  // ---------- sync ----------

  // Carrying on with `plan` once the operations in `front` are done.
  lemma FollowsThen(d: Disk, front: seq<Op>, plan: Plan, after: Disk, r: Result<(), LogError>)
    requires Follows(Run(d, front), plan, after, r)
    ensures Follows(d, Plan(front + plan.ops, plan.verdict), after, r)
  {
    RunSplit(d, front, plan.ops);
    if LeftBehind(Run(d, front), plan.ops, after) {
      LeftBehindInside(d, front, plan.ops, [], after);
      assert front + plan.ops + [] == front + plan.ops;
    }
  }

  lemma FailedBefore(d: Disk, part: seq<Op>, back: seq<Op>, left: Disk)
    requires LeftBehind(d, part, left)
    ensures LeftBehind(d, part + back, left)
  {
    LeftBehindInside(d, [], part, back, left);
    assert [] + part + back == part + back;
  }

  // `done`, and then what the rest plans.
  function Ahead(done: seq<Op>, rest: Plan): Plan {
    Plan(done + rest.ops, rest.verdict)
  }

  // What the entry at position i adds to a plan that has done `done` so far.
  lemma PlanStep(s: Session, ids: map<U64, string>, last: U64, batch: seq<Entry>, i: nat, done: seq<Op>)
    requires i < |batch|
    ensures var e := batch[i];
            var plan := Ahead(done, AppendPlan(s, ids, last, batch[i..]));
            if e.sequence in ids then
              if ids[e.sequence] != s.wire.idText(e.entryId)
              then plan == Plan(done, Err(DifferentEntryId(e.sequence)))
              else plan == Ahead(done, AppendPlan(s, ids, last, batch[i + 1..]))
            else if e.sequence <= last then plan == Plan(done, Err(SequenceNotIncreasing(last, e.sequence)))
            else if !Fits(s, e) then plan == Plan(done, Err(LineLimit))
            else plan == Ahead(done + RecordOps(EntryText(s, e)), AppendPlan(s, ids, e.sequence, batch[i + 1..]))
  {
    var e := batch[i];
    assert batch[i..][0] == e && batch[i..][1..] == batch[i + 1..];
    assert done + [] == done;
    var record, more := RecordOps(EntryText(s, e)), AppendPlan(s, ids, e.sequence, batch[i + 1..]).ops;
    assert done + (record + more) == (done + record) + more;
  }

  method AppendRecords(file: File, s: Session, ids: map<U64, string>, lastSequence: U64, batch: seq<Entry>)
    returns (r: Result<(), LogError>)
    requires file.cursor == |file.content|
    modifies file
    ensures Follows(old(file.AsDisk()), AppendPlan(s, ids, lastSequence, batch), file.AsDisk(), r)
  {
    ghost var before := file.AsDisk();
    ghost var plan := AppendPlan(s, ids, lastSequence, batch);
    ghost var done: seq<Op> := [];
    var last := lastSequence;
    var i := 0;
    assert batch[0..] == batch && [] + plan.ops == plan.ops;
    while i < |batch|
      invariant 0 <= i <= |batch|
      invariant file.cursor == |file.content|
      invariant file.AsDisk() == Run(before, done)
      invariant plan == Ahead(done, AppendPlan(s, ids, last, batch[i..]))
    {
      var e := batch[i];
      PlanStep(s, ids, last, batch, i, done);
      if e.sequence in ids {
        if ids[e.sequence] != s.wire.idText(e.entryId) {
          return Err(DifferentEntryId(e.sequence));
        }
      } else {
        if e.sequence <= last {
          return Err(SequenceNotIncreasing(last, e.sequence));
        }
        var written := WriteRecord(file, EntryText(s, e));
        if written.Err? {
          if Fits(s, e) {
            LeftBehindInside(before, done, RecordOps(EntryText(s, e)),
                             AppendPlan(s, ids, e.sequence, batch[i + 1..]).ops, file.AsDisk());
          }
          return written;
        }
        last := e.sequence;
        RunSplit(before, done, RecordOps(EntryText(s, e)));
        done := done + RecordOps(EntryText(s, e));
      }
      i := i + 1;
    }
    FsyncLast(before, done);
    var ok := file.SyncData();
    if !ok {
      return Err(DiskFailure);
    }
    return Ok(());
  }

  lemma FsyncLast(before: Disk, done: seq<Op>)
    ensures LeftBehind(before, done + [Fsync], Run(before, done))
    ensures Run(before, done + [Fsync]) == Apply(Run(before, done), Fsync)
  {
    RunSplit(before, done, [Fsync]);
    NothingDone(Run(before, done), [Fsync]);
    LeftBehindInside(before, done, [Fsync], [], Run(before, done));
    assert done + [Fsync] + [] == done + [Fsync];
  }

  // Sequences of what was read rise, from above `previous`.
  ghost predicate Rising(stored: seq<Stored>, previous: U64) {
    stored == [] ||
    (stored[0].entry.sequence > previous && Rising(stored[1..], stored[0].entry.sequence))
  }

  lemma ReadsIncreasing(s: Session, content: seq<Byte>)
    ensures Recover(s, content).Ok? ==> Rising(Recover(s, content).value, 0)
  {
    if Recover(s, content).Ok? {
      LinesRising(s, NonEmptyLines(content[..CutLength(content)])[1..], 0);
    }
  }

  lemma LinesRising(s: Session, lines: seq<seq<Byte>>, previous: U64)
    ensures ReadLines(s, lines, previous).Ok? ==> Rising(ReadLines(s, lines, previous).value, previous)
    decreases |lines|
  {
    if ReadLines(s, lines, previous).Ok? && lines != [] {
      var first := ReadLine(s, lines[0], previous).value;
      LinesRising(s, lines[1..], first.entry.sequence);
      var rest := ReadLines(s, lines[1..], first.entry.sequence).value;
      assert ReadLines(s, lines, previous).value[1..] == rest;
    }
  }

  lemma RisingAtEnd(stored: seq<Stored>, previous: U64)
    requires stored != [] && Rising(stored, previous)
    ensures var n := |stored| - 1;
            && Rising(stored[..n], previous)
            && stored[n].entry.sequence > previous
            && (n > 0 ==> stored[n].entry.sequence > stored[n - 1].entry.sequence)
    decreases |stored|
  {
    var n := |stored| - 1;
    if n > 0 {
      RisingAtEnd(stored[1..], stored[0].entry.sequence);
      assert stored[..n][1..] == stored[1..][..n - 1];
    }
  }

  // `keys().next_back()` of the map is the last sequence of the transcript.
  lemma LastIsGreatestKey(stored: seq<Stored>)
    requires Rising(stored, 0)
    ensures forall q :: q in IdMap(stored) ==> q <= LastSequence(Entries(stored))
    ensures stored != [] ==> LastSequence(Entries(stored)) in IdMap(stored)
  {
    if stored != [] {
      var n := |stored| - 1;
      RisingAtEnd(stored, 0);
      LastIsGreatestKey(stored[..n]);
      assert LastSequence(Entries(stored)) == stored[n].entry.sequence;
      if n > 0 {
        assert LastSequence(Entries(stored[..n])) == stored[n - 1].entry.sequence;
      }
    }
  }

  // Rising from 0 is increasing from 1.
  lemma RisingIsIncreasing(stored: seq<Stored>, previous: U64)
    requires Rising(stored, previous)
    ensures forall i :: 0 <= i < |stored| ==> stored[i].entry.sequence > previous
    ensures Increasing(Entries(stored))
  {
    if stored != [] {
      var rest := stored[1..];
      RisingIsIncreasing(rest, stored[0].entry.sequence);
      var entries, later := Entries(stored), Entries(rest);
      assert forall i :: 0 < i < |stored| ==> stored[i] == rest[i - 1] && entries[i] == later[i - 1];
    }
  }

  /** The reader refuses sequence 0 and any that does not rise: what it returns is increasing. */
  lemma ReadEntriesIncrease(s: Session, content: seq<Byte>)
    requires Recover(s, content).Ok?
    ensures Increasing(Entries(Recover(s, content).value))
  {
    ReadsIncreasing(s, content);
    RisingIsIncreasing(Recover(s, content).value, 0);
  }

  // `sync` from the point where the file is known not to be empty.
  method Resume(file: File, s: Session, batch: seq<Entry>) returns (r: Result<(), LogError>)
    modifies file
    ensures Follows(old(file.AsDisk()), ResumePlan(s, old(file.content), batch), file.AsDisk(), r)
  {
    ghost var before := file.AsDisk();
    ghost var repair := RepairOps(file.content);
    var read, existing, transcript := RepairAndRead(file, s);
    if read.Err? {
      if Recover(s, before.content).Ok? {
        var stored := Recover(s, before.content).value;
        FailedBefore(before, repair,
                     AppendPlan(s, IdMap(stored), LastSequence(Entries(stored)), batch).ops, file.AsDisk());
      }
      return read;
    }
    var last: U64 := 0;
    ReadsIncreasing(s, before.content);
    LastIsGreatestKey(Recover(s, before.content).value);
    if |existing| > 0 {
      last :| last in existing && forall q :: q in existing ==> q <= last;
    }
    assert last == LastSequence(transcript);
    file.SeekEnd();
    r := AppendRecords(file, s, existing, last, batch);
    FollowsThen(before, repair, AppendPlan(s, existing, last, batch), file.AsDisk(), r);
  }

  /** Appends what the batch holds beyond the file and makes the file durable. */
  method Sync(file: File, s: Session, batch: seq<Entry>) returns (r: Result<(), LogError>)
    modifies file
    ensures Follows(old(file.AsDisk()), SyncPlan(s, old(file.content), batch), file.AsDisk(), r)
  {
    file.Open();
    ghost var before := file.AsDisk();
    if |file.content| == 0 {
      if batch == [] {
        return Err(MissingWithoutRecords);
      }
      var written := WriteRecord(file, HeaderText(s));
      ghost var rest := ResumePlan(s, HeaderLine(s), batch);
      ghost var header := RecordOps(HeaderText(s));
      assert |HeaderText(s)| <= MAX_RECORD_BYTES ==>
        SyncPlan(s, [], batch).ops == header + ([Fsync] + rest.ops);
      if written.Err? {
        if |HeaderText(s)| <= MAX_RECORD_BYTES {
          FailedBefore(before, header, [Fsync] + rest.ops, file.AsDisk());
        }
        return written;
      }
      HeaderWritten(s, before.durable);
      var ok := file.SyncData();
      if !ok {
        NothingDone(Run(before, header), [Fsync]);
        LeftBehindInside(before, header, [Fsync], rest.ops, file.AsDisk());
        assert header + [Fsync] + rest.ops == header + ([Fsync] + rest.ops);
        return Err(DiskFailure);
      }
      r := Resume(file, s, batch);
      FollowsThen(before, header + [Fsync], rest, file.AsDisk(), r);
      assert header + [Fsync] + rest.ops == header + ([Fsync] + rest.ops);
      return;
    }
    r := Resume(file, s, batch);
  }

  lemma HeaderWritten(s: Session, durable: seq<Byte>)
    ensures var header := RecordOps(HeaderText(s));
            var d := Disk([], durable);
            && Run(d, header) == Disk(HeaderLine(s), durable)
            && Run(d, header + [Fsync]) == Disk(HeaderLine(s), HeaderLine(s))
  {
    var d, header := Disk([], durable), RecordOps(HeaderText(s));
    assert [] + HeaderText(s) == HeaderText(s);
    assert header[1..] == [Put([NEWLINE])];
    var middle := Disk(HeaderText(s), durable);
    assert Run(middle, [Put([NEWLINE])]) == Apply(middle, Put([NEWLINE]));
    assert Run(d, header) == Run(middle, [Put([NEWLINE])]);
    RunSplit(d, header, [Fsync]);
  }
}
