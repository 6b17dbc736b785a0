/** What reading back, tearing and resuming a conversation log gives. */
module LogRecovery {
  import opened Prelude
  import opened Json
  import opened Lines
  import opened Transcript
  import opened Conversation

  // ---------- one record ----------

  lemma KindRoundTrip(kind: Kind)
    ensures ParseKind(Str(KindName(kind))) == Some(kind)
  {}

  // Whatever the writer accepts, the reader reads back as the same entry.
  lemma ReadLineOfEntryText(s: Session, e: Entry, previous: U64)
    requires s.wire.Faithful() && Fits(s, e) && previous < e.sequence
    ensures ReadLine(s, EntryText(s, e), previous) == Ok(Stored(s.wire.idText(e.entryId), Normal(e)))
  {
    var record := EntryRecord(s, e);
    assert s.wire.parse(EntryText(s, e)) == Some(record);
    assert record.GetStr("record") == Some("entry");
    assert record.GetU64("format_version") == Some(1);
    assert record.GetU64("seq") == Some(e.sequence);
    assert record.GetStr("entry_id") == Some(s.wire.idText(e.entryId));
    ReadBodyOfEntry(s, e);
  }

  lemma ReadBodyOfEntry(s: Session, e: Entry)
    requires s.wire.Faithful()
    ensures ReadBody(s, EntryRecord(s, e), e.sequence, s.wire.idText(e.entryId)) == Ok(Normal(e))
  {
    var record := EntryRecord(s, e);
    KindRoundTrip(e.kind);
    assert record.GetNonNull("run_id") == None;
    assert ReadTurnId(s, record) == Ok(e.turnId);
    assert record.Get("kind") == Some(Str(KindName(e.kind)));
    assert record.GetStr("content") == Some(e.text);
    assert record.GetStr("source_key") == Some(e.sourceKey);
    assert record.GetU64("created_at_ms") == Some(e.createdAtMs);
    assert record.GetNonNull("payload") == Normal(e).payload;
  }

  lemma HeaderRoundTrip(s: Session)
    requires s.wire.Faithful()
    ensures s.wire.parse(HeaderText(s)) == Some(HeaderRecord(s))
    ensures HeaderMatches(s, HeaderRecord(s))
  {}

  // ---------- whole files ----------

  function StoredOf(s: Session, entries: seq<Entry>): (r: seq<Stored>)
    ensures |r| == |entries|
  {
    seq(|entries|, i requires 0 <= i < |entries| =>
      Stored(s.wire.idText(entries[i].entryId), Normal(entries[i])))
  }

  function Texts(s: Session, entries: seq<Entry>): seq<seq<Byte>> {
    seq(|entries|, i requires 0 <= i < |entries| => EntryText(s, entries[i]))
  }

  // Texts and stored entries, first element apart.
  lemma FirstOfTexts(s: Session, first: Entry, rest: seq<Entry>)
    ensures Texts(s, [first] + rest) == [EntryText(s, first)] + Texts(s, rest)
    ensures StoredOf(s, [first] + rest) == [Stored(s.wire.idText(first.entryId), Normal(first))] + StoredOf(s, rest)
  {}

  lemma LinesOfEntryLines(s: Session, entries: seq<Entry>)
    requires s.wire.Faithful()
    ensures NonEmptyLines(EntryLines(s, entries)) == Texts(s, entries)
  {
    if entries != [] {
      var first, rest := entries[0], entries[1..];
      assert entries == [first] + rest;
      FirstOfTexts(s, first, rest);
      LinesOfFirst(s, first, EntryLines(s, rest));
      LinesOfEntryLines(s, rest);
      assert EntryLines(s, entries) == EntryLine(s, first) + EntryLines(s, rest);
    }
  }

  lemma LinesOfFirst(s: Session, first: Entry, more: seq<Byte>)
    requires s.wire.Faithful()
    ensures NonEmptyLines(EntryLine(s, first) + more) == [EntryText(s, first)] + NonEmptyLines(more)
  {
    LinesOfRecord(EntryText(s, first), more);
  }

  lemma RestIncreases(entries: seq<Entry>)
    requires entries != [] && Increasing(entries)
    ensures Increasing(entries[1..])
    ensures entries[1..] != [] ==> entries[0].sequence < entries[1..][0].sequence
  {
    assert forall i :: 0 <= i < |entries[1..]| ==> entries[1..][i] == entries[i + 1];
  }

  lemma ReadLinesFirst(s: Session, line: seq<Byte>, rest: seq<seq<Byte>>, previous: U64, first: Stored,
                       more: seq<Stored>)
    requires ReadLine(s, line, previous) == Ok(first)
    requires ReadLines(s, rest, first.entry.sequence) == Ok(more)
    ensures ReadLines(s, [line] + rest, previous) == Ok([first] + more)
  {
    assert ([line] + rest)[1..] == rest;
  }

  lemma ReadLinesOfTexts(s: Session, entries: seq<Entry>, previous: U64)
    requires s.wire.Faithful() && Increasing(entries) && AllFit(s, entries)
    requires entries != [] ==> previous < entries[0].sequence
    ensures ReadLines(s, Texts(s, entries), previous) == Ok(StoredOf(s, entries))
    decreases |entries|
  {
    if entries != [] {
      var first, rest := entries[0], entries[1..];
      assert entries == [first] + rest;
      FirstOfTexts(s, first, rest);
      RestIncreases(entries);
      ReadLineOfEntryText(s, first, previous);
      ReadLinesOfTexts(s, rest, first.sequence);
      ReadLinesFirst(s, EntryText(s, first), Texts(s, rest), previous,
                     Stored(s.wire.idText(first.entryId), Normal(first)), StoredOf(s, rest));
    }
  }

  lemma ReadWholeOfLog(s: Session, entries: seq<Entry>)
    requires s.wire.Faithful() && Increasing(entries) && AllFit(s, entries)
    ensures ReadWhole(s, LogBytes(s, entries)) == Ok(StoredOf(s, entries))
  {
    HeaderRoundTrip(s);
    LinesOfRecord(HeaderText(s), EntryLines(s, entries));
    LinesOfEntryLines(s, entries);
    ReadLinesOfTexts(s, entries, 0);
  }

  lemma EntryLinesSplit(s: Session, front: seq<Entry>, back: seq<Entry>)
    ensures EntryLines(s, front + back) == EntryLines(s, front) + EntryLines(s, back)
  {
    if front == [] {
      assert front + back == back;
    } else {
      assert (front + back)[1..] == front[1..] + back;
      EntryLinesSplit(s, front[1..], back);
    }
  }

  lemma LogGrows(s: Session, front: seq<Entry>, back: seq<Entry>)
    ensures LogBytes(s, front + back) == LogBytes(s, front) + EntryLines(s, back)
  {
    EntryLinesSplit(s, front, back);
  }

  lemma LogEndsWithNewline(s: Session, entries: seq<Entry>)
    ensures EndsWithNewline(LogBytes(s, entries))
  {
    if entries != [] {
      var n := |entries| - 1;
      assert entries == entries[..n] + [entries[n]];
      LogGrows(s, entries[..n], [entries[n]]);
    }
  }

  // ---------- torn files ----------

  // How many entries keep their newline when the log is cut to `length` bytes.
  function Survivors(s: Session, entries: seq<Entry>, length: nat): (n: nat)
    requires |HeaderLine(s)| <= length
    ensures n <= |entries| && |LogBytes(s, entries[..n])| <= length
    ensures n < |entries| ==> length < |LogBytes(s, entries[..n + 1])|
  {
    if |LogBytes(s, entries)| <= length then
      assert entries[..|entries|] == entries;
      |entries|
    else
      var front := entries[..|entries| - 1];
      var n := Survivors(s, front, length);
      assert front[..n] == entries[..n];
      assert n < |front| ==> front[..n + 1] == entries[..n + 1];
      assert n == |front| ==> entries[..n + 1] == entries;
      n
  }

  // A cut log is some whole records and part of the next one.
  lemma CutLogShape(s: Session, entries: seq<Entry>, length: nat)
    requires s.wire.Faithful()
    requires |HeaderLine(s)| <= length <= |LogBytes(s, entries)|
    ensures var n := Survivors(s, entries, length);
            && LogBytes(s, entries[..n]) <= LogBytes(s, entries)[..length]
            && CutLength(LogBytes(s, entries)[..length]) == |LogBytes(s, entries[..n])|
  {
    var n := Survivors(s, entries, length);
    var whole := LogBytes(s, entries[..n]);
    LogEndsWithNewline(s, entries[..n]);
    assert entries == entries[..n] + entries[n..];
    LogGrows(s, entries[..n], entries[n..]);
    if n < |entries| {
      var line := EntryLine(s, entries[n]);
      assert entries[..n + 1] == entries[..n] + [entries[n]];
      LogGrows(s, entries[..n], [entries[n]]);
      assert EntryLines(s, [entries[n]]) == line;
      var torn := EntryText(s, entries[n])[..length - |whole|];
      assert LogBytes(s, entries)[..length] == whole + torn;
      assert forall b :: b in torn ==> b in EntryText(s, entries[n]);
      CutDropsTheTornTail(whole, torn);
    } else {
      assert entries[..n] == entries;
      assert LogBytes(s, entries)[..length] == whole + [];
      CutDropsTheTornTail(whole, []);
    }
  }

  lemma PrefixIsFine(s: Session, entries: seq<Entry>, n: nat)
    requires Increasing(entries) && AllFit(s, entries) && n <= |entries|
    ensures Increasing(entries[..n]) && AllFit(s, entries[..n])
  {}

  /**
   Cutting a valid log at any byte past its header loses exactly the entries
   whose newline is gone, and repairing it leaves the log of the others.
   */
  lemma CutLogRecovers(s: Session, entries: seq<Entry>, length: nat)
    requires s.wire.Faithful() && Increasing(entries) && AllFit(s, entries)
    requires |HeaderLine(s)| <= length <= |LogBytes(s, entries)|
    requires length <= MAX_FILE_BYTES
    ensures var n := Survivors(s, entries, length);
            && Recover(s, LogBytes(s, entries)[..length]) == Ok(StoredOf(s, entries[..n]))
            && Entries(StoredOf(s, entries[..n])) == Normals(entries[..n])
            && (var torn := LogBytes(s, entries)[..length];
                Run(Disk(torn, torn), RepairOps(torn)).content == LogBytes(s, entries[..n]))
  {
    var n := Survivors(s, entries, length);
    CutLogShape(s, entries, length);
    PrefixIsFine(s, entries, n);
    var torn := LogBytes(s, entries)[..length];
    assert torn[..CutLength(torn)] == LogBytes(s, entries[..n]);
    ReadWholeOfLog(s, entries[..n]);
    RunOfRepair(Disk(torn, torn));
  }

  lemma RunOfRepair(d: Disk)
    requires 0 < CutLength(d.content) && |d.content| <= MAX_FILE_BYTES
    ensures var cut := d.content[..CutLength(d.content)];
            Run(d, RepairOps(d.content)) == if EndsWithNewline(d.content) then d else Disk(cut, cut)
  {
    if !EndsWithNewline(d.content) {
      var ops := RepairOps(d.content);
      assert Run(d, ops) == Run(Apply(d, ops[0]), [Fsync]);
    }
  }

  /** Writing entries and reading them back is the identity, up to null payloads. */
  lemma WriteThenRead(s: Session, entries: seq<Entry>)
    requires s.wire.Faithful() && Increasing(entries) && AllFit(s, entries)
    requires |LogBytes(s, entries)| <= MAX_FILE_BYTES
    ensures Recover(s, LogBytes(s, entries)) == Ok(StoredOf(s, entries))
    ensures Entries(StoredOf(s, entries)) == Normals(entries)
  {
    var bytes := LogBytes(s, entries);
    LogEndsWithNewline(s, entries);
    CutDropsTheTornTail(bytes, []);
    assert bytes + [] == bytes;
    assert bytes[..|bytes|] == bytes;
    ReadWholeOfLog(s, entries);
  }

  /** A file torn inside its header stays unreadable, and no call changes it. */
  lemma TornHeaderIsNeverRepaired(s: Session, length: nat, batch: seq<Entry>)
    requires s.wire.Faithful() && 0 < length < |HeaderLine(s)| && length <= MAX_FILE_BYTES
    ensures Recover(s, HeaderLine(s)[..length]) == Err(HeaderTorn)
    ensures SyncPlan(s, HeaderLine(s)[..length], batch) == Plan([], Err(HeaderTorn))
  {
    var torn := HeaderLine(s)[..length];
    assert forall i :: 0 <= i < |torn| ==> torn[i] in HeaderText(s);
    assert CutLength(torn) == 0;
  }
}
