/** What the reader accepts, said of the file's records: this binary's and older ones'. */
module FileReading {
  import opened Prelude
  import opened Json
  import opened Lines
  import opened Transcript
  import opened Conversation
  import opened LogRecovery

  // ---------- what a record says ----------

  predicate Has(record: Value, key: string, value: Value) {
    record.Obj? && key in record.fields && record.fields[key] == value
  }

  // There, and not null.
  predicate Present(record: Value, key: string) {
    record.Obj? && key in record.fields && record.fields[key] != Null
  }

  predicate Names(s: Session, value: Value, id: Option<Id>) {
    value.Str? && id.Some? && s.wire.parseId(value.text) == id
  }

  // The turn stands under `turn_id`; older binaries wrote `run_id`.
  predicate SaysTurn(s: Session, record: Value, turnId: Option<Id>) {
    if Present(record, "turn_id") then Names(s, record.fields["turn_id"], turnId)
    else if Present(record, "run_id") then Names(s, record.fields["run_id"], turnId)
    else turnId == None
  }

  predicate SaysPayload(record: Value, payload: Option<Value>) {
    payload == if Present(record, "payload") then Some(record.fields["payload"]) else None
  }

  // A record says an entry, under an id spelled `idText`. Other keys do not matter.
  predicate Says(s: Session, record: Value, idText: string, e: Entry) {
    && Has(record, "record", Str("entry")) && Has(record, "format_version", Num(1))
    && Has(record, "entry_id", Str(idText)) && s.wire.parseId(idText) == Some(e.entryId)
    && Has(record, "seq", Num(e.sequence)) && SaysTurn(s, record, e.turnId)
    && Has(record, "kind", Str(KindName(e.kind))) && Has(record, "content", Str(e.text))
    && SaysPayload(record, e.payload) && Has(record, "source_key", Str(e.sourceKey))
    && Has(record, "created_at_ms", Num(e.createdAtMs))
  }

  predicate SaysSession(s: Session, header: Value) {
    && Has(header, "record", Str("session")) && Has(header, "format_version", Num(1))
    && Has(header, "session_id", Str(s.wire.idText(s.id))) && Has(header, "workspace_id", Str(s.workspace))
  }

  // ---------- one line ----------

  predicate LineSays(s: Session, line: seq<Byte>, stored: Stored) {
    && |line| <= 2 * 1024 * 1024
    && s.wire.parse(line).Some? && Says(s, s.wire.parse(line).value, stored.idText, stored.entry)
  }

  lemma KindIsItsName(value: Value, kind: Kind)
    ensures ParseKind(value) == Some(kind) <==> value == Str(KindName(kind))
  {}

  lemma TurnIsSaid(s: Session, record: Value, turnId: Option<Id>)
    ensures ReadTurnId(s, record) == Ok(turnId) <==> SaysTurn(s, record, turnId)
  {}

  lemma BodyIsSaid(s: Session, record: Value, sequence: U64, idText: string, e: Entry)
    ensures ReadBody(s, record, sequence, idText) == Ok(e) <==>
              && s.wire.parseId(idText) == Some(e.entryId) && e.sequence == sequence && SaysTurn(s, record, e.turnId)
              && Has(record, "kind", Str(KindName(e.kind))) && Has(record, "content", Str(e.text))
              && SaysPayload(record, e.payload) && Has(record, "source_key", Str(e.sourceKey))
              && Has(record, "created_at_ms", Num(e.createdAtMs))
  {
    TurnIsSaid(s, record, e.turnId);
    if Present(record, "kind") {
      KindIsItsName(record.fields["kind"], e.kind);
    }
  }

  /** A line is read as an entry exactly when its record says that entry, and it rises. */
  lemma LineIsSaid(s: Session, line: seq<Byte>, previous: U64, stored: Stored)
    ensures ReadLine(s, line, previous) == Ok(stored) <==>
              LineSays(s, line, stored) && stored.entry.sequence > previous
  {
    if s.wire.parse(line).Some? {
      BodyIsSaid(s, s.wire.parse(line).value, stored.entry.sequence, stored.idText, stored.entry);
    }
  }

  /** What is wrong with a line that is refused. */
  lemma LineRefusedBecause(s: Session, line: seq<Byte>, previous: U64)
    requires ReadLine(s, line, previous).Err?
    ensures var error, record := ReadLine(s, line, previous).error, s.wire.parse(line);
            if error == LineLimit then |line| > 2 * 1024 * 1024
            else if error == BadJson then record == None
            else record.Some? && Lacks(s, record.value, previous, error)
  {
    match s.wire.parse(line)
    case None =>
    case Some(record) =>
      match (record.GetU64("seq"), record.GetStr("entry_id"))
      case (Some(sequence), Some(idText)) =>
        if ReadBody(s, record, sequence, idText).Err? {
          BodyRefusedBecause(s, record, sequence, idText, previous);
        }
      case _ =>
  }

  lemma BodyRefusedBecause(s: Session, record: Value, sequence: U64, idText: string, previous: U64)
    requires Has(record, "entry_id", Str(idText)) && ReadBody(s, record, sequence, idText).Err?
    ensures Lacks(s, record, previous, ReadBody(s, record, sequence, idText).error)
  {}

  // What a record lacks to be read, by the error it gives.
  ghost predicate Lacks(s: Session, record: Value, previous: U64, error: LogError) {
    match error
    case BadRecordType => !Has(record, "record", Str("entry")) || !Has(record, "format_version", Num(1))
    case NoSequence => forall n: U64 :: !Has(record, "seq", Num(n))
    case NotIncreasing => exists n: U64 :: n <= previous && Has(record, "seq", Num(n))
    case NoEntryId => forall text :: !Has(record, "entry_id", Str(text))
    case BadEntryId => exists text :: Has(record, "entry_id", Str(text)) && s.wire.parseId(text) == None
    case BadTurnId => forall turnId :: !SaysTurn(s, record, turnId)
    case NoKind => forall value :: !Has(record, "kind", value)
    case BadKind => forall kind :: !Has(record, "kind", Str(KindName(kind)))
    case NoContent => forall text :: !Has(record, "content", Str(text))
    case NoSourceKey => forall text :: !Has(record, "source_key", Str(text))
    case NoCreationTime => forall n: U64 :: !Has(record, "created_at_ms", Num(n))
    case _ => false
  }

  // ---------- whole files ----------

  // Sequences rise strictly from above the given one.
  predicate RiseFrom(stored: seq<Stored>, previous: U64) {
    && (stored != [] ==> stored[0].entry.sequence > previous)
    && forall i :: 0 < i < |stored| ==> stored[i - 1].entry.sequence < stored[i].entry.sequence
  }

  predicate AllSaid(s: Session, lines: seq<seq<Byte>>, stored: seq<Stored>) {
    |stored| == |lines| && forall i :: 0 <= i < |lines| ==> LineSays(s, lines[i], stored[i])
  }

  lemma SaidFirst(s: Session, lines: seq<seq<Byte>>, stored: seq<Stored>)
    requires lines != [] && stored != []
    ensures AllSaid(s, lines, stored) <==> LineSays(s, lines[0], stored[0]) && AllSaid(s, lines[1..], stored[1..])
  {
    var more, rest := lines[1..], stored[1..];
    if AllSaid(s, more, rest) && LineSays(s, lines[0], stored[0]) {
      forall i | 0 <= i < |lines| ensures LineSays(s, lines[i], stored[i]) {
        if i > 0 {
          assert LineSays(s, more[i - 1], rest[i - 1]);
        }
      }
    }
    if AllSaid(s, lines, stored) {
      forall i | 0 <= i < |more| ensures LineSays(s, more[i], rest[i]) {
        assert LineSays(s, lines[i + 1], stored[i + 1]);
      }
    }
  }

  lemma RiseFirst(stored: seq<Stored>, previous: U64)
    requires stored != []
    ensures RiseFrom(stored, previous) <==>
              stored[0].entry.sequence > previous && RiseFrom(stored[1..], stored[0].entry.sequence)
  {
    var rest := stored[1..];
    assert forall i :: 0 <= i < |rest| ==> rest[i] == stored[i + 1];
    if RiseFrom(rest, stored[0].entry.sequence) {
      forall i | 0 < i < |stored| ensures stored[i - 1].entry.sequence < stored[i].entry.sequence {
        if i > 1 {
          assert rest[i - 2].entry.sequence < rest[i - 1].entry.sequence;
        }
      }
    }
    if RiseFrom(stored, previous) {
      forall i | 0 < i < |rest| ensures rest[i - 1].entry.sequence < rest[i].entry.sequence {
        assert stored[(i + 1) - 1].entry.sequence < stored[i + 1].entry.sequence;
      }
    }
  }

  lemma {:induction false} LinesAreSaid(s: Session, lines: seq<seq<Byte>>, previous: U64, stored: seq<Stored>)
    ensures ReadLines(s, lines, previous) == Ok(stored) <==>
              AllSaid(s, lines, stored) && RiseFrom(stored, previous)
    decreases |lines|
  {
    if lines != [] && stored != [] {
      SaidFirst(s, lines, stored);
      RiseFirst(stored, previous);
      LineIsSaid(s, lines[0], previous, stored[0]);
      LinesAreSaid(s, lines[1..], stored[0].entry.sequence, stored[1..]);
      assert [stored[0]] + stored[1..] == stored;
    }
  }

  lemma HeaderIsSaid(s: Session, header: Value)
    ensures HeaderMatches(s, header) <==> SaysSession(s, header)
  {}

  /**
   What is read from a file, exactly: within 64 MiB, up to its last newline, the first line
   names this session in this workspace and the others, none over 2 MiB, say the entries in
   strictly rising order from above 0. Anything else is an error.
   */
  lemma ReadsWhatTheFileSays(s: Session, content: seq<Byte>, stored: seq<Stored>)
    ensures Recover(s, content) == Ok(stored) <==>
              && |content| <= 64 * 1024 * 1024 && NEWLINE in content
              && var lines := NonEmptyLines(content[..CutLength(content)]);
                 && lines != [] && s.wire.parse(lines[0]).Some? && SaysSession(s, s.wire.parse(lines[0]).value)
                 && AllSaid(s, lines[1..], stored) && RiseFrom(stored, 0)
  {
    NewlineMeansACut(content);
    var lines := NonEmptyLines(content[..CutLength(content)]);
    if lines != [] {
      LinesAreSaid(s, lines[1..], 0, stored);
      if s.wire.parse(lines[0]).Some? {
        HeaderIsSaid(s, s.wire.parse(lines[0]).value);
      }
    }
  }

  lemma NewlineMeansACut(content: seq<Byte>)
    ensures NEWLINE in content <==> CutLength(content) > 0
  {
    if NEWLINE in content {
      var i :| 0 <= i < |content| && content[i] == NEWLINE;
    }
  }

  /** The header written says the session, and when it was created. */
  lemma WrittenHeaderSays(s: Session)
    requires s.wire.Faithful()
    ensures s.wire.parse(HeaderText(s)).Some?
    ensures var header := s.wire.parse(HeaderText(s)).value;
            SaysSession(s, header) && Has(header, "created_at_ms", Num(s.createdAtMs))
  {
    HeaderRoundTrip(s);
  }

  // ---------- files of older binaries ----------

  /** How a record spells its turn: as now, under the old key alone, under the old key beside
      a null, or under both. */
  datatype Spelling = Now | OldKey | OldKeyBesideNull | BothKeys(older: Value)

  function Spelled(s: Session, e: Entry, spelling: Spelling): Value {
    var fields := EntryRecord(s, e).fields;
    match spelling
    case Now => Obj(fields)
    case OldKey => Obj((fields - {"turn_id"})["run_id" := fields["turn_id"]])
    case OldKeyBesideNull => Obj(fields["turn_id" := Null]["run_id" := fields["turn_id"]])
    case BothKeys(older) => Obj(fields["run_id" := older])
  }

  function SpelledText(s: Session, e: Entry, spelling: Spelling): seq<Byte> {
    s.wire.emit(Spelled(s, e, spelling))
  }

  function SpelledTexts(s: Session, entries: seq<Entry>, spellings: seq<Spelling>): seq<seq<Byte>>
    requires |spellings| == |entries|
  {
    seq(|entries|, i requires 0 <= i < |entries| => SpelledText(s, entries[i], spellings[i]))
  }

  function Terminated(texts: seq<seq<Byte>>): seq<Byte> {
    if texts == [] then [] else texts[0] + [NEWLINE] + Terminated(texts[1..])
  }

  // A non-null `turn_id` wins over whatever stands under `run_id`.
  lemma SpelledSaysItsTurn(s: Session, e: Entry, spelling: Spelling)
    requires s.wire.Faithful() && (spelling.BothKeys? ==> e.turnId.Some?)
    ensures SaysTurn(s, Spelled(s, e, spelling), e.turnId)
  {}

  lemma SpelledSays(s: Session, e: Entry, spelling: Spelling)
    requires s.wire.Faithful() && (spelling.BothKeys? ==> e.turnId.Some?)
    ensures Says(s, Spelled(s, e, spelling), s.wire.idText(e.entryId), Normal(e))
  {
    SpelledSaysItsTurn(s, e, spelling);
    EntrySays(s, e);
    OtherKeysStay(s, e, spelling);
    SaysCarriesOver(s, EntryRecord(s, e), Spelled(s, e, spelling), s.wire.idText(e.entryId), Normal(e));
  }

  lemma EntrySays(s: Session, e: Entry)
    requires s.wire.Faithful()
    ensures Says(s, EntryRecord(s, e), s.wire.idText(e.entryId), Normal(e))
  {}

  ghost predicate SameButTurn(a: Value, b: Value) {
    a.Obj? && b.Obj? && forall key :: key !in {"turn_id", "run_id"} ==> a.Get(key) == b.Get(key)
  }

  lemma OtherKeysStay(s: Session, e: Entry, spelling: Spelling)
    ensures SameButTurn(EntryRecord(s, e), Spelled(s, e, spelling))
  {}

  lemma SaysCarriesOver(s: Session, a: Value, b: Value, idText: string, e: Entry)
    requires SameButTurn(a, b) && Says(s, a, idText, e) && SaysTurn(s, b, e.turnId)
    ensures Says(s, b, idText, e)
  {
    SameHas(a, b, "record");
    SameHas(a, b, "format_version");
    SameHas(a, b, "entry_id");
    SameHas(a, b, "seq");
    SameHas(a, b, "kind");
    SameHas(a, b, "content");
    SameHas(a, b, "payload");
    SameHas(a, b, "source_key");
    SameHas(a, b, "created_at_ms");
  }

  lemma SameHas(a: Value, b: Value, key: string)
    requires SameButTurn(a, b) && key != "turn_id" && key != "run_id"
    ensures key in a.fields <==> key in b.fields
    ensures key in a.fields ==> a.fields[key] == b.fields[key]
  {
    assert a.Get(key) == b.Get(key);
  }

  lemma {:induction false} LinesOfTexts(texts: seq<seq<Byte>>)
    requires forall i :: 0 <= i < |texts| ==> texts[i] != [] && NEWLINE !in texts[i]
    ensures NonEmptyLines(Terminated(texts)) == texts
  {
    if texts != [] {
      LinesOfTexts(texts[1..]);
      LinesOfRecord(texts[0], Terminated(texts[1..]));
      assert texts == [texts[0]] + texts[1..];
    }
  }

  lemma {:induction false} TerminatedEnds(front: seq<Byte>, texts: seq<seq<Byte>>)
    requires EndsWithNewline(front)
    ensures EndsWithNewline(front + Terminated(texts))
    decreases |texts|
  {
    if texts == [] {
      assert front + [] == front;
    } else {
      var line := texts[0] + [NEWLINE];
      TerminatedEnds(front + line, texts[1..]);
      assert front + Terminated(texts) == (front + line) + Terminated(texts[1..]);
    }
  }

  lemma SpelledTextsAreSaid(s: Session, entries: seq<Entry>, spellings: seq<Spelling>)
    requires s.wire.Faithful() && |spellings| == |entries|
    requires forall i :: 0 <= i < |entries| ==> (spellings[i].BothKeys? ==> entries[i].turnId.Some?)
    requires forall i :: 0 <= i < |entries| ==> |SpelledText(s, entries[i], spellings[i])| <= MAX_RECORD_BYTES
    ensures AllSaid(s, SpelledTexts(s, entries, spellings), StoredOf(s, entries))
  {
    var texts, stored := SpelledTexts(s, entries, spellings), StoredOf(s, entries);
    forall i | 0 <= i < |texts| ensures LineSays(s, texts[i], stored[i]) {
      SpelledSays(s, entries[i], spellings[i]);
    }
  }

  lemma StoredRise(s: Session, entries: seq<Entry>)
    requires Increasing(entries)
    ensures RiseFrom(StoredOf(s, entries), 0)
  {
    var stored := StoredOf(s, entries);
    forall i | 0 <= i < |stored| ensures stored[i].entry.sequence == entries[i].sequence {
      assert stored[i].entry == Normal(entries[i]);
    }
  }

  // A file that ends behind its last record.
  lemma WholeFileSays(s: Session, texts: seq<seq<Byte>>, stored: seq<Stored>)
    requires s.wire.Faithful()
    requires forall i :: 0 <= i < |texts| ==> texts[i] != [] && NEWLINE !in texts[i]
    requires |HeaderLine(s) + Terminated(texts)| <= MAX_FILE_BYTES
    requires AllSaid(s, texts, stored) && RiseFrom(stored, 0)
    ensures Recover(s, HeaderLine(s) + Terminated(texts)) == Ok(stored)
  {
    var content := HeaderLine(s) + Terminated(texts);
    HeaderRoundTrip(s);
    LinesOfWholeFile(s, texts);
    LinesAreSaid(s, texts, 0, stored);
    assert ([HeaderText(s)] + texts)[1..] == texts;
  }

  lemma LinesOfWholeFile(s: Session, texts: seq<seq<Byte>>)
    requires s.wire.Faithful()
    requires forall i :: 0 <= i < |texts| ==> texts[i] != [] && NEWLINE !in texts[i]
    ensures var content := HeaderLine(s) + Terminated(texts);
            && CutLength(content) == |content| > 0 && content[..CutLength(content)] == content
            && NonEmptyLines(content) == [HeaderText(s)] + texts
  {
    var content := HeaderLine(s) + Terminated(texts);
    TerminatedEnds(HeaderLine(s), texts);
    LinesOfTexts(texts);
    LinesOfRecord(HeaderText(s), Terminated(texts));
    assert content[..|content|] == content;
  }

  /**
   A file some or all of whose records spell the turn under the old key, with `turn_id` absent
   or null, reads back as the same entries with the same turns; so does one with both keys,
   where `turn_id` wins.
   */
  lemma OlderFilesRead(s: Session, entries: seq<Entry>, spellings: seq<Spelling>)
    requires s.wire.Faithful() && Increasing(entries) && |spellings| == |entries|
    requires forall i :: 0 <= i < |entries| ==> (spellings[i].BothKeys? ==> entries[i].turnId.Some?)
    requires forall i :: 0 <= i < |entries| ==> |SpelledText(s, entries[i], spellings[i])| <= MAX_RECORD_BYTES
    requires |HeaderLine(s) + Terminated(SpelledTexts(s, entries, spellings))| <= MAX_FILE_BYTES
    ensures Recover(s, HeaderLine(s) + Terminated(SpelledTexts(s, entries, spellings))) == Ok(StoredOf(s, entries))
  {
    SpelledTextsAreSaid(s, entries, spellings);
    StoredRise(s, entries);
    WholeFileSays(s, SpelledTexts(s, entries, spellings), StoredOf(s, entries));
  }

  /** The log of another session, or of this one in another workspace, is refused. */
  lemma ForeignLogIsRefused(s: Session, other: Session, entries: seq<Entry>)
    requires s.wire.Faithful() && other.wire == s.wire && (other.id != s.id || other.workspace != s.workspace)
    requires |LogBytes(other, entries)| <= MAX_FILE_BYTES
    ensures Recover(s, LogBytes(other, entries)) == Err(IdentityMismatch)
  {
    var content := LogBytes(other, entries);
    HeaderRoundTrip(other);
    LogEndsWithNewline(other, entries);
    LinesOfRecord(HeaderText(other), EntryLines(other, entries));
    assert content[..CutLength(content)] == content;
    assert s.wire.parseId(s.wire.idText(s.id)) == Some(s.id);
    assert s.wire.parseId(s.wire.idText(other.id)) == Some(other.id);
  }
}
