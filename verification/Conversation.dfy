/**
 The on-disk form of one session's conversation: how records are written, how a
 file is read back, and which disk operations one `sync` performs.
 */
module Conversation {
  import opened Prelude
  import opened Json
  import opened Lines
  import opened Transcript

  const MAX_FILE_BYTES: nat := 64 * 1024 * 1024
  const MAX_RECORD_BYTES: nat := 2 * 1024 * 1024

  /** The JSON and UUID libraries, as far as the log relies on them. */
  datatype Wire = Wire(
    emit: Value -> seq<Byte>,
    parse: seq<Byte> -> Option<Value>,
    idText: Id -> string,
    parseId: string -> Option<Id>)
  {
    // JSON text is never empty, carries no raw newline (RFC 8259, section 7) and parses back.
    ghost predicate Faithful() {
      && (forall v :: emit(v) != [] && NEWLINE !in emit(v))
      && (forall v :: parse(emit(v)) == Some(v))
      && (forall id: Id :: parseId(idText(id)) == Some(id))
    }
  }

  datatype Session = Session(wire: Wire, id: Id, workspace: string, createdAtMs: U64)

  datatype LogError =
    | MissingWithoutRecords | TooLarge | HeaderTorn | HeaderMissing | BadJson | IdentityMismatch
    | LineLimit | BadRecordType | NoSequence | NoEntryId | NotIncreasing | BadEntryId | BadTurnId
    | NoKind | BadKind | NoContent | NoSourceKey | NoCreationTime
    | DifferentEntryId(sequence: U64) | SequenceNotIncreasing(previous: U64, found: U64)
    | DiskFailure

  // ---------- records ----------

  function KindName(kind: Kind): string {
    match kind
    case User => "user"
    case Assistant => "assistant"
    case ToolCall => "tool_call"
    case ToolResult => "tool_result"
    case Permission => "permission"
    case Input => "input"
    case Failure => "failure"
    case Completion => "completion"
    case System => "system"
    case CompactSummary => "compact_summary"
    case ToolResultElision => "tool_result_elision"
  }

  function ParseKind(v: Value): Option<Kind> {
    match v
    case Str(name) =>
      (match name
       case "user" => Some(User)
       case "assistant" => Some(Assistant)
       case "tool_call" => Some(ToolCall)
       case "tool_result" => Some(ToolResult)
       case "permission" => Some(Permission)
       case "input" => Some(Input)
       case "failure" => Some(Failure)
       case "completion" => Some(Completion)
       case "system" => Some(System)
       case "compact_summary" => Some(CompactSummary)
       case "tool_result_elision" => Some(ToolResultElision)
       case _ => None)
    case _ => None
  }

  function HeaderRecord(s: Session): Value {
    Obj(map[
      "record" := Str("session"),
      "format_version" := Num(1),
      "session_id" := Str(s.wire.idText(s.id)),
      "workspace_id" := Str(s.workspace),
      "created_at_ms" := Num(s.createdAtMs)])
  }

  function EntryRecord(s: Session, e: Entry): Value {
    Obj(map[
      "record" := Str("entry"),
      "format_version" := Num(1),
      "entry_id" := Str(s.wire.idText(e.entryId)),
      "seq" := Num(e.sequence),
      "turn_id" := if e.turnId.Some? then Str(s.wire.idText(e.turnId.value)) else Null,
      "created_at_ms" := Num(e.createdAtMs),
      "kind" := Str(KindName(e.kind)),
      "content" := Str(e.text),
      "payload" := if e.payload.Some? then e.payload.value else Null,
      "source_key" := Str(e.sourceKey)])
  }

  // A payload of JSON null reads back as no payload.
  function Normal(e: Entry): Entry {
    if e.payload == Some(Null) then e.(payload := None) else e
  }

  function Normals(entries: seq<Entry>): (r: seq<Entry>)
    ensures |r| == |entries|
  {
    seq(|entries|, i requires 0 <= i < |entries| => Normal(entries[i]))
  }

  function HeaderText(s: Session): seq<Byte> { s.wire.emit(HeaderRecord(s)) }

  function EntryText(s: Session, e: Entry): seq<Byte> { s.wire.emit(EntryRecord(s, e)) }

  function HeaderLine(s: Session): seq<Byte> { HeaderText(s) + [NEWLINE] }

  function EntryLine(s: Session, e: Entry): seq<Byte> { EntryText(s, e) + [NEWLINE] }

  function EntryLines(s: Session, entries: seq<Entry>): seq<Byte> {
    if entries == [] then [] else EntryLine(s, entries[0]) + EntryLines(s, entries[1..])
  }

  // The file that holds exactly these entries.
  function LogBytes(s: Session, entries: seq<Entry>): seq<Byte> {
    HeaderLine(s) + EntryLines(s, entries)
  }

  predicate Fits(s: Session, e: Entry) { |EntryText(s, e)| <= MAX_RECORD_BYTES }

  ghost predicate AllFit(s: Session, entries: seq<Entry>) {
    forall i :: 0 <= i < |entries| ==> Fits(s, entries[i])
  }

  // ---------- reading ----------

  // An entry together with the identifier text the file spells it with.
  datatype Stored = Stored(idText: string, entry: Entry)

  predicate HeaderMatches(s: Session, header: Value) {
    && header.GetStr("record") == Some("session")
    && header.GetU64("format_version") == Some(1)
    && header.GetStr("session_id") == Some(s.wire.idText(s.id))
    && header.GetStr("workspace_id") == Some(s.workspace)
  }

  // `turn_id`, falling back to the `run_id` older binaries wrote.
  function ReadTurnId(s: Session, record: Value): Result<Option<Id>, LogError> {
    var field: Option<Value> :=
      match record.GetNonNull("turn_id")
      case Some(v) => Some(v)
      case None => record.GetNonNull("run_id");
    match field
    case None => Ok(None)
    case Some(Str(text)) =>
      (match s.wire.parseId(text)
       case Some(id) => Ok(Some(id))
       case None => Err(BadTurnId))
    case Some(_) => Err(BadTurnId)
  }

  // The fields after the sequence check, in the order the reader asks for them.
  function ReadBody(s: Session, record: Value, sequence: U64, idText: string): Result<Entry, LogError> {
    match s.wire.parseId(idText)
    case None => Err(BadEntryId)
    case Some(entryId) =>
    match ReadTurnId(s, record)
    case Err(error) => Err(error)
    case Ok(turnId) =>
    match record.Get("kind")
    case None => Err(NoKind)
    case Some(kindValue) =>
    match ParseKind(kindValue)
    case None => Err(BadKind)
    case Some(kind) =>
    match record.GetStr("content")
    case None => Err(NoContent)
    case Some(text) =>
    match record.GetStr("source_key")
    case None => Err(NoSourceKey)
    case Some(sourceKey) =>
    match record.GetU64("created_at_ms")
    case None => Err(NoCreationTime)
    case Some(createdAtMs) =>
      Ok(Entry(entryId, sequence, turnId, kind, text, record.GetNonNull("payload"), sourceKey, createdAtMs))
  }

  function ReadLine(s: Session, line: seq<Byte>, previous: U64): (r: Result<Stored, LogError>)
    ensures r.Ok? ==> r.value.entry.sequence > previous
  {
    if |line| > MAX_RECORD_BYTES then Err(LineLimit) else
    match s.wire.parse(line)
    case None => Err(BadJson)
    case Some(record) =>
    if record.GetStr("record") != Some("entry") || record.GetU64("format_version") != Some(1) then
      Err(BadRecordType)
    else
    match record.GetU64("seq")
    case None => Err(NoSequence)
    case Some(sequence) =>
    match record.GetStr("entry_id")
    case None => Err(NoEntryId)
    case Some(idText) =>
    if sequence <= previous then Err(NotIncreasing) else
    match ReadBody(s, record, sequence, idText)
    case Err(error) => Err(error)
    case Ok(entry) => Ok(Stored(idText, entry))
  }

  function ReadLines(s: Session, lines: seq<seq<Byte>>, previous: U64): Result<seq<Stored>, LogError> {
    if lines == [] then Ok([]) else
    match ReadLine(s, lines[0], previous)
    case Err(error) => Err(error)
    case Ok(first) =>
    match ReadLines(s, lines[1..], first.entry.sequence)
    case Err(error) => Err(error)
    case Ok(rest) => Ok([first] + rest)
  }

  function ReadWhole(s: Session, bytes: seq<Byte>): Result<seq<Stored>, LogError> {
    var lines := NonEmptyLines(bytes);
    if lines == [] then Err(HeaderMissing) else
    match s.wire.parse(lines[0])
    case None => Err(BadJson)
    case Some(header) =>
    if !HeaderMatches(s, header) then Err(IdentityMismatch)
    else ReadLines(s, lines[1..], 0)
  }

  // What `repair_and_read` answers on a disk that does not fail.
  function Recover(s: Session, content: seq<Byte>): Result<seq<Stored>, LogError> {
    if |content| > MAX_FILE_BYTES then Err(TooLarge)
    else if CutLength(content) == 0 then Err(HeaderTorn)
    else ReadWhole(s, content[..CutLength(content)])
  }

  function Entries(stored: seq<Stored>): (r: seq<Entry>)
    ensures |r| == |stored|
  {
    seq(|stored|, i requires 0 <= i < |stored| => stored[i].entry)
  }

  function IdMap(stored: seq<Stored>): map<U64, string> {
    if stored == [] then map[]
    else
      var last := stored[|stored| - 1];
      IdMap(stored[..|stored| - 1])[last.entry.sequence := last.idText]
  }

  // ---------- the disk operations of one call ----------

  datatype Op = Put(data: seq<Byte>) | Truncate(length: nat) | Fsync

  // What every process sees, and what a power cut is certain to find.
  datatype Disk = Disk(content: seq<Byte>, durable: seq<Byte>)

  function Apply(d: Disk, op: Op): Disk {
    match op
    case Put(data) => d.(content := d.content + data)
    case Truncate(length) => if length <= |d.content| then d.(content := d.content[..length]) else d
    case Fsync => d.(durable := d.content)
  }

  function Run(d: Disk, ops: seq<Op>): Disk
    decreases |ops|
  {
    if ops == [] then d else Run(Apply(d, ops[0]), ops[1..])
  }

  // The first `steps` operations, then `bytes` bytes of the next one if it writes.
  function Interrupted(d: Disk, ops: seq<Op>, steps: nat, bytes: nat): Disk
    requires steps <= |ops|
  {
    var reached := Run(d, ops[..steps]);
    if steps < |ops| && ops[steps].Put? && bytes <= |ops[steps].data|
    then Apply(reached, Put(ops[steps].data[..bytes]))
    else reached
  }

  // A state the disk may be left in when a call dies or fails on the way through `ops`.
  ghost predicate LeftBehind(d: Disk, ops: seq<Op>, left: Disk) {
    exists steps: nat, bytes: nat :: steps <= |ops| && left == Interrupted(d, ops, steps, bytes)
  }

  datatype Plan = Plan(ops: seq<Op>, verdict: Result<(), LogError>)

  function RecordOps(text: seq<Byte>): seq<Op> { [Put(text), Put([NEWLINE])] }

  function RepairOps(content: seq<Byte>): seq<Op> {
    if |content| > MAX_FILE_BYTES || EndsWithNewline(content) || CutLength(content) == 0 then []
    else [Truncate(CutLength(content)), Fsync]
  }

  function AppendPlan(s: Session, ids: map<U64, string>, last: U64, batch: seq<Entry>): Plan
    decreases |batch|
  {
    if batch == [] then Plan([Fsync], Ok(()))
    else
      var e := batch[0];
      if e.sequence in ids then
        if ids[e.sequence] != s.wire.idText(e.entryId)
        then Plan([], Err(DifferentEntryId(e.sequence)))
        else AppendPlan(s, ids, last, batch[1..])
      else if e.sequence <= last then Plan([], Err(SequenceNotIncreasing(last, e.sequence)))
      else if !Fits(s, e) then Plan([], Err(LineLimit))
      else
        var rest := AppendPlan(s, ids, e.sequence, batch[1..]);
        Plan(RecordOps(EntryText(s, e)) + rest.ops, rest.verdict)
  }

  // `sync` on a file that already holds something.
  function ResumePlan(s: Session, content: seq<Byte>, batch: seq<Entry>): Plan {
    var repair := RepairOps(content);
    match Recover(s, content)
    case Err(error) => Plan(repair, Err(error))
    case Ok(stored) =>
      var append := AppendPlan(s, IdMap(stored), LastSequence(Entries(stored)), batch);
      Plan(repair + append.ops, append.verdict)
  }

  function SyncPlan(s: Session, content: seq<Byte>, batch: seq<Entry>): Plan {
    if content != [] then ResumePlan(s, content, batch)
    else if batch == [] then Plan([], Err(MissingWithoutRecords))
    else if |HeaderText(s)| > MAX_RECORD_BYTES then Plan([], Err(LineLimit))
    else
      var rest := ResumePlan(s, HeaderLine(s), batch);
      Plan(RecordOps(HeaderText(s)) + [Fsync] + rest.ops, rest.verdict)
  }
}
