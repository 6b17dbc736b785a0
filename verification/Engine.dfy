/** Draining one session's outbox into its file, and reading pages and windows from it. */
module Engine {
  import opened Prelude
  import opened Transcript
  import opened Conversation
  import opened SyncRefinement
  import opened SessionFile
  import opened Outbox
  import opened Paging

  // What the engine reports: its own database, or the log.
  datatype EngineError = Storage | Log(error: LogError)

  // What a drain may leave of the file. After a database failure it is untouched, or synced
  // and not acknowledged.
  ghost predicate Drains(before: Disk, plan: Plan, after: Disk, r: Result<(), EngineError>) {
    match r
    case Ok(_) => plan.verdict.Ok? && after == Run(before, plan.ops)
    case Err(Log(e)) => Follows(before, plan, after, Err(e))
    case Err(Storage) => after == before || (plan.verdict.Ok? && after == Run(before, plan.ops))
  }

  lemma WholeBatch(batch: seq<Entry>)
    ensures Increasing(batch) && batch != [] ==> After(batch, LastSequence(batch)) == []
  {
    if Increasing(batch) && batch != [] {
      assert batch[..|batch|] == batch;
      AfterPrefix(batch, |batch|);
    }
  }

  class SessionEngine {
    const session: Session
    const file: File
    var outbox: seq<Entry>

    constructor (session: Session, file: File, outbox: seq<Entry>)
      ensures this.session == session && this.file == file && this.outbox == outbox
    {
      this.session, this.file, this.outbox := session, file, outbox;
    }

    // The rows in order of sequence, or a database failure.
    method ReadOutbox() returns (r: Result<seq<Entry>, EngineError>)
      ensures r == Ok(outbox) || r == Err(Storage)
    {
      var up: bool := *;
      r := if up then Ok(outbox) else Err(Storage);
    }

    // Deletes the rows through a sequence, or fails and deletes none.
    method Acknowledge(sequence: U64) returns (r: Result<(), EngineError>)
      modifies this`outbox
      ensures r == Ok(()) || r == Err(Storage)
      ensures outbox == if r.Ok? then After(old(outbox), sequence) else old(outbox)
    {
      var up: bool := *;
      if !up {
        return Err(Storage);
      }
      outbox := After(outbox, sequence);
      r := Ok(());
    }

    // Fsync comes before acknowledge: an error leaves every row in the outbox. A database
    // failure leaves the file untouched, or holding all that is still in the outbox.
    method SyncSession() returns (r: Result<(), EngineError>)
      modifies this`outbox, file
      ensures Drains(old(file.AsDisk()), SyncPlan(session, old(file.content), old(outbox)), file.AsDisk(), r)
      ensures outbox == if r.Ok? then Acknowledged(old(outbox), old(outbox)) else old(outbox)
      ensures r.Ok? && Increasing(old(outbox)) ==> outbox == []
    {
      var entries := ReadOutbox();
      if entries.Err? {
        return Err(entries.error);
      }
      var batch := entries.value;
      var synced := Sync(file, session, batch);
      if synced.Err? {
        return Err(Log(synced.error));
      }
      r := Ok(());
      if batch != [] {
        r := Acknowledge(LastSequence(batch));
        WholeBatch(batch);
      }
    }

    method ConversationPage(after: Option<U64>, limit: nat, tail: bool) returns (r: Result<Page, EngineError>)
      modifies this`outbox, file
      ensures r.Ok? ==>
                var synced := Run(old(file.AsDisk()), SyncPlan(session, old(file.content), old(outbox)).ops);
                match Recover(session, synced.content)
                case Err(_) => false
                case Ok(stored) => IsPage(r.value, Entries(stored), after, limit, tail)
    {
      var synced := SyncSession();
      if synced.Err? {
        return Err(synced.error);
      }
      ghost var content := file.content;
      var read := Read(file, session);
      if read.Err? {
        return Err(Log(read.error));
      }
      ReadEntriesIncrease(session, content);
      var page := Cut(read.value, after, limit, tail);
      r := Ok(page);
    }
  }

  // The newest entries, or the oldest ones newer than the cursor, as many as the limit bounds.
  ghost predicate IsPage(page: Page, all: seq<Entry>, after: Option<U64>, limit: nat, tail: bool) {
    if tail then IsTail(page, all, limit)
    else page == ForwardPage(all, after, limit) && exists k :: IsForward(page, all, after, limit, k)
  }

  // One page out of everything that was read.
  method Cut(all: seq<Entry>, after: Option<U64>, limit: nat, tail: bool) returns (page: Page)
    ensures page == if tail then TailPage(all, limit) else ForwardPage(all, after, limit)
    ensures tail || Increasing(all) ==> IsPage(page, all, after, limit, tail)
  {
    var bounded := if limit < 1 then 1 else if limit > 500 then 500 else limit;
    if tail {
      var start := if |all| > bounded then |all| - bounded else 0;
      var entries := all[start..];
      TailPageIsTail(all, limit);
      return Page(entries, LastOf(entries), start > 0);
    }
    var kept := Retain(all, if after.Some? then after.value else 0);
    var hasMore := |kept| > bounded;
    if hasMore {
      kept := kept[..bounded];
    }
    page := Page(kept, LastOf(kept), hasMore);
    if Increasing(all) {
      var k := ForwardPageIsForward(all, after, limit);
    }
  }

  // `retain`: keeps the entries after a sequence, in order.
  method Retain(entries: seq<Entry>, sequence: nat) returns (kept: seq<Entry>)
    ensures kept == After(entries, sequence)
    ensures forall e :: e in kept <==> e in entries && e.sequence > sequence
  {
    kept := [];
    var i := 0;
    while i < |entries|
      invariant 0 <= i <= |entries|
      invariant After(entries, sequence) == kept + After(entries[i..], sequence)
      invariant forall e :: e in kept <==> e in entries[..i] && e.sequence > sequence
    {
      if entries[i].sequence > sequence {
        kept := kept + [entries[i]];
      }
      assert entries[i..][1..] == entries[i + 1..];
      assert entries[..i + 1] == entries[..i] + [entries[i]];
      i := i + 1;
    }
    assert entries[..|entries|] == entries;
  }
}
