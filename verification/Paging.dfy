/** Pages, the tail page and the compaction window over a session's log. */
module Paging {
  import opened Prelude
  import opened Json
  import opened Transcript

  datatype Page = Page(entries: seq<Entry>, nextAfter: Option<U64>, hasMore: bool)

  function Bounded(limit: nat): nat {
    if limit < 1 then 1 else if limit > 500 then 500 else limit
  }

  function LastOf(entries: seq<Entry>): Option<U64> {
    if entries == [] then None else Some(entries[|entries| - 1].sequence)
  }

  function ForwardPage(log: seq<Entry>, after: Option<U64>, limit: nat): Page {
    var rest := After(log, if after.Some? then after.value else 0);
    var entries := if |rest| > Bounded(limit) then rest[..Bounded(limit)] else rest;
    Page(entries, LastOf(entries), |rest| > Bounded(limit))
  }

  function TailPage(log: seq<Entry>, limit: nat): Page {
    var start := if |log| > Bounded(limit) then |log| - Bounded(limit) else 0;
    Page(log[start..], LastOf(log[start..]), start > 0)
  }

  // ---------- what a page is ----------

  // The sequence of the last of some entries, if there is one.
  predicate EndsAt(next: Option<U64>, entries: seq<Entry>) {
    match next
    case None => entries == []
    case Some(sequence) => entries != [] && entries[|entries| - 1].sequence == sequence
  }

  // As many entries as the limit, taken as 1 to 500, from the end of the log.
  predicate IsTail(page: Page, log: seq<Entry>, limit: nat) {
    var n := |page.entries|;
    && n == Min(|log|, Max(1, Min(limit, 500))) && n <= |log| && page.entries == log[|log| - n..]
    && (page.hasMore <==> n < |log|) && EndsAt(page.nextAfter, log)
  }

  // The entries newer than the cursor are those from the k-th on.
  predicate NewerFrom(log: seq<Entry>, after: Option<U64>, k: nat) {
    && k <= |log|
    && forall i :: 0 <= i < |log| ==> (i >= k <==> after == None || log[i].sequence > after.value)
  }

  // As many as that, from the first entry newer than the cursor on.
  predicate IsForward(page: Page, log: seq<Entry>, after: Option<U64>, limit: nat, k: nat) {
    var n := |page.entries|;
    && NewerFrom(log, after, k)
    && n == Min(|log| - k, Max(1, Min(limit, 500))) && k + n <= |log| && page.entries == log[k..k + n]
    && (page.hasMore <==> k + n < |log|) && EndsAt(page.nextAfter, page.entries)
  }

  /** The tail page holds the newest entries, as many as the bounded limit allows. */
  lemma TailPageIsTail(log: seq<Entry>, limit: nat)
    ensures IsTail(TailPage(log, limit), log, limit)
  {
    var page := TailPage(log, limit);
    assert page.entries != [] ==> page.entries[|page.entries| - 1] == log[|log| - 1];
  }

  /** The forward page holds the oldest entries newer than the cursor. */
  lemma ForwardPageIsForward(log: seq<Entry>, after: Option<U64>, limit: nat) returns (k: nat)
    requires Increasing(log)
    ensures IsForward(ForwardPage(log, after, limit), log, after, limit, k)
  {
    var cursor := if after.Some? then after.value else 0;
    k := FirstNewer(log, cursor);
    AfterIsSuffix(log, cursor, k);
    assert NewerFrom(log, after, k);
    PageOfSuffix(log, after, limit, k);
  }

  lemma FirstNewer(log: seq<Entry>, cursor: nat) returns (k: nat)
    requires Increasing(log)
    ensures k <= |log| && (forall i :: 0 <= i < k ==> log[i].sequence <= cursor)
    ensures forall i :: k <= i < |log| ==> log[i].sequence > cursor
  {
    k := 0;
    while k < |log| && log[k].sequence <= cursor
      invariant k <= |log|
      invariant forall i :: 0 <= i < k ==> log[i].sequence <= cursor
    {
      k := k + 1;
    }
  }

  lemma PageOfSuffix(log: seq<Entry>, after: Option<U64>, limit: nat, k: nat)
    requires NewerFrom(log, after, k)
    requires After(log, if after.Some? then after.value else 0) == log[k..]
    ensures IsForward(ForwardPage(log, after, limit), log, after, limit, k)
  {
    var rest, bounded := log[k..], Bounded(limit);
    if |rest| > bounded {
      assert rest[..bounded] == log[k..k + bounded];
    } else {
      assert rest == log[k..k + |rest|];
    }
  }

  lemma {:induction false} AfterIsSuffix(log: seq<Entry>, cursor: nat, k: nat)
    requires k <= |log| && (forall i :: 0 <= i < k ==> log[i].sequence <= cursor)
    requires forall i :: k <= i < |log| ==> log[i].sequence > cursor
    ensures After(log, cursor) == log[k..]
  {
    if log != [] {
      var rest := log[1..];
      assert forall i :: 0 <= i < |rest| ==> rest[i] == log[i + 1];
      if k == 0 {
        AfterIsSuffix(rest, cursor, 0);
      } else {
        AfterIsSuffix(rest, cursor, k - 1);
        assert rest[k - 1..] == log[k..];
      }
    }
  }

  // ---------- following pages ----------

  // A client that asks for the page after the last one it was given.
  datatype Client = Client(collected: seq<Entry>, cursor: Option<U64>, hasMore: bool)

  const NEW_CLIENT: Client := Client([], None, true)

  function NextPage(client: Client, log: seq<Entry>, limit: nat): Client {
    var page := ForwardPage(log, client.cursor, limit);
    Client(client.collected + page.entries, page.nextAfter, page.hasMore)
  }

  // The client after reading one page from each of these successive logs.
  function Following(logs: seq<seq<Entry>>, limit: nat): Client {
    if logs == [] then NEW_CLIENT
    else NextPage(Following(logs[..|logs| - 1], limit), logs[|logs| - 1], limit)
  }

  // The log only grows from one page to the next.
  ghost predicate Growing(logs: seq<seq<Entry>>) {
    && (forall i :: 0 <= i < |logs| ==> Increasing(logs[i]))
    && (forall i :: 0 < i < |logs| ==> logs[i - 1] <= logs[i])
  }

  // It keeps asking only while it was told there is more.
  ghost predicate AskedForMore(logs: seq<seq<Entry>>, limit: nat) {
    forall i :: 0 <= i < |logs| ==> Following(logs[..i], limit).hasMore
  }

  // What lies after the k-th entry of a log.
  lemma AfterPrefix(log: seq<Entry>, k: nat)
    requires Increasing(log) && k <= |log|
    ensures After(log, LastSequence(log[..k])) == log[k..]
    decreases k
  {
    if k == 0 {
      AllAfter(log, 0);
    } else {
      AfterPrefixFrom(log, LastSequence(log[..k]), k);
    }
  }

  lemma AllAfter(log: seq<Entry>, sequence: nat)
    requires forall i :: 0 <= i < |log| ==> log[i].sequence > sequence
    ensures After(log, sequence) == log
  {
    if log != [] {
      AllAfter(log[1..], sequence);
    }
  }

  // Dropping a leading run of old entries.
  lemma AfterPrefixFrom(log: seq<Entry>, sequence: nat, k: nat)
    requires k <= |log|
    requires forall i :: 0 <= i < k ==> log[i].sequence <= sequence
    requires forall i :: k <= i < |log| ==> log[i].sequence > sequence
    ensures After(log, sequence) == log[k..]
  {
    if k == 0 {
      AllAfter(log, sequence);
    } else {
      AfterPrefixFrom(log[1..], sequence, k - 1);
      assert log[1..][k - 1..] == log[k..];
    }
  }

  // One page from a client that holds the first k entries.
  lemma PageAfterPrefix(log: seq<Entry>, k: nat, limit: nat)
    requires Increasing(log) && k <= |log|
    ensures var page := ForwardPage(log, if k == 0 then None else Some(LastSequence(log[..k])), limit);
            var upto := if |log| - k > Bounded(limit) then k + Bounded(limit) else |log|;
            && page.entries == log[k..upto]
            && page.hasMore == (upto < |log|)
            && page.nextAfter == (if upto == k then None else Some(LastSequence(log[..upto])))
            && (k < |log| ==> k < upto)
  {
    AfterPrefix(log, k);
    var upto := if |log| - k > Bounded(limit) then k + Bounded(limit) else |log|;
    assert log[k..][..upto - k] == log[k..upto];
  }

  // Where a page ends that starts after the k-th of n entries.
  function PageEnd(n: nat, k: nat, limit: nat): nat {
    if n - k > Bounded(limit) then k + Bounded(limit) else n
  }

  // The client holds the first k entries, knows it, and knows whether there are more.
  ghost predicate HoldsPrefix(client: Client, log: seq<Entry>, k: nat) {
    && k <= |log| && client.collected == log[..k] && client.cursor == LastOf(client.collected)
  }

  // What a client that holds the first k entries asks for is the page after them.
  lemma CursorOfPrefix(log: seq<Entry>, k: nat)
    requires k <= |log|
    ensures LastOf(log[..k]) == if k == 0 then None else Some(LastSequence(log[..k]))
  {}

  lemma PrefixExtends(log: seq<Entry>, k: nat, upto: nat)
    requires k <= upto <= |log|
    ensures log[..k] + log[k..upto] == log[..upto]
  {}

  lemma OnePage(client: Client, log: seq<Entry>, k: nat, limit: nat)
    requires Increasing(log) && HoldsPrefix(client, log, k)
    requires k == |log| ==> k == 0
    ensures var upto := PageEnd(|log|, k, limit);
            && HoldsPrefix(NextPage(client, log, limit), log, upto)
            && NextPage(client, log, limit).hasMore == (upto < |log|)
  {
    var upto := PageEnd(|log|, k, limit);
    CursorOfPrefix(log, k);
    CursorOfPrefix(log, upto);
    PageAfterPrefix(log, k, limit);
    PrefixExtends(log, k, upto);
  }

  /**
   Following `next_after` collects every entry once and in order: after any number of
   pages, and whatever was appended between them, the client holds a prefix of the log,
   the whole log exactly when it is told there is no more. Each page with entries left
   to give moves it forward.
   */
  lemma FollowingCollectsTheLog(logs: seq<seq<Entry>>, limit: nat) returns (k: nat)
    requires logs != [] && Growing(logs) && AskedForMore(logs, limit)
    ensures var client, log := Following(logs, limit), logs[|logs| - 1];
            && HoldsPrefix(client, log, k)
            && (client.hasMore <==> k < |log|)
            && (|log| > 0 ==> k > |Following(logs[..|logs| - 1], limit).collected|)
  {
    var n := |logs| - 1;
    var front := logs[..n];
    var before := Following(front, limit);
    assert before.hasMore;
    var held := 0;
    if front != [] {
      GrowingFront(logs, limit);
      held := FollowingCollectsTheLog(front, limit);
      PrefixOfLonger(front[n - 1], logs[n], held);
    }
    OnePage(before, logs[n], held, limit);
    k := PageEnd(|logs[n]|, held, limit);
  }

  lemma GrowingFront(logs: seq<seq<Entry>>, limit: nat)
    requires |logs| > 1 && Growing(logs) && AskedForMore(logs, limit)
    ensures var n := |logs| - 1;
            && Growing(logs[..n]) && AskedForMore(logs[..n], limit)
            && logs[..n][n - 1] <= logs[n]
  {
    var front := logs[..|logs| - 1];
    forall i | 0 <= i < |front| ensures Following(front[..i], limit).hasMore {
      assert front[..i] == logs[..i];
    }
  }

  lemma PrefixOfLonger(short: seq<Entry>, long: seq<Entry>, k: nat)
    requires short <= long && k <= |short|
    ensures short[..k] == long[..k]
  {}

  function Repeated(log: seq<Entry>, n: nat): seq<seq<Entry>> {
    seq(n, _ => log)
  }

  lemma RepeatedFront(log: seq<Entry>, n: nat)
    requires n > 0
    ensures Repeated(log, n)[..n - 1] == Repeated(log, n - 1) && Repeated(log, n)[n - 1] == log
  {}

  lemma NextPageEnd(n: nat, p: nat, limit: nat)
    ensures p * Bounded(limit) + Bounded(limit) == (p + 1) * Bounded(limit)
    ensures p * Bounded(limit) <= n ==>
              PageEnd(n, p * Bounded(limit), limit) == Min((p + 1) * Bounded(limit), n)
  {}

  /** On a log that does not change, page number p ends at entry p * limit. */
  lemma PagesNeeded(log: seq<Entry>, limit: nat, pages: nat)
    requires Increasing(log) && log != []
    requires (pages - 1) * Bounded(limit) < |log|
    ensures var client := Following(Repeated(log, pages), limit);
            && HoldsPrefix(client, log, Min(pages * Bounded(limit), |log|))
            && (client.hasMore <==> pages * Bounded(limit) < |log|)
  {
    if pages > 0 {
      var before := Following(Repeated(log, pages - 1), limit);
      var held := (pages - 1) * Bounded(limit);
      if pages > 1 {
        NextPageEnd(|log|, pages - 2, limit);
        PagesNeeded(log, limit, pages - 1);
      }
      RepeatedFront(log, pages);
      NextPageEnd(|log|, pages - 1, limit);
      assert HoldsPrefix(before, log, held);
      OnePage(before, log, held, limit);
    }
  }

  /** Starting at 0 and starting with no cursor are the same: no entry has sequence 0. */
  lemma ZeroIsTheStart(log: seq<Entry>, limit: nat)
    requires Increasing(log)
    ensures ForwardPage(log, Some(0), limit) == ForwardPage(log, None, limit)
    ensures ForwardPage(log, None, limit).entries <= log
  {
    AllAfter(log, 0);
  }

  /**
   A page gives no cursor exactly when nothing is newer. A client that goes on polling
   with that answer starts over and is given the first entry again.
   */
  lemma CursorLostExactlyOnEmptyPage(log: seq<Entry>, after: U64, limit: nat)
    ensures ForwardPage(log, Some(after), limit).nextAfter == None <==>
            forall i :: 0 <= i < |log| ==> log[i].sequence <= after
  {
    NothingAfter(log, after);
  }

  lemma NothingAfter(log: seq<Entry>, after: nat)
    ensures After(log, after) == [] <==> forall i :: 0 <= i < |log| ==> log[i].sequence <= after
  {
    if log != [] {
      NothingAfter(log[1..], after);
      assert forall i :: 0 < i < |log| ==> log[i] == log[1..][i - 1];
    }
  }

  lemma PollingPastTheEndRepeats(log: seq<Entry>, limit: nat)
    requires Increasing(log) && log != []
    ensures var caughtUp := Client(log, Some(LastSequence(log)), false);
            var polled := NextPage(NextPage(caughtUp, log, limit), log, limit);
            |polled.collected| > |log| && polled.collected[|log|] == log[0]
  {
    var caughtUp := Client(log, Some(LastSequence(log)), false);
    NothingAfter(log, LastSequence(log));
    assert NextPage(caughtUp, log, limit) == Client(log + [], None, false);
    PageAfterPrefix(log, 0, limit);
  }

  // ---------- the compaction window ----------

  // Index of the newest summary card.
  function NewestCard(entries: seq<Entry>): (r: Option<nat>)
    ensures r.Some? ==> r.value < |entries| && entries[r.value].kind == CompactSummary
    ensures forall i :: (if r.Some? then r.value + 1 else 0) <= i < |entries| ==> entries[i].kind != CompactSummary
  {
    if entries == [] then None
    else if entries[|entries| - 1].kind == CompactSummary then Some(|entries| - 1)
    else NewestCard(entries[..|entries| - 1])
  }

  function RetainFloor(card: Entry): U64 {
    match card.payload
    case None => card.sequence
    case Some(payload) =>
      match payload.GetU64("retain_from_sequence")
      case None => card.sequence
      case Some(retain) => if retain < card.sequence then retain else card.sequence
  }

  function Retained(entries: seq<Entry>, floor: nat): seq<Entry> {
    if entries == [] then []
    else if entries[0].sequence >= floor then [entries[0]] + Retained(entries[1..], floor)
    else Retained(entries[1..], floor)
  }

  function ProjectionWindow(entries: seq<Entry>, fallbackLimit: nat): Page {
    match NewestCard(entries)
    case None => TailPage(entries, fallbackLimit)
    case Some(at) =>
      var kept := Retained(entries, RetainFloor(entries[at]));
      Page(kept, LastOf(kept), false)
  }

  // Where the window starts: the first entry at or above the floor.
  ghost predicate StartsAt(entries: seq<Entry>, floor: nat, k: nat) {
    && k <= |entries|
    && (forall i :: 0 <= i < k ==> entries[i].sequence < floor)
    && (forall i :: k <= i < |entries| ==> entries[i].sequence >= floor)
  }

  lemma RetainedIsSuffix(entries: seq<Entry>, floor: nat, k: nat)
    requires StartsAt(entries, floor, k)
    ensures Retained(entries, floor) == entries[k..]
    decreases |entries|
  {
    if entries != [] {
      var rest := entries[1..];
      assert forall i :: 0 <= i < |rest| ==> rest[i] == entries[i + 1];
      if k == 0 {
        RetainedIsSuffix(rest, floor, 0);
      } else {
        RetainedIsSuffix(rest, floor, k - 1);
        assert rest[k - 1..] == entries[k..];
      }
    }
  }

  lemma WindowStart(entries: seq<Entry>, floor: nat) returns (k: nat)
    requires Increasing(entries)
    ensures StartsAt(entries, floor, k)
  {
    k := |entries|;
    while k > 0 && entries[k - 1].sequence >= floor
      invariant 0 <= k <= |entries|
      invariant forall i :: k <= i < |entries| ==> entries[i].sequence >= floor
    {
      k := k - 1;
    }
    assert k > 0 ==> forall i :: 0 <= i < k ==> entries[i].sequence <= entries[k - 1].sequence;
  }

  lemma NewestCardIs(entries: seq<Entry>, at: nat)
    requires at < |entries| && entries[at].kind == CompactSummary
    requires forall i :: at < i < |entries| ==> entries[i].kind != CompactSummary
    ensures NewestCard(entries) == Some(at)
  {}

  lemma WindowFrom(entries: seq<Entry>, limit: nat, at: nat) returns (k: nat)
    requires Increasing(entries) && NewestCard(entries) == Some(at)
    ensures k <= at && StartsAt(entries, RetainFloor(entries[at]), k)
    ensures ProjectionWindow(entries, limit) == Page(entries[k..], Some(LastSequence(entries)), false)
  {
    k := WindowStart(entries, RetainFloor(entries[at]));
    RetainedIsSuffix(entries, RetainFloor(entries[at]), k);
  }

  lemma NewestOfSuffix(entries: seq<Entry>, at: nat, k: nat)
    requires NewestCard(entries) == Some(at) && k <= at
    ensures NewestCard(entries[k..]) == Some(at - k)
  {
    var suffix := entries[k..];
    assert forall i :: 0 <= i < |suffix| ==> suffix[i] == entries[i + k];
    NewestCardIs(suffix, at - k);
  }

  lemma SuffixRetained(entries: seq<Entry>, floor: nat, k: nat)
    requires StartsAt(entries, floor, k)
    ensures Retained(entries[k..], floor) == entries[k..]
  {
    var suffix := entries[k..];
    assert forall i :: 0 <= i < |suffix| ==> suffix[i] == entries[i + k];
    RetainedIsSuffix(suffix, floor, 0);
  }

  lemma SuffixProjectsToItself(entries: seq<Entry>, limit: nat, at: nat, k: nat)
    requires NewestCard(entries) == Some(at) && k <= at && StartsAt(entries, RetainFloor(entries[at]), k)
    ensures ProjectionWindow(entries[k..], limit) == Page(entries[k..], Some(LastSequence(entries)), false)
  {
    NewestOfSuffix(entries, at, k);
    SuffixRetained(entries, RetainFloor(entries[at]), k);
    CardProjects(entries[k..], limit, at - k, entries[at]);
    LastOfSuffix(entries, k);
  }

  lemma LastOfSuffix(entries: seq<Entry>, k: nat)
    requires k < |entries|
    ensures LastOf(entries[k..]) == Some(LastSequence(entries))
  {}

  // The window of entries that are all at or above their own card's floor.
  lemma CardProjects(entries: seq<Entry>, limit: nat, at: nat, card: Entry)
    requires NewestCard(entries) == Some(at) && entries[at] == card
    requires Retained(entries, RetainFloor(card)) == entries
    ensures ProjectionWindow(entries, limit) == Page(entries, LastOf(entries), false)
  {}

  // A card keeps itself and what is newer, and what is at or above the sequence it names.
  predicate Keeps(card: Entry, sequence: U64) {
    || sequence >= card.sequence
    || (match card.payload
        case Some(Obj(fields)) =>
          "retain_from_sequence" in fields && fields["retain_from_sequence"].Num? &&
          0 <= fields["retain_from_sequence"].number <= sequence
        case _ => false)
  }

  lemma KeepsFromItsFloor(card: Entry, sequence: U64)
    ensures Keeps(card, sequence) <==> sequence >= RetainFloor(card)
  {}

  /**
   With a summary card, the window is a suffix of the log: exactly what the newest card
   keeps, itself and everything after it among that; and projecting it again changes nothing.
   */
  lemma WindowIsASuffix(entries: seq<Entry>, limit: nat, at: nat) returns (k: nat)
    requires Increasing(entries) && at < |entries| && entries[at].kind == CompactSummary
    requires forall i :: at < i < |entries| ==> entries[i].kind != CompactSummary
    ensures k <= at && forall i :: 0 <= i < |entries| ==> (i >= k <==> Keeps(entries[at], entries[i].sequence))
    ensures ProjectionWindow(entries, limit) == Page(entries[k..], Some(LastSequence(entries)), false)
    ensures ProjectionWindow(entries[k..], limit) == ProjectionWindow(entries, limit)
  {
    NewestCardIs(entries, at);
    k := WindowFrom(entries, limit, at);
    forall i | 0 <= i < |entries| ensures i >= k <==> Keeps(entries[at], entries[i].sequence) {
      KeepsFromItsFloor(entries[at], entries[i].sequence);
    }
    SuffixProjectsToItself(entries, limit, at, k);
  }

  /** Without one it is the tail page, which is stable as well. */
  lemma WindowWithoutCard(entries: seq<Entry>, limit: nat)
    requires forall i :: 0 <= i < |entries| ==> entries[i].kind != CompactSummary
    ensures IsTail(ProjectionWindow(entries, limit), entries, limit)
    ensures var window := ProjectionWindow(entries, limit);
            ProjectionWindow(window.entries, limit) == Page(window.entries, window.nextAfter, false)
  {
    var window := TailPage(entries, limit);
    TailPageIsTail(entries, limit);
    assert window.entries[0..] == window.entries;
  }

  /** Appending an ordinary entry appends it to the window; a new card starts a new window. */
  lemma WindowFollowsAppends(entries: seq<Entry>, e: Entry, limit: nat, at: nat)
    requires Increasing(entries + [e]) && NewestCard(entries) == Some(at)
    ensures e.kind != CompactSummary ==>
              ProjectionWindow(entries + [e], limit).entries == ProjectionWindow(entries, limit).entries + [e]
    ensures e.kind == CompactSummary ==>
              ProjectionWindow(entries + [e], limit).entries == Retained(entries, RetainFloor(e)) + [e]
  {
    var longer := entries + [e];
    assert forall i :: 0 <= i < |entries| ==> longer[i] == entries[i];
    if e.kind == CompactSummary {
      NewestCardIs(longer, |entries|);
      RetainedAppend(entries, e, RetainFloor(e));
    } else {
      NewestCardIs(longer, at);
      RetainedAppend(entries, e, RetainFloor(entries[at]));
    }
  }

  lemma RetainedAppend(entries: seq<Entry>, e: Entry, floor: nat)
    ensures Retained(entries + [e], floor) ==
            Retained(entries, floor) + (if e.sequence >= floor then [e] else [])
  {
    if entries != [] {
      assert (entries + [e])[1..] == entries[1..] + [e];
      RetainedAppend(entries[1..], e, floor);
    } else {
      assert [e][1..] == [];
    }
  }
}
