/**
 The client that watches a session until it is terminal: check, subscribe, check, listen,
 and on the end of the stream check, back off, resubscribe, check. It runs beside a server
 that changes state first and publishes the change later.
 */
module Observer {
  import opened Prelude
  import opened Json
  import opened Sse

  // ---------- classification ----------

  datatype Lifecycle =
    | Ready | Running | WaitingPermission | WaitingInput | Interrupted | Failed | ReconciliationRequired

  datatype TurnStatus =
    | TurnQueued | TurnRunning | TurnCancelling | TurnWaitingPermission | TurnWaitingInput
    | TurnInterrupted | TurnFailed | TurnCompleted

  datatype FailureCode = CodeCancelled | CodePermissionDenied | CodeVerificationFailed | CodeRuntimeFailed

  datatype Turn = Turn(ordinal: U64, status: TurnStatus, failureCode: Option<FailureCode>)

  datatype Snapshot = Snapshot(lifecycle: Lifecycle, turns: seq<Turn>)

  datatype Outcome =
    | OutCompleted | OutFailed | OutDenied | OutWaiting | OutInterrupted | OutReconciliationRequired

  // `max_by_key`: of several greatest ordinals, the last.
  function LatestTurn(turns: seq<Turn>): (r: Option<Turn>)
    ensures r == None <==> turns == []
    ensures r.Some? ==> r.value in turns && forall t :: t in turns ==> t.ordinal <= r.value.ordinal
  {
    if turns == [] then None
    else
      var last := turns[|turns| - 1];
      assert forall t :: t in turns <==> t in turns[..|turns| - 1] || t == last;
      match LatestTurn(turns[..|turns| - 1])
      case None => Some(last)
      case Some(best) => if last.ordinal >= best.ordinal then Some(last) else Some(best)
  }

  function Classify(snapshot: Snapshot): Option<Outcome> {
    match snapshot.lifecycle
    case Running => None
    case WaitingPermission => Some(OutWaiting)
    case WaitingInput => Some(OutWaiting)
    case Interrupted => Some(OutInterrupted)
    case ReconciliationRequired => Some(OutReconciliationRequired)
    case Failed => Some(OutFailed)
    case Ready =>
      match LatestTurn(snapshot.turns)
      case Some(Turn(_, TurnCompleted, _)) => Some(OutCompleted)
      case Some(Turn(_, TurnFailed, code)) =>
        if code == Some(CodePermissionDenied) then Some(OutDenied) else Some(OutFailed)
      case _ => Some(OutFailed)
  }

  // ---------- what an outcome means ----------

  // Turn i is the latest: no earlier one has a greater ordinal, every later one a smaller.
  predicate LatestAt(turns: seq<Turn>, i: nat)
    requires i < |turns|
  {
    && (forall j :: 0 <= j < i ==> turns[j].ordinal <= turns[i].ordinal)
    && (forall j :: i < j < |turns| ==> turns[j].ordinal < turns[i].ordinal)
  }

  predicate EndsCompleted(turns: seq<Turn>) {
    exists i :: 0 <= i < |turns| && LatestAt(turns, i) && turns[i].status == TurnCompleted
  }

  predicate EndsDenied(turns: seq<Turn>) {
    exists i :: 0 <= i < |turns| && LatestAt(turns, i)
      && turns[i].status == TurnFailed && turns[i].failureCode == Some(CodePermissionDenied)
  }

  // The session has come to a stop, and the outcome says how.
  predicate Means(snapshot: Snapshot, outcome: Outcome) {
    && snapshot.lifecycle != Running
    && (outcome == OutCompleted <==> snapshot.lifecycle == Ready && EndsCompleted(snapshot.turns))
    && (outcome == OutDenied <==> snapshot.lifecycle == Ready && EndsDenied(snapshot.turns))
    && (outcome == OutWaiting <==> snapshot.lifecycle in {WaitingPermission, WaitingInput})
    && (outcome == OutInterrupted <==> snapshot.lifecycle == Interrupted)
    && (outcome == OutReconciliationRequired <==> snapshot.lifecycle == ReconciliationRequired)
    && (outcome == OutFailed <==>
          || snapshot.lifecycle == Failed
          || (snapshot.lifecycle == Ready && !EndsCompleted(snapshot.turns) && !EndsDenied(snapshot.turns)))
  }

  lemma OnlyOneLatest(turns: seq<Turn>, i: nat, j: nat)
    requires i < |turns| && j < |turns| && LatestAt(turns, i) && LatestAt(turns, j)
    ensures i == j
  {
    var one, other := turns[i], turns[j];
  }

  lemma {:induction false} LatestTurnIsLatest(turns: seq<Turn>) returns (i: nat)
    requires turns != []
    ensures i < |turns| && LatestAt(turns, i) && LatestTurn(turns) == Some(turns[i])
  {
    var n := |turns| - 1;
    if n == 0 {
      i := 0;
    } else {
      var front := turns[..n];
      i := LatestTurnIsLatest(front);
      assert forall j :: 0 <= j < n ==> turns[j] == front[j];
      if turns[n].ordinal >= turns[i].ordinal {
        i := n;
      }
    }
  }

  lemma EndsAsItsLatest(turns: seq<Turn>)
    ensures EndsCompleted(turns) <==>
              LatestTurn(turns).Some? && LatestTurn(turns).value.status == TurnCompleted
    ensures EndsDenied(turns) <==>
              && LatestTurn(turns).Some? && LatestTurn(turns).value.status == TurnFailed
              && LatestTurn(turns).value.failureCode == Some(CodePermissionDenied)
  {
    if turns != [] {
      var i := LatestTurnIsLatest(turns);
      forall j | 0 <= j < |turns| && LatestAt(turns, j) ensures j == i {
        OnlyOneLatest(turns, i, j);
      }
    }
  }

  /** A session is classified exactly when it is not running, and as what the outcome means. */
  lemma ClassifiedAsMeant(snapshot: Snapshot)
    ensures Classify(snapshot).Some? <==> snapshot.lifecycle != Running
    ensures Classify(snapshot).Some? ==> Means(snapshot, Classify(snapshot).value)
  {
    EndsAsItsLatest(snapshot.turns);
  }

  // ---------- the system ----------

  datatype Feed = Feed(queue: seq<StreamEvent>, ended: bool)

  datatype Result = Terminal(snapshot: Snapshot, outcome: Outcome) | Cancelled | Failure

  datatype Phase =
    | PreCheck | Opening | PostCheck | Listening | ChangedCheck | EndCheck | BackingOff | Reopening
    | ReopenedCheck | Finished(result: Result)

  /** The session watched, and how a progress payload is rendered. */
  datatype Watch = Watch(sessionId: string, render: Value -> Option<string>)

  datatype World = World(
    snapshot: Snapshot,
    version: nat,                  // counts the server's changes
    inFlight: nat,                 // changes made and not yet published
    feed: Option<Feed>,            // the client's current subscription
    phase: Phase,
    seen: Option<nat>,             // the version the client fetched last
    consumed: seq<StreamEvent>,
    printed: seq<string>)

  ghost predicate Initial(y: World) {
    y.feed == None && y.phase == PreCheck && y.seen == None && y.consumed == [] && y.printed == []
  }

  predicate IsWake(event: StreamEvent) { event.SessionChanged? || event.ResyncRequired? }

  predicate IsCheck(phase: Phase) {
    phase in {PreCheck, PostCheck, ChangedCheck, EndCheck, ReopenedCheck}
  }

  // Where a check that finds nothing terminal goes on.
  function AfterCheck(phase: Phase): Phase {
    match phase
    case PreCheck => Opening
    case EndCheck => BackingOff
    case _ => Listening
  }

  function Shown(watch: Watch, event: StreamEvent): seq<string> {
    match event
    case Progress(id, _, progress) =>
      if id == watch.sessionId then
        (match watch.render(progress) case Some(text) => [text] case None => [])
      else []
    case _ => []
  }

  datatype Move =
    // the server and the network
    | Change(next: Snapshot) | Publish(revision: U64) | Push(event: StreamEvent) | Lag(lost: nat)
    | Disconnect(kept: nat)
    // the client
    | Check | Open | Sleep | TakeEvent | SeeEnd | Fail | Cancel

  predicate IsClientMove(move: Move) {
    move.Check? || move.Open? || move.Sleep? || move.TakeEvent? || move.SeeEnd? || move.Fail? || move.Cancel?
  }

  predicate FeedLive(y: World) { y.feed.Some? && !y.feed.value.ended }

  ghost predicate Step(watch: Watch, y: World, move: Move, z: World) {
    match move
    case Change(snapshot) =>
      z == y.(snapshot := snapshot, version := y.version + 1, inFlight := y.inFlight + 1)
    case Publish(revision) =>
      && y.inFlight > 0
      && z == y.(inFlight := y.inFlight - 1,
                 feed := if FeedLive(y) then Some(Enqueue(y.feed.value, SessionChanged(watch.sessionId, revision)))
                         else y.feed)
    case Push(event) =>
      FeedLive(y) && z == y.(feed := Some(Enqueue(y.feed.value, event)))
    case Lag(lost) =>
      // A receiver that fell behind loses the oldest events and is told to resynchronise.
      && FeedLive(y) && 0 < lost <= |y.feed.value.queue|
      && z == y.(feed := Some(Feed([ResyncRequired] + y.feed.value.queue[lost..], false)))
    case Disconnect(kept) =>
      && FeedLive(y) && kept <= |y.feed.value.queue|
      && z == y.(feed := Some(Feed(y.feed.value.queue[..kept], true)))
    case Check =>
      && IsCheck(y.phase)
      && z == y.(seen := Some(y.version),
                 phase := match Classify(y.snapshot)
                          case Some(outcome) => Finished(Terminal(y.snapshot, outcome))
                          case None => AfterCheck(y.phase))
    case Open =>
      && (y.phase == Opening || y.phase == Reopening)
      && z == y.(feed := Some(Feed([], false)), phase := if y.phase == Opening then PostCheck else ReopenedCheck)
    case Sleep =>
      y.phase == BackingOff && z == y.(phase := Reopening)
    case TakeEvent =>
      && y.phase == Listening && y.feed.Some? && y.feed.value.queue != []
      && var event := y.feed.value.queue[0];
         z == y.(feed := Some(y.feed.value.(queue := y.feed.value.queue[1..])),
                 consumed := y.consumed + [event],
                 printed := y.printed + Shown(watch, event),
                 phase := if IsWake(event) then ChangedCheck else Listening)
    case SeeEnd =>
      && y.phase == Listening && y.feed.Some? && y.feed.value == Feed([], true)
      && z == y.(phase := EndCheck)
    case Fail =>
      // A snapshot or a subscription the server refused.
      && (IsCheck(y.phase) || y.phase == Opening || y.phase == Reopening)
      && z == y.(phase := Finished(Failure))
    case Cancel =>
      !y.phase.Finished? && z == y.(phase := Finished(Cancelled))
  }

  function Enqueue(feed: Feed, event: StreamEvent): Feed {
    feed.(queue := feed.queue + [event])
  }

  ghost predicate Stepped(watch: Watch, y: World, z: World) {
    exists move :: Step(watch, y, move, z)
  }

  ghost predicate Reachable(watch: Watch, run: seq<World>) {
    && run != [] && Initial(run[0])
    && forall i {:trigger Stepped(watch, run[i - 1], run[i])} :: 0 < i < |run| ==> Stepped(watch, run[i - 1], run[i])
  }

  // ---------- no lost wake-up ----------

  // Something unread in the subscription makes the client look again.
  ghost predicate WakePending(y: World) {
    y.feed.Some? && (y.feed.value.ended || exists i :: 0 <= i < |y.feed.value.queue| && IsWake(y.feed.value.queue[i]))
  }

  // A listening client has seen the current state, or will be told.
  ghost predicate Informed(y: World) {
    && y.feed.Some? && y.seen.Some? && y.seen.value <= y.version
    && (y.seen.value != y.version ==> y.inFlight > 0 || WakePending(y))
    && (y.seen.value == y.version ==> Classify(y.snapshot) == None)
  }

  function ShownAll(watch: Watch, events: seq<StreamEvent>): seq<string> {
    if events == [] then []
    else ShownAll(watch, events[..|events| - 1]) + Shown(watch, events[|events| - 1])
  }

  ghost predicate Inv(watch: Watch, y: World) {
    && (y.phase == Listening ==> Informed(y))
    && (y.phase == PostCheck || y.phase == ReopenedCheck || y.phase == ChangedCheck ==> y.feed.Some?)
    && (y.phase.Finished? && y.phase.result.Terminal? ==>
          Classify(y.phase.result.snapshot) == Some(y.phase.result.outcome))
    && y.printed == ShownAll(watch, y.consumed)
  }

  lemma QueueGrows(y: World, z: World, event: StreamEvent)
    requires FeedLive(y) && z.feed == Some(Enqueue(y.feed.value, event))
    ensures WakePending(y) ==> WakePending(z)
    ensures IsWake(event) ==> WakePending(z)
  {
    var queue := y.feed.value.queue;
    assert forall i :: 0 <= i < |queue| ==> z.feed.value.queue[i] == queue[i];
    assert z.feed.value.queue[|queue|] == event;
  }

  lemma StepKeepsInv(watch: Watch, y: World, move: Move, z: World)
    requires Inv(watch, y) && Step(watch, y, move, z)
    ensures Inv(watch, z)
  {
    match move
    case Publish(revision) =>
      if FeedLive(y) {
        QueueGrows(y, z, SessionChanged(watch.sessionId, revision));
      }
    case Push(event) => QueueGrows(y, z, event);
    case Lag(lost) => assert z.feed.value.queue[0] == ResyncRequired;
    case TakeEvent =>
      var event := y.feed.value.queue[0];
      assert z.consumed[..|z.consumed| - 1] == y.consumed;
      if y.phase == Listening && !IsWake(event) && WakePending(y) && !y.feed.value.ended {
        var i :| 0 <= i < |y.feed.value.queue| && IsWake(y.feed.value.queue[i]);
        assert z.feed.value.queue[i - 1] == y.feed.value.queue[i];
      }
    case _ =>
  }

  lemma ReachableKeepsInv(watch: Watch, run: seq<World>, i: nat)
    requires Reachable(watch, run) && i < |run|
    ensures Inv(watch, run[i])
  {
    if i > 0 {
      ReachableKeepsInv(watch, run, i - 1);
      assert Stepped(watch, run[i - 1], run[i]);
      var move :| Step(watch, run[i - 1], move, run[i]);
      StepKeepsInv(watch, run[i - 1], move, run[i]);
    }
  }

  /**
   Whenever the client listens while the session is terminal, a wake-up or the end of the
   stream is unread in its subscription, or a change is still to be published. This holds
   through every reconnect.
   */
  lemma NoLostWakeUp(watch: Watch, run: seq<World>, i: nat)
    requires Reachable(watch, run) && i < |run|
    requires run[i].phase == Listening && run[i].snapshot.lifecycle != Running
    ensures run[i].inFlight > 0 || WakePending(run[i])
  {
    StoppedIsClassified(run[i].snapshot);
    ReachableKeepsInv(watch, run, i);
  }

  // The check that ended the run, if one did: its step, from the world the snapshot is of.
  ghost predicate FetchedAt(watch: Watch, run: seq<World>, j: nat, snapshot: Snapshot)
    requires 0 < j < |run|
  {
    && IsCheck(run[j - 1].phase) && Step(watch, run[j - 1], Check, run[j])
    && run[j - 1].snapshot == snapshot
  }

  // The positions of the events that were printed: exactly the session's own progress that
  // renders to a text, in order.
  ghost predicate PrintsAt(watch: Watch, events: seq<StreamEvent>, printed: seq<string>, at: seq<nat>) {
    && |at| == |printed|
    && (forall k :: 0 <= k < |at| ==> at[k] < |events| && RendersTo(watch, events[at[k]], Some(printed[k])))
    && (forall k, l :: 0 <= k < l < |at| ==> at[k] < at[l])
    && (forall i :: 0 <= i < |events| && i !in at ==> RendersTo(watch, events[i], None))
  }

  // What one event prints: nothing unless it is progress of the session watched.
  predicate RendersTo(watch: Watch, event: StreamEvent, text: Option<string>) {
    text == if event.Progress? && event.sessionId == watch.sessionId then watch.render(event.progress) else None
  }

  lemma {:induction false} PrintedPositions(watch: Watch, events: seq<StreamEvent>) returns (at: seq<nat>)
    ensures PrintsAt(watch, events, ShownAll(watch, events), at)
  {
    if events == [] {
      at := [];
    } else {
      var n := |events| - 1;
      var front, shown := events[..n], ShownAll(watch, events[..n]);
      at := PrintedPositions(watch, front);
      assert forall i :: 0 <= i < n ==> events[i] == front[i];
      if Shown(watch, events[n]) != [] {
        PrintsOneMore(watch, events, shown, at, Shown(watch, events[n])[0]);
        at := at + [n];
      }
    }
  }

  lemma PrintsOneMore(watch: Watch, events: seq<StreamEvent>, shown: seq<string>, at: seq<nat>, text: string)
    requires events != [] && PrintsAt(watch, events[..|events| - 1], shown, at)
    requires RendersTo(watch, events[|events| - 1], Some(text))
    ensures PrintsAt(watch, events, shown + [text], at + [|events| - 1])
  {
    var n := |events| - 1;
    var more := at + [n];
    assert forall i :: 0 <= i < n ==> events[i] == events[..n][i];
    assert forall i :: i in more <==> i in at || i == n;
  }

  /** A terminal result says how the session had come to a stop in a snapshot one of the
      client's own checks fetched, and what was printed is what the session's own progress
      renders to, in order. */
  lemma WhatIsReturnedAndPrinted(watch: Watch, run: seq<World>, i: nat) returns (at: seq<nat>)
    requires Reachable(watch, run) && i < |run|
    ensures var y := run[i];
            && PrintsAt(watch, y.consumed, y.printed, at)
            && (y.phase.Finished? && y.phase.result.Terminal? ==>
                  && Means(y.phase.result.snapshot, y.phase.result.outcome)
                  && exists j :: 0 < j <= i && FetchedAt(watch, run, j, y.phase.result.snapshot))
  {
    ReachableKeepsInv(watch, run, i);
    at := PrintedPositions(watch, run[i].consumed);
    ResultIsMeant(watch, run[i]);
    if run[i].phase.Finished? && run[i].phase.result.Terminal? {
      ReturnedWasFetched(watch, run, i);
    }
  }

  /** A check ends the observation exactly when the session it fetched is not running. */
  lemma ChecksGoOnWhileRunning(watch: Watch, y: World, z: World)
    requires Step(watch, y, Check, z)
    ensures z.phase.Finished? <==> y.snapshot.lifecycle != Running
    ensures z.phase.Finished? ==>
              z.phase.result.Terminal? && z.phase.result.snapshot == y.snapshot
              && Means(y.snapshot, z.phase.result.outcome)
  {
    ClassifiedAsMeant(y.snapshot);
  }

  lemma ReturnedWasFetched(watch: Watch, run: seq<World>, i: nat)
    requires Reachable(watch, run) && i < |run|
    requires run[i].phase.Finished? && run[i].phase.result.Terminal?
    ensures exists j :: 0 < j <= i && FetchedAt(watch, run, j, run[i].phase.result.snapshot)
  {
    if i > 0 {
      assert Stepped(watch, run[i - 1], run[i]);
      var move :| Step(watch, run[i - 1], move, run[i]);
      if move.Check? {
        assert FetchedAt(watch, run, i, run[i].phase.result.snapshot);
      } else {
        ReturnedWasFetched(watch, run, i - 1);
      }
    }
  }

  // ---------- every check has its cause ----------

  // A run, with the moves that made it.
  ghost predicate Made(watch: Watch, run: seq<World>, moves: seq<Move>) {
    && |run| == |moves| + 1 && Initial(run[0])
    && forall i :: 0 <= i < |moves| ==> MadeBy(watch, run, moves, i)
  }

  ghost predicate MadeBy(watch: Watch, run: seq<World>, moves: seq<Move>, i: nat)
    requires i < |moves| && |run| == |moves| + 1
  {
    Step(watch, run[i], moves[i], run[i + 1])
  }

  function Count(moves: seq<Move>, which: Move): nat {
    if moves == [] then 0
    else Count(moves[..|moves| - 1], which) + (if moves[|moves| - 1] == which then 1 else 0)
  }

  // Changes and calls to resynchronise among the events read.
  function WakesRead(events: seq<StreamEvent>): nat {
    if events == [] then 0
    else
      var last := events[|events| - 1];
      WakesRead(events[..|events| - 1]) + (if last.SessionChanged? || last.ResyncRequired? then 1 else 0)
  }

  // What is still to come of the cycle a phase is in.
  function ChecksDue(phase: Phase): nat { if IsCheck(phase) then 1 else 0 }

  function OpensDue(phase: Phase): nat { if phase == Opening || phase == Reopening then 1 else 0 }

  function SleepsDue(phase: Phase): nat { if phase == EndCheck || phase == BackingOff then 1 else 0 }

  ghost predicate Accounted(moves: seq<Move>, z: World) {
    && Count(moves, Check) + ChecksDue(z.phase)
       == 1 + Count(moves, Open) + Count(moves, SeeEnd) + WakesRead(z.consumed)
    && Count(moves, Open) + OpensDue(z.phase) == Count(moves, Sleep) + (if z.phase == PreCheck then 0 else 1)
    && Count(moves, Sleep) + SleepsDue(z.phase) == Count(moves, SeeEnd)
    && (Count(moves, Open) == 0 <==> z.phase == PreCheck || z.phase == Opening)
  }

  lemma CountOne(moves: seq<Move>, move: Move, which: Move)
    ensures Count(moves + [move], which) == Count(moves, which) + (if move == which then 1 else 0)
  {
    assert (moves + [move])[..|moves|] == moves;
  }

  lemma WakeRead(events: seq<StreamEvent>, event: StreamEvent)
    ensures WakesRead(events + [event]) == WakesRead(events) + (if IsWake(event) then 1 else 0)
  {
    assert (events + [event])[..|events|] == events;
  }

  function One(b: bool): nat { if b then 1 else 0 }

  // What one move adds to each side.
  lemma StepAccounts(watch: Watch, y: World, move: Move, z: World) returns (wakes: nat)
    requires Step(watch, y, move, z) && !z.phase.Finished?
    ensures WakesRead(z.consumed) == WakesRead(y.consumed) + wakes
    ensures One(move == Check) + ChecksDue(z.phase) ==
            ChecksDue(y.phase) + One(move == Open) + One(move == SeeEnd) + wakes
    ensures One(move == Open) + OpensDue(z.phase) + One(z.phase == PreCheck) ==
            OpensDue(y.phase) + One(y.phase == PreCheck) + One(move == Sleep)
    ensures One(move == Sleep) + SleepsDue(z.phase) == SleepsDue(y.phase) + One(move == SeeEnd)
    ensures z.phase == PreCheck || z.phase == Opening ==> y.phase == PreCheck || y.phase == Opening
    ensures (move == Open && y.phase == Opening) || ((z.phase == PreCheck || z.phase == Opening) <==>
                                                    (y.phase == PreCheck || y.phase == Opening))
  {
    wakes := 0;
    if move.TakeEvent? {
      wakes := One(IsWake(y.feed.value.queue[0]));
      WakeRead(y.consumed, y.feed.value.queue[0]);
    }
  }

  lemma StepKeepsAccount(watch: Watch, moves: seq<Move>, y: World, move: Move, z: World)
    requires Accounted(moves, y) && Step(watch, y, move, z) && !z.phase.Finished?
    ensures Accounted(moves + [move], z)
  {
    CountOne(moves, move, Check);
    CountOne(moves, move, Open);
    CountOne(moves, move, Sleep);
    CountOne(moves, move, SeeEnd);
    var wakes := StepAccounts(watch, y, move, z);
  }

  lemma MadeShorter(watch: Watch, run: seq<World>, moves: seq<Move>)
    requires moves != [] && Made(watch, run, moves)
    ensures Made(watch, run[..|moves|], moves[..|moves| - 1])
  {
    var shorter, fewer := run[..|moves|], moves[..|moves| - 1];
    forall i | 0 <= i < |fewer| ensures MadeBy(watch, shorter, fewer, i) {
      assert MadeBy(watch, run, moves, i);
    }
  }

  /**
   Until it is done, the client checks once at first, once behind each subscription it opens,
   once for each change or call to resynchronise it reads and once for each end of a stream,
   and for nothing else; and it subscribes again only after a back-off, once for each end.
   */
  lemma {:induction false} EveryCheckHasItsCause(watch: Watch, run: seq<World>, moves: seq<Move>)
    requires Made(watch, run, moves) && !run[|moves|].phase.Finished?
    ensures Accounted(moves, run[|moves|])
  {
    if moves != [] {
      var n := |moves| - 1;
      assert MadeBy(watch, run, moves, n);
      MadeShorter(watch, run, moves);
      EveryCheckHasItsCause(watch, run[..n + 1], moves[..n]);
      StepKeepsAccount(watch, moves[..n], run[n], moves[n], run[n + 1]);
      assert moves[..n] + [moves[n]] == moves;
    }
  }

  // ---------- the observer finishes ----------

  // Events that stand before the first wake-up.
  function BeforeWake(queue: seq<StreamEvent>): (n: nat)
    ensures n <= |queue|
    ensures n < |queue| ==> IsWake(queue[n])
    ensures forall i :: 0 <= i < n ==> !IsWake(queue[i])
  {
    if queue == [] || IsWake(queue[0]) then 0 else 1 + BeforeWake(queue[1..])
  }

  // From here on the session is terminal and its change has been published.
  ghost predicate Settled(watch: Watch, y: World) {
    Inv(watch, y) && Classify(y.snapshot).Some? && y.inFlight == 0
  }

  function Unread(y: World): seq<StreamEvent> {
    if y.feed.Some? then y.feed.value.queue else []
  }

  // Client moves still to be made.
  function Distance(y: World): nat {
    match y.phase
    case Finished(_) => 0
    case Listening => BeforeWake(Unread(y)) + 2
    case BackingOff => 3
    case Opening => 2
    case Reopening => 2
    case _ => 1
  }

  lemma BeforeWakeGrows(queue: seq<StreamEvent>, more: seq<StreamEvent>)
    ensures BeforeWake(queue) < |queue| ==> BeforeWake(queue + more) == BeforeWake(queue)
    ensures BeforeWake(queue) == |queue| ==> BeforeWake(queue + more) >= |queue|
  {
    if queue != [] {
      assert (queue + more)[1..] == queue[1..] + more;
      BeforeWakeGrows(queue[1..], more);
    }
  }

  lemma BeforeWakeCut(queue: seq<StreamEvent>, kept: nat)
    requires kept <= |queue|
    ensures BeforeWake(queue[..kept]) <= BeforeWake(queue)
  {
    assert queue == queue[..kept] + queue[kept..];
    BeforeWakeGrows(queue[..kept], queue[kept..]);
  }

  lemma WakeIsBefore(queue: seq<StreamEvent>, i: nat)
    requires i < |queue| && IsWake(queue[i])
    ensures BeforeWake(queue) <= i
  {}

  // The server and the network cannot push a settled observer back.
  lemma SettledStays(watch: Watch, y: World, move: Move, z: World)
    requires Settled(watch, y) && Step(watch, y, move, z) && !IsClientMove(move) && !move.Change?
    ensures Settled(watch, z) && Distance(z) <= Distance(y)
  {
    StepKeepsInv(watch, y, move, z);
    if y.phase == Listening {
      var queue := y.feed.value.queue;
      match move
      case Push(event) =>
        var i :| 0 <= i < |queue| && IsWake(queue[i]);
        WakeIsBefore(queue, i);
        BeforeWakeGrows(queue, [event]);
      case Lag(lost) => WakeIsBefore(z.feed.value.queue, 0);
      case Disconnect(kept) => BeforeWakeCut(queue, kept);
      case _ =>
    }
  }

  // Each client move brings it closer, or is the failure or cancellation that ends it.
  lemma SettledAdvances(watch: Watch, y: World, move: Move, z: World)
    requires Settled(watch, y) && Step(watch, y, move, z) && IsClientMove(move)
    ensures Settled(watch, z) && Distance(z) < Distance(y)
    ensures z.phase.Finished? && z.phase.result.Terminal? ==> z.phase.result.snapshot == y.snapshot
  {
    StepKeepsInv(watch, y, move, z);
    if move.TakeEvent? && !IsWake(y.feed.value.queue[0]) {
      assert BeforeWake(y.feed.value.queue) == 1 + BeforeWake(z.feed.value.queue);
    }
  }

  /** A settled client is never stuck: some move of its own is possible until it has finished. */
  lemma SettledIsNeverStuck(watch: Watch, y: World) returns (move: Move, z: World)
    requires Settled(watch, y) && !y.phase.Finished?
    ensures Step(watch, y, move, z) && IsClientMove(move) && !move.Fail? && !move.Cancel?
  {
    if IsCheck(y.phase) {
      move := Check;
      z := y.(seen := Some(y.version), phase := Finished(Terminal(y.snapshot, Classify(y.snapshot).value)));
    } else if y.phase == Opening || y.phase == Reopening {
      move := Open;
      z := y.(feed := Some(Feed([], false)), phase := if y.phase == Opening then PostCheck else ReopenedCheck);
    } else if y.phase == BackingOff {
      move := Sleep;
      z := y.(phase := Reopening);
    } else if y.feed.value.queue == [] {
      move := SeeEnd;
      z := y.(phase := EndCheck);
    } else {
      move := TakeEvent;
      var event := y.feed.value.queue[0];
      z := y.(feed := Some(y.feed.value.(queue := y.feed.value.queue[1..])),
              consumed := y.consumed + [event],
              printed := y.printed + Shown(watch, event),
              phase := if IsWake(event) then ChangedCheck else Listening);
    }
  }

  // A run that goes on from a settled state without further changes of the session.
  ghost predicate SettledRun(watch: Watch, run: seq<World>, moves: seq<Move>) {
    && |run| == |moves| + 1 && Settled(watch, run[0])
    && forall i :: 0 <= i < |moves| ==> SettledStep(watch, run, moves, i)
  }

  ghost predicate SettledStep(watch: Watch, run: seq<World>, moves: seq<Move>, i: nat)
    requires i < |moves| && |run| == |moves| + 1
  {
    Step(watch, run[i], moves[i], run[i + 1]) && !moves[i].Change?
  }

  function ClientMoves(moves: seq<Move>): nat {
    if moves == [] then 0
    else ClientMoves(moves[..|moves| - 1]) + (if IsClientMove(moves[|moves| - 1]) then 1 else 0)
  }

  lemma SettledRunShorter(watch: Watch, run: seq<World>, moves: seq<Move>)
    requires moves != [] && SettledRun(watch, run, moves)
    ensures SettledRun(watch, run[..|moves|], moves[..|moves| - 1])
  {
    var shorter, fewer := run[..|moves|], moves[..|moves| - 1];
    forall i | 0 <= i < |fewer| ensures SettledStep(watch, shorter, fewer, i) {
      assert SettledStep(watch, run, moves, i);
    }
  }

  // One move of a settled run.
  lemma SettledMove(watch: Watch, y: World, move: Move, z: World)
    requires Settled(watch, y) && Step(watch, y, move, z) && !move.Change?
    ensures Settled(watch, z) && z.snapshot == y.snapshot
    ensures (if IsClientMove(move) then 1 else 0) + Distance(z) <= Distance(y)
    ensures y.phase.Finished? ==> z.phase == y.phase
    ensures z.phase.Finished? && z.phase.result.Terminal? && !y.phase.Finished? ==>
              z.phase.result.snapshot == y.snapshot
  {
    if IsClientMove(move) {
      SettledAdvances(watch, y, move, z);
    } else {
      SettledStays(watch, y, move, z);
    }
  }

  lemma SettledRunBound(watch: Watch, run: seq<World>, moves: seq<Move>)
    requires SettledRun(watch, run, moves)
    ensures Settled(watch, run[|moves|]) && run[|moves|].snapshot == run[0].snapshot
    ensures ClientMoves(moves) + Distance(run[|moves|]) <= Distance(run[0])
    ensures !run[0].phase.Finished? && run[|moves|].phase.Finished? && run[|moves|].phase.result.Terminal? ==>
              run[|moves|].phase.result.snapshot == run[0].snapshot
  {
    if moves != [] {
      var n := |moves| - 1;
      SettledRunShorter(watch, run, moves);
      SettledRunBound(watch, run[..n + 1], moves[..n]);
      assert SettledStep(watch, run, moves, n);
      SettledMove(watch, run[n], moves[n], run[n + 1]);
    }
  }

  lemma StoppedIsClassified(snapshot: Snapshot)
    ensures Classify(snapshot).Some? <==> snapshot.lifecycle != Running
  {
    ClassifiedAsMeant(snapshot);
  }

  lemma ResultIsMeant(watch: Watch, y: World)
    requires Inv(watch, y)
    ensures y.phase.Finished? && y.phase.result.Terminal? ==>
              Means(y.phase.result.snapshot, y.phase.result.outcome)
  {
    if y.phase.Finished? && y.phase.result.Terminal? {
      ClassifiedAsMeant(y.phase.result.snapshot);
    }
  }

  /**
   Once the session stays terminal and its change is published, a listening client makes at
   most two client moves more than there are events before the first wake-up, whatever the
   server and the network do. A terminal result is then the current snapshot, and the outcome
   says how the session came to a stop.
   */
  lemma ObserverFinishes(watch: Watch, past: seq<World>, run: seq<World>, moves: seq<Move>)
    requires Reachable(watch, past) && |run| == |moves| + 1 && run[0] == past[|past| - 1]
    requires run[0].snapshot.lifecycle != Running && run[0].inFlight == 0
    requires run[0].phase == Listening
    requires forall i :: 0 <= i < |moves| ==> SettledStep(watch, run, moves, i)
    ensures ClientMoves(moves) <= BeforeWake(Unread(run[0])) + 2
    ensures run[|moves|].phase.Finished? && run[|moves|].phase.result.Terminal? ==>
              run[|moves|].phase.result.snapshot == run[0].snapshot
              && Means(run[0].snapshot, run[|moves|].phase.result.outcome)
    ensures ClientMoves(moves) == BeforeWake(Unread(run[0])) + 2 ==> run[|moves|].phase.Finished?
  {
    ReachableKeepsInv(watch, past, |past| - 1);
    StoppedIsClassified(run[0].snapshot);
    SettledRunBound(watch, run, moves);
    ResultIsMeant(watch, run[|moves|]);
  }
}
