/** The life of one turn: eleven guarded transitions under a revision fence. */
module Turns {
  import opened Prelude

  datatype Status =
    | Queued | Running | WaitingPermission | WaitingInput | Cancelling | Interrupted | Failed | Completed

  datatype PendingPermission =
    PendingPermission(requestId: string, operationDigest: string, description: string)

  datatype PendingInput = PendingInput(requestId: string, prompt: string)

  datatype Retryability = Retryable | Terminal

  datatype FailureCode = ByCancellation | PermissionDenied | VerificationFailed | RuntimeFailed

  datatype TurnFailure = TurnFailure(code: FailureCode, message: string, retryability: Retryability)

  datatype VerificationStatus = Passed | NotPassed | NotRun

  datatype Evidence = Evidence(name: string, status: VerificationStatus, summary: string)

  datatype Handoff = Handoff(summary: string, filesChanged: seq<string>, evidence: seq<Evidence>)

  datatype CompletionPolicy = VerificationNotRequired | VerificationRequired

  datatype TurnState<Id> = TurnState(
    turnId: Id,
    revision: U64,
    status: Status,
    pendingPermission: Option<PendingPermission>,
    pendingInput: Option<PendingInput>,
    failure: Option<TurnFailure>,
    handoff: Option<Handoff>)

  datatype Transition =
    | Start
    | RequestPermission(permission: PendingPermission)
    | ResolvePermission(permissionId: string, allowed: bool)
    | RefreshPermission(permission: PendingPermission)
    | RequestInput(input: PendingInput)
    | ProvideInput(inputId: string)
    | Cancel
    | Interrupt
    | Fail(failure: TurnFailure)
    | Resume
    | Complete(handoff: Handoff, policy: CompletionPolicy)

  datatype TransitionError =
    | StaleRevision(expected: U64, actual: U64)
    | Invalid(from: Status)
    | MismatchedRequest
    | MissingPending
    | CompletedImmutable
    | RevisionOverflow

  const MAX_REVISION: U64 := U64_LIMIT - 1

  function NewTurn<Id>(id: Id): TurnState<Id> {
    TurnState(id, 0, Queued, None, None, None, None)
  }

  // At least one piece of evidence, and every piece passed.
  predicate Verified(handoff: Handoff) {
    handoff.evidence != [] && forall e :: e in handoff.evidence ==> e.status == Passed
  }

  const DENIED := TurnFailure(PermissionDenied, "permission was denied", Terminal)

  const UNVERIFIED := TurnFailure(VerificationFailed, "required verification did not pass", Terminal)

  function Next<Id>(s: TurnState<Id>, expected: U64, t: Transition): Result<TurnState<Id>, TransitionError> {
    if s.revision != expected then Err(StaleRevision(expected, s.revision))
    else if s.status == Completed then Err(CompletedImmutable)
    else if s.revision == MAX_REVISION then Err(RevisionOverflow)
    else Moved(s, s.(revision := s.revision + 1), t)
  }

  function Moved<Id>(s: TurnState<Id>, next: TurnState<Id>, t: Transition): Result<TurnState<Id>, TransitionError> {
    match t
    case Start =>
      if s.status == Queued then Ok(next.(status := Running)) else Err(Invalid(s.status))
    case RequestPermission(request) =>
      if s.status == Running then Ok(next.(status := WaitingPermission, pendingPermission := Some(request)))
      else Err(Invalid(s.status))
    case ResolvePermission(id, allowed) =>
      if s.status != WaitingPermission then Err(Invalid(s.status))
      else if s.pendingPermission.None? then Err(MissingPending)
      else if s.pendingPermission.value.requestId != id then Err(MismatchedRequest)
      else if allowed then Ok(next.(pendingPermission := None, status := Running))
      else Ok(next.(pendingPermission := None, status := Failed, failure := Some(DENIED)))
    case RefreshPermission(request) =>
      if s.status == WaitingPermission
      then Ok(next.(status := WaitingPermission, pendingPermission := Some(request)))
      else Err(Invalid(s.status))
    case RequestInput(request) =>
      if s.status == Running then Ok(next.(status := WaitingInput, pendingInput := Some(request)))
      else Err(Invalid(s.status))
    case ProvideInput(id) =>
      if s.status != WaitingInput then Err(Invalid(s.status))
      else if s.pendingInput.None? then Err(MissingPending)
      else if s.pendingInput.value.requestId != id then Err(MismatchedRequest)
      else Ok(next.(pendingInput := None, status := Running))
    case Cancel =>
      if s.status in {Queued, Running, WaitingPermission, WaitingInput}
      then Ok(next.(status := Cancelling, pendingInput := None, pendingPermission := None))
      else Err(Invalid(s.status))
    case Interrupt =>
      if s.status in {Running, Cancelling} then Ok(next.(status := Interrupted)) else Err(Invalid(s.status))
    case Fail(failure) =>
      if s.status in {Queued, Running, Cancelling}
      then Ok(next.(status := Failed, failure := Some(failure)))
      else Err(Invalid(s.status))
    case Resume =>
      if || s.status == Interrupted
         || (s.status == Failed && s.failure.Some? && s.failure.value.retryability == Retryable)
      then Ok(next.(status := Queued, failure := None))
      else Err(Invalid(s.status))
    case Complete(handoff, policy) =>
      if s.status != Running then Err(Invalid(s.status))
      else if policy == VerificationNotRequired || Verified(handoff)
      then Ok(next.(status := Completed, handoff := Some(handoff)))
      else Ok(next.(status := Failed, failure := Some(UNVERIFIED)))
  }

  // ---------- runs ----------

  /** One writer's attempt: the revision it read, and what it wants to do. */
  datatype Attempt = Attempt(expected: U64, transition: Transition)

  predicate Accepts<Id>(s: TurnState<Id>, a: Attempt) {
    Next(s, a.expected, a.transition).Ok?
  }

  // A rejected attempt changes nothing.
  function Try<Id>(s: TurnState<Id>, a: Attempt): TurnState<Id> {
    match Next(s, a.expected, a.transition)
    case Ok(next) => next
    case Err(_) => s
  }

  function Run<Id>(s: TurnState<Id>, attempts: seq<Attempt>): TurnState<Id> {
    if attempts == [] then s
    else Try(Run(s, attempts[..|attempts| - 1]), attempts[|attempts| - 1])
  }

  predicate AcceptedAt<Id>(s: TurnState<Id>, attempts: seq<Attempt>, i: nat)
    requires i < |attempts|
  {
    Accepts(Run(s, attempts[..i]), attempts[i])
  }

  // The accepted transitions, oldest first.
  function Log<Id>(s: TurnState<Id>, attempts: seq<Attempt>): seq<Transition> {
    if attempts == [] then []
    else
      var n := |attempts| - 1;
      Log(s, attempts[..n]) + if AcceptedAt(s, attempts, n) then [attempts[n].transition] else []
  }

  // ---------- the shape of every reachable turn ----------

  ghost predicate Shaped<Id>(s: TurnState<Id>) {
    && (s.pendingPermission.Some? <==> s.status == WaitingPermission)
    && (s.pendingInput.Some? <==> s.status == WaitingInput)
    && (s.failure.Some? <==> s.status == Failed)
    && (s.handoff.Some? <==> s.status == Completed)
  }

  /**
   In every reachable turn the revision counts the accepted transitions, and a pending
   request, a failure and a handoff are there exactly in the status they belong to.
   */
  lemma {:induction false} ReachableShape<Id>(id: Id, attempts: seq<Attempt>)
    ensures var s := Run(NewTurn(id), attempts);
            && s.turnId == id && s.revision == |Log(NewTurn(id), attempts)| && Shaped(s)
  {
    if attempts != [] {
      ReachableShape(id, attempts[..|attempts| - 1]);
    }
  }

  /** From a queued turn no writer is ever told that the pending request is missing. */
  lemma NeverMissingPending<Id>(id: Id, attempts: seq<Attempt>, a: Attempt)
    ensures Next(Run(NewTurn(id), attempts), a.expected, a.transition) != Err(MissingPending)
  {
    ReachableShape(id, attempts);
  }

  // ---------- racing writers ----------

  lemma {:induction false} RevisionGrows<Id>(s: TurnState<Id>, attempts: seq<Attempt>, i: nat)
    requires i <= |attempts|
    ensures Run(s, attempts[..i]).revision <= Run(s, attempts).revision
  {
    if i < |attempts| {
      var shorter := attempts[..|attempts| - 1];
      RevisionGrows(s, shorter, i);
      assert shorter[..i] == attempts[..i];
    } else {
      assert attempts[..i] == attempts;
    }
  }

  /** However many writers race, at most one attempt made at a revision is accepted, and
      accepted attempts name strictly growing revisions. */
  lemma OneAcceptancePerRevision<Id>(s: TurnState<Id>, attempts: seq<Attempt>, i: nat, j: nat)
    requires i < j < |attempts| && AcceptedAt(s, attempts, i) && AcceptedAt(s, attempts, j)
    ensures attempts[i].expected < attempts[j].expected
  {
    RevisionGrows(s, attempts[..j], i + 1);
    assert attempts[..j][..i + 1] == attempts[..i + 1];
    assert attempts[..i + 1][..i] == attempts[..i];
  }

  // ---------- after a cancellation ----------

  predicate Resumed(log: seq<Transition>) {
    exists i :: 0 <= i < |log| && log[i].Resume?
  }

  predicate Restarted(log: seq<Transition>) {
    exists i, j :: 0 <= i < j < |log| && log[i].Resume? && log[j].Start?
  }

  lemma LogKeeps(log: seq<Transition>, t: Transition)
    ensures Resumed(log) ==> Resumed(log + [t])
    ensures Restarted(log) ==> Restarted(log + [t])
    ensures t.Resume? ==> Resumed(log + [t])
    ensures t.Start? && Resumed(log) ==> Restarted(log + [t])
  {
    var longer := log + [t];
    assert forall i :: 0 <= i < |log| ==> longer[i] == log[i];
    assert longer[|log|] == t;
  }

  /**
   After a cancellation the turn neither runs, waits nor completes until a Resume and after
   it a Start have been accepted.
   */
  lemma {:induction false} CancelHolds<Id>(s: TurnState<Id>, attempts: seq<Attempt>)
    requires s.status == Cancelling
    ensures var last, log := Run(s, attempts), Log(s, attempts);
            && (last.status in {Running, WaitingPermission, WaitingInput, Completed} ==> Restarted(log))
            && (last.status == Queued ==> Resumed(log))
  {
    if attempts != [] {
      var n := |attempts| - 1;
      CancelHolds(s, attempts[..n]);
      assert !AcceptedAt(s, attempts, n) ==> Log(s, attempts) == Log(s, attempts[..n]);
      LogKeeps(Log(s, attempts[..n]), attempts[n].transition);
    }
  }

  // ---------- dead ends ----------

  // A transition the state would take, if it takes any.
  function Offer<Id>(s: TurnState<Id>): Transition {
    match s.status
    case Queued => Start
    case Interrupted => Resume
    case Failed => Resume
    case WaitingPermission =>
      ResolvePermission(if s.pendingPermission.Some? then s.pendingPermission.value.requestId else "", true)
    case WaitingInput => ProvideInput(if s.pendingInput.Some? then s.pendingInput.value.requestId else "")
    case _ => Interrupt
  }

  predicate TerminalFailure<Id>(s: TurnState<Id>) {
    s.status == Failed && s.failure.Some? && s.failure.value.retryability == Terminal
  }

  /** Below the maximum revision the reachable states no writer can leave are exactly the
      completed turns and the terminal failures. */
  lemma DeadEnds<Id>(id: Id, attempts: seq<Attempt>)
    ensures var s := Run(NewTurn(id), attempts);
            s.revision < MAX_REVISION ==>
              ((forall a :: !Accepts(s, a)) <==> s.status == Completed || TerminalFailure(s))
  {
    var s := Run(NewTurn(id), attempts);
    ReachableShape(id, attempts);
    if s.revision < MAX_REVISION && s.status != Completed && !TerminalFailure(s) {
      assert Accepts(s, Attempt(s.revision, Offer(s)));
    }
  }

  // The moves that lead to completion from here.
  function WayOut<Id>(s: TurnState<Id>, handoff: Handoff): (r: seq<Transition>)
    ensures |r| <= 4
  {
    var done := Complete(handoff, VerificationNotRequired);
    match s.status
    case Queued => [Start, done]
    case Running => [done]
    case WaitingPermission => [Offer(s), done]
    case WaitingInput => [Offer(s), done]
    case Cancelling => [Interrupt, Resume, Start, done]
    case Interrupted => [Resume, Start, done]
    case Failed => [Resume, Start, done]
    case Completed => []
  }

  function Attempts(from: U64, ts: seq<Transition>): seq<Attempt>
    requires from + |ts| <= U64_LIMIT
  {
    seq(|ts|, i requires 0 <= i < |ts| => Attempt(from + i, ts[i]))
  }

  lemma {:induction false} RunJoins<Id>(s: TurnState<Id>, first: seq<Attempt>, second: seq<Attempt>)
    ensures Run(s, first + second) == Run(Run(s, first), second)
  {
    if second == [] {
      assert first + second == first;
    } else {
      var n := |second| - 1;
      assert (first + second)[..|first| + n] == first + second[..n];
      RunJoins(s, first, second[..n]);
    }
  }

  lemma RunOne<Id>(s: TurnState<Id>, a: Attempt, rest: seq<Attempt>)
    ensures Run(s, [a] + rest) == Run(Try(s, a), rest)
  {
    RunJoins(s, [a], rest);
    assert [a][..0] == [];
    assert Run(s, [a]) == Try(Run(s, []), a);
  }

  lemma {:induction false} DeadStaysDead<Id>(s: TurnState<Id>, attempts: seq<Attempt>)
    requires s.status == Completed || TerminalFailure(s)
    ensures Run(s, attempts) == s
  {
    if attempts != [] {
      DeadStaysDead(s, attempts[..|attempts| - 1]);
    }
  }

  lemma FirstStepOut<Id>(s: TurnState<Id>, handoff: Handoff)
    requires Shaped(s) && !TerminalFailure(s) && s.status != Completed && s.revision < MAX_REVISION
    ensures var next := Try(s, Attempt(s.revision, WayOut(s, handoff)[0]));
            && Shaped(next) && !TerminalFailure(next) && next.revision == s.revision + 1
            && WayOut(next, handoff) == WayOut(s, handoff)[1..]
  {}

  lemma FirstOfAttempts(from: U64, ts: seq<Transition>)
    requires ts != [] && from + |ts| < U64_LIMIT
    ensures Attempts(from, ts) == [Attempt(from, ts[0])] + Attempts(from + 1, ts[1..])
  {}

  // One step out, and the rest of the way from there.
  lemma WayOutUnfolds<Id>(s: TurnState<Id>, ts: seq<Transition>, next: TurnState<Id>)
    requires ts != [] && s.revision + |ts| <= MAX_REVISION
    requires next == Try(s, Attempt(s.revision, ts[0])) && next.revision == s.revision + 1
    ensures Run(s, Attempts(s.revision, ts)) == Run(next, Attempts(next.revision, ts[1..]))
  {
    FirstOfAttempts(s.revision, ts);
    RunOne(s, Attempt(s.revision, ts[0]), Attempts(s.revision + 1, ts[1..]));
  }

  lemma {:induction false} RunWayOut<Id>(s: TurnState<Id>, ts: seq<Transition>, handoff: Handoff)
    requires Shaped(s) && !TerminalFailure(s) && s.revision + |ts| <= MAX_REVISION
    requires ts == WayOut(s, handoff)
    ensures Run(s, Attempts(s.revision, ts)).status == Completed
    decreases |ts|
  {
    if ts == [] {
      AlreadyOut(s, handoff);
    } else {
      var next := StepOut(s, handoff);
      WayOutUnfolds(s, ts, next);
      RunWayOut(next, ts[1..], handoff);
    }
  }

  lemma AlreadyOut<Id>(s: TurnState<Id>, handoff: Handoff)
    requires WayOut(s, handoff) == []
    ensures s.status == Completed && Run(s, Attempts(s.revision, [])) == s
  {}

  lemma StepOut<Id>(s: TurnState<Id>, handoff: Handoff) returns (next: TurnState<Id>)
    requires Shaped(s) && !TerminalFailure(s) && WayOut(s, handoff) != [] && s.revision < MAX_REVISION
    ensures next == Try(s, Attempt(s.revision, WayOut(s, handoff)[0])) && next.revision == s.revision + 1
    ensures Shaped(next) && !TerminalFailure(next) && WayOut(next, handoff) == WayOut(s, handoff)[1..]
  {
    next := Try(s, Attempt(s.revision, WayOut(s, handoff)[0]));
    FirstStepOut(s, handoff);
  }

  ghost predicate CanComplete<Id>(s: TurnState<Id>) {
    exists attempts :: Run(s, attempts).status == Completed
  }

  // No accepted transition shortens the way out by more than one.
  lemma OneStepShortens<Id>(s: TurnState<Id>, a: Attempt, handoff: Handoff)
    ensures |WayOut(s, handoff)| + s.revision <= |WayOut(Try(s, a), handoff)| + Try(s, a).revision
  {}

  lemma {:induction false} RunShortens<Id>(s: TurnState<Id>, attempts: seq<Attempt>, handoff: Handoff)
    ensures |WayOut(s, handoff)| + s.revision <= |WayOut(Run(s, attempts), handoff)| + Run(s, attempts).revision
  {
    if attempts != [] {
      var n := |attempts| - 1;
      RunShortens(s, attempts[..n], handoff);
      OneStepShortens(Run(s, attempts[..n]), attempts[n], handoff);
    }
  }

  lemma NeedsTheWayOut<Id>(s: TurnState<Id>, attempts: seq<Attempt>, handoff: Handoff)
    requires Run(s, attempts).status == Completed
    ensures !TerminalFailure(s) && s.revision + |WayOut(s, handoff)| <= MAX_REVISION
  {
    RunShortens(s, attempts, handoff);
    if TerminalFailure(s) {
      DeadStaysDead(s, attempts);
    }
  }

  /** Completion can still be reached from exactly the reachable turns that have not failed
      for good and have the revisions left that the shortest way out takes. */
  lemma CompletionStaysPossible<Id>(id: Id, attempts: seq<Attempt>, handoff: Handoff)
    ensures var s := Run(NewTurn(id), attempts);
            CanComplete(s) <==> !TerminalFailure(s) && s.revision + |WayOut(s, handoff)| <= MAX_REVISION
  {
    var s := Run(NewTurn(id), attempts);
    ReachableShape(id, attempts);
    if CanComplete(s) {
      var more :| Run(s, more).status == Completed;
      NeedsTheWayOut(s, more, handoff);
    }
    if !TerminalFailure(s) && s.revision + |WayOut(s, handoff)| <= MAX_REVISION {
      RunWayOut(s, WayOut(s, handoff), handoff);
    }
  }

  // ---------- what completes a turn, and what answers a question ----------

  // The permission asked for last.
  function LastAsked(log: seq<Transition>): Option<PendingPermission> {
    if log == [] then None
    else match log[|log| - 1]
      case RequestPermission(request) => Some(request)
      case RefreshPermission(request) => Some(request)
      case _ => LastAsked(log[..|log| - 1])
  }

  lemma {:induction false} WaitsForTheLastAsked<Id>(id: Id, attempts: seq<Attempt>)
    ensures var s := Run(NewTurn(id), attempts);
            s.status == WaitingPermission ==> s.pendingPermission == LastAsked(Log(NewTurn(id), attempts))
  {
    if attempts != [] {
      var n := |attempts| - 1;
      WaitsForTheLastAsked(id, attempts[..n]);
      var log, longer := Log(NewTurn(id), attempts[..n]), Log(NewTurn(id), attempts);
      if longer != log {
        assert longer[..|log|] == log;
      }
    }
  }

  /** An accepted answer names the permission asked for last: once refreshed, the request it
      replaced can no longer be answered. */
  lemma AnswersTheLastQuestion<Id>(id: Id, attempts: seq<Attempt>, a: Attempt)
    requires a.transition.ResolvePermission? && Accepts(Run(NewTurn(id), attempts), a)
    ensures var asked := LastAsked(Log(NewTurn(id), attempts));
            asked.Some? && asked.value.requestId == a.transition.permissionId
  {
    WaitsForTheLastAsked(id, attempts);
  }

  /** A completed turn holds the handoff of its last accepted transition. If its policy asked
      for verification there is evidence, and every piece of it passed. */
  lemma {:induction false} CompletedWasAdmitted<Id>(id: Id, attempts: seq<Attempt>)
    requires Run(NewTurn(id), attempts).status == Completed
    ensures var log := Log(NewTurn(id), attempts);
            && log != [] && log[|log| - 1].Complete?
            && Run(NewTurn(id), attempts).handoff == Some(log[|log| - 1].handoff)
            && (log[|log| - 1].policy == VerificationRequired ==>
                  var evidence := log[|log| - 1].handoff.evidence;
                  evidence != [] && forall i :: 0 <= i < |evidence| ==> evidence[i].status == Passed)
  {
    var n := |attempts| - 1;
    if !AcceptedAt(NewTurn(id), attempts, n) {
      CompletedWasAdmitted(id, attempts[..n]);
    }
  }

  // No evidence, or a piece that did not pass.
  predicate Doubtful(handoff: Handoff) {
    handoff.evidence == [] || exists i :: 0 <= i < |handoff.evidence| && handoff.evidence[i].status != Passed
  }

  /** A completion that must be verified and is not fails the turn for good. */
  lemma UnverifiedEndsTheTurn<Id>(s: TurnState<Id>, a: Attempt, more: seq<Attempt>)
    requires Accepts(s, a) && a.transition.Complete? && a.transition.policy == VerificationRequired
    requires Doubtful(a.transition.handoff)
    ensures var end := Run(Try(s, a), more);
            && end == Try(s, a) && end.status == Failed
            && end.failure == Some(TurnFailure(VerificationFailed, "required verification did not pass", Terminal))
  {
    DeadStaysDead(Try(s, a), more);
  }

  /** So does a denied permission. */
  lemma DeniedEndsTheTurn<Id>(s: TurnState<Id>, a: Attempt, more: seq<Attempt>)
    requires Accepts(s, a) && a.transition.ResolvePermission? && !a.transition.allowed
    ensures var end := Run(Try(s, a), more);
            && end == Try(s, a) && end.status == Failed
            && end.failure == Some(TurnFailure(PermissionDenied, "permission was denied", Terminal))
  {
    DeadStaysDead(Try(s, a), more);
  }

  // ---------- the histories a turn can have ----------

  // The last accepted transition leaves the turn running.
  predicate LeavesRunning(log: seq<Transition>) {
    && log != []
    && var last := log[|log| - 1];
       last.Start? || (last.ResolvePermission? && last.allowed) || last.ProvideInput?
  }

  predicate LeavesQueued(log: seq<Transition>) {
    log == [] || log[|log| - 1].Resume?
  }

  // The question a last transition asked, by its id.
  function OpenPermission(log: seq<Transition>): Option<string> {
    if log == [] then None
    else match log[|log| - 1]
      case RequestPermission(request) => Some(request.requestId)
      case RefreshPermission(request) => Some(request.requestId)
      case _ => None
  }

  function OpenInput(log: seq<Transition>): Option<string> {
    if log == [] then None
    else match log[|log| - 1]
      case RequestInput(request) => Some(request.requestId)
      case _ => None
  }

  // What may come next, said of the transitions accepted so far and nothing else.
  predicate MayFollow(log: seq<Transition>, t: Transition) {
    match t
    case Start => LeavesQueued(log)
    case RequestPermission(_) => LeavesRunning(log)
    case RequestInput(_) => LeavesRunning(log)
    case Complete(_, _) => LeavesRunning(log)
    case ResolvePermission(id, _) => OpenPermission(log) == Some(id)
    case RefreshPermission(_) => OpenPermission(log).Some?
    case ProvideInput(id) => OpenInput(log) == Some(id)
    case Cancel => LeavesQueued(log) || LeavesRunning(log) || OpenPermission(log).Some? || OpenInput(log).Some?
    case Interrupt => LeavesRunning(log) || (log != [] && log[|log| - 1].Cancel?)
    case Fail(_) => LeavesQueued(log) || LeavesRunning(log) || (log != [] && log[|log| - 1].Cancel?)
    case Resume =>
      && log != []
      && (log[|log| - 1].Interrupt? || (log[|log| - 1].Fail? && log[|log| - 1].failure.retryability == Retryable))
  }

  // The state a history leaves.
  ghost predicate Tells<Id>(log: seq<Transition>, s: TurnState<Id>) {
    if log == [] then s.status == Queued
    else match log[|log| - 1]
      case Start => s.status == Running
      case RequestPermission(request) => s.status == WaitingPermission && s.pendingPermission == Some(request)
      case RefreshPermission(request) => s.status == WaitingPermission && s.pendingPermission == Some(request)
      case ResolvePermission(_, allowed) =>
        if allowed then s.status == Running
        else FailedBy(s, PermissionDenied)
      case RequestInput(request) => s.status == WaitingInput && s.pendingInput == Some(request)
      case ProvideInput(_) => s.status == Running
      case Cancel => s.status == Cancelling
      case Interrupt => s.status == Interrupted
      case Fail(failure) => s.status == Failed && s.failure == Some(failure)
      case Resume => s.status == Queued
      case Complete(handoff, policy) =>
        if policy == VerificationRequired && Doubtful(handoff) then FailedBy(s, VerificationFailed)
        else s.status == Completed && s.handoff == Some(handoff)
  }

  predicate FailedBy<Id>(s: TurnState<Id>, code: FailureCode) {
    s.status == Failed && s.failure.Some? && s.failure.value.code == code && s.failure.value.retryability == Terminal
  }

  lemma StepTells<Id>(s: TurnState<Id>, log: seq<Transition>, a: Attempt)
    requires Accepts(s, a)
    ensures Tells(log + [a.transition], Try(s, a))
  {
    assert (log + [a.transition])[|log|] == a.transition;
  }

  /** The whole state of a turn follows from the transitions it accepted. */
  lemma {:induction false} StateFollowsFromTheLog<Id>(id: Id, attempts: seq<Attempt>)
    ensures Tells(Log(NewTurn(id), attempts), Run(NewTurn(id), attempts))
  {
    if attempts != [] {
      var n := |attempts| - 1;
      StateFollowsFromTheLog(id, attempts[..n]);
      if AcceptedAt(NewTurn(id), attempts, n) {
        StepTells(Run(NewTurn(id), attempts[..n]), Log(NewTurn(id), attempts[..n]), attempts[n]);
      }
    }
  }

  lemma FollowsExactly<Id>(s: TurnState<Id>, log: seq<Transition>, next: TurnState<Id>, t: Transition)
    requires Shaped(s) && Tells(log, s)
    ensures s.status != Completed && Moved(s, next, t).Ok? <==> MayFollow(log, t)
  {
    match t
    case Start =>
    case RequestPermission(_) =>
    case ResolvePermission(_, _) =>
    case RefreshPermission(_) =>
    case RequestInput(_) =>
    case ProvideInput(_) =>
    case Cancel =>
    case Interrupt =>
    case Fail(_) =>
    case Resume =>
    case Complete(_, _) =>
  }

  /**
   Over every run, an attempt is accepted exactly when it names the number of transitions
   accepted so far, the counter is not exhausted, and its transition may follow them.
   */
  lemma AcceptedExactlyWhen<Id>(id: Id, attempts: seq<Attempt>, a: Attempt)
    ensures var s, log := Run(NewTurn(id), attempts), Log(NewTurn(id), attempts);
            Accepts(s, a) <==> a.expected == |log| && |log| < MAX_REVISION && MayFollow(log, a.transition)
  {
    var s := Run(NewTurn(id), attempts);
    ReachableShape(id, attempts);
    StateFollowsFromTheLog(id, attempts);
    if s.revision < MAX_REVISION {
      FollowsExactly(s, Log(NewTurn(id), attempts), s.(revision := s.revision + 1), a.transition);
    }
  }

  // What a refusal of the move itself says.
  lemma RefusedMove<Id>(s: TurnState<Id>, log: seq<Transition>, next: TurnState<Id>, t: Transition)
    requires Shaped(s) && Tells(log, s) && Moved(s, next, t).Err?
    ensures Moved(s, next, t).error ==
            if (t.ResolvePermission? && OpenPermission(log).Some?) || (t.ProvideInput? && OpenInput(log).Some?)
            then MismatchedRequest else Invalid(s.status)
  {}

  /** What a refusal says: a stale revision first, then a completed turn, then an exhausted
      counter, then a question other than the one open; otherwise the status it met. */
  lemma RefusedBecause<Id>(id: Id, attempts: seq<Attempt>, a: Attempt)
    requires !Accepts(Run(NewTurn(id), attempts), a)
    ensures var s, log, t := Run(NewTurn(id), attempts), Log(NewTurn(id), attempts), a.transition;
            var e := Next(s, a.expected, t).error;
            if a.expected != |log| then e.StaleRevision? && e.expected == a.expected && e.actual == |log|
            else if s.status == Completed then e == CompletedImmutable
            else if |log| == MAX_REVISION then e == RevisionOverflow
            else if (t.ResolvePermission? && OpenPermission(log).Some?) || (t.ProvideInput? && OpenInput(log).Some?)
            then e == MismatchedRequest
            else e == Invalid(s.status)
  {
    var s := Run(NewTurn(id), attempts);
    ReachableShape(id, attempts);
    StateFollowsFromTheLog(id, attempts);
    if a.expected == s.revision && s.status != Completed && s.revision < MAX_REVISION {
      RefusedMove(s, Log(NewTurn(id), attempts), s.(revision := s.revision + 1), a.transition);
    }
  }
}
