/** When the commits of a session's effects are accepted, what each leaves, and what a
    repetition is answered. */
module SessionCommits {
  import opened Prelude
  import opened Transcript
  import opened SessionEffects
  import Turns
  import L = Ledger

  // ---------- when a commit is accepted ----------

  // The turn can take one more transition from this status.
  predicate At(s: State, status: Turns.Status) {
    s.turn.status == status && s.turn.revision + 1 < U64_LIMIT
  }

  // The question open is the one about this effect.
  predicate AsksAbout(eng: Engine, s: State, requestId: string) {
    && At(s, Turns.WaitingPermission)
    && s.turn.pendingPermission.Some? && s.turn.pendingPermission.value.requestId == eng.redact(requestId)
  }

  lemma FreshExactly(eng: Engine, s: State, lease: L.Lease, now: U64, request: Request)
    requires New(s, request.command)
    ensures Commit(eng, s, lease, now, request).1.Ok? <==>
              InForce(eng, s, lease, now, request.command) && Updated(eng, s, lease, request.update).Ok?
  {}

  lemma PrepareExactly(eng: Engine, s: State, lease: L.Lease, d: Descriptor, digest: string, policy: Policy)
    ensures Prepare(eng, s, lease, d, digest, policy).Ok? <==>
              && s.turn.status == Turns.Running && d.effectId !in s.rows && d.effectId !in s.canonical
              && (policy == Ask ==>
                    && s.turn.revision + 2 < U64_LIMIT && d.effectId !in s.capabilities
                    && forall id :: id in s.capabilities && id != d.effectId ==> s.capabilities[id].digest != digest)
  {}

  /** An effect is prepared under a new command exactly when policy knows it, the commit's
      fences hold, the turn runs and effect and digest are new; one that must be asked for
      needs two more revisions. */
  lemma PreparedExactlyWhen(eng: Engine, s: State, lease: L.Lease, now: U64, command: Command, d: Descriptor)
    requires New(s, command)
    ensures PrepareSessionEffect(eng, s, lease, now, command, d).1.Ok? <==>
              && InForce(eng, s, lease, now, command) && s.turn.status == Turns.Running
              && d.effectId !in s.rows && d.effectId !in s.canonical
              && (eng.policy(d) == Some(Allow) ||
                  (&& eng.policy(d) == Some(Ask) && s.turn.revision + 2 < U64_LIMIT && d.effectId !in s.capabilities
                   && DigestUnused(s, d.effectId, eng.digest(BoundAt(d, s.turn.revision + 2, lease)))))
  {
    match eng.policy(d)
    case None =>
    case Some(policy) =>
      if policy == Allow || command.expectedTurn + 2 < U64_LIMIT {
        var revision := command.expectedTurn + if policy == Ask then 2 else 0;
        var digest := Exact(eng, d, revision, lease);
        PrepareIsItsCommit(eng, s, lease, now, command, d, policy, revision);
        FreshExactly(eng, s, lease, now, Request(command, PrepareEffect(d, digest, policy)));
        PrepareExactly(eng, s, lease, d, digest, policy);
      }
  }

  predicate DigestUnused(s: State, effectId: string, digest: string) {
    forall id :: id in s.capabilities && id != effectId ==> s.capabilities[id].digest != digest
  }

  lemma ResolveExactly(eng: Engine, s: State, lease: L.Lease, requestId: string, digest: string)
    ensures Resolve(eng, s, lease, requestId, true, Some(digest)).Ok? <==>
              && AsksAbout(eng, s, requestId)
              && requestId in s.rows && s.rows[requestId].status == L.Prepared
              && requestId in s.capabilities && !s.capabilities[requestId].consumed
              && s.capabilities[requestId].revision == s.turn.revision + 1
              && s.capabilities[requestId].digest == s.rows[requestId].digest
              && DigestUnused(s, requestId, digest)
    ensures Resolve(eng, s, lease, requestId, false, None).Ok? <==> AsksAbout(eng, s, requestId)
  {}

  /** A permission is allowed under a new command exactly when the engine still knows the
      effect, the commit's fences hold, the open question is about it, and it waits prepared
      and unused, bound to the next revision under the digest of its row. */
  lemma AllowedExactlyWhen(eng: Engine, s: State, lease: L.Lease, now: U64, command: Command, requestId: string)
    requires New(s, command)
    ensures ResolveSessionPermission(eng, s, lease, now, command, requestId, true).1.Ok? <==>
              && InForce(eng, s, lease, now, command) && AsksAbout(eng, s, requestId)
              && requestId in s.canonical && s.canonical[requestId].effectId == requestId
              && eng.policy(s.canonical[requestId]).Some?
              && requestId in s.rows && s.rows[requestId].status == L.Prepared
              && requestId in s.capabilities && !s.capabilities[requestId].consumed
              && s.capabilities[requestId].revision == s.turn.revision + 1
              && s.capabilities[requestId].digest == s.rows[requestId].digest
              && DigestUnused(s, requestId, eng.digest(BoundAt(s.canonical[requestId], s.turn.revision + 1, lease)))
  {
    if Known(eng, s, requestId) && command.expectedTurn + 1 < U64_LIMIT {
      var digest := Exact(eng, s.canonical[requestId], command.expectedTurn + 1, lease);
      AllowingIsItsCommit(eng, s, lease, now, command, requestId);
      FreshExactly(eng, s, lease, now, Request(command, ResolvePermission(requestId, true, Some(digest))));
      ResolveExactly(eng, s, lease, requestId, digest);
    }
  }

  /** It is denied exactly when the fences hold and the open question is about it, whatever
      has become of the effect. */
  lemma DeniedExactlyWhen(eng: Engine, s: State, lease: L.Lease, now: U64, command: Command, requestId: string)
    requires New(s, command)
    ensures ResolveSessionPermission(eng, s, lease, now, command, requestId, false).1.Ok? <==>
              InForce(eng, s, lease, now, command) && AsksAbout(eng, s, requestId)
  {
    FreshExactly(eng, s, lease, now, Request(command, ResolvePermission(requestId, false, None)));
    ResolveExactly(eng, s, lease, requestId, "");
  }

  // ---------- reports ----------

  // The row is started under this digest.
  predicate UnderWay(s: State, effectId: string, digest: string) {
    effectId in s.rows && s.rows[effectId].status == L.Started && s.rows[effectId].digest == digest
  }

  // What a report of an outcome leaves: the row settled as reported, and a running turn as it was.
  ghost predicate Observes(s: State, z: State, effectId: string, digest: string, success: bool) {
    && UnderWay(s, effectId, digest) && s.turn.status == Turns.Running && z.turn == s.turn
    && effectId in z.rows && (z.rows[effectId].status == L.ObservedSuccess <==> success)
    && (z.rows[effectId].status == L.ObservedFailed <==> !success)
    && z.rows == s.rows[effectId := s.rows[effectId].(status := z.rows[effectId].status)]
    && z.capabilities == s.capabilities && z.canonical == s.canonical
  }

  // What a report that nobody knows the outcome leaves: the row says so, and the turn is interrupted.
  ghost predicate Interrupts(s: State, z: State, effectId: string, digest: string) {
    && UnderWay(s, effectId, digest)
    && z.rows == s.rows[effectId := s.rows[effectId].(status := L.Unknown)]
    && z.turn.status == Turns.Interrupted && z.turn.revision == s.turn.revision + 2
    && z.turn.pendingPermission == None && z.turn.pendingInput == None
    && z.capabilities == s.capabilities && z.canonical == s.canonical
  }

  lemma ObserveObserves(s: State, effectId: string, digest: string, success: bool)
    ensures var r := Observe(s, effectId, digest, success);
            && (r.Ok? <==> s.turn.status == Turns.Running && UnderWay(s, effectId, digest))
            && (r.Ok? ==> Observes(s, r.value, effectId, digest, success))
  {}

  lemma UnknownInterrupts(s: State, effectId: string, digest: string)
    ensures var r := MarkUnknown(s, effectId, digest);
            && (r.Ok? <==>
                  && UnderWay(s, effectId, digest) && s.turn.revision + 2 < U64_LIMIT
                  && s.turn.status in {Turns.Queued, Turns.Running, Turns.WaitingPermission, Turns.WaitingInput})
            && (r.Ok? ==> Interrupts(s, r.value, effectId, digest))
  {}

  /** An outcome is recorded exactly when the fences hold, the turn runs and the row is started
      under its digest; it then says success or failure as reported, and nothing else changed. */
  lemma OutcomeIsRecorded(eng: Engine, s: State, lease: L.Lease, now: U64, command: Command, effectId: string,
                          digest: string, success: bool)
    requires New(s, command)
    ensures var (z, r) := Commit(eng, s, lease, now, Request(command, ObserveEffect(effectId, digest, success)));
            && (r.Ok? <==> InForce(eng, s, lease, now, command) && s.turn.status == Turns.Running
                           && UnderWay(s, effectId, digest))
            && if r.Ok? then Observes(s, z, effectId, digest, success) else z == s
  {
    var request := Request(command, ObserveEffect(effectId, digest, success));
    FreshExactly(eng, s, lease, now, request);
    CommitIsItsUpdate(eng, s, lease, now, request);
    ObserveObserves(s, effectId, digest, success);
  }

  /** An unknown outcome is recorded exactly when the fences hold, the row is started under its
      digest and the turn can still be cancelled; the turn ends interrupted, two revisions on. */
  lemma UnknownIsRecorded(eng: Engine, s: State, lease: L.Lease, now: U64, command: Command, effectId: string,
                          digest: string)
    requires New(s, command)
    ensures var (z, r) := Commit(eng, s, lease, now, Request(command, UnknownEffect(effectId, digest)));
            && (r.Ok? <==>
                  && InForce(eng, s, lease, now, command) && UnderWay(s, effectId, digest)
                  && s.turn.revision + 2 < U64_LIMIT
                  && s.turn.status in {Turns.Queued, Turns.Running, Turns.WaitingPermission, Turns.WaitingInput})
            && if r.Ok? then Interrupts(s, z, effectId, digest) else z == s
  {
    var request := Request(command, UnknownEffect(effectId, digest));
    FreshExactly(eng, s, lease, now, request);
    CommitIsItsUpdate(eng, s, lease, now, request);
    UnknownInterrupts(s, effectId, digest);
  }

  // ---------- what every commit leaves ----------

  // A denied permission and an unknown outcome end the turn.
  predicate Ends(update: Update) {
    match update
    case ResolvePermission(_, allow, _) => !allow
    case UnknownEffect(_, _) => true
    case _ => false
  }

  // Updates are about the turn and its effects only.
  predicate SameSession(s: State, u: State) {
    u.lease == s.lease && u.commands == s.commands && u.sources == s.sources
  }

  lemma UpdateKeepsTheSession(eng: Engine, s: State, lease: L.Lease, update: Update)
    ensures var u := Updated(eng, s, lease, update); u.Ok? ==> SameSession(s, u.value)
  {
    match update
    case PrepareEffect(_, _, _) =>
    case ResolvePermission(_, _, _) =>
    case StartEffect(_, _) =>
    case ObserveEffect(_, _, _) =>
    case UnknownEffect(_, _) =>
  }

  lemma ClosedLeaves(u: State, session: U64, lease: L.Lease, request: Request)
    ensures var z := Closed(u.(sessionRevision := session), lease, request);
            && z.sessionRevision == session && z.turnToken == lease.token && z.turn == u.turn
            && z.commands == u.commands[request.command.id := (request, Response(session, u.turn))]
            && z.sources == u.sources[request.command.sourceKey := request]
            && (Ends(request.update) ==>
                  z.activeToken == None &&
                  z.lease == (if u.lease.Some? then Some(u.lease.value.(expires := 0)) else None))
            && (!Ends(request.update) ==> z.activeToken == Some(lease.token) && z.lease == u.lease)
  {}

  /** Every accepted new commit moves the session on by one revision and remembers what it
      answered. One that ends the turn gives up the lease and the active turn with it; any
      other keeps both, under its own token. */
  lemma EveryCommitLeaves(eng: Engine, s: State, lease: L.Lease, now: U64, request: Request)
    requires New(s, request.command) && Commit(eng, s, lease, now, request).1.Ok?
    ensures var (z, r) := Commit(eng, s, lease, now, request);
            && z.sessionRevision == s.sessionRevision + 1 && z.turnToken == lease.token
            && r.value == Response(z.sessionRevision, z.turn)
            && z.commands == s.commands[request.command.id := (request, r.value)]
            && z.sources == s.sources[request.command.sourceKey := request]
            && (Ends(request.update) ==>
                  z.activeToken == None && z.lease.Some? && z.lease.value == s.lease.value.(expires := 0))
            && (!Ends(request.update) ==> z.activeToken == Some(lease.token) && z.lease == s.lease)
  {
    FreshExactly(eng, s, lease, now, request);
    CommitCloses(eng, s, lease, now, request);
    CommitAnswers(eng, s, lease, now, request);
    UpdateKeepsTheSession(eng, s, lease, request.update);
    ClosedLeaves(Updated(eng, s, lease, request.update).value, s.sessionRevision + 1, lease, request);
  }

  lemma CommitAnswers(eng: Engine, s: State, lease: L.Lease, now: U64, request: Request)
    requires New(s, request.command) && Commit(eng, s, lease, now, request).1.Ok?
    ensures var (z, r) := Commit(eng, s, lease, now, request); r.value == Response(z.sessionRevision, z.turn)
  {}

  /** A turn that ended takes no commit under a new command, whoever holds the lease next. */
  lemma EndedTurnTakesNoCommit(eng: Engine, s: State, lease: L.Lease, now: U64, request: Request,
                               row: Option<L.LeaseRow>, other: L.Lease, later: U64, next: Request)
    requires New(s, request.command) && Commit(eng, s, lease, now, request).1.Ok? && Ends(request.update)
    requires New(Commit(eng, s, lease, now, request).0, next.command)
    ensures var z := Commit(eng, s, lease, now, request).0;
            && Commit(eng, z, other, later, next) == (z, Err(LeaseLost))
            && Commit(eng, WithLease(z, row), other, later, next).1.Err?
  {
    EveryCommitLeaves(eng, s, lease, now, request);
    var z := Commit(eng, s, lease, now, request).0;
    CommittedNeedsFences(eng, z, other, later, next);
    CommittedNeedsFences(eng, WithLease(z, row), other, later, next);
  }

  lemma CommittedNeedsFences(eng: Engine, s: State, lease: L.Lease, now: U64, request: Request)
    requires New(s, request.command)
    ensures s.activeToken == None ==> Commit(eng, s, lease, now, request).1.Err?
    ensures !(s.lease.Some? && s.lease.value.expires > now) ==>
              Commit(eng, s, lease, now, request) == (s, Err(LeaseLost))
  {}

  /** Whatever happened since, a request repeated is answered as the first time and changes
      nothing, and another under the same command or for the same source is refused. */
  lemma RepeatedOrRefused(eng: Engine, s: State, lease: L.Lease, now: U64, request: Request, z: State,
                          other: L.Lease, later: U64, again: Request)
    requires New(s, request.command) && Commit(eng, s, lease, now, request).1.Ok?
    requires Advances(Commit(eng, s, lease, now, request).0, z)
    requires again.command.id == request.command.id || again.command.sourceKey == request.command.sourceKey
    ensures Commit(eng, z, other, later, again) ==
            (z, if other.scope != eng.scope then Err(LeaseLost)
                else if again == request then Commit(eng, s, lease, now, request).1
                else if again.command.id != request.command.id && again.command.id in z.commands &&
                        z.commands[again.command.id].0 == again
                then Ok(z.commands[again.command.id].1)
                else Err(ReplayMismatch))
  {
    EveryCommitLeaves(eng, s, lease, now, request);
  }
}
