/** The commits of a session's effects, statement by statement in one transaction each. */
module SessionStore {
  import opened Prelude
  import opened Transcript
  import opened SessionEffects
  import Turns
  import L = Ledger

  class Store {
    const eng: Engine
    var state: State

    constructor (eng: Engine, state: State)
      ensures this.eng == eng && this.state == state
    {
      this.eng, this.state := eng, state;
    }

    // What an update leaves: the specified state, or, before the rollback, anything.
    ghost predicate Does(expected: Result<State, Error>, r: Result<(), Error>)
      reads this
    {
      match expected
      case Ok(next) => r == Ok(()) && state == next
      case Err(e) => r == Err(e)
    }

    method PutRow(effectId: string, row: Row)
      modifies this
      ensures state == old(state).(rows := old(state).rows[effectId := row])
    {
      state := state.(rows := state.rows[effectId := row]);
    }

    method PutCapability(effectId: string, c: Capability)
      modifies this
      ensures state == old(state).(capabilities := old(state).capabilities[effectId := c])
    {
      state := state.(capabilities := state.capabilities[effectId := c]);
    }

    method PutTurn(turn: Turns.TurnState<Id>)
      modifies this
      ensures state == old(state).(turn := turn)
    {
      state := state.(turn := turn);
    }

    method ApplyPrepare(lease: L.Lease, d: Descriptor, digest: string, policy: Policy) returns (r: Result<(), Error>)
      modifies this
      ensures Does(Prepare(eng, old(state), lease, d, digest, policy), r)
    {
      if state.turn.status != Turns.Running {
        return Err(Invalid);
      }
      if d.effectId in state.rows {
        return Err(Constraint);
      }
      PutRow(d.effectId, Row(L.Prepared, digest, policy));
      if d.effectId in state.canonical {
        return Err(Constraint);
      }
      state := state.(canonical := state.canonical[d.effectId := d]);
      if policy == Allow {
        return Ok(());
      }
      var pending := Turns.PendingPermission(eng.redact(d.effectId), eng.redact(digest), eng.redact(d.operation));
      var revision := state.turn.revision;
      var moved := Moved(state, Turns.RequestPermission(pending));
      if moved.Err? {
        return Err(moved.error);
      }
      PutTurn(moved.value);
      if revision + 2 >= U64_LIMIT {
        return Err(Overflow);
      }
      if d.effectId in state.capabilities || !DigestFree(state, d.effectId, digest) {
        return Err(Constraint);
      }
      PutCapability(d.effectId, Capability(revision + 2, lease.owner, lease.token, digest, false));
      r := Ok(());
    }

    method ApplyResolve(lease: L.Lease, requestId: string, allow: bool, rebound: Option<string>)
      returns (r: Result<(), Error>)
      modifies this
      ensures Does(Resolve(eng, old(state), lease, requestId, allow, rebound), r)
    {
      var moved := Moved(state, Turns.ResolvePermission(eng.redact(requestId), allow));
      if moved.Err? {
        return Err(moved.error);
      }
      PutTurn(moved.value);
      if allow {
        r := ApplyRebind(lease, requestId, rebound);
      } else {
        if requestId in state.capabilities {
          PutCapability(requestId, state.capabilities[requestId].(consumed := true));
        }
        if requestId in state.rows && state.rows[requestId].status == L.Prepared {
          PutRow(requestId, state.rows[requestId].(status := L.ObservedFailed));
        }
        r := Ok(());
      }
    }

    method ApplyRebind(lease: L.Lease, requestId: string, rebound: Option<string>) returns (r: Result<(), Error>)
      modifies this
      ensures Does(Rebind(old(state), lease, requestId, rebound, old(state).turn), r)
    {
      if !Pending(state, requestId) {
        if rebound.Some? {
          return Err(Invalid);
        }
        return Ok(());
      }
      var c, row := state.capabilities[requestId], state.rows[requestId];
      if c.revision != state.turn.revision || c.digest != row.digest {
        return Err(Invalid);
      }
      var changedEpoch := c.owner != lease.owner || c.token != lease.token;
      if changedEpoch && rebound.None? {
        return Err(LeaseLost);
      }
      if rebound.Some? {
        PutRow(requestId, row.(digest := rebound.value));
        if !DigestFree(state, requestId, rebound.value) {
          return Err(Constraint);
        }
        PutCapability(requestId, c.(owner := lease.owner, token := lease.token, digest := rebound.value));
      }
      r := Ok(());
    }

    method ApplyStart(lease: L.Lease, effectId: string, digest: string) returns (r: Result<(), Error>)
      modifies this
      ensures Does(Start(old(state), lease, effectId, digest), r)
    {
      if state.turn.status != Turns.Running || state.turn.pendingPermission.Some? || state.turn.pendingInput.Some? {
        return Err(Invalid);
      }
      if effectId !in state.rows || state.rows[effectId].status != L.Prepared {
        return Err(Invalid);
      }
      var row := state.rows[effectId];
      if row.digest != digest {
        return Err(Invalid);
      }
      if effectId in state.capabilities {
        var c := state.capabilities[effectId];
        if c.revision != state.turn.revision || c.owner != lease.owner || c.token != lease.token || c.consumed {
          return Err(Invalid);
        }
        PutCapability(effectId, c.(consumed := true));
      } else if row.policy != Allow {
        return Err(Invalid);
      }
      PutRow(effectId, row.(status := L.Started));
      r := Ok(());
    }

    method ApplySettle(effectId: string, digest: string, status: L.Status) returns (r: Result<(), Error>)
      modifies this
      ensures Does(Settle(old(state), effectId, digest, status), r)
    {
      if effectId !in state.rows {
        return Err(Fenced);
      }
      var row := state.rows[effectId];
      if row.status != L.Started || row.digest != digest {
        return Err(Fenced);
      }
      PutRow(effectId, row.(status := status));
      r := Ok(());
    }

    method ApplyMarkUnknown(effectId: string, digest: string) returns (r: Result<(), Error>)
      modifies this
      ensures Does(MarkUnknown(old(state), effectId, digest), r)
    {
      r := ApplySettle(effectId, digest, L.Unknown);
      if r.Err? {
        return;
      }
      var cancelling := Turns.Next(state.turn, state.turn.revision, Turns.Cancel);
      if cancelling.Err? {
        return Err(Invalid);
      }
      var interrupted := Turns.Next(cancelling.value, cancelling.value.revision, Turns.Interrupt);
      if interrupted.Err? {
        return Err(Invalid);
      }
      PutTurn(interrupted.value);
    }

    method ApplyUpdate(lease: L.Lease, update: Update) returns (r: Result<(), Error>)
      modifies this
      ensures Does(Updated(eng, old(state), lease, update), r)
    {
      match update {
        case PrepareEffect(d, digest, policy) => r := ApplyPrepare(lease, d, digest, policy);
        case ResolvePermission(id, allow, rebound) => r := ApplyResolve(lease, id, allow, rebound);
        case StartEffect(id, digest) => r := ApplyStart(lease, id, digest);
        case ObserveEffect(id, digest, success) =>
          if state.turn.status != Turns.Running {
            return Err(Invalid);
          }
          r := ApplySettle(id, digest, if success then L.ObservedSuccess else L.ObservedFailed);
        case UnknownEffect(id, digest) => r := ApplyMarkUnknown(id, digest);
      }
    }

    // The transaction's body: fences, the update, and the closing writes.
    method ApplyFresh(lease: L.Lease, now: U64, request: Request) returns (r: Result<(), Error>)
      modifies this
      ensures Does(Fresh(eng, old(state), lease, now, request), r)
    {
      if !Live(state, lease, now) {
        return Err(LeaseLost);
      }
      if state.sessionRevision != request.command.expectedSession {
        return Err(StaleSession);
      }
      if state.activeToken.None? || state.activeToken.value > lease.token {
        return Err(ActiveMismatch);
      }
      if state.turnToken > lease.token {
        return Err(LeaseLost);
      }
      if state.turn.revision != request.command.expectedTurn {
        return Err(StaleTurn);
      }
      var revision := state.sessionRevision;
      r := ApplyUpdate(lease, request.update);
      if r.Err? {
        return;
      }
      if revision + 1 >= U64_LIMIT {
        return Err(Overflow);
      }
      state := state.(sessionRevision := revision + 1);
      state := Closed(state, lease, request);
    }

    /** One commit: answered from the replay table, or applied whole, or rolled back whole. */
    method CommitTurnUpdate(lease: L.Lease, now: U64, request: Request) returns (r: Result<Response, Error>)
      modifies this
      ensures (state, r) == Commit(eng, old(state), lease, now, request)
    {
      if lease.scope != eng.scope {
        return Err(LeaseLost);
      }
      if request.command.id in state.commands {
        var (stored, response) := state.commands[request.command.id];
        return if stored == request then Ok(response) else Err(ReplayMismatch);
      }
      if request.command.sourceKey in state.sources {
        return Err(ReplayMismatch);
      }
      var before := state;
      var done := ApplyFresh(lease, now, request);
      if done.Err? {
        state := before;
        return Err(done.error);
      }
      r := Ok(Response(state.sessionRevision, state.turn));
    }

    // `prepare_session_effect`
    method PrepareSession(lease: L.Lease, now: U64, command: Command, d: Descriptor)
      returns (r: Result<Response, Error>)
      modifies this
      ensures (state, r) == PrepareSessionEffect(eng, old(state), lease, now, command, d)
      ensures if r.Ok? && New(old(state), command) then Prepares(eng, old(state), state, lease, d)
              else state == old(state)
    {
      PrepareChanges(eng, state, lease, now, command, d);
      var policy := eng.policy(d);
      if policy.None? {
        return Err(Invalid);
      }
      var revision := command.expectedTurn;
      if policy.value == Ask {
        if revision + 2 >= U64_LIMIT {
          return Err(Invalid);
        }
        revision := revision + 2;
      }
      var exact := Exact(eng, d, revision, lease);
      r := CommitTurnUpdate(lease, now, Request(command, PrepareEffect(d, exact, policy.value)));
    }

    // `resolve_session_effect_permission`
    method ResolveSession(lease: L.Lease, now: U64, command: Command, requestId: string, allow: bool)
      returns (r: Result<Response, Error>)
      modifies this
      ensures (state, r) == ResolveSessionPermission(eng, old(state), lease, now, command, requestId, allow)
      ensures if r.Ok? && New(old(state), command) then Answers(eng, old(state), state, lease, requestId, allow)
              else state == old(state)
    {
      AnswerChanges(eng, state, lease, now, command, requestId, allow);
      var rebound: Option<string> := None;
      if allow {
        if !Known(eng, state, requestId) || command.expectedTurn + 1 >= U64_LIMIT {
          return Err(Invalid);
        }
        rebound := Some(Exact(eng, state.canonical[requestId], command.expectedTurn + 1, lease));
      }
      r := CommitTurnUpdate(lease, now, Request(command, ResolvePermission(requestId, allow, rebound)));
    }

    // `start_session_effect`
    method StartSession(lease: L.Lease, now: U64, command: Command, effectId: string, digest: string)
      returns (r: Result<Response, Error>)
      modifies this
      ensures (state, r) == StartSessionEffect(eng, old(state), lease, now, command, effectId, digest)
      ensures if r.Ok? && New(old(state), command) then Begins(old(state), state, lease, effectId, digest)
              else state == old(state)
    {
      StartChanges(eng, state, lease, now, command, effectId, digest);
      if !Known(eng, state, effectId) {
        return Err(Invalid);
      }
      if Exact(eng, state.canonical[effectId], command.expectedTurn, lease) != digest {
        return Err(Invalid);
      }
      r := CommitTurnUpdate(lease, now, Request(command, StartEffect(effectId, digest)));
    }
  }
}
