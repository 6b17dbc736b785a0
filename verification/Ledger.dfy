/** The durable effect ledger: its rows and the four transactions on them. */
module Ledger {
  import opened Prelude
  import opened Transcript

  datatype Status = Prepared | Started | ObservedSuccess | ObservedFailed | Unknown

  datatype Effect = Effect(turnId: Id, status: Status, attempt: U64, digest: string)

  // A single-use capability to start one prepared effect.
  datatype Capability =
    Capability(turnId: Id, revision: U64, owner: string, token: U64, digest: string, consumed: bool)

  datatype TurnRow = TurnRow(revision: U64, leaseToken: U64)

  datatype LeaseRow = LeaseRow(owner: string, token: U64, expires: U64)

  datatype Lease = Lease(scope: string, owner: string, token: U64)

  const RUNTIME_SCOPE := "runtime"

  datatype Tables = Tables(
    effects: map<string, Effect>,
    capabilities: map<string, Capability>,
    turns: map<Id, TurnRow>,
    leases: map<string, LeaseRow>,
    linked: set<Id>)               // turns that belong to a session

  datatype StorageError = LeaseLost | Constraint | Stale | Mismatch | Fenced | Unavailable

  datatype Authority =
    Authority(turnId: Id, revision: U64, lease: Lease, effectId: string, digest: string, attempt: U64)

  predicate Live(t: Tables, lease: Lease, now: U64) {
    && lease.scope in t.leases
    && t.leases[lease.scope].owner == lease.owner
    && t.leases[lease.scope].token == lease.token
    && t.leases[lease.scope].expires > now
  }

  predicate TurnAt(t: Tables, turnId: Id, revision: U64) {
    turnId in t.turns && t.turns[turnId].revision == revision
  }

  predicate TurnHeld(t: Tables, turnId: Id, token: U64) {
    turnId in t.turns && t.turns[turnId].leaseToken == token
  }

  // Effect ids are a primary key in both tables, and a capability's digest is unique.
  predicate Insertable(t: Tables, effectId: string, digest: string) {
    && effectId !in t.effects && effectId !in t.capabilities
    && forall other :: other in t.capabilities ==> t.capabilities[other].digest != digest
  }

  function Inserted(t: Tables, effectId: string, effect: Effect, capability: Capability): Tables {
    t.(effects := t.effects[effectId := effect], capabilities := t.capabilities[effectId := capability])
  }

  /** Records a prepared effect and its capability, bound to the revision it may start at. */
  function CreatePrepared(t: Tables, effectId: string, turnId: Id, expected: U64, bound: U64, attempt: U64,
                          digest: string, lease: Lease, now: U64): Result<Tables, StorageError> {
    if lease.scope != RUNTIME_SCOPE then Err(LeaseLost)
    else if !(Live(t, lease, now) && TurnAt(t, turnId, expected) && TurnHeld(t, turnId, lease.token))
    then Err(LeaseLost)
    else if !Insertable(t, effectId, digest) then Err(Constraint)
    else Ok(Inserted(t, effectId, Effect(turnId, Prepared, attempt, digest),
                     Capability(turnId, bound, lease.owner, lease.token, digest, false)))
  }

  predicate Consumable(t: Tables, effectId: string, turnId: Id, revision: U64, lease: Lease, digest: string, now: U64) {
    && effectId in t.capabilities
    && t.capabilities[effectId] == Capability(turnId, revision, lease.owner, lease.token, digest, false)
    && TurnAt(t, turnId, revision) && Live(t, lease, now)
  }

  /** Consumes the capability and starts the effect, in one transaction. */
  function ConsumeAndStart(t: Tables, effectId: string, turnId: Id, revision: U64, lease: Lease, digest: string,
                           now: U64): Result<(Tables, Authority), StorageError> {
    if lease.scope != RUNTIME_SCOPE then Err(LeaseLost)
    else if !Consumable(t, effectId, turnId, revision, lease, digest, now) then Err(Stale)
    else if !(effectId in t.effects && t.effects[effectId].status == Prepared && t.effects[effectId].digest == digest)
    then Err(Mismatch)
    else if !TurnHeld(t, turnId, lease.token) then Err(LeaseLost)
    else
      var effect := t.effects[effectId];
      Ok((t.(effects := t.effects[effectId := effect.(status := Started)],
             capabilities := t.capabilities[effectId := t.capabilities[effectId].(consumed := true)]),
          Authority(turnId, revision, lease, effectId, digest, effect.attempt)))
  }

  predicate Settleable(t: Tables, a: Authority, now: U64) {
    && a.effectId in t.effects
    && t.effects[a.effectId] == Effect(a.turnId, Started, a.attempt, a.digest)
    && Live(t, a.lease, now)
    && TurnAt(t, a.turnId, a.revision) && TurnHeld(t, a.turnId, a.lease.token)
  }

  /** Records how a started effect ended. Fenced by the lease and the revision it started under. */
  function Settle(t: Tables, a: Authority, status: Status, now: U64): Result<Tables, StorageError> {
    if a.lease.scope != RUNTIME_SCOPE then Err(LeaseLost)
    else if !Settleable(t, a, now) then Err(Fenced)
    else Ok(t.(effects := t.effects[a.effectId := t.effects[a.effectId].(status := status)]))
  }

  predicate Replaceable(t: Tables, oldId: string, turnId: Id, expected: U64, lease: Lease, now: U64) {
    && Live(t, lease, now) && TurnAt(t, turnId, expected) && TurnHeld(t, turnId, lease.token)
    && oldId in t.capabilities && t.capabilities[oldId].turnId == turnId && !t.capabilities[oldId].consumed
    && oldId in t.effects && t.effects[oldId].turnId == turnId && t.effects[oldId].status == Prepared
    && t.effects[oldId].digest == t.capabilities[oldId].digest
    && (t.capabilities[oldId].owner != lease.owner || t.capabilities[oldId].token != lease.token)
  }

  // `saturating_sub`
  function Less(revision: U64, n: nat): U64 {
    if revision < n then 0 else revision - n
  }

  /** Abandons a prepared effect whose lease is gone and prepares another in its place. */
  function Replace(t: Tables, oldId: string, newId: string, turnId: Id, revision: U64, attempt: U64,
                   digest: string, lease: Lease, now: U64): Result<Tables, StorageError> {
    if lease.scope != RUNTIME_SCOPE then Err(LeaseLost)
    else if !Replaceable(t, oldId, turnId, Less(revision, 2), lease, now) then Err(LeaseLost)
    else
      var abandoned := t.(effects := t.effects[oldId := t.effects[oldId].(status := ObservedFailed)],
                          capabilities := t.capabilities - {oldId});
      if !Insertable(abandoned, newId, digest) then Err(Constraint)
      else Ok(Inserted(abandoned, newId, Effect(turnId, Prepared, attempt, digest),
                       Capability(turnId, revision, lease.owner, lease.token, digest, false)))
  }

  // Recovery after a lost lease: what was started may have happened.
  function Recovered(t: Tables, turnId: Id): Tables {
    t.(effects := map id | id in t.effects ::
         if t.effects[id].turnId == turnId && t.effects[id].status == Started
         then t.effects[id].(status := Unknown) else t.effects[id])
  }

  // ---------- effects only move forward ----------

  function Rank(status: Status): nat {
    match status
    case Prepared => 0
    case Started => 1
    case Unknown => 2
    case _ => 3
  }

  predicate Onward(before: Effect, after: Effect) {
    && before.turnId == after.turnId && before.attempt == after.attempt
    && (before.status != Prepared ==> before.digest == after.digest)
    && (before.status == after.status || Rank(before.status) < Rank(after.status))
  }

  // No effect disappears or goes back.
  predicate Later(t: Tables, u: Tables) {
    forall id :: id in t.effects ==> id in u.effects && Onward(t.effects[id], u.effects[id])
  }

  // What every writer but the gate keeps: effects move forward, turns stay linked, and the
  // capabilities of unlinked turns are consumed or deleted but never made or changed.
  predicate Steady(t: Tables, u: Tables) {
    && Later(t, u) && t.linked <= u.linked
    && forall id :: id in u.capabilities && u.capabilities[id].turnId !in u.linked ==>
         && id in t.capabilities
         && (u.capabilities[id] == t.capabilities[id] || u.capabilities[id] == t.capabilities[id].(consumed := true))
  }

  /** Every transaction moves effects forward only. */
  lemma TransactionsMoveForward(t: Tables, effectId: string, turnId: Id, revision: U64, attempt: U64,
                                digest: string, lease: Lease, now: U64)
    ensures var r := CreatePrepared(t, effectId, turnId, Less(revision, 2), revision, attempt, digest, lease, now);
            r.Ok? ==> Later(t, r.value)
    ensures var r := CreatePrepared(t, effectId, turnId, revision, revision, attempt, digest, lease, now);
            r.Ok? ==> Later(t, r.value)
    ensures var r := ConsumeAndStart(t, effectId, turnId, revision, lease, digest, now);
            r.Ok? ==> Later(t, r.value.0)
    ensures Later(t, Recovered(t, turnId))
  {}

  /** Recovery claims to know nothing: of one turn, what was started becomes unknown, and what
      was not started or is already settled stays, as does everything of other turns. */
  lemma RecoveryLeavesNothingStarted(t: Tables, turnId: Id, id: string)
    ensures var u := Recovered(t, turnId);
            && u == t.(effects := u.effects) && u.effects.Keys == t.effects.Keys
            && (id in t.effects ==>
                  && u.effects[id] == t.effects[id].(status := u.effects[id].status)
                  && !(u.effects[id].turnId == turnId && u.effects[id].status == Started)
                  && (u.effects[id].status != t.effects[id].status <==>
                        t.effects[id].turnId == turnId && t.effects[id].status == Started)
                  && (u.effects[id].status != t.effects[id].status ==> u.effects[id].status == Unknown))
  {}

  lemma SettlingMovesForward(t: Tables, a: Authority, status: Status, now: U64)
    requires Rank(status) > Rank(Started)
    ensures var r := Settle(t, a, status, now); r.Ok? ==> Later(t, r.value)
  {}

  lemma ReplacingMovesForward(t: Tables, oldId: string, newId: string, turnId: Id, revision: U64, attempt: U64,
                              digest: string, lease: Lease, now: U64)
    ensures var r := Replace(t, oldId, newId, turnId, revision, attempt, digest, lease, now);
            r.Ok? ==> Later(t, r.value)
  {}

  lemma LaterChains(t: Tables, u: Tables, v: Tables)
    requires Later(t, u) && Later(u, v)
    ensures Later(t, v)
  {}
}
