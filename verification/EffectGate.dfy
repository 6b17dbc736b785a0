/**
 The gate in front of every tool and process: what needs permission reaches the executor
 only after a single-use start in the ledger, and its outcome is recorded there.
 */
module EffectGate {
  import opened Prelude
  import opened Transcript
  import opened Ledger

  datatype Kind = Tool | Process

  datatype Decision = Allow | Ask | Deny

  /** What the approval digest covers. The operation is the whole descriptor of the tool call
      or the process, so it says which of the two it is. */
  datatype Binding =
    Binding(operation: string, revision: U64, effectId: string, attempt: U64, owner: string, token: U64)

  datatype Invocation = Invocation(
    operation: string, turnId: Id, effectId: string, revision: U64, attempt: U64,
    owner: string, token: U64, approval: Option<string>,
    wellFormed: bool,              // argv, caps and timeout of a process are in order
    decision: Option<Decision>)    // None: the tool or the working directory was refused

  function Bound(inv: Invocation): Binding {
    Binding(inv.operation, inv.revision, inv.effectId, inv.attempt, inv.owner, inv.token)
  }

  datatype ToolError = Io | Path | OtherError

  datatype Termination = Exited | TimedOut | Cancelled

  // How the executor ended: a tool with output or an error, a process by itself, at its
  // time limit, by cancellation, or without anyone able to tell.
  datatype Outcome =
    | ToolOutput | ToolFailed(error: ToolError)
    | ProcessEnded(termination: Termination) | SupervisionFailed

  datatype Fault =
    | Malformed | Denied | InvalidApproval | PermissionRequired(digest: string)
    | Sequencing(error: StorageError) | Executor(outcome: Outcome)

  datatype Reply = Output | Refusal(fault: Fault)

  // Whether each of a call's database writes gets through.
  datatype Weather = Weather(first: bool, second: bool, last: bool)

  function Through<T>(up: bool, r: Result<T, StorageError>): Result<T, StorageError> {
    if up then r else Err(Unavailable)
  }

  // ---------- before the executor ----------

  datatype Begun = Refused(fault: Fault) | Unledgered | Go(authority: Authority)

  function AskFirst(t: Tables, inv: Invocation, lease: Lease, digest: string, now: U64, up: bool): (Tables, Begun) {
    match Through(up, CreatePrepared(t, inv.effectId, inv.turnId, Less(inv.revision, 2), inv.revision,
                                     inv.attempt, digest, lease, now))
    case Err(e) => (t, Refused(Sequencing(e)))
    case Ok(u) => (u, Refused(PermissionRequired(digest)))
  }

  function StartApproved(t: Tables, inv: Invocation, lease: Lease, digest: string, now: U64,
                         up: bool): (Tables, Begun)
  {
    if inv.approval != Some(digest) then (t, Refused(InvalidApproval))
    else
      match Through(up, ConsumeAndStart(t, inv.effectId, inv.turnId, inv.revision, lease, digest, now))
      case Err(_) => (t, Refused(InvalidApproval))
      case Ok(started) => (started.0, Go(started.1))
  }

  // A process that needs no permission still goes through the ledger.
  function StartAllowed(t: Tables, inv: Invocation, lease: Lease, digest: string, now: U64,
                        weather: Weather): (Tables, Begun)
  {
    match Through(weather.first, CreatePrepared(t, inv.effectId, inv.turnId, inv.revision, inv.revision,
                                                inv.attempt, digest, lease, now))
    case Err(e) => (t, Refused(Sequencing(e)))
    case Ok(u) =>
      match Through(weather.second, ConsumeAndStart(u, inv.effectId, inv.turnId, inv.revision, lease, digest, now))
      case Err(e) => (u, Refused(Sequencing(e)))
      case Ok(started) => (started.0, Go(started.1))
  }

  function Begin(kind: Kind, t: Tables, inv: Invocation, lease: Lease, digest: string, now: U64,
                 weather: Weather): (Tables, Begun)
  {
    if inv.turnId in t.linked then (t, Refused(Malformed))
    else if kind == Process && !inv.wellFormed then (t, Refused(Malformed))
    else if lease.owner != inv.owner || lease.token != inv.token then (t, Refused(InvalidApproval))
    else match inv.decision
      case None => (t, Refused(Malformed))
      case Some(Deny) => (t, Refused(Denied))
      case Some(Allow) =>
        if kind == Tool then (t, Unledgered) else StartAllowed(t, inv, lease, digest, now, weather)
      case Some(Ask) =>
        if inv.approval == None then AskFirst(t, inv, lease, digest, now, weather.first)
        else StartApproved(t, inv, lease, digest, now, weather.first)
  }

  // ---------- after the executor ----------

  // Where it is uncertain what happened outside, the ledger must not claim to know.
  function Recorded(outcome: Outcome): Status {
    match outcome
    case ToolOutput => ObservedSuccess
    case ToolFailed(error) => if error == Io || error == Path then Unknown else ObservedFailed
    case ProcessEnded(termination) => if termination == Cancelled then Unknown else ObservedSuccess
    case SupervisionFailed => Unknown
  }

  function Plain(outcome: Outcome): Reply {
    match outcome
    case ToolOutput => Output
    case ProcessEnded(termination) => if termination == Cancelled then Refusal(Executor(outcome)) else Output
    case _ => Refusal(Executor(outcome))
  }

  function Finish(t: Tables, a: Authority, outcome: Outcome, now: U64, up: bool): (Tables, Reply) {
    match Through(up, Settle(t, a, Recorded(outcome), now))
    case Err(e) => (t, Refusal(Sequencing(e)))
    case Ok(u) => (u, Plain(outcome))
  }

  // ---------- many callers, in many processes ----------

  datatype Execution = Execution(effectId: string, binding: Binding, outcome: Outcome)

  datatype Caller =
    | Authorized(authority: Authority, binding: Binding)
    | Ran(authority: Authority, outcome: Outcome)
    | Returned(effectId: string, executed: bool, reply: Reply)

  // What a permission was asked for: the exact form, and the lease it was asked under.
  datatype Asking = Asking(binding: Binding, lease: Lease)

  datatype World = World(
    tables: Tables,
    callers: map<nat, Caller>,
    executions: seq<Execution>,
    asked: map<string, Asking>,    // by effect id, the last permission asked for
    settled: map<string, Status>)  // by effect id, the row's status after the gate's own record

  datatype Event =
    | Call(c: nat, kind: Kind, inv: Invocation, lease: Lease, now: U64, weather: Weather, bare: Outcome)
    | Execute(c: nat, outcome: Outcome)
    | Record(c: nat, now: U64, up: bool)
    | Reissue(oldId: string, inv: Invocation, lease: Lease, now: U64, up: bool)
    | Die(c: nat)
    | Others(tables: Tables)       // recovery, other turns, leases changing hands

  predicate Free(w: World, c: nat) {
    c in w.callers ==> w.callers[c].Returned?
  }

  function AfterBegin(begun: Begun, inv: Invocation, bare: Outcome): Caller {
    match begun
    case Refused(fault) => Returned(inv.effectId, false, Refusal(fault))
    case Unledgered => Returned(inv.effectId, false, Plain(bare))
    case Go(authority) => Authorized(authority, Bound(inv))
  }

  function AskedAfter(asked: map<string, Asking>, inv: Invocation, lease: Lease, begun: Begun): map<string, Asking> {
    if begun.Refused? && begun.fault.PermissionRequired?
    then asked[inv.effectId := Asking(Bound(inv), lease)] else asked
  }

  // A record the ledger refused settles nothing.
  function SettledAfter(settled: map<string, Status>, t: Tables, effectId: string, reply: Reply): map<string, Status> {
    if (reply.Refusal? && reply.fault.Sequencing?) || effectId !in t.effects then settled
    else settled[effectId := t.effects[effectId].status]
  }

  // A permission whose lease is gone, asked for again under another effect id.
  function Reissued(w: World, oldId: string, inv: Invocation, lease: Lease, digest: string, now: U64, up: bool): World {
    if inv.turnId in w.tables.linked || inv.decision != Some(Ask) then w
    else
      match Through(up, Replace(w.tables, oldId, inv.effectId, inv.turnId, inv.revision, inv.attempt,
                                digest, lease, now))
      case Err(_) => w
      case Ok(t) => w.(tables := t, asked := w.asked[inv.effectId := Asking(Bound(inv), lease)])
  }

  // An event that cannot happen changes nothing.
  function Next(digest: Binding -> string, w: World, e: Event): World {
    match e
    case Call(c, kind, inv, lease, now, weather, bare) =>
      if !Free(w, c) then w
      else
        var (t, begun) := Begin(kind, w.tables, inv, lease, digest(Bound(inv)), now, weather);
        w.(tables := t, callers := w.callers[c := AfterBegin(begun, inv, bare)],
           asked := AskedAfter(w.asked, inv, lease, begun))
    case Execute(c, outcome) =>
      if c in w.callers && w.callers[c].Authorized? then
        var Authorized(a, binding) := w.callers[c];
        w.(callers := w.callers[c := Ran(a, outcome)],
           executions := w.executions + [Execution(a.effectId, binding, outcome)])
      else w
    case Record(c, now, up) =>
      if c in w.callers && w.callers[c].Ran? then
        var Ran(a, outcome) := w.callers[c];
        var (t, reply) := Finish(w.tables, a, outcome, now, up);
        w.(tables := t, callers := w.callers[c := Returned(a.effectId, true, reply)],
           settled := SettledAfter(w.settled, t, a.effectId, reply))
      else w
    case Reissue(oldId, inv, lease, now, up) =>
      Reissued(w, oldId, inv, lease, digest(Bound(inv)), now, up)
    case Die(c) => w.(callers := w.callers - {c})
    case Others(tables) => if Steady(w.tables, tables) then w.(tables := tables) else w
  }

  function Run(digest: Binding -> string, w: World, events: seq<Event>): World {
    if events == [] then w
    else Next(digest, Run(digest, w, events[..|events| - 1]), events[|events| - 1])
  }

  // Nobody has called yet.
  function Idle(tables: Tables): World {
    World(tables, map[], [], map[], map[])
  }

  // ---------- the invariant ----------

  ghost predicate StartedUnder(digest: Binding -> string, t: Tables, effectId: string, binding: Binding) {
    && effectId in t.effects && t.effects[effectId].status != Prepared
    && t.effects[effectId].digest == digest(binding)
  }

  ghost predicate NotExecuted(executions: seq<Execution>, effectId: string) {
    forall i :: 0 <= i < |executions| ==> executions[i].effectId != effectId
  }

  // The row an authority was given for.
  ghost predicate RowOf(t: Tables, a: Authority) {
    && a.lease.scope == RUNTIME_SCOPE && a.effectId in t.effects
    && var e := t.effects[a.effectId];
       e.status != Prepared && e.attempt == a.attempt && e.digest == a.digest
  }

  // What one caller's state says about the ledger.
  ghost predicate CallerInv(digest: Binding -> string, w: World, caller: Caller) {
    match caller
    case Authorized(a, binding) =>
      && StartedUnder(digest, w.tables, a.effectId, binding) && NotExecuted(w.executions, a.effectId)
      && binding.effectId == a.effectId && RowOf(w.tables, a)
    case Ran(a, _) => RowOf(w.tables, a)
    case Returned(effectId, executed, reply) =>
      executed && !(reply.Refusal? && reply.fault.Sequencing?) ==>
        && effectId in w.tables.effects
        && Rank(w.tables.effects[effectId].status) > Rank(Started)
        && (reply == Output ==> w.tables.effects[effectId].status == ObservedSuccess)
  }

  ghost predicate ExecutionInv(digest: Binding -> string, w: World) {
    && (forall i, j :: 0 <= i < j < |w.executions| ==> w.executions[i].effectId != w.executions[j].effectId)
    && (forall i :: 0 <= i < |w.executions| ==>
          && StartedUnder(digest, w.tables, w.executions[i].effectId, w.executions[i].binding)
          && w.executions[i].binding.effectId == w.executions[i].effectId)
  }

  ghost predicate OneAuthority(w: World) {
    forall c, d ::
      c in w.callers && d in w.callers && c != d && w.callers[c].Authorized? && w.callers[d].Authorized? ==>
      w.callers[c].authority.effectId != w.callers[d].authority.effectId
  }

  ghost predicate Inv(digest: Binding -> string, w: World) {
    && ExecutionInv(digest, w) && OneAuthority(w)
    && forall c :: c in w.callers ==> CallerInv(digest, w, w.callers[c])
  }

  lemma LaterKeepsInv(digest: Binding -> string, w: World, t: Tables)
    requires Inv(digest, w) && Later(w.tables, t)
    ensures Inv(digest, w.(tables := t))
  {
    var z := w.(tables := t);
    forall i | 0 <= i < |w.executions|
      ensures StartedUnder(digest, t, w.executions[i].effectId, w.executions[i].binding)
    {
      assert StartedUnder(digest, w.tables, w.executions[i].effectId, w.executions[i].binding);
    }
    forall c | c in z.callers ensures CallerInv(digest, z, z.callers[c]) {
      assert CallerInv(digest, w, w.callers[c]);
    }
  }

  // What holds of an effect a call may now execute: it was prepared, and is started.
  ghost predicate Unlocked(t: Tables, u: Tables, inv: Invocation, digest: string, begun: Begun) {
    begun.Go? ==>
      && begun.authority.effectId == inv.effectId && RowOf(u, begun.authority)
      && u.effects[inv.effectId].status == Started
      && u.effects[inv.effectId].digest == digest
      && (inv.effectId in t.effects ==> t.effects[inv.effectId].status == Prepared)
  }

  lemma ApprovedUnlocks(t: Tables, inv: Invocation, lease: Lease, digest: string, now: U64, up: bool)
    ensures var (u, begun) := StartApproved(t, inv, lease, digest, now, up);
            Later(t, u) && Unlocked(t, u, inv, digest, begun)
  {
    TransactionsMoveForward(t, inv.effectId, inv.turnId, inv.revision, inv.attempt, digest, lease, now);
  }

  lemma AllowedUnlocks(t: Tables, inv: Invocation, lease: Lease, digest: string, now: U64, weather: Weather)
    ensures var (u, begun) := StartAllowed(t, inv, lease, digest, now, weather);
            Later(t, u) && Unlocked(t, u, inv, digest, begun)
  {
    TransactionsMoveForward(t, inv.effectId, inv.turnId, inv.revision, inv.attempt, digest, lease, now);
    var created := CreatePrepared(t, inv.effectId, inv.turnId, inv.revision, inv.revision, inv.attempt,
                                  digest, lease, now);
    if weather.first && created.Ok? {
      var u := created.value;
      assert inv.effectId !in t.effects;
      TransactionsMoveForward(u, inv.effectId, inv.turnId, inv.revision, inv.attempt, digest, lease, now);
      var (v, begun) := StartAllowed(t, inv, lease, digest, now, weather);
      assert Later(u, v);
      LaterChains(t, u, v);
    }
  }

  lemma BeginMovesForward(kind: Kind, t: Tables, inv: Invocation, lease: Lease, digest: string, now: U64,
                          weather: Weather)
    ensures var (u, begun) := Begin(kind, t, inv, lease, digest, now, weather);
            Later(t, u) && Unlocked(t, u, inv, digest, begun)
  {
    ApprovedUnlocks(t, inv, lease, digest, now, weather.first);
    AllowedUnlocks(t, inv, lease, digest, now, weather);
    TransactionsMoveForward(t, inv.effectId, inv.turnId, inv.revision, inv.attempt, digest, lease, now);
  }

  lemma CallKeepsInv(digest: Binding -> string, w: World, e: Event)
    requires Inv(digest, w) && e.Call? && Free(w, e.c)
    ensures Inv(digest, Next(digest, w, e))
  {
    var z := Next(digest, w, e);
    var (t, begun) := Begin(e.kind, w.tables, e.inv, e.lease, digest(Bound(e.inv)), e.now, e.weather);
    BeginMovesForward(e.kind, w.tables, e.inv, e.lease, digest(Bound(e.inv)), e.now, e.weather);
    LaterKeepsInv(digest, w, t);
    var moved := w.(tables := t);
    forall c | c in z.callers ensures CallerInv(digest, z, z.callers[c]) {
      if c != e.c {
        assert CallerInv(digest, moved, moved.callers[c]);
      } else if begun.Go? {
        NotYetExecuted(digest, w, e.inv.effectId);
      }
    }
    if begun.Go? {
      forall c | c in w.callers && w.callers[c].Authorized? && c != e.c
        ensures w.callers[c].authority.effectId != e.inv.effectId
      {
        assert CallerInv(digest, w, w.callers[c]);
      }
    }
  }

  // An effect still prepared, or unknown to the ledger, has not been executed.
  lemma NotYetExecuted(digest: Binding -> string, w: World, effectId: string)
    requires Inv(digest, w)
    requires effectId in w.tables.effects ==> w.tables.effects[effectId].status == Prepared
    ensures NotExecuted(w.executions, effectId)
  {
    forall i | 0 <= i < |w.executions| ensures w.executions[i].effectId != effectId {
      assert StartedUnder(digest, w.tables, w.executions[i].effectId, w.executions[i].binding);
    }
  }

  lemma ExecuteKeepsInv(digest: Binding -> string, w: World, c: nat, outcome: Outcome)
    requires Inv(digest, w) && c in w.callers && w.callers[c].Authorized?
    ensures Inv(digest, Next(digest, w, Execute(c, outcome)))
  {
    var z := Next(digest, w, Execute(c, outcome));
    assert CallerInv(digest, w, w.callers[c]);
    forall d | d in z.callers ensures CallerInv(digest, z, z.callers[d]) {
      assert CallerInv(digest, w, w.callers[d]);
    }
  }

  lemma RecordKeepsInv(digest: Binding -> string, w: World, c: nat, now: U64, up: bool)
    requires Inv(digest, w) && c in w.callers && w.callers[c].Ran?
    ensures Inv(digest, Next(digest, w, Record(c, now, up)))
  {
    var z := Next(digest, w, Record(c, now, up));
    var Ran(a, outcome) := w.callers[c];
    SettlingMovesForward(w.tables, a, Recorded(outcome), now);
    LaterKeepsInv(digest, w, z.tables);
    var moved := w.(tables := z.tables);
    forall d | d in z.callers ensures CallerInv(digest, z, z.callers[d]) {
      if d != c {
        assert CallerInv(digest, moved, moved.callers[d]);
      }
    }
  }

  lemma ReissueKeepsInv(digest: Binding -> string, w: World, e: Event)
    requires Inv(digest, w) && e.Reissue?
    ensures Inv(digest, Next(digest, w, e))
  {
    ReplacingMovesForward(w.tables, e.oldId, e.inv.effectId, e.inv.turnId, e.inv.revision, e.inv.attempt,
                          digest(Bound(e.inv)), e.lease, e.now);
    var z := Next(digest, w, e);
    if z != w {
      LaterKeepsInv(digest, w, z.tables);
      assert Inv(digest, w.(tables := z.tables));
      AskingKeepsInv(digest, w.(tables := z.tables), z.asked);
    }
  }

  lemma AskingKeepsInv(digest: Binding -> string, w: World, asked: map<string, Asking>)
    requires Inv(digest, w)
    ensures Inv(digest, w.(asked := asked))
  {
    var z := w.(asked := asked);
    forall c | c in z.callers ensures CallerInv(digest, z, z.callers[c]) {
      assert CallerInv(digest, w, w.callers[c]);
    }
  }

  lemma NextKeepsInv(digest: Binding -> string, w: World, e: Event)
    requires Inv(digest, w)
    ensures Inv(digest, Next(digest, w, e))
  {
    match e
    case Call(c, _, _, _, _, _, _) =>
      if Free(w, c) {
        CallKeepsInv(digest, w, e);
      }
    case Execute(c, outcome) =>
      if c in w.callers && w.callers[c].Authorized? {
        ExecuteKeepsInv(digest, w, c, outcome);
      }
    case Record(c, now, up) =>
      if c in w.callers && w.callers[c].Ran? {
        RecordKeepsInv(digest, w, c, now, up);
      }
    case Reissue(oldId, inv, lease, now, up) => ReissueKeepsInv(digest, w, e);
    case Die(c) =>
      var z := Next(digest, w, e);
      forall d | d in z.callers ensures CallerInv(digest, z, z.callers[d]) {
        assert CallerInv(digest, w, w.callers[d]);
      }
    case Others(tables) =>
      if Steady(w.tables, tables) {
        LaterKeepsInv(digest, w, tables);
      }
  }

  lemma {:induction false} RunKeepsInv(digest: Binding -> string, tables: Tables, events: seq<Event>)
    ensures Inv(digest, Run(digest, Idle(tables), events))
  {
    if events != [] {
      RunKeepsInv(digest, tables, events[..|events| - 1]);
      NextKeepsInv(digest, Run(digest, Idle(tables), events[..|events| - 1]), events[|events| - 1]);
    }
  }

  // ---------- what a call needs, and what it changes ----------

  // The turn is at this revision under the caller's lease, which is the runtime's and live.
  predicate InOrder(t: Tables, turnId: Id, revision: int, lease: Lease, now: U64) {
    && lease.scope == "runtime" && "runtime" in t.leases
    && t.leases["runtime"].owner == lease.owner && t.leases["runtime"].token == lease.token
    && now < t.leases["runtime"].expires
    && turnId in t.turns && t.turns[turnId].revision == revision && t.turns[turnId].leaseToken == lease.token
  }

  // What every call is checked for before the ledger is asked.
  predicate Admissible(kind: Kind, t: Tables, inv: Invocation, lease: Lease) {
    && inv.turnId !in t.linked && (kind == Process ==> inv.wellFormed)
    && lease.owner == inv.owner && lease.token == inv.token
  }

  predicate Unused(t: Tables, id: string, digest: string) {
    && id !in t.effects && id !in t.capabilities
    && forall other :: other in t.capabilities ==> t.capabilities[other].digest != digest
  }

  // One more effect and its capability, and nothing else.
  predicate Adds(t: Tables, u: Tables, inv: Invocation, lease: Lease, digest: string, status: Status, consumed: bool) {
    u == t.(effects := t.effects[inv.effectId := Effect(inv.turnId, status, inv.attempt, digest)],
            capabilities := t.capabilities[inv.effectId :=
              Capability(inv.turnId, inv.revision, lease.owner, lease.token, digest, consumed)])
  }

  /** A call asks for permission exactly when policy says so, no approval came with it, the
      turn is two revisions before the one asked for, and effect and digest are new. It then
      leaves a prepared effect and an unused capability for that revision. */
  lemma AsksExactlyWhen(kind: Kind, t: Tables, inv: Invocation, lease: Lease, digest: string, now: U64,
                        weather: Weather)
    ensures var (u, begun) := Begin(kind, t, inv, lease, digest, now, weather);
            && (begun == Refused(PermissionRequired(digest)) <==>
                  && Admissible(kind, t, inv, lease) && inv.decision == Some(Ask) && inv.approval == None
                  && InOrder(t, inv.turnId, Max(0, inv.revision - 2), lease, now)
                  && Unused(t, inv.effectId, digest) && weather.first)
            && (begun.Refused? && begun.fault.PermissionRequired? ==>
                  begun.fault.digest == digest && Adds(t, u, inv, lease, digest, Prepared, false))
  {}

  /** A process that policy allows is given authority exactly when the turn is at its revision
      and effect and digest are new; it is then prepared and started under a used capability. */
  lemma AllowedStartsExactlyWhen(t: Tables, inv: Invocation, lease: Lease, digest: string, now: U64, weather: Weather)
    requires inv.decision == Some(Allow)
    ensures var (u, begun) := Begin(Process, t, inv, lease, digest, now, weather);
            && (begun.Go? <==>
                  && Admissible(Process, t, inv, lease) && InOrder(t, inv.turnId, inv.revision, lease, now)
                  && Unused(t, inv.effectId, digest) && weather.first && weather.second)
            && (begun.Go? ==> Adds(t, u, inv, lease, digest, Started, true))
  {}

  /** An approved call starts its prepared effect and uses its capability up, nothing else. */
  lemma ApprovedChangesOnly(kind: Kind, t: Tables, inv: Invocation, lease: Lease, digest: string, now: U64,
                            weather: Weather)
    requires inv.decision == Some(Ask)
    ensures var (u, begun) := Begin(kind, t, inv, lease, digest, now, weather);
            && (begun.Go? ==>
                  && inv.effectId in t.effects && t.effects[inv.effectId].status == Prepared
                  && inv.effectId in t.capabilities && !t.capabilities[inv.effectId].consumed
                  && begun.authority == Authority(inv.turnId, inv.revision, lease, inv.effectId, digest,
                                                  t.effects[inv.effectId].attempt)
                  && u == t.(effects := t.effects[inv.effectId := t.effects[inv.effectId].(status := Started)],
                             capabilities := t.capabilities[inv.effectId :=
                               t.capabilities[inv.effectId].(consumed := true)]))
            && (begun.Refused? && !begun.fault.PermissionRequired? ==> u == t)
  {}

  /** Only a tool that policy allows outright runs past the ledger, which it leaves alone. */
  lemma UnledgeredExactlyWhen(kind: Kind, t: Tables, inv: Invocation, lease: Lease, digest: string, now: U64,
                              weather: Weather)
    ensures var (u, begun) := Begin(kind, t, inv, lease, digest, now, weather);
            && (begun.Unledgered? <==> Admissible(kind, t, inv, lease) && kind == Tool && inv.decision == Some(Allow))
            && (begun.Unledgered? ==> u == t)
  {}

  /** What a refusal says of its cause, in the order of the checks: nothing a caller was
      refused for has changed the ledger, but for an allowed process prepared and not started. */
  lemma RefusedBecause(kind: Kind, t: Tables, inv: Invocation, lease: Lease, digest: string, now: U64, weather: Weather)
    requires Begin(kind, t, inv, lease, digest, now, weather).1.Refused?
    ensures var (u, begun) := Begin(kind, t, inv, lease, digest, now, weather);
            var fault := begun.fault;
            && (fault == Malformed <==>
                  || inv.turnId in t.linked || (kind == Process && !inv.wellFormed)
                  || (Admissible(kind, t, inv, lease) && inv.decision == None))
            && (fault == Denied <==> Admissible(kind, t, inv, lease) && inv.decision == Some(Deny))
            && (fault == InvalidApproval <==>
                  && inv.turnId !in t.linked && (kind == Process ==> inv.wellFormed)
                  && (!Admissible(kind, t, inv, lease) || (inv.decision == Some(Ask) && inv.approval.Some?)))
            && (u == t || fault.PermissionRequired? ||
                (&& kind == Process && inv.decision == Some(Allow) && fault.Sequencing?
                 && Adds(t, u, inv, lease, digest, Prepared, false)))
  {}

  /** Over any stretch of a run no effect disappears or goes back. */
  lemma {:induction false} RunMovesForward(digest: Binding -> string, w: World, events: seq<Event>)
    ensures Later(w.tables, Run(digest, w, events).tables)
  {
    if events != [] {
      var y := Run(digest, w, events[..|events| - 1]);
      RunMovesForward(digest, w, events[..|events| - 1]);
      NextMovesForward(digest, y, events[|events| - 1]);
      LaterChains(w.tables, y.tables, Run(digest, w, events).tables);
    }
  }

  lemma NextMovesForward(digest: Binding -> string, w: World, e: Event)
    ensures Later(w.tables, Next(digest, w, e).tables)
  {
    match e
    case Call(_, kind, inv, lease, now, weather, _) =>
      BeginMovesForward(kind, w.tables, inv, lease, digest(Bound(inv)), now, weather);
    case Record(c, now, _) =>
      if c in w.callers && w.callers[c].Ran? {
        SettlingMovesForward(w.tables, w.callers[c].authority, Recorded(w.callers[c].outcome), now);
      }
    case Reissue(oldId, inv, lease, now, _) =>
      ReplacingMovesForward(w.tables, oldId, inv.effectId, inv.turnId, inv.revision, inv.attempt,
                            digest(Bound(inv)), lease, now);
    case _ =>
  }

  /** A permission asked for again is abandoned under its old effect id: whatever happens
      later, no call is given authority for that id. */
  lemma ReissuedNeverStarts(digest: Binding -> string, w: World, e: Event, more: seq<Event>, kind: Kind,
                            inv: Invocation, lease: Lease, now: U64, weather: Weather)
    requires e.Reissue? && Next(digest, w, e) != w && inv.effectId == e.oldId
    ensures var z := Run(digest, Next(digest, w, e), more);
            !Begin(kind, z.tables, inv, lease, digest(Bound(inv)), now, weather).1.Go?
  {
    var z := Run(digest, Next(digest, w, e), more);
    RunMovesForward(digest, Next(digest, w, e), more);
    BeginMovesForward(kind, z.tables, inv, lease, digest(Bound(inv)), now, weather);
  }

  /** A reissue takes effect exactly when policy still asks, the turn is two revisions before
      the one asked for under the caller's live lease, and the old effect waits prepared and
      unused under another lease. The old one is closed, the new one bound as any asking is. */
  lemma ReissuesExactlyWhen(w: World, oldId: string, inv: Invocation, lease: Lease, digest: string, now: U64, up: bool)
    ensures var z, t := Reissued(w, oldId, inv, lease, digest, now, up), w.tables;
            && (z != w <==>
                  && inv.turnId !in t.linked && inv.decision == Some(Ask) && up
                  && InOrder(t, inv.turnId, Max(0, inv.revision - 2), lease, now)
                  && StillOpen(t, oldId, inv.turnId) && t.effects[oldId].turnId == inv.turnId
                  && (t.capabilities[oldId].owner != lease.owner || t.capabilities[oldId].token != lease.token)
                  && Unused(t.(capabilities := t.capabilities - {oldId}), inv.effectId, digest))
            && (z != w ==>
                  var closed := t.(effects := t.effects[oldId := t.effects[oldId].(status := ObservedFailed)],
                                   capabilities := t.capabilities - {oldId});
                  Adds(closed, z.tables, inv, lease, digest, Prepared, false)
                  && z.asked == w.asked[inv.effectId := Asking(Bound(inv), lease)])
  {
    var z := Reissued(w, oldId, inv, lease, digest, now, up);
    if z.tables != w.tables {
      assert inv.effectId !in w.tables.effects && inv.effectId in z.tables.effects;
    }
  }

  // ---------- what the record says of the execution ----------

  // The status that says how an execution ended: unknown for a tool that failed on a file or a
  // path, a cancelled process and one nobody could supervise; failed for any other tool error.
  predicate EndedAs(o: Outcome, status: Status) {
    && (status == Unknown <==>
          o in {ToolFailed(Io), ToolFailed(Path), ProcessEnded(Cancelled), SupervisionFailed})
    && (status == ObservedFailed <==> o == ToolFailed(OtherError))
    && (status == ObservedSuccess <==> o in {ToolOutput, ProcessEnded(Exited), ProcessEnded(TimedOut)})
  }

  // A settled row stays as it is; only an unknown one may still be reconciled.
  predicate Stands(settled: Status, status: Status) {
    status == settled || (settled == Unknown && status in {ObservedSuccess, ObservedFailed})
  }

  ghost predicate HasRun(executions: seq<Execution>, effectId: string, outcome: Outcome) {
    exists i :: 0 <= i < |executions| && executions[i].effectId == effectId && executions[i].outcome == outcome
  }

  ghost predicate SettledInv(w: World, id: string)
    requires id in w.settled
  {
    && id in w.tables.effects && Stands(w.settled[id], w.tables.effects[id].status)
    && exists o :: HasRun(w.executions, id, o) && EndedAs(o, w.settled[id])
  }

  ghost predicate CallerSettled(w: World, caller: Caller) {
    match caller
    case Authorized(_, _) => true
    case Ran(a, outcome) => HasRun(w.executions, a.effectId, outcome)
    case Returned(id, executed, reply) =>
      executed && !(reply.Refusal? && reply.fault.Sequencing?) ==>
        && id in w.settled && (reply == Output <==> w.settled[id] == ObservedSuccess)
        && (reply != Output ==> reply.fault.Executor? && HasRun(w.executions, id, reply.fault.outcome))
  }

  ghost predicate RecordInv(w: World) {
    && (forall id :: id in w.settled ==> SettledInv(w, id))
    && (forall c :: c in w.callers ==> CallerSettled(w, w.callers[c]))
  }

  // How an execution ended is never a status before its end.
  lemma SettledIsPastStarted(w: World, id: string)
    requires id in w.settled && SettledInv(w, id)
    ensures Rank(w.settled[id]) > Rank(Started) && w.tables.effects[id].status != Started
  {
    var o :| HasRun(w.executions, id, o) && EndedAs(o, w.settled[id]);
    match o
    case ToolFailed(error) => assert error == Io || error == Path || error == OtherError;
    case ProcessEnded(termination) =>
      assert termination == Exited || termination == TimedOut || termination == Cancelled;
    case _ =>
  }

  lemma StandsOnward(settled: Status, before: Effect, after: Effect)
    requires Stands(settled, before.status) && Onward(before, after) && Rank(settled) > Rank(Started)
    ensures Stands(settled, after.status)
  {}

  // Other writers, and calls that have not run the executor.
  lemma QuietKeepsRecord(w: World, z: World)
    requires RecordInv(w) && Later(w.tables, z.tables)
    requires z.executions == w.executions && z.settled == w.settled
    requires forall c :: c in z.callers ==> (c in w.callers && z.callers[c] == w.callers[c]) ||
                                            z.callers[c].Authorized? ||
                                            (z.callers[c].Returned? && !z.callers[c].executed)
    ensures RecordInv(z)
  {
    forall id | id in z.settled ensures SettledInv(z, id) {
      assert SettledInv(w, id);
      SettledIsPastStarted(w, id);
      StandsOnward(w.settled[id], w.tables.effects[id], z.tables.effects[id]);
    }
    forall c | c in z.callers ensures CallerSettled(z, z.callers[c]) {
      if c in w.callers && z.callers[c] == w.callers[c] {
        assert CallerSettled(w, w.callers[c]);
      }
    }
  }

  lemma HasRunGrows(executions: seq<Execution>, e: Execution, id: string, o: Outcome)
    ensures HasRun(executions, id, o) ==> HasRun(executions + [e], id, o)
    ensures HasRun(executions + [e], e.effectId, e.outcome)
  {
    var more := executions + [e];
    assert more[|executions|] == e;
    assert forall i :: 0 <= i < |executions| ==> more[i] == executions[i];
  }

  lemma ExecuteKeepsRecord(digest: Binding -> string, w: World, c: nat, outcome: Outcome)
    requires RecordInv(w) && c in w.callers && w.callers[c].Authorized?
    ensures RecordInv(Next(digest, w, Execute(c, outcome)))
  {
    var z := Next(digest, w, Execute(c, outcome));
    var e := z.executions[|w.executions|];
    forall id | id in z.settled ensures SettledInv(z, id) {
      assert SettledInv(w, id);
      var o :| HasRun(w.executions, id, o) && EndedAs(o, w.settled[id]);
      HasRunGrows(w.executions, e, id, o);
    }
    forall d | d in z.callers ensures CallerSettled(z, z.callers[d]) {
      if d == c {
        HasRunGrows(w.executions, e, e.effectId, outcome);
      } else {
        assert CallerSettled(w, w.callers[d]);
        CallerSettledGrows(w, z, w.callers[d], e);
      }
    }
  }

  lemma CallerSettledGrows(w: World, z: World, caller: Caller, e: Execution)
    requires CallerSettled(w, caller) && z.executions == w.executions + [e] && z.settled == w.settled
    ensures CallerSettled(z, caller)
  {
    match caller
    case Ran(a, outcome) => HasRunGrows(w.executions, e, a.effectId, outcome);
    case Returned(id, _, reply) =>
      if reply.Refusal? && reply.fault.Executor? {
        HasRunGrows(w.executions, e, id, reply.fault.outcome);
      }
    case _ =>
  }

  // What one record leaves.
  lemma FinishEndsAs(t: Tables, a: Authority, outcome: Outcome, now: U64, up: bool)
    ensures var (u, reply) := Finish(t, a, outcome, now, up);
            if reply.Refusal? && reply.fault.Sequencing? then u == t
            else
              && a.effectId in t.effects && t.effects[a.effectId].status == Started
              && a.effectId in u.effects && EndedAs(outcome, u.effects[a.effectId].status)
              && (reply == Output <==> u.effects[a.effectId].status == ObservedSuccess)
              && (reply != Output ==> reply == Refusal(Executor(outcome)))
              && Later(t, u) && forall id :: id in t.effects && id != a.effectId ==> u.effects[id] == t.effects[id]
  {}

  lemma RecordKeepsRecord(digest: Binding -> string, w: World, c: nat, now: U64, up: bool)
    requires RecordInv(w) && c in w.callers && w.callers[c].Ran?
    ensures RecordInv(Next(digest, w, Record(c, now, up)))
  {
    var z := Next(digest, w, Record(c, now, up));
    var Ran(a, outcome) := w.callers[c];
    FinishEndsAs(w.tables, a, outcome, now, up);
    assert CallerSettled(w, w.callers[c]);
    forall id | id in z.settled ensures SettledInv(z, id) {
      if id in w.settled {
        assert SettledInv(w, id);
      }
    }
    forall d | d in z.callers ensures CallerSettled(z, z.callers[d]) {
      if d != c {
        assert CallerSettled(w, w.callers[d]);
        ReturnedStaysSettled(w, z, w.callers[d], a.effectId);
      }
    }
  }

  // Nothing that was settled is settled again: its row is no longer started.
  lemma ReturnedStaysSettled(w: World, z: World, caller: Caller, effectId: string)
    requires RecordInv(w) && CallerSettled(w, caller) && z.executions == w.executions
    requires z.settled == w.settled || (effectId in w.tables.effects && w.tables.effects[effectId].status == Started)
    requires forall id :: id in w.settled && id != effectId ==> id in z.settled && z.settled[id] == w.settled[id]
    ensures CallerSettled(z, caller)
  {
    if effectId in w.settled {
      SettledIsPastStarted(w, effectId);
    }
  }

  lemma NextKeepsRecord(digest: Binding -> string, w: World, e: Event)
    requires RecordInv(w)
    ensures RecordInv(Next(digest, w, e))
  {
    var z := Next(digest, w, e);
    match e
    case Call(c, kind, inv, lease, now, weather, _) =>
      if Free(w, c) {
        BeginMovesForward(kind, w.tables, inv, lease, digest(Bound(inv)), now, weather);
        QuietKeepsRecord(w, z);
      }
    case Execute(c, outcome) =>
      if c in w.callers && w.callers[c].Authorized? {
        ExecuteKeepsRecord(digest, w, c, outcome);
      }
    case Record(c, now, up) =>
      if c in w.callers && w.callers[c].Ran? {
        RecordKeepsRecord(digest, w, c, now, up);
      }
    case Reissue(oldId, inv, lease, now, up) =>
      ReplacingMovesForward(w.tables, oldId, inv.effectId, inv.turnId, inv.revision, inv.attempt,
                            digest(Bound(inv)), lease, now);
      QuietKeepsRecord(w, z);
    case _ => QuietKeepsRecord(w, z);
  }

  lemma {:induction false} RunKeepsRecord(digest: Binding -> string, tables: Tables, events: seq<Event>)
    ensures RecordInv(Run(digest, Idle(tables), events))
  {
    if events != [] {
      RunKeepsRecord(digest, tables, events[..|events| - 1]);
      NextKeepsRecord(digest, Run(digest, Idle(tables), events[..|events| - 1]), events[|events| - 1]);
    }
  }

  // ---------- the main results ----------

  /** However calls, retries, crashes, recoveries and other processes interleave, no effect
      id reaches the executor twice, and each one that does was started under the digest of
      exactly the operation executed. */
  lemma AtMostOnce(digest: Binding -> string, tables: Tables, events: seq<Event>)
    ensures var w := Run(digest, Idle(tables), events);
            && (forall i, j :: 0 <= i < j < |w.executions| ==>
                  w.executions[i].effectId != w.executions[j].effectId)
            && (forall i :: 0 <= i < |w.executions| ==>
                  StartedUnder(digest, w.tables, w.executions[i].effectId, w.executions[i].binding))
  {
    RunKeepsInv(digest, tables, events);
  }

  /** A call that went through the executor and could write its record leaves no started row
      behind. It answers with output exactly when success was recorded, and otherwise with
      how the one execution of its effect ended. */
  lemma WhatTheReplyMeans(digest: Binding -> string, tables: Tables, events: seq<Event>, c: nat)
    requires c in Run(digest, Idle(tables), events).callers
    requires Run(digest, Idle(tables), events).callers[c].Returned?
    ensures var w := Run(digest, Idle(tables), events);
            var Returned(effectId, executed, reply) := w.callers[c];
            executed && !(reply.Refusal? && reply.fault.Sequencing?) ==>
              && effectId in w.tables.effects
              && w.tables.effects[effectId].status !in {Prepared, Started}
              && (reply == Output ==> w.tables.effects[effectId].status == ObservedSuccess)
              && effectId in w.settled && (reply == Output <==> w.settled[effectId] == ObservedSuccess)
              && (reply != Output ==> reply.fault.Executor? && HasRun(w.executions, effectId, reply.fault.outcome))
  {
    RunKeepsInv(digest, tables, events);
    RunKeepsRecord(digest, tables, events);
    var w := Run(digest, Idle(tables), events);
    assert CallerInv(digest, w, w.callers[c]) && CallerSettled(w, w.callers[c]);
  }

  /**
   What the gate recorded of an effect is how its one execution ended: unknown for a tool that
   failed on a file or a path, a cancelled process and a failed supervision, failed for any
   other tool error, success for the rest. What it settled as failed was never executed with
   an uncertain end. The row stays so, unless an unknown one is reconciled.
   */
  lemma RecordedAsItEnded(digest: Binding -> string, tables: Tables, events: seq<Event>, id: string)
    requires id in Run(digest, Idle(tables), events).settled
    ensures var w := Run(digest, Idle(tables), events);
            && id in w.tables.effects && Stands(w.settled[id], w.tables.effects[id].status)
            && (exists i :: 0 <= i < |w.executions| && w.executions[i].effectId == id)
            && forall i :: 0 <= i < |w.executions| && w.executions[i].effectId == id ==>
                 var o := w.executions[i].outcome;
                 && (w.settled[id] == Unknown <==>
                       o in {ToolFailed(Io), ToolFailed(Path), ProcessEnded(Cancelled), SupervisionFailed})
                 && (w.settled[id] == ObservedFailed <==> o == ToolFailed(OtherError))
                 && (w.settled[id] == ObservedSuccess <==>
                       o in {ToolOutput, ProcessEnded(Exited), ProcessEnded(TimedOut)})
  {
    AtMostOnce(digest, tables, events);
    RunKeepsRecord(digest, tables, events);
    var w := Run(digest, Idle(tables), events);
    assert SettledInv(w, id);
    var o :| HasRun(w.executions, id, o) && EndedAs(o, w.settled[id]);
    var k :| 0 <= k < |w.executions| && w.executions[k].effectId == id && w.executions[k].outcome == o;
    forall i | 0 <= i < |w.executions| && w.executions[i].effectId == id ensures i == k {
      OnlyOnce(w.executions, i, k);
    }
  }

  lemma OnlyOnce(executions: seq<Execution>, i: nat, k: nat)
    requires forall i, j :: 0 <= i < j < |executions| ==> executions[i].effectId != executions[j].effectId
    requires i < |executions| && k < |executions| && executions[i].effectId == executions[k].effectId
    ensures i == k
  {}

  /** When the record of an outcome is refused: exactly when recovery got there first, the
      lease has gone, the turn has moved on, or the row is another turn's. Otherwise the row says what happened. */
  lemma WhenTheRecordIsLost(digest: Binding -> string, tables: Tables, events: seq<Event>, c: nat, now: U64)
    requires c in Run(digest, Idle(tables), events).callers
    requires Run(digest, Idle(tables), events).callers[c].Ran?
    ensures var w := Run(digest, Idle(tables), events);
            var Ran(a, outcome) := w.callers[c];
            var z := Next(digest, w, Record(c, now, true));
            && a.effectId in w.tables.effects && a.effectId in z.tables.effects
            && if w.tables.effects[a.effectId].status == Started && w.tables.effects[a.effectId].turnId == a.turnId
                  && InOrder(w.tables, a.turnId, a.revision, a.lease, now)
               then
                 && EndedAs(outcome, z.tables.effects[a.effectId].status)
                 && z.callers[c].reply == (if z.tables.effects[a.effectId].status == ObservedSuccess then Output
                                           else Refusal(Executor(outcome)))
                 && z.tables == w.tables.(effects := w.tables.effects[a.effectId :=
                      w.tables.effects[a.effectId].(status := z.tables.effects[a.effectId].status)])
               else z.callers[c].reply == Refusal(Sequencing(Fenced)) && z.tables == w.tables
  {
    RunKeepsInv(digest, tables, events);
    var w := Run(digest, Idle(tables), events);
    assert CallerInv(digest, w, w.callers[c]);
  }

  // ---------- asked for, then started ----------

  // Policy is a function of the operation; preparing it may also fail.
  predicate Honest(policy: string -> Decision, e: Event) {
    && (e.Call? ==> e.inv.decision == None || e.inv.decision == Some(policy(e.inv.operation)))
    && (e.Reissue? ==> e.inv.decision == None || e.inv.decision == Some(policy(e.inv.operation)))
  }

  ghost predicate AllHonest(policy: string -> Decision, events: seq<Event>) {
    forall i :: 0 <= i < |events| ==> Honest(policy, events[i])
  }

  // Made for an operation that needs no permission.
  ghost predicate MadeUnasked(digest: Binding -> string, policy: string -> Decision, c: Capability) {
    exists b :: c.digest == digest(b) && policy(b.operation) == Allow
  }

  predicate MadeFor(digest: Binding -> string, c: Capability, a: Asking) {
    && c.digest == digest(a.binding) && c.revision == a.binding.revision
    && c.owner == a.lease.owner && c.token == a.lease.token && a.lease.scope == RUNTIME_SCOPE
  }

  ghost predicate CapabilityInv(digest: Binding -> string, policy: string -> Decision, w: World, id: string)
    requires id in w.tables.capabilities
  {
    var c := w.tables.capabilities[id];
    || c.turnId in w.tables.linked
    || (if id in w.asked then MadeFor(digest, c, w.asked[id]) else MadeUnasked(digest, policy, c))
  }

  ghost predicate AskedInv(digest: Binding -> string, policy: string -> Decision, w: World) {
    && (forall id :: id in w.asked ==> id in w.tables.effects)
    && forall id :: id in w.tables.capabilities ==> CapabilityInv(digest, policy, w, id)
  }

  // A writer that makes no capability for an unlinked turn.
  lemma SteadyKeepsAsked(digest: Binding -> string, policy: string -> Decision, w: World, z: World)
    requires AskedInv(digest, policy, w) && Steady(w.tables, z.tables) && z.asked == w.asked
    ensures AskedInv(digest, policy, z)
  {
    forall id | id in z.tables.capabilities ensures CapabilityInv(digest, policy, z, id) {
      if z.tables.capabilities[id].turnId !in z.tables.linked {
        assert CapabilityInv(digest, policy, w, id);
      }
    }
  }

  // One new effect and its capability.
  lemma InsertKeepsAsked(digest: Binding -> string, policy: string -> Decision, w: World, z: World,
                         id: string, effect: Effect, c: Capability)
    requires AskedInv(digest, policy, w) && id !in w.tables.effects && id !in w.tables.capabilities
    requires z.tables == Inserted(w.tables, id, effect, c)
    requires if z.asked == w.asked then MadeUnasked(digest, policy, c)
             else id in z.asked && z.asked == w.asked[id := z.asked[id]] && MadeFor(digest, c, z.asked[id])
    ensures AskedInv(digest, policy, z)
  {
    forall other | other in z.tables.capabilities ensures CapabilityInv(digest, policy, z, other) {
      if other != id {
        assert CapabilityInv(digest, policy, w, other);
      }
    }
  }

  lemma StartIsSteady(t: Tables, id: string, turnId: Id, revision: U64, lease: Lease, digest: string, now: U64)
    ensures var r := ConsumeAndStart(t, id, turnId, revision, lease, digest, now);
            r.Ok? ==> Steady(t, r.value.0)
  {}

  lemma SettlingIsSteady(t: Tables, a: Authority, status: Status, now: U64)
    requires Rank(status) > Rank(Started)
    ensures var r := Settle(t, a, status, now); r.Ok? ==> Steady(t, r.value)
  {}

  lemma AskFirstKeepsAsked(digest: Binding -> string, policy: string -> Decision, w: World, z: World,
                           inv: Invocation, lease: Lease, now: U64, up: bool)
    requires AskedInv(digest, policy, w)
    requires var (t, begun) := AskFirst(w.tables, inv, lease, digest(Bound(inv)), now, up);
             z.tables == t && z.asked == AskedAfter(w.asked, inv, lease, begun)
    ensures AskedInv(digest, policy, z)
  {
    var created := CreatePrepared(w.tables, inv.effectId, inv.turnId, Less(inv.revision, 2), inv.revision,
                                  inv.attempt, digest(Bound(inv)), lease, now);
    if up && created.Ok? {
      assert inv.effectId !in w.asked;
      InsertKeepsAsked(digest, policy, w, z, inv.effectId,
                       Effect(inv.turnId, Prepared, inv.attempt, digest(Bound(inv))),
                       Capability(inv.turnId, inv.revision, lease.owner, lease.token, digest(Bound(inv)), false));
    } else {
      SteadyKeepsAsked(digest, policy, w, z);
    }
  }

  lemma AllowedKeepsAsked(digest: Binding -> string, policy: string -> Decision, w: World, z: World,
                          inv: Invocation, lease: Lease, now: U64, weather: Weather)
    requires AskedInv(digest, policy, w) && policy(inv.operation) == Allow
    requires z.tables == StartAllowed(w.tables, inv, lease, digest(Bound(inv)), now, weather).0 && z.asked == w.asked
    ensures AskedInv(digest, policy, z)
  {
    var d := digest(Bound(inv));
    var created := CreatePrepared(w.tables, inv.effectId, inv.turnId, inv.revision, inv.revision,
                                  inv.attempt, d, lease, now);
    if weather.first && created.Ok? {
      var middle := w.(tables := created.value);
      var c := Capability(inv.turnId, inv.revision, lease.owner, lease.token, d, false);
      assert MadeUnasked(digest, policy, c) by {
        assert c.digest == digest(Bound(inv)) && policy(Bound(inv).operation) == Allow;
      }
      InsertKeepsAsked(digest, policy, w, middle, inv.effectId, Effect(inv.turnId, Prepared, inv.attempt, d), c);
      StartIsSteady(middle.tables, inv.effectId, inv.turnId, inv.revision, lease, d, now);
      SteadyKeepsAsked(digest, policy, middle, z);
    } else {
      SteadyKeepsAsked(digest, policy, w, z);
    }
  }

  lemma CallKeepsAsked(digest: Binding -> string, policy: string -> Decision, w: World, e: Event)
    requires AskedInv(digest, policy, w) && e.Call? && Honest(policy, e)
    ensures AskedInv(digest, policy, Next(digest, w, e))
  {
    var z, inv := Next(digest, w, e), e.inv;
    if z.tables == w.tables && z.asked == w.asked {
      SteadyKeepsAsked(digest, policy, w, z);
    } else if inv.decision == Some(Ask) && inv.approval == None {
      AskFirstKeepsAsked(digest, policy, w, z, inv, e.lease, e.now, e.weather.first);
    } else if inv.decision == Some(Ask) {
      StartIsSteady(w.tables, inv.effectId, inv.turnId, inv.revision, e.lease, digest(Bound(inv)), e.now);
      SteadyKeepsAsked(digest, policy, w, z);
    } else {
      AllowedKeepsAsked(digest, policy, w, z, inv, e.lease, e.now, e.weather);
    }
  }

  lemma AbandonIsSteady(t: Tables, oldId: string)
    requires oldId in t.effects && t.effects[oldId].status == Prepared
    ensures Steady(t, t.(effects := t.effects[oldId := t.effects[oldId].(status := ObservedFailed)],
                         capabilities := t.capabilities - {oldId}))
  {}

  lemma ReissueKeepsAsked(digest: Binding -> string, policy: string -> Decision, w: World, e: Event)
    requires AskedInv(digest, policy, w) && e.Reissue?
    ensures AskedInv(digest, policy, Next(digest, w, e))
  {
    var z, t, inv := Next(digest, w, e), w.tables, e.inv;
    if z == w {
      SteadyKeepsAsked(digest, policy, w, z);
    } else {
      var d := digest(Bound(inv));
      var abandoned := t.(effects := t.effects[e.oldId := t.effects[e.oldId].(status := ObservedFailed)],
                          capabilities := t.capabilities - {e.oldId});
      AbandonIsSteady(t, e.oldId);
      SteadyKeepsAsked(digest, policy, w, w.(tables := abandoned));
      assert inv.effectId !in w.asked;
      InsertKeepsAsked(digest, policy, w.(tables := abandoned), z, inv.effectId,
                       Effect(inv.turnId, Prepared, inv.attempt, d),
                       Capability(inv.turnId, inv.revision, e.lease.owner, e.lease.token, d, false));
    }
  }

  lemma NextKeepsAsked(digest: Binding -> string, policy: string -> Decision, w: World, e: Event)
    requires AskedInv(digest, policy, w) && Honest(policy, e)
    ensures AskedInv(digest, policy, Next(digest, w, e))
  {
    var z := Next(digest, w, e);
    match e
    case Call(_, _, _, _, _, _, _) => CallKeepsAsked(digest, policy, w, e);
    case Reissue(_, _, _, _, _) => ReissueKeepsAsked(digest, policy, w, e);
    case Record(c, now, _) =>
      if c in w.callers && w.callers[c].Ran? {
        SettlingIsSteady(w.tables, w.callers[c].authority, Recorded(w.callers[c].outcome), now);
      }
      SteadyKeepsAsked(digest, policy, w, z);
    case _ => SteadyKeepsAsked(digest, policy, w, z);
  }

  // No unlinked turn has a capability before anybody has called.
  predicate Unasked(tables: Tables) {
    forall id :: id in tables.capabilities ==> tables.capabilities[id].turnId in tables.linked
  }

  lemma {:induction false} RunKeepsAsked(digest: Binding -> string, policy: string -> Decision, tables: Tables,
                                         events: seq<Event>)
    requires Unasked(tables) && AllHonest(policy, events)
    ensures AskedInv(digest, policy, Run(digest, Idle(tables), events))
  {
    if events != [] {
      var n := |events| - 1;
      assert forall i :: 0 <= i < n ==> events[..n][i] == events[i];
      RunKeepsAsked(digest, policy, tables, events[..n]);
      NextKeepsAsked(digest, policy, Run(digest, Idle(tables), events[..n]), events[n]);
    }
  }

  // The effect still waits for its start, and its capability is unused.
  predicate StillOpen(t: Tables, id: string, turnId: Id) {
    && id in t.capabilities && t.capabilities[id].turnId == turnId && !t.capabilities[id].consumed
    && id in t.effects && t.effects[id].status == Prepared && t.effects[id].digest == t.capabilities[id].digest
  }

  /**
   Over every run, for tools and processes: what must be asked for is given authority
   exactly when the permission asked for last under its effect id was for this very form
   and this lease, is still open, and the approval, the turn, the lease and the database
   are in order.
   */
  lemma AskedThenStarted(digest: Binding -> string, policy: string -> Decision, tables: Tables, events: seq<Event>,
                         e: Event)
    requires forall a, b :: digest(a) == digest(b) ==> a == b
    requires Unasked(tables) && AllHonest(policy, events)
    requires e.Call? && Honest(policy, e) && e.inv.decision == Some(Ask)
    ensures var w, inv := Run(digest, Idle(tables), events), e.inv;
            Begin(e.kind, w.tables, inv, e.lease, digest(Bound(inv)), e.now, e.weather).1.Go? <==>
              && inv.effectId in w.asked && w.asked[inv.effectId].lease == e.lease
              && w.asked[inv.effectId].binding ==
                 Binding(inv.operation, inv.revision, inv.effectId, inv.attempt, inv.owner, inv.token)
              && StillOpen(w.tables, inv.effectId, inv.turnId)
              && inv.approval == Some(digest(Bound(inv)))
              && Admissible(e.kind, w.tables, inv, e.lease)
              && InOrder(w.tables, inv.turnId, inv.revision, e.lease, e.now) && e.weather.first
  {
    RunKeepsAsked(digest, policy, tables, events);
    var w, inv := Run(digest, Idle(tables), events), e.inv;
    var id, d := inv.effectId, digest(Bound(inv));
    if id in w.tables.capabilities {
      assert CapabilityInv(digest, policy, w, id);
      OnlyAsAsked(digest, policy, w, inv, e.lease);
    }
  }

  // A capability whose digest is that of an operation to be asked for was asked for.
  lemma OnlyAsAsked(digest: Binding -> string, policy: string -> Decision, w: World, inv: Invocation, lease: Lease)
    requires forall a, b :: digest(a) == digest(b) ==> a == b
    requires policy(inv.operation) == Ask
    requires inv.effectId in w.tables.capabilities && CapabilityInv(digest, policy, w, inv.effectId)
    ensures var c := w.tables.capabilities[inv.effectId];
            c.turnId !in w.tables.linked && c.digest == digest(Bound(inv)) ==>
              && inv.effectId in w.asked && w.asked[inv.effectId].binding == Bound(inv)
              && w.asked[inv.effectId].lease == Lease(RUNTIME_SCOPE, c.owner, c.token)
  {
    var c := w.tables.capabilities[inv.effectId];
    if c.digest == digest(Bound(inv)) {
      forall b | c.digest == digest(b) ensures policy(b.operation) == Ask {
        assert b == Bound(inv);
      }
    }
  }

  // ---------- one call, in the order the engine makes it ----------

  // What the executor and everyone else do during a call.
  datatype Surroundings = Surroundings(outcome: Outcome, between: Tables -> Tables, finishNow: U64)

  // The machine events one uninterrupted call amounts to.
  function CallEvents(digest: Binding -> string, t: Tables, kind: Kind, inv: Invocation, lease: Lease, now: U64,
                      weather: Weather, around: Surroundings): seq<Event> {
    var (u, begun) := Begin(kind, t, inv, lease, digest(Bound(inv)), now, weather);
    var call := Call(0, kind, inv, lease, now, weather, around.outcome);
    if begun.Go?
    then [call, Execute(0, around.outcome), Others(around.between(u)), Record(0, around.finishNow, weather.last)]
    else [call]
  }

  // The executor is reached at most once, with the operation called; then how it ended is on
  // record, unless the ledger refused to record it.
  ghost predicate OnceOnRecord(before: seq<Execution>, after: seq<Execution>, t: Tables, inv: Invocation,
                               outcome: Outcome, r: Reply) {
    || after == before
    || (&& after == before + [Execution(inv.effectId, Bound(inv), outcome)]
        && (!(r.Refusal? && r.fault.Sequencing?) ==>
              && inv.effectId in t.effects && EndedAs(outcome, t.effects[inv.effectId].status)
              && (r == Output <==> t.effects[inv.effectId].status == ObservedSuccess)))
  }

  class Gate {
    const digest: Binding -> string
    var tables: Tables
    var executions: seq<Execution>
    ghost var asked: map<string, Asking>
    ghost var settled: map<string, Status>

    constructor (digest: Binding -> string, tables: Tables)
      ensures this.digest == digest && this.tables == tables && executions == []
      ensures asked == map[] && settled == map[]
    {
      this.digest, this.tables, this.executions, this.asked, this.settled := digest, tables, [], map[], map[];
    }

    ghost function AsWorld(): World reads this {
      World(tables, map[], executions, asked, settled)
    }

    method WriteRecord(a: Authority, outcome: Outcome, now: U64, up: bool) returns (r: Reply)
      modifies this`tables, this`settled
      ensures (tables, r) == Finish(old(tables), a, outcome, now, up)
      ensures settled == SettledAfter(old(settled), tables, a.effectId, r)
      ensures if r.Refusal? && r.fault.Sequencing? then tables == old(tables)
              else
                && a.effectId in old(tables).effects
                && old(tables).effects[a.effectId] == Effect(a.turnId, Started, a.attempt, a.digest)
                && a.effectId in tables.effects && EndedAs(outcome, tables.effects[a.effectId].status)
                && tables == old(tables).(effects := old(tables).effects[a.effectId :=
                     Effect(a.turnId, tables.effects[a.effectId].status, a.attempt, a.digest)])
                && (r == Output <==> tables.effects[a.effectId].status == ObservedSuccess)
    {
      var recorded := Through(up, Settle(tables, a, Recorded(outcome), now));
      if recorded.Err? {
        return Refusal(Sequencing(recorded.error));
      }
      tables := recorded.value;
      r := Plain(outcome);
      settled := settled[a.effectId := tables.effects[a.effectId].status];
    }

    // Without an approval: prepares the effect and asks.
    method AskPermission(inv: Invocation, lease: Lease, exact: string, now: U64, up: bool) returns (r: Reply)
      modifies this`tables, this`asked
      ensures var (t, begun) := AskFirst(old(tables), inv, lease, exact, now, up);
              && tables == t && asked == AskedAfter(old(asked), inv, lease, begun)
              && begun.Refused? && r == Refusal(begun.fault)
    {
      var created := Through(up, CreatePrepared(tables, inv.effectId, inv.turnId, Less(inv.revision, 2),
                                                inv.revision, inv.attempt, exact, lease, now));
      if created.Err? {
        return Refusal(Sequencing(created.error));
      }
      tables := created.value;
      asked := asked[inv.effectId := Asking(Bound(inv), lease)];
      r := Refusal(PermissionRequired(exact));
    }

    // With an approval: it must be the exact digest, and it is used up.
    method ConsumeApproval(inv: Invocation, lease: Lease, exact: string, now: U64, up: bool) returns (begun: Begun)
      modifies this`tables
      ensures (tables, begun) == StartApproved(old(tables), inv, lease, exact, now, up)
      ensures begun.Refused? || begun.Go?
    {
      if inv.approval != Some(exact) {
        return Refused(InvalidApproval);
      }
      var started := Through(up, ConsumeAndStart(tables, inv.effectId, inv.turnId, inv.revision, lease, exact, now));
      if started.Err? {
        return Refused(InvalidApproval);
      }
      tables := started.value.0;
      begun := Go(started.value.1);
    }

    // An allowed process: prepared, then started.
    method PrepareAndStart(inv: Invocation, lease: Lease, exact: string, now: U64, weather: Weather)
      returns (begun: Begun)
      modifies this`tables
      ensures (tables, begun) == StartAllowed(old(tables), inv, lease, exact, now, weather)
      ensures begun.Refused? || begun.Go?
    {
      var created := Through(weather.first, CreatePrepared(tables, inv.effectId, inv.turnId, inv.revision,
                                                           inv.revision, inv.attempt, exact, lease, now));
      if created.Err? {
        return Refused(Sequencing(created.error));
      }
      tables := created.value;
      var started := Through(weather.second,
                             ConsumeAndStart(tables, inv.effectId, inv.turnId, inv.revision, lease, exact, now));
      if started.Err? {
        return Refused(Sequencing(started.error));
      }
      tables := started.value.0;
      begun := Go(started.value.1);
    }

    // With authority: the executor, and meanwhile everyone else; then the record.
    method RunAndRecord(a: Authority, binding: Binding, around: Surroundings, up: bool) returns (r: Reply)
      modifies this`tables, this`executions, this`settled
      ensures (tables, r) == Finish(around.between(old(tables)), a, around.outcome, around.finishNow, up)
      ensures executions == old(executions) + [Execution(a.effectId, binding, around.outcome)]
      ensures settled == SettledAfter(old(settled), tables, a.effectId, r)
    {
      executions := executions + [Execution(a.effectId, binding, around.outcome)];
      tables := around.between(tables);
      r := WriteRecord(a, around.outcome, around.finishNow, up);
    }

    // `execute_tool`: a tool that needs no permission runs without the ledger.
    method ExecuteTool(inv: Invocation, lease: Lease, now: U64, weather: Weather, around: Surroundings)
      returns (r: Reply)
      requires forall t: Tables :: Steady(t, around.between(t))
      modifies this
      ensures var w := Run(digest, old(AsWorld()),
                           CallEvents(digest, old(tables), Tool, inv, lease, now, weather, around));
              && AsWorld() == w.(callers := map[])
              && 0 in w.callers && w.callers[0].Returned? && w.callers[0].reply == r
      ensures OnceOnRecord(old(executions), executions, tables, inv, around.outcome, r)
    {
      ghost var before := AsWorld();
      CallIsItsEvents(digest, before, Tool, inv, lease, now, weather, around);
      CallOnRecord(digest, before, Tool, inv, lease, now, weather, around);
      if inv.turnId in tables.linked {
        return Refusal(Malformed);
      }
      if lease.owner != inv.owner || lease.token != inv.token {
        return Refusal(InvalidApproval);
      }
      if inv.decision == None {
        return Refusal(Malformed);
      }
      var exact := digest(Bound(inv));
      match inv.decision.value {
        case Deny => return Refusal(Denied);
        case Allow => return Plain(around.outcome);
        case Ask =>
      }
      if inv.approval == None {
        r := AskPermission(inv, lease, exact, now, weather.first);
        return;
      }
      var begun := ConsumeApproval(inv, lease, exact, now, weather.first);
      if begun.Refused? {
        return Refusal(begun.fault);
      }
      r := RunAndRecord(begun.authority, Bound(inv), around, weather.last);
    }

    // `execute_process_inner`: even an allowed process is prepared and started first.
    method ExecuteProcess(inv: Invocation, lease: Lease, now: U64, weather: Weather, around: Surroundings)
      returns (r: Reply)
      requires forall t: Tables :: Steady(t, around.between(t))
      modifies this
      ensures var w := Run(digest, old(AsWorld()),
                           CallEvents(digest, old(tables), Process, inv, lease, now, weather, around));
              && AsWorld() == w.(callers := map[])
              && 0 in w.callers && w.callers[0].Returned? && w.callers[0].reply == r
      ensures OnceOnRecord(old(executions), executions, tables, inv, around.outcome, r)
    {
      ghost var before := AsWorld();
      CallIsItsEvents(digest, before, Process, inv, lease, now, weather, around);
      CallOnRecord(digest, before, Process, inv, lease, now, weather, around);
      if inv.turnId in tables.linked {
        return Refusal(Malformed);
      }
      if !inv.wellFormed {
        return Refusal(Malformed);
      }
      if lease.owner != inv.owner || lease.token != inv.token {
        return Refusal(InvalidApproval);
      }
      if inv.decision == None {
        return Refusal(Malformed);
      }
      var decision := inv.decision.value;
      if decision == Deny {
        return Refusal(Denied);
      }
      var exact := digest(Bound(inv));
      if decision == Ask && inv.approval == None {
        r := AskPermission(inv, lease, exact, now, weather.first);
        return;
      }
      var begun: Begun;
      if decision == Allow {
        begun := PrepareAndStart(inv, lease, exact, now, weather);
      } else {
        begun := ConsumeApproval(inv, lease, exact, now, weather.first);
      }
      if begun.Refused? {
        return Refusal(begun.fault);
      }
      r := RunAndRecord(begun.authority, Bound(inv), around, weather.last);
    }
  }

  lemma RunOne(digest: Binding -> string, w: World, a: Event)
    ensures Run(digest, w, [a]) == Next(digest, w, a)
  {
    var events := [a];
    assert events[..0] == [] && Run(digest, w, events[..0]) == w;
  }

  lemma RunMore(digest: Binding -> string, w: World, events: seq<Event>, a: Event)
    ensures Run(digest, w, events + [a]) == Next(digest, Run(digest, w, events), a)
  {
    assert (events + [a])[..|events|] == events;
  }

  lemma RunFour(digest: Binding -> string, w: World, a: Event, b: Event, c: Event, d: Event)
    ensures Run(digest, w, [a, b, c, d]) == Next(digest, Next(digest, Next(digest, Next(digest, w, a), b), c), d)
  {
    RunOne(digest, w, a);
    RunMore(digest, w, [a], b);
    RunMore(digest, w, [a, b], c);
    RunMore(digest, w, [a, b, c], d);
    assert [a] + [b] == [a, b] && [a, b] + [c] == [a, b, c] && [a, b, c] + [d] == [a, b, c, d];
  }

  // Once a caller has authority: the executor, the others, the record.
  lemma AuthorityIsUsed(digest: Binding -> string, w: World, a: Authority, binding: Binding, outcome: Outcome,
                        others: Tables, now: U64, up: bool)
    requires 0 in w.callers && w.callers[0] == Authorized(a, binding) && Steady(w.tables, others)
    ensures var ran := Next(digest, Next(digest, w, Execute(0, outcome)), Others(others));
            var z := Next(digest, ran, Record(0, now, up));
            && 0 in z.callers && z.callers[0].Returned? && z.asked == w.asked
            && z.settled == SettledAfter(w.settled, z.tables, a.effectId, z.callers[0].reply)
            && (z.tables, z.callers[0].reply) == Finish(others, a, outcome, now, up)
            && z.executions == w.executions + [Execution(a.effectId, binding, outcome)]
  {}

  lemma CallBegins(digest: Binding -> string, w: World, e: Event)
    requires w.callers == map[] && e.Call? && e.c == 0
    ensures var (u, begun) := Begin(e.kind, w.tables, e.inv, e.lease, digest(Bound(e.inv)), e.now, e.weather);
            Next(digest, w, e) == World(u, map[0 := AfterBegin(begun, e.inv, e.bare)], w.executions,
                                        AskedAfter(w.asked, e.inv, e.lease, begun), w.settled)
  {}

  // Where one call's events lead.
  lemma CallIsItsEvents(digest: Binding -> string, w: World, kind: Kind, inv: Invocation, lease: Lease, now: U64,
                        weather: Weather, around: Surroundings)
    requires w.callers == map[]
    requires forall t: Tables :: Steady(t, around.between(t))
    ensures var (u, begun) := Begin(kind, w.tables, inv, lease, digest(Bound(inv)), now, weather);
            var z := Run(digest, w, CallEvents(digest, w.tables, kind, inv, lease, now, weather, around));
            && 0 in z.callers && z.callers[0].Returned? && z.asked == AskedAfter(w.asked, inv, lease, begun)
            && if begun.Go? then
                 && (z.tables, z.callers[0].reply) ==
                    Finish(around.between(u), begun.authority, around.outcome, around.finishNow, weather.last)
                 && z.executions == w.executions + [Execution(begun.authority.effectId, Bound(inv), around.outcome)]
                 && begun.authority.effectId == inv.effectId
                 && z.settled == SettledAfter(w.settled, z.tables, inv.effectId, z.callers[0].reply)
               else
                 && z.tables == u && z.executions == w.executions && z.settled == w.settled
                 && z.callers[0].reply == (if begun.Unledgered? then Plain(around.outcome) else Refusal(begun.fault))
  {
    var (u, begun) := Begin(kind, w.tables, inv, lease, digest(Bound(inv)), now, weather);
    var call := Call(0, kind, inv, lease, now, weather, around.outcome);
    BeginMovesForward(kind, w.tables, inv, lease, digest(Bound(inv)), now, weather);
    CallBegins(digest, w, call);
    if begun.Go? {
      var others := around.between(u);
      RunFour(digest, w, call, Execute(0, around.outcome), Others(others), Record(0, around.finishNow, weather.last));
      AuthorityIsUsed(digest, Next(digest, w, call), begun.authority, Bound(inv), around.outcome, others,
                      around.finishNow, weather.last);
    } else {
      RunOne(digest, w, call);
    }
  }

  lemma CallOnRecord(digest: Binding -> string, w: World, kind: Kind, inv: Invocation, lease: Lease, now: U64,
                     weather: Weather, around: Surroundings)
    requires w.callers == map[]
    requires forall t: Tables :: Steady(t, around.between(t))
    ensures var z := Run(digest, w, CallEvents(digest, w.tables, kind, inv, lease, now, weather, around));
            0 in z.callers && z.callers[0].Returned? &&
            OnceOnRecord(w.executions, z.executions, z.tables, inv, around.outcome, z.callers[0].reply)
  {
    var (u, begun) := Begin(kind, w.tables, inv, lease, digest(Bound(inv)), now, weather);
    CallIsItsEvents(digest, w, kind, inv, lease, now, weather, around);
    if begun.Go? {
      FinishEndsAs(around.between(u), begun.authority, around.outcome, around.finishNow, weather.last);
    }
  }
}
