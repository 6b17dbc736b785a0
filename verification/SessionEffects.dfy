/**
 Effects of a session turn: prepare, resolve the permission, start, observe. Each is one
 fenced commit; the digest is bound ahead to the revision the effect will start at.
 */
module SessionEffects {
  import opened Prelude
  import opened Transcript
  import Turns
  import L = Ledger

  datatype Policy = Allow | Ask

  datatype Descriptor = Descriptor(effectId: string, operation: string)

  datatype Binding = Binding(descriptor: Descriptor, revision: U64, owner: string, token: U64)

  /** What the engine brings along: its session's lease scope, the digest, the policy
      (None: denied or malformed), and the redaction of what it writes down. */
  datatype Engine = Engine(
    scope: string,
    digest: Binding -> string,
    policy: Descriptor -> Option<Policy>,
    redact: string -> string)
  {
    ghost predicate Injective() {
      forall a, b :: digest(a) == digest(b) ==> a == b
    }
  }

  datatype Row = Row(status: L.Status, digest: string, policy: Policy)

  datatype Capability = Capability(revision: U64, owner: string, token: U64, digest: string, consumed: bool)

  datatype Update =
    | PrepareEffect(descriptor: Descriptor, digest: string, policy: Policy)
    | ResolvePermission(requestId: string, allow: bool, rebound: Option<string>)
    | StartEffect(effectId: string, digest: string)
    | ObserveEffect(effectId: string, digest: string, success: bool)
    | UnknownEffect(effectId: string, digest: string)

  datatype Command = Command(id: Id, sourceKey: string, expectedSession: U64, expectedTurn: U64)

  datatype Request = Request(command: Command, update: Update)

  datatype Response = Response(sessionRevision: U64, turn: Turns.TurnState<Id>)

  datatype Error =
    | LeaseLost | ReplayMismatch | StaleSession | ActiveMismatch | StaleTurn
    | Invalid | Constraint | Fenced | Overflow

  /** One session with its active turn, as the tables hold it. */
  datatype State = State(
    turn: Turns.TurnState<Id>,
    turnToken: U64,
    activeToken: Option<U64>,
    sessionRevision: U64,
    lease: Option<L.LeaseRow>,
    rows: map<string, Row>,
    canonical: map<string, Descriptor>,
    capabilities: map<string, Capability>,
    commands: map<Id, (Request, Response)>,
    sources: map<string, Request>)

  predicate Live(s: State, lease: L.Lease, now: U64) {
    && s.lease.Some? && s.lease.value.owner == lease.owner && s.lease.value.token == lease.token
    && s.lease.value.expires > now
  }

  // ---------- the updates ----------

  function Moved(s: State, t: Turns.Transition): Result<Turns.TurnState<Id>, Error> {
    match Turns.Next(s.turn, s.turn.revision, t)
    case Ok(next) => Ok(next)
    case Err(_) => Err(Invalid)
  }

  predicate DigestFree(s: State, effectId: string, digest: string) {
    forall other :: other in s.capabilities && other != effectId ==> s.capabilities[other].digest != digest
  }

  function Prepare(eng: Engine, s: State, lease: L.Lease, d: Descriptor, digest: string,
                   policy: Policy): Result<State, Error>
  {
    if s.turn.status != Turns.Running then Err(Invalid)
    else if d.effectId in s.rows || d.effectId in s.canonical then Err(Constraint)
    else
      var prepared := s.(rows := s.rows[d.effectId := Row(L.Prepared, digest, policy)],
                         canonical := s.canonical[d.effectId := d]);
      if policy == Allow then Ok(prepared)
      else
        match Moved(s, Turns.RequestPermission(Turns.PendingPermission(
                         eng.redact(d.effectId), eng.redact(digest), eng.redact(d.operation))))
        case Err(e) => Err(e)
        case Ok(turn) =>
          if s.turn.revision + 2 >= U64_LIMIT then Err(Overflow)
          else if d.effectId in s.capabilities || !DigestFree(s, d.effectId, digest) then Err(Constraint)
          else
            Ok(prepared.(turn := turn,
                         capabilities := s.capabilities[d.effectId :=
                           Capability(s.turn.revision + 2, lease.owner, lease.token, digest, false)]))
  }

  // A capability that is still good for a prepared effect.
  predicate Pending(s: State, effectId: string) {
    && effectId in s.capabilities && !s.capabilities[effectId].consumed
    && effectId in s.rows && s.rows[effectId].status == L.Prepared
  }

  function Rebind(s: State, lease: L.Lease, requestId: string, rebound: Option<string>,
                  turn: Turns.TurnState<Id>): Result<State, Error>
  {
    if !Pending(s, requestId) then
      if rebound.Some? then Err(Invalid) else Ok(s.(turn := turn))
    else
      var c, row := s.capabilities[requestId], s.rows[requestId];
      if c.revision != turn.revision || c.digest != row.digest then Err(Invalid)
      else if rebound.None? then
        if c.owner != lease.owner || c.token != lease.token then Err(LeaseLost) else Ok(s.(turn := turn))
      else if !DigestFree(s, requestId, rebound.value) then Err(Constraint)
      else
        Ok(s.(turn := turn,
              rows := s.rows[requestId := row.(digest := rebound.value)],
              capabilities := s.capabilities[requestId :=
                c.(owner := lease.owner, token := lease.token, digest := rebound.value)]))
  }

  // A denied effect never crossed the boundary: it ends as not executed.
  function DenyPending(s: State, requestId: string, turn: Turns.TurnState<Id>): State {
    s.(turn := turn,
       rows := if requestId in s.rows && s.rows[requestId].status == L.Prepared
               then s.rows[requestId := s.rows[requestId].(status := L.ObservedFailed)] else s.rows,
       capabilities := if requestId in s.capabilities
                       then s.capabilities[requestId := s.capabilities[requestId].(consumed := true)]
                       else s.capabilities)
  }

  function Resolve(eng: Engine, s: State, lease: L.Lease, requestId: string, allow: bool,
                   rebound: Option<string>): Result<State, Error>
  {
    match Moved(s, Turns.ResolvePermission(eng.redact(requestId), allow))
    case Err(e) => Err(e)
    case Ok(turn) =>
      if allow then Rebind(s, lease, requestId, rebound, turn)
      else Ok(DenyPending(s, requestId, turn))
  }

  function Start(s: State, lease: L.Lease, effectId: string, digest: string): Result<State, Error> {
    if s.turn.status != Turns.Running || s.turn.pendingPermission.Some? || s.turn.pendingInput.Some? then Err(Invalid)
    else if effectId !in s.rows || s.rows[effectId].status != L.Prepared then Err(Invalid)
    else if s.rows[effectId].digest != digest then Err(Invalid)
    else
      var started := s.(rows := s.rows[effectId := s.rows[effectId].(status := L.Started)]);
      if effectId in s.capabilities then
        var c := s.capabilities[effectId];
        if c.revision != s.turn.revision || c.owner != lease.owner || c.token != lease.token || c.consumed
        then Err(Invalid)
        else Ok(started.(capabilities := s.capabilities[effectId := c.(consumed := true)]))
      else if s.rows[effectId].policy != Allow then Err(Invalid)
      else Ok(started)
  }

  function Settle(s: State, effectId: string, digest: string, status: L.Status): Result<State, Error> {
    if effectId in s.rows && s.rows[effectId].status == L.Started && s.rows[effectId].digest == digest
    then Ok(s.(rows := s.rows[effectId := s.rows[effectId].(status := status)]))
    else Err(Fenced)
  }

  function Observe(s: State, effectId: string, digest: string, success: bool): Result<State, Error> {
    if s.turn.status != Turns.Running then Err(Invalid)
    else Settle(s, effectId, digest, if success then L.ObservedSuccess else L.ObservedFailed)
  }

  // An uncertain outcome takes the turn through Cancel to Interrupted.
  function MarkUnknown(s: State, effectId: string, digest: string): Result<State, Error> {
    match Settle(s, effectId, digest, L.Unknown)
    case Err(e) => Err(e)
    case Ok(settled) =>
      match Turns.Next(s.turn, s.turn.revision, Turns.Cancel)
      case Err(_) => Err(Invalid)
      case Ok(cancelling) =>
        match Turns.Next(cancelling, cancelling.revision, Turns.Interrupt)
        case Err(_) => Err(Invalid)
        case Ok(interrupted) => Ok(settled.(turn := interrupted))
  }

  function Updated(eng: Engine, s: State, lease: L.Lease, update: Update): Result<State, Error> {
    match update
    case PrepareEffect(d, digest, policy) => Prepare(eng, s, lease, d, digest, policy)
    case ResolvePermission(id, allow, rebound) => Resolve(eng, s, lease, id, allow, rebound)
    case StartEffect(id, digest) => Start(s, lease, id, digest)
    case ObserveEffect(id, digest, success) => Observe(s, id, digest, success)
    case UnknownEffect(id, digest) => MarkUnknown(s, id, digest)
  }

  predicate EndsTheTurn(update: Update) {
    update.UnknownEffect? || (update.ResolvePermission? && !update.allow)
  }

  // ---------- the commit ----------

  function Closed(s: State, lease: L.Lease, request: Request): State {
    var response := Response(s.sessionRevision, s.turn);
    var ends := EndsTheTurn(request.update);
    s.(turnToken := lease.token,
       activeToken := if ends then None else Some(lease.token),
       lease := if ends && s.lease.Some? then Some(s.lease.value.(expires := 0)) else s.lease,
       commands := s.commands[request.command.id := (request, response)],
       sources := s.sources[request.command.sourceKey := request])
  }

  function Fresh(eng: Engine, s: State, lease: L.Lease, now: U64, request: Request): Result<State, Error> {
    if !Live(s, lease, now) then Err(LeaseLost)
    else if s.sessionRevision != request.command.expectedSession then Err(StaleSession)
    else if s.activeToken.None? || s.activeToken.value > lease.token then Err(ActiveMismatch)
    else if s.turnToken > lease.token then Err(LeaseLost)
    else if s.turn.revision != request.command.expectedTurn then Err(StaleTurn)
    else
      match Updated(eng, s, lease, request.update)
      case Err(e) => Err(e)
      case Ok(u) =>
        if s.sessionRevision + 1 >= U64_LIMIT then Err(Overflow)
        else Ok(Closed(u.(sessionRevision := s.sessionRevision + 1), lease, request))
  }

  /** A request already answered is answered again, unchanged, from the table. */
  function Commit(eng: Engine, s: State, lease: L.Lease, now: U64, request: Request): (State, Result<Response, Error>) {
    if lease.scope != eng.scope then (s, Err(LeaseLost))
    else if request.command.id in s.commands then
      (s, if s.commands[request.command.id].0 == request then Ok(s.commands[request.command.id].1)
          else Err(ReplayMismatch))
    else if request.command.sourceKey in s.sources then (s, Err(ReplayMismatch))
    else
      match Fresh(eng, s, lease, now, request)
      case Err(e) => (s, Err(e))
      case Ok(next) => (next, Ok(Response(next.sessionRevision, next.turn)))
  }

  // ---------- what the engine does around the commit ----------

  function Exact(eng: Engine, d: Descriptor, revision: U64, lease: L.Lease): string {
    eng.digest(Binding(d, revision, lease.owner, lease.token))
  }

  // An effect that must be asked for is bound two revisions ahead: past the request and
  // past its answer.
  function Preparation(eng: Engine, lease: L.Lease, command: Command, d: Descriptor): Option<Request> {
    match eng.policy(d)
    case None => None
    case Some(Allow) =>
      Some(Request(command, PrepareEffect(d, Exact(eng, d, command.expectedTurn, lease), Allow)))
    case Some(Ask) =>
      if command.expectedTurn + 2 >= U64_LIMIT then None
      else Some(Request(command, PrepareEffect(d, Exact(eng, d, command.expectedTurn + 2, lease), Ask)))
  }

  function PrepareSessionEffect(eng: Engine, s: State, lease: L.Lease, now: U64, command: Command,
                                d: Descriptor): (State, Result<Response, Error>)
  {
    match Preparation(eng, lease, command, d)
    case None => (s, Err(Invalid))
    case Some(request) => Commit(eng, s, lease, now, request)
  }

  // The engine can reproduce the effect it once prepared.
  predicate Known(eng: Engine, s: State, effectId: string) {
    && effectId in s.canonical && s.canonical[effectId].effectId == effectId
    && eng.policy(s.canonical[effectId]).Some?
  }

  function ResolveSessionPermission(eng: Engine, s: State, lease: L.Lease, now: U64, command: Command,
                                    requestId: string, allow: bool): (State, Result<Response, Error>)
  {
    if !allow then Commit(eng, s, lease, now, Request(command, ResolvePermission(requestId, false, None)))
    else if !Known(eng, s, requestId) || command.expectedTurn + 1 >= U64_LIMIT then (s, Err(Invalid))
    else
      Commit(eng, s, lease, now,
             Request(command, ResolvePermission(requestId, true,
               Some(Exact(eng, s.canonical[requestId], command.expectedTurn + 1, lease)))))
  }

  function StartSessionEffect(eng: Engine, s: State, lease: L.Lease, now: U64, command: Command, effectId: string,
                              digest: string): (State, Result<Response, Error>)
  {
    if !Known(eng, s, effectId) || Exact(eng, s.canonical[effectId], command.expectedTurn, lease) != digest
    then (s, Err(Invalid))
    else Commit(eng, s, lease, now, Request(command, StartEffect(effectId, digest)))
  }

  // ---------- from preparation to start ----------

  predicate New(s: State, command: Command) {
    command.id !in s.commands && command.sourceKey !in s.sources
  }

  // What everyone else may do meanwhile: the lease changes hands or expires.
  function WithLease(s: State, row: Option<L.LeaseRow>): State {
    s.(lease := row)
  }

  predicate SameHolder(a: L.Lease, b: L.Lease) {
    a.owner == b.owner && a.token == b.token
  }

  // The state after asking for `d` under `asker`.
  ghost predicate AskedFor(eng: Engine, s: State, d: Descriptor, revision: U64, asker: L.Lease) {
    && Turns.Shaped(s.turn) && s.turn.status == Turns.WaitingPermission && s.turn.revision == revision
    && revision + 1 < U64_LIMIT
    && d.effectId in s.rows
    && s.rows[d.effectId] == Row(L.Prepared, Exact(eng, d, revision + 1, asker), Ask)
    && d.effectId in s.canonical && s.canonical[d.effectId] == d
    && d.effectId in s.capabilities
    && s.capabilities[d.effectId] ==
       Capability(revision + 1, asker.owner, asker.token, Exact(eng, d, revision + 1, asker), false)
  }

  // An accepted new commit is its update, closed.
  lemma CommitCloses(eng: Engine, s: State, lease: L.Lease, now: U64, request: Request)
    requires New(s, request.command) && Commit(eng, s, lease, now, request).1.Ok?
    ensures s.turn.revision == request.command.expectedTurn && s.sessionRevision + 1 < U64_LIMIT
    ensures var u := Updated(eng, s, lease, request.update);
            && u.Ok?
            && Commit(eng, s, lease, now, request).0 ==
               Closed(u.value.(sessionRevision := s.sessionRevision + 1), lease, request)
  {}

  lemma AskingClosed(eng: Engine, s: State, d: Descriptor, lease: L.Lease, request: Request, session: U64)
    requires Turns.Shaped(s.turn) && s.turn.revision + 2 < U64_LIMIT
    requires request.update == PrepareEffect(d, Exact(eng, d, s.turn.revision + 2, lease), Ask)
    requires Updated(eng, s, lease, request.update).Ok?
    ensures AskedFor(eng, Closed(Updated(eng, s, lease, request.update).value.(sessionRevision := session),
                                 lease, request), d, s.turn.revision + 1, lease)
  {}

  lemma Asking(eng: Engine, s: State, lease: L.Lease, now: U64, command: Command, d: Descriptor)
    requires Turns.Shaped(s.turn) && New(s, command) && eng.policy(d) == Some(Ask)
    requires PrepareSessionEffect(eng, s, lease, now, command, d).1.Ok?
    ensures command.expectedTurn == s.turn.revision && s.turn.revision + 2 < U64_LIMIT
    ensures AskedFor(eng, PrepareSessionEffect(eng, s, lease, now, command, d).0, d, s.turn.revision + 1, lease)
  {
    var request := Preparation(eng, lease, command, d).value;
    CommitCloses(eng, s, lease, now, request);
    AskingClosed(eng, s, d, lease, request, s.sessionRevision + 1);
  }

  // A question answered: the effect waits, bound to this revision and holder.
  ghost predicate WaitsFor(eng: Engine, s: State, d: Descriptor, revision: U64, answerer: L.Lease) {
    && Turns.Shaped(s.turn) && s.turn.status == Turns.Running && s.turn.revision == revision
    && d.effectId in s.rows
    && s.rows[d.effectId] == Row(L.Prepared, Exact(eng, d, revision, answerer), Ask)
    && d.effectId in s.canonical && s.canonical[d.effectId] == d
    && d.effectId in s.capabilities
    && s.capabilities[d.effectId] ==
       Capability(revision, answerer.owner, answerer.token, Exact(eng, d, revision, answerer), false)
  }

  // The state after the request was allowed under `answerer`.
  ghost predicate AllowedFor(eng: Engine, s: State, d: Descriptor, revision: U64, answerer: L.Lease) {
    && WaitsFor(eng, s, d, revision, answerer)
    && s.turnToken == answerer.token && s.activeToken == Some(answerer.token)
  }

  lemma AllowingUpdate(eng: Engine, s: State, d: Descriptor, revision: U64, asker: L.Lease, lease: L.Lease)
    requires AskedFor(eng, s, d, revision, asker)
    ensures var r := Resolve(eng, s, lease, d.effectId, true, Some(Exact(eng, d, revision + 1, lease)));
            r.Ok? ==> WaitsFor(eng, r.value, d, revision + 1, lease)
  {
    assert Pending(s, d.effectId);
  }

  lemma AllowingClosed(eng: Engine, s: State, d: Descriptor, revision: U64, asker: L.Lease, lease: L.Lease,
                       request: Request, session: U64)
    requires AskedFor(eng, s, d, revision, asker)
    requires request.update == ResolvePermission(d.effectId, true, Some(Exact(eng, d, revision + 1, lease)))
    requires Updated(eng, s, lease, request.update).Ok?
    ensures AllowedFor(eng, Closed(Updated(eng, s, lease, request.update).value.(sessionRevision := session),
                                   lease, request), d, revision + 1, lease)
  {
    AllowingUpdate(eng, s, d, revision, asker, lease);
  }

  lemma Allowing(eng: Engine, s: State, d: Descriptor, revision: U64, asker: L.Lease,
                 lease: L.Lease, now: U64, command: Command)
    requires AskedFor(eng, s, d, revision, asker) && New(s, command)
    requires ResolveSessionPermission(eng, s, lease, now, command, d.effectId, true).1.Ok?
    ensures AllowedFor(eng, ResolveSessionPermission(eng, s, lease, now, command, d.effectId, true).0,
                       d, revision + 1, lease)
  {
    var digest := Exact(eng, d, command.expectedTurn + 1, lease);
    var request := Request(command, ResolvePermission(d.effectId, true, Some(digest)));
    AllowingIsItsCommit(eng, s, lease, now, command, d.effectId);
    CommitCloses(eng, s, lease, now, request);
    AllowingClosed(eng, s, d, revision, asker, lease, request, s.sessionRevision + 1);
  }

  lemma StartingAllowed(eng: Engine, s: State, d: Descriptor, revision: U64, answerer: L.Lease,
                        lease: L.Lease, now: U64, command: Command, digest: string)
    requires eng.Injective() && eng.policy(d).Some?
    requires AllowedFor(eng, s, d, revision, answerer) && New(s, command)
    ensures StartSessionEffect(eng, s, lease, now, command, d.effectId, digest).1.Ok? <==>
              && command.expectedTurn == revision && SameHolder(lease, answerer)
              && digest == Exact(eng, d, revision, answerer)
              && lease.scope == eng.scope && Live(s, lease, now)
              && command.expectedSession == s.sessionRevision && s.sessionRevision + 1 < U64_LIMIT
  {
    var request := Request(command, StartEffect(d.effectId, digest));
    assert eng.digest(Binding(d, command.expectedTurn, lease.owner, lease.token)) ==
           Exact(eng, d, command.expectedTurn, lease);
    assert eng.digest(Binding(d, revision, answerer.owner, answerer.token)) == Exact(eng, d, revision, answerer);
  }

  /** The three commits an effect takes when it must be asked for, and the leases they run under. */
  datatype Path = Path(
    prepare: Command, resolve: Command, start: Command,
    asker: L.Lease, answerer: L.Lease, starter: L.Lease,
    askNow: U64, answerNow: U64, startNow: U64,
    answerRow: Option<L.LeaseRow>, startRow: Option<L.LeaseRow>)

  function Asked(eng: Engine, s: State, d: Descriptor, p: Path): (State, Result<Response, Error>) {
    PrepareSessionEffect(eng, s, p.asker, p.askNow, p.prepare, d)
  }

  function Answered(eng: Engine, s: State, d: Descriptor, p: Path): (State, Result<Response, Error>) {
    ResolveSessionPermission(eng, WithLease(Asked(eng, s, d, p).0, p.answerRow), p.answerer, p.answerNow,
                             p.resolve, d.effectId, true)
  }

  /**
   An effect asked for at revision r and allowed at r + 1 can be started at r + 2 by the
   holder that allowed it, under the digest recomputed there, and by no other holder, at no
   other revision, under no other digest. Rebinding at the answer changes the digest only
   if the lease has changed hands.
   */
  lemma FromAskToStart(eng: Engine, s: State, d: Descriptor, p: Path, digest: string)
    requires eng.Injective() && eng.policy(d) == Some(Ask) && Turns.Shaped(s.turn)
    requires New(s, p.prepare) && Asked(eng, s, d, p).1.Ok?
    requires New(Asked(eng, s, d, p).0, p.resolve) && Answered(eng, s, d, p).1.Ok?
    requires New(Answered(eng, s, d, p).0, p.start)
    ensures var asked, allowed := Asked(eng, s, d, p).0, Answered(eng, s, d, p).0;
            var ready := WithLease(allowed, p.startRow);
            && s.turn.revision + 2 < U64_LIMIT
            && allowed.turn.revision == s.turn.revision + 2
            && d.effectId in asked.rows && d.effectId in allowed.rows
            && asked.rows[d.effectId].digest == Exact(eng, d, s.turn.revision + 2, p.asker)
            && allowed.rows[d.effectId].digest == Exact(eng, d, s.turn.revision + 2, p.answerer)
            && (asked.rows[d.effectId].digest == allowed.rows[d.effectId].digest <==> SameHolder(p.asker, p.answerer))
            && (StartSessionEffect(eng, ready, p.starter, p.startNow, p.start, d.effectId, digest).1.Ok? <==>
                  && p.start.expectedTurn == s.turn.revision + 2 && SameHolder(p.starter, p.answerer)
                  && digest == allowed.rows[d.effectId].digest
                  && p.starter.scope == eng.scope && Live(ready, p.starter, p.startNow)
                  && p.start.expectedSession == ready.sessionRevision
                  && ready.sessionRevision + 1 < U64_LIMIT)
  {
    Asking(eng, s, p.asker, p.askNow, p.prepare, d);
    var asked := WithLease(Asked(eng, s, d, p).0, p.answerRow);
    Allowing(eng, asked, d, s.turn.revision + 1, p.asker, p.answerer, p.answerNow, p.resolve);
    var ready := WithLease(Answered(eng, s, d, p).0, p.startRow);
    StartingAllowed(eng, ready, d, s.turn.revision + 2, p.answerer, p.starter, p.startNow, p.start, digest);
    var asked2, allowed2 := Binding(d, s.turn.revision + 2, p.asker.owner, p.asker.token),
                            Binding(d, s.turn.revision + 2, p.answerer.owner, p.answerer.token);
    assert eng.digest(asked2) == eng.digest(allowed2) <==> asked2 == allowed2;
  }

  // ---------- whole runs ----------

  /** The state, what each effect was bound to last, and the effects started, oldest first.
      An answer from the replay table starts nothing. */
  datatype World = World(state: State, bound: map<string, Binding>, started: seq<string>)

  datatype Event =
    | Propose(lease: L.Lease, now: U64, command: Command, descriptor: Descriptor)
    | Answer(lease: L.Lease, now: U64, command: Command, requestId: string, allow: bool)
    | Begin(lease: L.Lease, now: U64, command: Command, effectId: string, digest: string)
    | Report(lease: L.Lease, now: U64, command: Command, update: Update)
    | Elsewhere(state: State)

  predicate RowAdvances(before: Row, after: Row) {
    && before.digest == after.digest && before.policy == after.policy
    && (before.status == after.status || L.Rank(before.status) < L.Rank(after.status))
  }

  // Rows that only move on, capabilities that are only consumed.
  predicate MovesOn(s: State, z: State) {
    && z.canonical == s.canonical && z.rows.Keys == s.rows.Keys && z.capabilities.Keys == s.capabilities.Keys
    && (forall id :: id in s.rows ==> RowAdvances(s.rows[id], z.rows[id]))
    && (forall id :: id in s.capabilities ==>
          z.capabilities[id] == s.capabilities[id] || z.capabilities[id] == s.capabilities[id].(consumed := true))
  }

  // Other commits, recovery, and leases changing hands.
  predicate Advances(s: State, z: State) {
    && MovesOn(s, z)
    && (forall id :: id in s.commands ==> id in z.commands && z.commands[id] == s.commands[id])
    && (forall key :: key in s.sources ==> key in z.sources && z.sources[key] == s.sources[key])
  }

  function BoundAt(d: Descriptor, revision: U64, lease: L.Lease): Binding {
    Binding(d, revision, lease.owner, lease.token)
  }

  function AfterPropose(eng: Engine, w: World, lease: L.Lease, now: U64, command: Command, d: Descriptor): World {
    var (z, r) := PrepareSessionEffect(eng, w.state, lease, now, command, d);
    if r.Err? || !New(w.state, command) then w.(state := z)
    else
      var ahead := if eng.policy(d) == Some(Ask) then 2 else 0;
      World(z, w.bound[d.effectId := BoundAt(d, Min(command.expectedTurn + ahead, U64_LIMIT - 1), lease)], w.started)
  }

  function AfterAnswer(eng: Engine, w: World, lease: L.Lease, now: U64, command: Command, requestId: string,
                       allow: bool): World
  {
    var (z, r) := ResolveSessionPermission(eng, w.state, lease, now, command, requestId, allow);
    if r.Err? || !New(w.state, command) || !allow || requestId !in w.state.canonical then w.(state := z)
    else
      World(z, w.bound[requestId :=
              BoundAt(w.state.canonical[requestId], Min(command.expectedTurn + 1, U64_LIMIT - 1), lease)], w.started)
  }

  function AfterBegin(eng: Engine, w: World, lease: L.Lease, now: U64, command: Command, effectId: string,
                      digest: string): World
  {
    var (z, r) := StartSessionEffect(eng, w.state, lease, now, command, effectId, digest);
    if r.Err? || !New(w.state, command) then w.(state := z)
    else World(z, w.bound, w.started + [effectId])
  }

  function Next(eng: Engine, w: World, e: Event): World {
    match e
    case Propose(lease, now, command, d) => AfterPropose(eng, w, lease, now, command, d)
    case Answer(lease, now, command, id, allow) => AfterAnswer(eng, w, lease, now, command, id, allow)
    case Begin(lease, now, command, id, digest) => AfterBegin(eng, w, lease, now, command, id, digest)
    case Report(lease, now, command, update) =>
      if update.ObserveEffect? || update.UnknownEffect?
      then w.(state := Commit(eng, w.state, lease, now, Request(command, update)).0)
      else w
    case Elsewhere(state) => if Advances(w.state, state) then w.(state := state) else w
  }

  function Run(eng: Engine, w: World, events: seq<Event>): World {
    if events == [] then w
    else Next(eng, Run(eng, w, events[..|events| - 1]), events[|events| - 1])
  }

  // ---------- the invariant ----------

  ghost predicate RowInv(eng: Engine, w: World, id: string) {
    && id in w.state.canonical && w.state.canonical[id].effectId == id
    && id in w.state.rows
    && id in w.bound
    && w.bound[id].descriptor == w.state.canonical[id]
    && w.state.rows[id].digest == eng.digest(w.bound[id])
    && (id in w.state.capabilities ==> w.state.capabilities[id].digest == w.state.rows[id].digest)
    && (id in w.state.capabilities && w.state.rows[id].status == L.Prepared ==>
          var c := w.state.capabilities[id];
          c.revision == w.bound[id].revision && c.owner == w.bound[id].owner && c.token == w.bound[id].token)
    && (id in w.state.capabilities <==> w.state.rows[id].policy == Ask)
    && (id in w.started ==> w.state.rows[id].status != L.Prepared)
  }

  ghost predicate Distinct(ids: seq<string>) {
    forall i, j :: 0 <= i < j < |ids| ==> ids[i] != ids[j]
  }

  ghost predicate Inv(eng: Engine, w: World) {
    && Distinct(w.started)
    && (forall id :: id in w.started ==> id in w.state.rows)
    && w.state.canonical.Keys == w.state.rows.Keys
    && (forall id :: id in w.state.capabilities ==> id in w.state.rows)
    && forall id :: id in w.state.rows ==> RowInv(eng, w, id)
  }

  // What a commit does to the tables of effects is what its update does.
  lemma CommitIsItsUpdate(eng: Engine, s: State, lease: L.Lease, now: U64, request: Request)
    ensures var (z, r) := Commit(eng, s, lease, now, request);
            && (r.Err? || !New(s, request.command) ==> z == s)
            && (r.Ok? && New(s, request.command) ==>
                  && s.turn.revision == request.command.expectedTurn
                  && Updated(eng, s, lease, request.update).Ok?
                  && var u := Updated(eng, s, lease, request.update).value;
                     && z.rows == u.rows && z.canonical == u.canonical && z.capabilities == u.capabilities
                     && z.turn == u.turn && z.sessionRevision == s.sessionRevision + 1)
  {}

  predicate SameTables(s: State, z: State) {
    z.rows == s.rows && z.canonical == s.canonical && z.capabilities == s.capabilities
  }

  lemma SameTablesKeepInv(eng: Engine, w: World, z: World)
    requires Inv(eng, w) && SameTables(w.state, z.state) && z.bound == w.bound && z.started == w.started
    ensures Inv(eng, z)
  {
    forall id | id in z.state.rows ensures RowInv(eng, z, id) {
      assert RowInv(eng, w, id);
    }
  }

  // A new effect, with a capability when it must be asked for.
  ghost predicate Inserts(s: State, z: State, d: Descriptor, digest: string, policy: Policy, c: Capability) {
    && d.effectId !in s.rows && d.effectId !in s.canonical
    && z.rows == s.rows[d.effectId := Row(L.Prepared, digest, policy)]
    && z.canonical == s.canonical[d.effectId := d]
    && (policy == Ask ==> c.digest == digest && z.capabilities == s.capabilities[d.effectId := c])
    && (policy == Allow ==> z.capabilities == s.capabilities)
  }

  lemma InsertKeepsInv(eng: Engine, w: World, z: World, d: Descriptor, b: Binding, policy: Policy, c: Capability)
    requires Inv(eng, w) && Inserts(w.state, z.state, d, eng.digest(b), policy, c)
    requires b.descriptor == d && c.revision == b.revision && c.owner == b.owner && c.token == b.token
    requires z.bound == w.bound[d.effectId := b] && z.started == w.started
    ensures Inv(eng, z)
  {
    forall id | id in z.state.rows ensures RowInv(eng, z, id) {
      if id != d.effectId {
        assert RowInv(eng, w, id);
      }
    }
  }

  lemma PrepareInserts(eng: Engine, s: State, lease: L.Lease, d: Descriptor, digest: string, policy: Policy)
    requires Prepare(eng, s, lease, d, digest, policy).Ok?
    ensures policy == Ask ==> s.turn.revision + 2 < U64_LIMIT
    ensures Inserts(s, Prepare(eng, s, lease, d, digest, policy).value, d, digest, policy,
                    Capability(Min(s.turn.revision + 2, U64_LIMIT - 1), lease.owner, lease.token, digest, false))
  {}

  function Proposal(eng: Engine, e: Event, policy: Policy, revision: U64): Request
    requires e.Propose?
  {
    Request(e.command, PrepareEffect(e.descriptor, Exact(eng, e.descriptor, revision, e.lease), policy))
  }

  lemma ProposeIsItsCommit(eng: Engine, w: World, e: Event, policy: Policy, revision: U64)
    requires e.Propose? && eng.policy(e.descriptor) == Some(policy)
    requires revision == e.command.expectedTurn + if policy == Ask then 2 else 0
    ensures var (u, r) := Commit(eng, w.state, e.lease, e.now, Proposal(eng, e, policy, revision));
            Next(eng, w, e) ==
              if r.Err? || !New(w.state, e.command) then w.(state := u)
              else World(u, w.bound[e.descriptor.effectId := BoundAt(e.descriptor, revision, e.lease)], w.started)
  {
    PrepareIsItsCommit(eng, w.state, e.lease, e.now, e.command, e.descriptor, policy, revision);
    NextOfProposal(eng, w, e);
  }

  lemma NextOfProposal(eng: Engine, w: World, e: Event)
    requires e.Propose?
    ensures Next(eng, w, e) == AfterPropose(eng, w, e.lease, e.now, e.command, e.descriptor)
  {}

  lemma ProposalKeepsInv(eng: Engine, w: World, e: Event, policy: Policy, revision: U64)
    requires Inv(eng, w) && e.Propose? && eng.policy(e.descriptor) == Some(policy)
    requires revision == e.command.expectedTurn + if policy == Ask then 2 else 0
    ensures Inv(eng, Next(eng, w, e))
  {
    var s, d := w.state, e.descriptor;
    var b := BoundAt(d, revision, e.lease);
    ProposeIsItsCommit(eng, w, e, policy, revision);
    CommitIsItsUpdate(eng, s, e.lease, e.now, Proposal(eng, e, policy, revision));
    var (u, r) := Commit(eng, s, e.lease, e.now, Proposal(eng, e, policy, revision));
    if r.Err? || !New(s, e.command) {
      SameTablesKeepInv(eng, w, w.(state := u));
    } else {
      PrepareInserts(eng, s, e.lease, d, eng.digest(b), policy);
      InsertKeepsInv(eng, w, World(u, w.bound[d.effectId := b], w.started), d, b, policy,
                     Capability(if policy == Ask then s.turn.revision + 2 else revision,
                                e.lease.owner, e.lease.token, eng.digest(b), false));
    }
  }

  lemma ProposeKeepsInv(eng: Engine, w: World, e: Event)
    requires Inv(eng, w) && e.Propose?
    ensures Inv(eng, Next(eng, w, e))
  {
    match eng.policy(e.descriptor)
    case None => SameTablesKeepInv(eng, w, Next(eng, w, e));
    case Some(policy) =>
      if policy == Ask && e.command.expectedTurn + 2 >= U64_LIMIT {
        SameTablesKeepInv(eng, w, Next(eng, w, e));
      } else {
        ProposalKeepsInv(eng, w, e, policy, e.command.expectedTurn + if policy == Ask then 2 else 0);
      }
  }

  // One prepared effect bound anew.
  ghost predicate Rebinds(s: State, z: State, id: string, b: Binding, digest: string) {
    && id in s.rows && id in s.capabilities && s.capabilities[id].revision == b.revision
    && s.rows[id].status == L.Prepared
    && z.canonical == s.canonical
    && z.rows == s.rows[id := s.rows[id].(digest := digest)]
    && z.capabilities == s.capabilities[id := s.capabilities[id].(owner := b.owner, token := b.token, digest := digest)]
  }

  lemma RebindKeepsInv(eng: Engine, w: World, z: World, id: string, b: Binding)
    requires Inv(eng, w) && Rebinds(w.state, z.state, id, b, eng.digest(b))
    requires id in w.state.canonical && b.descriptor == w.state.canonical[id]
    requires z.bound == w.bound[id := b] && z.started == w.started
    ensures Inv(eng, z)
  {
    forall other | other in z.state.rows ensures RowInv(eng, z, other) {
      assert RowInv(eng, w, other);
    }
  }

  lemma ResolveRebinds(eng: Engine, s: State, lease: L.Lease, id: string, b: Binding, digest: string)
    requires Resolve(eng, s, lease, id, true, Some(digest)).Ok?
    requires b.revision == s.turn.revision + 1 && b.owner == lease.owner && b.token == lease.token
    ensures Rebinds(s, Resolve(eng, s, lease, id, true, Some(digest)).value, id, b, digest)
  {}

  function Allowance(eng: Engine, w: World, e: Event): Request
    requires e.Answer? && e.requestId in w.state.canonical && e.command.expectedTurn + 1 < U64_LIMIT
  {
    Request(e.command, ResolvePermission(e.requestId, true,
      Some(Exact(eng, w.state.canonical[e.requestId], e.command.expectedTurn + 1, e.lease))))
  }

  lemma AllowIsItsCommit(eng: Engine, w: World, e: Event)
    requires e.Answer? && e.allow && Known(eng, w.state, e.requestId) && e.command.expectedTurn + 1 < U64_LIMIT
    ensures var (u, r) := Commit(eng, w.state, e.lease, e.now, Allowance(eng, w, e));
            Next(eng, w, e) ==
              if r.Err? || !New(w.state, e.command) then w.(state := u)
              else World(u, w.bound[e.requestId :=
                     BoundAt(w.state.canonical[e.requestId], e.command.expectedTurn + 1, e.lease)], w.started)
  {}

  lemma AllowanceRebinds(eng: Engine, w: World, e: Event)
    requires e.Answer? && e.requestId in w.state.canonical && e.command.expectedTurn + 1 < U64_LIMIT
    ensures var (u, r) := Commit(eng, w.state, e.lease, e.now, Allowance(eng, w, e));
            var b := BoundAt(w.state.canonical[e.requestId], e.command.expectedTurn + 1, e.lease);
            if r.Err? || !New(w.state, e.command) then u == w.state
            else Rebinds(w.state, u, e.requestId, b, eng.digest(b))
  {
    var s, id := w.state, e.requestId;
    var b := BoundAt(s.canonical[id], e.command.expectedTurn + 1, e.lease);
    var request := Allowance(eng, w, e);
    assert request.update == ResolvePermission(id, true, Some(eng.digest(b)));
    CommitIsItsUpdate(eng, s, e.lease, e.now, request);
    if Commit(eng, s, e.lease, e.now, request).1.Ok? && New(s, e.command) {
      ResolveRebinds(eng, s, e.lease, id, b, eng.digest(b));
    }
  }

  lemma AllowKeepsInv(eng: Engine, w: World, e: Event)
    requires Inv(eng, w) && e.Answer? && e.allow
    requires Known(eng, w.state, e.requestId) && e.command.expectedTurn + 1 < U64_LIMIT
    ensures Inv(eng, Next(eng, w, e))
  {
    var b := BoundAt(w.state.canonical[e.requestId], e.command.expectedTurn + 1, e.lease);
    var (u, r) := Commit(eng, w.state, e.lease, e.now, Allowance(eng, w, e));
    AllowanceRebinds(eng, w, e);
    AllowIsItsCommit(eng, w, e);
    if r.Ok? && New(w.state, e.command) {
      RebindKeepsInv(eng, w, World(u, w.bound[e.requestId := b], w.started), e.requestId, b);
    }
  }

  lemma MovingOnKeepsInv(eng: Engine, w: World, z: World)
    requires Inv(eng, w) && MovesOn(w.state, z.state) && z.bound == w.bound && z.started == w.started
    ensures Inv(eng, z)
  {
    forall id | id in z.state.rows ensures RowInv(eng, z, id) {
      assert RowInv(eng, w, id);
    }
  }

  // A commit whose update only moves effects on.
  lemma CommitMovesOn(eng: Engine, s: State, lease: L.Lease, now: U64, request: Request)
    requires Updated(eng, s, lease, request.update).Ok? ==> MovesOn(s, Updated(eng, s, lease, request.update).value)
    ensures MovesOn(s, Commit(eng, s, lease, now, request).0)
  {
    CommitIsItsUpdate(eng, s, lease, now, request);
  }

  lemma DenialMovesOn(eng: Engine, s: State, lease: L.Lease, requestId: string)
    ensures var r := Resolve(eng, s, lease, requestId, false, None); r.Ok? ==> MovesOn(s, r.value)
  {}

  lemma AnswerKeepsInv(eng: Engine, w: World, e: Event)
    requires Inv(eng, w) && e.Answer?
    ensures Inv(eng, Next(eng, w, e))
  {
    if !e.allow {
      var request := Request(e.command, ResolvePermission(e.requestId, false, None));
      DenialMovesOn(eng, w.state, e.lease, e.requestId);
      CommitMovesOn(eng, w.state, e.lease, e.now, request);
      MovingOnKeepsInv(eng, w, w.(state := Commit(eng, w.state, e.lease, e.now, request).0));
    } else if Known(eng, w.state, e.requestId) && e.command.expectedTurn + 1 < U64_LIMIT {
      AllowKeepsInv(eng, w, e);
    } else {
      assert Next(eng, w, e) == w;
    }
  }

  lemma StartMovesOn(s: State, lease: L.Lease, id: string, digest: string)
    requires Start(s, lease, id, digest).Ok?
    ensures var u := Start(s, lease, id, digest).value;
            MovesOn(s, u) && id in s.rows && s.rows[id].status == L.Prepared && u.rows[id].status == L.Started
  {}

  lemma BeginIsItsCommit(eng: Engine, w: World, e: Event)
    requires e.Begin?
    ensures var (u, r) := Commit(eng, w.state, e.lease, e.now, Request(e.command, StartEffect(e.effectId, e.digest)));
            || Next(eng, w, e) == w
            || Next(eng, w, e) == (if r.Err? || !New(w.state, e.command) then w.(state := u)
                                   else World(u, w.bound, w.started + [e.effectId]))
  {}

  lemma DistinctGrows(ids: seq<string>, id: string)
    requires Distinct(ids) && id !in ids
    ensures Distinct(ids + [id])
  {}

  // One more effect started.
  lemma StartingKeepsInv(eng: Engine, w: World, u: State, id: string)
    requires Inv(eng, w) && MovesOn(w.state, u)
    requires id in w.state.rows && w.state.rows[id].status == L.Prepared && u.rows[id].status == L.Started
    ensures Inv(eng, World(u, w.bound, w.started + [id]))
  {
    var moved, z := w.(state := u), World(u, w.bound, w.started + [id]);
    MovingOnKeepsInv(eng, w, moved);
    assert RowInv(eng, w, id);
    DistinctGrows(w.started, id);
    forall other | other in z.state.rows ensures RowInv(eng, z, other) {
      assert RowInv(eng, moved, other);
    }
  }

  lemma BeginKeepsInv(eng: Engine, w: World, e: Event)
    requires Inv(eng, w) && e.Begin?
    ensures Inv(eng, Next(eng, w, e))
  {
    var request := Request(e.command, StartEffect(e.effectId, e.digest));
    var (u, r) := Commit(eng, w.state, e.lease, e.now, request);
    BeginIsItsCommit(eng, w, e);
    CommitIsItsUpdate(eng, w.state, e.lease, e.now, request);
    if r.Ok? && New(w.state, e.command) {
      StartMovesOn(w.state, e.lease, e.effectId, e.digest);
      StartingKeepsInv(eng, w, u, e.effectId);
    } else {
      SameTablesKeepInv(eng, w, w.(state := u));
    }
  }

  lemma SettleMovesOn(s: State, id: string, digest: string, status: L.Status)
    requires L.Rank(status) > L.Rank(L.Started)
    ensures var r := Settle(s, id, digest, status); r.Ok? ==> MovesOn(s, r.value)
  {}

  lemma ReportMovesOn(eng: Engine, s: State, lease: L.Lease, update: Update)
    requires update.ObserveEffect? || update.UnknownEffect?
    ensures var r := Updated(eng, s, lease, update); r.Ok? ==> MovesOn(s, r.value)
  {
    SettleMovesOn(s, update.effectId, update.digest, L.ObservedSuccess);
    SettleMovesOn(s, update.effectId, update.digest, L.ObservedFailed);
    SettleMovesOn(s, update.effectId, update.digest, L.Unknown);
  }

  lemma ReportKeepsInv(eng: Engine, w: World, e: Event)
    requires Inv(eng, w) && e.Report?
    ensures Inv(eng, Next(eng, w, e))
  {
    if e.update.ObserveEffect? || e.update.UnknownEffect? {
      var request := Request(e.command, e.update);
      ReportMovesOn(eng, w.state, e.lease, e.update);
      CommitMovesOn(eng, w.state, e.lease, e.now, request);
      MovingOnKeepsInv(eng, w, w.(state := Commit(eng, w.state, e.lease, e.now, request).0));
    }
  }

  lemma NextKeepsInv(eng: Engine, w: World, e: Event)
    requires Inv(eng, w)
    ensures Inv(eng, Next(eng, w, e))
  {
    match e
    case Propose(_, _, _, _) => ProposeKeepsInv(eng, w, e);
    case Answer(_, _, _, _, _) => AnswerKeepsInv(eng, w, e);
    case Begin(_, _, _, _, _) => BeginKeepsInv(eng, w, e);
    case Report(_, _, _, _) => ReportKeepsInv(eng, w, e);
    case Elsewhere(_) => MovingOnKeepsInv(eng, w, Next(eng, w, e));
  }

  // A session whose turn has prepared no effect yet.
  ghost predicate Initial(w: World) {
    && w.bound == map[] && w.started == []
    && w.state.rows == map[] && w.state.canonical == map[] && w.state.capabilities == map[]
  }

  lemma {:induction false} RunKeepsInv(eng: Engine, w: World, events: seq<Event>)
    requires Initial(w)
    ensures Inv(eng, Run(eng, w, events))
  {
    if events != [] {
      RunKeepsInv(eng, w, events[..|events| - 1]);
      NextKeepsInv(eng, Run(eng, w, events[..|events| - 1]), events[|events| - 1]);
    }
  }

  // ---------- the main results ----------

  /** Over any run, retries under new commands included, each effect is started once at most. */
  lemma StartedOnce(eng: Engine, w: World, events: seq<Event>)
    requires Initial(w)
    ensures Distinct(Run(eng, w, events).started)
  {
    RunKeepsInv(eng, w, events);
  }

  /** Whatever happened in between, an effect is started only at the revision, under the
      lease holder and in the very form it was bound to last: at preparation if its policy
      allows it outright, at the answer if it had to be asked for. */
  lemma StartsOnlyAsBound(eng: Engine, w: World, events: seq<Event>, lease: L.Lease, now: U64, command: Command,
                          effectId: string, digest: string)
    requires Initial(w) && eng.Injective()
    requires New(Run(eng, w, events).state, command)
    requires StartSessionEffect(eng, Run(eng, w, events).state, lease, now, command, effectId, digest).1.Ok?
    ensures var z := Run(eng, w, events);
            && effectId in z.bound && effectId in z.state.canonical
            && z.bound[effectId] == BoundAt(z.state.canonical[effectId], z.state.turn.revision, lease)
            && effectId !in z.started
  {
    RunKeepsInv(eng, w, events);
    var z := Run(eng, w, events);
    CommitIsItsUpdate(eng, z.state, lease, now, Request(command, StartEffect(effectId, digest)));
    assert RowInv(eng, z, effectId);
    assert eng.digest(BoundAt(z.state.canonical[effectId], z.state.turn.revision, lease)) ==
           eng.digest(z.bound[effectId]);
  }

  // The fences of a commit: scope, lease, tokens and both revisions.
  predicate InForce(eng: Engine, s: State, lease: L.Lease, now: U64, command: Command) {
    && lease.scope == eng.scope && s.lease.Some? && now < s.lease.value.expires
    && s.lease.value.owner == lease.owner && s.lease.value.token == lease.token
    && s.activeToken.Some? && s.activeToken.value <= lease.token && s.turnToken <= lease.token
    && command.expectedSession == s.sessionRevision && s.sessionRevision + 1 < U64_LIMIT
    && command.expectedTurn == s.turn.revision
  }

  predicate RunsFree(turn: Turns.TurnState<Id>) {
    turn.status == Turns.Running && turn.pendingPermission.None? && turn.pendingInput.None?
  }

  // The effect is prepared, and the capability it needs is unused.
  predicate Waiting(s: State, effectId: string) {
    && effectId in s.rows && s.rows[effectId].status == L.Prepared
    && (s.rows[effectId].policy == Ask ==> effectId in s.capabilities && !s.capabilities[effectId].consumed)
  }

  // A new start is what its fences and its update make it.
  lemma NewStart(eng: Engine, s: State, lease: L.Lease, now: U64, command: Command, effectId: string, digest: string)
    requires New(s, command)
    ensures StartSessionEffect(eng, s, lease, now, command, effectId, digest).1.Ok? <==>
              && Known(eng, s, effectId) && Exact(eng, s.canonical[effectId], command.expectedTurn, lease) == digest
              && InForce(eng, s, lease, now, command) && Start(s, lease, effectId, digest).Ok?
  {}

  // The update alone, for an effect bound as the invariant says.
  lemma BoundStart(eng: Engine, z: World, lease: L.Lease, effectId: string, digest: string)
    requires Inv(eng, z) && effectId in z.state.rows
    requires z.bound[effectId] == BoundAt(z.state.canonical[effectId], z.state.turn.revision, lease)
    ensures Start(z.state, lease, effectId, digest).Ok? <==>
              RunsFree(z.state.turn) && Waiting(z.state, effectId) && digest == z.state.rows[effectId].digest
  {
    assert RowInv(eng, z, effectId);
  }

  /**
   Over every run, a start under a new command is accepted exactly when the effect is bound
   to this form, revision and holder, waits prepared under this digest, policy still knows
   it, the turn runs with nothing pending, and the commit's fences hold.
   */
  lemma StartsExactlyAsBound(eng: Engine, w: World, events: seq<Event>, lease: L.Lease, now: U64, command: Command,
                             effectId: string, digest: string)
    requires Initial(w) && eng.Injective()
    requires New(Run(eng, w, events).state, command)
    ensures var z := Run(eng, w, events);
            StartSessionEffect(eng, z.state, lease, now, command, effectId, digest).1.Ok? <==>
              && effectId in z.state.canonical && eng.policy(z.state.canonical[effectId]).Some?
              && effectId in z.bound
              && z.bound[effectId] == BoundAt(z.state.canonical[effectId], z.state.turn.revision, lease)
              && Waiting(z.state, effectId) && digest == z.state.rows[effectId].digest
              && RunsFree(z.state.turn) && InForce(eng, z.state, lease, now, command)
  {
    var z := Run(eng, w, events);
    RunKeepsInv(eng, w, events);
    NewStart(eng, z.state, lease, now, command, effectId, digest);
    if StartSessionEffect(eng, z.state, lease, now, command, effectId, digest).1.Ok? {
      StartsOnlyAsBound(eng, w, events, lease, now, command, effectId, digest);
      StartChanges(eng, z.state, lease, now, command, effectId, digest);
    }
    if effectId in z.state.rows && effectId in z.bound {
      assert RowInv(eng, z, effectId);
      if z.bound[effectId] == BoundAt(z.state.canonical[effectId], z.state.turn.revision, lease) {
        BoundStart(eng, z, lease, effectId, digest);
      }
    }
  }

  // What an accepted start found, and all it changed among the effects.
  ghost predicate Begins(s: State, z: State, lease: L.Lease, effectId: string, digest: string) {
    && effectId in s.rows && s.rows[effectId].status == L.Prepared && s.rows[effectId].digest == digest
    && z.rows == s.rows[effectId := s.rows[effectId].(status := L.Started)]
    && z.turn == s.turn && z.canonical == s.canonical
    && if effectId in s.capabilities then
         && s.capabilities[effectId] == Capability(s.turn.revision, lease.owner, lease.token,
                                                   s.capabilities[effectId].digest, false)
         && z.capabilities == s.capabilities[effectId := s.capabilities[effectId].(consumed := true)]
       else
         s.rows[effectId].policy == Allow && z.capabilities == s.capabilities
  }

  /** An accepted start under a new command consumes the capability it found and starts the
      one effect; any other answer changes nothing. */
  lemma StartChanges(eng: Engine, s: State, lease: L.Lease, now: U64, command: Command, effectId: string,
                     digest: string)
    ensures var (z, r) := StartSessionEffect(eng, s, lease, now, command, effectId, digest);
            if r.Ok? && New(s, command) then Begins(s, z, lease, effectId, digest) else z == s
  {
    CommitIsItsUpdate(eng, s, lease, now, Request(command, StartEffect(effectId, digest)));
  }

  /** Of the starts answered Ok exactly those under a new command started something. */
  lemma StartedExactlyWhenNew(eng: Engine, s: State, lease: L.Lease, now: U64, command: Command,
                              effectId: string, digest: string)
    requires StartSessionEffect(eng, s, lease, now, command, effectId, digest).1.Ok?
    ensures var z := StartSessionEffect(eng, s, lease, now, command, effectId, digest).0;
            New(s, command) <==>
              && effectId in s.rows && s.rows[effectId].status == L.Prepared
              && effectId in z.rows && z.rows[effectId].status == L.Started
  {
    StartChanges(eng, s, lease, now, command, effectId, digest);
  }

  // What an accepted answer changed: the capability and its effect bound anew, or both closed.
  ghost predicate Answers(eng: Engine, s: State, z: State, lease: L.Lease, requestId: string, allow: bool) {
    if allow then
      && requestId in s.canonical && s.turn.revision + 1 < U64_LIMIT
      && Rebinds(s, z, requestId, BoundAt(s.canonical[requestId], s.turn.revision + 1, lease),
                 Exact(eng, s.canonical[requestId], s.turn.revision + 1, lease))
      && z.turn.status == Turns.Running && z.turn.revision == s.turn.revision + 1
    else
      && z.turn.status == Turns.Failed && z.turn.revision == s.turn.revision + 1 && z.canonical == s.canonical
      && z.turn.failure.Some? && z.turn.failure.value.code == Turns.PermissionDenied
      && z.rows == (if requestId in s.rows && s.rows[requestId].status == L.Prepared
                    then s.rows[requestId := s.rows[requestId].(status := L.ObservedFailed)] else s.rows)
      && z.capabilities == (if requestId in s.capabilities
                            then s.capabilities[requestId := s.capabilities[requestId].(consumed := true)]
                            else s.capabilities)
  }

  lemma DenialAnswers(eng: Engine, s: State, lease: L.Lease, requestId: string)
    ensures var r := Resolve(eng, s, lease, requestId, false, None);
            r.Ok? ==> Answers(eng, s, r.value, lease, requestId, false)
  {}

  lemma AllowanceAnswers(eng: Engine, s: State, lease: L.Lease, requestId: string)
    requires requestId in s.canonical && s.turn.revision + 1 < U64_LIMIT
    ensures var digest := Exact(eng, s.canonical[requestId], s.turn.revision + 1, lease);
            var r := Resolve(eng, s, lease, requestId, true, Some(digest));
            r.Ok? ==> Answers(eng, s, r.value, lease, requestId, true)
  {
    var b := BoundAt(s.canonical[requestId], s.turn.revision + 1, lease);
    var digest := Exact(eng, s.canonical[requestId], s.turn.revision + 1, lease);
    if Resolve(eng, s, lease, requestId, true, Some(digest)).Ok? {
      ResolveRebinds(eng, s, lease, requestId, b, digest);
    }
  }

  lemma DenyingChanges(eng: Engine, s: State, lease: L.Lease, now: U64, command: Command, requestId: string)
    ensures var (z, r) := ResolveSessionPermission(eng, s, lease, now, command, requestId, false);
            if r.Ok? && New(s, command) then Answers(eng, s, z, lease, requestId, false) else z == s
  {
    DenialAnswers(eng, s, lease, requestId);
    CommitIsItsUpdate(eng, s, lease, now, Request(command, ResolvePermission(requestId, false, None)));
  }

  ghost predicate AnswerOutcome(eng: Engine, s: State, lease: L.Lease, command: Command, requestId: string, allow: bool,
                                out: (State, Result<Response, Error>)) {
    if out.1.Ok? && New(s, command) then Answers(eng, s, out.0, lease, requestId, allow) else out.0 == s
  }

  lemma AnswersCarryOver(eng: Engine, s: State, u: State, z: State, lease: L.Lease, requestId: string, allow: bool)
    requires Answers(eng, s, u, lease, requestId, allow) && SameTables(u, z) && z.turn == u.turn
    ensures Answers(eng, s, z, lease, requestId, allow)
  {}

  lemma AllowingCommit(eng: Engine, s: State, lease: L.Lease, now: U64, command: Command, requestId: string,
                       digest: string)
    requires requestId in s.canonical && command.expectedTurn + 1 < U64_LIMIT
    requires digest == Exact(eng, s.canonical[requestId], command.expectedTurn + 1, lease)
    ensures AnswerOutcome(eng, s, lease, command, requestId, true,
              Commit(eng, s, lease, now, Request(command, ResolvePermission(requestId, true, Some(digest)))))
  {
    var request := Request(command, ResolvePermission(requestId, true, Some(digest)));
    var out := Commit(eng, s, lease, now, request);
    CommitIsItsUpdate(eng, s, lease, now, request);
    if out.1.Ok? && New(s, command) {
      AllowedCommit(eng, s, lease, requestId, digest, out.0);
    }
  }

  lemma AllowedCommit(eng: Engine, s: State, lease: L.Lease, requestId: string, digest: string, z: State)
    requires requestId in s.canonical && s.turn.revision + 1 < U64_LIMIT
    requires digest == Exact(eng, s.canonical[requestId], s.turn.revision + 1, lease)
    requires Resolve(eng, s, lease, requestId, true, Some(digest)).Ok?
    requires var u := Resolve(eng, s, lease, requestId, true, Some(digest)).value;
             SameTables(u, z) && z.turn == u.turn
    ensures Answers(eng, s, z, lease, requestId, true)
  {
    AllowanceAnswers(eng, s, lease, requestId);
    AnswersCarryOver(eng, s, Resolve(eng, s, lease, requestId, true, Some(digest)).value, z, lease, requestId, true);
  }

  lemma AllowingIsItsCommit(eng: Engine, s: State, lease: L.Lease, now: U64, command: Command, requestId: string)
    requires Known(eng, s, requestId) && command.expectedTurn + 1 < U64_LIMIT
    ensures var digest := Exact(eng, s.canonical[requestId], command.expectedTurn + 1, lease);
            ResolveSessionPermission(eng, s, lease, now, command, requestId, true) ==
            Commit(eng, s, lease, now, Request(command, ResolvePermission(requestId, true, Some(digest))))
  {}

  /** An answer accepted under a new command binds the effect anew or closes it; any other
      changes nothing. */
  lemma AnswerChanges(eng: Engine, s: State, lease: L.Lease, now: U64, command: Command, requestId: string, allow: bool)
    ensures var (z, r) := ResolveSessionPermission(eng, s, lease, now, command, requestId, allow);
            if r.Ok? && New(s, command) then Answers(eng, s, z, lease, requestId, allow) else z == s
  {
    var out := ResolveSessionPermission(eng, s, lease, now, command, requestId, allow);
    assert AnswerOutcome(eng, s, lease, command, requestId, allow, out) by {
      if !allow {
        DenyingChanges(eng, s, lease, now, command, requestId);
      } else if Known(eng, s, requestId) && command.expectedTurn + 1 < U64_LIMIT {
        AllowingIsItsCommit(eng, s, lease, now, command, requestId);
        AllowingCommit(eng, s, lease, now, command, requestId,
                       Exact(eng, s.canonical[requestId], command.expectedTurn + 1, lease));
      }
    }
  }

  ghost predicate Prepares(eng: Engine, s: State, z: State, lease: L.Lease, d: Descriptor) {
    match eng.policy(d)
    case None => false
    case Some(Allow) =>
      var digest := Exact(eng, d, s.turn.revision, lease);
      z.turn == s.turn && Inserts(s, z, d, digest, Allow, Capability(0, "", 0, "", false))
    case Some(Ask) =>
      && s.turn.revision + 2 < U64_LIMIT
      && var digest := Exact(eng, d, s.turn.revision + 2, lease);
         && z.turn.status == Turns.WaitingPermission && z.turn.revision == s.turn.revision + 1
         && z.turn.pendingPermission == Some(Turns.PendingPermission(
              eng.redact(d.effectId), eng.redact(digest), eng.redact(d.operation)))
         && Inserts(s, z, d, digest, Ask,
                    Capability(s.turn.revision + 2, lease.owner, lease.token, digest, false))
  }

  lemma PreparationPrepares(eng: Engine, s: State, lease: L.Lease, d: Descriptor, policy: Policy)
    requires eng.policy(d) == Some(policy)
    requires policy == Ask ==> s.turn.revision + 2 < U64_LIMIT
    ensures var revision := if policy == Ask then s.turn.revision + 2 else s.turn.revision;
            var r := Prepare(eng, s, lease, d, Exact(eng, d, revision, lease), policy);
            r.Ok? ==> Prepares(eng, s, r.value, lease, d)
  {}

  ghost predicate PrepareOutcome(eng: Engine, s: State, lease: L.Lease, command: Command, d: Descriptor,
                                 out: (State, Result<Response, Error>)) {
    if out.1.Ok? && New(s, command) then Prepares(eng, s, out.0, lease, d) else out.0 == s
  }

  lemma PreparingCommit(eng: Engine, s: State, lease: L.Lease, now: U64, command: Command, d: Descriptor,
                        policy: Policy, revision: U64)
    requires eng.policy(d) == Some(policy)
    requires revision == command.expectedTurn + if policy == Ask then 2 else 0
    ensures PrepareOutcome(eng, s, lease, command, d,
              Commit(eng, s, lease, now, Request(command, PrepareEffect(d, Exact(eng, d, revision, lease), policy))))
  {
    var request := Request(command, PrepareEffect(d, Exact(eng, d, revision, lease), policy));
    CommitIsItsUpdate(eng, s, lease, now, request);
    if Commit(eng, s, lease, now, request).1.Ok? && New(s, command) {
      PreparationPrepares(eng, s, lease, d, policy);
    }
  }

  lemma PrepareIsItsCommit(eng: Engine, s: State, lease: L.Lease, now: U64, command: Command, d: Descriptor,
                           policy: Policy, revision: U64)
    requires eng.policy(d) == Some(policy)
    requires revision == command.expectedTurn + if policy == Ask then 2 else 0
    ensures PrepareSessionEffect(eng, s, lease, now, command, d) ==
            Commit(eng, s, lease, now, Request(command, PrepareEffect(d, Exact(eng, d, revision, lease), policy)))
  {}

  lemma PrepareHasItsOutcome(eng: Engine, s: State, lease: L.Lease, now: U64, command: Command, d: Descriptor)
    ensures PrepareOutcome(eng, s, lease, command, d, PrepareSessionEffect(eng, s, lease, now, command, d))
  {
    match eng.policy(d)
    case None =>
    case Some(policy) =>
      if policy == Allow || command.expectedTurn + 2 < U64_LIMIT {
        var revision := command.expectedTurn + if policy == Ask then 2 else 0;
        PrepareIsItsCommit(eng, s, lease, now, command, d, policy, revision);
        PreparingCommit(eng, s, lease, now, command, d, policy, revision);
      }
  }

  /** A preparation accepted under a new command adds one effect, bound ahead if it must be
      asked for, and asks; any other answer changes nothing. */
  lemma PrepareChanges(eng: Engine, s: State, lease: L.Lease, now: U64, command: Command, d: Descriptor)
    ensures var (z, r) := PrepareSessionEffect(eng, s, lease, now, command, d);
            if r.Ok? && New(s, command) then Prepares(eng, s, z, lease, d) else z == s
  {
    PrepareHasItsOutcome(eng, s, lease, now, command, d);
  }

  /** A start repeated under its own command is answered as the first time and starts
      nothing: whoever lost the first reply holds the same authority again. */
  lemma RepeatedStartIsAnsweredAgain(eng: Engine, s: State, lease: L.Lease, now: U64, again: U64, command: Command,
                                     effectId: string, digest: string, z: State)
    requires New(s, command)
    requires StartSessionEffect(eng, s, lease, now, command, effectId, digest).1.Ok?
    requires Advances(StartSessionEffect(eng, s, lease, now, command, effectId, digest).0, z)
    ensures StartSessionEffect(eng, z, lease, again, command, effectId, digest) ==
            (z, StartSessionEffect(eng, s, lease, now, command, effectId, digest).1)
  {}
}
