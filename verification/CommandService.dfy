/** Service.Handle of internal/command/service.go as a step system.

    Any number of handlers, on any number of service objects over one ledger,
    run one program counter each. One step is one atomic action of one handler
    (a critical section, one SQL transaction under writeMu, one gate read, one
    call out), a crash, or a restart; everything the environment decides
    (commit faults, clocks, the authorizer's decision, the executor's outcome)
    is an argument of the step. A step that is not enabled changes nothing, so
    every sequence of steps is a run. */
module CommandService {
  import opened Wrappers
  import opened Ledger
  import RequestLocks

  // ------------------------------------------------------------------- replies

  datatype Reply =
    | Response(payload: Option<CommandResponse>)
    | ErrorReply(error: ErrorPayload)

  function Failure(code: ErrorCode, category: ErrorCategory, message: Message, retryable: bool, commandID: string): Reply {
    ErrorReply(ErrorPayload(code, category, message, retryable, commandID))
  }

  function PersistenceReply(commandID: string): Reply {
    Failure(LedgerPersistenceFailedCode, InternalError,
            StorageUnavailable, false, commandID)
  }

  function ConflictReply(commandID: string): Reply {
    Failure(CommandIDConflictCode, ConflictError, IDAlreadyUsed, false, commandID)
  }

  function UnavailableReply(commandID: string): Reply {
    Failure(InternalCode, InternalError, ResultUnavailable, true, commandID)
  }

  /** The answer built from a stored record. */
  function RecordResponse(r: Record): Reply {
    var id := r.claim.key.commandID;
    match r.status
    case Succeeded => Response(r.resultPayload)
    case Running => Response(Some(CommandResponse(id, r.claim.resource, r.claim.command, None, None, StatusRunning)))
    case AuthorizationUncertain =>
      Failure(AuthorizationOutcomeUnknownCode, InternalError,
              OutcomeOfAuthorizationUnknown, false, id)
    case AuthorizationPending => Failure(InternalCode, InternalError, BeingProcessed, true, id)
    case Accepted => Failure(InternalCode, InternalError, BeingProcessed, true, id)
    case _ => if r.errorPayload.Some? then ErrorReply(r.errorPayload.value) else UnavailableReply(id)
  }

  // ------------------------------------------------------------------ handlers

  /** A decoded request with everything Handle derives from it. */
  datatype Request =
    Request(claim: Claim, state: string, executionUID: nat, executionUsername: string, executionBoundary: string)

  datatype Pc =
    | Start
    | Admitted
    | Waiting
    | LookingUp
    | Validating
    | Reserving
    | Authorizing
    | Moving(from: Status, to: Status, data: TransitionData, reply: Reply)
    | Executing(tag: nat)
    | InFlight(tag: nat)
    | Awaiting(record: Record, seenAs: nat)
    | Polling(record: Record)
    | Repairing
    | Reconciling
    | Recovering
    | Verifying
    | Opening
    | Leaving(reply: Reply)
    | Dropping(reply: Reply)
    | Done(reply: Reply)

  /** `claimed` is the incarnation this handler's own claim created. */
  datatype Handler = Handler(service: nat, request: Request, pc: Pc, claimed: Option<nat>)

  /** The handler and the claim an incarnation was inserted for. */
  datatype Origin = Origin(handler: nat, claim: Claim)

  /** A call to the authorizer or the executor: who called, for which
      incarnation, and the claim whose operation and target were passed. */
  datatype Call = Call(handler: nat, incarnation: nat, claim: Claim)

  /** What the authorizer decided when a handler asked it about its claim. */
  datatype Consultation = Consultation(handler: nat, incarnation: nat, claim: Claim, decision: Decision)

  /** What the executor reported when the call for an incarnation returned. */
  datatype Return = Return(incarnation: nat, outcome: Outcome)

  datatype Answer = Answer(handler: nat, incarnation: nat, record: Record, reply: Reply)

  /** The table, with the incarnation of the newest row of each key in `incs`
      and where each incarnation came from in `origin`. `ran` and `seen` are
      history: incarnations whose running intent became durable, and the
      terminal record read or written for an incarnation. */
  datatype Rows =
    Rows(table: Table, incs: map<Key, nat>, origin: map<nat, Origin>, nextInc: nat,
         ran: set<nat>, seen: map<nat, Record>)

  /** History: the handler whose running commit was reported successful, every
      call made, every answer built from a terminal record, and the request each
      handler arrived with. */
  datatype Log =
    Log(confirmed: map<nat, nat>, authorizations: seq<Call>, approvals: set<Call>, dispatches: seq<Call>,
        answers: seq<Answer>, consulted: set<Consultation>, returned: set<Return>,
        arrived: map<nat, Request>)

  datatype Machine =
    Machine(up: bool, blocked: bool, writer: Option<nat>, handlers: map<nat, Handler>, nextHandler: nat,
            locks: RequestLocks.Locks, rows: Rows, log: Log)

  const BOOT: Machine :=
    Machine(false, false, None, map[], 0, RequestLocks.NO_LOCKS,
            Rows(map[], map[], map[], 0, {}, map[]), Log(map[], [], {}, [], [], {}, {}, map[]))

  function KeyOf(x: Handler): Key { x.request.claim.key }

  function LockKeyOf(x: Handler): RequestLocks.LockKey {
    RequestLocks.LockKey(x.service, RequestLocks.LockName(KeyOf(x).callerUID, KeyOf(x).commandID))
  }

  function IdOf(x: Handler): string { KeyOf(x).commandID }

  function Goto(s: Machine, h: nat, pc: Pc): Machine
    requires h in s.handlers
  {
    s.(handlers := s.handlers[h := s.handlers[h].(pc := pc)])
  }

  predicate At(s: Machine, h: nat) {
    s.up && h in s.handlers
  }

  function Note(w: Rows, inc: nat, r: Record): Rows {
    if Unresolved(r.status) then w else w.(seen := w.seen[inc := r])
  }

  // ------------------------------------------------------------- entry and lock

  function Arrive(s: Machine, service: nat, r: Request): Machine {
    if s.up then
      s.(handlers := s.handlers[s.nextHandler := Handler(service, r, Start, None)], nextHandler := s.nextHandler + 1,
         log := s.log.(arrived := s.log.arrived[s.nextHandler := r]))
    else s
  }

  function CheckAdmission(s: Machine, h: nat): Machine {
    if At(s, h) && s.handlers[h].pc.Start? then Goto(s, h, if s.blocked then Repairing else Admitted) else s
  }

  function LockRef(s: Machine, h: nat): Machine {
    if At(s, h) && s.handlers[h].pc.Admitted? then
      Goto(s, h, Waiting).(locks := RequestLocks.Ref(s.locks, h, LockKeyOf(s.handlers[h])))
    else s
  }

  function LockAcquire(s: Machine, h: nat): Machine {
    var l := RequestLocks.Acquire(s.locks, h);
    if At(s, h) && s.handlers[h].pc.Waiting? && RequestLocks.Holds(l, h) then
      Goto(s, h, LookingUp).(locks := l)
    else s
  }

  /** `locksMu` is taken again after the lock object is released. A handler that
      never took a lock (a closed gate at entry) just returns. */
  function LockRelease(s: Machine, h: nat): Machine {
    if At(s, h) && s.handlers[h].pc.Leaving? then
      var reply := s.handlers[h].pc.reply;
      if h in s.locks.tickets then
        Goto(s, h, Dropping(reply)).(locks := RequestLocks.Release(s.locks, h))
      else Goto(s, h, Done(reply))
    else s
  }

  function LockUnref(s: Machine, h: nat): Machine {
    if At(s, h) && s.handlers[h].pc.Dropping? then
      Goto(s, h, Done(s.handlers[h].pc.reply)).(locks := RequestLocks.Unref(s.locks, h))
    else s
  }

  // ------------------------------------------------------------ reading the row

  /** Both Lookup calls: a broken read closes the gate, an interrupted one does not. */
  function AfterLookupError(s: Machine, h: nat, fault: ReadFault): Machine
    requires h in s.handlers
  {
    Goto(s, h, Repairing).(blocked := s.blocked || fault == ReadBroken)
  }

  function SawRecord(s: Machine, h: nat, r: Record): Machine
    requires h in s.handlers
  {
    var k := KeyOf(s.handlers[h]);
    if r.claim.requestFingerprint != s.handlers[h].request.claim.requestFingerprint then
      Goto(s, h, Leaving(ConflictReply(IdOf(s.handlers[h]))))
    else if k in s.rows.incs then
      Goto(s, h, Awaiting(r, s.rows.incs[k])).(rows := Note(s.rows, s.rows.incs[k], r))
    else s
  }

  function LookUp(s: Machine, h: nat, now: int, fault: ReadFault): Machine {
    if At(s, h) && s.handlers[h].pc.LookingUp? then
      if fault != ReadOk then AfterLookupError(s, h, fault)
      else
        var r := Find(s.rows.table, KeyOf(s.handlers[h]), now);
        if r.Some? then SawRecord(s, h, r.value) else Goto(s, h, Validating)
    else s
  }

  /** What the checks between the lookup and the claim can find: an operation the
      registry does not have, arguments that do not go with it, or a node the
      cache does not know. */
  datatype Rejection = UnsupportedCommand | InvalidArguments | UnknownTarget

  function Rejected(why: Rejection, commandID: string): Reply {
    match why
    case UnsupportedCommand => Failure(InvalidCommandCode, ValidationError, UnsupportedOperation, false, commandID)
    case InvalidArguments => Failure(InvalidPayloadCode, ValidationError, InvalidCommandPayload, false, commandID)
    case UnknownTarget => Failure(InvalidPayloadCode, ValidationError, TargetUnavailable, false, commandID)
  }

  /** Without a rejection there is still the execution boundary to be known. */
  function AfterValidation(r: Request, rejection: Option<Rejection>): Pc {
    var id := r.claim.key.commandID;
    if rejection.Some? then Leaving(Rejected(rejection.value, id))
    else if r.executionUsername == "" || r.executionBoundary == "" then
      Leaving(Failure(InternalCode, InternalError, BoundaryUnavailable, true, id))
    else Reserving
  }

  function Validate(s: Machine, h: nat, rejection: Option<Rejection>): Machine {
    if At(s, h) && s.handlers[h].pc.Validating? then Goto(s, h, AfterValidation(s.handlers[h].request, rejection)) else s
  }

  /** One turn of awaitRecord's loop condition and gate check. */
  function Await(s: Machine, h: nat): Machine {
    if At(s, h) && s.handlers[h].pc.Awaiting? then
      var r := s.handlers[h].pc.record;
      if r.status == AuthorizationPending || r.status == Accepted then
        Goto(s, h, if s.blocked then Repairing else Polling(r))
      else
        var inc := s.handlers[h].pc.seenAs;
        var reply := RecordResponse(r);
        var s' := Goto(s, h, Leaving(reply));
        if Unresolved(r.status) then s' else s'.(log := s.log.(answers := s.log.answers + [Answer(h, inc, r, reply)]))
    else s
  }

  function Poll(s: Machine, h: nat, cancelled: bool, now: int, fault: ReadFault): Machine {
    if At(s, h) && s.handlers[h].pc.Polling? then
      if cancelled then
        Goto(s, h, Leaving(Failure(InternalCode, InternalError, StillBeingProcessed, true, IdOf(s.handlers[h]))))
      else if fault != ReadOk then AfterLookupError(s, h, fault)
      else
        var r := Find(s.rows.table, KeyOf(s.handlers[h]), now);
        if r.Some? then SawRecord(s, h, r.value) else Goto(s, h, Repairing)
    else s
  }

  // ----------------------------------------------------- the ledger's write lock

  /** writeMu.Lock followed by the gate check, for each of the three writing
      operations. The argument checks come first and need no lock. */
  function EnterWriter(s: Machine, h: nat): Machine {
    if At(s, h) && s.writer.None? then
      var x := s.handlers[h];
      match x.pc
      case Reserving =>
        if !ValidClaim(x.request.claim) || s.blocked then Goto(s, h, Repairing) else s.(writer := Some(h))
      case Moving(from, to, data, _) =>
        if !Admissible(from, to, data) || s.blocked then Goto(s, h, Repairing) else s.(writer := Some(h))
      case Reconciling =>
        if s.blocked then Goto(s, h, Recovering).(writer := Some(h))
        else Goto(s, h, Leaving(PersistenceReply(IdOf(x))))
      case _ => s
    else s
  }

  predicate Inside(s: Machine, h: nat) {
    At(s, h) && s.writer == Some(h)
  }

  /** A storage failure: the gate closes before writeMu is released. */
  function Block(s: Machine, h: nat): Machine
    requires h in s.handlers
  {
    Goto(s, h, Repairing).(blocked := true, writer := None)
  }

  function InsertRow(w: Rows, h: nat, c: Claim, t: Table, created: bool): Rows {
    if created then
      w.(table := t, incs := w.incs[c.key := w.nextInc], origin := w.origin[w.nextInc := Origin(h, c)],
         nextInc := w.nextInc + 1)
    else w.(table := t)
  }

  function CommitClaim(s: Machine, h: nat, now: int, fault: TxFault): Machine {
    if Inside(s, h) && s.handlers[h].pc.Reserving? then
      var x := s.handlers[h];
      if fault == BeforeCommit then Block(s, h)
      else
        match ReserveTx(s.rows.table, x.request.claim, now)
        case Conflict => Goto(s, h, Leaving(ConflictReply(IdOf(x)))).(writer := None)
        case Written(t, r, created) =>
          var w := InsertRow(s.rows, h, x.request.claim, t, created);
          if fault == CommitLost then Block(s, h)
          else if fault == CommitApplied then Block(s, h).(rows := w)
          else if created then
            s.(handlers := s.handlers[h := x.(pc := Authorizing, claimed := Some(s.rows.nextInc))],
               rows := w, writer := None)
          else SawRecord(s.(rows := w, writer := None), h, r)
    else s
  }

  /** What a successful status write leaves behind in the row and the history. */
  function WriteStatus(w: Rows, k: Key, to: Status, d: TransitionData, now: int): Rows
    requires k in w.table && k in w.incs
  {
    var r := Merge(w.table[k], to, d, now);
    Note(w.(table := w.table[k := r], ran := if to == Running then w.ran + {w.incs[k]} else w.ran), w.incs[k], r)
  }

  function RunningData(r: Request): TransitionData {
    NO_DATA.(executionUID := Some(r.executionUID), executionUsername := r.executionUsername,
             executionBoundary := r.executionBoundary)
  }

  /** Where a handler goes after its transition was reported successful. */
  function Continue(s: Machine, h: nat, inc: nat, r: Record): Machine
    requires h in s.handlers && s.handlers[h].pc.Moving?
  {
    var x := s.handlers[h];
    match x.pc.to
    case Accepted => Goto(s, h, Moving(Accepted, Running, RunningData(x.request), x.pc.reply))
    case Running => Goto(s, h, Executing(inc)).(log := s.log.(confirmed := s.log.confirmed[inc := h]))
    case _ =>
      Goto(s, h, Leaving(x.pc.reply)).(log := s.log.(answers := s.log.answers + [Answer(h, inc, r, x.pc.reply)]))
  }

  function CommitMove(s: Machine, h: nat, now: int, fault: TxFault, conflictRead: ReadFault): Machine {
    if Inside(s, h) && s.handlers[h].pc.Moving? then
      var k := KeyOf(s.handlers[h]);
      var pc := s.handlers[h].pc;
      if fault == BeforeCommit then Block(s, h)
      else if !Matches(s.rows.table, k, pc.from) || k !in s.rows.incs then
        Goto(s, h, Repairing).(writer := None, blocked := s.blocked || conflictRead != ReadOk)
      else if fault == CommitLost then Block(s, h)
      else
        var w := WriteStatus(s.rows, k, pc.to, pc.data, now);
        if fault == CommitApplied then Block(s, h).(rows := w)
        else Continue(s.(rows := w, writer := None), h, w.incs[k], w.table[k])
    else s
  }

  // --------------------------------------------------- authorizer and executor

  datatype Decision =
    | LookupFailed
    | Decision(requiredCapability: string, uid: nat, gid: nat, username: string, allowed: bool,
               adminLevel: AdminLevel, authorizedAt: int)

  function Refuse(to: Status, e: ErrorPayload): Pc {
    Moving(AuthorizationPending, to, NO_DATA.(errorPayload := Some(e)), ErrorReply(e))
  }

  function Decide(x: Handler, d: Decision): Pc {
    var id := IdOf(x);
    var c := x.request.claim;
    var broken := Refuse(AuthorizationFailed,
                         ErrorPayload(InternalCode, InternalError, AuthorizationUnavailable, true, id));
    match d
    case LookupFailed =>
      Refuse(AuthorizationFailed,
             ErrorPayload(UserLookupFailedCode, InternalError, UserInformationUnavailable, true, id))
    case Decision(capability, uid, gid, username, allowed, adminLevel, at) =>
      if capability != c.requiredCapability || uid != c.key.callerUID || gid != c.requestingGID
         || username != c.requestingUsername then broken
      else if !allowed then
        Refuse(Denied,
               ErrorPayload(AuthorizationDeniedCode, AuthorizationError, NotAuthorized, false, id))
      else if adminLevel != Admin then broken
      else
        Moving(AuthorizationPending, Accepted,
               NO_DATA.(adminLevel := adminLevel,
                        authorizationMetadata := Some(AuthorizationMetadata(c.requiredCapability, at))),
               PersistenceReply(id))
  }

  function Authorize(s: Machine, h: nat, d: Decision): Machine {
    if At(s, h) && s.handlers[h].pc.Authorizing? && s.handlers[h].claimed.Some? then
      var call := Call(h, s.handlers[h].claimed.value, s.handlers[h].request.claim);
      var pc := Decide(s.handlers[h], d);
      Goto(s, h, pc).(log := s.log.(
        authorizations := s.log.authorizations + [call],
        consulted := s.log.consulted + {Consultation(h, call.incarnation, call.claim, d)},
        approvals := if pc.Moving? && pc.to == Accepted then s.log.approvals + {call} else s.log.approvals))
    else s
  }

  function CallExecutor(s: Machine, h: nat): Machine {
    if At(s, h) && s.handlers[h].pc.Executing? then
      var inc := s.handlers[h].pc.tag;
      Goto(s, h, InFlight(inc))
        .(log := s.log.(dispatches := s.log.dispatches + [Call(h, inc, s.handlers[h].request.claim)]))
    else s
  }

  datatype Outcome = OutcomeSucceeded | OutcomeRejected | OutcomeUncertain

  /** What an owner stores when it cannot tell whether the executor acted. */
  function UncertainError(id: string): ErrorPayload {
    ErrorPayload(CommandOutcomeUnknownCode, TimeoutError, OutcomeUnknown, false, id)
  }

  function Conclude(x: Handler, o: Outcome): Pc {
    var id := IdOf(x);
    var c := x.request.claim;
    match o
    case OutcomeSucceeded =>
      var p := CommandResponse(id, c.resource, c.command, Some(c.targetNode), Some(x.request.state), StatusSucceeded);
      Moving(Running, Succeeded, NO_DATA.(resultPayload := Some(p)), Response(Some(p)))
    case OutcomeRejected =>
      var e := ErrorPayload(SlurmCommandFailedCode, SlurmError, SlurmRejected, false, id);
      Moving(Running, Failed, NO_DATA.(errorPayload := Some(e)), ErrorReply(e))
    case OutcomeUncertain =>
      var e := UncertainError(id);
      Moving(Running, Unknown, NO_DATA.(errorPayload := Some(e)), ErrorReply(e))
  }

  function ExecutorReturns(s: Machine, h: nat, o: Outcome): Machine {
    if At(s, h) && s.handlers[h].pc.InFlight? then
      Goto(s, h, Conclude(s.handlers[h], o))
        .(log := s.log.(returned := s.log.returned + {Return(s.handlers[h].pc.tag, o)}))
    else s
  }

  // ------------------------------------------------------------- reconciliation

  /** persistenceError's own gate check. */
  function CheckGate(s: Machine, h: nat): Machine {
    if At(s, h) && s.handlers[h].pc.Repairing? then
      Goto(s, h, if s.blocked then Reconciling else Leaving(PersistenceReply(IdOf(s.handlers[h]))))
    else s
  }

  function GiveUp(s: Machine, h: nat): Machine
    requires h in s.handlers
  {
    Goto(s, h, Leaving(PersistenceReply(IdOf(s.handlers[h])))).(blocked := true, writer := None)
  }

  /** The integrity check and the recovery statement. */
  function RecoverRows(s: Machine, h: nat, integrityOk: bool, now: int, fault: TxFault): Machine {
    if Inside(s, h) && s.handlers[h].pc.Recovering? then
      if !integrityOk || fault == BeforeCommit || fault == CommitLost then GiveUp(s, h)
      else
        var s' := s.(rows := s.rows.(table := Recover(s.rows.table, now)));
        if fault == NoFault then Goto(s', h, Verifying) else GiveUp(s', h)
    else s
  }

  /** The WAL checkpoint and the count of unresolved rows. */
  function VerifyRows(s: Machine, h: nat, checkpointOk: bool): Machine {
    if Inside(s, h) && s.handlers[h].pc.Verifying? then
      if checkpointOk && NoneUnresolved(s.rows.table) then Goto(s, h, Opening) else GiveUp(s, h)
    else s
  }

  function OpenGate(s: Machine, h: nat): Machine {
    if Inside(s, h) && s.handlers[h].pc.Opening? then
      Goto(s, h, Leaving(PersistenceReply(IdOf(s.handlers[h])))).(blocked := false, writer := None)
    else s
  }

  // ---------------------------------------------------------- crash and restart

  /** The process dies: every handler, lock and the gate flag are gone; the
      table stays as it is. */
  function Crash(s: Machine): Machine {
    s.(up := false, blocked := false, writer := None, handlers := map[], locks := RequestLocks.NO_LOCKS)
  }

  /** Open: integrity, recovery, purge. Any failure leaves the process down,
      possibly with the recovery already durable. */
  function Reopen(s: Machine, integrityOk: bool, now: int, recovery: TxFault, purge: TxFault): Machine {
    if s.up || !integrityOk || recovery == BeforeCommit || recovery == CommitLost then s
    else
      var t := Recover(s.rows.table, now);
      if recovery == CommitApplied || purge == BeforeCommit || purge == CommitLost then
        s.(rows := s.rows.(table := t))
      else s.(rows := s.rows.(table := Purge(t, now)), up := purge == NoFault)
  }

  // ----------------------------------------------------------------------- runs

  datatype Step =
    | DoArrive(service: nat, request: Request)
    | DoCheckAdmission(h: nat)
    | DoLockRef(h: nat)
    | DoLockAcquire(h: nat)
    | DoLookUp(h: nat, now: int, readFault: ReadFault)
    | DoValidate(h: nat, rejection: Option<Rejection>)
    | DoAwait(h: nat)
    | DoPoll(h: nat, cancelled: bool, now: int, readFault: ReadFault)
    | DoEnterWriter(h: nat)
    | DoCommitClaim(h: nat, now: int, fault: TxFault)
    | DoAuthorize(h: nat, decision: Decision)
    | DoCommitMove(h: nat, now: int, fault: TxFault, readFault: ReadFault)
    | DoCallExecutor(h: nat)
    | DoExecutorReturns(h: nat, outcome: Outcome)
    | DoCheckGate(h: nat)
    | DoRecoverRows(h: nat, ok: bool, now: int, fault: TxFault)
    | DoVerifyRows(h: nat, ok: bool)
    | DoOpenGate(h: nat)
    | DoLockRelease(h: nat)
    | DoLockUnref(h: nat)
    | DoCrash
    | DoReopen(ok: bool, now: int, fault: TxFault, purgeFault: TxFault)

  function Next(s: Machine, a: Step): Machine {
    match a
    case DoArrive(service, request) => Arrive(s, service, request)
    case DoCheckAdmission(h) => CheckAdmission(s, h)
    case DoLockRef(h) => LockRef(s, h)
    case DoLockAcquire(h) => LockAcquire(s, h)
    case DoLookUp(h, now, fault) => LookUp(s, h, now, fault)
    case DoValidate(h, rejection) => Validate(s, h, rejection)
    case DoAwait(h) => Await(s, h)
    case DoPoll(h, cancelled, now, fault) => Poll(s, h, cancelled, now, fault)
    case DoEnterWriter(h) => EnterWriter(s, h)
    case DoCommitClaim(h, now, fault) => CommitClaim(s, h, now, fault)
    case DoAuthorize(h, d) => Authorize(s, h, d)
    case DoCommitMove(h, now, fault, read) => CommitMove(s, h, now, fault, read)
    case DoCallExecutor(h) => CallExecutor(s, h)
    case DoExecutorReturns(h, o) => ExecutorReturns(s, h, o)
    case DoCheckGate(h) => CheckGate(s, h)
    case DoRecoverRows(h, ok, now, fault) => RecoverRows(s, h, ok, now, fault)
    case DoVerifyRows(h, ok) => VerifyRows(s, h, ok)
    case DoOpenGate(h) => OpenGate(s, h)
    case DoLockRelease(h) => LockRelease(s, h)
    case DoLockUnref(h) => LockUnref(s, h)
    case DoCrash => Crash(s)
    case DoReopen(ok, now, fault, purge) => Reopen(s, ok, now, fault, purge)
  }

  function Run(s: Machine, steps: seq<Step>): Machine
    decreases |steps|
  {
    if steps == [] then s else Run(Next(s, steps[0]), steps[1..])
  }
}
