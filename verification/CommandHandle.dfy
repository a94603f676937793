/** Service.Handle as the sequential program it is for one request, over the
    ledger, the lock table, the authorizer and the executor. Every statement that
    acts on shared state also takes the corresponding step of the transition
    system, and the object keeps the two in agreement: its trace is a run, its
    table and gate are the run's, and what the authorizer and the executor were
    asked is what the run's log says. So what holds of all runs holds of what
    these methods do. */
module CommandHandle {
  import opened Wrappers
  import opened Ledger
  import opened CommandService
  import opened CommandSteps
  import opened CommandOwnClaims
  import opened CommandRuns
  import opened CommandTheorems
  import opened CommandPermission
  import opened CommandMeanings
  import opened CommandTruth
  import opened CommandAnswers
  import opened CommandHandleRuns

  /** The authorizer and the executor may answer anything. They outlive the
      service and remember what they were asked. */
  class Authorizer {
    var asked: seq<Claim>

    constructor ()
      ensures asked == []
    {
      asked := [];
    }

    method Authorize(c: Claim) returns (d: Decision)
      modifies this
      ensures asked == old(asked) + [c]
    {
      asked := asked + [c];
      d := *;
    }
  }

  class Executor {
    var executed: seq<Claim>

    constructor ()
      ensures executed == []
    {
      executed := [];
    }

    method Execute(c: Claim) returns (o: Outcome)
      modifies this
      ensures executed == old(executed) + [c]
    {
      executed := executed + [c];
      o := *;
    }
  }

  /** What one request adds to the executor's record and to the log. */
  predicate CalledOnceAtMost(before: seq<Call>, after: seq<Call>, r: Request, t: Table) {
    after == before
    || (|after| == |before| + 1 && after[..|before|] == before && after[|before|].claim == r.claim
        && r.claim.key in t && Reached(t[r.claim.key].status))
  }

  /** The answer after a commit: the row's own if the commit was reported
      successful, and otherwise the persistence error. */
  predicate Answered(reply: Reply, r: Request, t: Table, reported: bool) {
    if reported then
      r.claim.key in t && !Unresolved(t[r.claim.key].status) && reply == RecordResponse(t[r.claim.key])
    else reply == PersistenceReply(r.claim.key.commandID)
  }

  /** A committed decision that is no permission: the row says so, with the error
      that the requester is told. */
  predicate Refused(r: Request, d: Decision, t: Table, reply: Reply) {
    && r.claim.key in t && t[r.claim.key].errorPayload.Some?
    && RefusedWith(r.claim, d, t[r.claim.key].status, t[r.claim.key].errorPayload.value)
    && reply == ErrorReply(t[r.claim.key].errorPayload.value)
  }

  lemma RefusedMeans(r: Request, d: Decision, t: Table, reply: Reply)
    ensures Refused(r, d, t, reply) && Refuses(r.claim, d) ==>
              && r.claim.key in t && t[r.claim.key].status == Denied
              && reply == ErrorReply(ErrorPayload(AuthorizationDeniedCode, AuthorizationError, NotAuthorized, false,
                                                  r.claim.key.commandID))
  {
  }

  /** Storing a ruling stores its error. */
  lemma RulingStored(r: Request, d: Decision, move: Pc, t: Table, now: int)
    requires Ruling(r.claim, d, move) && move.to != Accepted && r.claim.key in t
    ensures Refused(r, d, t[r.claim.key := Merge(t[r.claim.key], move.to, move.data, now)], move.reply)
  {
  }

  lemma TakenSince(before: seq<Step>, middle: seq<Step>, trace: seq<Step>, a: Step, b: Step)
    requires before <= middle && middle + [a, b] <= trace
    ensures b in trace[|before|..]
  {
    assert trace[|before|..][|middle| - |before| + 1] == trace[|middle| + 1] == (middle + [a, b])[|middle| + 1];
  }

  lemma CalledOnce(before: seq<Call>, call: Call, r: Request, t: Table)
    requires call.claim == r.claim && r.claim.key in t && Reached(t[r.claim.key].status)
    ensures CalledOnceAtMost(before, before + [call], r, t)
  {
  }

  lemma NotCalled(calls: seq<Call>, r: Request, t: Table)
    ensures CalledOnceAtMost(calls, calls, r, t)
  {
  }

  /** Every reply of a run at one service is true. */
  lemma RepliedTrue(steps: seq<Step>, h: nat)
    requires SingleService(steps)
    requires h in Run(BOOT, steps).handlers && Run(BOOT, steps).handlers[h].pc.Done?
    ensures var s := Run(BOOT, steps); ReplyTrue(s.rows, s.log, s.handlers[h], s.handlers[h].pc.reply)
  {
    hide Run, ReplyTrue;
    SingleServiceApart();
    EveryReply(AtService(0), steps, h);
  }

  class Service {
    const ledger: CommandLedger
    const locks: RequestLocks.RequestLockTable
    const authorizer: Authorizer
    const executor: Executor
    var nextHandler: nat
    ghost var machine: Machine
    ghost var trace: seq<Step>
    /** The trace when the current request arrived. */
    ghost var earlier: seq<Step>

    ghost predicate Valid()
      reads this, ledger, locks, authorizer, executor
    {
      && machine == Run(BOOT, trace) && SingleService(trace) && earlier <= trace
      && machine.up && machine.writer.None?
      && machine.rows.table == ledger.table && machine.blocked == ledger.blocked
      && machine.locks == locks.state && machine.nextHandler == nextHandler
      && authorizer.asked == ClaimsOf(machine.log.authorizations)
      && executor.executed == ClaimsOf(machine.log.dispatches)
    }

    ghost predicate Here(h: nat, r: Request)
      reads this
    {
      h in machine.handlers && machine.handlers[h].request == r && machine.handlers[h].service == 0
    }

    ghost predicate HereAt(h: nat, r: Request, pc: Pc)
      reads this
    {
      Here(h, r) && machine.handlers[h].pc == pc
    }

    /** A service opened over what an earlier process left behind when it died. */
    constructor (onDisk: Table, now: int, firstHandler: nat, authorizer: Authorizer, executor: Executor, ghost before: seq<Step>)
      requires SingleService(before)
      requires var s := Run(BOOT, before);
               && s.rows.table == onDisk && s.nextHandler == firstHandler
               && authorizer.asked == ClaimsOf(s.log.authorizations) && executor.executed == ClaimsOf(s.log.dispatches)
      ensures Valid() && trace == before + [DoCrash, DoReopen(true, now, NoFault, NoFault)]
      ensures machine.locks.tickets == map[] && RequestLocks.Inv(locks.state) && fresh(ledger) && fresh(locks)
      ensures this.authorizer == authorizer && this.executor == executor
    {
      this.authorizer, this.executor := authorizer, executor;
      ledger := new CommandLedger.Open(onDisk, now);
      locks := new RequestLocks.RequestLockTable();
      nextHandler := firstHandler;
      machine := Run(Run(BOOT, before), [DoCrash, DoReopen(true, now, NoFault, NoFault)]);
      trace := before + [DoCrash, DoReopen(true, now, NoFault, NoFault)];
      earlier := [];
      new;
      hide Run, Purge, Recover, ClaimsOf;
      RunSplit(BOOT, before, [DoCrash, DoReopen(true, now, NoFault, NoFault)]);
      Restarted(Run(BOOT, before), now);
    }

    /** Steps in a row. */
    ghost method Take(steps: seq<Step>)
      requires machine == Run(BOOT, trace) && SingleService(trace) && earlier <= trace && SingleService(steps)
      modifies this`machine, this`trace
      ensures machine == Run(old(machine), steps) && trace == old(trace) + steps
      ensures machine == Run(BOOT, trace) && SingleService(trace) && earlier <= trace
    {
      hide Run;
      RunSplit(BOOT, trace, steps);
      machine := Run(machine, steps);
      trace := trace + steps;
    }

    /** One step other than an arrival. */
    ghost method Do(a: Step)
      requires machine == Run(BOOT, trace) && SingleService(trace) && earlier <= trace && !a.DoArrive?
      modifies this`machine, this`trace
      ensures machine == Next(old(machine), a) && trace == old(trace) + [a]
      ensures machine == Run(BOOT, trace) && SingleService(trace) && earlier <= trace
    {
      hide Run, Next;
      RunOne(machine, a);
      Take([a]);
    }

    // ----------------------------------------------------------------- reading the row

    /** Lookup, and the fingerprint check on what it found. */
    method FindRecord(h: nat, r: Request, now: int, fault: ReadFault) returns (found: Result<Option<Record>, LedgerError>)
      requires Valid() && HereAt(h, r, LookingUp)
      modifies this`machine, this`trace, ledger
      ensures Valid() && Here(h, r) && Steady(old(machine), machine) && machine.log == old(machine.log)
      ensures trace == old(trace) + [DoLookUp(h, now, fault)]
      ensures ledger.table == old(ledger.table) && (ledger.blocked <==> old(ledger.blocked) || fault == ReadBroken)
      ensures found.Ok? <==> fault == ReadOk
      ensures found.Ok? ==> found.value == Find(ledger.table, r.claim.key, now)
      ensures AfterLookup(machine.handlers[h].pc, r, found)
    {
      hide Run, SingleService, ClaimsOf;
      RowsKnown(machine, trace);
      found := ledger.Lookup(r.claim.key, now, fault);
      Do(DoLookUp(h, now, fault));
    }

    /** awaitRecord's second lookup: the row it was waiting on may be gone. */
    method PollRecord(h: nat, r: Request, record: Record, now: int, fault: ReadFault)
      returns (found: Result<Option<Record>, LedgerError>)
      requires Valid() && HereAt(h, r, Polling(record))
      modifies this`machine, this`trace, ledger
      ensures Valid() && Here(h, r) && Steady(old(machine), machine) && machine.log == old(machine.log)
      ensures trace == old(trace) + [DoPoll(h, false, now, fault)]
      ensures ledger.table == old(ledger.table)
      ensures found.Ok? ==> found.value == Find(ledger.table, r.claim.key, now)
      ensures AfterPoll(machine.handlers[h].pc, r, found)
    {
      hide Run, SingleService, ClaimsOf;
      RowsKnown(machine, trace);
      found := ledger.Lookup(r.claim.key, now, fault);
      Do(DoPoll(h, false, now, fault));
    }

    /** The context ends while waiting. */
    ghost method StopPolling(h: nat, r: Request, record: Record)
      requires Valid() && HereAt(h, r, Polling(record))
      modifies this`machine, this`trace
      ensures Valid() && HereAt(h, r, Leaving(StillProcessing(r)))
      ensures Steady(old(machine), machine) && machine.log == old(machine.log)
    {
      hide Run, SingleService, ClaimsOf;
      Do(DoPoll(h, true, 0, ReadOk));
    }

    /** The loop condition, the gate check, and the answer of a decided record. */
    ghost method Turn(h: nat, r: Request, record: Record)
      requires Valid() && Here(h, r) && machine.handlers[h].pc.Awaiting? && machine.handlers[h].pc.record == record
      modifies this`machine, this`trace
      ensures Valid() && Steady(old(machine), machine) && NoCalls(old(machine), machine)
      ensures HereAt(h, r, if !Undecided(record) then Leaving(RecordResponse(record))
                           else if ledger.blocked then Repairing else Polling(record))
    {
      hide Run, SingleService, ClaimsOf, RecordResponse;
      Do(DoAwait(h));
    }

    /** The context allows `patience` more turns. A decided record is answered at
        once; otherwise the answer is that of a decided record found later, or
        one of the ways to give up. */
    method AwaitRecord(h: nat, r: Request, first: Record, patience: nat) returns (reply: Reply, ghost decided: Option<Record>)
      requires Valid() && Here(h, r) && machine.handlers[h].pc.Awaiting? && machine.handlers[h].pc.record == first
      modifies this`machine, this`trace, ledger
      ensures Valid() && HereAt(h, r, Leaving(reply)) && Steady(old(machine), machine)
      ensures NoCalls(old(machine), machine)
      ensures !Undecided(first) ==> reply == RecordResponse(first) && ledger.table == old(ledger.table)
      ensures Undecided(first) ==> AwaitAnswer(reply, r, old(ledger.table))
      ensures decided.Some? ==>
                && Replays(decided.value, reply) && decided.value.status !in {AuthorizationPending, Accepted}
                && (decided.value == first || (r.claim.key in old(ledger.table) && decided.value == old(ledger.table)[r.claim.key]))
      ensures decided.Some? && decided.value.status == AuthorizationUncertain ==>
                reply == ErrorReply(ErrorPayload(AuthorizationOutcomeUnknownCode, InternalError, OutcomeOfAuthorizationUnknown, false,
                                                 decided.value.claim.key.commandID))
      ensures decided.Some? && decided.value.status == Running ==>
                reply == Response(Some(CommandResponse(decided.value.claim.key.commandID, decided.value.claim.resource,
                                                       decided.value.claim.command, None, None, StatusRunning)))
      ensures decided.None? ==>
                && first.status in {AuthorizationPending, Accepted} && reply.ErrorReply?
                && var id := r.claim.key.commandID;
                   reply.error in {ErrorPayload(LedgerPersistenceFailedCode, InternalError, StorageUnavailable, false, id),
                                   ErrorPayload(InternalCode, InternalError, StillBeingProcessed, true, id),
                                   ErrorPayload(CommandIDConflictCode, ConflictError, IDAlreadyUsed, false, id)}
    {
      hide Run, SingleService, ClaimsOf, RecordResponse;
      decided := None;
      var record := first;
      var turns := patience;
      while Undecided(record)
        invariant Valid() && Here(h, r) && machine.handlers[h].pc.Awaiting? && machine.handlers[h].pc.record == record
        invariant Steady(old(machine), machine) && NoCalls(old(machine), machine) && ledger.table == old(ledger.table)
        invariant record == first || (Undecided(first) && r.claim.key in ledger.table && ledger.table[r.claim.key] == record
                                      && record.claim.requestFingerprint == r.claim.requestFingerprint)
        decreases turns
      {
        Turn(h, r, record);
        if ledger.blocked {
          reply := PersistenceError(h, r);
          return;
        }
        if turns == 0 {
          StopPolling(h, r, record);
          return StillProcessing(r), None;
        }
        var now: int, fault: ReadFault := *, *;
        var updated := PollRecord(h, r, record, now, fault);
        if updated.Err? || updated.value.None? {
          reply := PersistenceError(h, r);
          return;
        }
        if updated.value.value.claim.requestFingerprint != r.claim.requestFingerprint {
          return ConflictReply(r.claim.key.commandID), None;
        }
        record := updated.value.value;
        turns := turns - 1;
      }
      Turn(h, r, record);
      RecordResponseMeans(record, RecordResponse(record));
      reply, decided := RecordResponse(record), Some(record);
    }

    // ------------------------------------------------------------------ reconciliation

    /** persistenceError: one attempt to reconcile if the gate is closed, and the
        same answer either way. */
    method PersistenceError(h: nat, r: Request) returns (reply: Reply)
      requires Valid() && HereAt(h, r, Repairing)
      modifies this`machine, this`trace, ledger
      ensures Valid() && HereAt(h, r, Leaving(reply)) && Steady(old(machine), machine) && machine.log == old(machine.log)
      ensures reply == PersistenceReply(r.claim.key.commandID)
      ensures !old(ledger.blocked) ==>
                trace == old(trace) + [DoCheckGate(h)] && ledger.table == old(ledger.table) && !ledger.blocked
      ensures old(ledger.blocked) ==>
                exists ok, now, fault, checkpointOk ::
                  && trace == old(trace) + [DoCheckGate(h)] + Reconciliation(h, ok, now, fault, checkpointOk)
                  && ledger.blocked == !(ok && fault == NoFault && checkpointOk)
                  && ledger.table == (if ok && (fault == NoFault || fault == CommitApplied) then Recover(old(ledger.table), now)
                                      else old(ledger.table))
      ensures forall k <- old(ledger.table) :: Reached(old(ledger.table)[k].status) ==>
                k in ledger.table && Reached(ledger.table[k].status)
    {
      hide Run, SingleService, ClaimsOf, Recover, Reached, Reconciliation;
      Do(DoCheckGate(h));
      if ledger.blocked {
        var ok: bool, now: int, fault: TxFault, checkpointOk: bool := *, *, *, *;
        RecoverKeepsReached(ledger.table, now);
        Reconcile(h, r, ok, now, fault, checkpointOk);
      }
      reply := PersistenceReply(r.claim.key.commandID);
    }

    /** Reconciliation through the ledger object is the four steps in a row. */
    method Reconcile(h: nat, r: Request, integrityOk: bool, now: int, fault: TxFault, checkpointOk: bool)
      requires Valid() && HereAt(h, r, Reconciling) && ledger.blocked
      modifies this`machine, this`trace, ledger
      ensures Valid() && HereAt(h, r, Leaving(PersistenceReply(r.claim.key.commandID)))
      ensures trace == old(trace) + Reconciliation(h, integrityOk, now, fault, checkpointOk)
      ensures Steady(old(machine), machine) && machine.log == old(machine.log)
      ensures ledger.blocked == !(integrityOk && fault == NoFault && checkpointOk)
      ensures ledger.table == (if integrityOk && (fault == NoFault || fault == CommitApplied) then Recover(old(ledger.table), now)
                               else old(ledger.table))
    {
      assert SingleService(Reconciliation(h, integrityOk, now, fault, checkpointOk));
      hide Run, SingleService, ClaimsOf, Reconciliation, Recover, PersistenceReply;
      ReconcileRun(machine, h, integrityOk, now, fault, checkpointOk);
      var _ := ledger.Reconcile(integrityOk, now, fault, checkpointOk);
      Take(Reconciliation(h, integrityOk, now, fault, checkpointOk));
    }

    // -------------------------------------------------------------------- transactions

    /** The claim transaction through the ledger object is the claim's two steps. */
    method Reserve(h: nat, r: Request, now: int, fault: TxFault) returns (e: Result<Reservation, LedgerError>)
      requires Valid() && HereAt(h, r, Reserving)
      modifies this`machine, this`trace, ledger
      ensures Valid() && Here(h, r) && Steady(old(machine), machine) && NoCalls(old(machine), machine)
      ensures trace == old(trace) + ClaimTransaction(h, now, fault)
      ensures AfterReserve(machine.handlers[h], r, e)
      ensures e.Ok? <==> ValidClaim(r.claim) && !old(ledger.blocked) && fault == NoFault
                         && ReserveTx(old(ledger.table), r.claim, now).Written?
      ensures e.Ok? ==> ReserveTx(old(ledger.table), r.claim, now) == Written(ledger.table, e.value.record, e.value.created)
    {
      assert SingleService(ClaimTransaction(h, now, fault));
      hide Run, SingleService, ClaimsOf, ClaimTransaction, ValidClaim, ReserveTx;
      RowsKnown(machine, trace);
      ReserveRun(machine, h, now, fault);
      e := ledger.ReserveAuthorization(r.claim, now, fault);
      Take(ClaimTransaction(h, now, fault));
    }

    /** A transition through the ledger object is the status commit's two steps. */
    method Move(h: nat, r: Request, from: Status, to: Status, data: TransitionData, answer: Reply, now: int,
                fault: TxFault, conflictRead: ReadFault)
      returns (e: Result<(), LedgerError>)
      requires Valid() && HereAt(h, r, Moving(from, to, data, answer))
      modifies this`machine, this`trace, ledger
      ensures Valid() && Here(h, r) && Steady(old(machine), machine) && NoCalls(old(machine), machine)
      ensures trace == old(trace) + MoveTransaction(h, now, fault, conflictRead)
      ensures AfterMove(machine.handlers[h].pc, r, to, answer, e.Ok?)
      ensures e.Ok? <==> Admissible(from, to, data) && !old(ledger.blocked) && Matches(old(ledger.table), r.claim.key, from)
                         && fault == NoFault
      ensures e.Ok? ==> ledger.table == old(ledger.table)[r.claim.key := Merge(old(ledger.table)[r.claim.key], to, data, now)]
      ensures e.Ok? && !Unresolved(to) ==> answer == RecordResponse(ledger.table[r.claim.key])
      ensures e.Ok? ==> r.claim.key in ledger.table && ledger.table[r.claim.key].status == to
      ensures StillReached(old(ledger.table), ledger.table, r.claim.key)
    {
      assert SingleService(MoveTransaction(h, now, fault, conflictRead));
      hide Run, SingleService, ClaimsOf, MoveTransaction, RecordResponse, Admissible, StillReached, AfterMove, Merge;
      hide Unresolved;
      MoveRuns(machine, trace, h, now, fault, conflictRead);
      e := ledger.Transition(r.claim.key, from, to, data, now, fault, conflictRead);
      Take(MoveTransaction(h, now, fault, conflictRead));
    }

    // -------------------------------------------------------------- one handler's work

    /** Operation, registry, arguments, node cache and execution boundary. */
    method Validate(h: nat, r: Request, rejection: Option<Rejection>) returns (refusal: Option<Reply>)
      requires Valid() && HereAt(h, r, Validating)
      modifies this`machine, this`trace
      ensures Valid() && Steady(old(machine), machine) && machine.log == old(machine.log)
      ensures trace == old(trace) + [DoValidate(h, rejection)]
      ensures refusal.None? <==> rejection.None? && r.executionUsername != "" && r.executionBoundary != ""
      ensures HereAt(h, r, if refusal.None? then Reserving else Leaving(refusal.value))
      ensures var id := r.claim.key.commandID;
              && (rejection == Some(UnsupportedCommand) ==>
                    refusal == Some(ErrorReply(ErrorPayload(InvalidCommandCode, ValidationError, UnsupportedOperation, false, id))))
              && (rejection == Some(InvalidArguments) ==>
                    refusal == Some(ErrorReply(ErrorPayload(InvalidPayloadCode, ValidationError, InvalidCommandPayload, false, id))))
              && (rejection == Some(UnknownTarget) ==>
                    refusal == Some(ErrorReply(ErrorPayload(InvalidPayloadCode, ValidationError, TargetUnavailable, false, id))))
              && (rejection == None && refusal.Some? ==>
                    refusal == Some(ErrorReply(ErrorPayload(InternalCode, InternalError, BoundaryUnavailable, true, id))))
    {
      hide Run, SingleService, ClaimsOf;
      Do(DoValidate(h, rejection));
      var next := AfterValidation(r, rejection);
      refusal := if next.Leaving? then Some(next.reply) else None;
    }

    /** Ask the authorizer, and decide what to commit. */
    method Consult(h: nat, r: Request) returns (d: Decision, move: Pc)
      requires Valid() && HereAt(h, r, Authorizing) && machine.handlers[h].claimed.Some?
      modifies this`machine, this`trace, authorizer
      ensures Valid() && Steady(old(machine), machine) && machine.log.dispatches == old(machine.log.dispatches)
      ensures trace == old(trace) + [DoAuthorize(h, d)]
      ensures HereAt(h, r, move) && move == Decide(Handler(0, r, Authorizing, None), d)
      ensures move.Moving? && move.from == AuthorizationPending && move.to != Running && Ruling(r.claim, d, move)
      ensures authorizer.asked == old(authorizer.asked) + [r.claim]
    {
      hide Run, SingleService, ClaimsOf, Decide, Ruling;
      d := authorizer.Authorize(r.claim);
      move := Decide(Handler(0, r, Authorizing, None), d);
      DecideSame(machine.handlers[h], Handler(0, r, Authorizing, None), d);
      DecideMeans(Handler(0, r, Authorizing, None), d);
      ClaimsAppend(machine.log.authorizations, Call(h, machine.handlers[h].claimed.value, r.claim));
      Do(DoAuthorize(h, d));
    }

    /** The call out, between the running commit and the final one. */
    method Execute(h: nat, r: Request) returns (o: Outcome, move: Pc)
      requires Valid() && Here(h, r) && machine.handlers[h].pc.Executing?
      modifies this`machine, this`trace, executor
      ensures Valid() && Steady(old(machine), machine)
      ensures trace == old(trace) + [DoCallExecutor(h)] + [DoExecutorReturns(h, o)]
      ensures machine.log.dispatches == old(machine.log.dispatches) + [Call(h, old(machine).handlers[h].pc.tag, r.claim)]
      ensures machine.log.authorizations == old(machine.log.authorizations)
      ensures HereAt(h, r, move) && move == Conclude(Handler(0, r, Authorizing, None), o)
      ensures move.Moving? && move.from == Running && !Unresolved(move.to) && ReturnedWith(r, o, move.to, move.reply)
      ensures executor.executed == old(executor.executed) + [r.claim]
    {
      hide Run, SingleService, ClaimsOf, Conclude, Unresolved, PersistenceReply, ReturnedWith;
      ClaimsAppend(machine.log.dispatches, Call(h, machine.handlers[h].pc.tag, r.claim));
      o := executor.Execute(r.claim);
      Do(DoCallExecutor(h));
      move := Conclude(Handler(0, r, Authorizing, None), o);
      ConcludeSame(machine.handlers[h], Handler(0, r, Authorizing, None), o);
      ConcludeMeans(Handler(0, r, Authorizing, None), o);
      Do(DoExecutorReturns(h, o));
    }

    /** A claim of its own: authorize, commit accepted, commit running, execute,
        commit the outcome. `commits` are the commits' reports in order: each
        but the last was successful; the executor was called exactly when there
        were three; after an unsuccessful one comes the persistence error, and
        otherwise the answer the row now gives. `decision` is what the authorizer
        said and `outcome` what the executor returned. */
    method Perform(h: nat, r: Request)
      returns (reply: Reply, ghost commits: seq<bool>, ghost decision: Decision, ghost outcome: Option<Outcome>)
      requires Valid() && HereAt(h, r, Authorizing) && machine.handlers[h].claimed.Some?
      modifies this`machine, this`trace, ledger, authorizer, executor
      ensures Valid() && HereAt(h, r, Leaving(reply)) && Steady(old(machine), machine)
      ensures authorizer.asked == old(authorizer.asked) + [r.claim]
      ensures 1 <= |commits| <= 3 && forall i :: 0 <= i < |commits| - 1 ==> commits[i]
      ensures executor.executed == (if |commits| == 3 then old(executor.executed) + [r.claim] else old(executor.executed))
      ensures CalledOnceAtMost(old(machine.log.dispatches), machine.log.dispatches, r, ledger.table)
      ensures |commits| == 2 ==> !commits[1]
      ensures Answered(reply, r, ledger.table, commits[|commits| - 1])
      ensures old(trace) + [DoAuthorize(h, decision)] <= trace
      ensures |commits| > 1 ==> Permits(r.claim, decision)
      ensures commits == [true] ==> Refused(r, decision, ledger.table, reply)
      ensures commits == [true] && Refuses(r.claim, decision) ==>
                && ledger.table[r.claim.key].status == Denied
                && reply == ErrorReply(ErrorPayload(AuthorizationDeniedCode, AuthorizationError, NotAuthorized, false,
                                                    r.claim.key.commandID))
      ensures |commits| == 3 ==> outcome.Some? && DoExecutorReturns(h, outcome.value) in trace[|old(trace)|..]
      ensures commits == [true, true, true] ==>
                r.claim.key in ledger.table && ReturnedWith(r, outcome.value, ledger.table[r.claim.key].status, reply)
    {
      hide Run, SingleService, ClaimsOf, RecordResponse, Reached, PersistenceReply, RunningData, Reconciliation, Recover;
      hide CalledOnceAtMost, StillReached, Answered, Valid, Permits, ReturnedWith, Refused;
      var move, reported;
      outcome := None;
      move, reported, decision := CommitDecision(h, r);
      if reported && move.to == Accepted {
        reply, commits, outcome := Intend(h, r, move.reply);
        return;
      }
      commits := [reported];
      RefusedMeans(r, decision, ledger.table, move.reply);
      reply := Settle(h, r, move.reply, reported);
      NotCalled(machine.log.dispatches, r, ledger.table);
    }

    /** Ask, and commit what was decided. */
    method CommitDecision(h: nat, r: Request) returns (move: Pc, reported: bool, ghost decision: Decision)
      requires Valid() && HereAt(h, r, Authorizing) && machine.handlers[h].claimed.Some?
      modifies this`machine, this`trace, ledger, authorizer
      ensures Valid() && Here(h, r) && Steady(old(machine), machine)
      ensures machine.log.dispatches == old(machine.log.dispatches)
      ensures authorizer.asked == old(authorizer.asked) + [r.claim]
      ensures move.Moving? && move.to != Running && AfterMove(machine.handlers[h].pc, r, move.to, move.reply, reported)
      ensures reported && move.to != Accepted ==> Answered(move.reply, r, ledger.table, true)
      ensures old(trace) + [DoAuthorize(h, decision)] <= trace
      ensures reported && move.to == Accepted ==> Permits(r.claim, decision)
      ensures reported && move.to != Accepted ==> Refused(r, decision, ledger.table, move.reply)
    {
      hide Run, SingleService, ClaimsOf, RecordResponse, Decide, Merge, Admissible, Reached, MoveTransaction;
      hide RunningData, StillReached;
      var d;
      d, move := Consult(h, r);
      decision := d;
      DecidedFinal(Handler(0, r, Authorizing, None), d);
      ghost var before := ledger.table;
      var now: int, fault: TxFault, read: ReadFault := *, *, *;
      var e := Move(h, r, move.from, move.to, move.data, move.reply, now, fault, read);
      reported := e.Ok?;
      if reported && move.to != Accepted {
        RulingStored(r, d, move, before, now);
      }
    }

    /** From the successful accepted commit on. */
    method Intend(h: nat, r: Request, answer: Reply)
      returns (reply: Reply, ghost commits: seq<bool>, ghost outcome: Option<Outcome>)
      requires Valid() && HereAt(h, r, Moving(Accepted, Running, RunningData(r), answer))
      modifies this`machine, this`trace, ledger, executor
      ensures Valid() && HereAt(h, r, Leaving(reply)) && Steady(old(machine), machine)
      ensures 2 <= |commits| <= 3 && commits[0] && (|commits| == 3 ==> commits[1])
      ensures executor.executed == (if |commits| == 3 then old(executor.executed) + [r.claim] else old(executor.executed))
      ensures CalledOnceAtMost(old(machine.log.dispatches), machine.log.dispatches, r, ledger.table)
      ensures |commits| == 2 ==> !commits[1]
      ensures Answered(reply, r, ledger.table, commits[|commits| - 1])
      ensures old(trace) <= trace
      ensures |commits| == 3 ==> outcome.Some? && DoExecutorReturns(h, outcome.value) in trace[|old(trace)|..]
      ensures |commits| == 3 && commits[2] ==>
                r.claim.key in ledger.table && ReturnedWith(r, outcome.value, ledger.table[r.claim.key].status, reply)
    {
      hide Run, SingleService, ClaimsOf, RecordResponse, Merge, Admissible, Reached, MoveTransaction, ReturnedWith;
      hide PersistenceReply, RunningData, Reconciliation, Recover, StillReached, CalledOnceAtMost, Unresolved, Valid;
      var now: int, fault: TxFault, read: ReadFault := *, *, *;
      var e := Move(h, r, Accepted, Running, RunningData(r), answer, now, fault, read);
      if e.Ok? {
        ghost var middle := trace;
        ghost var o;
        reply, commits, o := Finish(h, r);
        outcome := Some(o);
        TakenSince(old(trace), middle, trace, DoCallExecutor(h), DoExecutorReturns(h, o));
        return;
      }
      commits, outcome := [true, false], None;
      reply := Settle(h, r, answer, false);
      NotCalled(machine.log.dispatches, r, ledger.table);
    }

    /** From the successful running commit on. */
    method Finish(h: nat, r: Request) returns (reply: Reply, ghost commits: seq<bool>, ghost outcome: Outcome)
      requires Valid() && Here(h, r) && machine.handlers[h].pc.Executing?
      requires Matches(ledger.table, r.claim.key, Running)
      modifies this`machine, this`trace, ledger, executor
      ensures Valid() && HereAt(h, r, Leaving(reply)) && Steady(old(machine), machine)
      ensures |commits| == 3 && commits[0] && commits[1] && executor.executed == old(executor.executed) + [r.claim]
      ensures machine.log.authorizations == old(machine.log.authorizations)
      ensures CalledOnceAtMost(old(machine.log.dispatches), machine.log.dispatches, r, ledger.table)
      ensures Answered(reply, r, ledger.table, commits[2])
      ensures old(trace) + [DoCallExecutor(h), DoExecutorReturns(h, outcome)] <= trace
      ensures commits[2] ==> r.claim.key in ledger.table && ReturnedWith(r, outcome, ledger.table[r.claim.key].status, reply)
    {
      hide Run, SingleService, ClaimsOf, RecordResponse, Conclude, PersistenceReply, CalledOnceAtMost, Unresolved, Answered;
      hide ReturnedWith;
      ghost var call := Call(h, machine.handlers[h].pc.tag, r.claim);
      var o, move := Execute(h, r);
      var reported;
      reply, reported := CommitOutcome(h, r, move);
      commits, outcome := [true, true, reported], o;
      CalledOnce(old(machine.log.dispatches), call, r, ledger.table);
    }

    /** The final commit; if it is not reported successful the persistence error
        is the answer, whatever the executor said. */
    method CommitOutcome(h: nat, r: Request, move: Pc) returns (reply: Reply, reported: bool)
      requires Valid() && HereAt(h, r, move) && move.Moving? && !Unresolved(move.to)
      requires r.claim.key in ledger.table && Reached(ledger.table[r.claim.key].status)
      modifies this`machine, this`trace, ledger
      ensures Valid() && HereAt(h, r, Leaving(reply)) && Steady(old(machine), machine) && NoCalls(old(machine), machine)
      ensures r.claim.key in ledger.table && Reached(ledger.table[r.claim.key].status)
      ensures Answered(reply, r, ledger.table, reported)
      ensures old(trace) <= trace
      ensures reported ==> r.claim.key in ledger.table && ledger.table[r.claim.key].status == move.to && reply == move.reply
    {
      hide Run, SingleService, ClaimsOf, RecordResponse, Merge, Admissible, Matches, MoveTransaction, PersistenceReply;
      hide Reconciliation, Recover;
      var now: int, fault: TxFault, read: ReadFault := *, *, *;
      var e := Move(h, r, move.from, move.to, move.data, move.reply, now, fault, read);
      reported := e.Ok?;
      reply := Settle(h, r, move.reply, reported);
    }

    /** The prepared answer stands if the commit was reported successful. */
    method Settle(h: nat, r: Request, answer: Reply, reported: bool) returns (reply: Reply)
      requires Valid() && HereAt(h, r, if reported then Leaving(answer) else Repairing)
      requires reported ==> Answered(answer, r, ledger.table, true)
      modifies this`machine, this`trace, ledger
      ensures Valid() && HereAt(h, r, Leaving(reply)) && Steady(old(machine), machine) && machine.log == old(machine.log)
      ensures Answered(reply, r, ledger.table, reported) && old(trace) <= trace
      ensures reported ==> reply == answer && ledger.table == old(ledger.table)
      ensures StillReached(old(ledger.table), ledger.table, r.claim.key)
    {
      hide Run, SingleService, ClaimsOf, RecordResponse, PersistenceReply, Reconciliation, Recover, Reached, Unresolved;
      reply := answer;
      if !reported {
        reply := PersistenceError(h, r);
      }
    }

    /** Everything done under the request's lock. A row found in time is answered
        without asking anybody. */
    method HandleLocked(h: nat, r: Request, patience: nat) returns (reply: Reply)
      requires Valid() && HereAt(h, r, LookingUp)
      modifies this`machine, this`trace, ledger, authorizer, executor
      ensures Valid() && HereAt(h, r, Leaving(reply)) && Steady(old(machine), machine)
      ensures CalledOnceAtMost(old(machine.log.dispatches), machine.log.dispatches, r, ledger.table)
      ensures authorizer.asked == old(authorizer.asked) || authorizer.asked == old(authorizer.asked) + [r.claim]
      ensures authorizer.asked == old(authorizer.asked) ==> executor.executed == old(executor.executed)
    {
      hide Run, SingleService, ClaimsOf, RecordResponse, Reached, AwaitAnswer, ValidClaim, ReserveTx, ClaimTransaction;
      hide PersistenceReply, ConflictReply;
      var now: int, readFault: ReadFault := *, *;
      var found := FindRecord(h, r, now, readFault);
      if found.Err? {
        reply := PersistenceError(h, r);
        return;
      }
      if found.value.Some? {
        if found.value.value.claim.requestFingerprint != r.claim.requestFingerprint {
          return ConflictReply(r.claim.key.commandID);
        }
        ghost var decided;
        reply, decided := AwaitRecord(h, r, found.value.value, patience);
        return;
      }
      var rejection: Option<Rejection> := *;
      var refusal := Validate(h, r, rejection);
      if refusal.Some? {
        return refusal.value;
      }
      var fault: TxFault;
      now, fault := *, *;
      var e := Reserve(h, r, now, fault);
      if e.Err? {
        if e.error == CommandIDConflict {
          return ConflictReply(r.claim.key.commandID);
        }
        reply := PersistenceError(h, r);
        return;
      }
      if !e.value.created {
        ghost var decided;
        reply, decided := AwaitRecord(h, r, e.value.record, patience);
        return;
      }
      ghost var commits, decision, outcome;
      reply, commits, decision, outcome := Perform(h, r);
    }

    // -------------------------------------------------------------- entering and leaving

    method Enter(r: Request) returns (h: nat, admitted: bool)
      requires Valid() && machine.locks.tickets == map[] && RequestLocks.Inv(locks.state)
      modifies this`machine, this`trace, this`nextHandler, locks
      ensures Valid() && RequestLocks.Inv(locks.state) && h == old(nextHandler) && nextHandler == h + 1
      ensures NoCalls(old(machine), machine) && admitted == !ledger.blocked
      ensures HereAt(h, r, if admitted then LookingUp else Repairing)
      ensures if admitted then RequestLocks.Holds(locks.state, h) && locks.state.tickets.Keys == {h}
              else machine.locks.tickets == map[]
    {
      assert SingleService([DoArrive(0, r), DoCheckAdmission(nextHandler)]);
      hide Run, SingleService, ClaimsOf, RequestLocks.Inv, RequestLocks.Holds;
      h := nextHandler;
      nextHandler := nextHandler + 1;
      admitted := !ledger.blocked;
      ArriveRun(machine, r);
      Take([DoArrive(0, r), DoCheckAdmission(h)]);
      if admitted {
        TakeLock(h, r);
      }
    }

    method TakeLock(h: nat, r: Request)
      requires Valid() && HereAt(h, r, Admitted) && machine.locks.tickets == map[] && RequestLocks.Inv(locks.state)
      modifies this`machine, this`trace, locks
      ensures Valid() && HereAt(h, r, LookingUp) && RequestLocks.Inv(locks.state) && machine.log == old(machine.log)
      ensures RequestLocks.Holds(locks.state, h) && locks.state.tickets.Keys == {h}
      ensures machine.nextHandler == old(machine.nextHandler)
    {
      hide Run, SingleService, ClaimsOf, LockKeyOf, LockRef, LockAcquire;
      hide RequestLocks.Inv, RequestLocks.Ref, RequestLocks.Acquire, RequestLocks.Holds;
      var key := LockKeyOf(Handler(0, r, Admitted, None));
      SameRequestLock(machine.handlers[h], Handler(0, r, Admitted, None));
      RequestLocks.UnusedIsFree(locks.state, h, key);
      LockRun(machine, h);
      locks.LockRef(h, key);
      Do(DoLockRef(h));
      HolderKeepsTickets(locks.state, h);
      locks.Lock(h);
      Do(DoLockAcquire(h));
    }

    method Release(h: nat, r: Request, reply: Reply)
      requires Valid() && HereAt(h, r, Leaving(reply)) && RequestLocks.Inv(locks.state)
      requires RequestLocks.Holds(locks.state, h) && h in locks.state.tickets
      modifies this`machine, this`trace, locks
      ensures Valid() && HereAt(h, r, Dropping(reply)) && RequestLocks.Inv(locks.state) && machine.log == old(machine.log)
      ensures locks.state.tickets == old(locks.state).tickets && !RequestLocks.Holds(locks.state, h)
      ensures machine.nextHandler == old(machine.nextHandler)
    {
      hide Run, SingleService, ClaimsOf, RequestLocks.Inv, RequestLocks.Holds, RequestLocks.Release;
      HolderKeepsTickets(locks.state, h);
      locks.Unlock(h);
      Do(DoLockRelease(h));
    }

    method Drop(h: nat, r: Request, reply: Reply)
      requires Valid() && HereAt(h, r, Dropping(reply)) && RequestLocks.Inv(locks.state)
      requires h in locks.state.tickets && !RequestLocks.Holds(locks.state, h)
      modifies this`machine, this`trace, locks
      ensures Valid() && HereAt(h, r, Done(reply)) && RequestLocks.Inv(locks.state) && machine.log == old(machine.log)
      ensures locks.state.tickets == old(locks.state).tickets - {h} && machine.nextHandler == old(machine.nextHandler)
    {
      hide Run, SingleService, ClaimsOf, RequestLocks.Inv, RequestLocks.Holds, RequestLocks.Unref;
      locks.UnlockUnref(h);
      Do(DoLockUnref(h));
    }

    method Leave(h: nat, r: Request, reply: Reply)
      requires Valid() && HereAt(h, r, Leaving(reply)) && RequestLocks.Inv(locks.state)
      requires RequestLocks.Holds(locks.state, h) && locks.state.tickets.Keys == {h}
      modifies this`machine, this`trace, locks
      ensures Valid() && HereAt(h, r, Done(reply)) && RequestLocks.Inv(locks.state) && machine.log == old(machine.log)
      ensures machine.locks.tickets == map[]
    {
      hide Run, SingleService, ClaimsOf, RequestLocks.Inv, RequestLocks.Holds;
      Release(h, r, reply);
      Drop(h, r, reply);
      assert locks.state.tickets == map[];
    }

    ghost method LeaveUnlocked(h: nat, r: Request, reply: Reply)
      requires Valid() && HereAt(h, r, Leaving(reply)) && h !in machine.locks.tickets
      modifies this`machine, this`trace
      ensures Valid() && HereAt(h, r, Done(reply)) && machine.locks == old(machine.locks) && machine.log == old(machine.log)
    {
      hide Run, SingleService, ClaimsOf;
      Do(DoLockRelease(h));
    }

    method HandleAdmitted(h: nat, r: Request, patience: nat) returns (reply: Reply)
      requires Valid() && HereAt(h, r, LookingUp) && RequestLocks.Inv(locks.state)
      requires RequestLocks.Holds(locks.state, h) && locks.state.tickets.Keys == {h}
      modifies this`machine, this`trace, ledger, locks, authorizer, executor
      ensures Valid() && HereAt(h, r, Done(reply)) && machine.locks.tickets == map[] && RequestLocks.Inv(locks.state)
      ensures CalledOnceAtMost(old(machine.log.dispatches), machine.log.dispatches, r, ledger.table)
      ensures authorizer.asked == old(authorizer.asked) || authorizer.asked == old(authorizer.asked) + [r.claim]
      ensures authorizer.asked == old(authorizer.asked) ==> executor.executed == old(executor.executed)
    {
      hide Run, SingleService, ClaimsOf, RequestLocks.Inv, RequestLocks.Holds, LockKeyOf, Reached, CalledOnceAtMost;
      reply := HandleLocked(h, r, patience);
      Leave(h, r, reply);
    }

    /** One request from arrival to reply, with nobody else active. A closed gate
        at entry lets nothing through. The executor is called at most once, with
        this claim; if it is, the authorizer was asked and the row keeps showing
        the dispatch. Between calls no lock is in use. */
    method Handle(r: Request, patience: nat) returns (reply: Reply)
      requires Valid() && machine.locks.tickets == map[] && RequestLocks.Inv(locks.state)
      modifies this, ledger, locks, authorizer, executor
      ensures Valid() && machine.locks.tickets == map[] && RequestLocks.Inv(locks.state)
      ensures HereAt(old(nextHandler), r, Done(reply)) && nextHandler == old(nextHandler) + 1
      ensures old(trace) <= trace
      ensures CalledOnceAtMost(old(machine.log.dispatches), machine.log.dispatches, r, ledger.table)
      ensures authorizer.asked == old(authorizer.asked) || authorizer.asked == old(authorizer.asked) + [r.claim]
      ensures authorizer.asked == old(authorizer.asked) ==> executor.executed == old(executor.executed)
      ensures old(ledger.blocked) ==>
                executor.executed == old(executor.executed) && authorizer.asked == old(authorizer.asked)
                && reply == ErrorReply(ErrorPayload(LedgerPersistenceFailedCode, InternalError, StorageUnavailable, false,
                                                    r.claim.key.commandID))
      ensures ReplyTrue(machine.rows, machine.log, machine.handlers[old(nextHandler)], reply)
    {
      hide Run, SingleService, ClaimsOf, ReplyTrue, RequestLocks.Inv, RequestLocks.Holds, LockKeyOf, Reached, PersistenceReply;
      earlier := trace;
      var h, admitted := Enter(r);
      if admitted {
        reply := HandleAdmitted(h, r, patience);
      } else {
        reply := PersistenceError(h, r);
        LeaveUnlocked(h, r, reply);
        FixedReplies(r.claim.key.commandID);
      }
      RepliedTrue(trace, h);
    }

    // ------------------------------------------------------------------ many requests

    /** Every entry in the executor's record is one call of the run, for an
        incarnation of its own, which that very claim was inserted for. */
    ghost predicate OneExecutionPerIncarnation()
      reads this, executor
    {
      && |machine.log.dispatches| == |executor.executed|
      && (forall i :: 0 <= i < |executor.executed| ==>
            var c := machine.log.dispatches[i];
            && c.claim == executor.executed[i]
            && c.incarnation in machine.rows.origin && machine.rows.origin[c.incarnation] == Origin(c.handler, c.claim))
      && (forall i, j :: 0 <= i < j < |executor.executed| ==>
            machine.log.dispatches[i].incarnation != machine.log.dispatches[j].incarnation)
    }

    lemma ExecutionsAreDistinct()
      requires Valid()
      ensures OneExecutionPerIncarnation()
    {
      AtMostOnce(trace);
      SingleServiceApart();
      ExecutesOwnApprovedClaim(AtService(0), trace);
      assert forall i :: 0 <= i < |machine.log.dispatches| ==> machine.log.dispatches[i] in machine.log.dispatches;
    }

    /** Any number of requests, one after another: each adds at most one
        execution, and no incarnation is ever executed twice, in this process or
        an earlier one. */
    method HandleAll(requests: seq<Request>, patience: nat) returns (replies: seq<Reply>)
      requires Valid() && machine.locks.tickets == map[] && RequestLocks.Inv(locks.state)
      modifies this, ledger, locks, authorizer, executor
      ensures Valid() && machine.locks.tickets == map[] && RequestLocks.Inv(locks.state)
      ensures |replies| == |requests| && OneExecutionPerIncarnation()
      ensures |executor.executed| <= |old(executor.executed)| + |requests| && old(executor.executed) <= executor.executed
    {
      replies := [];
      for i := 0 to |requests|
        invariant Valid() && machine.locks.tickets == map[] && RequestLocks.Inv(locks.state) && |replies| == i
        invariant |executor.executed| <= |old(executor.executed)| + i && old(executor.executed) <= executor.executed
      {
        hide Run, SingleService, RequestLocks.Inv, Reached;
        var reply := Handle(requests[i], patience);
        replies := replies + [reply];
      }
      hide RequestLocks.Inv;
      ExecutionsAreDistinct();
    }
  }
}
