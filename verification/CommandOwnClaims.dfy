/** Where every key is wanted at one service object only, the per-command lock
    ties every handler to its own claim: the executor runs only what the same
    handler claimed and was allowed to do. */
module CommandOwnClaims {
  import opened Wrappers
  import opened Ledger
  import opened CommandService
  import opened CommandInvariants
  import opened CommandSteps

  /** A request and the service object it arrives at. */
  datatype Arrival = Arrival(service: nat, request: Request)

  /** A request that can get as far as a claim. */
  predicate Claimable(r: Request) {
    ValidClaim(r.claim) && r.executionUsername != "" && r.executionBoundary != ""
  }

  /** No key is wanted at two services. */
  ghost predicate KeysApart(arrivals: iset<Arrival>) {
    forall a, b | a in arrivals && b in arrivals ::
      Claimable(a.request) && Claimable(b.request) && a.request.claim.key == b.request.claim.key ==> a.service == b.service
  }

  ghost predicate RunsOver(arrivals: iset<Arrival>, steps: seq<Step>) {
    forall a <- steps :: Admits(arrivals, a)
  }

  ghost predicate Admits(arrivals: iset<Arrival>, a: Step) {
    a.DoArrive? ==> Arrival(a.service, a.request) in arrivals
  }

  /** What one handler is tied to, when its key is wanted at one service. */
  ghost predicate OwnLine(arrivals: iset<Arrival>, s: Machine, h: nat, x: Handler) {
    && Arrival(x.service, x.request) in arrivals
    && (ClaimedPc(x.pc) || (x.pc.Reserving? && s.writer == Some(h)) ==> ValidClaim(x.request.claim))
    && (ClaimedPc(x.pc) && x.claimed.Some? ==> KeyOf(x) in s.rows.incs && s.rows.incs[KeyOf(x)] == x.claimed.value)
    && (x.pc.Executing? || x.pc.InFlight? ==> x.claimed == Some(x.pc.tag))
  }

  /** The executor call was approved by the authorizer for the very handler that
      made it, and carries the claim its incarnation was inserted for. */
  ghost predicate OwnCall(s: Machine, c: Call) {
    c in s.log.approvals && c.incarnation in s.rows.origin && s.rows.origin[c.incarnation] == Origin(c.handler, c.claim)
  }

  ghost predicate OwnWork(arrivals: iset<Arrival>, s: Machine) {
    && (forall h <- s.handlers :: OwnLine(arrivals, s, h, s.handlers[h]))
    && OwnCalls(s)
  }

  ghost predicate OwnCalls(s: Machine) {
    forall c <- s.log.dispatches :: OwnCall(s, c)
  }

  /** What a step does to one handler's line and to the history it relies on. */
  ghost predicate KeepsLine(arrivals: iset<Arrival>, s: Machine, s': Machine, g: nat) {
    && (g in s'.handlers ==> OwnLine(arrivals, s', g, s'.handlers[g]))
    && s.log.approvals <= s'.log.approvals
    && (forall i <- s.rows.origin :: i in s'.rows.origin && s'.rows.origin[i] == s.rows.origin[i])
  }

  lemma EntryKeepsLine(arrivals: iset<Arrival>, s: Machine, a: Step, g: nat)
    requires g in s.handlers ==> OwnLine(arrivals, s, g, s.handlers[g])
    requires a.DoCheckAdmission? || a.DoLockRef? || a.DoLockAcquire? || a.DoValidate? || a.DoEnterWriter?
             || (a.DoArrive? && Admits(arrivals, a))
    requires a.DoValidate? && s.writer == Some(a.h) && a.h in s.handlers ==> !s.handlers[a.h].pc.Validating?
    ensures KeepsLine(arrivals, s, Next(s, a), g) && Next(s, a).log.dispatches == s.log.dispatches
  {
    hide RequestLocks.Ref, RequestLocks.Acquire, RequestLocks.Holds, LockKeyOf, ValidClaim, Admissible, PersistenceReply;
    if a.DoEnterWriter? {
      hide Arrive, CheckAdmission, LockRef, LockAcquire, Validate;
    } else {
      hide EnterWriter;
    }
  }

  lemma UnlockKeepsLine(arrivals: iset<Arrival>, s: Machine, a: Step, g: nat)
    requires g in s.handlers ==> OwnLine(arrivals, s, g, s.handlers[g])
    requires a.DoLockRelease? || a.DoLockUnref?
    ensures KeepsLine(arrivals, s, Next(s, a), g) && Next(s, a).log.dispatches == s.log.dispatches
  {
    hide ValidClaim;
    hide RequestLocks.Release, RequestLocks.Unref;
  }

  lemma ReconcileKeepsLine(arrivals: iset<Arrival>, s: Machine, a: Step, g: nat)
    requires g in s.handlers ==> OwnLine(arrivals, s, g, s.handlers[g])
    requires a.DoRecoverRows? || a.DoVerifyRows? || a.DoOpenGate?
    ensures KeepsLine(arrivals, s, Next(s, a), g) && Next(s, a).log.dispatches == s.log.dispatches
  {
    hide RecoverRows, VerifyRows, OpenGate, ValidClaim;
    if a.DoRecoverRows? {
      RecoverMoves(s, a.h, a.ok, a.now, a.fault);
    } else if a.DoVerifyRows? {
      VerifyMoves(s, a.h, a.ok);
    } else {
      OpenMoves(s, a.h);
    }
    hide Next;
  }

  /** A reconciling step moves its handler to a program counter without a claim
      and lets go of the write lock or keeps it. */
  predicate ReconcileMove(s: Machine, s': Machine, h: nat) {
    && s'.log == s.log && s'.rows.incs == s.rows.incs && s'.rows.origin == s.rows.origin
    && (s'.writer == s.writer || s'.writer.None?) && s'.handlers.Keys == s.handlers.Keys
    && (forall g <- s.handlers | g != h :: s'.handlers[g] == s.handlers[g])
    && (h in s.handlers && s'.handlers[h] != s.handlers[h] ==>
          var pc := s'.handlers[h].pc;
          s'.handlers[h] == s.handlers[h].(pc := pc) && !ClaimedPc(pc) && !pc.Reserving?)
  }

  lemma RecoverMoves(s: Machine, h: nat, ok: bool, now: int, fault: TxFault)
    ensures ReconcileMove(s, RecoverRows(s, h, ok, now, fault), h)
  {
    hide Recover, PersistenceReply;
  }

  lemma VerifyMoves(s: Machine, h: nat, ok: bool)
    ensures ReconcileMove(s, VerifyRows(s, h, ok), h)
  {
    hide NoneUnresolved, PersistenceReply;
  }

  lemma OpenMoves(s: Machine, h: nat)
    ensures ReconcileMove(s, OpenGate(s, h), h)
  {
    hide PersistenceReply;
  }

  lemma RestartKeepsLine(arrivals: iset<Arrival>, s: Machine, a: Step, g: nat)
    requires g in s.handlers ==> OwnLine(arrivals, s, g, s.handlers[g])
    requires a.DoCrash? || a.DoReopen?
    ensures KeepsLine(arrivals, s, Next(s, a), g) && Next(s, a).log.dispatches == s.log.dispatches
  {
    hide ValidClaim;
    hide Recover, Purge;
  }

  lemma CallsKeepLine(arrivals: iset<Arrival>, s: Machine, a: Step, g: nat)
    requires g in s.handlers ==> OwnLine(arrivals, s, g, s.handlers[g])
    requires a.DoAuthorize? || a.DoCallExecutor? || a.DoExecutorReturns?
    ensures KeepsLine(arrivals, s, Next(s, a), g)
  {
    CallMoves(s, a);
    hide ValidClaim, Next;
  }

  /** A call or its return moves its handler on with its claim. */
  lemma CallMoves(s: Machine, a: Step)
    requires a.DoAuthorize? || a.DoCallExecutor? || a.DoExecutorReturns?
    ensures var s' := Next(s, a);
            && s.log.approvals <= s'.log.approvals && s'.rows == s.rows && s'.writer == s.writer
            && s'.handlers.Keys == s.handlers.Keys
            && (forall g <- s.handlers :: s'.handlers[g] == s.handlers[g] || CallMove(s.handlers[g], s'.handlers[g]))
  {
    hide Decide, Conclude, MoveOk;
    if a.DoAuthorize? {
      if At(s, a.h) && s.handlers[a.h].pc.Authorizing? {
        DecideOk(s.handlers[a.h], a.decision);
      }
      hide CallExecutor, ExecutorReturns;
    } else if a.DoCallExecutor? {
      hide Authorize, ExecutorReturns;
    } else {
      if At(s, a.h) && s.handlers[a.h].pc.InFlight? {
        ConcludeOk(s.handlers[a.h], a.outcome);
      }
      hide Authorize, CallExecutor;
    }
  }

  predicate CallMove(x: Handler, y: Handler) {
    && y == x.(pc := y.pc) && ClaimedPc(x.pc)
    && (y.pc.Moving? || (x.pc.Executing? && y.pc == InFlight(x.pc.tag)))
  }

  lemma WriteFacts(w: Rows, k: Key, to: Status, d: TransitionData, now: int)
    requires k in w.table && k in w.incs
    ensures var w' := WriteStatus(w, k, to, d, now); k in w'.table && w'.incs == w.incs && w'.origin == w.origin
  {
  }

  /** Two handlers of one service that both hold the lock of one key are one. */
  lemma OneHolder(s: Machine, h: nat, g: nat)
    requires Inv(s) && h in s.handlers && g in s.handlers
    requires s.handlers[h].service == s.handlers[g].service && KeyOf(s.handlers[h]) == KeyOf(s.handlers[g])
    requires HoldingPc(s.handlers[h].pc) && HoldingPc(s.handlers[g].pc)
    ensures h == g
  {
    hide ValidClaim;
    HandlerFacts(s, h);
    HandlerFacts(s, g);
    hide Inv, HandlerOk;
    assert RequestLocks.TicketValid(s.locks, h) && RequestLocks.TicketValid(s.locks, g);
  }

  /** The two commits change at most the actor's own line and its own key. */
  ghost predicate ClaimShape(arrivals: iset<Arrival>, s: Machine, h: nat, s': Machine) {
    && s'.log.dispatches == s.log.dispatches && s'.log.approvals == s.log.approvals
    && s'.handlers.Keys == s.handlers.Keys && (s'.writer == s.writer || s'.writer.None?)
    && (forall i <- s.rows.origin :: i in s'.rows.origin && s'.rows.origin[i] == s.rows.origin[i])
    && (forall o <- s.handlers :: o != h ==> s'.handlers[o] == s.handlers[o])
    && (h in s'.handlers ==> OwnLine(arrivals, s', h, s'.handlers[h]))
    && (s'.rows.incs == s.rows.incs
        || (h in s.handlers && s.handlers[h].pc.Reserving? && s.writer == Some(h)
            && s'.rows.incs == s.rows.incs[KeyOf(s.handlers[h]) := s.rows.nextInc]))
  }

  lemma InsertFacts(w: Rows, h: nat, c: Claim, t: Table, created: bool)
    requires RowsInv(w)
    ensures var w' := InsertRow(w, h, c, t, created);
            && w'.incs == (if created then w.incs[c.key := w.nextInc] else w.incs)
            && (forall i <- w.origin :: i in w'.origin && w'.origin[i] == w.origin[i])
  {
  }

  lemma SawRecordShape(arrivals: iset<Arrival>, s: Machine, h: nat, r: Record)
    requires h in s.handlers && OwnLine(arrivals, s, h, s.handlers[h])
    ensures ClaimShape(arrivals, s, h, SawRecord(s, h, r)) && SawRecord(s, h, r).rows.incs == s.rows.incs
  {
    hide ValidClaim, ConflictReply;
    var s' := SawRecord(s, h, r);
    assert s'.rows.incs == s.rows.incs && s'.rows.origin == s.rows.origin;
  }

  lemma ContinueOwns(arrivals: iset<Arrival>, s: Machine, h: nat, r: Record)
    requires h in s.handlers && s.handlers[h].pc.Moving? && s.handlers[h].claimed.Some?
    requires OwnLine(arrivals, s, h, s.handlers[h])
    ensures ClaimShape(arrivals, s, h, Continue(s, h, s.rows.incs[KeyOf(s.handlers[h])], r))
    ensures Continue(s, h, s.rows.incs[KeyOf(s.handlers[h])], r).rows == s.rows
  {
    hide ValidClaim, RunningData, Continue, PersistenceReply;
    ContinueMoves(s, h, s.rows.incs[KeyOf(s.handlers[h])], r);
  }

  lemma ContinueMoves(s: Machine, h: nat, i: nat, r: Record)
    requires h in s.handlers && s.handlers[h].pc.Moving?
    ensures var s' := Continue(s, h, i, r);
            && s'.rows == s.rows && s'.writer == s.writer && h in s'.handlers
            && s'.handlers == s.handlers[h := s.handlers[h].(pc := s'.handlers[h].pc)]
            && s'.log.dispatches == s.log.dispatches && s'.log.approvals == s.log.approvals
            && !s'.handlers[h].pc.Reserving? && !s'.handlers[h].pc.InFlight?
            && (s'.handlers[h].pc.Executing? ==> s'.handlers[h].pc.tag == i)
  {
    hide RunningData;
  }

  lemma ShapeRebase(arrivals: iset<Arrival>, s: Machine, w: Rows, h: nat, s': Machine)
    requires ClaimShape(arrivals, s.(rows := w, writer := None), h, s') && s'.rows == w
    requires w.incs == s.rows.incs && w.origin == s.rows.origin
    ensures ClaimShape(arrivals, s, h, s')
  {
    hide ValidClaim;
    hide OwnLine;
  }

  lemma MoveShapes(arrivals: iset<Arrival>, s: Machine, h: nat, now: int, fault: TxFault, read: ReadFault)
    requires h in s.handlers && OwnLine(arrivals, s, h, s.handlers[h]) && HandlerOk(s.rows, s.log, h, s.handlers[h])
    ensures var s' := CommitMove(s, h, now, fault, read); ClaimShape(arrivals, s, h, s') && s'.rows.incs == s.rows.incs
  {
    hide ValidClaim;
    hide WriteStatus, Continue, MoveOk;
    if Inside(s, h) && s.handlers[h].pc.Moving? {
      var (k, pc) := (KeyOf(s.handlers[h]), s.handlers[h].pc);
      if Matches(s.rows.table, k, pc.from) && k in s.rows.incs && (fault == NoFault || fault == CommitApplied) {
        WriteFacts(s.rows, k, pc.to, pc.data, now);
        if fault == NoFault {
          var w := WriteStatus(s.rows, k, pc.to, pc.data, now);
          ContinueOwns(arrivals, s.(rows := w, writer := None), h, w.table[k]);
          hide HandlerOk, OwnLine, ClaimShape;
          ShapeRebase(arrivals, s, w, h, Continue(s.(rows := w, writer := None), h, w.incs[k], w.table[k]));
        }
      }
    }
  }

  lemma MoveKeepsLine(arrivals: iset<Arrival>, s: Machine, a: Step, g: nat)
    requires g in s.handlers ==> OwnLine(arrivals, s, g, s.handlers[g])
    requires a.DoCommitMove?
    requires a.h in s.handlers ==> OwnLine(arrivals, s, a.h, s.handlers[a.h]) && HandlerOk(s.rows, s.log, a.h, s.handlers[a.h])
    ensures KeepsLine(arrivals, s, Next(s, a), g) && Next(s, a).log.dispatches == s.log.dispatches
  {
    hide ValidClaim;
    if a.h in s.handlers {
      MoveShapes(arrivals, s, a.h, a.now, a.fault, a.readFault);
      hide CommitMove, HandlerOk;
    } else {
      hide Continue, WriteStatus;
    }
  }

  lemma LookUpKeepsLine(arrivals: iset<Arrival>, s: Machine, h: nat, now: int, fault: ReadFault, g: nat)
    requires g in s.handlers ==> OwnLine(arrivals, s, g, s.handlers[g])
    requires h in s.handlers ==> OwnLine(arrivals, s, h, s.handlers[h])
    ensures KeepsLine(arrivals, s, LookUp(s, h, now, fault), g) && LookUp(s, h, now, fault).log.dispatches == s.log.dispatches
  {
    hide ValidClaim;
    hide Find, SawRecord;
    if At(s, h) && Find(s.rows.table, KeyOf(s.handlers[h]), now).Some? {
      SawRecordShape(arrivals, s, h, Find(s.rows.table, KeyOf(s.handlers[h]), now).value);
    }
  }

  lemma PollKeepsLine(arrivals: iset<Arrival>, s: Machine, h: nat, cancelled: bool, now: int, fault: ReadFault, g: nat)
    requires g in s.handlers ==> OwnLine(arrivals, s, g, s.handlers[g])
    requires h in s.handlers ==> OwnLine(arrivals, s, h, s.handlers[h])
    ensures KeepsLine(arrivals, s, Poll(s, h, cancelled, now, fault), g)
    ensures Poll(s, h, cancelled, now, fault).log.dispatches == s.log.dispatches
  {
    hide ValidClaim, Find, SawRecord, Failure;
    if At(s, h) && Find(s.rows.table, KeyOf(s.handlers[h]), now).Some? {
      SawRecordShape(arrivals, s, h, Find(s.rows.table, KeyOf(s.handlers[h]), now).value);
    }
  }

  lemma LookingKeepsLine(arrivals: iset<Arrival>, s: Machine, a: Step, g: nat)
    requires g in s.handlers ==> OwnLine(arrivals, s, g, s.handlers[g])
    requires (a.DoLookUp? || a.DoPoll?) && (a.h in s.handlers ==> OwnLine(arrivals, s, a.h, s.handlers[a.h]))
    ensures KeepsLine(arrivals, s, Next(s, a), g) && Next(s, a).log.dispatches == s.log.dispatches
  {
    hide ValidClaim;
    if a.DoLookUp? {
      LookUpKeepsLine(arrivals, s, a.h, a.now, a.readFault, g);
    } else {
      PollKeepsLine(arrivals, s, a.h, a.cancelled, a.now, a.readFault, g);
    }
  }

  lemma WaitingKeepsLine(arrivals: iset<Arrival>, s: Machine, a: Step, g: nat)
    requires g in s.handlers ==> OwnLine(arrivals, s, g, s.handlers[g])
    requires a.DoAwait? || a.DoCheckGate?
    ensures KeepsLine(arrivals, s, Next(s, a), g) && Next(s, a).log.dispatches == s.log.dispatches
  {
    hide ValidClaim;
    hide RecordResponse;
  }

  lemma ClaimShapes(arrivals: iset<Arrival>, s: Machine, h: nat, now: int, fault: TxFault)
    requires RowsInv(s.rows) && (h in s.handlers ==> OwnLine(arrivals, s, h, s.handlers[h]))
    ensures ClaimShape(arrivals, s, h, CommitClaim(s, h, now, fault))
  {
    hide ValidClaim;
    hide RowsInv, ReserveTx, SawRecord, InsertRow;
    if Inside(s, h) && s.handlers[h].pc.Reserving? {
      var c := s.handlers[h].request.claim;
      var o := ReserveTx(s.rows.table, c, now);
      if o.Written? && fault == NoFault && !o.created {
        InsertFacts(s.rows, h, c, o.table, o.created);
        var w := InsertRow(s.rows, h, c, o.table, o.created);
        var s1 := s.(rows := w, writer := None);
        SawRecordShape(arrivals, s1, h, o.record);
        assert CommitClaim(s, h, now, fault) == SawRecord(s1, h, o.record);
        assert ClaimShape(arrivals, s, h, SawRecord(s1, h, o.record)) by {
          hide CommitClaim;
        }
      } else if o.Written? {
        InsertFacts(s.rows, h, c, o.table, o.created);
      }
    }
  }

  /** From the shape of the actor's step to one line of the invariant. */
  lemma ShapeKeepsLine(arrivals: iset<Arrival>, s: Machine, h: nat, s': Machine, g: nat)
    requires ClaimShape(arrivals, s, h, s') && (g in s.handlers ==> OwnLine(arrivals, s, g, s.handlers[g]))
    requires s'.rows.incs == s.rows.incs || g == h
             || !(g in s.handlers && h in s.handlers && ClaimedPc(s.handlers[g].pc) && s.handlers[h].pc.Reserving?
                  && s.writer == Some(h) && KeyOf(s.handlers[g]) == KeyOf(s.handlers[h]))
    ensures KeepsLine(arrivals, s, s', g)
  {
    hide ValidClaim;
  }

  lemma NoSharedKey(arrivals: iset<Arrival>, s: Machine, h: nat, g: nat)
    requires KeysApart(arrivals) && Inv(s) && h in s.handlers && g in s.handlers && g != h
    requires OwnLine(arrivals, s, h, s.handlers[h]) && OwnLine(arrivals, s, g, s.handlers[g])
    requires ClaimedPc(s.handlers[g].pc) && s.handlers[h].pc.Reserving? && s.writer == Some(h)
    ensures KeyOf(s.handlers[g]) != KeyOf(s.handlers[h])
  {
    hide ValidClaim;
    HandlerFacts(s, h);
    HandlerFacts(s, g);
    hide Inv, LockOk;
    if KeyOf(s.handlers[g]) == KeyOf(s.handlers[h]) {
      assert Claimable(s.handlers[g].request) && Claimable(s.handlers[h].request);
      hide HandlerOk;
      OneHolder(s, h, g);
    }
  }

  lemma ClaimKeepsLine(arrivals: iset<Arrival>, s: Machine, a: Step, g: nat)
    requires KeysApart(arrivals) && Inv(s) && (forall o <- s.handlers :: OwnLine(arrivals, s, o, s.handlers[o])) && a.DoCommitClaim?
    ensures KeepsLine(arrivals, s, Next(s, a), g) && Next(s, a).log.dispatches == s.log.dispatches
  {
    hide ValidClaim;
    RowAndLogFacts(s);
    ClaimShapes(arrivals, s, a.h, a.now, a.fault);
    if g in s.handlers && a.h in s.handlers && g != a.h && ClaimedPc(s.handlers[g].pc)
       && s.handlers[a.h].pc.Reserving? && s.writer == Some(a.h) {
      NoSharedKey(arrivals, s, a.h, g);
    }
    hide Inv, CommitClaim, RowsInv, LogInv, OwnLine, KeepsLine, LockKeyOf;
    ShapeKeepsLine(arrivals, s, a.h, Next(s, a), g);
  }

  lemma LineKept(arrivals: iset<Arrival>, s: Machine, a: Step, g: nat)
    requires KeysApart(arrivals) && Inv(s) && OwnWork(arrivals, s) && Admits(arrivals, a)
    ensures KeepsLine(arrivals, s, Next(s, a), g)
    ensures a.DoCallExecutor? || Next(s, a).log.dispatches == s.log.dispatches
  {
    hide Inv, Next, OwnLine, KeepsLine, LockOk, HandlerOk, KeysApart, OwnCalls, Admits;
    if a.DoCommitMove? {
      if a.h in s.handlers {
        HandlerFacts(s, a.h);
      }
      MoveKeepsLine(arrivals, s, a, g);
    } else if a.DoCommitClaim? {
      ClaimKeepsLine(arrivals, s, a, g);
    } else if a.DoLookUp? || a.DoPoll? {
      LookingKeepsLine(arrivals, s, a, g);
    } else if a.DoAwait? || a.DoCheckGate? {
      WaitingKeepsLine(arrivals, s, a, g);
    } else if a.DoAuthorize? || a.DoCallExecutor? || a.DoExecutorReturns? {
      CallsKeepLine(arrivals, s, a, g);
      if !a.DoCallExecutor? {
        CallsQuiet(s, a);
      }
    } else {
      OtherLineKept(arrivals, s, a, g);
    }
  }

  lemma OtherLineKept(arrivals: iset<Arrival>, s: Machine, a: Step, g: nat)
    requires Inv(s) && OwnWork(arrivals, s) && Admits(arrivals, a)
    requires !(a.DoCommitMove? || a.DoCommitClaim? || a.DoLookUp? || a.DoPoll? || a.DoAwait? || a.DoCheckGate?)
    requires !(a.DoAuthorize? || a.DoCallExecutor? || a.DoExecutorReturns?)
    ensures KeepsLine(arrivals, s, Next(s, a), g) && Next(s, a).log.dispatches == s.log.dispatches
  {
    hide Inv, Next, OwnLine, KeepsLine, OwnCalls, Admits;
    if a.DoCrash? || a.DoReopen? {
      RestartKeepsLine(arrivals, s, a, g);
    } else if a.DoLockRelease? || a.DoLockUnref? {
      UnlockKeepsLine(arrivals, s, a, g);
    } else if a.DoRecoverRows? || a.DoVerifyRows? || a.DoOpenGate? {
      ReconcileKeepsLine(arrivals, s, a, g);
    } else {
      if a.DoValidate? && a.h in s.handlers {
        OutsideWriter(s, a.h);
      }
      EntryKeepsLine(arrivals, s, a, g);
    }
  }

  lemma CallsQuiet(s: Machine, a: Step)
    requires a.DoAuthorize? || a.DoExecutorReturns?
    ensures Next(s, a).log.dispatches == s.log.dispatches
  {
    hide Decide, Conclude;
  }

  lemma OwnWorkStep(arrivals: iset<Arrival>, s: Machine, a: Step)
    requires KeysApart(arrivals) && Inv(s) && OwnWork(arrivals, s) && Admits(arrivals, a)
    ensures OwnWork(arrivals, Next(s, a))
  {
    hide Inv, Next, OwnLine, KeysApart, Admits;
    var s' := Next(s, a);
    forall g <- s'.handlers ensures OwnLine(arrivals, s', g, s'.handlers[g]) {
      LineKept(arrivals, s, a, g);
    }
    LineKept(arrivals, s, a, 0);
    if a.DoCallExecutor? {
      DispatchOwned(arrivals, s, a.h);
      CallStep(s, a);
    }
  }

  lemma CallStep(s: Machine, a: Step)
    requires a.DoCallExecutor?
    ensures Next(s, a) == CallExecutor(s, a.h)
  {
  }

  /** The call a handler is about to make is its own. */
  lemma DispatchOwned(arrivals: iset<Arrival>, s: Machine, h: nat)
    requires Inv(s) && OwnWork(arrivals, s)
    ensures var s' := CallExecutor(s, h);
            s'.log.dispatches == s.log.dispatches
            || exists c :: s'.log.dispatches == s.log.dispatches + [c] && OwnCall(s', c)
  {
    hide ValidClaim;
    if At(s, h) && s.handlers[h].pc.Executing? {
      HandlerFacts(s, h);
      assert OwnLine(arrivals, s, h, s.handlers[h]);
      hide Inv;
      var c := Call(h, s.handlers[h].pc.tag, s.handlers[h].request.claim);
      assert CallExecutor(s, h).log.dispatches == s.log.dispatches + [c] && OwnCall(CallExecutor(s, h), c);
    }
  }

  lemma {:induction false} OwnWorkRun(arrivals: iset<Arrival>, s: Machine, steps: seq<Step>)
    requires KeysApart(arrivals) && Inv(s) && OwnWork(arrivals, s) && RunsOver(arrivals, steps)
    ensures OwnWork(arrivals, Run(s, steps))
    decreases |steps|
  {
    hide ValidClaim;
    hide Inv, Next, OwnWork;
    if steps != [] {
      assert steps[0] in steps;
      StepKeeps(s, steps[0]);
      OwnWorkStep(arrivals, s, steps[0]);
      OwnWorkRun(arrivals, Next(s, steps[0]), steps[1..]);
    }
  }

  /** Every executor call is made for the incarnation
      the calling handler's own claim created, after the authorizer allowed that
      handler, and passes the claim recorded for that incarnation. */
  lemma ExecutesOwnApprovedClaim(arrivals: iset<Arrival>, steps: seq<Step>)
    requires KeysApart(arrivals) && RunsOver(arrivals, steps)
    ensures var s := Run(BOOT, steps);
            forall c <- s.log.dispatches ::
              c in s.log.approvals && c.incarnation in s.rows.origin
              && s.rows.origin[c.incarnation] == Origin(c.handler, c.claim)
  {
    hide ValidClaim;
    BootHolds();
    OwnWorkRun(arrivals, BOOT, steps);
  }

  lemma SoleOwnerNow(arrivals: iset<Arrival>, s: Machine, g: nat, h: nat)
    requires KeysApart(arrivals) && Inv(s) && OwnWork(arrivals, s)
    requires g in s.handlers && h in s.handlers && KeyOf(s.handlers[g]) == KeyOf(s.handlers[h])
    requires Expects(s.handlers[g].pc).Some? && Expects(s.handlers[h].pc).Some?
    ensures g == h
  {
    hide ValidClaim;
    HandlerFacts(s, h);
    HandlerFacts(s, g);
    hide Inv, LockOk;
    assert OwnLine(arrivals, s, g, s.handlers[g]) && OwnLine(arrivals, s, h, s.handlers[h]);
    assert Claimable(s.handlers[g].request) && Claimable(s.handlers[h].request);
    hide HandlerOk;
    OneHolder(s, g, h);
  }

  /** The row of a key is in the hands of at most one handler. */
  lemma SoleOwner(arrivals: iset<Arrival>, steps: seq<Step>, g: nat, h: nat)
    requires KeysApart(arrivals) && RunsOver(arrivals, steps)
    requires var s := Run(BOOT, steps);
             && g in s.handlers && h in s.handlers && KeyOf(s.handlers[g]) == KeyOf(s.handlers[h])
             && Expects(s.handlers[g].pc).Some? && Expects(s.handlers[h].pc).Some?
    ensures g == h
  {
    hide ValidClaim;
    BootHolds();
    hide Inv, OwnWork, Run, RunsOver;
    RunKeeps(BOOT, steps);
    BootOwnWork(arrivals);
    OwnWorkRun(arrivals, BOOT, steps);
    SoleOwnerNow(arrivals, Run(BOOT, steps), g, h);
  }

  lemma BootOwnWork(arrivals: iset<Arrival>)
    ensures OwnWork(arrivals, BOOT)
  {
    hide ValidClaim;
  }

  // ------------------------------------------------------------------ one service

  ghost function AtService(n: nat): iset<Arrival> {
    iset a: Arrival | a.service == n
  }

  /** Everything arrives at service object 0. */
  ghost predicate SingleService(steps: seq<Step>) {
    RunsOver(AtService(0), steps)
  }

  lemma SingleServiceApart()
    ensures KeysApart(AtService(0))
  {
  }
}
