/** What the steps of one undisturbed handler amount to: the stretches of a run
    that the statements of the sequential handler take. */
module CommandHandleRuns {
  import opened Wrappers
  import opened Ledger
  import opened CommandService
  import opened CommandInvariants
  import opened CommandSteps
  import opened CommandRuns

  /** What a step of one handler leaves alone. */
  predicate Steady(s: Machine, s': Machine) {
    s'.up && s'.writer.None? && s'.locks == s.locks && s'.nextHandler == s.nextHandler
  }

  predicate NoCalls(s: Machine, s': Machine) {
    s'.log.dispatches == s.log.dispatches && s'.log.authorizations == s.log.authorizations
  }

  predicate SameHandler(s: Machine, s': Machine, h: nat)
    requires h in s.handlers
  {
    h in s'.handlers && s'.handlers[h].request == s.handlers[h].request && s'.handlers[h].service == s.handlers[h].service
  }

  lemma RowsKnown(s: Machine, trace: seq<Step>)
    requires s == Run(BOOT, trace)
    ensures forall k <- s.rows.table :: k in s.rows.incs
  {
    BootHolds();
    RunKeeps(BOOT, trace);
    assert forall k <- s.rows.table :: RowOk(s.rows, k);
  }

  // ----------------------------------------------------------------- reading the row

  /** Where a handler is after a lookup. */
  predicate AfterLookup(pc: Pc, r: Request, found: Result<Option<Record>, LedgerError>) {
    if found.Err? then pc == Repairing
    else if found.value.None? then pc == Validating
    else if found.value.value.claim.requestFingerprint != r.claim.requestFingerprint then
      pc == Leaving(ConflictReply(r.claim.key.commandID))
    else pc.Awaiting? && pc.record == found.value.value
  }

  predicate AfterPoll(pc: Pc, r: Request, found: Result<Option<Record>, LedgerError>) {
    if found.Err? || found.value.None? then pc == Repairing else AfterLookup(pc, r, found)
  }

  /** What awaitRecord's loop waits for. */
  predicate Undecided(r: Record) {
    r.status == AuthorizationPending || r.status == Accepted
  }

  function StillProcessing(r: Request): Reply {
    Failure(InternalCode, InternalError, StillBeingProcessed, true, r.claim.key.commandID)
  }

  /** The answers waiting on a row can end in: the answer of a decided record of
      this request in the table, or one of the three ways to give up. */
  predicate AwaitAnswer(reply: Reply, r: Request, t: Table) {
    || reply == PersistenceReply(r.claim.key.commandID)
    || reply == StillProcessing(r)
    || reply == ConflictReply(r.claim.key.commandID)
    || (r.claim.key in t && !Undecided(t[r.claim.key]) && reply == RecordResponse(t[r.claim.key])
        && t[r.claim.key].claim.requestFingerprint == r.claim.requestFingerprint)
  }

  // ------------------------------------------------------------------------- restart

  /** A process dies and another opens what it left. */
  lemma Restarted(s: Machine, now: int)
    ensures Run(s, [DoCrash, DoReopen(true, now, NoFault, NoFault)])
            == s.(up := true, blocked := false, writer := None, handlers := map[], locks := RequestLocks.NO_LOCKS,
                  rows := s.rows.(table := Purge(Recover(s.rows.table, now), now)))
  {
    hide Run, Purge, Recover;
    RunPair(s, DoCrash, DoReopen(true, now, NoFault, NoFault));
  }

  // ------------------------------------------------------------------ reconciliation

  lemma RecoverKeepsReached(t: Table, now: int)
    ensures forall k <- t :: k in Recover(t, now) && (Reached(t[k].status) ==> Reached(Recover(t, now)[k].status))
    ensures Recover(t, now).Keys == t.Keys
  {
  }

  lemma RecoveredNone(t: Table, now: int)
    ensures NoneUnresolved(Recover(t, now))
  {
  }

  function Reconciliation(h: nat, integrityOk: bool, now: int, fault: TxFault, checkpointOk: bool): seq<Step> {
    [DoEnterWriter(h), DoRecoverRows(h, integrityOk, now, fault), DoVerifyRows(h, checkpointOk), DoOpenGate(h)]
  }

  lemma ReconciliationRun(s: Machine, h: nat, integrityOk: bool, now: int, fault: TxFault, checkpointOk: bool)
    ensures Run(s, Reconciliation(h, integrityOk, now, fault, checkpointOk))
            == OpenGate(VerifyRows(RecoverRows(EnterWriter(s, h), h, integrityOk, now, fault), h, checkpointOk), h)
  {
    hide Run, EnterWriter, RecoverRows, VerifyRows, OpenGate;
    RunFour(s, DoEnterWriter(h), DoRecoverRows(h, integrityOk, now, fault), DoVerifyRows(h, checkpointOk), DoOpenGate(h));
  }

  /** The four steps of a reconciliation, taken in a row. */
  lemma ReconcileRun(s: Machine, h: nat, integrityOk: bool, now: int, fault: TxFault, checkpointOk: bool)
    requires At(s, h) && s.writer.None? && s.blocked && s.handlers[h].pc.Reconciling?
    ensures var t := Run(s, Reconciliation(h, integrityOk, now, fault, checkpointOk));
            t == s.(handlers := s.handlers[h := s.handlers[h].(pc := Leaving(PersistenceReply(IdOf(s.handlers[h]))))],
                    blocked := !(integrityOk && fault == NoFault && checkpointOk),
                    rows := s.rows.(table := if integrityOk && (fault == NoFault || fault == CommitApplied)
                                             then Recover(s.rows.table, now) else s.rows.table))
  {
    hide Run, Recover, Reconciliation, PersistenceReply, EnterWriter, RecoverRows, VerifyRows, OpenGate, NoneUnresolved;
    ReconciliationRun(s, h, integrityOk, now, fault, checkpointOk);
    EntersWriter(s, h);
    var s1 := EnterWriter(s, h);
    RecoveredNone(s.rows.table, now);
    Recovered(s1, h, integrityOk, now, fault);
    var s2 := RecoverRows(s1, h, integrityOk, now, fault);
    Verified(s2, h, checkpointOk);
    assert s.rows.(table := s.rows.table) == s.rows;
  }

  lemma EntersWriter(s: Machine, h: nat)
    requires At(s, h) && s.writer.None? && s.blocked && s.handlers[h].pc.Reconciling?
    ensures EnterWriter(s, h) == Goto(s, h, Recovering).(writer := Some(h))
  {
  }

  lemma Recovered(s: Machine, h: nat, integrityOk: bool, now: int, fault: TxFault)
    requires Inside(s, h) && s.handlers[h].pc.Recovering?
    ensures RecoverRows(s, h, integrityOk, now, fault)
            == var t := s.(rows := s.rows.(table := if integrityOk && (fault == NoFault || fault == CommitApplied)
                                                    then Recover(s.rows.table, now) else s.rows.table));
               if integrityOk && fault == NoFault then Goto(t, h, Verifying) else GiveUp(t, h)
  {
    hide Recover;
    assert s.rows.(table := s.rows.table) == s.rows;
  }

  lemma Verified(s: Machine, h: nat, checkpointOk: bool)
    requires h in s.handlers
    ensures var t := OpenGate(VerifyRows(s, h, checkpointOk), h);
            if Inside(s, h) && s.handlers[h].pc.Verifying? && NoneUnresolved(s.rows.table) then
              t == if checkpointOk then
                     Goto(s, h, Leaving(PersistenceReply(IdOf(s.handlers[h])))).(blocked := false, writer := None)
                   else GiveUp(s, h)
            else !(Inside(s, h) && (s.handlers[h].pc.Verifying? || s.handlers[h].pc.Opening?)) ==> t == s
  {
    hide NoneUnresolved, PersistenceReply;
  }

  // ------------------------------------------------------------------------- claiming

  function ClaimTransaction(h: nat, now: int, fault: TxFault): seq<Step> {
    [DoEnterWriter(h), DoCommitClaim(h, now, fault)]
  }

  /** Where a handler is after its claim. */
  predicate AfterReserve(x: Handler, r: Request, e: Result<Reservation, LedgerError>) {
    if e.Err? then x.pc == (if e.error == CommandIDConflict then Leaving(ConflictReply(r.claim.key.commandID)) else Repairing)
    else if e.value.created then x.pc == Authorizing && x.claimed.Some?
    else x.pc.Awaiting? && x.pc.record == e.value.record
  }

  /** What a claim does to the machine, case by case. */
  predicate ReserveEffect(s: Machine, t: Machine, h: nat, now: int, fault: TxFault)
    requires h in s.handlers
  {
    var c := s.handlers[h].request.claim;
    && Steady(s, t) && NoCalls(s, t) && SameHandler(s, t, h)
    && if !ValidClaim(c) || s.blocked then t.handlers[h].pc == Repairing && t.rows.table == s.rows.table && t.blocked == s.blocked
       else if fault == BeforeCommit then t.handlers[h].pc == Repairing && t.rows.table == s.rows.table && t.blocked
       else
         match ReserveTx(s.rows.table, c, now)
         case Conflict => t.handlers[h].pc == Leaving(ConflictReply(c.key.commandID)) && t.rows.table == s.rows.table && !t.blocked
         case Written(table, record, created) =>
           && t.rows.table == (if fault == CommitLost then s.rows.table else table)
           && t.blocked == (fault != NoFault)
           && if t.blocked then t.handlers[h].pc == Repairing
              else AfterReserve(t.handlers[h], s.handlers[h].request, Ok(Reservation(record, created)))
  }

  lemma ReserveRefused(s: Machine, h: nat, now: int, fault: TxFault)
    requires At(s, h) && s.writer.None? && s.handlers[h].pc.Reserving?
    requires !ValidClaim(s.handlers[h].request.claim) || s.blocked
    ensures ReserveEffect(s, CommitClaim(EnterWriter(s, h), h, now, fault), h, now, fault)
  {
    hide ValidClaim, ReserveTx;
    assert CommitClaim(EnterWriter(s, h), h, now, fault) == Goto(s, h, Repairing);
    hide CommitClaim, EnterWriter;
  }

  lemma ReserveEntered(s: Machine, h: nat)
    requires At(s, h) && s.writer.None? && s.handlers[h].pc.Reserving?
    requires ValidClaim(s.handlers[h].request.claim) && !s.blocked
    ensures EnterWriter(s, h) == s.(writer := Some(h))
  {
    hide ValidClaim;
  }

  lemma ReserveRun(s: Machine, h: nat, now: int, fault: TxFault)
    requires At(s, h) && s.writer.None? && s.handlers[h].pc.Reserving? && forall k <- s.rows.table :: k in s.rows.incs
    ensures ReserveEffect(s, Run(s, ClaimTransaction(h, now, fault)), h, now, fault)
  {
    hide Run, EnterWriter, ValidClaim, CommitClaim, ReserveEffect;
    RunPair(s, DoEnterWriter(h), DoCommitClaim(h, now, fault));
    if !ValidClaim(s.handlers[h].request.claim) || s.blocked {
      ReserveRefused(s, h, now, fault);
    } else {
      ReserveEntered(s, h);
      ReserveInside(s, h, now, fault);
    }
  }

  lemma ReserveInside(s: Machine, h: nat, now: int, fault: TxFault)
    requires At(s, h) && s.writer.None? && s.handlers[h].pc.Reserving? && !s.blocked
    requires ValidClaim(s.handlers[h].request.claim) && forall k <- s.rows.table :: k in s.rows.incs
    ensures ReserveEffect(s, CommitClaim(s.(writer := Some(h)), h, now, fault), h, now, fault)
  {
    hide ValidClaim, ReserveTx, NewRecord, ConflictReply;
    var c := s.handlers[h].request.claim;
    if ReserveTx(s.rows.table, c, now).Written? {
      ReserveFacts(s.rows.table, c, now);
      ReserveFound(s.rows.table, c, now);
    }
  }

  lemma ReserveFound(t: Table, c: Claim, now: int)
    requires ReserveTx(t, c, now).Written?
    ensures !ReserveTx(t, c, now).created ==> c.key in t && ReserveTx(t, c, now).record.claim.requestFingerprint == c.requestFingerprint
  {
  }

  // ------------------------------------------------------------------------ moving on

  function MoveTransaction(h: nat, now: int, fault: TxFault, read: ReadFault): seq<Step> {
    [DoEnterWriter(h), DoCommitMove(h, now, fault, read)]
  }

  /** Where a handler is after a transition. */
  predicate AfterMove(pc: Pc, r: Request, to: Status, answer: Reply, reported: bool) {
    if !reported then pc == Repairing
    else if to == Accepted then pc == Moving(Accepted, Running, RunningData(r), answer)
    else if to == Running then pc.Executing?
    else pc == Leaving(answer)
  }

  /** What a transition does to the machine, case by case. */
  predicate MoveEffect(s: Machine, t: Machine, h: nat, now: int, fault: TxFault, read: ReadFault)
    requires h in s.handlers && s.handlers[h].pc.Moving?
  {
    var (x, pc) := (s.handlers[h], s.handlers[h].pc);
    var k := KeyOf(x);
    && Steady(s, t) && NoCalls(s, t) && SameHandler(s, t, h)
    && if !Admissible(pc.from, pc.to, pc.data) || s.blocked then
         AfterMove(t.handlers[h].pc, x.request, pc.to, pc.reply, false) && t.rows.table == s.rows.table && t.blocked == s.blocked
       else if !Matches(s.rows.table, k, pc.from) then
         AfterMove(t.handlers[h].pc, x.request, pc.to, pc.reply, false) && t.rows.table == s.rows.table
         && t.blocked == (fault == BeforeCommit || read != ReadOk)
       else
         && t.blocked == (fault != NoFault)
         && t.rows.table == (if fault == NoFault || fault == CommitApplied
                             then s.rows.table[k := Merge(s.rows.table[k], pc.to, pc.data, now)] else s.rows.table)
         && AfterMove(t.handlers[h].pc, x.request, pc.to, pc.reply, fault == NoFault)
  }

  lemma MoveRefused(s: Machine, h: nat, now: int, fault: TxFault, read: ReadFault)
    requires At(s, h) && s.writer.None? && s.handlers[h].pc.Moving?
    requires !Admissible(s.handlers[h].pc.from, s.handlers[h].pc.to, s.handlers[h].pc.data) || s.blocked
    ensures MoveEffect(s, CommitMove(EnterWriter(s, h), h, now, fault, read), h, now, fault, read)
  {
    hide Admissible, WriteStatus, Matches;
    assert CommitMove(EnterWriter(s, h), h, now, fault, read) == Goto(s, h, Repairing);
    hide CommitMove, EnterWriter;
  }

  lemma MoveEntered(s: Machine, h: nat)
    requires At(s, h) && s.writer.None? && s.handlers[h].pc.Moving? && !s.blocked
    requires Admissible(s.handlers[h].pc.from, s.handlers[h].pc.to, s.handlers[h].pc.data)
    ensures EnterWriter(s, h) == s.(writer := Some(h))
  {
    hide Admissible;
  }

  lemma MoveConflicts(s: Machine, h: nat, now: int, fault: TxFault, read: ReadFault)
    requires Inside(s, h) && s.handlers[h].pc.Moving? && !s.blocked
    requires !Matches(s.rows.table, KeyOf(s.handlers[h]), s.handlers[h].pc.from)
    ensures CommitMove(s, h, now, fault, read)
            == Goto(s, h, Repairing).(writer := None, blocked := fault == BeforeCommit || read != ReadOk)
  {
    hide Matches, WriteStatus;
  }

  lemma MoveFails(s: Machine, h: nat, now: int, fault: TxFault, read: ReadFault)
    requires Inside(s, h) && s.handlers[h].pc.Moving? && fault != NoFault
    requires Matches(s.rows.table, KeyOf(s.handlers[h]), s.handlers[h].pc.from) && KeyOf(s.handlers[h]) in s.rows.incs
    ensures var (k, pc) := (KeyOf(s.handlers[h]), s.handlers[h].pc);
            CommitMove(s, h, now, fault, read)
            == Block(s, h).(rows := if fault == CommitApplied then WriteStatus(s.rows, k, pc.to, pc.data, now) else s.rows)
  {
    hide WriteStatus;
  }

  lemma MoveReported(s: Machine, h: nat, now: int, read: ReadFault)
    requires Inside(s, h) && s.handlers[h].pc.Moving?
    requires Matches(s.rows.table, KeyOf(s.handlers[h]), s.handlers[h].pc.from) && KeyOf(s.handlers[h]) in s.rows.incs
    ensures var (k, pc) := (KeyOf(s.handlers[h]), s.handlers[h].pc);
            var w := WriteStatus(s.rows, k, pc.to, pc.data, now);
            CommitMove(s, h, now, NoFault, read) == Continue(s.(rows := w, writer := None), h, s.rows.incs[k], w.table[k])
  {
    WritesMerge(s.rows, KeyOf(s.handlers[h]), s.handlers[h].pc.to, s.handlers[h].pc.data, now);
    hide WriteStatus, Continue;
  }

  lemma WritesMerge(w: Rows, k: Key, to: Status, d: TransitionData, now: int)
    requires k in w.table && k in w.incs
    ensures var w' := WriteStatus(w, k, to, d, now);
            w'.incs == w.incs && w'.table == w.table[k := Merge(w.table[k], to, d, now)]
  {
  }

  lemma ContinueEffect(s: Machine, h: nat, inc: nat, r: Record)
    requires At(s, h) && s.writer.None? && s.handlers[h].pc.Moving?
    ensures var (x, t) := (s.handlers[h], Continue(s, h, inc, r));
            && Steady(s, t) && NoCalls(s, t) && SameHandler(s, t, h) && t.rows == s.rows && t.blocked == s.blocked
            && AfterMove(t.handlers[h].pc, x.request, x.pc.to, x.pc.reply, true)
  {
    hide RunningData;
  }

  lemma MoveInside(s: Machine, h: nat, now: int, fault: TxFault, read: ReadFault)
    requires At(s, h) && s.writer.None? && s.handlers[h].pc.Moving? && forall k <- s.rows.table :: k in s.rows.incs
    requires Admissible(s.handlers[h].pc.from, s.handlers[h].pc.to, s.handlers[h].pc.data) && !s.blocked
    ensures MoveEffect(s, CommitMove(s.(writer := Some(h)), h, now, fault, read), h, now, fault, read)
  {
    hide Admissible, Merge, RunningData, WriteStatus, CommitMove, Continue;
    var (s1, k, pc) := (s.(writer := Some(h)), KeyOf(s.handlers[h]), s.handlers[h].pc);
    if !Matches(s.rows.table, k, pc.from) {
      MoveConflicts(s1, h, now, fault, read);
    } else {
      WritesMerge(s.rows, k, pc.to, pc.data, now);
      if fault != NoFault {
        MoveFails(s1, h, now, fault, read);
      } else {
        MoveReported(s1, h, now, read);
        var w := WriteStatus(s.rows, k, pc.to, pc.data, now);
        ContinueEffect(s.(rows := w), h, s.rows.incs[k], w.table[k]);
      }
    }
  }

  lemma MoveRun(s: Machine, h: nat, now: int, fault: TxFault, read: ReadFault)
    requires At(s, h) && s.writer.None? && s.handlers[h].pc.Moving? && forall k <- s.rows.table :: k in s.rows.incs
    ensures MoveEffect(s, Run(s, MoveTransaction(h, now, fault, read)), h, now, fault, read)
  {
    hide Run, EnterWriter, Admissible, CommitMove, MoveEffect;
    RunPair(s, DoEnterWriter(h), DoCommitMove(h, now, fault, read));
    if !Admissible(s.handlers[h].pc.from, s.handlers[h].pc.to, s.handlers[h].pc.data) || s.blocked {
      MoveRefused(s, h, now, fault, read);
    } else {
      MoveEntered(s, h);
      MoveInside(s, h, now, fault, read);
    }
  }

  /** The reply that goes with a final transition is the one its row gives. */
  lemma FinalAnswer(s: Machine, trace: seq<Step>, h: nat, now: int)
    requires s == Run(BOOT, trace) && h in s.handlers && s.handlers[h].pc.Moving? && !Unresolved(s.handlers[h].pc.to)
    requires Matches(s.rows.table, KeyOf(s.handlers[h]), s.handlers[h].pc.from)
    ensures var (x, k) := (s.handlers[h], KeyOf(s.handlers[h]));
            x.pc.reply == RecordResponse(Merge(s.rows.table[k], x.pc.to, x.pc.data, now))
  {
    hide Run, Inv, RecordResponse, Merge, MoveOk, Matches, RowsInv, LogInv;
    BootHolds();
    RunKeeps(BOOT, trace);
    FinalAnswerNow(s, h, now);
  }

  lemma FinalAnswerNow(s: Machine, h: nat, now: int)
    requires Inv(s) && h in s.handlers && s.handlers[h].pc.Moving? && !Unresolved(s.handlers[h].pc.to)
    requires Matches(s.rows.table, KeyOf(s.handlers[h]), s.handlers[h].pc.from)
    ensures var (x, k) := (s.handlers[h], KeyOf(s.handlers[h]));
            x.pc.reply == RecordResponse(Merge(s.rows.table[k], x.pc.to, x.pc.data, now))
  {
    hide Inv, RecordResponse, Merge, MoveOk, LogInv, LockOk;
    HandlerFacts(s, h);
    RowAndLogFacts(s);
    assert RowOk(s.rows, KeyOf(s.handlers[h]));
    RunningSends(s.handlers[h], s.rows.table[KeyOf(s.handlers[h])], now);
  }

  /** A dispatched row stays one. */
  predicate StillReached(t: Table, t': Table, k: Key) {
    k in t && Reached(t[k].status) ==> k in t' && Reached(t'[k].status)
  }

  lemma MoveKeepsReached(t: Table, k: Key, from: Status, to: Status, d: TransitionData, now: int)
    ensures Admissible(from, to, d) && Matches(t, k, from) ==> StillReached(t, t[k := Merge(t[k], to, d, now)], k)
    ensures k in t ==> Merge(t[k], to, d, now).status == to
  {
  }

  /** What a caller learns from a transition's report. */
  predicate MoveAnswers(s: Machine, t: Machine, h: nat, ok: bool)
    requires h in s.handlers && s.handlers[h].pc.Moving?
  {
    var (k, pc) := (KeyOf(s.handlers[h]), s.handlers[h].pc);
    && StillReached(s.rows.table, t.rows.table, k)
    && (ok ==> k in t.rows.table && t.rows.table[k].status == pc.to)
    && (ok && !Unresolved(pc.to) ==> k in t.rows.table && pc.reply == RecordResponse(t.rows.table[k]))
  }

  lemma MoveAnswersRun(s: Machine, trace: seq<Step>, t: Machine, h: nat, now: int, fault: TxFault, read: ReadFault)
    requires s == Run(BOOT, trace) && h in s.handlers && s.handlers[h].pc.Moving?
    requires MoveEffect(s, t, h, now, fault, read)
    ensures var pc := s.handlers[h].pc;
            MoveAnswers(s, t, h, Admissible(pc.from, pc.to, pc.data) && !s.blocked && fault == NoFault
                                 && Matches(s.rows.table, KeyOf(s.handlers[h]), pc.from))
  {
    hide Run, Admissible, Merge, RecordResponse, AfterMove, Steady, NoCalls, SameHandler;
    var (k, pc) := (KeyOf(s.handlers[h]), s.handlers[h].pc);
    if !Unresolved(pc.to) && Matches(s.rows.table, k, pc.from) {
      FinalAnswer(s, trace, h, now);
    }
    MoveKeepsReached(s.rows.table, k, pc.from, pc.to, pc.data, now);
  }

  lemma MoveRuns(s: Machine, trace: seq<Step>, h: nat, now: int, fault: TxFault, read: ReadFault)
    requires s == Run(BOOT, trace) && At(s, h) && s.writer.None? && s.handlers[h].pc.Moving?
    ensures var (pc, t) := (s.handlers[h].pc, Run(s, MoveTransaction(h, now, fault, read)));
            && MoveEffect(s, t, h, now, fault, read)
            && MoveAnswers(s, t, h, Admissible(pc.from, pc.to, pc.data) && !s.blocked && fault == NoFault
                                    && Matches(s.rows.table, KeyOf(s.handlers[h]), pc.from))
  {
    hide Run, MoveEffect, MoveAnswers, MoveTransaction, Admissible, Matches;
    RowsKnown(s, trace);
    MoveRun(s, h, now, fault, read);
    MoveAnswersRun(s, trace, Run(s, MoveTransaction(h, now, fault, read)), h, now, fault, read);
  }

  lemma DecidedFinal(x: Handler, d: Decision)
    ensures Decide(x, d).Moving? && (Decide(x, d).to == Accepted || !Unresolved(Decide(x, d).to))
  {
  }

  // -------------------------------------------------------------- entering and leaving

  lemma ArriveRun(s: Machine, r: Request)
    requires s.up
    ensures Run(s, [DoArrive(0, r), DoCheckAdmission(s.nextHandler)])
            == ArrivedAt(s, r, if s.blocked then Repairing else Admitted)
  {
    hide Run, CheckAdmission, Arrive, Goto, ArrivedAt;
    RunPair(s, DoArrive(0, r), DoCheckAdmission(s.nextHandler));
    Arrived(s, r);
    ArrivedGoes(s, r, if s.blocked then Repairing else Admitted);
    Checked(Arrive(s, 0, r), s.nextHandler);
  }

  /** The machine with a new handler at a program counter. */
  function ArrivedAt(s: Machine, r: Request, pc: Pc): Machine {
    s.(handlers := s.handlers[s.nextHandler := Handler(0, r, pc, None)], nextHandler := s.nextHandler + 1,
       log := s.log.(arrived := s.log.arrived[s.nextHandler := r]))
  }

  lemma ArrivedGoes(s: Machine, r: Request, pc: Pc)
    ensures ArrivedAt(s, r, Start).nextHandler == s.nextHandler + 1 && s.nextHandler in ArrivedAt(s, r, Start).handlers
    ensures Goto(ArrivedAt(s, r, Start), s.nextHandler, pc) == ArrivedAt(s, r, pc)
  {
    assert s.handlers[s.nextHandler := Handler(0, r, Start, None)][s.nextHandler := Handler(0, r, pc, None)]
           == s.handlers[s.nextHandler := Handler(0, r, pc, None)];
  }

  lemma Arrived(s: Machine, r: Request)
    requires s.up
    ensures Arrive(s, 0, r) == ArrivedAt(s, r, Start)
    ensures var t := Arrive(s, 0, r);
            At(t, s.nextHandler) && t.handlers[s.nextHandler].pc.Start? && t.blocked == s.blocked
  {
  }

  lemma Checked(s: Machine, h: nat)
    requires At(s, h) && s.handlers[h].pc.Start?
    ensures CheckAdmission(s, h) == Goto(s, h, if s.blocked then Repairing else Admitted)
  {
  }

  lemma SameRequestLock(x: Handler, y: Handler)
    requires x.request == y.request && x.service == y.service
    ensures LockKeyOf(x) == LockKeyOf(y)
  {
  }

  lemma LockRun(s: Machine, h: nat)
    requires At(s, h) && s.handlers[h].pc.Admitted?
    ensures var t := LockRef(s, h);
            t == Goto(s, h, Pc.Waiting).(locks := RequestLocks.Ref(s.locks, h, LockKeyOf(s.handlers[h])))
    ensures var t := LockRef(s, h);
            RequestLocks.Holds(RequestLocks.Acquire(t.locks, h), h) ==>
              LockAcquire(t, h) == Goto(s, h, LookingUp).(locks := RequestLocks.Acquire(t.locks, h))
  {
    hide RequestLocks.Ref, RequestLocks.Acquire, RequestLocks.Holds, LockKeyOf;
  }

  lemma HolderKeepsTickets(l: RequestLocks.Locks, h: nat)
    ensures RequestLocks.Release(l, h).tickets == l.tickets && RequestLocks.Acquire(l, h).tickets == l.tickets
  {
  }

  // ----------------------------------------------------------------------- calling out

  /** The claims that were passed, in order. */
  function ClaimsOf(calls: seq<Call>): seq<Claim> {
    seq(|calls|, i requires 0 <= i < |calls| => calls[i].claim)
  }

  lemma ClaimsAppend(calls: seq<Call>, c: Call)
    ensures ClaimsOf(calls + [c]) == ClaimsOf(calls) + [c.claim]
  {
  }

  lemma DecideSame(x: Handler, y: Handler, d: Decision)
    requires x.request == y.request
    ensures Decide(x, d) == Decide(y, d)
    ensures var pc := Decide(x, d); pc.Moving? && pc.from == AuthorizationPending && pc.to != Running
  {
  }

  lemma ConcludeSame(x: Handler, y: Handler, o: Outcome)
    requires x.request == y.request
    ensures Conclude(x, o) == Conclude(y, o)
    ensures Conclude(x, o).Moving? && Conclude(x, o).from == Running && !Unresolved(Conclude(x, o).to)
  {
  }
}
