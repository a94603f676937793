/** Every step of the command service keeps the invariant. */
module CommandSteps {
  import opened Wrappers
  import opened Ledger
  import opened CommandService
  import opened CommandInvariants

  // -------------------------------------------------------------- arrival, locks

  lemma ArriveOwns(s: Machine, s': Machine)
    requires OwnInv(s) && s'.up == s.up && s'.blocked == s.blocked && s'.rows == s.rows
    requires forall o <- s.handlers :: o in s'.handlers && s'.handlers[o] == s.handlers[o]
    requires forall o <- s'.handlers :: o in s.handlers || s'.handlers[o].pc.Start?
    ensures OwnInv(s')
  {
    if s.up && !s.blocked {
      forall k <- s.rows.table | Unresolved(s.rows.table[k].status) ensures Owned(s', k, s.rows.table[k].status) {
        var st := s.rows.table[k].status;
        assert Owned(s, k, st);
        var o :| o in s.handlers && Owns(s.handlers[o], k, st);
        assert s'.handlers[o] == s.handlers[o];
      }
    }
  }

  lemma ArriveKeeps(s: Machine, service: nat, r: Request)
    requires Inv(s)
    ensures Inv(Arrive(s, service, r))
  {
    hide RequestLocks.Inv, RowsInv, LogInv, OwnInv, HandlerOk;
    if s.up {
      var s' := Arrive(s, service, r);
      ArriveOwns(s, s');
      ArriveLog(s.rows, s.log, s.nextHandler, r);
      forall h <- s'.handlers ensures HandlerOk(s'.rows, s'.log, h, s'.handlers[h]) {
        ArriveLine(s.rows, s.log, h, s'.handlers[h], s'.log);
      }
    }
  }

  lemma ArriveLine(w: Rows, g: Log, h: nat, x: Handler, g': Log)
    requires HandlerOk(w, g, h, x) || (x.pc.Start? && x.claimed.None?)
    requires g' == g.(arrived := g'.arrived)
    ensures HandlerOk(w, g', h, x)
  {
  }

  lemma ArriveLog(w: Rows, g: Log, h: nat, r: Request)
    requires LogInv(w, g)
    ensures LogInv(w, g.(arrived := g.arrived[h := r]))
  {
    hide RecordResponse;
  }

  lemma LockRefKeeps(s: Machine, h: nat)
    requires Inv(s)
    ensures Inv(LockRef(s, h))
  {
    hide Inv, RequestLocks.Inv;
    if At(s, h) && s.handlers[h].pc.Admitted? {
      HandlerFacts(s, h);
      var key := LockKeyOf(s.handlers[h]);
      RequestLocks.RefKeeps(s.locks, h, key);
      RequestLocks.RefOthers(s.locks, h, key);
      RequestLocks.RefTicket(s.locks, h, key);
      PlainStepKeeps(s, h, s.handlers[h].(pc := Waiting), s.blocked, s.writer, RequestLocks.Ref(s.locks, h, key));
    }
  }

  lemma LockAcquireKeeps(s: Machine, h: nat)
    requires Inv(s)
    ensures Inv(LockAcquire(s, h))
  {
    hide Inv, RequestLocks.Inv;
    var l := RequestLocks.Acquire(s.locks, h);
    if At(s, h) && s.handlers[h].pc.Waiting? && RequestLocks.Holds(l, h) {
      HandlerFacts(s, h);
      RequestLocks.HolderKeeps(s.locks, h, l);
      RequestLocks.HolderOthers(s.locks, h, l);
      PlainStepKeeps(s, h, s.handlers[h].(pc := LookingUp), s.blocked, s.writer, l);
    }
  }

  lemma LockReleaseKeeps(s: Machine, h: nat)
    requires Inv(s)
    ensures Inv(LockRelease(s, h))
  {
    hide Inv, RequestLocks.Inv;
    if At(s, h) && s.handlers[h].pc.Leaving? {
      HandlerFacts(s, h);
      var pc := s.handlers[h].pc;
      if h in s.locks.tickets {
        var l := RequestLocks.Release(s.locks, h);
        RequestLocks.HolderKeeps(s.locks, h, l);
        RequestLocks.HolderOthers(s.locks, h, l);
        PlainStepKeeps(s, h, s.handlers[h].(pc := Dropping(pc.reply)), s.blocked, s.writer, l);
      } else {
        PlainStepKeeps(s, h, s.handlers[h].(pc := Done(pc.reply)), s.blocked, s.writer, s.locks);
      }
    }
  }

  lemma LockUnrefKeeps(s: Machine, h: nat)
    requires Inv(s)
    ensures Inv(LockUnref(s, h))
  {
    hide Inv, RequestLocks.Inv;
    if At(s, h) && s.handlers[h].pc.Dropping? {
      HandlerFacts(s, h);
      RequestLocks.UnrefKeeps(s.locks, h);
      RequestLocks.UnrefOthers(s.locks, h);
      RequestLocks.UnrefTicket(s.locks, h);
      PlainStepKeeps(s, h, s.handlers[h].(pc := Done(s.handlers[h].pc.reply)), s.blocked, s.writer, RequestLocks.Unref(s.locks, h));
    }
  }

  // ------------------------------------------------- steps that only move a handler

  lemma CheckAdmissionKeeps(s: Machine, h: nat)
    requires Inv(s)
    ensures Inv(CheckAdmission(s, h))
  {
    hide Inv, RequestLocks.Inv;
    if At(s, h) && s.handlers[h].pc.Start? {
      HandlerFacts(s, h);
      PlainStepKeeps(s, h, CheckAdmission(s, h).handlers[h], s.blocked, s.writer, s.locks);
    }
  }

  lemma ValidateKeeps(s: Machine, h: nat, rejection: Option<Rejection>)
    requires Inv(s)
    ensures Inv(Validate(s, h, rejection))
  {
    hide Inv, RequestLocks.Inv;
    if At(s, h) && s.handlers[h].pc.Validating? {
      HandlerFacts(s, h);
      PlainStepKeeps(s, h, Validate(s, h, rejection).handlers[h], s.blocked, s.writer, s.locks);
    }
  }

  lemma MoveAdmissible(x: Handler)
    requires x.pc.Moving? && MoveOk(x) && x.request.executionUsername != "" && x.request.executionBoundary != ""
    ensures Admissible(x.pc.from, x.pc.to, x.pc.data)
  {
  }

  lemma EnterWriterKeeps(s: Machine, h: nat)
    requires Inv(s)
    ensures Inv(EnterWriter(s, h))
  {
    hide Inv, RequestLocks.Inv, RequestLocks.Holds, ValidClaim, Admissible, MoveOk;
    var s' := EnterWriter(s, h);
    if s' != s {
      HandlerFacts(s, h);
      if s.handlers[h].pc.Moving? {
        MoveAdmissible(s.handlers[h]);
      }
      assert s'.handlers == s.handlers[h := s'.handlers[h]];
      PlainStepKeeps(s, h, s'.handlers[h], s.blocked, s'.writer, s.locks);
    }
  }

  lemma ConcludeOk(x: Handler, o: Outcome)
    ensures var pc := Conclude(x, o); pc.Moving? && pc.from == Running && MoveOk(x.(pc := pc))
  {
  }

  lemma ExecutorReturnsKeeps(s: Machine, h: nat, o: Outcome)
    requires Inv(s)
    ensures Inv(ExecutorReturns(s, h, o))
  {
    hide Inv, RequestLocks.Inv, RequestLocks.Holds, RowsInv, LogInv, GrowsFor, Conclude, MoveOk;
    if At(s, h) && s.handlers[h].pc.InFlight? {
      HandlerFacts(s, h);
      RowAndLogFacts(s);
      ConcludeOk(s.handlers[h], o);
      var s' := ExecutorReturns(s, h, o);
      ReturnLog(s.rows, s.log, h, s'.log);
      HistoryStepKeeps(s, h, s'.handlers[h], s.rows, s'.log);
    }
  }

  lemma ReturnLog(w: Rows, g: Log, h: nat, g': Log)
    requires LogInv(w, g) && g' == g.(returned := g'.returned)
    ensures LogInv(w, g') && GrowsFor(w, g, w, g', h)
  {
    hide RecordResponse;
  }

  lemma CheckGateKeeps(s: Machine, h: nat)
    requires Inv(s)
    ensures Inv(CheckGate(s, h))
  {
    hide Inv, RequestLocks.Inv;
    if At(s, h) && s.handlers[h].pc.Repairing? {
      HandlerFacts(s, h);
      PlainStepKeeps(s, h, CheckGate(s, h).handlers[h], s.blocked, s.writer, s.locks);
    }
  }

  lemma VerifyRowsKeeps(s: Machine, h: nat, ok: bool)
    requires Inv(s)
    ensures Inv(VerifyRows(s, h, ok))
  {
    hide Inv, RequestLocks.Inv;
    if Inside(s, h) && s.handlers[h].pc.Verifying? {
      HandlerFacts(s, h);
      var s' := VerifyRows(s, h, ok);
      PlainStepKeeps(s, h, s'.handlers[h], s.blocked, s'.writer, s.locks);
    }
  }

  // ------------------------------------------------------------- reading the row

  lemma LogGrows(w: Rows, g: Log, w': Rows, h: nat)
    requires LogInv(w, g) && w.ran <= w'.ran
    requires forall i <- w.origin :: i in w'.origin && w'.origin[i] == w.origin[i]
    requires forall i <- w.seen :: i in w'.seen && w'.seen[i] == w.seen[i]
    ensures LogInv(w', g) && GrowsFor(w, g, w', g, h)
  {
    hide RecordResponse;
  }

  /** Remembering the terminal record of a row. */
  lemma NoteRows(w: Rows, k: Key)
    requires RowsInv(w) && k in w.table && k in w.incs
    ensures RowsInv(Note(w, w.incs[k], w.table[k]))
    ensures w.incs[k] in w.seen ==> w.seen[w.incs[k]] == w.table[k]
  {
    var w' := Note(w, w.incs[k], w.table[k]);
    assert RowOk(w, k) && IncOk(w, k);
    hide Audited;
    forall j <- w'.table ensures RowOk(w', j) {
      assert RowOk(w, j) && IncOk(w, j);
    }
    forall j <- w'.incs ensures IncOk(w', j) {
      assert IncOk(w, j);
    }
  }

  lemma RememberKeeps(s: Machine, h: nat, k: Key)
    requires Inv(s) && At(s, h) && k in s.rows.table && k in s.rows.incs
    requires s.handlers[h].pc.LookingUp? || s.handlers[h].pc.Polling? || s.handlers[h].pc.Reserving?
    requires s.writer != Some(h)
    ensures Inv(Goto(s, h, Awaiting(s.rows.table[k], s.rows.incs[k]))
                .(rows := Note(s.rows, s.rows.incs[k], s.rows.table[k])))
  {
    hide Inv, RequestLocks.Inv, RequestLocks.Holds, MoveOk, RowsInv, LogInv, GrowsFor;
    HandlerFacts(s, h);
    RowAndLogFacts(s);
    NoteRows(s.rows, k);
    LogGrows(s.rows, s.log, Note(s.rows, s.rows.incs[k], s.rows.table[k]), h);
    var x' := s.handlers[h].(pc := Awaiting(s.rows.table[k], s.rows.incs[k]));
    HistoryStepKeeps(s, h, x', Note(s.rows, s.rows.incs[k], s.rows.table[k]), s.log);
  }

  lemma SawRecordKeeps(s: Machine, h: nat)
    requires Inv(s) && At(s, h) && KeyOf(s.handlers[h]) in s.rows.table
    requires s.handlers[h].pc.LookingUp? || s.handlers[h].pc.Polling? || s.handlers[h].pc.Reserving?
    requires s.writer != Some(h)
    ensures Inv(SawRecord(s, h, s.rows.table[KeyOf(s.handlers[h])]))
  {
    hide Inv, RequestLocks.Inv, RequestLocks.Holds, MoveOk, Audited, LogInv, Note;
    HandlerFacts(s, h);
    var k := KeyOf(s.handlers[h]);
    if s.rows.table[k].claim.requestFingerprint != s.handlers[h].request.claim.requestFingerprint {
      PlainStepKeeps(s, h, s.handlers[h].(pc := Leaving(ConflictReply(IdOf(s.handlers[h])))), s.blocked, s.writer, s.locks);
    } else if k in s.rows.incs {
      RememberKeeps(s, h, k);
    }
  }

  lemma OutsideWriter(s: Machine, h: nat)
    requires Inv(s) && h in s.handlers
    ensures s.writer == Some(h) ==> s.handlers[h].pc.Reserving? || s.handlers[h].pc.Moving? || ReconcilingPc(s.handlers[h].pc)
  {
    hide Inv, HandlerOk;
    HandlerFacts(s, h);
  }

  /** Giving up with an answer, or for persistenceError, knows nothing. */
  lemma LeavesKeeps(s: Machine, h: nat, reply: Reply)
    requires Inv(s) && At(s, h) && HoldingPc(s.handlers[h].pc) && s.writer != Some(h)
    requires Expects(s.handlers[h].pc) == None
    ensures Inv(Goto(s, h, Leaving(reply)))
  {
    hide Inv, LockOk;
    HandlerFacts(s, h);
    GotoKeeps(s, h, Leaving(reply), s.blocked);
    assert Goto(s, h, Leaving(reply)) == Goto(s, h, Leaving(reply)).(blocked := s.blocked);
  }

  lemma RepairsKeeps(s: Machine, h: nat, blocked: bool)
    requires Inv(s) && At(s, h) && HoldingPc(s.handlers[h].pc) && s.writer != Some(h)
    requires (s.blocked ==> blocked) && Expects(s.handlers[h].pc) == None
    ensures Inv(Goto(s, h, Repairing).(blocked := blocked))
  {
    hide Inv, LockOk;
    HandlerFacts(s, h);
    GotoKeeps(s, h, Repairing, blocked);
  }

  lemma LookUpKeeps(s: Machine, h: nat, now: int, fault: ReadFault)
    requires Inv(s)
    ensures Inv(LookUp(s, h, now, fault))
  {
    hide Inv, RequestLocks.Inv, RequestLocks.Holds, SawRecord;
    if At(s, h) && s.handlers[h].pc.LookingUp? {
      HandlerFacts(s, h);
      if fault != ReadOk {
        PlainStepKeeps(s, h, s.handlers[h].(pc := Repairing), s.blocked || fault == ReadBroken, s.writer, s.locks);
      } else if Find(s.rows.table, KeyOf(s.handlers[h]), now).Some? {
        SawRecordKeeps(s, h);
      } else {
        PlainStepKeeps(s, h, s.handlers[h].(pc := Validating), s.blocked, s.writer, s.locks);
      }
    }
  }

  lemma PollKeeps(s: Machine, h: nat, cancelled: bool, now: int, fault: ReadFault)
    requires Inv(s)
    ensures Inv(Poll(s, h, cancelled, now, fault))
  {
    hide Inv, SawRecord, LockOk, HandlerOk;
    if At(s, h) && s.handlers[h].pc.Polling? {
      OutsideWriter(s, h);
      if !cancelled && fault == ReadOk && Find(s.rows.table, KeyOf(s.handlers[h]), now).Some? {
        SawRecordKeeps(s, h);
      } else if cancelled {
        LeavesKeeps(s, h, Failure(InternalCode, InternalError, StillBeingProcessed, true, IdOf(s.handlers[h])));
      } else {
        RepairsKeeps(s, h, s.blocked || fault == ReadBroken);
      }
    }
  }

  /** Appending an answer built from a remembered terminal record. */
  lemma AnswerKeeps(w: Rows, g: Log, a: Answer)
    requires LogInv(w, g)
    requires a.incarnation in w.seen && w.seen[a.incarnation] == a.record && a.reply == RecordResponse(a.record)
    ensures LogInv(w, g.(answers := g.answers + [a]))
  {
    hide RecordResponse;
  }

  lemma AwaitKeeps(s: Machine, h: nat)
    requires Inv(s)
    ensures Inv(Await(s, h))
  {
    hide Inv, RecordResponse, LockOk;
    if At(s, h) && s.handlers[h].pc.Awaiting? {
      OutsideWriter(s, h);
      var r := s.handlers[h].pc.record;
      if r.status == AuthorizationPending || r.status == Accepted {
        HandlerFacts(s, h);
        GotoKeeps(s, h, if s.blocked then Repairing else Polling(r), s.blocked);
      } else if Unresolved(r.status) {
        LeavesKeeps(s, h, RecordResponse(r));
      } else {
        AnswerStepKeeps(s, h);
      }
    }
  }

  /** Leaving with the answer of a terminal record, which goes on record. */
  lemma AnswerStepKeeps(s: Machine, h: nat)
    requires Inv(s) && At(s, h) && s.handlers[h].pc.Awaiting? && !Unresolved(s.handlers[h].pc.record.status)
    ensures Inv(Await(s, h))
  {
    hide Inv, RequestLocks.Inv, RequestLocks.Holds, RecordResponse, RowsInv, LogInv, MoveOk;
    HandlerFacts(s, h);
    RowAndLogFacts(s);
    var r := s.handlers[h].pc.record;
    AnswerKeeps(s.rows, s.log, Answer(h, s.handlers[h].pc.seenAs, r, RecordResponse(r)));
    HistoryStepKeeps(s, h, Await(s, h).handlers[h], s.rows, Await(s, h).log);
  }

  // --------------------------------------------------------- authorizer, executor

  lemma DecideOk(x: Handler, d: Decision)
    requires x.pc.Authorizing?
    ensures var pc := Decide(x, d); pc.Moving? && pc.from == AuthorizationPending && MoveOk(x.(pc := pc))
  {
  }

  lemma AuthorizeLog(w: Rows, g: Log, h: nat, x: Handler, g': Log)
    requires LogInv(w, g) && HandlerOk(w, g, h, x) && x.pc.Authorizing?
    requires g'.authorizations == g.authorizations + [Call(h, x.claimed.value, x.request.claim)]
    requires g.approvals <= g'.approvals
    requires g' == g.(authorizations := g'.authorizations, approvals := g'.approvals, consulted := g'.consulted)
    ensures LogInv(w, g') && GrowsFor(w, g, w, g', h)
  {
    hide RecordResponse;
  }

  lemma AuthorizeKeeps(s: Machine, h: nat, d: Decision)
    requires Inv(s)
    ensures Inv(Authorize(s, h, d))
  {
    hide Inv, RequestLocks.Inv, RequestLocks.Holds, RowsInv, LogInv, GrowsFor, Decide, MoveOk;
    if At(s, h) && s.handlers[h].pc.Authorizing? {
      HandlerFacts(s, h);
      RowAndLogFacts(s);
      DecideOk(s.handlers[h], d);
      var s' := Authorize(s, h, d);
      AuthorizeLog(s.rows, s.log, h, s.handlers[h], s'.log);
      HistoryStepKeeps(s, h, s'.handlers[h], s.rows, s'.log);
    }
  }

  lemma DispatchLog(w: Rows, g: Log, h: nat, x: Handler, g': Log)
    requires LogInv(w, g) && HandlerOk(w, g, h, x) && x.pc.Executing?
    requires g' == g.(dispatches := g.dispatches + [Call(h, x.pc.tag, x.request.claim)])
    ensures LogInv(w, g') && GrowsFor(w, g, w, g', h)
  {
    hide RecordResponse;
  }

  lemma CallExecutorKeeps(s: Machine, h: nat)
    requires Inv(s)
    ensures Inv(CallExecutor(s, h))
  {
    hide Inv, RequestLocks.Inv, RequestLocks.Holds, RowsInv, LogInv, GrowsFor, MoveOk;
    if At(s, h) && s.handlers[h].pc.Executing? {
      HandlerFacts(s, h);
      RowAndLogFacts(s);
      var s' := CallExecutor(s, h);
      DispatchLog(s.rows, s.log, h, s.handlers[h], s'.log);
      HistoryStepKeeps(s, h, s'.handlers[h], s.rows, s'.log);
    }
  }

  // ------------------------------------------------------------------- the claim

  lemma ReserveFacts(t: Table, c: Claim, now: int)
    requires ReserveTx(t, c, now).Written?
    ensures var o := ReserveTx(t, c, now);
            && c.key in o.table && o.table[c.key] == o.record
            && (o.created ==> o.record == NewRecord(c, now))
            && (forall k <- o.table :: k != c.key || !o.created ==> k in t && o.table[k] == t[k])
  {
  }

  /** Rows may disappear. */
  lemma SubTableRows(w: Rows, t: Table)
    requires RowsInv(w) && forall k <- t :: k in w.table && t[k] == w.table[k]
    ensures RowsInv(w.(table := t))
  {
    var w' := w.(table := t);
    hide Audited;
    forall k <- w'.table ensures RowOk(w', k) {
      assert RowOk(w, k);
    }
    forall k <- w'.incs ensures IncOk(w', k) {
      assert IncOk(w, k);
    }
  }

  lemma NewRecordFacts(c: Claim, now: int)
    ensures var r := NewRecord(c, now); Audited(r) && !Reached(r.status) && r.claim == c
  {
  }

  lemma NewRowRows(w: Rows, h: nat, c: Claim, now: int)
    requires RowsInv(w) && c.key !in w.table
    ensures RowsInv(InsertRow(w, h, c, w.table[c.key := NewRecord(c, now)], true))
  {
    hide Audited, Reached, NewRecord;
    var r := NewRecord(c, now);
    var w' := InsertRow(w, h, c, w.table[c.key := r], true);
    NewRecordFacts(c, now);
    forall k <- w'.table ensures RowOk(w', k) {
      assert k != c.key ==> RowOk(w, k) && IncOk(w, k);
    }
    forall k <- w'.incs ensures IncOk(w', k) {
      assert k != c.key ==> IncOk(w, k);
    }
  }

  /** The claim transaction keeps the rows well formed. */
  lemma InsertRowKeeps(w: Rows, h: nat, c: Claim, now: int)
    requires RowsInv(w) && ReserveTx(w.table, c, now).Written?
    ensures var o := ReserveTx(w.table, c, now);
            var w' := InsertRow(w, h, c, o.table, o.created);
            RowsInv(w') && c.key in w'.incs
  {
    hide RowsInv, NewRecord, Purge, RowOk;
    var live := Purge(w.table, now);
    PurgedRows(w, now);
    SubTableRows(w, live);
    if c.key !in live {
      NewRowRows(w.(table := live), h, c, now);
    }
  }

  lemma PurgedRows(w: Rows, now: int)
    requires RowsInv(w)
    ensures var live := Purge(w.table, now);
            forall k <- live :: k in w.table && live[k] == w.table[k] && k in w.incs
  {
    forall k <- Purge(w.table, now) ensures k in w.incs {
      assert RowOk(w, k);
    }
  }

  lemma FreshInc(w: Rows)
    requires RowsInv(w)
    ensures w.nextInc !in w.origin && w.nextInc !in w.ran
  {
  }

  lemma InsertRowLog(w: Rows, g: Log, h: nat, c: Claim, t: Table, created: bool)
    requires LogInv(w, g) && w.nextInc !in w.origin
    ensures LogInv(InsertRow(w, h, c, t, created), g)
    ensures GrowsFor(w, g, InsertRow(w, h, c, t, created), g, h)
  {
    hide LogInv, GrowsFor;
    LogGrows(w, g, InsertRow(w, h, c, t, created), h);
  }

  lemma FreshLine(w: Rows, g: Log, h: nat, x: Handler, t: Table)
    requires RowsInv(w) && LogInv(w, g) && HandlerOk(w, g, h, x) && x.pc.Reserving?
    ensures HandlerOk(InsertRow(w, h, x.request.claim, t, true), g, h,
                      x.(pc := Authorizing, claimed := Some(w.nextInc)))
  {
  }

  /** A handler that stops expecting anything keeps its line. */
  lemma RetiredLine(w: Rows, g: Log, w': Rows, g': Log, h: nat, x: Handler, pc: Pc)
    requires HandlerOk(w, g, h, x) && GrowsFor(w, g, w', g', h)
    requires pc.Repairing? || pc.Leaving? || pc.Verifying? || (pc == x.pc && pc.Reserving?)
    ensures HandlerOk(w', g', h, x.(pc := pc))
  {
  }

  lemma CommitThenBlock(s: Machine, h: nat, w: Rows)
    requires Inv(s) && Inside(s, h) && (s.handlers[h].pc.Reserving? || s.handlers[h].pc.Moving?)
    requires RowsInv(w) && LogInv(w, s.log) && GrowsFor(s.rows, s.log, w, s.log, h)
    requires forall k <- w.table :: k != KeyOf(s.handlers[h]) ==> k in s.rows.table && w.table[k] == s.rows.table[k]
    ensures Inv(Block(s, h).(rows := w))
  {
    hide Inv, RequestLocks.Inv, RequestLocks.Holds, MoveOk, RowsInv, LogInv, GrowsFor;
    HandlerFacts(s, h);
    RetiredLine(s.rows, s.log, w, s.log, h, s.handlers[h], Repairing);
    ChangingStepKeeps(s, h, s.handlers[h].(pc := Repairing), true, None, w, s.log);
  }

  lemma BlockKeeps(s: Machine, h: nat)
    requires Inv(s) && Inside(s, h) && (s.handlers[h].pc.Reserving? || s.handlers[h].pc.Moving?)
    ensures Inv(Block(s, h))
  {
    hide Inv, RequestLocks.Inv, RequestLocks.Holds, MoveOk;
    HandlerFacts(s, h);
    PlainStepKeeps(s, h, s.handlers[h].(pc := Repairing), true, None, s.locks);
  }

  lemma ClaimParts(s: Machine, h: nat, now: int)
    requires Inv(s) && h in s.handlers && ReserveTx(s.rows.table, s.handlers[h].request.claim, now).Written?
    ensures var c := s.handlers[h].request.claim;
            var o := ReserveTx(s.rows.table, c, now);
            var w := InsertRow(s.rows, h, c, o.table, o.created);
            && RowsInv(w) && LogInv(w, s.log) && GrowsFor(s.rows, s.log, w, s.log, h)
            && c.key in w.table && c.key in w.incs && w.table[c.key] == o.record
            && (o.created ==> w.table[c.key].status == AuthorizationPending)
            && (forall k <- w.table :: k != c.key || !o.created ==> k in s.rows.table && w.table[k] == s.rows.table[k])
  {
    hide Inv, RowsInv, LogInv, GrowsFor;
    RowAndLogFacts(s);
    var c := s.handlers[h].request.claim;
    var o := ReserveTx(s.rows.table, c, now);
    ReserveFacts(s.rows.table, c, now);
    InsertRowKeeps(s.rows, h, c, now);
    assert s.rows.nextInc !in s.rows.origin by {
      FreshInc(s.rows);
    }
    hide ReserveTx;
    InsertRowLog(s.rows, s.log, h, c, o.table, o.created);
  }

  lemma CreatedKeeps(s: Machine, h: nat, now: int)
    requires Inv(s) && Inside(s, h) && s.handlers[h].pc.Reserving?
    requires var o := ReserveTx(s.rows.table, s.handlers[h].request.claim, now); o.Written? && o.created
    ensures Inv(CommitClaim(s, h, now, NoFault))
  {
    hide Inv, RequestLocks.Inv, RequestLocks.Holds, MoveOk, ReserveTx, SawRecord, RowsInv, LogInv, GrowsFor;
    HandlerFacts(s, h);
    RowAndLogFacts(s);
    var x := s.handlers[h];
    var t := ReserveTx(s.rows.table, x.request.claim, now).table;
    var w := InsertRow(s.rows, h, x.request.claim, t, true);
    ClaimParts(s, h, now);
    FreshLine(s.rows, s.log, h, x, t);
    hide InsertRow, HandlerOk;
    ChangingStepKeeps(s, h, x.(pc := Authorizing, claimed := Some(s.rows.nextInc)), s.blocked, None, w, s.log);
  }

  lemma FoundKeeps(s: Machine, h: nat, now: int)
    requires Inv(s) && Inside(s, h) && s.handlers[h].pc.Reserving?
    requires var o := ReserveTx(s.rows.table, s.handlers[h].request.claim, now); o.Written? && !o.created
    ensures Inv(CommitClaim(s, h, now, NoFault))
  {
    hide Inv, RequestLocks.Inv, RequestLocks.Holds, MoveOk, ReserveTx, SawRecord, RowsInv, LogInv, GrowsFor, InsertRow;
    HandlerFacts(s, h);
    var x := s.handlers[h];
    var t := ReserveTx(s.rows.table, x.request.claim, now).table;
    var w := InsertRow(s.rows, h, x.request.claim, t, false);
    ClaimParts(s, h, now);
    RetiredLine(s.rows, s.log, w, s.log, h, x, x.pc);
    hide HandlerOk;
    var s' := Moved(s, h, x, s.blocked, None, s.locks, w, s.log);
    assert Inv(s') by {
      ChangingStepKeeps(s, h, x, s.blocked, None, w, s.log);
    }
    assert s' == s.(rows := w, writer := None);
    hide Moved;
    SawRecordKeeps(s', h);
  }

  lemma CommitClaimKeeps(s: Machine, h: nat, now: int, fault: TxFault)
    requires Inv(s)
    ensures Inv(CommitClaim(s, h, now, fault))
  {
    hide Inv, RequestLocks.Inv, RequestLocks.Holds, MoveOk, ReserveTx, SawRecord;
    if Inside(s, h) && s.handlers[h].pc.Reserving? {
      var c := s.handlers[h].request.claim;
      var o := ReserveTx(s.rows.table, c, now);
      if fault == BeforeCommit || (o.Written? && fault == CommitLost) {
        BlockKeeps(s, h);
      } else if o.Conflict? {
        HandlerFacts(s, h);
        PlainStepKeeps(s, h, s.handlers[h].(pc := Leaving(ConflictReply(IdOf(s.handlers[h])))), s.blocked, None, s.locks);
      } else if fault == CommitApplied {
        hide RowsInv, LogInv, GrowsFor;
        ClaimParts(s, h, now);
        CommitThenBlock(s, h, InsertRow(s.rows, h, c, o.table, o.created));
      } else {
        if o.created { CreatedKeeps(s, h, now); } else { FoundKeeps(s, h, now); }
      }
    }
  }

  // ------------------------------------------------------------ status transitions

  lemma RunningSends(x: Handler, r: Record, now: int)
    requires x.pc.Moving? && MoveOk(x) && x.pc.from == r.status && Audited(r) && r.claim.key == KeyOf(x)
    requires x.request.executionUsername != "" && x.request.executionBoundary != ""
    ensures var r' := Merge(r, x.pc.to, x.pc.data, now);
            && Audited(r') && r'.claim == r.claim && r'.status == x.pc.to
            && Unresolved(r.status) && x.pc.to != AuthorizationPending
            && (Reached(r'.status) <==> Reached(r.status) || x.pc.to == Running)
            && (x.pc.to == Running ==> r.status == Accepted)
            && (!Unresolved(r'.status) ==> x.pc.reply == RecordResponse(r'))
  {
  }

  /** A compare-and-swap by a handler keeps the rows well formed. */
  lemma SwapKeeps(w: Rows, k: Key, r': Record, running: bool)
    requires RowsInv(w) && k in w.table && k in w.incs && Unresolved(w.table[k].status)
    requires Audited(r') && r'.claim == w.table[k].claim
    requires Reached(r'.status) <==> Reached(w.table[k].status) || running
    ensures w.incs[k] !in w.seen
    ensures RowsInv(w.(table := w.table[k := r'], ran := if running then w.ran + {w.incs[k]} else w.ran))
  {
    var w' := w.(table := w.table[k := r'], ran := if running then w.ran + {w.incs[k]} else w.ran);
    assert RowOk(w, k) && IncOk(w, k);
    hide Audited, Reached;
    forall j <- w'.table ensures RowOk(w', j) {
      assert RowOk(w, j) && IncOk(w, j);
    }
    forall j <- w'.incs ensures IncOk(w', j) {
      assert IncOk(w, j);
    }
  }

  lemma WriteStatusRows(w: Rows, x: Handler, now: int)
    requires RowsInv(w) && x.pc.Moving? && MoveOk(x)
    requires x.request.executionUsername != "" && x.request.executionBoundary != ""
    requires Matches(w.table, KeyOf(x), x.pc.from) && KeyOf(x) in w.incs
    ensures var k := KeyOf(x);
            var w' := WriteStatus(w, k, x.pc.to, x.pc.data, now);
            && RowsInv(w') && w.incs[k] !in w.seen
            && k in w'.table && w'.incs == w.incs && w'.table[k].status == x.pc.to != AuthorizationPending
            && (forall j <- w'.table :: j != k ==> j in w.table && w'.table[j] == w.table[j])
            && (x.pc.to == Running ==> w.incs[k] !in w.ran && w.incs[k] in w'.ran)
            && (!Unresolved(x.pc.to) ==> w.incs[k] in w'.seen && w'.seen[w.incs[k]] == w'.table[k]
                                         && x.pc.reply == RecordResponse(w'.table[k]))
  {
    var k := KeyOf(x);
    var r' := Merge(w.table[k], x.pc.to, x.pc.data, now);
    var w' := w.(table := w.table[k := r'], ran := if x.pc.to == Running then w.ran + {w.incs[k]} else w.ran);
    assert RowOk(w, k) && IncOk(w, k);
    RunningSends(x, w.table[k], now);
    hide MoveOk, Audited, RecordResponse, Merge;
    SwapKeeps(w, k, r', x.pc.to == Running);
    hide RowsInv, RowOk, IncOk;
    NoteRows(w', k);
  }

  lemma WriteStatusLog(w: Rows, g: Log, h: nat, k: Key, to: Status, d: TransitionData, now: int)
    requires LogInv(w, g) && k in w.table && k in w.incs && w.incs[k] !in w.seen
    ensures var w' := WriteStatus(w, k, to, d, now); LogInv(w', g) && GrowsFor(w, g, w', g, h)
  {
    hide LogInv, GrowsFor, Merge;
    LogGrows(w, g, WriteStatus(w, k, to, d, now), h);
  }

  lemma ConflictKeeps(s: Machine, h: nat, blocked: bool)
    requires Inv(s) && Inside(s, h) && s.handlers[h].pc.Moving? && (s.blocked ==> blocked)
    requires !Matches(s.rows.table, KeyOf(s.handlers[h]), s.handlers[h].pc.from)
    ensures Inv(Goto(s, h, Repairing).(writer := None, blocked := blocked))
  {
    hide Inv, RequestLocks.Inv, RequestLocks.Holds, MoveOk;
    HandlerFacts(s, h);
    RowAndLogFacts(s);
    hide RowsInv, LogInv;
    ChangingStepKeeps(s, h, s.handlers[h].(pc := Repairing), blocked, None, s.rows, s.log);
  }

  /** Where a handler's own line and the log stand after a reported success. */
  ghost predicate Continues(s: Machine, h: nat, w: Rows, s': Machine)
    requires h in s.handlers && h in s'.handlers
  {
    && LogInv(w, s'.log) && GrowsFor(s.rows, s.log, w, s'.log, h)
    && HandlerOk(w, s'.log, h, s'.handlers[h])
  }

  lemma HandlerLine(s: Machine, h: nat)
    requires h in s.handlers && HandlerOk(s.rows, s.log, h, s.handlers[h]) && s.handlers[h].pc.Moving?
    ensures MoveOk(s.handlers[h]) && s.handlers[h].request.executionUsername != "" && s.handlers[h].request.executionBoundary != ""
  {
  }

  lemma ContinueAccepted(s: Machine, h: nat, w: Rows)
    requires h in s.handlers && HandlerOk(s.rows, s.log, h, s.handlers[h]) && s.handlers[h].pc.Moving?
    requires LogInv(w, s.log) && GrowsFor(s.rows, s.log, w, s.log, h) && s.handlers[h].pc.to == Accepted
    ensures forall i, r :: Continues(s, h, w, Continue(s.(rows := w, writer := None), h, i, r))
  {
    hide LogInv;
  }

  lemma ContinueRunning(s: Machine, h: nat, w: Rows, i: nat, r: Record)
    requires h in s.handlers && HandlerOk(s.rows, s.log, h, s.handlers[h]) && s.handlers[h].pc.Moving?
    requires LogInv(s.rows, s.log) && LogInv(w, s.log) && GrowsFor(s.rows, s.log, w, s.log, h)
    requires s.handlers[h].pc.to == Running && i !in s.rows.ran && i in w.ran
    ensures Continues(s, h, w, Continue(s.(rows := w, writer := None), h, i, r))
  {
    hide RecordResponse;
    assert i !in s.log.confirmed;
    var g' := s.log.(confirmed := s.log.confirmed[i := h]);
    assert LogInv(w, g');
    assert GrowsFor(s.rows, s.log, w, g', h);
    assert HandlerOk(w, g', h, s.handlers[h].(pc := Executing(i)));
  }

  lemma ContinueFinal(s: Machine, h: nat, w: Rows, i: nat, r: Record)
    requires h in s.handlers && HandlerOk(s.rows, s.log, h, s.handlers[h]) && s.handlers[h].pc.Moving?
    requires LogInv(w, s.log) && GrowsFor(s.rows, s.log, w, s.log, h)
    requires !Unresolved(s.handlers[h].pc.to)
    requires i in w.seen && w.seen[i] == r && s.handlers[h].pc.reply == RecordResponse(r)
    ensures Continues(s, h, w, Continue(s.(rows := w, writer := None), h, i, r))
  {
    hide RecordResponse, MoveOk;
    AnswerKeeps(w, s.log, Answer(h, i, r, s.handlers[h].pc.reply));
    hide LogInv;
  }

  lemma ContinueShape(s: Machine, h: nat, w: Rows, i: nat, r: Record)
    requires h in s.handlers && s.handlers[h].pc.Moving? && s.handlers[h].pc.to != AuthorizationPending
    requires LockOk(s.locks, s.writer, h, s.handlers[h])
    ensures var s' := Continue(s.(rows := w, writer := None), h, i, r);
            && h in s'.handlers && s' == Moved(s, h, s'.handlers[h], s.blocked, None, s.locks, w, s'.log)
            && s'.handlers[h].request == s.handlers[h].request
            && LockOk(s.locks, None, h, s'.handlers[h]) && !ReconcilingPc(s'.handlers[h].pc)
            && (Unresolved(s.handlers[h].pc.to) ==> Expects(s'.handlers[h].pc) == Some(s.handlers[h].pc.to))
  {
    hide RunningData, RequestLocks.Holds;
  }

  /** After a reported success: on to the next transition, to the executor, or
      to the answer, which is exactly what the stored record would answer. */
  lemma ContinueKeeps(s: Machine, h: nat, now: int)
    requires Inv(s) && Inside(s, h) && s.handlers[h].pc.Moving?
    requires Matches(s.rows.table, KeyOf(s.handlers[h]), s.handlers[h].pc.from) && KeyOf(s.handlers[h]) in s.rows.incs
    ensures Inv(CommitMove(s, h, now, NoFault, ReadOk))
  {
    hide Inv, RequestLocks.Inv, RequestLocks.Holds, HandlerOk, RowsInv, LogInv, GrowsFor, RecordResponse, MoveOk;
    var x := s.handlers[h];
    var w := WriteStatus(s.rows, KeyOf(x), x.pc.to, x.pc.data, now);
    var i := w.incs[KeyOf(x)];
    HandlerFacts(s, h);
    RowAndLogFacts(s);
    HandlerLine(s, h);
    WriteStatusRows(s.rows, x, now);
    WriteStatusLog(s.rows, s.log, h, KeyOf(x), x.pc.to, x.pc.data, now);
    hide WriteStatus;
    var r := w.table[KeyOf(x)];
    match x.pc.to {
      case Accepted => ContinueAccepted(s, h, w);
      case Running => ContinueRunning(s, h, w, i, r);
      case _ => ContinueFinal(s, h, w, i, r);
    }
    ContinueShape(s, h, w, i, r);
    var s' := Continue(s.(rows := w, writer := None), h, i, r);
    assert Continues(s, h, w, s');
    hide Continue, LockOk;
    ChangingStepKeeps(s, h, s'.handlers[h], s.blocked, None, w, s'.log);
  }

  lemma CommitMoveKeeps(s: Machine, h: nat, now: int, fault: TxFault, read: ReadFault)
    requires Inv(s)
    ensures Inv(CommitMove(s, h, now, fault, read))
  {
    hide Inv, RequestLocks.Inv, RequestLocks.Holds, MoveOk, WriteStatus;
    if Inside(s, h) && s.handlers[h].pc.Moving? {
      var x := s.handlers[h];
      if fault == BeforeCommit {
        BlockKeeps(s, h);
      } else if !Matches(s.rows.table, KeyOf(x), x.pc.from) {
        ConflictKeeps(s, h, s.blocked || read != ReadOk);
      } else {
        RowAndLogFacts(s);
        assert RowOk(s.rows, KeyOf(x));
        hide RowsInv, LogInv;
        if fault == CommitLost {
          BlockKeeps(s, h);
        } else if fault == CommitApplied {
          HandlerFacts(s, h);
          WriteStatusRows(s.rows, x, now);
          WriteStatusLog(s.rows, s.log, h, KeyOf(x), x.pc.to, x.pc.data, now);
          hide GrowsFor;
          CommitThenBlock(s, h, WriteStatus(s.rows, KeyOf(x), x.pc.to, x.pc.data, now));
        } else {
          ContinueKeeps(s, h, now);
          hide Continue;
        }
      }
    }
  }

  // ---------------------------------------------------------------- reconciliation

  lemma RecoverAudited(r: Record, now: int)
    requires Audited(r)
    ensures var r' := RecoverRecord(r, now);
            Audited(r') && r'.claim == r.claim && !Unresolved(r'.status) && (Reached(r'.status) <==> Reached(r.status))
    ensures !Unresolved(r.status) ==> RecoverRecord(r, now) == r
  {
  }

  lemma RecoveredRows(w: Rows, g: Log, now: int, h: nat)
    requires RowsInv(w) && LogInv(w, g)
    ensures var w' := w.(table := Recover(w.table, now));
            RowsInv(w') && LogInv(w', g) && GrowsFor(w, g, w', g, h) && NoneUnresolved(w'.table)
  {
    var w' := w.(table := Recover(w.table, now));
    LogGrows(w, g, w', h);
    hide LogInv, GrowsFor, Audited, RecoverRecord, Reached;
    forall k <- w'.table ensures RowOk(w', k) && !Unresolved(w'.table[k].status) {
      assert RowOk(w, k) && IncOk(w, k);
      RecoverAudited(w.table[k], now);
    }
    forall k <- w'.incs ensures IncOk(w', k) {
      assert IncOk(w, k);
    }
  }

  lemma RecoverRowsKeeps(s: Machine, h: nat, ok: bool, now: int, fault: TxFault)
    requires Inv(s)
    ensures Inv(RecoverRows(s, h, ok, now, fault))
  {
    hide Inv, RequestLocks.Inv, RequestLocks.Holds, Recover;
    if Inside(s, h) && s.handlers[h].pc.Recovering? {
      HandlerFacts(s, h);
      var s' := RecoverRows(s, h, ok, now, fault);
      if s'.rows == s.rows {
        PlainStepKeeps(s, h, s'.handlers[h], true, s'.writer, s.locks);
      } else {
        RowAndLogFacts(s);
        RecoveredRows(s.rows, s.log, now, h);
        hide RowsInv, LogInv, GrowsFor;
        assert NoneUnresolved(s'.rows.table);
        hide NoneUnresolved;
        ReconcileMove(s, h, s'.handlers[h], true, s'.writer, s'.rows);
      }
    }
  }

  lemma SoleReconciler(s: Machine, h: nat)
    requires LocksInv(s) && Inside(s, h)
    ensures forall o <- s.handlers :: ReconcilingPc(s.handlers[o].pc) ==> o == h
  {
    forall o <- s.handlers ensures ReconcilingPc(s.handlers[o].pc) ==> o == h {
      assert LockOk(s.locks, s.writer, o, s.handlers[o]);
    }
  }

  lemma ReconcileParts(s: Machine, h: nat, x: Handler, blocked: bool, writer: Option<nat>, w: Rows)
    requires LocksInv(s) && OwnInv(s) && Inside(s, h) && x == s.handlers[h].(pc := x.pc)
    requires ReconcilingPc(s.handlers[h].pc) && (x.pc.Verifying? || x.pc.Leaving?)
    requires writer == (if x.pc.Verifying? then Some(h) else None)
    requires x.pc.Verifying? ==> blocked
    requires NoneUnresolved(w.table)
    ensures var s' := Moved(s, h, x, blocked, writer, s.locks, w, s.log); LocksInv(s') && OwnInv(s')
  {
    hide RequestLocks.Inv, Owned;
    SoleReconciler(s, h);
    MoveLocks(s, h, x, blocked, writer, s.locks, w, s.log);
    hide LocksInv, LockOk;
  }

  /** The writer may replace the whole table by one with nothing unresolved. */
  lemma ReconcileMove(s: Machine, h: nat, x: Handler, blocked: bool, writer: Option<nat>, w: Rows)
    requires Inv(s) && Inside(s, h) && x == s.handlers[h].(pc := x.pc)
    requires ReconcilingPc(s.handlers[h].pc) && (x.pc.Verifying? || x.pc.Leaving?)
    requires writer == (if x.pc.Verifying? then Some(h) else None)
    requires x.pc.Verifying? ==> blocked
    requires RowsInv(w) && LogInv(w, s.log) && GrowsFor(s.rows, s.log, w, s.log, h) && NoneUnresolved(w.table)
    ensures Inv(Moved(s, h, x, blocked, writer, s.locks, w, s.log))
  {
    hide RequestLocks.Inv, RowsInv, LogInv, GrowsFor, LocksInv, LockOk, OwnInv;
    var s' := Moved(s, h, x, blocked, writer, s.locks, w, s.log);
    ReconcileParts(s, h, x, blocked, writer, w);
    RetiredLine(s.rows, s.log, w, s.log, h, s.handlers[h], x.pc);
    hide HandlerOk;
    forall o <- s'.handlers ensures HandlerOk(w, s.log, o, s'.handlers[o]) {
      if o != h {
        OthersKept(s.rows, s.log, w, s.log, h, o, s.handlers[o]);
      }
    }
  }

  lemma OpenGateKeeps(s: Machine, h: nat)
    requires Inv(s)
    ensures Inv(OpenGate(s, h))
  {
    hide Inv, RequestLocks.Inv, RequestLocks.Holds;
    if Inside(s, h) && s.handlers[h].pc.Opening? {
      HandlerFacts(s, h);
      RowAndLogFacts(s);
      hide RowsInv, LogInv, NoneUnresolved;
      ReconcileMove(s, h, OpenGate(s, h).handlers[h], false, None, s.rows);
    }
  }

  // --------------------------------------------------------------- crash, restart

  lemma NoLocksValid()
    ensures RequestLocks.Inv(RequestLocks.NO_LOCKS)
  {
  }

  lemma CrashKeeps(s: Machine)
    requires Inv(s)
    ensures Inv(Crash(s))
  {
    NoLocksValid();
    hide RequestLocks.Inv, RowsInv, LogInv;
  }

  lemma DownKeeps(s: Machine, up: bool, w: Rows)
    requires Inv(s) && !s.up
    requires RowsInv(w) && LogInv(w, s.log) && (up ==> NoneUnresolved(w.table))
    ensures Inv(s.(rows := w, up := up))
  {
    hide RequestLocks.Inv, RowsInv, LogInv;
  }

  lemma ReopenKeeps(s: Machine, ok: bool, now: int, fault: TxFault, purge: TxFault)
    requires Inv(s)
    ensures Inv(Reopen(s, ok, now, fault, purge))
  {
    hide Inv, RequestLocks.Inv, Recover;
    if !s.up {
      RowAndLogFacts(s);
      var w := s.rows.(table := Recover(s.rows.table, now));
      RecoveredRows(s.rows, s.log, now, 0);
      var w' := w.(table := Purge(w.table, now));
      SubTableRows(w, w'.table);
      LogGrows(w, s.log, w', 0);
      hide RowsInv, LogInv, GrowsFor;
      DownKeeps(s, false, w);
      DownKeeps(s, false, w');
      DownKeeps(s, true, w');
    }
  }

  // -------------------------------------------------------------------- every step

  lemma BootHolds()
    ensures Inv(BOOT)
  {
    NoLocksValid();
  }

  lemma StepKeeps(s: Machine, a: Step)
    requires Inv(s)
    ensures Inv(Next(s, a))
  {
    hide Inv, Arrive, CheckAdmission, LockRef, LockAcquire, LookUp, Validate, Await, Poll, EnterWriter, CommitClaim,
         Authorize, CommitMove, CallExecutor, ExecutorReturns, CheckGate, RecoverRows, VerifyRows, OpenGate,
         LockRelease, LockUnref, Crash, Reopen;
    match a
    case DoArrive(service, request) => ArriveKeeps(s, service, request);
    case DoCheckAdmission(h) => CheckAdmissionKeeps(s, h);
    case DoLockRef(h) => LockRefKeeps(s, h);
    case DoLockAcquire(h) => LockAcquireKeeps(s, h);
    case DoLookUp(h, now, fault) => LookUpKeeps(s, h, now, fault);
    case DoValidate(h, rejection) => ValidateKeeps(s, h, rejection);
    case DoAwait(h) => AwaitKeeps(s, h);
    case DoPoll(h, cancelled, now, fault) => PollKeeps(s, h, cancelled, now, fault);
    case DoEnterWriter(h) => EnterWriterKeeps(s, h);
    case DoCommitClaim(h, now, fault) => CommitClaimKeeps(s, h, now, fault);
    case DoAuthorize(h, d) => AuthorizeKeeps(s, h, d);
    case DoCommitMove(h, now, fault, read) => CommitMoveKeeps(s, h, now, fault, read);
    case DoCallExecutor(h) => CallExecutorKeeps(s, h);
    case DoExecutorReturns(h, o) => ExecutorReturnsKeeps(s, h, o);
    case DoCheckGate(h) => CheckGateKeeps(s, h);
    case DoRecoverRows(h, ok, now, fault) => RecoverRowsKeeps(s, h, ok, now, fault);
    case DoVerifyRows(h, ok) => VerifyRowsKeeps(s, h, ok);
    case DoOpenGate(h) => OpenGateKeeps(s, h);
    case DoLockRelease(h) => LockReleaseKeeps(s, h);
    case DoLockUnref(h) => LockUnrefKeeps(s, h);
    case DoCrash => CrashKeeps(s);
    case DoReopen(ok, now, fault, purge) => ReopenKeeps(s, ok, now, fault, purge);
  }

  lemma {:induction false} RunKeeps(s: Machine, steps: seq<Step>)
    requires Inv(s)
    ensures Inv(Run(s, steps))
    decreases |steps|
  {
    hide Inv, Next;
    if steps != [] {
      StepKeeps(s, steps[0]);
      RunKeeps(Next(s, steps[0]), steps[1..]);
    }
  }
}
