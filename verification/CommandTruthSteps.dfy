/** Every step keeps every record and every reply true. */
module CommandTruthSteps {
  import opened Wrappers
  import opened Ledger
  import opened CommandService
  import opened CommandInvariants
  import opened CommandSteps
  import opened CommandTheorems
  import opened CommandOwnClaims
  import opened CommandPermission
  import opened CommandMeanings
  import opened CommandTruth

  // --------------------------------------------------------------- how history grows

  predicate SameHistory(s: Machine, s': Machine) {
    && s'.rows.origin == s.rows.origin && s'.log.arrived == s.log.arrived
    && s'.log.consulted == s.log.consulted && s'.log.returned == s.log.returned && s'.log.authorizations == s.log.authorizations
    && s'.nextHandler == s.nextHandler
  }

  lemma GateHistory(s: Machine, a: Step)
    requires a.DoCheckAdmission? || a.DoLockRef? || a.DoLockAcquire? || a.DoValidate? || a.DoEnterWriter? || a.DoCheckGate?
    ensures SameHistory(s, Next(s, a))
  {
    hide RequestLocks.Ref, RequestLocks.Acquire, RequestLocks.Holds, LockKeyOf, ValidClaim, Admissible, AfterValidation;
  }

  lemma ReadHistory(s: Machine, a: Step)
    requires a.DoLookUp? || a.DoPoll? || a.DoAwait? || a.DoCallExecutor?
    ensures SameHistory(s, Next(s, a))
  {
    hide Find, RecordResponse;
  }

  lemma EndHistory(s: Machine, a: Step)
    requires a.DoLockRelease? || a.DoLockUnref? || a.DoCrash? || a.DoReopen?
    ensures SameHistory(s, Next(s, a))
  {
    hide RequestLocks.Release, RequestLocks.Unref, Recover, Purge;
  }

  lemma MoveHistory(s: Machine, h: nat, now: int, fault: TxFault, read: ReadFault)
    ensures SameHistory(s, CommitMove(s, h, now, fault, read))
  {
    hide Merge, RunningData, Matches;
  }

  lemma ClaimHistory(s: Machine, h: nat, now: int, fault: TxFault)
    ensures var s' := CommitClaim(s, h, now, fault);
            && SameHistory(s, s'.(rows := s'.rows.(origin := s.rows.origin)))
            && (s'.rows.origin == s.rows.origin
                || (h in s.handlers
                    && s'.rows.origin == s.rows.origin[s.rows.nextInc := Origin(h, s.handlers[h].request.claim)]))
  {
    hide ReserveTx, ConflictReply, SawRecord;
    if h in s.handlers {
      var c := s.handlers[h].request.claim;
      var o := ReserveTx(s.rows.table, c, now);
      if o.Written? {
        SawHistory(s.(rows := InsertRow(s.rows, h, c, o.table, o.created), writer := None), h, o.record);
      }
    }
  }

  lemma SawHistory(s: Machine, h: nat, r: Record)
    requires h in s.handlers
    ensures SameHistory(s, SawRecord(s, h, r))
  {
  }

  lemma CallHistory(s: Machine, a: Step)
    requires a.DoArrive? || a.DoAuthorize? || a.DoExecutorReturns?
    requires forall h <- s.log.arrived :: h < s.nextHandler
    ensures var s' := Next(s, a);
            && s'.rows == s.rows && s.nextHandler <= s'.nextHandler
            && (forall h <- s.log.arrived :: h in s'.log.arrived && s'.log.arrived[h] == s.log.arrived[h])
            && (forall h <- s'.log.arrived :: h < s'.nextHandler)
            && s.log.consulted <= s'.log.consulted && s.log.returned <= s'.log.returned
  {
    hide Decide, Conclude;
  }

  lemma NewIncarnation(w: Rows)
    requires RowsInv(w)
    ensures w.nextInc !in w.origin
  {
  }

  lemma StepGrows(s: Machine, a: Step)
    requires Inv(s) && forall h <- s.log.arrived :: h < s.nextHandler
    ensures var s' := Next(s, a);
            Grows(s.rows, s.log, s'.rows, s'.log) && forall h <- s'.log.arrived :: h < s'.nextHandler
  {
    hide Next, Inv, RowsInv, LogInv, RowsStep;
    StepRows(s, a);
    RowAndLogFacts(s);
    if a.DoArrive? || a.DoAuthorize? || a.DoExecutorReturns? {
      CallHistory(s, a);
    } else if a.DoCommitClaim? {
      ClaimHistory(s, a.h, a.now, a.fault);
      NewIncarnation(s.rows);
      assert Next(s, a) == CommitClaim(s, a.h, a.now, a.fault) by {
        hide CommitClaim;
        ClaimStep(s, a);
      }
    } else if a.DoCommitMove? {
      MoveHistory(s, a.h, a.now, a.fault, a.readFault);
      MoveStep(s, a);
    } else if a.DoLookUp? || a.DoPoll? || a.DoAwait? || a.DoCallExecutor? {
      ReadHistory(s, a);
    } else if a.DoCheckAdmission? || a.DoLockRef? || a.DoLockAcquire? || a.DoValidate? || a.DoEnterWriter? || a.DoCheckGate? {
      GateHistory(s, a);
    } else if a.DoRecoverRows? || a.DoVerifyRows? || a.DoOpenGate? {
      ReconcileCalm(s, a);
    } else {
      EndHistory(s, a);
    }
  }

  lemma ClaimStep(s: Machine, a: Step)
    requires a.DoCommitClaim?
    ensures Next(s, a) == CommitClaim(s, a.h, a.now, a.fault)
  {
  }

  lemma MoveStep(s: Machine, a: Step)
    requires a.DoCommitMove?
    ensures Next(s, a) == CommitMove(s, a.h, a.now, a.fault, a.readFault)
  {
  }

  // ------------------------------------------------------------- putting it together

  /** Only `h` moves. */
  predicate OnlyMoves(s: Machine, s': Machine, h: nat) {
    forall o <- s'.handlers :: o != h ==> o in s.handlers && s'.handlers[o] == s.handlers[o]
  }

  /** No row changes and none is added. */
  predicate NoNewRows(w: Rows, w': Rows) {
    forall k <- w'.table :: k in w.table && k in w.incs && k in w'.incs && w'.incs[k] == w.incs[k] && w'.table[k] == w.table[k]
  }

  lemma RowsStayTrue(s: Machine, s': Machine)
    requires TruthInv(s) && Grows(s.rows, s.log, s'.rows, s'.log) && NoNewRows(s.rows, s'.rows)
    ensures forall k <- s'.rows.table :: RowTrue(s'.rows, s'.log, k)
  {
    hide RecordTrue, HandlerTrue, ConsultInv, Grows;
    forall k <- s'.rows.table ensures RowTrue(s'.rows, s'.log, k) {
      assert RowTrue(s.rows, s.log, k);
      RecordKept(s.rows, s.log, s'.rows, s'.log, s'.rows.incs[k], s'.rows.table[k]);
    }
  }

  lemma Assemble(s: Machine, s': Machine, h: nat)
    requires TruthInv(s) && Grows(s.rows, s.log, s'.rows, s'.log) && OnlyMoves(s, s', h)
    requires forall k <- s'.rows.table :: RowTrue(s'.rows, s'.log, k)
    requires h in s'.handlers ==> HandlerTrue(s'.rows, s'.log, h, s'.handlers[h])
    requires ConsultInv(s'.log) && forall o <- s'.log.arrived :: o < s'.nextHandler
    ensures TruthInv(s')
  {
    hide RowTrue, HandlerTrue, ConsultInv, Grows;
    forall o <- s'.handlers ensures HandlerTrue(s'.rows, s'.log, o, s'.handlers[o]) {
      if o != h {
        HandlerKept(s.rows, s.log, s'.rows, s'.log, o, s.handlers[o]);
      }
    }
  }

  // ------------------------------------------------------------------- plain movements

  /** A handler goes where nothing is claimed to be true, or says one of the
      things that are always true, or says again what it said. */
  predicate Calm(x: Handler, y: Handler) {
    && y.request == x.request && y.claimed == x.claimed
    && (y.pc == x.pc || (Replying(x.pc) && Replying(y.pc) && y.pc.reply == x.pc.reply) || Idle(y))
  }

  predicate Idle(y: Handler) {
    && !y.pc.Moving? && !y.pc.Awaiting?
    && (Replying(y.pc) ==> y.pc.reply.ErrorReply? && Plain(y, y.pc.reply.error))
  }

  predicate CalmStep(s: Machine, s': Machine) {
    && SameHistory(s, s')
    && forall h <- s'.handlers :: h in s.handlers && Calm(s.handlers[h], s'.handlers[h])
  }

  lemma SameReply(w: Rows, g: Log, x: Handler, y: Handler, reply: Reply)
    requires ReplyTrue(w, g, x, reply) && y.request == x.request
    ensures ReplyTrue(w, g, y, reply)
  {
    hide ErrorTrue, Known, ResponseTrue;
    assert forall i: nat :: (Mine(w, x, i) ==> Mine(w, y, i)) && (NotMine(w, x, i) ==> NotMine(w, y, i));
    hide Mine, NotMine;
  }

  lemma CalmTrue(w: Rows, g: Log, h: nat, x: Handler, y: Handler)
    requires HandlerTrue(w, g, h, x) && Calm(x, y)
    ensures HandlerTrue(w, g, h, y)
  {
    hide RecordTrue, Ruling, ReturnedWith, Settled;
    if Replying(y.pc) && Replying(x.pc) && y.pc.reply == x.pc.reply {
      SameReply(w, g, x, y, y.pc.reply);
      hide ReplyTrue;
    }
  }

  lemma CalmKeeps(s: Machine, s': Machine)
    requires TruthInv(s) && Grows(s.rows, s.log, s'.rows, s'.log) && CalmStep(s, s')
    requires forall k <- s'.rows.table :: RowTrue(s'.rows, s'.log, k)
    ensures TruthInv(s')
  {
    hide RowTrue, HandlerTrue, Grows, Calm;
    forall h <- s'.handlers ensures HandlerTrue(s'.rows, s'.log, h, s'.handlers[h]) {
      HandlerKept(s.rows, s.log, s'.rows, s'.log, h, s.handlers[h]);
      CalmTrue(s'.rows, s'.log, h, s.handlers[h], s'.handlers[h]);
    }
  }

  lemma LockCalm(s: Machine, a: Step)
    requires a.DoCheckAdmission? || a.DoLockRef? || a.DoLockAcquire?
    ensures CalmStep(s, Next(s, a)) && Next(s, a).rows == s.rows
  {
    hide SameHistory, RequestLocks.Ref, RequestLocks.Acquire, RequestLocks.Holds, LockKeyOf, Plain;
    GateHistory(s, a);
  }

  lemma EnterWriterCalm(s: Machine, h: nat)
    ensures CalmStep(s, EnterWriter(s, h)) && EnterWriter(s, h).rows == s.rows
  {
    hide SameHistory, ValidClaim, Admissible;
    assert EnterWriter(s, h) == Next(s, DoEnterWriter(h));
    GateHistory(s, DoEnterWriter(h));
    hide Next;
  }

  lemma CheckCalm(s: Machine, a: Step)
    requires a.DoCheckGate? || a.DoValidate?
    ensures CalmStep(s, Next(s, a)) && Next(s, a).rows == s.rows
  {
    hide SameHistory;
    GateHistory(s, a);
  }

  lemma LeaveCalm(s: Machine, a: Step)
    requires a.DoLockRelease? || a.DoLockUnref? || a.DoCrash? || a.DoReopen?
    ensures CalmStep(s, Next(s, a))
  {
    hide SameHistory, RequestLocks.Release, RequestLocks.Unref, Recover, Purge, Plain;
    EndHistory(s, a);
  }

  lemma RecoverCalm(s: Machine, h: nat, ok: bool, now: int, fault: TxFault)
    ensures CalmStep(s, RecoverRows(s, h, ok, now, fault))
  {
    hide Recover;
  }

  lemma VerifyCalm(s: Machine, h: nat, ok: bool)
    ensures CalmStep(s, VerifyRows(s, h, ok))
  {
    hide NoneUnresolved;
  }

  lemma OpenCalm(s: Machine, h: nat)
    ensures CalmStep(s, OpenGate(s, h))
  {
  }

  lemma ReconcileCalm(s: Machine, a: Step)
    requires a.DoRecoverRows? || a.DoVerifyRows? || a.DoOpenGate?
    ensures CalmStep(s, Next(s, a))
  {
    hide RecoverRows, VerifyRows, OpenGate, CalmStep;
    if a.DoRecoverRows? {
      RecoverCalm(s, a.h, a.ok, a.now, a.fault);
    } else if a.DoVerifyRows? {
      VerifyCalm(s, a.h, a.ok);
    } else {
      OpenCalm(s, a.h);
    }
  }

  lemma CallExecutorCalm(s: Machine, a: Step)
    requires a.DoCallExecutor?
    ensures CalmStep(s, Next(s, a)) && Next(s, a).rows == s.rows
  {
    ReadHistory(s, a);
    hide SameHistory;
  }

  // ------------------------------------------------------------------------- recovery

  lemma RecoveredTrue(w: Rows, g: Log, i: nat, r: Record, now: int)
    requires RecordTrue(w, g, i, r) && (Unresolved(r.status) ==> r.errorPayload.None?)
    ensures RecordTrue(w, g, i, RecoverRecord(r, now))
  {
    hide RefusalTrue, OutcomeTrue, GrantedAs;
    if r.status == Running {
      var d :| Ruled(w, g, i, d) && GrantedAs(w.origin[i].claim, d, r.adminLevel, r.authorizationMetadata);
      assert GrantTrue(w, g, i, RecoverRecord(r, now));
    }
  }

  lemma UnresolvedBlank(w: Rows, k: Key)
    requires RowsInv(w) && k in w.table
    ensures Unresolved(w.table[k].status) ==> w.table[k].errorPayload.None?
  {
    assert RowOk(w, k);
  }

  /** Recovery, and recovery followed by a purge. */
  lemma RecoveryTrue(s: Machine, s': Machine, now: int)
    requires Inv(s) && TruthInv(s) && Grows(s.rows, s.log, s'.rows, s'.log) && Recovers(s.rows, s'.rows, now)
    ensures forall k <- s'.rows.table :: RowTrue(s'.rows, s'.log, k)
  {
    hide Inv, LogInv, RowsInv, TruthInv, RecordTrue, Grows, RecoverRecord;
    RowAndLogFacts(s);
    forall k <- s'.rows.table ensures RowTrue(s'.rows, s'.log, k) {
      TruthOfRow(s, k);
      var (i, r) := (s.rows.incs[k], s.rows.table[k]);
      UnresolvedBlank(s.rows, k);
      RecoveredTrue(s.rows, s.log, i, r, now);
      RecordKept(s.rows, s.log, s'.rows, s'.log, i, r);
      RecordKept(s.rows, s.log, s'.rows, s'.log, i, RecoverRecord(r, now));
    }
  }

  lemma RecoveredTable(s: Machine, a: Step)
    requires a.DoRecoverRows? || a.DoReopen?
    ensures var s' := Next(s, a);
            Recovers(s.rows, s'.rows, a.now)
  {
    hide RecoverRecord, NoneUnresolved;
    if a.DoReopen? {
      ReopenedTable(s, a.ok, a.now, a.fault, a.purgeFault);
      hide Reopen;
    } else {
      RecoverRowsTable(s, a.h, a.ok, a.now, a.fault);
      hide RecoverRows;
    }
  }

  predicate Recovers(w: Rows, w': Rows, now: int) {
    && w'.incs == w.incs
    && forall k <- w'.table :: k in w.table && (w'.table[k] == w.table[k] || w'.table[k] == RecoverRecord(w.table[k], now))
  }

  lemma ReopenedTable(s: Machine, ok: bool, now: int, recovery: TxFault, purge: TxFault)
    ensures Recovers(s.rows, Reopen(s, ok, now, recovery, purge).rows, now)
  {
    hide RecoverRecord;
  }

  lemma RecoverRowsTable(s: Machine, h: nat, ok: bool, now: int, fault: TxFault)
    ensures Recovers(s.rows, RecoverRows(s, h, ok, now, fault).rows, now)
  {
    hide RecoverRecord;
  }

  // -------------------------------------------------------------------- reading a row

  /** A row that was refused, or lost before it ran, never runs. */
  lemma RowShut(w: Rows, k: Key)
    requires RowsInv(w) && k in w.table && k in w.incs
    ensures Shut(w, w.incs[k], w.table[k].status)
  {
    assert RowOk(w, k) && IncOk(w, k);
    forall j <- w.table | j in w.incs && w.incs[j] == w.incs[k] ensures j == k {
      assert IncOk(w, j);
    }
  }

  /** What a handler makes of the row it finds is true. */
  lemma SawTrue(s: Machine, h: nat)
    requires RowsInv(s.rows) && h in s.handlers && KeyOf(s.handlers[h]) in s.rows.table && RowTrue(s.rows, s.log, KeyOf(s.handlers[h]))
    requires h in s.log.arrived && s.log.arrived[h] == s.handlers[h].request
    ensures var s' := SawRecord(s, h, s.rows.table[KeyOf(s.handlers[h])]);
            && h in s'.handlers && HandlerTrue(s.rows, s.log, h, s'.handlers[h])
            && OnlyMoves(s, s', h) && s'.log == s.log && s'.rows == s.rows.(seen := s'.rows.seen) && s'.nextHandler == s.nextHandler
  {
    hide RowsInv, Shut, RecordTrue, ReplyTrue, ConflictReply, NotMine, Mine;
    var x := s.handlers[h];
    var k := KeyOf(x);
    RowShut(s.rows, k);
    SawMine(s.rows, s.log, x, k);
    var s' := SawRecord(s, h, s.rows.table[k]);
    if s.rows.table[k].claim.requestFingerprint != x.request.claim.requestFingerprint {
      ConflictReplyTrue(s.rows, s.log, s'.handlers[h], s.rows.incs[k]);
    }
  }

  lemma SawMine(w: Rows, g: Log, x: Handler, k: Key)
    requires RowsInv(w) && k in w.table && k == KeyOf(x) && RowTrue(w, g, k)
    ensures forall y: Handler | y.request == x.request ::
              if w.table[k].claim.requestFingerprint != x.request.claim.requestFingerprint then NotMine(w, y, w.incs[k])
              else Mine(w, y, w.incs[k])
  {
    hide RefusalTrue, GrantTrue, OutcomeTrue;
    assert RowOk(w, k);
  }

  lemma ConflictReplyTrue(w: Rows, g: Log, x: Handler, i: nat)
    requires NotMine(w, x, i)
    ensures ReplyTrue(w, g, x, ConflictReply(IdOf(x)))
  {
    hide ErrorTrue, Known, Mine, NotMine, Plain;
  }

  predicate Finds(s: Machine, a: Step)
    requires a.DoLookUp? || a.DoPoll?
  {
    && At(s, a.h) && (s.handlers[a.h].pc.LookingUp? || (s.handlers[a.h].pc.Polling? && !(a.DoPoll? && a.cancelled)))
    && (s.handlers[a.h].pc.LookingUp? <==> a.DoLookUp?)
    && a.readFault == ReadOk && Find(s.rows.table, KeyOf(s.handlers[a.h]), a.now).Some?
  }

  lemma ReadShape(s: Machine, a: Step)
    requires a.DoLookUp? || a.DoPoll?
    ensures if Finds(s, a) then
              var k := KeyOf(s.handlers[a.h]);
              k in s.rows.table && Next(s, a) == SawRecord(s, a.h, s.rows.table[k])
            else CalmStep(s, Next(s, a)) && Next(s, a).rows == s.rows
  {
    hide SawRecord, Find, LookUp, Poll;
    if a.DoLookUp? {
      LookUpShape(s, a.h, a.now, a.readFault);
    } else {
      PollShape(s, a.h, a.cancelled, a.now, a.readFault);
    }
    if Finds(s, a) {
      FindsRow(s.rows.table, KeyOf(s.handlers[a.h]), a.now);
    }
  }

  lemma LookUpShape(s: Machine, h: nat, now: int, fault: ReadFault)
    ensures var s' := LookUp(s, h, now, fault);
            if At(s, h) && s.handlers[h].pc.LookingUp? && fault == ReadOk && Find(s.rows.table, KeyOf(s.handlers[h]), now).Some? then
              s' == SawRecord(s, h, Find(s.rows.table, KeyOf(s.handlers[h]), now).value)
            else CalmStep(s, s') && s'.rows == s.rows
  {
    hide SawRecord, Find, Plain;
  }

  lemma PollShape(s: Machine, h: nat, cancelled: bool, now: int, fault: ReadFault)
    ensures var s' := Poll(s, h, cancelled, now, fault);
            if At(s, h) && s.handlers[h].pc.Polling? && !cancelled && fault == ReadOk
               && Find(s.rows.table, KeyOf(s.handlers[h]), now).Some? then
              s' == SawRecord(s, h, Find(s.rows.table, KeyOf(s.handlers[h]), now).value)
            else CalmStep(s, s') && s'.rows == s.rows
  {
    hide SawRecord, Find;
  }

  lemma FindsRow(t: Table, k: Key, now: int)
    requires Find(t, k, now).Some?
    ensures k in t && Find(t, k, now).value == t[k]
  {
  }

  lemma ReadTrue(s: Machine, a: Step)
    requires Inv(s) && TruthInv(s) && Grows(s.rows, s.log, Next(s, a).rows, Next(s, a).log) && (a.DoLookUp? || a.DoPoll?)
    ensures TruthInv(Next(s, a))
  {
    hide Inv, RowsInv, LogInv, Grows, HandlerTrue, RecordTrue, ConsultInv, Next, Finds, SawRecord, Calm;
    ReadShape(s, a);
    RowAndLogFacts(s);
    var s' := Next(s, a);
    ReadHistory(s, a);
    if Finds(s, a) {
      assert a.h in s.handlers by { FindsHere(s, a); }
      FoundTrue(s, a.h, s');
    } else {
      RowsStayKnown(s, s');
      CalmKeeps(s, s');
    }
  }

  lemma FindsHere(s: Machine, a: Step)
    requires (a.DoLookUp? || a.DoPoll?) && Finds(s, a)
    ensures a.h in s.handlers
  {
  }

  lemma RowsStayKnown(s: Machine, s': Machine)
    requires TruthInv(s) && Grows(s.rows, s.log, s'.rows, s'.log) && s'.rows.table == s.rows.table && s'.rows.incs == s.rows.incs
    ensures forall k <- s'.rows.table :: RowTrue(s'.rows, s'.log, k)
  {
    hide Grows, HandlerTrue, RecordTrue, ConsultInv;
    assert forall k <- s.rows.table :: RowTrue(s.rows, s.log, k);
    RowsStayTrue(s, s');
  }

  lemma FoundTrue(s: Machine, h: nat, s': Machine)
    requires RowsInv(s.rows) && TruthInv(s) && Grows(s.rows, s.log, s'.rows, s'.log) && SameHistory(s, s')
    requires h in s.handlers && KeyOf(s.handlers[h]) in s.rows.table
    requires s' == SawRecord(s, h, s.rows.table[KeyOf(s.handlers[h])])
    ensures TruthInv(s')
  {
    hide RowsInv, Grows, RecordTrue, SawRecord;
    assert RowTrue(s.rows, s.log, KeyOf(s.handlers[h])) && HandlerTrue(s.rows, s.log, h, s.handlers[h]);
    SawTrue(s, h);
    hide HandlerTrue;
    HandlerKept(s.rows, s.log, s'.rows, s'.log, h, s'.handlers[h]);
    RowsStayKnown(s, s');
    hide RowTrue;
    Assemble(s, s', h);
  }

  // ---------------------------------------------------------------- answering a record

  /** The answer a true record is given is true. */
  lemma AnsweredTrue(w: Rows, g: Log, x: Handler, i: nat, r: Record, reply: Reply)
    requires Mine(w, x, i) && RecordTrue(w, g, i, r) && Shut(w, i, r.status) && Replays(r, reply)
    requires r.status != AuthorizationPending && r.status != Accepted
    ensures ReplyTrue(w, g, x, reply)
  {
    hide GrantTrue, Settled, Plain;
    if r.status == Succeeded || r.status == Running {
      assert reply.payload.Some? && ResponseTrue(w, g, i, reply.payload.value);
    } else {
      assert ErrorTrue(w, g, i, reply.error) && reply.error.commandID == IdOf(x);
    }
  }

  lemma AwaitShape(s: Machine, a: Step)
    requires a.DoAwait?
    ensures var s' := Next(s, a);
            && s'.rows == s.rows && OnlyMoves(s, s', a.h)
            && if At(s, a.h) && s.handlers[a.h].pc.Awaiting? && s.handlers[a.h].pc.record.status != AuthorizationPending
                  && s.handlers[a.h].pc.record.status != Accepted then
                 && a.h in s'.handlers
                 && s'.handlers[a.h] == s.handlers[a.h].(pc := Leaving(RecordResponse(s.handlers[a.h].pc.record)))
               else CalmStep(s, s')
  {
    hide RecordResponse;
  }

  lemma AwaitTrue(s: Machine, a: Step)
    requires Inv(s) && TruthInv(s) && Grows(s.rows, s.log, Next(s, a).rows, Next(s, a).log) && a.DoAwait?
    ensures TruthInv(Next(s, a))
  {
    hide Inv, Next, Grows, RecordTrue, RecordResponse, CalmStep, TruthInv, HandlerTrue, ConsultInv, RowTrue;
    var s' := Next(s, a);
    AwaitShape(s, a);
    ReadHistory(s, a);
    RowsStayKnown(s, s');
    if At(s, a.h) && s.handlers[a.h].pc.Awaiting? && s.handlers[a.h].pc.record.status != AuthorizationPending
       && s.handlers[a.h].pc.record.status != Accepted {
      AwaitedTrue(s, a.h);
      HandlerKept(s.rows, s.log, s'.rows, s'.log, a.h, s'.handlers[a.h]);
      OnlyArrived(s, a.h);
      SameConsulted(s.log, s'.log);
      Assemble(s, s', a.h);
    } else {
      CalmKeeps(s, s');
    }
  }

  lemma SameConsulted(g: Log, g': Log)
    requires ConsultInv(g) && g'.consulted == g.consulted && g'.authorizations == g.authorizations
    ensures ConsultInv(g')
  {
  }

  lemma AwaitedTrue(s: Machine, h: nat)
    requires TruthInv(s) && h in s.handlers && s.handlers[h].pc.Awaiting?
    requires s.handlers[h].pc.record.status != AuthorizationPending && s.handlers[h].pc.record.status != Accepted
    ensures HandlerTrue(s.rows, s.log, h, s.handlers[h].(pc := Leaving(RecordResponse(s.handlers[h].pc.record))))
  {
    var x := s.handlers[h];
    var r := x.pc.record;
    assert HandlerTrue(s.rows, s.log, h, x);
    RecordResponseMeans(r, RecordResponse(r));
    hide RecordTrue, RecordResponse, Shut, Mine, Replays;
    AnsweredTrue(s.rows, s.log, x, x.pc.seenAs, r, RecordResponse(r));
    hide TruthInv;
    SameReply(s.rows, s.log, x, x.(pc := Leaving(RecordResponse(r))), RecordResponse(r));
    hide ReplyTrue;
  }

  // ---------------------------------------------------------------------- calling out

  lemma AuthorizeShape(s: Machine, h: nat, d: Decision)
    ensures var s' := Authorize(s, h, d);
            if At(s, h) && s.handlers[h].pc.Authorizing? && s.handlers[h].claimed.Some? then
              var (x, i) := (s.handlers[h], s.handlers[h].claimed.value);
              && OnlyMoves(s, s', h) && h in s'.handlers && s'.handlers[h] == x.(pc := Decide(x, d))
              && s'.rows == s.rows && s'.log.arrived == s.log.arrived && s'.nextHandler == s.nextHandler
              && s'.log.consulted == s.log.consulted + {Consultation(h, i, x.request.claim, d)}
              && s'.log.authorizations == s.log.authorizations + [Call(h, i, x.request.claim)]
            else s' == s
  {
    hide Decide;
  }

  lemma OneMoreConsulted(g: Log, g': Log, c: Consultation)
    requires ConsultInv(g) && forall a <- g.authorizations :: a.incarnation != c.incarnation
    requires g'.consulted == g.consulted + {c}
    requires g'.authorizations == g.authorizations + [Call(c.handler, c.incarnation, c.claim)]
    ensures ConsultInv(g')
  {
    forall b <- g'.consulted ensures Call(b.handler, b.incarnation, b.claim) in g'.authorizations {
    }
    forall b <- g.consulted ensures b.incarnation != c.incarnation {
      assert Call(b.handler, b.incarnation, b.claim) in g.authorizations;
    }
  }

  lemma RuledMove(g: Log, h: nat, x: Handler, d: Decision)
    requires x.claimed.Some? && Consultation(h, x.claimed.value, x.request.claim, d) in g.consulted
    ensures MoveRuled(g, h, x.(pc := Decide(x, d)))
  {
    DecideMeans(x, d);
    hide Decide, Ruling;
    assert Ruling(x.request.claim, d, x.(pc := Decide(x, d)).pc);
  }

  lemma AuthorizeTrue(s: Machine, h: nat, d: Decision)
    requires Inv(s) && TruthInv(s) && Grows(s.rows, s.log, Authorize(s, h, d).rows, Authorize(s, h, d).log)
    ensures TruthInv(Authorize(s, h, d))
  {
    AuthorizeShape(s, h, d);
    var s' := Authorize(s, h, d);
    hide Authorize, Grows, RecordTrue, Inv, Decide, ReplyTrue, LockOk;
    if At(s, h) && s.handlers[h].pc.Authorizing? && s.handlers[h].claimed.Some? {
      var x := s.handlers[h];
      HandlerFacts(s, h);
      assert HandlerTrue(s.rows, s.log, h, x);
      RowsStayKnown(s, s');
      OneMoreConsulted(s.log, s'.log, Consultation(h, x.claimed.value, x.request.claim, d));
      RuledMove(s'.log, h, x, d);
      DecideMeans(x, d);
      hide HandlerOk, ConsultInv, MoveRuled;
      Assemble(s, s', h);
    }
  }

  lemma ReturnShape(s: Machine, h: nat, o: Outcome)
    ensures var s' := ExecutorReturns(s, h, o);
            if At(s, h) && s.handlers[h].pc.InFlight? then
              var x := s.handlers[h];
              && OnlyMoves(s, s', h) && h in s'.handlers && s'.handlers[h] == x.(pc := Conclude(x, o))
              && s'.rows == s.rows && s'.nextHandler == s.nextHandler
              && s'.log == s.log.(returned := s.log.returned + {Return(x.pc.tag, o)})
            else s' == s
  {
    hide Conclude;
  }

  lemma ReturnTrue(arrivals: iset<Arrival>, s: Machine, h: nat, o: Outcome)
    requires TruthInv(s) && Grows(s.rows, s.log, ExecutorReturns(s, h, o).rows, ExecutorReturns(s, h, o).log)
    requires h in s.handlers ==> OwnLine(arrivals, s, h, s.handlers[h])
    ensures TruthInv(ExecutorReturns(s, h, o))
  {
    ReturnShape(s, h, o);
    var s' := ExecutorReturns(s, h, o);
    hide ExecutorReturns, Grows, RecordTrue, Conclude, ReplyTrue;
    if At(s, h) && s.handlers[h].pc.InFlight? {
      var x := s.handlers[h];
      assert HandlerTrue(s.rows, s.log, h, x);
      RowsStayKnown(s, s');
      ConcludeMeans(x, o);
      assert Return(x.claimed.value, o) in s'.log.returned;
      assert MoveReturned(s'.log, s'.handlers[h]) by {
        hide ReturnedWith;
        assert ReturnedWith(s'.handlers[h].request, o, s'.handlers[h].pc.to, s'.handlers[h].pc.reply);
      }
      hide MoveReturned, ReturnedWith;
      Assemble(s, s', h);
    }
  }

  // ------------------------------------------------------------------------- claiming

  /** A new row is the one its handler came with. */
  lemma InsertedTrue(w: Rows, g: Log, h: nat, c: Claim, t: Table, now: int)
    requires h in g.arrived && g.arrived[h].claim == c && c.key in t && t[c.key] == NewRecord(c, now)
    ensures RowTrue(InsertRow(w, h, c, t, true), g, c.key)
  {
  }

  lemma ClaimedRows(s: Machine, h: nat, now: int, w: Rows)
    requires TruthInv(s) && h in s.handlers && ReserveTx(s.rows.table, s.handlers[h].request.claim, now).Written?
    requires var o := ReserveTx(s.rows.table, s.handlers[h].request.claim, now);
             w == InsertRow(s.rows, h, s.handlers[h].request.claim, o.table, o.created)
    requires Grows(s.rows, s.log, w, s.log)
    ensures forall k <- w.table :: RowTrue(w, s.log, k)
  {
    hide Grows, RecordTrue, ConsultInv;
    var c := s.handlers[h].request.claim;
    var o := ReserveTx(s.rows.table, c, now);
    assert HandlerTrue(s.rows, s.log, h, s.handlers[h]);
    hide ReplyTrue, HandlerTrue;
    ReserveMeans(s.rows.table, c, now);
    if o.created {
      ReserveNew(s.rows.table, c, now);
      InsertedTrue(s.rows, s.log, h, c, o.table, now);
    }
    forall k <- w.table | k != c.key || !o.created ensures RowTrue(w, s.log, k) {
      assert RowTrue(s.rows, s.log, k) by {
        assert k in s.rows.table;
      }
      RecordKept(s.rows, s.log, w, s.log, s.rows.incs[k], s.rows.table[k]);
    }
  }

  lemma ReserveNew(t: Table, c: Claim, now: int)
    requires ReserveTx(t, c, now).Written? && ReserveTx(t, c, now).created
    ensures var o := ReserveTx(t, c, now); c.key in o.table && o.table[c.key] == NewRecord(c, now)
  {
  }

  /** Where a claim can lead: nothing is written, a row may have been inserted,
      or the row of an equal request was found. */
  predicate ClaimStays(s: Machine, s': Machine, h: nat, now: int)
    requires h in s.handlers
  {
    var x := s.handlers[h];
    && OnlyMoves(s, s', h) && h in s'.handlers && s'.log == s.log && s'.rows == s.rows && s'.nextHandler == s.nextHandler
    && (|| s'.handlers[h] == x.(pc := Repairing)
        || (ReserveTx(s.rows.table, x.request.claim, now).Conflict?
            && s'.handlers[h] == x.(pc := Leaving(ConflictReply(IdOf(x))))))
  }

  predicate ClaimInserts(s: Machine, s': Machine, h: nat, now: int)
    requires h in s.handlers
  {
    var x := s.handlers[h];
    var o := ReserveTx(s.rows.table, x.request.claim, now);
    && o.Written? && OnlyMoves(s, s', h) && h in s'.handlers && s'.log == s.log && s'.nextHandler == s.nextHandler
    && s'.rows == InsertRow(s.rows, h, x.request.claim, o.table, o.created)
    && s'.handlers[h].request == x.request && (s'.handlers[h].pc.Repairing? || s'.handlers[h].pc.Authorizing?)
  }

  predicate ClaimFinds(s: Machine, s': Machine, h: nat, now: int)
    requires h in s.handlers
  {
    var c := s.handlers[h].request.claim;
    var o := ReserveTx(s.rows.table, c, now);
    && o.Written? && !o.created
    && s' == SawRecord(s.(rows := InsertRow(s.rows, h, c, o.table, false), writer := None), h, o.record)
  }

  lemma ClaimCases(s: Machine, h: nat, now: int, fault: TxFault)
    requires Inside(s, h) && s.handlers[h].pc.Reserving?
    ensures var s' := CommitClaim(s, h, now, fault);
            ClaimStays(s, s', h, now) || ClaimInserts(s, s', h, now) || ClaimFinds(s, s', h, now)
  {
    hide ReserveTx, SawRecord, InsertRow, ConflictReply;
  }

  lemma ConflictTrue(s: Machine, h: nat, now: int, x': Handler)
    requires RowsInv(s.rows) && TruthInv(s) && h in s.handlers && ReserveTx(s.rows.table, s.handlers[h].request.claim, now).Conflict?
    requires x' == s.handlers[h].(pc := Leaving(ConflictReply(IdOf(s.handlers[h]))))
    ensures HandlerTrue(s.rows, s.log, h, x')
  {
    var x := s.handlers[h];
    ReserveMeans(s.rows.table, x.request.claim, now);
    assert HandlerTrue(s.rows, s.log, h, x) && RowTrue(s.rows, s.log, KeyOf(x));
    FixedReplies(IdOf(x));
    assert RowOk(s.rows, KeyOf(x));
    hide RowsInv, ReserveTx, RefusalTrue, GrantTrue, OutcomeTrue, Plain, ErrorTrue, ConflictReply;
    assert NotMine(s.rows, x', s.rows.incs[KeyOf(x)]);
  }

  /** A claim that finds the row of an equal request. */
  lemma FoundClaimTrue(s: Machine, h: nat, now: int, s': Machine)
    requires RowsInv(s.rows) && TruthInv(s) && h in s.handlers && Grows(s.rows, s.log, s'.rows, s'.log)
    requires ClaimFinds(s, s', h, now)
    ensures TruthInv(s')
  {
    hide ReserveTx, RowsInv, Grows, ReplyTrue, ConsultInv, TruthInv, RecordTrue, SawRecord, HandlerTrue, RowsStep, RowTrue;
    var c := s.handlers[h].request.claim;
    var o := ReserveTx(s.rows.table, c, now);
    var s1 := s.(rows := s.rows.(table := o.table), writer := None);
    ReserveMeans(s.rows.table, c, now);
    InsertRowKeeps(s.rows, h, c, now);
    TruthOfRow(s, c.key);
    OnlyArrived(s, h);
    SubRowTrue(s.rows, s1.rows, s.log, c.key);
    SawTrue(s1, h);
    SameTable(s1.rows, s'.rows);
    OnlySeen(s1.rows, s1.log, s'.rows);
    HandlerKept(s1.rows, s1.log, s'.rows, s'.log, h, s'.handlers[h]);
    KnownRows(s);
    RowsStayTrue(s, s');
    Assemble(s, s', h);
  }

  lemma SubRowTrue(w: Rows, w': Rows, g: Log, k: Key)
    requires k in w.table && RowTrue(w, g, k) && w' == w.(table := w'.table) && k in w'.table && w'.table[k] == w.table[k]
    ensures RowTrue(w', g, k)
  {
    hide RefusedWith, GrantedAs, ReturnedWith, RunAs;
    assert forall i, d | i in w.origin :: Ruled(w, g, i, d) <==> Ruled(w', g, i, d);
    hide Ruled;
  }

  lemma KnownRows(s: Machine)
    requires TruthInv(s)
    ensures forall k <- s.rows.table :: k in s.rows.incs
  {
    hide HandlerTrue, RecordTrue, ConsultInv;
    assert forall k <- s.rows.table :: RowTrue(s.rows, s.log, k);
  }

  lemma OnlySeen(w: Rows, g: Log, w': Rows)
    requires RowsStep(w, w') && w'.origin == w.origin
    ensures Grows(w, g, w', g)
  {
  }

  lemma StayTrue(s: Machine, h: nat, now: int, s': Machine)
    requires RowsInv(s.rows) && TruthInv(s) && h in s.handlers && Grows(s.rows, s.log, s'.rows, s'.log)
    requires ClaimStays(s, s', h, now)
    ensures TruthInv(s')
  {
    hide Grows, RecordTrue, ReplyTrue, RowsInv, ConflictReply, ConsultInv, ReserveTx;
    assert HandlerTrue(s.rows, s.log, h, s.handlers[h]);
    RowsStayKnown(s, s');
    if s'.handlers[h].pc.Leaving? {
      ConflictTrue(s, h, now, s'.handlers[h]);
    }
    Assemble(s, s', h);
  }

  lemma InsertTrue(s: Machine, h: nat, now: int, s': Machine)
    requires TruthInv(s) && h in s.handlers && Grows(s.rows, s.log, s'.rows, s'.log)
    requires ClaimInserts(s, s', h, now)
    ensures TruthInv(s')
  {
    hide Grows, RecordTrue, ReplyTrue, ConsultInv, ReserveTx, InsertRow;
    assert HandlerTrue(s.rows, s.log, h, s.handlers[h]);
    ClaimedRows(s, h, now, s'.rows);
    Assemble(s, s', h);
  }

  lemma ClaimTrue(s: Machine, h: nat, now: int, fault: TxFault)
    requires Inv(s) && TruthInv(s) && Grows(s.rows, s.log, CommitClaim(s, h, now, fault).rows, CommitClaim(s, h, now, fault).log)
    ensures TruthInv(CommitClaim(s, h, now, fault))
  {
    var s' := CommitClaim(s, h, now, fault);
    RowAndLogFacts(s);
    if Inside(s, h) && s.handlers[h].pc.Reserving? {
      ClaimCases(s, h, now, fault);
      hide CommitClaim, Grows, Inv, TruthInv, RowsInv, ClaimStays, ClaimInserts, ClaimFinds;
      if ClaimStays(s, s', h, now) {
        StayTrue(s, h, now, s');
      } else if ClaimInserts(s, s', h, now) {
        InsertTrue(s, h, now, s');
      } else {
        FoundClaimTrue(s, h, now, s');
      }
    } else {
      ClaimIdle(s, h, now, fault);
    }
  }

  // --------------------------------------------------------------------- transitions

  /** What a transition stores, field by field. */
  lemma MergedFields(x: Handler, r: Record, now: int)
    requires x.pc.Moving? && MoveOk(x) && x.pc.from == r.status && (Unresolved(r.status) ==> r.errorPayload.None?)
    requires x.request.executionUsername != "" && x.request.executionBoundary != ""
    ensures var r' := Merge(r, x.pc.to, x.pc.data, now);
            && r'.claim == r.claim && r'.status == x.pc.to && Unresolved(r.status)
            && (x.pc.to == Accepted ==> r'.adminLevel == Admin && r'.authorizationMetadata == x.pc.data.authorizationMetadata)
            && (x.pc.to != Accepted ==> r'.adminLevel == r.adminLevel && r'.authorizationMetadata == r.authorizationMetadata)
            && (x.pc.to == Running ==> RunAs(r', x.request))
            && (x.pc.to != Running ==> r'.executionUID == r.executionUID && r'.executionUsername == r.executionUsername
                                       && r'.executionBoundary == r.executionBoundary)
            && (x.pc.to == Succeeded ==> x.pc.reply == Response(r'.resultPayload))
            && (x.pc.to != Succeeded && !Unresolved(x.pc.to) ==>
                  r'.errorPayload.Some? && x.pc.reply == ErrorReply(r'.errorPayload.value)
                  && x.pc.data.errorPayload == r'.errorPayload)
            && (Reached(x.pc.to) <==> x.pc.to == Running || x.pc.from == Running)
            && (x.pc.to == Accepted || x.pc.to == Denied || x.pc.to == AuthorizationFailed <==> x.pc.from == AuthorizationPending)
            && (Reached(x.pc.to) ==> x.pc.from == Accepted || x.pc.from == Running)
  {
  }

  /** The incarnation a moving handler works on is its own. */
  ghost predicate OwnRow(w: Rows, g: Log, h: nat, x: Handler) {
    && x.claimed.Some? && KeyOf(x) in w.table && KeyOf(x) in w.incs && w.incs[KeyOf(x)] == x.claimed.value
    && x.claimed.value in w.origin && w.origin[x.claimed.value] == Origin(h, x.request.claim)
    && h in g.arrived && g.arrived[h] == x.request
  }

  lemma RulingTrue(w: Rows, g: Log, h: nat, x: Handler, r: Record, now: int)
    requires OwnRow(w, g, h, x) && x.pc.Moving? && MoveOk(x) && x.pc.from == AuthorizationPending && MoveRuled(g, h, x)
    requires r.claim == x.request.claim
    requires (x.pc.to == Accepted ==> r.adminLevel == Admin && r.authorizationMetadata == x.pc.data.authorizationMetadata)
    requires x.pc.to != Accepted ==> r.errorPayload.Some? && x.pc.data.errorPayload == r.errorPayload
    ensures x.pc.to == Accepted ==> GrantTrue(w, g, x.claimed.value, r)
    ensures x.pc.to != Accepted ==> RefusalTrue(w, g, x.claimed.value, x.pc.to, r.errorPayload.value)
  {
    var d :| Consultation(h, x.claimed.value, x.request.claim, d) in g.consulted && Ruling(x.request.claim, d, x.pc);
    assert Ruled(w, g, x.claimed.value, d);
  }

  lemma ReturnedTrue(w: Rows, g: Log, h: nat, x: Handler)
    requires OwnRow(w, g, h, x) && x.pc.Moving? && x.pc.from == Running && MoveReturned(g, x)
    ensures Known(w, g, x.claimed.value)
    ensures var i := x.claimed.value;
            && (x.pc.to == Succeeded ==> OutcomeTrue(w, g, i, OutcomeSucceeded, Succeeded, x.pc.reply))
            && (x.pc.to == Failed ==> OutcomeTrue(w, g, i, OutcomeRejected, Failed, x.pc.reply))
            && (x.pc.to == Unknown ==> OutcomeTrue(w, g, i, OutcomeUncertain, Unknown, x.pc.reply))
  {
    var o :| Return(x.claimed.value, o) in g.returned && ReturnedWith(x.request, o, x.pc.to, x.pc.reply);
  }

  /** The record after the transition is true. */
  lemma MergedTrue(w: Rows, w': Rows, g: Log, h: nat, x: Handler, now: int)
    requires OwnRow(w, g, h, x) && x.pc.Moving? && MoveOk(x) && HandlerTrue(w, g, h, x)
    requires x.request.executionUsername != "" && x.request.executionBoundary != ""
    requires var r := w.table[KeyOf(x)];
             r.status == x.pc.from && RecordTrue(w, g, x.claimed.value, r) && (Unresolved(r.status) ==> r.errorPayload.None?)
    requires w'.origin == w.origin && w.ran <= w'.ran && (x.pc.to == Running ==> x.claimed.value in w'.ran)
    ensures RecordTrue(w', g, x.claimed.value, Merge(w.table[KeyOf(x)], x.pc.to, x.pc.data, now))
  {
    var (i, r) := (x.claimed.value, w.table[KeyOf(x)]);
    var r' := Merge(r, x.pc.to, x.pc.data, now);
    MergedFields(x, r, now);
    hide ReplyTrue, Merge, RefusedWith, GrantedAs, ReturnedWith, Ruling;
    if x.pc.from == AuthorizationPending {
      RulingTrue(w, g, h, x, r', now);
    } else {
      GrantStays(w, w', g, i, r, r');
      if x.pc.from == Running {
        ReturnedTrue(w, g, h, x);
      }
    }
  }

  lemma GrantStays(w: Rows, w': Rows, g: Log, i: nat, r: Record, r': Record)
    requires i in w.origin && GrantTrue(w, g, i, r) && w'.origin == w.origin
    requires r'.adminLevel == r.adminLevel && r'.authorizationMetadata == r.authorizationMetadata
    ensures GrantTrue(w', g, i, r')
  {
    hide GrantedAs;
    var d :| Ruled(w, g, i, d) && GrantedAs(w.origin[i].claim, d, r.adminLevel, r.authorizationMetadata);
    assert Ruled(w', g, i, d);
  }

  /** Where a transition can lead. */
  predicate MoveStays(s: Machine, s': Machine, h: nat)
    requires h in s.handlers
  {
    OnlyMoves(s, s', h) && h in s'.handlers && s'.rows == s.rows && s'.handlers[h] == s.handlers[h].(pc := Repairing)
  }

  ghost predicate MoveWrites(s: Machine, s': Machine, h: nat, now: int)
    requires h in s.handlers && s.handlers[h].pc.Moving?
  {
    var (x, pc, k) := (s.handlers[h], s.handlers[h].pc, KeyOf(s.handlers[h]));
    && OnlyMoves(s, s', h) && h in s'.handlers && Matches(s.rows.table, k, pc.from) && k in s.rows.incs
    && s'.rows == WriteStatus(s.rows, k, pc.to, pc.data, now)
    && s'.handlers[h].request == x.request
    && (|| s'.handlers[h].pc.Repairing? || s'.handlers[h].pc.Executing?
        || (s'.handlers[h].pc.Moving? && s'.handlers[h].pc.from == Accepted)
        || (!Unresolved(pc.to) && s'.handlers[h].pc == Leaving(pc.reply)))
  }

  lemma MoveCases(s: Machine, h: nat, now: int, fault: TxFault, read: ReadFault)
    requires Inside(s, h) && s.handlers[h].pc.Moving? && s.handlers[h].pc.to != AuthorizationPending
    ensures var s' := CommitMove(s, h, now, fault, read); MoveStays(s, s', h) || MoveWrites(s, s', h, now)
  {
    hide WriteStatus, Matches, RunningData;
  }

  lemma WrittenRow(w: Rows, k: Key, to: Status, d: TransitionData, now: int)
    requires k in w.table && k in w.incs
    ensures var w' := WriteStatus(w, k, to, d, now);
            && w'.incs == w.incs && w'.origin == w.origin && w.ran <= w'.ran && (to == Running ==> w.incs[k] in w'.ran)
            && w'.table == w.table[k := Merge(w.table[k], to, d, now)]
  {
    hide Merge;
  }

  lemma MovedRowsTrue(s: Machine, s': Machine, h: nat, now: int)
    requires RowsInv(s.rows) && TruthInv(s) && Moves(s, h)
    requires OwnRow(s.rows, s.log, h, s.handlers[h]) && MoveWrites(s, s', h, now) && SameHistory(s, s')
    requires Grows(s.rows, s.log, s'.rows, s'.log)
    ensures forall k <- s'.rows.table :: RowTrue(s'.rows, s'.log, k)
  {
    hide WriteStatus, RowsInv, RecordTrue, ReplyTrue, Merge, MoveOk, Grows, ConsultInv, TruthInv, HandlerTrue;
    var x := s.handlers[h];
    var k := KeyOf(x);
    WrittenRow(s.rows, k, x.pc.to, x.pc.data, now);
    UnresolvedBlank(s.rows, k);
    TruthOfRow(s, k);
    TruthOfHandler(s, h);
    MergedTrue(s.rows, s'.rows, s.log, h, x, now);
    SameHistoryTrue(s'.rows, s.log, s'.log, x.claimed.value, s'.rows.table[k]);
    forall j <- s'.rows.table | j != k ensures RowTrue(s'.rows, s'.log, j) {
      TruthOfRow(s, j);
      RecordKept(s.rows, s.log, s'.rows, s'.log, s.rows.incs[j], s.rows.table[j]);
    }
  }

  lemma TruthOfRow(s: Machine, k: Key)
    requires TruthInv(s) && k in s.rows.table
    ensures RowTrue(s.rows, s.log, k)
  {
    hide RowTrue, HandlerTrue, ConsultInv;
  }

  lemma TruthOfHandler(s: Machine, h: nat)
    requires TruthInv(s) && h in s.handlers
    ensures HandlerTrue(s.rows, s.log, h, s.handlers[h])
  {
    hide RowTrue, HandlerTrue, ConsultInv;
  }

  lemma SameHistoryTrue(w: Rows, g: Log, g': Log, i: nat, r: Record)
    requires RecordTrue(w, g, i, r) && g'.arrived == g.arrived && g'.consulted == g.consulted && g'.returned == g.returned
    ensures RecordTrue(w, g', i, r)
  {
    hide RefusedWith, GrantedAs, ReturnedWith, RunAs;
    assert i in w.origin && forall d :: Ruled(w, g, i, d) <==> Ruled(w, g', i, d);
    hide Ruled;
  }

  /** The owner's answer after its final commit is the row's. */
  lemma FinalReplyTrue(s: Machine, s': Machine, h: nat, now: int)
    requires RowsInv(s.rows) && Moves(s, h)
    requires OwnRow(s.rows, s.log, h, s.handlers[h]) && MoveWrites(s, s', h, now) && !Unresolved(s.handlers[h].pc.to)
    requires RowTrue(s'.rows, s'.log, KeyOf(s.handlers[h])) && SameHistory(s, s')
    ensures ReplyTrue(s'.rows, s'.log, s'.handlers[h], s.handlers[h].pc.reply)
  {
    var x := s.handlers[h];
    var k := KeyOf(x);
    WriteStatusRows(s.rows, x, now);
    hide WriteStatus, MoveOk, RecordResponse;
    RecordResponseMeans(s'.rows.table[k], x.pc.reply);
    RowShut(s'.rows, k);
    hide RowsInv, Shut, RecordTrue, Replays, RecordResponse;
    assert Mine(s'.rows, s'.handlers[h], x.claimed.value);
    AnsweredTrue(s'.rows, s'.log, s'.handlers[h], x.claimed.value, s'.rows.table[k], x.pc.reply);
  }

  lemma WriteTrue(s: Machine, s': Machine, h: nat, now: int)
    requires RowsInv(s.rows) && TruthInv(s) && Moves(s, h)
    requires OwnRow(s.rows, s.log, h, s.handlers[h]) && MoveWrites(s, s', h, now) && SameHistory(s, s')
    requires Grows(s.rows, s.log, s'.rows, s'.log)
    ensures TruthInv(s')
  {
    hide WriteStatus, MoveOk, RowsInv, RecordTrue, ReplyTrue, Grows, RowTrue, TruthInv;
    MovedRowsTrue(s, s', h, now);
    WrittenHere(s, s', h, now);
    if s'.handlers[h].pc.Leaving? {
      FinalReplyTrue(s, s', h, now);
    }
    OnlyArrived(s, h);
    Assemble(s, s', h);
  }

  lemma WrittenHere(s: Machine, s': Machine, h: nat, now: int)
    requires h in s.handlers && s.handlers[h].pc.Moving? && MoveWrites(s, s', h, now)
    ensures KeyOf(s.handlers[h]) in s'.rows.table
  {
    hide Merge;
  }

  lemma OnlyArrived(s: Machine, h: nat)
    requires TruthInv(s) && h in s.handlers
    ensures h in s.log.arrived && s.log.arrived[h] == s.handlers[h].request && ConsultInv(s.log)
    ensures forall o <- s.log.arrived :: o < s.nextHandler
  {
    hide RowTrue, ReplyTrue, RecordTrue, ConsultInv;
    assert HandlerTrue(s.rows, s.log, h, s.handlers[h]);
  }

  /** What a moving handler brings along. */
  ghost predicate Moves(s: Machine, h: nat) {
    && h in s.handlers && s.handlers[h].pc.Moving? && MoveOk(s.handlers[h]) && s.handlers[h].pc.to != AuthorizationPending
    && s.handlers[h].request.executionUsername != "" && s.handlers[h].request.executionBoundary != ""
  }

  lemma MovesOwn(arrivals: iset<Arrival>, s: Machine, h: nat)
    requires Inv(s) && TruthInv(s) && At(s, h) && s.handlers[h].pc.Moving? && OwnLine(arrivals, s, h, s.handlers[h])
    ensures RowsInv(s.rows) && Moves(s, h)
    ensures Matches(s.rows.table, KeyOf(s.handlers[h]), s.handlers[h].pc.from) && KeyOf(s.handlers[h]) in s.rows.incs ==>
              OwnRow(s.rows, s.log, h, s.handlers[h])
  {
    hide Inv, LogInv, RowsInv, LockOk, MoveOk, RowTrue, ConsultInv, ReplyTrue, RecordTrue;
    RowAndLogFacts(s);
    HandlerFacts(s, h);
    HandlerLine(s, h);
    PendingNotTarget(s.handlers[h]);
    assert HandlerTrue(s.rows, s.log, h, s.handlers[h]);
  }

  lemma MoveTrue(arrivals: iset<Arrival>, s: Machine, h: nat, now: int, fault: TxFault, read: ReadFault)
    requires Inv(s) && TruthInv(s) && (h in s.handlers ==> OwnLine(arrivals, s, h, s.handlers[h]))
    requires Grows(s.rows, s.log, CommitMove(s, h, now, fault, read).rows, CommitMove(s, h, now, fault, read).log)
    ensures TruthInv(CommitMove(s, h, now, fault, read))
  {
    hide CommitMove, Inv, RowsInv, Grows, TruthInv, OwnLine, OwnRow, MoveOk, MoveStays;
    var s' := CommitMove(s, h, now, fault, read);
    if Inside(s, h) && s.handlers[h].pc.Moving? {
      MovesOwn(arrivals, s, h);
      MoveHistory(s, h, now, fault, read);
      MoveCases(s, h, now, fault, read);
      if MoveStays(s, s', h) {
        StayedTrue(s, s', h);
      } else {
        WriteTrue(s, s', h, now);
      }
    } else {
      MoveIdle(s, h, now, fault, read);
    }
  }

  lemma StayedTrue(s: Machine, s': Machine, h: nat)
    requires TruthInv(s) && Grows(s.rows, s.log, s'.rows, s'.log) && SameHistory(s, s') && h in s.handlers && MoveStays(s, s', h)
    ensures TruthInv(s')
  {
    hide Grows, RowTrue, RecordTrue, ReplyTrue;
    RowsStayKnown(s, s');
    assert HandlerTrue(s.rows, s.log, h, s.handlers[h]);
    Assemble(s, s', h);
  }

  lemma PendingNotTarget(x: Handler)
    requires x.pc.Moving? && MoveOk(x)
    ensures x.pc.to != AuthorizationPending
  {
  }

  lemma MoveIdle(s: Machine, h: nat, now: int, fault: TxFault, read: ReadFault)
    requires !(Inside(s, h) && s.handlers[h].pc.Moving?)
    ensures CommitMove(s, h, now, fault, read) == s
  {
  }

  // ---------------------------------------------------------------------- all of them

  lemma ArriveTrue(s: Machine, service: nat, r: Request)
    requires TruthInv(s) && Grows(s.rows, s.log, Arrive(s, service, r).rows, Arrive(s, service, r).log)
    ensures TruthInv(Arrive(s, service, r))
  {
    hide Grows, RecordTrue, ReplyTrue, RowTrue;
    var s' := Arrive(s, service, r);
    RowsStayKnown(s, s');
    if s.up {
      Assemble(s, s', s.nextHandler);
    }
  }
}
