/** Stored outcomes are the executor's own: where every key is wanted at one
    service, a row that says succeeded, failed, or unknown on its owner's word goes
    back to what the executor reported for that very incarnation. */
module CommandOutcome {
  import opened Ledger
  import opened CommandService
  import opened CommandInvariants
  import opened CommandSteps
  import opened CommandTheorems
  import opened CommandOwnClaims

  /** The outcome an owner's final status stands for. */
  predicate StandsFor(status: Status, o: Outcome) {
    match status
    case Succeeded => o == OutcomeSucceeded
    case Failed => o == OutcomeRejected
    case Unknown => o == OutcomeUncertain
    case _ => false
  }

  predicate Told(g: Log, i: nat, status: Status) {
    exists o | o in {OutcomeSucceeded, OutcomeRejected, OutcomeUncertain} :: StandsFor(status, o) && Return(i, o) in g.returned
  }

  predicate Final(r: Record) {
    r.status == Succeeded || r.status == Failed || (r.status == Unknown && r.errorPayload.Some?)
  }

  ghost predicate RowTold(w: Rows, g: Log, k: Key)
    requires k in w.table
  {
    k in w.incs && Final(w.table[k]) ==> Told(g, w.incs[k], w.table[k].status)
  }

  ghost predicate MoveTold(g: Log, x: Handler) {
    x.pc.Moving? && x.pc.from == Running && x.claimed.Some? ==> Told(g, x.claimed.value, x.pc.to)
  }

  ghost predicate ToldInv(s: Machine) {
    && (forall k <- s.rows.table :: RowTold(s.rows, s.log, k))
    && (forall h <- s.handlers :: MoveTold(s.log, s.handlers[h]))
  }

  // ------------------------------------------------------------ steps without effect

  /** No final status is written, no return is forgotten, and a handler that
      moves does not move to a final transition. */
  ghost predicate Harmless(s: Machine, s': Machine) {
    && s.log.returned <= s'.log.returned
    && (forall k <- s'.rows.table :: k in s'.rows.incs && Final(s'.rows.table[k]) ==>
          k in s.rows.table && k in s.rows.incs && s'.rows.incs[k] == s.rows.incs[k] && s'.rows.table[k] == s.rows.table[k])
    && (forall h <- s'.handlers ::
          (h in s.handlers && s'.handlers[h] == s.handlers[h]) || !s'.handlers[h].pc.Moving? || s'.handlers[h].pc.from != Running)
  }

  lemma ToldGrows(g: Log, g': Log, i: nat, status: Status)
    requires Told(g, i, status) && g.returned <= g'.returned
    ensures Told(g', i, status)
  {
  }

  lemma HarmlessKeeps(s: Machine, s': Machine)
    requires ToldInv(s) && Harmless(s, s')
    ensures ToldInv(s')
  {
    hide Told, Final;
    forall i, t | Told(s.log, i, t) ensures Told(s'.log, i, t) {
      ToldGrows(s.log, s'.log, i, t);
    }
    forall k <- s'.rows.table ensures RowTold(s'.rows, s'.log, k) {
      assert k in s.rows.table ==> RowTold(s.rows, s.log, k);
    }
    forall h <- s'.handlers ensures MoveTold(s'.log, s'.handlers[h]) {
      assert h in s.handlers ==> MoveTold(s.log, s.handlers[h]);
    }
  }

  lemma EntryHarmless(s: Machine, a: Step)
    requires a.DoArrive? || a.DoCheckAdmission? || a.DoLockRef? || a.DoLockAcquire? || a.DoValidate? || a.DoEnterWriter?
    ensures Harmless(s, Next(s, a))
  {
    hide RequestLocks.Ref, RequestLocks.Acquire, RequestLocks.Holds, ValidClaim, Admissible, Final;
  }

  lemma ReadingHarmless(s: Machine, a: Step)
    requires a.DoLookUp? || a.DoPoll?
    ensures Harmless(s, Next(s, a))
  {
    hide Find, Final, SawRecord;
    if At(s, a.h) && Find(s.rows.table, KeyOf(s.handlers[a.h]), a.now).Some? {
      SawHarmless(s, a.h, Find(s.rows.table, KeyOf(s.handlers[a.h]), a.now).value);
    }
  }

  lemma SawHarmless(s: Machine, h: nat, r: Record)
    requires h in s.handlers
    ensures Harmless(s, SawRecord(s, h, r))
  {
    hide Final;
  }

  lemma WaitingHarmless(s: Machine, a: Step)
    requires a.DoAwait? || a.DoCheckGate?
    ensures Harmless(s, Next(s, a))
  {
    hide RecordResponse, Final;
  }

  lemma LeavingHarmless(s: Machine, a: Step)
    requires a.DoLockRelease? || a.DoLockUnref? || a.DoVerifyRows? || a.DoOpenGate? || a.DoCrash?
    ensures Harmless(s, Next(s, a))
  {
    hide RequestLocks.Release, RequestLocks.Unref, Final;
  }

  lemma CallsHarmless(s: Machine, a: Step)
    requires a.DoAuthorize? || a.DoCallExecutor?
    ensures Harmless(s, Next(s, a))
  {
    hide Final;
  }

  /** Every final row of `w'` is that row of `w`. */
  ghost predicate NoNewFinals(w: Rows, w': Rows) {
    forall k <- w'.table :: k in w'.incs && Final(w'.table[k]) ==>
      k in w.table && k in w.incs && w'.incs[k] == w.incs[k] && w'.table[k] == w.table[k]
  }

  /** Recovery resolves rows without a word from the executor, and stores none. */
  lemma RecoverNoFinals(w: Rows, now: int)
    requires RowsInv(w)
    ensures NoNewFinals(w, w.(table := Recover(w.table, now)))
    ensures NoNewFinals(w, w.(table := Purge(Recover(w.table, now), now)))
  {
    forall k <- w.table ensures Final(RecoverRecord(w.table[k], now)) ==> RecoverRecord(w.table[k], now) == w.table[k] {
      assert RowOk(w, k);
    }
    hide RowsInv, Final, RecoverRecord;
  }

  lemma RecoverHarmless(s: Machine, h: nat, ok: bool, now: int, fault: TxFault)
    requires RowsInv(s.rows)
    ensures Harmless(s, RecoverRows(s, h, ok, now, fault))
  {
    RecoverNoFinals(s.rows, now);
    hide RowsInv, Recover, Purge, Final;
  }

  lemma ReopenHarmless(s: Machine, ok: bool, now: int, recovery: TxFault, purge: TxFault)
    requires RowsInv(s.rows)
    ensures Harmless(s, Reopen(s, ok, now, recovery, purge))
  {
    RecoverNoFinals(s.rows, now);
    hide RowsInv, Recover, Purge, Final;
  }

  lemma ClaimNoFinals(w: Rows, h: nat, c: Claim, now: int)
    requires ReserveTx(w.table, c, now).Written?
    ensures var o := ReserveTx(w.table, c, now); NoNewFinals(w, InsertRow(w, h, c, o.table, o.created))
  {
  }

  lemma ClaimHarmless(s: Machine, h: nat, now: int, fault: TxFault)
    ensures Harmless(s, CommitClaim(s, h, now, fault))
  {
    if Inside(s, h) && s.handlers[h].pc.Reserving? {
      var c := s.handlers[h].request.claim;
      var o := ReserveTx(s.rows.table, c, now);
      if o.Written? {
        ClaimNoFinals(s.rows, h, c, now);
      }
      ClaimRows(s, h, now, fault);
      ClaimMoves(s, h, now, fault);
      hide ReserveTx, InsertRow, Final, CommitClaim;
    }
  }

  lemma ClaimMoves(s: Machine, h: nat, now: int, fault: TxFault)
    requires Inside(s, h)
    ensures var s' := CommitClaim(s, h, now, fault);
            && s'.log.returned == s.log.returned
            && forall g <- s'.handlers :: (g in s.handlers && s'.handlers[g] == s.handlers[g]) || !s'.handlers[g].pc.Moving?
  {
    hide ReserveTx, InsertRow, Note;
  }

  // ---------------------------------------------------------------- steps that matter

  lemma ConcludeStands(x: Handler, o: Outcome)
    ensures Conclude(x, o).Moving? && Conclude(x, o).from == Running && StandsFor(Conclude(x, o).to, o)
  {
  }

  lemma ReturnKeeps(arrivals: iset<Arrival>, s: Machine, h: nat, o: Outcome)
    requires ToldInv(s) && (h in s.handlers ==> OwnLine(arrivals, s, h, s.handlers[h]))
    ensures ToldInv(ExecutorReturns(s, h, o))
  {
    var s' := ExecutorReturns(s, h, o);
    if At(s, h) && s.handlers[h].pc.InFlight? {
      ConcludeStands(s.handlers[h], o);
      var i := s.handlers[h].pc.tag;
      assert Return(i, o) in s'.log.returned;
      hide Conclude, Final;
      assert Told(s'.log, i, s'.handlers[h].pc.to);
      hide StandsFor;
      forall j, t | Told(s.log, j, t) ensures Told(s'.log, j, t) {
        ToldGrows(s.log, s'.log, j, t);
      }
      hide Told;
      forall k <- s'.rows.table ensures RowTold(s'.rows, s'.log, k) {
        assert RowTold(s.rows, s.log, k);
      }
      forall g <- s'.handlers ensures MoveTold(s'.log, s'.handlers[g]) {
        assert g in s.handlers ==> MoveTold(s.log, s.handlers[g]);
      }
    }
  }

  /** The row a transition wrote is its writer's own, so a final status is the
      one the executor's return stood for. */
  lemma WrittenTold(arrivals: iset<Arrival>, s: Machine, h: nat, now: int)
    requires ToldInv(s) && At(s, h) && s.handlers[h].pc.Moving? && OwnLine(arrivals, s, h, s.handlers[h]) && s.handlers[h].claimed.Some?
    requires MoveOk(s.handlers[h])
    requires Matches(s.rows.table, KeyOf(s.handlers[h]), s.handlers[h].pc.from) && KeyOf(s.handlers[h]) in s.rows.incs
    ensures var w := WriteStatus(s.rows, KeyOf(s.handlers[h]), s.handlers[h].pc.to, s.handlers[h].pc.data, now);
            forall k <- w.table :: RowTold(w, s.log, k)
  {
    var x := s.handlers[h];
    var w := WriteStatus(s.rows, KeyOf(x), x.pc.to, x.pc.data, now);
    assert MoveTold(s.log, x);
    hide Told;
    forall k <- w.table ensures RowTold(w, s.log, k) {
      assert k in s.rows.table && RowTold(s.rows, s.log, k);
    }
  }

  lemma CommitKeeps(arrivals: iset<Arrival>, s: Machine, h: nat, now: int, fault: TxFault, read: ReadFault)
    requires ToldInv(s) && (h in s.handlers ==> OwnLine(arrivals, s, h, s.handlers[h]) && HandlerOk(s.rows, s.log, h, s.handlers[h]))
    ensures ToldInv(CommitMove(s, h, now, fault, read))
  {
    var s' := CommitMove(s, h, now, fault, read);
    if Inside(s, h) && s.handlers[h].pc.Moving? {
      var (k, pc) := (KeyOf(s.handlers[h]), s.handlers[h].pc);
      if Matches(s.rows.table, k, pc.from) && k in s.rows.incs {
        WrittenTold(arrivals, s, h, now);
      }
      MovedShape(s, h, now, fault, read);
      hide HandlerOk, OwnLine, Told, Final, CommitMove, WriteStatus, Matches;
      forall j, t | Told(s.log, j, t) ensures Told(s'.log, j, t) {
        ToldGrows(s.log, s'.log, j, t);
      }
      forall j <- s'.rows.table ensures RowTold(s'.rows, s'.log, j) {
        assert RowTold(s'.rows, s.log, j);
      }
      forall g <- s'.handlers ensures MoveTold(s'.log, s'.handlers[g]) {
        assert g in s.handlers ==> MoveTold(s.log, s.handlers[g]);
      }
    }
  }

  /** The parts of a status commit that matter here. */
  lemma MovedShape(s: Machine, h: nat, now: int, fault: TxFault, read: ReadFault)
    requires Inside(s, h) && s.handlers[h].pc.Moving?
    ensures var s' := CommitMove(s, h, now, fault, read);
            var (k, pc) := (KeyOf(s.handlers[h]), s.handlers[h].pc);
            && s'.log.returned == s.log.returned
            && (s'.rows == s.rows
                || (Matches(s.rows.table, k, pc.from) && k in s.rows.incs && s'.rows == WriteStatus(s.rows, k, pc.to, pc.data, now)))
            && (forall g <- s'.handlers ::
                  (g in s.handlers && s'.handlers[g] == s.handlers[g])
                  || !s'.handlers[g].pc.Moving? || s'.handlers[g].pc.from != Running)
  {
    hide WriteStatus, Matches, RunningData;
  }

  lemma {:induction false} StepTold(arrivals: iset<Arrival>, s: Machine, a: Step)
    requires Inv(s) && OwnWork(arrivals, s) && ToldInv(s)
    ensures ToldInv(Next(s, a))
  {
    RowAndLogFacts(s);
    if a.DoExecutorReturns? {
      ReturnKeeps(arrivals, s, a.h, a.outcome);
    } else if a.DoCommitMove? {
      if a.h in s.handlers {
        HandlerFacts(s, a.h);
      }
      CommitKeeps(arrivals, s, a.h, a.now, a.fault, a.readFault);
    } else {
      if a.DoCommitClaim? {
        ClaimHarmless(s, a.h, a.now, a.fault);
      } else if a.DoRecoverRows? {
        RecoverHarmless(s, a.h, a.ok, a.now, a.fault);
      } else if a.DoReopen? {
        ReopenHarmless(s, a.ok, a.now, a.fault, a.purgeFault);
      } else if a.DoAuthorize? || a.DoCallExecutor? {
        CallsHarmless(s, a);
      } else if a.DoLookUp? || a.DoPoll? {
        ReadingHarmless(s, a);
      } else if a.DoAwait? || a.DoCheckGate? {
        WaitingHarmless(s, a);
      } else if a.DoArrive? || a.DoCheckAdmission? || a.DoLockRef? || a.DoLockAcquire? || a.DoValidate? || a.DoEnterWriter? {
        EntryHarmless(s, a);
      } else {
        LeavingHarmless(s, a);
      }
      hide Inv, OwnWork, RowsInv, LogInv, Next, Harmless;
      HarmlessKeeps(s, Next(s, a));
    }
  }

  lemma {:induction false} RunTold(arrivals: iset<Arrival>, s: Machine, steps: seq<Step>)
    requires KeysApart(arrivals) && Inv(s) && OwnWork(arrivals, s) && ToldInv(s) && RunsOver(arrivals, steps)
    ensures ToldInv(Run(s, steps))
    decreases |steps|
  {
    hide Inv, Next, OwnWork, ToldInv;
    if steps != [] {
      assert steps[0] in steps;
      StepKeeps(s, steps[0]);
      OwnWorkStep(arrivals, s, steps[0]);
      StepTold(arrivals, s, steps[0]);
      RunTold(arrivals, Next(s, steps[0]), steps[1..]);
    }
  }

  /** With every key wanted at one service: a stored success was a success the executor reported for
      that incarnation, a stored failure a rejection, and an unknown outcome with
      a payload an uncertain return. */
  lemma {:induction false} StoredOutcomeIsExecutors(arrivals: iset<Arrival>, steps: seq<Step>, k: Key)
    requires KeysApart(arrivals) && RunsOver(arrivals, steps) && k in Run(BOOT, steps).rows.table
    ensures var s := Run(BOOT, steps);
            var r := s.rows.table[k];
            && k in s.rows.incs
            && (r.status == Succeeded ==> Return(s.rows.incs[k], OutcomeSucceeded) in s.log.returned)
            && (r.status == Failed ==> Return(s.rows.incs[k], OutcomeRejected) in s.log.returned)
            && (r.status == Unknown && r.errorPayload.Some? ==> Return(s.rows.incs[k], OutcomeUncertain) in s.log.returned)
  {
    BootHolds();
    RunKeeps(BOOT, steps);
    RunTold(arrivals, BOOT, steps);
    assert RowOk(Run(BOOT, steps).rows, k) && RowTold(Run(BOOT, steps).rows, Run(BOOT, steps).log, k);
  }
}
