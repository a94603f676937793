/** What the command ledger and the command service promise together, for every
    run: any number of handlers on any number of service objects over one
    ledger, uncertain commits, reconciliation, crashes, restarts and expiry. */
module CommandTheorems {
  import opened Wrappers
  import opened Ledger
  import opened CommandService
  import opened CommandInvariants
  import opened CommandSteps

  // ---------------------------------------------------------------- at most once

  /** The executor, and the authorizer, are called at most once per incarnation
      of a row, and the executor only by the handler whose own running commit
      was reported successful. */
  lemma AtMostOnce(steps: seq<Step>)
    ensures var g := Run(BOOT, steps).log;
            && (forall i, j :: 0 <= i < j < |g.dispatches| ==> g.dispatches[i].incarnation != g.dispatches[j].incarnation)
            && (forall i, j :: 0 <= i < j < |g.authorizations| ==>
                  g.authorizations[i].incarnation != g.authorizations[j].incarnation)
            && (forall d <- g.dispatches :: d.incarnation in g.confirmed && g.confirmed[d.incarnation] == d.handler)
  {
    BootHolds();
    RunKeeps(BOOT, steps);
  }

  /** A row whose status shows no dispatch intent was never dispatched, and a
      dispatched incarnation shows one for as long as its row exists. */
  lemma NoDispatchCertificate(steps: seq<Step>, k: Key)
    requires k in Run(BOOT, steps).rows.table
    ensures var s := Run(BOOT, steps);
            var status := s.rows.table[k].status;
            && k in s.rows.incs
            && (status == AuthorizationPending || status == Accepted || status == AuthorizationUncertain
                || status == AuthorizationFailed || status == Denied ==>
                  forall d <- s.log.dispatches :: d.incarnation != s.rows.incs[k])
            && ((exists d <- s.log.dispatches :: d.incarnation == s.rows.incs[k]) ==>
                  status == Running || status == Succeeded || status == Failed || status == Unknown)
  {
    BootHolds();
    RunKeeps(BOOT, steps);
    assert RowOk(Run(BOOT, steps).rows, k);
  }

  // ------------------------------------------------------------------- ownership

  /** Behind an open gate no unresolved row is an orphan: a live handler with
      that key has a program counter that expects exactly that status. */
  lemma Ownership(steps: seq<Step>, k: Key)
    requires var s := Run(BOOT, steps); s.up && !s.blocked && k in s.rows.table && Unresolved(s.rows.table[k].status)
    ensures var s := Run(BOOT, steps);
            exists h :: h in s.handlers && KeyOf(s.handlers[h]) == k
                        && Expects(s.handlers[h].pc) == Some(s.rows.table[k].status)
  {
    BootHolds();
    RunKeeps(BOOT, steps);
    var s := Run(BOOT, steps);
    assert Owned(s, k, s.rows.table[k].status);
  }

  // ------------------------------------------------------- how rows evolve in a run

  /** A later state of one record in which whatever was recorded stays as it
      was recorded. */
  predicate Unfolds(r: Record, r': Record) {
    && Evolves(r, r')
    && (r.adminLevel != NoLevel ==> r'.adminLevel == r.adminLevel)
    && (r.authorizationMetadata.Some? ==> r'.authorizationMetadata == r.authorizationMetadata)
    && (r.executionUID.Some? ==> r'.executionUID == r.executionUID)
    && (r.executionUsername != "" ==> r'.executionUsername == r.executionUsername)
    && (r.executionBoundary != "" ==> r'.executionBoundary == r.executionBoundary)
    && (r.resultPayload.Some? ==> r'.resultPayload == r.resultPayload)
    && (r.errorPayload.Some? ==> r'.errorPayload == r.errorPayload)
  }

  lemma UnfoldsTransitive(a: Record, b: Record, c: Record)
    requires Unfolds(a, b) && Unfolds(b, c)
    ensures Unfolds(a, c)
  {
    EvolvesTransitive(a, b, c);
    hide Evolves;
  }

  /** The transitions the service asks for only fill in what is not there yet. */
  lemma MoveUnfolds(r: Record, x: Handler, now: int)
    requires x.pc.Moving? && MoveOk(x) && x.pc.from == r.status && Audited(r)
    requires x.request.executionUsername != "" && x.request.executionBoundary != ""
    ensures Unfolds(r, Merge(r, x.pc.to, x.pc.data, now))
  {
    MoveAdmissible(x);
    MergeEvolves(r, x.pc.to, x.pc.data, now);
    hide Evolves;
  }

  lemma UnfoldsSame()
    ensures forall r: Record :: Unfolds(r, r)
  {
  }

  lemma RecoverUnfolds(r: Record, now: int)
    ensures Unfolds(r, RecoverRecord(r, now))
  {
    RecoverEvolves(r, now);
    hide Evolves;
  }

  /** One step leaves every surviving incarnation in a later state of itself,
      inserts only fresh ones, and makes an incarnation dispatchable only from
      an accepted row. */
  ghost predicate RowsStep(w: Rows, w': Rows) {
    && w.nextInc <= w'.nextInc && w.ran <= w'.ran
    && (forall k <- w'.table :: k in w'.incs && (w'.incs[k] >= w.nextInc || Continued(w, w', k)))
    && (forall i <- w'.ran :: i in w.ran || WasAccepted(w, i))
  }

  predicate Continued(w: Rows, w': Rows, k: Key)
    requires k in w'.table && k in w'.incs
  {
    k in w.table && k in w.incs && w'.incs[k] == w.incs[k] && Unfolds(w.table[k], w'.table[k])
  }

  predicate WasAccepted(w: Rows, i: nat) {
    && i in w.origin
    && var k := w.origin[i].claim.key;
       k in w.table && k in w.incs && w.incs[k] == i && w.table[k].status == Accepted
  }

  lemma SameTable(w: Rows, w': Rows)
    requires RowsInv(w) && w'.table == w.table && w'.incs == w.incs && w'.nextInc == w.nextInc && w'.ran == w.ran
    ensures RowsStep(w, w')
  {
    forall k <- w'.table ensures k in w'.incs && Continued(w, w', k) {
      assert RowOk(w, k);
    }
  }

  lemma SawRecordSteps(s: Machine, h: nat, r: Record)
    requires RowsInv(s.rows) && h in s.handlers
    ensures RowsStep(s.rows, SawRecord(s, h, r).rows)
  {
    hide RowsInv, RowsStep;
    SameTable(s.rows, SawRecord(s, h, r).rows);
  }

  lemma ClaimSteps(w: Rows, h: nat, c: Claim, now: int)
    requires RowsInv(w) && ReserveTx(w.table, c, now).Written?
    ensures var o := ReserveTx(w.table, c, now); RowsStep(w, InsertRow(w, h, c, o.table, o.created))
  {
    var o := ReserveTx(w.table, c, now);
    var w' := InsertRow(w, h, c, o.table, o.created);
    ReserveFacts(w.table, c, now);
    hide ReserveTx, Audited, NewRecord;
    forall k <- w'.table ensures k in w'.incs && (w'.incs[k] >= w.nextInc || Continued(w, w', k)) {
      assert k in w.table ==> RowOk(w, k);
    }
  }

  lemma MoveSteps(w: Rows, x: Handler, now: int)
    requires RowsInv(w) && x.pc.Moving? && MoveOk(x)
    requires x.request.executionUsername != "" && x.request.executionBoundary != ""
    requires Matches(w.table, KeyOf(x), x.pc.from) && KeyOf(x) in w.incs
    ensures RowsStep(w, WriteStatus(w, KeyOf(x), x.pc.to, x.pc.data, now))
  {
    hide Merge, Audited, Unfolds;
    var k := KeyOf(x);
    var w' := WriteStatus(w, k, x.pc.to, x.pc.data, now);
    assert RowOk(w, k) && IncOk(w, k);
    assert x.pc.to == Running ==> x.pc.from == Accepted;
    MoveUnfolds(w.table[k], x, now);
    hide MoveOk;
    UnfoldsSame();
    forall j <- w'.table ensures j in w'.incs && Continued(w, w', j) {
      assert RowOk(w, j);
    }
  }

  lemma RecoverSteps(w: Rows, now: int)
    requires RowsInv(w)
    ensures RowsStep(w, w.(table := Recover(w.table, now)))
    ensures RowsStep(w, w.(table := Purge(Recover(w.table, now), now)))
  {
    forall w', k | w' in {w.(table := Recover(w.table, now)), w.(table := Purge(Recover(w.table, now), now))} && k in w'.table
      ensures k in w'.incs && Continued(w, w', k)
    {
      assert RowOk(w, k);
      RecoverUnfolds(w.table[k], now);
    }
  }

  lemma ClaimRows(s: Machine, h: nat, now: int, fault: TxFault)
    requires h in s.handlers
    ensures var w' := CommitClaim(s, h, now, fault).rows;
            var c := s.handlers[h].request.claim;
            var o := ReserveTx(s.rows.table, c, now);
            || w' == s.rows
            || (o.Written? && exists seen :: w' == InsertRow(s.rows, h, c, o.table, o.created).(seen := seen))
  {
    hide ReserveTx, Note;
    var c := s.handlers[h].request.claim;
    var o := ReserveTx(s.rows.table, c, now);
    if o.Written? {
      var w := InsertRow(s.rows, h, c, o.table, o.created);
      assert w == w.(seen := w.seen);
      if !o.created && c.key in w.incs {
        NoteSame(w, w.incs[c.key], o.record);
      }
    }
  }

  lemma NoteSame(w: Rows, i: nat, r: Record)
    ensures Note(w, i, r) == w.(seen := Note(w, i, r).seen)
  {
  }

  lemma SeenAside(w: Rows, w1: Rows, w2: Rows)
    requires RowsStep(w, w1) && w2 == w1.(seen := w2.seen)
    ensures RowsStep(w, w2)
  {
    hide Unfolds;
    assert forall k <- w2.table :: Continued(w, w1, k) ==> Continued(w, w2, k);
  }

  lemma CommitClaimSteps(s: Machine, h: nat, now: int, fault: TxFault)
    requires RowsInv(s.rows)
    ensures RowsStep(s.rows, CommitClaim(s, h, now, fault).rows)
  {
    hide RowsStep, RowsInv, ReserveTx, CommitClaim, InsertRow;
    if Inside(s, h) && s.handlers[h].pc.Reserving? {
      ClaimRows(s, h, now, fault);
      var c := s.handlers[h].request.claim;
      var o := ReserveTx(s.rows.table, c, now);
      SameTable(s.rows, s.rows);
      if o.Written? {
        ClaimSteps(s.rows, h, c, now);
        var w := InsertRow(s.rows, h, c, o.table, o.created);
        if exists seen :: CommitClaim(s, h, now, fault).rows == w.(seen := seen) {
          SeenAside(s.rows, w, CommitClaim(s, h, now, fault).rows);
        }
      }
    } else {
      SameTable(s.rows, CommitClaim(s, h, now, fault).rows) by {
        ClaimIdle(s, h, now, fault);
      }
    }
  }

  lemma ClaimIdle(s: Machine, h: nat, now: int, fault: TxFault)
    requires !(Inside(s, h) && s.handlers[h].pc.Reserving?)
    ensures CommitClaim(s, h, now, fault) == s
  {
  }

  lemma MoveRows(s: Machine, h: nat, now: int, fault: TxFault, read: ReadFault)
    ensures var w' := CommitMove(s, h, now, fault, read).rows;
            || w' == s.rows
            || (At(s, h) && s.handlers[h].pc.Moving?
                && var (k, pc) := (KeyOf(s.handlers[h]), s.handlers[h].pc);
                   && Matches(s.rows.table, k, pc.from) && k in s.rows.incs
                   && w' == WriteStatus(s.rows, k, pc.to, pc.data, now))
  {
    hide WriteStatus, Matches;
  }

  lemma CommitMoveSteps(s: Machine, h: nat, now: int, fault: TxFault, read: ReadFault)
    requires Inv(s)
    ensures RowsStep(s.rows, CommitMove(s, h, now, fault, read).rows)
  {
    hide Inv, RowsStep, RowsInv, LogInv, WriteStatus, CommitMove, MoveOk, Matches;
    MoveRows(s, h, now, fault, read);
    RowAndLogFacts(s);
    if CommitMove(s, h, now, fault, read).rows == s.rows {
      SameTable(s.rows, s.rows);
    } else {
      HandlerFacts(s, h);
      HandlerLine(s, h);
      MoveSteps(s.rows, s.handlers[h], now);
    }
  }

  lemma LookUpSteps(s: Machine, h: nat, cancelled: bool, now: int, fault: ReadFault)
    requires RowsInv(s.rows)
    ensures RowsStep(s.rows, LookUp(s, h, now, fault).rows) && RowsStep(s.rows, Poll(s, h, cancelled, now, fault).rows)
  {
    hide RowsInv, RowsStep, SawRecord, Find;
    SameTable(s.rows, s.rows);
    if At(s, h) && Find(s.rows.table, KeyOf(s.handlers[h]), now).Some? {
      SawRecordSteps(s, h, Find(s.rows.table, KeyOf(s.handlers[h]), now).value);
    }
  }

  lemma RecoveringSteps(s: Machine, a: Step)
    requires RowsInv(s.rows) && (a.DoRecoverRows? || a.DoReopen?)
    ensures RowsStep(s.rows, Next(s, a).rows)
  {
    hide RowsInv, RowsStep, Recover, Purge;
    SameTable(s.rows, s.rows);
    RecoverSteps(s.rows, a.now);
  }

  predicate RowChanging(a: Step) {
    a.DoLookUp? || a.DoPoll? || a.DoCommitClaim? || a.DoCommitMove? || a.DoRecoverRows? || a.DoReopen?
  }

  lemma OthersLeaveRows(s: Machine, a: Step)
    requires !RowChanging(a)
    ensures Next(s, a).rows == s.rows
  {
    hide RequestLocks.Ref, RequestLocks.Acquire, RequestLocks.Release, RequestLocks.Unref, RecordResponse, Decide, Conclude;
  }

  lemma StepRows(s: Machine, a: Step)
    requires Inv(s)
    ensures RowsStep(s.rows, Next(s, a).rows)
  {
    hide Inv, RowsInv, LogInv, RowsStep, Arrive, CheckAdmission, LockRef, LockAcquire, LookUp, Validate, Await, Poll,
         EnterWriter, CommitClaim, Authorize, CommitMove, CallExecutor, ExecutorReturns, CheckGate, RecoverRows,
         VerifyRows, OpenGate, LockRelease, LockUnref, Crash, Reopen;
    RowAndLogFacts(s);
    match a {
      case DoLookUp(h, now, fault) => LookUpSteps(s, h, false, now, fault);
      case DoPoll(h, cancelled, now, fault) => LookUpSteps(s, h, cancelled, now, fault);
      case DoCommitClaim(h, now, fault) => CommitClaimSteps(s, h, now, fault);
      case DoCommitMove(h, now, fault, read) => CommitMoveSteps(s, h, now, fault, read);
      case DoRecoverRows(_, _, _, _) => RecoveringSteps(s, a);
      case DoReopen(_, _, _, _) => RecoveringSteps(s, a);
      case _ =>
        OthersLeaveRows(s, a);
        SameTable(s.rows, s.rows);
    }
  }

  /** The same over any number of steps. */
  ghost predicate RowsLater(w: Rows, w': Rows) {
    && w.nextInc <= w'.nextInc && w.ran <= w'.ran
    && (forall k <- w'.table :: k in w'.incs && (w'.incs[k] >= w.nextInc || Continued(w, w', k)))
  }

  lemma RowsLaterStep(w: Rows, w': Rows, w'': Rows)
    requires RowsStep(w, w') && RowsLater(w', w'')
    ensures RowsLater(w, w'')
  {
    hide Unfolds;
    forall k <- w''.table ensures k in w''.incs && (w''.incs[k] >= w.nextInc || Continued(w, w'', k)) {
      if w''.incs[k] < w.nextInc {
        assert Continued(w', w'', k) && Continued(w, w', k);
        UnfoldsTransitive(w.table[k], w'.table[k], w''.table[k]);
      }
    }
  }

  lemma {:induction false} RunRows(s: Machine, steps: seq<Step>)
    requires Inv(s)
    ensures RowsLater(s.rows, Run(s, steps).rows)
    decreases |steps|
  {
    if steps == [] {
      RowAndLogFacts(s);
      hide Inv, LogInv, Audited;
      forall k <- s.rows.table ensures k in s.rows.incs {
        assert RowOk(s.rows, k);
      }
    } else {
      hide Inv, RowsStep, RowsLater, Next;
      StepKeeps(s, steps[0]);
      StepRows(s, steps[0]);
      RunRows(Next(s, steps[0]), steps[1..]);
      RowsLaterStep(s.rows, Next(s, steps[0]).rows, Run(s, steps).rows);
    }
  }

  /** While a row belongs to one incarnation it only moves forward, a terminal
      row is frozen, and an admin level, authorization metadata, execution
      identity, result or error payload once recorded never changes. `before` is
      any reachable moment. */
  lemma RowsOnlyEvolve(before: seq<Step>, steps: seq<Step>, k: Key)
    requires var s := Run(BOOT, before); k in s.rows.table && k in s.rows.incs
    requires var s' := Run(Run(BOOT, before), steps);
             k in s'.rows.table && k in s'.rows.incs && s'.rows.incs[k] == Run(BOOT, before).rows.incs[k]
    ensures Unfolds(Run(BOOT, before).rows.table[k], Run(Run(BOOT, before), steps).rows.table[k])
  {
    var s := Run(BOOT, before);
    BootHolds();
    RunKeeps(BOOT, before);
    RunRows(s, steps);
    KnownInc(s, k);
  }

  lemma KnownInc(s: Machine, k: Key)
    requires Inv(s) && k in s.rows.incs
    ensures s.rows.incs[k] < s.rows.nextInc
  {
    assert IncOk(s.rows, k);
  }

  // --------------------------------------------------------------- progress rank

  predicate Present(s: Machine, k: Key, i: nat) {
    k in s.rows.table && k in s.rows.incs && s.rows.incs[k] == i
  }

  /** How often the row of incarnation `i` of key `k` changes status in a run. */
  function StatusChanges(s: Machine, steps: seq<Step>, k: Key, i: nat): nat
    decreases |steps|
  {
    if steps == [] then 0
    else
      var s' := Next(s, steps[0]);
      (if Present(s, k, i) && Present(s', k, i) && s.rows.table[k].status != s'.rows.table[k].status then 1 else 0)
      + StatusChanges(s', steps[1..], k, i)
  }

  function ChangesLeft(s: Machine, k: Key, i: nat): nat {
    if Present(s, k, i) then 3 - Rank(s.rows.table[k].status) else if i < s.rows.nextInc then 0 else 3
  }

  lemma {:induction false} ChangesBounded(s: Machine, steps: seq<Step>, k: Key, i: nat)
    requires Inv(s)
    ensures StatusChanges(s, steps, k, i) <= ChangesLeft(s, k, i)
    decreases |steps|
  {
    hide Inv, Next;
    if steps != [] {
      var s' := Next(s, steps[0]);
      StepKeeps(s, steps[0]);
      StepRows(s, steps[0]);
      ChangesBounded(s', steps[1..], k, i);
      if Present(s, k, i) {
        KnownInc(s, k);
      }
      if Present(s', k, i) {
        KnownInc(s', k);
      }
    }
  }

  /** An incarnation changes status at most three times, whatever happens. */
  lemma ThreeChangesAtMost(steps: seq<Step>, k: Key, i: nat)
    ensures StatusChanges(BOOT, steps, k, i) <= 3
  {
    BootHolds();
    ChangesBounded(BOOT, steps, k, i);
  }

  // ---------------------------------------------------- fencing by reconciliation

  /** Incarnation `i` has no durable running intent and no unresolved row. */
  ghost predicate Settled(w: Rows, i: nat) {
    && i < w.nextInc && i !in w.ran
    && (forall k <- w.table :: k in w.incs && w.incs[k] == i ==> !Unresolved(w.table[k].status))
  }

  lemma SettledStep(w: Rows, w': Rows, i: nat)
    requires RowsStep(w, w') && Settled(w, i)
    ensures Settled(w', i)
  {
    forall k <- w'.table | k in w'.incs && w'.incs[k] == i ensures !Unresolved(w'.table[k].status) {
      assert Continued(w, w', k);
    }
  }

  lemma {:induction false} SettledForever(s: Machine, steps: seq<Step>, i: nat)
    requires Inv(s) && Settled(s.rows, i)
    ensures i !in Run(s, steps).rows.ran
    ensures forall d <- Run(s, steps).log.dispatches :: d.incarnation != i
    decreases |steps|
  {
    if steps == [] {
      RowAndLogFacts(s);
      assert forall d <- s.log.dispatches :: d.incarnation in s.log.confirmed && d.incarnation in s.rows.ran;
    } else {
      hide Inv, RowsStep, Settled, Next;
      StepKeeps(s, steps[0]);
      StepRows(s, steps[0]);
      SettledStep(s.rows, Next(s, steps[0]).rows, i);
      SettledForever(Next(s, steps[0]), steps[1..], i);
    }
  }

  /** A successful Reconcile opens the gate over a table with nothing
      unresolved, and whatever had no durable running intent at that moment can
      never be dispatched afterwards, by any handler then in flight or later. */
  lemma ReconcileFences(before: seq<Step>, h: nat, after: seq<Step>)
    requires var s := Run(BOOT, before); Inside(s, h) && s.handlers[h].pc.Opening?
    ensures var s := Run(BOOT, before);
            var s' := OpenGate(s, h);
            && s.blocked && !s'.blocked && s'.rows == s.rows && NoneUnresolved(s'.rows.table)
            && (forall i: nat :: i < s.rows.nextInc && i !in s.rows.ran ==>
                  forall d <- Run(s', after).log.dispatches :: d.incarnation != i)
  {
    var s := Run(BOOT, before);
    BootHolds();
    RunKeeps(BOOT, before);
    HandlerFacts(s, h);
    OpenGateKeeps(s, h);
    var s' := OpenGate(s, h);
    hide Inv, Run;
    forall i: nat | i < s.rows.nextInc && i !in s.rows.ran
      ensures forall d <- Run(s', after).log.dispatches :: d.incarnation != i
    {
      SettledForever(s', after, i);
    }
  }

  // ------------------------------------------------------------------------ audit

  /** What every reachable row records about who allowed it and who ran it. */
  lemma AuditTrail(steps: seq<Step>, k: Key)
    requires k in Run(BOOT, steps).rows.table
    ensures var r := Run(BOOT, steps).rows.table[k];
            && (r.status in {Accepted, Running, Succeeded, Failed, Unknown} ==>
                  r.adminLevel == Admin && r.authorizationMetadata.Some?)
            && (r.status in {Running, Succeeded, Failed, Unknown} ==>
                  r.executionUID.Some? && r.executionUsername != "" && r.executionBoundary != "")
            && (r.status in {Denied, AuthorizationFailed, Failed} ==> r.errorPayload.Some?)
            && (r.status == Succeeded ==> r.resultPayload.Some?)
  {
    BootHolds();
    RunKeeps(BOOT, steps);
    assert RowOk(Run(BOOT, steps).rows, k);
  }

  // ------------------------------------------------------------------ stable replay

  /** All answers ever built from a terminal record of one incarnation, by its
      owner or by replays, before or after crashes, are the same answer; and it
      is the one the stored row still gives. */
  lemma StableReplay(steps: seq<Step>, i: nat, j: nat)
    requires i < |Run(BOOT, steps).log.answers| && j < |Run(BOOT, steps).log.answers|
    ensures var s := Run(BOOT, steps);
            var (a, b) := (s.log.answers[i], s.log.answers[j]);
            && (a.incarnation == b.incarnation ==> a.reply == b.reply && a.record == b.record)
            && (forall k <- s.rows.table :: k in s.rows.incs && s.rows.incs[k] == a.incarnation ==>
                  s.rows.table[k] == a.record && a.reply == RecordResponse(s.rows.table[k]))
  {
    BootHolds();
    RunKeeps(BOOT, steps);
    var s := Run(BOOT, steps);
    var (a, b) := (s.log.answers[i], s.log.answers[j]);
    assert a in s.log.answers && b in s.log.answers;
    hide RecordResponse;
    forall k <- s.rows.table | k in s.rows.incs && s.rows.incs[k] == a.incarnation
      ensures s.rows.table[k] == a.record
    {
      assert RowOk(s.rows, k);
    }
  }

  lemma FinalMove(s: Machine, h: nat, now: int)
    requires Inside(s, h) && s.handlers[h].pc.Moving? && s.handlers[h].pc.to != Accepted && s.handlers[h].pc.to != Running
    requires Matches(s.rows.table, KeyOf(s.handlers[h]), s.handlers[h].pc.from) && KeyOf(s.handlers[h]) in s.rows.incs
    ensures CommitMove(s, h, now, NoFault, ReadOk).handlers
            == s.handlers[h := s.handlers[h].(pc := Leaving(s.handlers[h].pc.reply))]
  {
    hide WriteStatus;
  }

  /** The owner returns exactly what a replay of its own row returns. */
  lemma OwnersAnswer(s: Machine, h: nat, now: int)
    requires Inv(s) && Inside(s, h) && s.handlers[h].pc.Moving? && !Unresolved(s.handlers[h].pc.to)
    requires Matches(s.rows.table, KeyOf(s.handlers[h]), s.handlers[h].pc.from) && KeyOf(s.handlers[h]) in s.rows.incs
    ensures var x := s.handlers[h];
            var w := WriteStatus(s.rows, KeyOf(x), x.pc.to, x.pc.data, now);
            && KeyOf(x) in w.table && w.table[KeyOf(x)].status == x.pc.to
            && CommitMove(s, h, now, NoFault, ReadOk).handlers
               == s.handlers[h := x.(pc := Leaving(RecordResponse(w.table[KeyOf(x)])))]
  {
    hide Inv, RowsInv, LogInv, LockOk, HandlerOk, RecordResponse, MoveOk, CommitMove, WriteStatus, Matches;
    HandlerFacts(s, h);
    HandlerLine(s, h);
    RowAndLogFacts(s);
    WriteStatusRows(s.rows, s.handlers[h], now);
    FinalMove(s, h, now);
  }

  // ------------------------------------------------ what an unknown outcome replays

  /** The design asks for every unknown outcome to replay as a non-retryable
      command-outcome-unknown error. The code does so exactly when the owner
      wrote the outcome itself. A row that recovery moved to unknown stores no
      payload and replays as a retryable internal error. */
  lemma UnknownReplay(steps: seq<Step>, k: Key)
    requires k in Run(BOOT, steps).rows.table && Run(BOOT, steps).rows.table[k].status == Unknown
    ensures var r := Run(BOOT, steps).rows.table[k];
            var reply := RecordResponse(r);
            && reply.ErrorReply?
            && (reply.error == UncertainError(k.commandID) <==> r.errorPayload.Some?)
            && (reply.error.retryable <==> r.errorPayload.None?)
            && (r.errorPayload.None? ==> reply == UnavailableReply(k.commandID))
  {
    BootHolds();
    RunKeeps(BOOT, steps);
    assert RowOk(Run(BOOT, steps).rows, k);
  }

  lemma RecoveredUnknownIsRetryable(steps: seq<Step>, k: Key, now: int)
    requires k in Run(BOOT, steps).rows.table && Run(BOOT, steps).rows.table[k].status == Running
    ensures var r := RecoverRecord(Run(BOOT, steps).rows.table[k], now);
            r.status == Unknown && r.errorPayload.None? && RecordResponse(r) == UnavailableReply(k.commandID)
  {
    BootHolds();
    RunKeeps(BOOT, steps);
    assert RowOk(Run(BOOT, steps).rows, k);
  }

  // ----------------------------------------------------------------- one lock per key

  /** Two handlers wait for one another exactly if they are at one service object
      and want one command ID of one caller. */
  lemma SameLockExactly(x: Handler, y: Handler)
    ensures LockKeyOf(x) == LockKeyOf(y) <==>
              && x.service == y.service
              && x.request.claim.key.callerUID == y.request.claim.key.callerUID
              && x.request.claim.key.commandID == y.request.claim.key.commandID
  {
    if LockKeyOf(x) == LockKeyOf(y) {
      RequestLocks.LockNameInjective(KeyOf(x).callerUID, KeyOf(x).commandID, KeyOf(y).callerUID, KeyOf(y).commandID);
    }
  }
}
