/** Replays call nobody: a handler that finds a row, or a closed gate, or another
    request's fingerprint, asks neither the authorizer nor the executor. */
module CommandReplay {
  import opened Wrappers
  import opened Ledger
  import opened CommandService
  import opened CommandInvariants
  import opened CommandSteps

  /** Once a handler has stopped owning work, or found somebody else's row. */
  predicate Retired(pc: Pc) {
    || pc.Awaiting? || pc.Polling? || pc.Repairing? || pc.Reconciling? || pc.Recovering? || pc.Verifying?
    || pc.Opening? || pc.Leaving? || pc.Dropping? || pc.Done?
  }

  function CallsBy(calls: seq<Call>, h: nat): nat {
    if calls == [] then 0
    else CallsBy(calls[..|calls| - 1], h) + (if calls[|calls| - 1].handler == h then 1 else 0)
  }

  predicate Idle(s: Machine, h: nat) {
    h < s.nextHandler && (h in s.handlers ==> Retired(s.handlers[h].pc))
  }

  predicate StaysIdle(s: Machine, s': Machine, h: nat) {
    && Idle(s', h)
    && CallsBy(s'.log.authorizations, h) == CallsBy(s.log.authorizations, h)
    && CallsBy(s'.log.dispatches, h) == CallsBy(s.log.dispatches, h)
  }

  lemma IdleEntry(s: Machine, a: Step, h: nat)
    requires Idle(s, h)
    requires a.DoArrive? || a.DoCheckAdmission? || a.DoLockRef? || a.DoLockAcquire? || a.DoValidate? || a.DoEnterWriter?
    ensures StaysIdle(s, Next(s, a), h)
  {
    hide RequestLocks.Ref, RequestLocks.Acquire, ValidClaim, Admissible, CallsBy;
  }

  lemma IdleReading(s: Machine, a: Step, h: nat)
    requires Idle(s, h) && (a.DoLookUp? || a.DoPoll? || a.DoAwait? || a.DoCheckGate?)
    ensures StaysIdle(s, Next(s, a), h)
  {
    hide Find, Note, RecordResponse, CallsBy;
  }

  lemma IdleLeaving(s: Machine, a: Step, h: nat)
    requires Idle(s, h)
    requires a.DoLockRelease? || a.DoLockUnref? || a.DoRecoverRows? || a.DoVerifyRows? || a.DoOpenGate? || a.DoCrash? || a.DoReopen?
    ensures StaysIdle(s, Next(s, a), h)
  {
    hide RequestLocks.Release, RequestLocks.Unref, Recover, Purge, CallsBy;
  }

  lemma IdleCommits(s: Machine, a: Step, h: nat)
    requires Idle(s, h) && (a.DoCommitClaim? || a.DoCommitMove?)
    ensures StaysIdle(s, Next(s, a), h)
  {
    hide CommitClaim, CommitMove, CallsBy;
    if a.DoCommitClaim? {
      IdleClaim(s, a.h, a.now, a.fault, h);
    } else {
      IdleMove(s, a.h, a.now, a.fault, a.readFault, h);
    }
  }

  lemma IdleClaim(s: Machine, g: nat, now: int, fault: TxFault, h: nat)
    requires Idle(s, h)
    ensures StaysIdle(s, CommitClaim(s, g, now, fault), h)
  {
    hide ReserveTx, Note, InsertRow, CallsBy;
  }

  lemma IdleMove(s: Machine, g: nat, now: int, fault: TxFault, read: ReadFault, h: nat)
    requires Idle(s, h)
    ensures StaysIdle(s, CommitMove(s, g, now, fault, read), h)
  {
    hide WriteStatus, RunningData, CallsBy, Matches;
  }

  lemma IdleCalls(s: Machine, a: Step, h: nat)
    requires Idle(s, h) && (a.DoAuthorize? || a.DoCallExecutor? || a.DoExecutorReturns?)
    ensures StaysIdle(s, Next(s, a), h)
  {
    hide Decide, Conclude, CallsBy;
    if a.DoAuthorize? {
      hide CallExecutor, ExecutorReturns;
      OneMoreBy(s.log.authorizations, Next(s, a).log.authorizations, h);
    } else if a.DoCallExecutor? {
      hide Authorize, ExecutorReturns;
      OneMoreBy(s.log.dispatches, Next(s, a).log.dispatches, h);
    } else {
      hide Authorize, CallExecutor;
    }
  }

  lemma OneMoreBy(before: seq<Call>, after: seq<Call>, h: nat)
    requires after == before || (after != [] && after == before + [after[|after| - 1]] && after[|after| - 1].handler != h)
    ensures CallsBy(after, h) == CallsBy(before, h)
  {
    if after != before {
      assert after[..|after| - 1] == before;
    }
  }

  lemma {:induction false} ReplayCallsNobody(s: Machine, steps: seq<Step>, h: nat)
    requires Idle(s, h)
    ensures StaysIdle(s, Run(s, steps), h)
    decreases |steps|
  {
    hide Next, CallsBy;
    if steps != [] {
      var a := steps[0];
      if a.DoCommitClaim? || a.DoCommitMove? {
        IdleCommits(s, a, h);
      } else if a.DoAuthorize? || a.DoCallExecutor? || a.DoExecutorReturns? {
        IdleCalls(s, a, h);
      } else if a.DoLookUp? || a.DoPoll? || a.DoAwait? || a.DoCheckGate? {
        IdleReading(s, a, h);
      } else if a.DoArrive? || a.DoCheckAdmission? || a.DoLockRef? || a.DoLockAcquire? || a.DoValidate? || a.DoEnterWriter? {
        IdleEntry(s, a, h);
      } else {
        IdleLeaving(s, a, h);
      }
      ReplayCallsNobody(Next(s, a), steps[1..], h);
    }
  }

  /** A claim or a transition that finds the gate closed changes no row and makes
      no call, and its handler never makes one again. */
  lemma ClosedGateAdmitsNothing(s: Machine, h: nat, steps: seq<Step>)
    requires At(s, h) && h < s.nextHandler && s.writer.None? && s.blocked && (s.handlers[h].pc.Reserving? || s.handlers[h].pc.Moving?)
    ensures var s' := EnterWriter(s, h);
            && s'.rows == s.rows && s'.log == s.log && s'.writer.None? && s'.blocked
            && StaysIdle(s', Run(s', steps), h)
  {
    hide Run;
    ReplayCallsNobody(EnterWriter(s, h), steps, h);
  }

  /** The three ways to come upon a row. */
  function FindsRow(s: Machine, h: nat, now: int): Machine
    requires h in s.handlers
  {
    if s.handlers[h].pc.LookingUp? then LookUp(s, h, now, ReadOk)
    else if s.handlers[h].pc.Polling? then Poll(s, h, false, now, ReadOk)
    else CommitClaim(s, h, now, NoFault)
  }

  /** A row found under another fingerprint, by the lookup, while waiting, or by
      the claim, is left alone and answered with a conflict, and the handler
      calls nobody any more. */
  lemma DifferentFingerprint(s: Machine, h: nat, now: int, steps: seq<Step>)
    requires At(s, h) && h < s.nextHandler
    requires var pc := s.handlers[h].pc; pc.LookingUp? || pc.Polling? || (pc.Reserving? && s.writer == Some(h))
    requires var r := Find(s.rows.table, KeyOf(s.handlers[h]), now);
             r.Some? && r.value.claim.requestFingerprint != s.handlers[h].request.claim.requestFingerprint
    ensures var s' := FindsRow(s, h, now);
            && s'.handlers == s.handlers[h := s.handlers[h].(pc := Leaving(ConflictReply(IdOf(s.handlers[h]))))]
            && s'.rows == s.rows && s'.log == s.log
            && StaysIdle(s', Run(s', steps), h)
  {
    ConflictFound(s, h, now);
    hide Run, FindsRow, ConflictReply, Find;
    ReplayCallsNobody(FindsRow(s, h, now), steps, h);
  }

  lemma ConflictFound(s: Machine, h: nat, now: int)
    requires At(s, h)
    requires var pc := s.handlers[h].pc; pc.LookingUp? || pc.Polling? || (pc.Reserving? && s.writer == Some(h))
    requires var r := Find(s.rows.table, KeyOf(s.handlers[h]), now);
             r.Some? && r.value.claim.requestFingerprint != s.handlers[h].request.claim.requestFingerprint
    ensures var s' := FindsRow(s, h, now);
            && s'.handlers == s.handlers[h := s.handlers[h].(pc := Leaving(ConflictReply(IdOf(s.handlers[h]))))]
            && s'.rows == s.rows && s'.log == s.log && s'.nextHandler == s.nextHandler
  {
    assert s.handlers[h].pc.Reserving? ==> ReserveTx(s.rows.table, s.handlers[h].request.claim, now).Conflict?;
    hide ConflictReply, ReserveTx, InsertRow;
  }

  // ------------------------------------------------------- before the row was found

  /** Program counters from which nobody has been asked yet. */
  predicate NotAskedYet(pc: Pc) {
    || pc.Start? || pc.Admitted? || pc.Waiting? || pc.LookingUp? || pc.Validating? || pc.Reserving?
    || pc.Awaiting? || pc.Polling?
  }

  predicate Asked(s: Machine, h: nat) {
    h < s.nextHandler && (h in s.handlers ==> !NotAskedYet(s.handlers[h].pc))
  }

  ghost predicate AskedInv(s: Machine) {
    && (forall c <- s.log.authorizations :: Asked(s, c.handler))
    && (forall c <- s.log.dispatches :: Asked(s, c.handler))
  }

  /** No call is made, and no handler goes back to not having asked. */
  predicate NobodyAsks(s: Machine, s': Machine) {
    && s'.log.authorizations == s.log.authorizations && s'.log.dispatches == s.log.dispatches
    && OnlyForward(s, s')
  }

  predicate OnlyForward(s: Machine, s': Machine) {
    && s.nextHandler <= s'.nextHandler
    && (forall h <- s'.handlers :: h < s.nextHandler && NotAskedYet(s'.handlers[h].pc) ==>
          h in s.handlers && NotAskedYet(s.handlers[h].pc))
  }

  lemma EntryAsksNobody(s: Machine, a: Step)
    requires a.DoArrive? || a.DoCheckAdmission? || a.DoLockRef? || a.DoLockAcquire? || a.DoValidate? || a.DoEnterWriter?
    ensures NobodyAsks(s, Next(s, a))
  {
    hide RequestLocks.Ref, RequestLocks.Acquire, ValidClaim, Admissible;
  }

  lemma ReadingAsksNobody(s: Machine, a: Step)
    requires a.DoLookUp? || a.DoPoll?
    ensures NobodyAsks(s, Next(s, a))
  {
    hide Find, Note;
  }

  lemma WaitingAsksNobody(s: Machine, a: Step)
    requires a.DoAwait? || a.DoCheckGate?
    ensures NobodyAsks(s, Next(s, a))
  {
    hide RecordResponse;
  }

  lemma LeavingAsksNobody(s: Machine, a: Step)
    requires a.DoLockRelease? || a.DoLockUnref? || a.DoVerifyRows? || a.DoOpenGate?
    ensures NobodyAsks(s, Next(s, a))
  {
    hide RequestLocks.Release, RequestLocks.Unref, NoneUnresolved;
  }

  lemma RecoveryAsksNobody(s: Machine, a: Step)
    requires a.DoRecoverRows? || a.DoCrash? || a.DoReopen?
    ensures NobodyAsks(s, Next(s, a))
  {
    hide Recover, Purge;
  }

  lemma ClaimAsksNobody(s: Machine, h: nat, now: int, fault: TxFault)
    ensures NobodyAsks(s, CommitClaim(s, h, now, fault))
  {
    hide ReserveTx, Note, InsertRow;
  }

  lemma MoveAsksNobody(s: Machine, h: nat, now: int, fault: TxFault, read: ReadFault)
    ensures NobodyAsks(s, CommitMove(s, h, now, fault, read))
  {
    hide WriteStatus, RunningData, Matches;
  }

  lemma ReturnAsksNobody(s: Machine, h: nat, o: Outcome)
    ensures NobodyAsks(s, ExecutorReturns(s, h, o))
  {
    if At(s, h) && s.handlers[h].pc.InFlight? {
      ConcludeOk(s.handlers[h], o);
    }
    hide Conclude, MoveOk;
  }

  /** The two steps that make a call: the caller is past not having asked. */
  lemma CallsAsk(s: Machine, a: Step)
    requires a.DoAuthorize? || a.DoCallExecutor?
    requires forall h <- s.handlers :: h < s.nextHandler
    ensures var s' := Next(s, a);
            && OnlyForward(s, s')
            && (forall c <- s'.log.authorizations :: c in s.log.authorizations || Asked(s', c.handler))
            && (forall c <- s'.log.dispatches :: c in s.log.dispatches || Asked(s', c.handler))
  {
    if a.DoAuthorize? && At(s, a.h) && s.handlers[a.h].pc.Authorizing? {
      DecideOk(s.handlers[a.h], a.decision);
    }
    hide Decide, MoveOk;
  }

  lemma AskedKeeps(s: Machine, s': Machine)
    requires AskedInv(s) && OnlyForward(s, s')
    requires forall c <- s'.log.authorizations :: c in s.log.authorizations || Asked(s', c.handler)
    requires forall c <- s'.log.dispatches :: c in s.log.dispatches || Asked(s', c.handler)
    ensures AskedInv(s')
  {
    forall h: nat | Asked(s, h) ensures Asked(s', h) {
    }
    hide Asked;
  }

  lemma {:induction false} StepAsked(s: Machine, a: Step)
    requires Inv(s) && AskedInv(s)
    ensures AskedInv(Next(s, a))
  {
    if a.DoAuthorize? || a.DoCallExecutor? {
      assert LocksInv(s);
      CallsAsk(s, a);
    } else if a.DoExecutorReturns? {
      ReturnAsksNobody(s, a.h, a.outcome);
    } else if a.DoCommitClaim? {
      ClaimAsksNobody(s, a.h, a.now, a.fault);
    } else if a.DoCommitMove? {
      MoveAsksNobody(s, a.h, a.now, a.fault, a.readFault);
    } else if a.DoRecoverRows? || a.DoCrash? || a.DoReopen? {
      RecoveryAsksNobody(s, a);
    } else if a.DoLookUp? || a.DoPoll? {
      ReadingAsksNobody(s, a);
    } else if a.DoAwait? || a.DoCheckGate? {
      WaitingAsksNobody(s, a);
    } else if a.DoArrive? || a.DoCheckAdmission? || a.DoLockRef? || a.DoLockAcquire? || a.DoValidate? || a.DoEnterWriter? {
      EntryAsksNobody(s, a);
    } else {
      LeavingAsksNobody(s, a);
    }
    hide Inv, LocksInv, Next, AskedInv, OnlyForward;
    AskedKeeps(s, Next(s, a));
  }

  lemma {:induction false} RunAsked(s: Machine, steps: seq<Step>)
    requires Inv(s) && AskedInv(s)
    ensures AskedInv(Run(s, steps))
    decreases |steps|
  {
    hide Inv, Next, AskedInv;
    if steps != [] {
      StepKeeps(s, steps[0]);
      StepAsked(s, steps[0]);
      RunAsked(Next(s, steps[0]), steps[1..]);
    }
  }

  lemma {:induction false} NoneBy(calls: seq<Call>, h: nat)
    requires forall c <- calls :: c.handler != h
    ensures CallsBy(calls, h) == 0
  {
    if calls != [] {
      NoneBy(calls[..|calls| - 1], h);
    }
  }

  lemma BootAsked()
    ensures AskedInv(BOOT)
  {
  }

  lemma NotAskedSoFar(s: Machine, h: nat)
    requires Inv(s) && AskedInv(s) && h in s.handlers && NotAskedYet(s.handlers[h].pc)
    ensures h < s.nextHandler && CallsBy(s.log.authorizations, h) == 0 && CallsBy(s.log.dispatches, h) == 0
  {
    assert LocksInv(s);
    hide Inv, CallsBy;
    NoneBy(s.log.authorizations, h);
    NoneBy(s.log.dispatches, h);
  }

  /** A handler that found a row has asked nobody before and asks nobody after,
      in any run. */
  lemma {:induction false} FinderCallsNobody(before: seq<Step>, after: seq<Step>, h: nat)
    requires var s := Run(BOOT, before);
             h in s.handlers && (s.handlers[h].pc.Awaiting? || s.handlers[h].pc.Polling?)
    ensures var g := Run(Run(BOOT, before), after).log;
            CallsBy(g.authorizations, h) == 0 && CallsBy(g.dispatches, h) == 0
  {
    hide Run, Inv, AskedInv, CallsBy;
    BootHolds();
    BootAsked();
    RunKeeps(BOOT, before);
    RunAsked(BOOT, before);
    NotAskedSoFar(Run(BOOT, before), h);
    ReplayCallsNobody(Run(BOOT, before), after, h);
  }
}
