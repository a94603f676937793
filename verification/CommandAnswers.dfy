/** What the rows and the replies of a whole run say is so. */
module CommandAnswers {
  import opened Wrappers
  import opened Ledger
  import opened CommandService
  import opened CommandInvariants
  import opened CommandSteps
  import opened CommandTheorems
  import opened CommandOwnClaims
  import opened CommandPermission
  import opened CommandMeanings
  import opened CommandTruth
  import opened CommandTruthSteps

  lemma CalmStepTrue(s: Machine, a: Step)
    requires Inv(s) && TruthInv(s) && Grows(s.rows, s.log, Next(s, a).rows, Next(s, a).log)
    requires !(a.DoArrive? || a.DoLookUp? || a.DoPoll? || a.DoAwait? || a.DoCommitClaim? || a.DoAuthorize? || a.DoCommitMove?
               || a.DoExecutorReturns?)
    ensures TruthInv(Next(s, a))
  {
    var s' := Next(s, a);
    hide Next, Inv, Grows, CalmStep, TruthInv;
    if a.DoRecoverRows? || a.DoVerifyRows? || a.DoOpenGate? {
      ReconcileCalm(s, a);
    } else if a.DoLockRelease? || a.DoLockUnref? || a.DoCrash? || a.DoReopen? {
      LeaveCalm(s, a);
    } else if a.DoCallExecutor? {
      CallExecutorCalm(s, a);
    } else if a.DoEnterWriter? {
      EnterWriterCalm(s, a.h);
      EnterStep(s, a);
    } else if a.DoCheckGate? || a.DoValidate? {
      CheckCalm(s, a);
    } else {
      LockCalm(s, a);
    }
    if a.DoRecoverRows? || a.DoReopen? {
      RecoveredTable(s, a);
      RecoveryTrue(s, s', a.now);
    } else {
      if a.DoLockRelease? || a.DoLockUnref? || a.DoVerifyRows? || a.DoOpenGate? || a.DoCrash? {
        EndRows(s, a);
      }
      RowsStayKnown(s, s');
    }
    CalmKeeps(s, s');
  }

  lemma EnterStep(s: Machine, a: Step)
    requires a.DoEnterWriter?
    ensures Next(s, a) == EnterWriter(s, a.h)
  {
  }

  lemma EndRows(s: Machine, a: Step)
    requires a.DoLockRelease? || a.DoLockUnref? || a.DoVerifyRows? || a.DoOpenGate? || a.DoCrash?
    ensures Next(s, a).rows == s.rows
  {
    hide RequestLocks.Release, RequestLocks.Unref, NoneUnresolved;
  }

  lemma StepTruth(arrivals: iset<Arrival>, s: Machine, a: Step)
    requires Inv(s) && OwnWork(arrivals, s) && TruthInv(s)
    ensures TruthInv(Next(s, a))
  {
    ArrivedBefore(s);
    hide Inv, Grows, TruthInv, OwnLine, OwnCalls, Arrive, CheckAdmission, LockRef, LockAcquire, LookUp, Validate, Await, Poll,
         EnterWriter, CommitClaim, Authorize, CommitMove, CallExecutor, ExecutorReturns, CheckGate, RecoverRows,
         VerifyRows, OpenGate, LockRelease, LockUnref, Crash, Reopen;
    StepGrows(s, a);
    match a {
      case DoArrive(service, request) => ArriveTrue(s, service, request);
      case DoLookUp(_, _, _) => ReadTrue(s, a);
      case DoPoll(_, _, _, _) => ReadTrue(s, a);
      case DoAwait(_) => AwaitTrue(s, a);
      case DoCommitClaim(h, now, fault) => ClaimTrue(s, h, now, fault);
      case DoAuthorize(h, d) => AuthorizeTrue(s, h, d);
      case DoCommitMove(h, now, fault, read) => MoveTrue(arrivals, s, h, now, fault, read);
      case DoExecutorReturns(h, o) => ReturnTrue(arrivals, s, h, o);
      case _ => CalmStepTrue(s, a);
    }
  }

  lemma ArrivedBefore(s: Machine)
    requires TruthInv(s)
    ensures forall h <- s.log.arrived :: h < s.nextHandler
  {
    hide RowTrue, HandlerTrue, ConsultInv;
  }

  lemma {:induction false} RunTruth(arrivals: iset<Arrival>, s: Machine, steps: seq<Step>)
    requires KeysApart(arrivals) && RunsOver(arrivals, steps) && Inv(s) && OwnWork(arrivals, s) && TruthInv(s)
    ensures TruthInv(Run(s, steps)) && Inv(Run(s, steps))
    decreases |steps|
  {
    hide Inv, Next, OwnWork, TruthInv;
    if steps != [] {
      assert steps[0] in steps;
      StepKeeps(s, steps[0]);
      OwnWorkStep(arrivals, s, steps[0]);
      StepTruth(arrivals, s, steps[0]);
      RunTruth(arrivals, Next(s, steps[0]), steps[1..]);
    }
  }

  lemma BootTrue()
    ensures TruthInv(BOOT)
  {
  }

  lemma TrueSoFar(arrivals: iset<Arrival>, steps: seq<Step>)
    requires KeysApart(arrivals) && RunsOver(arrivals, steps)
    ensures TruthInv(Run(BOOT, steps)) && Inv(Run(BOOT, steps))
  {
    hide Inv, TruthInv, OwnWork, Run;
    BootHolds();
    BootTrue();
    BootOwnWork(arrivals);
    RunTruth(arrivals, BOOT, steps);
  }

  // ----------------------------------------------------------------------- the rows

  /** Every stored record is the account of its own incarnation: the claim is the
      one its handler arrived with, a refusal or a failed authorization is the
      authorizer's decision about it, a permission likewise, the execution
      identity is its request's, and an outcome is what the executor returned for
      it. */
  lemma EveryRecord(arrivals: iset<Arrival>, steps: seq<Step>, k: Key)
    requires KeysApart(arrivals) && RunsOver(arrivals, steps) && k in Run(BOOT, steps).rows.table
    ensures var s := Run(BOOT, steps);
            k in s.rows.incs && RecordTrue(s.rows, s.log, s.rows.incs[k], s.rows.table[k])
  {
    hide Run, Inv, RecordTrue;
    TrueSoFar(arrivals, steps);
    assert RowTrue(Run(BOOT, steps).rows, Run(BOOT, steps).log, k);
  }

  /** A row and the authorizer's decision about its incarnation: a clear refusal
      leaves it denied, a permission lets it go on, anything else ends in a
      failed authorization, unless the decision was never committed. Without a
      decision the row is pending or was recovered. */
  lemma RowsFollowDecisions(arrivals: iset<Arrival>, steps: seq<Step>, k: Key, d: Decision)
    requires KeysApart(arrivals) && RunsOver(arrivals, steps) && k in Run(BOOT, steps).rows.table
    ensures var s := Run(BOOT, steps);
            k in s.rows.incs && s.rows.incs[k] in s.rows.origin
    ensures var s := Run(BOOT, steps);
            var (i, r) := (s.rows.incs[k], s.rows.table[k]);
            && (Consultation(s.rows.origin[i].handler, i, r.claim, d) in s.log.consulted
                && r.status != AuthorizationPending && r.status != AuthorizationUncertain ==>
                  && (r.status == Denied <==> Refuses(r.claim, d))
                  && (r.status == AuthorizationFailed <==> !Permits(r.claim, d) && !Refuses(r.claim, d))
                  && (r.status in {Accepted, Running, Succeeded, Failed, Unknown} <==> Permits(r.claim, d)))
            && (r.status != AuthorizationPending && r.status != AuthorizationUncertain ==>
                  exists e :: Consultation(s.rows.origin[i].handler, i, r.claim, e) in s.log.consulted)
  {
    EveryRecord(arrivals, steps, k);
    TrueSoFar(arrivals, steps);
    var s := Run(BOOT, steps);
    OneDecision(s);
    hide Run, Inv, TruthInv;
    var (i, r) := (s.rows.incs[k], s.rows.table[k]);
    if r.status == Denied || r.status == AuthorizationFailed {
      var e :| Ruled(s.rows, s.log, i, e) && RefusedWith(r.claim, e, r.status, r.errorPayload.value);
    } else if r.status != AuthorizationPending && r.status != AuthorizationUncertain {
      var e :| Ruled(s.rows, s.log, i, e) && GrantedAs(r.claim, e, r.adminLevel, r.authorizationMetadata);
    }
  }

  lemma OneDecision(s: Machine)
    requires TruthInv(s)
    ensures forall a <- s.log.consulted, b <- s.log.consulted :: a.incarnation == b.incarnation ==> a == b
  {
    hide RowTrue, HandlerTrue;
  }

  // --------------------------------------------------------------------- the replies

  /** Every reply is true. */
  lemma EveryReply(arrivals: iset<Arrival>, steps: seq<Step>, h: nat)
    requires KeysApart(arrivals) && RunsOver(arrivals, steps)
    requires h in Run(BOOT, steps).handlers && Replying(Run(BOOT, steps).handlers[h].pc)
    ensures var s := Run(BOOT, steps); ReplyTrue(s.rows, s.log, s.handlers[h], s.handlers[h].pc.reply)
  {
    hide Run, Inv, ReplyTrue;
    TrueSoFar(arrivals, steps);
    assert HandlerTrue(Run(BOOT, steps).rows, Run(BOOT, steps).log, h, Run(BOOT, steps).handlers[h]);
  }

  /** Who is told that a command succeeded asked for a command that the executor
      was given and reported as succeeded, and is told its node and its state. */
  lemma SuccessIsReal(arrivals: iset<Arrival>, steps: seq<Step>, h: nat, p: CommandResponse)
    requires KeysApart(arrivals) && RunsOver(arrivals, steps)
    requires h in Run(BOOT, steps).handlers && Replying(Run(BOOT, steps).handlers[h].pc)
    requires Run(BOOT, steps).handlers[h].pc.reply == Response(Some(p)) && p.status == StatusSucceeded
    ensures var s := Run(BOOT, steps);
            exists i <- s.rows.origin ::
              && Return(i, OutcomeSucceeded) in s.log.returned
              && s.rows.origin[i].claim.key == KeyOf(s.handlers[h])
              && s.rows.origin[i].claim.requestFingerprint == s.handlers[h].request.claim.requestFingerprint
              && s.rows.origin[i].handler in s.log.arrived
              && p.commandID == IdOf(s.handlers[h]) && p.targetNode == Some(s.rows.origin[i].claim.targetNode)
              && p.state == Some(s.log.arrived[s.rows.origin[i].handler].state)
  {
    EveryReply(arrivals, steps, h);
    var s := Run(BOOT, steps);
    hide Run;
    var i: nat :| Known(s.rows, s.log, i) && Mine(s.rows, s.handlers[h], i) && ResponseTrue(s.rows, s.log, i, p);
    assert i in s.rows.origin;
  }

  /** Who is told that authorization was denied, or that its outcome is unknown,
      asked for a command that was not and never will be handed to the executor
      under that incarnation. */
  lemma RefusalIsFinal(arrivals: iset<Arrival>, steps: seq<Step>, h: nat, later: seq<Step>)
    requires KeysApart(arrivals) && RunsOver(arrivals, steps)
    requires h in Run(BOOT, steps).handlers && Replying(Run(BOOT, steps).handlers[h].pc)
    requires var reply := Run(BOOT, steps).handlers[h].pc.reply;
             reply.ErrorReply? && reply.error.code in {AuthorizationDeniedCode, AuthorizationOutcomeUnknownCode, UserLookupFailedCode}
    ensures var s := Run(BOOT, steps);
            exists i <- s.rows.origin ::
              && s.rows.origin[i].claim.key == KeyOf(s.handlers[h])
              && s.rows.origin[i].claim.requestFingerprint == s.handlers[h].request.claim.requestFingerprint
              && forall c <- Run(s, later).log.dispatches :: c.incarnation != i
  {
    hide Run, Inv, TruthInv, Settled, RefusalTrue, Ruled, Plain;
    EveryReply(arrivals, steps, h);
    var s := Run(BOOT, steps);
    TrueSoFar(arrivals, steps);
    var e := s.handlers[h].pc.reply.error;
    NotPlain(s.handlers[h], e);
    var i: nat :| Known(s.rows, s.log, i) && Mine(s.rows, s.handlers[h], i) && ErrorTrue(s.rows, s.log, i, e);
    SettledForever(s, later, i);
    assert i in s.rows.origin;
  }

  lemma NotPlain(x: Handler, e: ErrorPayload)
    requires e.code in {AuthorizationDeniedCode, AuthorizationOutcomeUnknownCode, UserLookupFailedCode}
    ensures !Plain(x, e)
  {
  }
}
