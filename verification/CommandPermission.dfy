/** Nothing is executed that the authorizer did not permit: for every run, over
    any number of services, each executor call goes back to a decision the same
    handler obtained for the same claim. */
module CommandPermission {
  import opened Ledger
  import opened CommandService
  import opened CommandInvariants
  import opened CommandSteps

  /** A decision that lets a claim through: allowed, for the requester and the
      capability that were asked about, by a current administrator. */
  predicate Permits(c: Claim, d: Decision) {
    && d.Decision? && d.allowed && d.adminLevel == Admin
    && d.requiredCapability == c.requiredCapability
    && d.uid == c.key.callerUID && d.gid == c.requestingGID && d.username == c.requestingUsername
  }

  ghost predicate Permitted(g: Log, h: nat, c: Claim) {
    exists i, d :: Consultation(h, i, c, d) in g.consulted && Permits(c, d)
  }

  ghost predicate PermitInv(g: Log) {
    && (forall a <- g.approvals :: Permitted(g, a.handler, a.claim))
    && (forall a <- g.dispatches :: Permitted(g, a.handler, a.claim))
  }

  /** The authorization gate: a handler goes on to the accepted transition
      exactly on a permitting decision. */
  lemma AcceptsExactlyPermitted(x: Handler, d: Decision)
    ensures Decide(x, d).Moving? && (Decide(x, d).to == Accepted <==> Permits(x.request.claim, d))
    ensures Decide(x, d).to != Accepted ==> Decide(x, d).to == Denied || Decide(x, d).to == AuthorizationFailed
    ensures Decide(x, d).to == Denied ==> d.Decision? && !d.allowed
  {
  }

  predicate SameCalls(g: Log, g': Log) {
    g'.approvals == g.approvals && g'.dispatches == g.dispatches && g'.consulted == g.consulted
  }

  lemma EntryCalls(s: Machine, a: Step)
    requires a.DoArrive? || a.DoCheckAdmission? || a.DoLockRef? || a.DoLockAcquire? || a.DoValidate? || a.DoEnterWriter?
    ensures SameCalls(s.log, Next(s, a).log)
  {
    hide RequestLocks.Ref, RequestLocks.Acquire, ValidClaim, Admissible;
  }

  lemma ReadingCalls(s: Machine, a: Step)
    requires a.DoLookUp? || a.DoPoll? || a.DoAwait? || a.DoCheckGate? || a.DoExecutorReturns?
    ensures SameCalls(s.log, Next(s, a).log)
  {
    hide Find, Note, RecordResponse, Conclude;
  }

  lemma LeavingCalls(s: Machine, a: Step)
    requires a.DoLockRelease? || a.DoLockUnref? || a.DoRecoverRows? || a.DoVerifyRows? || a.DoOpenGate? || a.DoCrash? || a.DoReopen?
    ensures SameCalls(s.log, Next(s, a).log)
  {
    hide RequestLocks.Release, RequestLocks.Unref, Recover, Purge;
  }

  lemma CommitCalls(s: Machine, a: Step)
    requires a.DoCommitClaim? || a.DoCommitMove?
    ensures SameCalls(s.log, Next(s, a).log)
  {
    hide ReserveTx, Note, InsertRow, WriteStatus, RunningData, Matches;
  }

  lemma AuthorizePermits(s: Machine, h: nat, d: Decision)
    requires PermitInv(s.log)
    ensures PermitInv(Authorize(s, h, d).log)
  {
    var g := Authorize(s, h, d).log;
    if g != s.log {
      var c := s.handlers[h].request.claim;
      AcceptsExactlyPermitted(s.handlers[h], d);
      hide Decide, Permits;
      assert Consultation(h, s.handlers[h].claimed.value, c, d) in g.consulted;
      forall k, x | Permitted(s.log, k, x) ensures Permitted(g, k, x) {
        var i, e :| Consultation(k, i, x, e) in s.log.consulted && Permits(x, e);
        assert Consultation(k, i, x, e) in g.consulted;
      }
    }
  }

  lemma ExecutingApproved(s: Machine, h: nat)
    requires Inv(s) && PermitInv(s.log) && h in s.handlers && s.handlers[h].pc.Executing?
    ensures Permitted(s.log, h, s.handlers[h].request.claim)
  {
    HandlerFacts(s, h);
    hide Inv, LockOk, Permits;
    assert Call(h, s.handlers[h].claimed.value, s.handlers[h].request.claim) in s.log.approvals;
  }

  lemma OneMoreCall(g: Log, c: Call)
    requires PermitInv(g) && Permitted(g, c.handler, c.claim)
    ensures PermitInv(g.(dispatches := g.dispatches + [c]))
  {
    hide Permits;
    var g' := g.(dispatches := g.dispatches + [c]);
    assert forall h, x :: Permitted(g, h, x) ==> Permitted(g', h, x);
  }

  lemma ExecutorPermits(s: Machine, h: nat)
    requires Inv(s) && PermitInv(s.log)
    ensures PermitInv(CallExecutor(s, h).log)
  {
    if At(s, h) && s.handlers[h].pc.Executing? {
      ExecutingApproved(s, h);
      hide Inv;
      OneMoreCall(s.log, Call(h, s.handlers[h].pc.tag, s.handlers[h].request.claim));
    }
  }

  lemma {:induction false} StepPermits(s: Machine, a: Step)
    requires Inv(s) && PermitInv(s.log)
    ensures PermitInv(Next(s, a).log)
  {
    if a.DoAuthorize? {
      AuthorizePermits(s, a.h, a.decision);
    } else if a.DoCallExecutor? {
      ExecutorPermits(s, a.h);
    } else {
      hide Inv, Next;
      if a.DoCommitClaim? || a.DoCommitMove? {
        CommitCalls(s, a);
      } else if a.DoLookUp? || a.DoPoll? || a.DoAwait? || a.DoCheckGate? || a.DoExecutorReturns? {
        ReadingCalls(s, a);
      } else if a.DoArrive? || a.DoCheckAdmission? || a.DoLockRef? || a.DoLockAcquire? || a.DoValidate? || a.DoEnterWriter? {
        EntryCalls(s, a);
      } else {
        LeavingCalls(s, a);
      }
      SameCallsPermit(s.log, Next(s, a).log);
    }
  }

  lemma SameCallsPermit(g: Log, g': Log)
    requires PermitInv(g) && SameCalls(g, g')
    ensures PermitInv(g')
  {
    hide Permits;
    assert forall h, c :: Permitted(g, h, c) ==> Permitted(g', h, c);
  }

  lemma {:induction false} RunPermits(s: Machine, steps: seq<Step>)
    requires Inv(s) && PermitInv(s.log)
    ensures PermitInv(Run(s, steps).log)
    decreases |steps|
  {
    hide Inv, Next, PermitInv;
    if steps != [] {
      StepKeeps(s, steps[0]);
      StepPermits(s, steps[0]);
      RunPermits(Next(s, steps[0]), steps[1..]);
    }
  }

  /** Every executor call was permitted: the calling handler had asked the
      authorizer about exactly that claim and got a permitting decision. */
  lemma {:induction false} OnlyPermittedExecutions(steps: seq<Step>, i: nat)
    requires i < |Run(BOOT, steps).log.dispatches|
    ensures var g := Run(BOOT, steps).log;
            var call := g.dispatches[i];
            exists i, d :: Consultation(call.handler, i, call.claim, d) in g.consulted && Permits(call.claim, d)
  {
    BootHolds();
    RunPermits(BOOT, steps);
    var g := Run(BOOT, steps).log;
    assert g.dispatches[i] in g.dispatches;
    assert Permitted(g, g.dispatches[i].handler, g.dispatches[i].claim);
  }
}
