/** Two service objects that want one key: their lock tables are separate, a
    transition compares only a row's status, and so one handler can go on with
    another's claim. Together with CommandOwnClaims this says exactly when every
    execution is of the handler's own claim. */
module CommandTwoServices {
  import opened Wrappers
  import opened Ledger
  import opened CommandService
  import opened CommandInvariants
  import opened CommandOwnClaims
  import opened CommandRuns

  /** Handlers 0 and 1, at services `p` and `q`, want one key. Handler 0 claims
      it; its row expires while the authorizer is being asked; handler 1 purges
      the row and claims the key again. */
  function BothClaim(p: nat, r0: Request, q: nat, r1: Request): seq<Step> {
    [DoReopen(true, 0, NoFault, NoFault)] + Entering(0, p, r0) + Claiming(0, 0) + Entering(1, q, r1) + Claiming(1, RETENTION)
  }

  /** Handler 0's transitions then act on handler 1's row. */
  function OneExecutes(c: Claim): seq<Step> {
    [DoAuthorize(0, AdminDecision(c))] + Committing(0, RETENTION) + [DoCallExecutor(0)]
  }

  lemma BothClaimRuns(p: nat, r0: Request, q: nat, r1: Request, arrivals: iset<Arrival>)
    requires Arrival(p, r0) in arrivals && Arrival(q, r1) in arrivals
    ensures RunsOver(arrivals, BothClaim(p, r0, q, r1)) && RunsOver(arrivals, BothClaim(p, r0, q, r1) + OneExecutes(r0.claim))
  {
  }

  lemma ServicesDiffer(p: nat, r0: Request, q: nat, r1: Request)
    requires p != q
    ensures LockKeyOf(Handler(p, r0, Start, None)) != LockKeyOf(Handler(q, r1, Start, None))
  {
  }

  /** Both handlers are at work on one row, which is handler 1's. */
  lemma {:induction false} BothClaimed(p: nat, r0: Request, q: nat, r1: Request)
    requires p != q && Claimable(r0) && Claimable(r1) && r0.claim.key == r1.claim.key
    ensures var s := Run(BOOT, BothClaim(p, r0, q, r1));
            && s.up && !s.blocked && s.writer.None? && s.log.dispatches == []
            && 0 in s.handlers && s.handlers[0] == Handler(p, r0, Authorizing, Some(0))
            && 1 in s.handlers && s.handlers[1] == Handler(q, r1, Authorizing, Some(1))
            && r0.claim.key in s.rows.table && s.rows.table[r0.claim.key] == NewRecord(r1.claim, RETENTION)
            && r0.claim.key in s.rows.incs && s.rows.incs[r0.claim.key] == 1
            && 1 in s.rows.origin && s.rows.origin[1] == Origin(1, r1.claim)
  {
    hide Run, ValidClaim, LockKeyOf, Entering, Claiming;
    var s0 := Next(BOOT, DoReopen(true, 0, NoFault, NoFault));
    RunOne(BOOT, DoReopen(true, 0, NoFault, NoFault));
    assert s0.up && s0.rows.table == map[];
    Entered(s0, p, r0);
    var s1 := Run(s0, Entering(0, p, r0));
    Claimed(s1, 0, r0, 0);
    var s2 := Run(s1, Claiming(0, 0));
    ServicesDiffer(p, r0, q, r1);
    Entered(s2, q, r1);
    var s3 := Run(s2, Entering(1, q, r1));
    Claimed(s3, 1, r1, RETENTION);
    RunFive(BOOT, [DoReopen(true, 0, NoFault, NoFault)], Entering(0, p, r0), Claiming(0, 0), Entering(1, q, r1),
            Claiming(1, RETENTION));
  }

  /** The executor is called with a claim that is not the one its row was
      inserted for; the handler's own row does not exist any more, and both
      handlers were at work on the one that does. */
  lemma {:induction false} TwoServicesCanMix(p: nat, r0: Request, q: nat, r1: Request)
    requires p != q && Claimable(r0) && Claimable(r1) && r0.claim.key == r1.claim.key
    ensures var s := Run(BOOT, BothClaim(p, r0, q, r1) + OneExecutes(r0.claim));
            && s.log.dispatches == [Call(0, 1, r0.claim)]
            && 1 in s.rows.origin && s.rows.origin[1] == Origin(1, r1.claim)
            && 1 in s.handlers && s.handlers[1].pc.Authorizing?
  {
    hide Run, ValidClaim, BothClaim, Committing, AdminDecision;
    BothClaimed(p, r0, q, r1);
    var s := Run(BOOT, BothClaim(p, r0, q, r1));
    ApprovedAndSent(s, 0, RETENTION);
    var u := Run(s, [DoAuthorize(0, AdminDecision(r0.claim))] + Committing(0, RETENTION));
    RunOne(u, DoCallExecutor(0));
    RunSplit(s, [DoAuthorize(0, AdminDecision(r0.claim))] + Committing(0, RETENTION), [DoCallExecutor(0)]);
    RunSplit(BOOT, BothClaim(p, r0, q, r1), OneExecutes(r0.claim));
    assert CallExecutor(u, 0).log.dispatches == [Call(0, 1, r0.claim)];
  }

  // ------------------------------------------------------------ the exact condition

  ghost predicate SoleOwners(s: Machine) {
    forall g, h | g in s.handlers && h in s.handlers && KeyOf(s.handlers[g]) == KeyOf(s.handlers[h]) ::
      Expects(s.handlers[g].pc).Some? && Expects(s.handlers[h].pc).Some? ==> g == h
  }

  /** Over a set of arrivals, every execution in every run is of the calling
      handler's own approved claim if and only if no key is wanted, by requests
      that can get to a claim, at two services. */
  lemma {:induction false} OwnExecutionsExactly(arrivals: iset<Arrival>)
    ensures (forall steps | RunsOver(arrivals, steps) :: OwnCalls(Run(BOOT, steps))) <==> KeysApart(arrivals)
  {
    if KeysApart(arrivals) {
      forall steps | RunsOver(arrivals, steps) ensures OwnCalls(Run(BOOT, steps)) {
        ExecutesOwnApprovedClaim(arrivals, steps);
      }
    } else {
      hide Run, Claimable;
      var a, b :| a in arrivals && b in arrivals && Claimable(a.request) && Claimable(b.request)
                  && a.request.claim.key == b.request.claim.key && a.service != b.service;
      var steps := BothClaim(a.service, a.request, b.service, b.request) + OneExecutes(a.request.claim);
      BothClaimRuns(a.service, a.request, b.service, b.request, arrivals);
      TwoServicesCanMix(a.service, a.request, b.service, b.request);
      var s := Run(BOOT, steps);
      assert s.log.dispatches[0] in s.log.dispatches && !OwnCall(s, s.log.dispatches[0]);
    }
  }

  /** Over a set of arrivals, in every run at most one handler works on the row
      of a key, under exactly the same condition. */
  lemma {:induction false} SoleOwnersExactly(arrivals: iset<Arrival>)
    ensures (forall steps | RunsOver(arrivals, steps) :: SoleOwners(Run(BOOT, steps))) <==> KeysApart(arrivals)
  {
    hide Run;
    if KeysApart(arrivals) {
      forall steps, g, h | RunsOver(arrivals, steps) && g in Run(BOOT, steps).handlers && h in Run(BOOT, steps).handlers
        && KeyOf(Run(BOOT, steps).handlers[g]) == KeyOf(Run(BOOT, steps).handlers[h])
        && Expects(Run(BOOT, steps).handlers[g].pc).Some? && Expects(Run(BOOT, steps).handlers[h].pc).Some?
        ensures g == h
      {
        SoleOwner(arrivals, steps, g, h);
      }
    } else {
      hide Claimable;
      var a, b :| a in arrivals && b in arrivals && Claimable(a.request) && Claimable(b.request)
                  && a.request.claim.key == b.request.claim.key && a.service != b.service;
      BothClaimRuns(a.service, a.request, b.service, b.request, arrivals);
      BothClaimed(a.service, a.request, b.service, b.request);
      var s := Run(BOOT, BothClaim(a.service, a.request, b.service, b.request));
      assert !SoleOwners(s) by {
        assert 0 in s.handlers && 1 in s.handlers && KeyOf(s.handlers[0]) == KeyOf(s.handlers[1]);
      }
    }
  }
}
