/** A run that ends in a recovered row: the process dies while the executor is at
    work, the next one finds the row running and makes it unknown. */
module CommandLostOutcome {
  import opened Ledger
  import opened CommandService
  import opened CommandInvariants
  import opened CommandSteps
  import opened CommandOwnClaims
  import opened CommandRuns
  import opened CommandTheorems

  function UpToExecutor(r: Request): seq<Step> {
    [DoReopen(true, 0, NoFault, NoFault)] + Entering(0, 0, r) + Claiming(0, 0)
    + ([DoAuthorize(0, AdminDecision(r.claim))] + Committing(0, 0))
  }

  function LosingOutcome(r: Request, later: int): seq<Step> {
    UpToExecutor(r) + [DoCallExecutor(0), DoCrash, DoReopen(true, later, NoFault, NoFault)]
  }

  lemma {:induction false} ReachesExecutor(r: Request)
    requires Claimable(r)
    ensures var s := Run(BOOT, UpToExecutor(r));
            && s.up && 0 in s.handlers && s.handlers[0].pc == Executing(0) && s.handlers[0].request == r
            && s.log.dispatches == []
            && Matches(s.rows.table, r.claim.key, Running) && s.rows.table[r.claim.key].expiresAt == RETENTION
  {
    hide Run, ValidClaim, LockKeyOf, Entering, Claiming, Committing, AdminDecision;
    var s0 := Next(BOOT, DoReopen(true, 0, NoFault, NoFault));
    RunOne(BOOT, DoReopen(true, 0, NoFault, NoFault));
    assert s0.up && s0.rows.table == map[];
    hide Next;
    Entered(s0, 0, r);
    var s1 := Run(s0, Entering(0, 0, r));
    Claimed(s1, 0, r, 0);
    ApprovedAndSent(Run(s1, Claiming(0, 0)), 0, 0);
    RunSplit(BOOT, [DoReopen(true, 0, NoFault, NoFault)], Entering(0, 0, r));
    RunSplit(BOOT, [DoReopen(true, 0, NoFault, NoFault)] + Entering(0, 0, r), Claiming(0, 0));
    RunSplit(BOOT, [DoReopen(true, 0, NoFault, NoFault)] + Entering(0, 0, r) + Claiming(0, 0),
             [DoAuthorize(0, AdminDecision(r.claim))] + Committing(0, 0));
  }

  /** The command was handed to the executor once; its row ends unknown without
      an error payload, and replays as a retryable internal error. */
  lemma {:induction false} OutcomeLostInCrash(r: Request, later: int)
    requires Claimable(r) && later < RETENTION
    ensures var s := Run(BOOT, LosingOutcome(r, later));
            && s.up && !s.blocked && s.log.dispatches == [Call(0, 0, r.claim)]
            && r.claim.key in s.rows.table && s.rows.table[r.claim.key].status == Unknown
            && s.rows.table[r.claim.key].errorPayload.None?
            && RecordResponse(s.rows.table[r.claim.key]) == UnavailableReply(r.claim.key.commandID)
  {
    hide Run, UpToExecutor, RecordResponse, ValidClaim, UnavailableReply, LockKeyOf;
    ReachesExecutor(r);
    var s := Run(BOOT, UpToExecutor(r));
    RecoveredUnknownIsRetryable(UpToExecutor(r), r.claim.key, later);
    RunThree(s, DoCallExecutor(0), DoCrash, DoReopen(true, later, NoFault, NoFault));
    RunSplit(BOOT, UpToExecutor(r), [DoCallExecutor(0), DoCrash, DoReopen(true, later, NoFault, NoFault)]);
  }
}
