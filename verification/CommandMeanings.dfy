/** What the service's decisions and answers are, said case by case: what a
    decision of the authorizer leads to, what an outcome of the executor leads
    to, and what a stored record is answered with. */
module CommandMeanings {
  import opened Wrappers
  import opened Ledger
  import opened CommandService
  import opened CommandInvariants
  import opened CommandPermission

  /** A decision for this requester and this capability that says no. */
  predicate Refuses(c: Claim, d: Decision) {
    && d.Decision? && !d.allowed
    && d.requiredCapability == c.requiredCapability
    && d.uid == c.key.callerUID && d.gid == c.requestingGID && d.username == c.requestingUsername
  }

  /** The status and the error a decision that is no permission ends in: a clear
      refusal is final, a failed lookup or a decision about somebody else, or by
      somebody who is no administrator, may be retried. */
  predicate RefusedWith(c: Claim, d: Decision, status: Status, e: ErrorPayload) {
    var id := c.key.commandID;
    && !Permits(c, d)
    && if Refuses(c, d) then
         status == Denied && e == ErrorPayload(AuthorizationDeniedCode, AuthorizationError, NotAuthorized, false, id)
       else if d == LookupFailed then
         && status == AuthorizationFailed
         && e == ErrorPayload(UserLookupFailedCode, InternalError, UserInformationUnavailable, true, id)
       else
         && status == AuthorizationFailed
         && e == ErrorPayload(InternalCode, InternalError, AuthorizationUnavailable, true, id)
  }

  /** What is stored about a permission. */
  predicate GrantedAs(c: Claim, d: Decision, level: AdminLevel, m: Option<AuthorizationMetadata>) {
    Permits(c, d) && level == Admin && m == Some(AuthorizationMetadata(c.requiredCapability, d.authorizedAt))
  }

  /** The transition a decision leads to. */
  predicate Ruling(c: Claim, d: Decision, pc: Pc) {
    && pc.Moving? && pc.from == AuthorizationPending
    && if Permits(c, d) then
         && pc.to == Accepted && GrantedAs(c, d, pc.data.adminLevel, pc.data.authorizationMetadata)
       else
         && pc.data.errorPayload.Some? && RefusedWith(c, d, pc.to, pc.data.errorPayload.value)
         && pc.reply == ErrorReply(pc.data.errorPayload.value)
  }

  lemma DecideMeans(x: Handler, d: Decision)
    ensures Ruling(x.request.claim, d, Decide(x, d))
  {
  }

  /** The status and the answer an outcome ends in. */
  predicate ReturnedWith(r: Request, o: Outcome, status: Status, reply: Reply) {
    var (id, c) := (r.claim.key.commandID, r.claim);
    match o
    case OutcomeSucceeded =>
      && status == Succeeded
      && reply == Response(Some(CommandResponse(id, c.resource, c.command, Some(c.targetNode), Some(r.state), StatusSucceeded)))
    case OutcomeRejected =>
      status == Failed && reply == ErrorReply(ErrorPayload(SlurmCommandFailedCode, SlurmError, SlurmRejected, false, id))
    case OutcomeUncertain =>
      status == Unknown && reply == ErrorReply(ErrorPayload(CommandOutcomeUnknownCode, TimeoutError, OutcomeUnknown, false, id))
  }

  lemma ConcludeMeans(x: Handler, o: Outcome)
    ensures var pc := Conclude(x, o); pc.Moving? && pc.from == Running && ReturnedWith(x.request, o, pc.to, pc.reply)
  {
  }

  /** What a record is answered with. */
  predicate Replays(r: Record, reply: Reply) {
    var id := r.claim.key.commandID;
    match r.status
    case Succeeded => reply == Response(r.resultPayload)
    case Running =>
      reply == Response(Some(CommandResponse(id, r.claim.resource, r.claim.command, None, None, StatusRunning)))
    case AuthorizationUncertain =>
      reply == ErrorReply(ErrorPayload(AuthorizationOutcomeUnknownCode, InternalError, OutcomeOfAuthorizationUnknown, false, id))
    case AuthorizationPending => reply == ErrorReply(ErrorPayload(InternalCode, InternalError, BeingProcessed, true, id))
    case Accepted => reply == ErrorReply(ErrorPayload(InternalCode, InternalError, BeingProcessed, true, id))
    case _ =>
      reply == ErrorReply(if r.errorPayload.Some? then r.errorPayload.value
                          else ErrorPayload(InternalCode, InternalError, ResultUnavailable, true, id))
  }

  lemma RecordResponseMeans(r: Record, reply: Reply)
    ensures reply == RecordResponse(r) <==> Replays(r, reply)
  {
  }

  /** The fixed answers of a handler that gives up. */
  lemma FixedReplies(id: string)
    ensures PersistenceReply(id) == ErrorReply(ErrorPayload(LedgerPersistenceFailedCode, InternalError, StorageUnavailable, false, id))
    ensures ConflictReply(id) == ErrorReply(ErrorPayload(CommandIDConflictCode, ConflictError, IDAlreadyUsed, false, id))
    ensures UnavailableReply(id) == ErrorReply(ErrorPayload(InternalCode, InternalError, ResultUnavailable, true, id))
  {
  }
}
