/** Every answer is true: where every key is wanted at one service, each stored
    record is the account of its own incarnation (who asked, what the authorizer
    ruled, who ran it, what the executor returned), and each reply a handler
    gives says only what such a record says. */
module CommandTruth {
  import opened Wrappers
  import opened Ledger
  import opened CommandService
  import opened CommandInvariants
  import opened CommandSteps
  import opened CommandTheorems
  import opened CommandOwnClaims
  import opened CommandPermission
  import opened CommandMeanings

  // ------------------------------------------------------------------ what is true

  /** The incarnation was inserted by a handler that arrived with this claim. */
  ghost predicate Known(w: Rows, g: Log, i: nat) {
    && i in w.origin && w.origin[i].handler in g.arrived
    && g.arrived[w.origin[i].handler].claim == w.origin[i].claim
  }

  /** The request an incarnation was inserted for. */
  ghost function RequestOf(w: Rows, g: Log, i: nat): Request
    requires Known(w, g, i)
  {
    g.arrived[w.origin[i].handler]
  }

  /** The authorizer's decision when it was asked about an incarnation. */
  ghost predicate Ruled(w: Rows, g: Log, i: nat, d: Decision)
    requires i in w.origin
  {
    Consultation(w.origin[i].handler, i, w.origin[i].claim, d) in g.consulted
  }

  ghost predicate RefusalTrue(w: Rows, g: Log, i: nat, status: Status, e: ErrorPayload)
    requires i in w.origin
  {
    exists d :: Ruled(w, g, i, d) && RefusedWith(w.origin[i].claim, d, status, e)
  }

  ghost predicate GrantTrue(w: Rows, g: Log, i: nat, r: Record)
    requires i in w.origin
  {
    exists d :: Ruled(w, g, i, d) && GrantedAs(w.origin[i].claim, d, r.adminLevel, r.authorizationMetadata)
  }

  /** The record names the user and the boundary its own request was to run
      under. */
  predicate RunAs(r: Record, q: Request) {
    && r.executionUID == Some(q.executionUID)
    && r.executionUsername == q.executionUsername && r.executionBoundary == q.executionBoundary
  }

  ghost predicate OutcomeTrue(w: Rows, g: Log, i: nat, o: Outcome, status: Status, reply: Reply)
    requires Known(w, g, i)
  {
    Return(i, o) in g.returned && ReturnedWith(RequestOf(w, g, i), o, status, reply)
  }

  /** Everything a record of incarnation `i` says is so. */
  ghost predicate RecordTrue(w: Rows, g: Log, i: nat, r: Record) {
    && Known(w, g, i) && r.claim == w.origin[i].claim
    && (r.status == Denied || r.status == AuthorizationFailed ==>
          r.errorPayload.Some? && RefusalTrue(w, g, i, r.status, r.errorPayload.value))
    && (r.status == Accepted || Reached(r.status) ==> GrantTrue(w, g, i, r))
    && (Reached(r.status) ==> i in w.ran && RunAs(r, RequestOf(w, g, i)))
    && (r.status == Succeeded ==> OutcomeTrue(w, g, i, OutcomeSucceeded, Succeeded, Response(r.resultPayload)))
    && (r.status == Failed ==>
          r.errorPayload.Some? && OutcomeTrue(w, g, i, OutcomeRejected, Failed, ErrorReply(r.errorPayload.value)))
    && (r.status == Unknown && r.errorPayload.Some? ==>
          OutcomeTrue(w, g, i, OutcomeUncertain, Unknown, ErrorReply(r.errorPayload.value)))
  }

  predicate NeverRun(status: Status) {
    status == AuthorizationUncertain || status == Denied || status == AuthorizationFailed
  }

  /** An incarnation that was refused, or whose authorization was lost, is never
      dispatched. */
  ghost predicate Shut(w: Rows, i: nat, status: Status) {
    NeverRun(status) ==> Settled(w, i)
  }

  /** An incarnation of the request a handler came with. */
  ghost predicate Mine(w: Rows, x: Handler, i: nat) {
    && i in w.origin && w.origin[i].claim.key == KeyOf(x)
    && w.origin[i].claim.requestFingerprint == x.request.claim.requestFingerprint
  }

  ghost predicate NotMine(w: Rows, x: Handler, i: nat) {
    && i in w.origin && w.origin[i].claim.key == KeyOf(x)
    && w.origin[i].claim.requestFingerprint != x.request.claim.requestFingerprint
  }

  /** What a response says: the command of an incarnation of this request is
      running, or the executor reported it succeeded. */
  ghost predicate ResponseTrue(w: Rows, g: Log, i: nat, p: CommandResponse)
    requires Known(w, g, i)
  {
    var (c, q) := (w.origin[i].claim, RequestOf(w, g, i));
    && i in w.ran
    && match p.status
       case StatusRunning => p == CommandResponse(c.key.commandID, c.resource, c.command, None, None, StatusRunning)
       case StatusSucceeded =>
         && Return(i, OutcomeSucceeded) in g.returned
         && p == CommandResponse(c.key.commandID, c.resource, c.command, Some(c.targetNode), Some(q.state), StatusSucceeded)
  }

  /** What an error about an incarnation of this request says. */
  ghost predicate ErrorTrue(w: Rows, g: Log, i: nat, e: ErrorPayload)
    requires Known(w, g, i)
  {
    match e.code
    case AuthorizationDeniedCode => Settled(w, i) && RefusalTrue(w, g, i, Denied, e)
    case UserLookupFailedCode => Settled(w, i) && RefusalTrue(w, g, i, AuthorizationFailed, e) && Ruled(w, g, i, LookupFailed)
    case AuthorizationOutcomeUnknownCode =>
      && Settled(w, i) && e.category == InternalError && e.message == OutcomeOfAuthorizationUnknown && !e.retryable
    case SlurmCommandFailedCode =>
      && Return(i, OutcomeRejected) in g.returned && e.category == SlurmError && e.message == SlurmRejected && !e.retryable
    case CommandOutcomeUnknownCode =>
      && Return(i, OutcomeUncertain) in g.returned && e.category == TimeoutError && e.message == OutcomeUnknown && !e.retryable
    case InternalCode =>
      && e.category == InternalError && e.retryable
      && ((e.message == AuthorizationUnavailable && Settled(w, i) && RefusalTrue(w, g, i, AuthorizationFailed, e))
          || (e.message == ResultUnavailable && i in w.ran))
    case _ => false
  }

  /** The errors that say nothing about an incarnation. */
  predicate Plain(x: Handler, e: ErrorPayload) {
    var (id, q) := (IdOf(x), x.request);
    || e == ErrorPayload(LedgerPersistenceFailedCode, InternalError, StorageUnavailable, false, id)
    || e == ErrorPayload(InternalCode, InternalError, StillBeingProcessed, true, id)
    || e == ErrorPayload(InvalidCommandCode, ValidationError, UnsupportedOperation, false, id)
    || e == ErrorPayload(InvalidPayloadCode, ValidationError, InvalidCommandPayload, false, id)
    || e == ErrorPayload(InvalidPayloadCode, ValidationError, TargetUnavailable, false, id)
    || (e == ErrorPayload(InternalCode, InternalError, BoundaryUnavailable, true, id)
        && (q.executionUsername == "" || q.executionBoundary == ""))
  }

  ghost predicate ReplyTrue(w: Rows, g: Log, x: Handler, reply: Reply) {
    match reply
    case Response(p) => p.Some? && exists i: nat :: Known(w, g, i) && Mine(w, x, i) && ResponseTrue(w, g, i, p.value)
    case ErrorReply(e) =>
      && e.commandID == IdOf(x)
      && (|| Plain(x, e)
          || (e == ErrorPayload(CommandIDConflictCode, ConflictError, IDAlreadyUsed, false, IdOf(x))
              && exists i: nat :: NotMine(w, x, i))
          || exists i: nat :: Known(w, g, i) && Mine(w, x, i) && ErrorTrue(w, g, i, e))
  }

  // ------------------------------------------------------------------ the invariant

  predicate Replying(pc: Pc) {
    pc.Leaving? || pc.Dropping? || pc.Done?
  }

  ghost predicate MoveRuled(g: Log, h: nat, x: Handler)
    requires x.claimed.Some?
  {
    exists d :: Consultation(h, x.claimed.value, x.request.claim, d) in g.consulted && Ruling(x.request.claim, d, x.pc)
  }

  ghost predicate MoveReturned(g: Log, x: Handler)
    requires x.pc.Moving? && x.claimed.Some?
  {
    exists o :: Return(x.claimed.value, o) in g.returned && ReturnedWith(x.request, o, x.pc.to, x.pc.reply)
  }

  ghost predicate HandlerTrue(w: Rows, g: Log, h: nat, x: Handler) {
    && h in g.arrived && g.arrived[h] == x.request
    && (x.pc.Moving? && x.claimed.Some? && x.pc.from == AuthorizationPending ==> MoveRuled(g, h, x))
    && (x.pc.Moving? && x.claimed.Some? && x.pc.from == Running ==> MoveReturned(g, x))
    && (x.pc.Awaiting? ==>
          Mine(w, x, x.pc.seenAs) && RecordTrue(w, g, x.pc.seenAs, x.pc.record) && Shut(w, x.pc.seenAs, x.pc.record.status))
    && (Replying(x.pc) ==> ReplyTrue(w, g, x, x.pc.reply))
  }

  /** The authorizer is asked once about an incarnation, so there is one decision. */
  ghost predicate ConsultInv(g: Log) {
    && (forall c <- g.consulted :: Call(c.handler, c.incarnation, c.claim) in g.authorizations)
    && (forall a <- g.consulted, b <- g.consulted :: a.incarnation == b.incarnation ==> a == b)
  }

  ghost predicate RowTrue(w: Rows, g: Log, k: Key)
    requires k in w.table
  {
    k in w.incs && RecordTrue(w, g, w.incs[k], w.table[k])
  }

  ghost predicate TruthInv(s: Machine) {
    && (forall k <- s.rows.table :: RowTrue(s.rows, s.log, k))
    && (forall h <- s.handlers :: HandlerTrue(s.rows, s.log, h, s.handlers[h]))
    && (forall h <- s.log.arrived :: h < s.nextHandler)
    && ConsultInv(s.log)
  }

  // ------------------------------------------------------- what is true stays true

  /** History only grows, and rows only take the steps they can. */
  ghost predicate Grows(w: Rows, g: Log, w': Rows, g': Log) {
    && RowsStep(w, w')
    && (forall i <- w.origin :: i in w'.origin && w'.origin[i] == w.origin[i])
    && (forall h <- g.arrived :: h in g'.arrived && g'.arrived[h] == g.arrived[h])
    && g.consulted <= g'.consulted && g.returned <= g'.returned
  }

  lemma RecordKept(w: Rows, g: Log, w': Rows, g': Log, i: nat, r: Record)
    requires RecordTrue(w, g, i, r) && Grows(w, g, w', g')
    ensures RecordTrue(w', g', i, r)
  {
    hide RefusedWith, GrantedAs, ReturnedWith, RunAs, Continued, WasAccepted;
    if r.status == Denied || r.status == AuthorizationFailed {
      RefusalKept(w, g, w', g', i, r.status, r.errorPayload.value);
    }
    if r.status == Accepted || Reached(r.status) {
      var d :| Ruled(w, g, i, d) && GrantedAs(w.origin[i].claim, d, r.adminLevel, r.authorizationMetadata);
      assert Ruled(w', g', i, d);
    }
  }

  lemma RefusalKept(w: Rows, g: Log, w': Rows, g': Log, i: nat, status: Status, e: ErrorPayload)
    requires i in w.origin && RefusalTrue(w, g, i, status, e) && Grows(w, g, w', g')
    ensures i in w'.origin && RefusalTrue(w', g', i, status, e)
  {
    hide RefusedWith, RowsStep;
    var d :| Ruled(w, g, i, d) && RefusedWith(w.origin[i].claim, d, status, e);
    assert Ruled(w', g', i, d);
  }

  lemma SettledKept(w: Rows, g: Log, w': Rows, g': Log, i: nat)
    requires Settled(w, i) && Grows(w, g, w', g')
    ensures Settled(w', i)
  {
    SettledStep(w, w', i);
  }

  lemma ErrorKept(w: Rows, g: Log, w': Rows, g': Log, i: nat, e: ErrorPayload)
    requires Known(w, g, i) && ErrorTrue(w, g, i, e) && Grows(w, g, w', g')
    ensures Known(w', g', i) && ErrorTrue(w', g', i, e)
  {
    hide RefusalTrue, Settled, Continued, WasAccepted;
    if Settled(w, i) {
      SettledKept(w, g, w', g', i);
    }
    if RefusalTrue(w, g, i, Denied, e) {
      RefusalKept(w, g, w', g', i, Denied, e);
    }
    if RefusalTrue(w, g, i, AuthorizationFailed, e) {
      RefusalKept(w, g, w', g', i, AuthorizationFailed, e);
    }
  }

  lemma ReplyKept(w: Rows, g: Log, w': Rows, g': Log, x: Handler, reply: Reply)
    requires ReplyTrue(w, g, x, reply) && Grows(w, g, w', g')
    ensures ReplyTrue(w', g', x, reply)
  {
    hide ErrorTrue, Plain, RowsStep, Known, Mine, NotMine;
    match reply
    case Response(p) =>
      var i: nat :| Known(w, g, i) && Mine(w, x, i) && ResponseTrue(w, g, i, p.value);
      ResponseKept(w, g, w', g', x, i, p.value);
    case ErrorReply(e) =>
      if i: nat :| NotMine(w, x, i) {
        ConflictKept(w, g, w', g', x, i);
      }
      if i: nat :| Known(w, g, i) && Mine(w, x, i) && ErrorTrue(w, g, i, e) {
        ErrorKept(w, g, w', g', i, e);
        MineKept(w, g, w', g', x, i);
      }
  }

  lemma MineKept(w: Rows, g: Log, w': Rows, g': Log, x: Handler, i: nat)
    requires Mine(w, x, i) && Grows(w, g, w', g')
    ensures Mine(w', x, i)
  {
    hide RowsStep;
  }

  lemma ConflictKept(w: Rows, g: Log, w': Rows, g': Log, x: Handler, i: nat)
    requires NotMine(w, x, i) && Grows(w, g, w', g')
    ensures NotMine(w', x, i)
  {
    hide RowsStep;
  }

  lemma ResponseKept(w: Rows, g: Log, w': Rows, g': Log, x: Handler, i: nat, p: CommandResponse)
    requires Known(w, g, i) && Mine(w, x, i) && ResponseTrue(w, g, i, p) && Grows(w, g, w', g')
    ensures Known(w', g', i) && Mine(w', x, i) && ResponseTrue(w', g', i, p)
  {
    hide Continued, WasAccepted;
  }

  lemma HandlerKept(w: Rows, g: Log, w': Rows, g': Log, h: nat, x: Handler)
    requires HandlerTrue(w, g, h, x) && Grows(w, g, w', g')
    ensures HandlerTrue(w', g', h, x)
  {
    hide Ruling, ReturnedWith, RecordTrue, ReplyTrue, Settled, RowsStep, Mine;
    if x.pc.Awaiting? {
      MineKept(w, g, w', g', x, x.pc.seenAs);
      RecordKept(w, g, w', g', x.pc.seenAs, x.pc.record);
      if NeverRun(x.pc.record.status) {
        SettledKept(w, g, w', g', x.pc.seenAs);
      }
    }
    if Replying(x.pc) {
      ReplyKept(w, g, w', g', x, x.pc.reply);
    }
  }
}
