/** The invariant of the command service's step system. It has five parts:
    locks and program counters, what each handler knows about its incarnation,
    the rows, the call log, and who owns the unresolved rows. */
module CommandInvariants {
  import opened Wrappers
  import opened Ledger
  import opened CommandService

  // ------------------------------------------------- locks and program counters

  predicate HoldingPc(pc: Pc) {
    || pc.LookingUp? || pc.Validating? || pc.Reserving? || pc.Authorizing? || pc.Moving?
    || pc.Executing? || pc.InFlight? || pc.Awaiting? || pc.Polling?
  }

  predicate ReconcilingPc(pc: Pc) {
    pc.Recovering? || pc.Verifying? || pc.Opening?
  }

  ghost predicate LockOk(locks: RequestLocks.Locks, writer: Option<nat>, h: nat, x: Handler) {
    && (h in locks.tickets ==> locks.tickets[h].key == LockKeyOf(x))
    && (HoldingPc(x.pc) || x.pc.Waiting? || x.pc.Dropping? ==> h in locks.tickets)
    && (x.pc.Start? || x.pc.Admitted? || x.pc.Done? ==> h !in locks.tickets)
    && (h in locks.tickets ==> (RequestLocks.Holds(locks, h) <==> !x.pc.Waiting? && !x.pc.Dropping?))
    && (ReconcilingPc(x.pc) ==> writer == Some(h))
    && (writer == Some(h) ==> x.pc.Reserving? || x.pc.Moving? || ReconcilingPc(x.pc))
  }

  ghost predicate LocksInv(s: Machine) {
    && RequestLocks.Inv(s.locks)
    && (forall h <- s.locks.tickets :: h in s.handlers)
    && (s.writer.Some? ==> s.writer.value in s.handlers)
    && (!s.up ==> s.handlers == map[])
    && (forall h <- s.handlers :: h < s.nextHandler && LockOk(s.locks, s.writer, h, s.handlers[h]))
  }

  // ----------------------------------------------------- handlers, rows and calls

  /** The only transitions a handler ever asks for, with the data it sends. */
  predicate MoveOk(x: Handler)
    requires x.pc.Moving?
  {
    var (from, to, d, reply) := (x.pc.from, x.pc.to, x.pc.data, x.pc.reply);
    if to == Accepted then
      && from == AuthorizationPending && d.authorizationMetadata.Some?
      && d == NO_DATA.(adminLevel := Admin, authorizationMetadata := d.authorizationMetadata)
    else if to == Running then
      from == Accepted && d == RunningData(x.request)
    else if to == Succeeded then
      && from == Running && d.resultPayload.Some?
      && reply == Response(d.resultPayload) && d == NO_DATA.(resultPayload := d.resultPayload)
    else
      && from == (if to == Denied || to == AuthorizationFailed then AuthorizationPending else Running)
      && (to == Denied || to == AuthorizationFailed || to == Failed || to == Unknown)
      && reply.ErrorReply? && d == NO_DATA.(errorPayload := Some(reply.error))
      && (to == Unknown ==> reply.error == UncertainError(IdOf(x)))
  }

  /** Past the authorizer with an allow. */
  predicate Approved(pc: Pc) {
    pc.Executing? || pc.InFlight? || (pc.Moving? && (pc.to == Accepted || pc.from == Accepted || pc.from == Running))
  }

  predicate ClaimedPc(pc: Pc) {
    pc.Authorizing? || pc.Moving? || pc.Executing? || pc.InFlight?
  }

  ghost predicate HandlerOk(w: Rows, g: Log, h: nat, x: Handler) {
    && (ClaimedPc(x.pc) ==> x.claimed.Some?)
    && (ClaimedPc(x.pc) || x.pc.Reserving? ==> x.request.executionUsername != "" && x.request.executionBoundary != "")
    && (x.claimed.Some? ==> x.claimed.value in w.origin && w.origin[x.claimed.value] == Origin(h, x.request.claim))
    && (x.pc.Authorizing? ==> forall c <- g.authorizations :: c.incarnation != x.claimed.value)
    && (x.pc.Moving? ==> MoveOk(x))
    && (Approved(x.pc) ==> Call(h, x.claimed.value, x.request.claim) in g.approvals)
    && (x.pc.Executing? || x.pc.InFlight? ==> x.pc.tag in g.confirmed && g.confirmed[x.pc.tag] == h)
    && (x.pc.Executing? ==> forall c <- g.dispatches :: c.incarnation != x.pc.tag)
    && (x.pc.Awaiting? && !Unresolved(x.pc.record.status) ==>
          x.pc.seenAs in w.seen && w.seen[x.pc.seenAs] == x.pc.record)
  }

  /** What a row cannot carry yet. */
  predicate Blank(r: Record) {
    && (r.status == AuthorizationPending ==> r.adminLevel == NoLevel && r.authorizationMetadata.None?)
    && (r.status == AuthorizationPending || r.status == Accepted ==>
          r.executionUID.None? && r.executionUsername == "" && r.executionBoundary == "")
  }

  /** What a row must carry at each status. */
  predicate Audited(r: Record) {
    && (r.status == Accepted || Reached(r.status) ==> r.adminLevel == Admin && r.authorizationMetadata.Some?)
    && (Reached(r.status) ==> r.executionUID.Some? && r.executionUsername != "" && r.executionBoundary != "")
    && (r.status == Denied || r.status == AuthorizationFailed ==> r.errorPayload.Some?)
    && (r.status == Succeeded ==> r.resultPayload.Some?)
    && (r.status == Failed ==> r.errorPayload.Some?)
    && (r.status == Unknown ==> r.errorPayload.None? || r.errorPayload == Some(UncertainError(r.claim.key.commandID)))
    && (Unresolved(r.status) ==> r.errorPayload.None? && r.resultPayload.None?)
    && Blank(r)
  }

  ghost predicate RowOk(w: Rows, k: Key)
    requires k in w.table
  {
    && w.table[k].claim.key == k
    && k in w.incs
    && (w.incs[k] in w.ran <==> Reached(w.table[k].status))
    && (w.incs[k] in w.seen ==> w.seen[w.incs[k]] == w.table[k])
    && Audited(w.table[k])
  }

  ghost predicate IncOk(w: Rows, k: Key)
    requires k in w.incs
  {
    w.incs[k] in w.origin && w.origin[w.incs[k]].claim.key == k
  }

  ghost predicate RowsInv(w: Rows) {
    && (forall k <- w.table :: RowOk(w, k))
    && (forall k <- w.incs :: IncOk(w, k))
    && (forall i <- w.origin :: i < w.nextInc)
    && (forall i <- w.ran :: i < w.nextInc)
    && (forall i <- w.seen :: i < w.nextInc && !Unresolved(w.seen[i].status))
  }

  predicate Distinct(calls: seq<Call>) {
    forall i, j :: 0 <= i < j < |calls| ==> calls[i].incarnation != calls[j].incarnation
  }

  ghost predicate LogInv(w: Rows, g: Log) {
    && (forall i <- g.confirmed :: i in w.ran)
    && Distinct(g.dispatches) && Distinct(g.authorizations)
    && (forall c <- g.dispatches :: c.incarnation in g.confirmed && g.confirmed[c.incarnation] == c.handler)
    && (forall c <- g.authorizations :: c.incarnation in w.origin && w.origin[c.incarnation] == Origin(c.handler, c.claim))
    && (forall a <- g.answers ::
          a.incarnation in w.seen && w.seen[a.incarnation] == a.record && a.reply == RecordResponse(a.record))
  }

  // ------------------------------------------------------------------ ownership

  /** The status a handler's program counter expects its row to have. */
  function Expects(pc: Pc): Option<Status> {
    match pc
    case Authorizing => Some(AuthorizationPending)
    case Moving(from, _, _, _) => Some(from)
    case Executing(_) => Some(Running)
    case InFlight(_) => Some(Running)
    case _ => None
  }

  predicate Owns(x: Handler, k: Key, status: Status) {
    KeyOf(x) == k && Expects(x.pc) == Some(status)
  }

  ghost predicate Owned(s: Machine, k: Key, status: Status) {
    exists h :: h in s.handlers && Owns(s.handlers[h], k, status)
  }

  ghost predicate OwnInv(s: Machine) {
    && (s.up && !s.blocked ==>
          forall k <- s.rows.table :: Unresolved(s.rows.table[k].status) ==> Owned(s, k, s.rows.table[k].status))
    && (forall h <- s.handlers :: ReconcilingPc(s.handlers[h].pc) ==> s.blocked)
    && (forall h <- s.handlers :: s.handlers[h].pc.Opening? ==> NoneUnresolved(s.rows.table))
  }

  ghost predicate Inv(s: Machine) {
    && LocksInv(s)
    && (forall h <- s.handlers :: HandlerOk(s.rows, s.log, h, s.handlers[h]))
    && RowsInv(s.rows)
    && LogInv(s.rows, s.log)
    && OwnInv(s)
  }

  // ------------------------------------------------------------ generic movements

  /** Handler `h` moves to `x`; gate, writer, locks, rows and log may change
      with it. */
  function Moved(s: Machine, h: nat, x: Handler, blocked: bool, writer: Option<nat>, locks: RequestLocks.Locks,
                 w: Rows, g: Log): Machine {
    Machine(s.up, blocked, writer, s.handlers[h := x], s.nextHandler, locks, w, g)
  }

  predicate WriterStep(before: Option<nat>, after: Option<nat>, h: nat) {
    after == before || (after == Some(h) && before == None) || (after == None && before == Some(h))
  }

  ghost predicate LockStepBy(l: RequestLocks.Locks, l': RequestLocks.Locks, h: nat) {
    && RequestLocks.Inv(l')
    && (forall g: nat :: g != h ==> RequestLocks.SameFor(l, l', g))
  }

  lemma MoveLocks(s: Machine, h: nat, x: Handler, blocked: bool, writer: Option<nat>, locks: RequestLocks.Locks,
                  w: Rows, g: Log)
    requires LocksInv(s) && At(s, h)
    requires WriterStep(s.writer, writer, h)
    requires LockStepBy(s.locks, locks, h) || locks == s.locks
    requires LockOk(locks, writer, h, x)
    ensures LocksInv(Moved(s, h, x, blocked, writer, locks, w, g))
  {
    hide RequestLocks.Inv, RequestLocks.Holds;
    var s' := Moved(s, h, x, blocked, writer, locks, w, g);
    forall o <- s'.handlers ensures o < s'.nextHandler && LockOk(locks, writer, o, s'.handlers[o]) {
      assert o != h ==> RequestLocks.SameFor(s.locks, locks, o);
    }
    forall o <- locks.tickets ensures o in s'.handlers {
      assert o != h ==> RequestLocks.SameFor(s.locks, locks, o);
    }
  }

  /** Others keep their line of the invariant when the rows and the log only
      grow, and grow only with incarnations that are not theirs. */
  predicate GrowsFor(w: Rows, g: Log, w': Rows, g': Log, h: nat) {
    && (forall i <- w.origin :: i in w'.origin && w'.origin[i] == w.origin[i])
    && (forall i <- w.seen :: i in w'.seen && w'.seen[i] == w.seen[i])
    && (forall i <- g.confirmed :: i in g'.confirmed && g'.confirmed[i] == g.confirmed[i])
    && g.approvals <= g'.approvals
    && (forall c <- g'.authorizations ::
          c in g.authorizations || (c.incarnation in w'.origin && w'.origin[c.incarnation].handler == h))
    && (forall c <- g'.dispatches :: c in g.dispatches || (c.incarnation in g'.confirmed && g'.confirmed[c.incarnation] == h))
  }

  lemma OthersKept(w: Rows, g: Log, w': Rows, g': Log, h: nat, o: nat, x: Handler)
    requires HandlerOk(w, g, o, x) && o != h && GrowsFor(w, g, w', g', h)
    ensures HandlerOk(w', g', o, x)
  {
  }

  /** Ownership of the other rows survives when `h` keeps expecting what it
      expected, or expected nothing; the row on `h`'s own key is the caller's
      business. */
  lemma MoveOwn(s: Machine, h: nat, x: Handler, blocked: bool, writer: Option<nat>, locks: RequestLocks.Locks,
                w: Rows, g: Log)
    requires At(s, h) && OwnInv(s)
    requires KeyOf(x) == KeyOf(s.handlers[h])
    requires s.blocked ==> blocked
    requires forall k <- w.table :: k != KeyOf(x) && Unresolved(w.table[k].status) ==>
               k in s.rows.table && s.rows.table[k] == w.table[k]
    requires var k := KeyOf(x);
             k in w.table && Unresolved(w.table[k].status) ==>
               || Owns(x, k, w.table[k].status) || blocked
               || (k in s.rows.table && w.table[k] == s.rows.table[k]
                   && (Expects(s.handlers[h].pc) != Some(w.table[k].status)))
    requires s.writer == Some(h) || w.table == s.rows.table
    requires forall o <- s.handlers :: o != h && s.handlers[o].pc.Opening? ==> s.writer != Some(h)
    requires x.pc.Opening? ==> NoneUnresolved(w.table)
    requires ReconcilingPc(x.pc) ==> blocked
    ensures OwnInv(Moved(s, h, x, blocked, writer, locks, w, g))
  {
    var s' := Moved(s, h, x, blocked, writer, locks, w, g);
    if !blocked {
      forall k <- w.table | Unresolved(w.table[k].status) ensures Owned(s', k, w.table[k].status) {
        var st := w.table[k].status;
        if Owns(x, k, st) {
          assert s'.handlers[h] == x;
        } else {
          assert Owned(s, k, st);
          var o :| o in s.handlers && Owns(s.handlers[o], k, st);
          assert o != h && s'.handlers[o] == s.handlers[o];
        }
      }
    }
  }

  /** A step that leaves the rows and the log alone. */
  lemma PlainStepKeeps(s: Machine, h: nat, x: Handler, blocked: bool, writer: Option<nat>, locks: RequestLocks.Locks)
    requires Inv(s) && At(s, h)
    requires x.request == s.handlers[h].request
    requires WriterStep(s.writer, writer, h) && (s.blocked ==> blocked)
    requires LockStepBy(s.locks, locks, h) || locks == s.locks
    requires LockOk(locks, writer, h, x) && HandlerOk(s.rows, s.log, h, x)
    requires Expects(x.pc) == Expects(s.handlers[h].pc) || Expects(s.handlers[h].pc) == None || blocked
    requires ReconcilingPc(x.pc) ==> blocked
    requires x.pc.Opening? ==> NoneUnresolved(s.rows.table)
    ensures Inv(Moved(s, h, x, blocked, writer, locks, s.rows, s.log))
  {
    hide RequestLocks.Inv, RowsInv, LogInv;
    MoveLocks(s, h, x, blocked, writer, locks, s.rows, s.log);
    MoveOwn(s, h, x, blocked, writer, locks, s.rows, s.log);
  }

  /** What the invariant says about one handler. */
  lemma HandlerFacts(s: Machine, h: nat)
    requires Inv(s) && h in s.handlers
    ensures LockOk(s.locks, s.writer, h, s.handlers[h]) && HandlerOk(s.rows, s.log, h, s.handlers[h])
    ensures RequestLocks.Inv(s.locks)
    ensures ReconcilingPc(s.handlers[h].pc) ==> s.blocked
    ensures s.handlers[h].pc.Opening? ==> NoneUnresolved(s.rows.table)
  {
    hide RequestLocks.Inv, RowsInv, LogInv;
  }

  /** A handler that has its lock and is outside the write lock moves on, and
      perhaps closes the gate. */
  lemma GotoKeeps(s: Machine, h: nat, pc: Pc, blocked: bool)
    requires Inv(s) && At(s, h) && (s.blocked ==> blocked)
    requires HoldingPc(s.handlers[h].pc) && s.writer != Some(h) && HoldsOn(pc)
    requires HandlerOk(s.rows, s.log, h, s.handlers[h].(pc := pc))
    requires Expects(pc) == Expects(s.handlers[h].pc) || Expects(s.handlers[h].pc) == None || blocked
    ensures Inv(Goto(s, h, pc).(blocked := blocked))
  {
    hide Inv, HandlerOk, RequestLocks.Inv, RequestLocks.Holds, LockStepBy, Expects;
    HandlerFacts(s, h);
    PlainStepKeeps(s, h, s.handlers[h].(pc := pc), blocked, s.writer, s.locks);
  }

  /** Program counters with the lock held and no reconciliation begun. */
  predicate HoldsOn(pc: Pc) {
    HoldingPc(pc) || pc.Repairing? || pc.Leaving?
  }

  lemma AllOthersKept(s: Machine, h: nat, x: Handler, w: Rows, g: Log)
    requires h in s.handlers && HandlerOk(w, g, h, x) && GrowsFor(s.rows, s.log, w, g, h)
    requires forall o <- s.handlers :: HandlerOk(s.rows, s.log, o, s.handlers[o])
    ensures var t := s.handlers[h := x]; forall o <- t :: HandlerOk(w, g, o, t[o])
  {
    hide HandlerOk, GrowsFor;
    var t := s.handlers[h := x];
    forall o <- t ensures HandlerOk(w, g, o, t[o]) {
      if o != h {
        OthersKept(s.rows, s.log, w, g, h, o, s.handlers[o]);
      }
    }
  }

  /** A step that changes the rows or the log. */
  lemma ChangingStepKeeps(s: Machine, h: nat, x: Handler, blocked: bool, writer: Option<nat>, w: Rows, g: Log)
    requires Inv(s) && At(s, h)
    requires x.request == s.handlers[h].request
    requires WriterStep(s.writer, writer, h) && (s.blocked ==> blocked)
    requires LockOk(s.locks, writer, h, x) && HandlerOk(w, g, h, x)
    requires RowsInv(w) && LogInv(w, g) && GrowsFor(s.rows, s.log, w, g, h)
    requires !ReconcilingPc(x.pc) && (s.writer == Some(h) || w.table == s.rows.table)
    requires forall k <- w.table :: k != KeyOf(x) && Unresolved(w.table[k].status) ==>
               k in s.rows.table && s.rows.table[k] == w.table[k]
    requires var k := KeyOf(x);
             k in w.table && Unresolved(w.table[k].status) ==>
               || Owns(x, k, w.table[k].status) || blocked
               || (k in s.rows.table && w.table[k] == s.rows.table[k]
                   && (Expects(s.handlers[h].pc) != Some(w.table[k].status)))
    ensures Inv(Moved(s, h, x, blocked, writer, s.locks, w, g))
  {
    hide RequestLocks.Inv, RowsInv, LogInv, HandlerOk, GrowsFor;
    AllOthersKept(s, h, x, w, g);
    MoveLocks(s, h, x, blocked, writer, s.locks, w, g);
    assert forall o <- s.handlers :: ReconcilingPc(s.handlers[o].pc) ==> LockOk(s.locks, s.writer, o, s.handlers[o]);
    MoveOwn(s, h, x, blocked, writer, s.locks, w, g);
  }

  /** The same with the table, the gate and the writer untouched. */
  lemma HistoryStepKeeps(s: Machine, h: nat, x: Handler, w: Rows, g: Log)
    requires Inv(s) && At(s, h)
    requires x.request == s.handlers[h].request && w.table == s.rows.table
    requires LockOk(s.locks, s.writer, h, x) && HandlerOk(w, g, h, x) && !ReconcilingPc(x.pc)
    requires RowsInv(w) && LogInv(w, g) && GrowsFor(s.rows, s.log, w, g, h)
    requires Expects(x.pc) == Expects(s.handlers[h].pc) || Expects(s.handlers[h].pc) == None
    ensures Inv(Moved(s, h, x, s.blocked, s.writer, s.locks, w, g))
  {
    hide Inv, RowsInv, LogInv, GrowsFor, LockOk, HandlerOk;
    ChangingStepKeeps(s, h, x, s.blocked, s.writer, w, g);
  }

  lemma RowAndLogFacts(s: Machine)
    requires Inv(s)
    ensures RowsInv(s.rows) && LogInv(s.rows, s.log)
  {
  }
}
