/** Runs put together from smaller ones, and the stretches of a run that take an
    undisturbed handler from its arrival to the executor. */
module CommandRuns {
  import opened Wrappers
  import opened Ledger
  import opened CommandService

  lemma {:induction false} RunSplit(s: Machine, a: seq<Step>, b: seq<Step>)
    ensures Run(s, a + b) == Run(Run(s, a), b)
    decreases |a|
  {
    if a == [] {
      assert a + b == b;
    } else {
      assert (a + b)[1..] == a[1..] + b && (a + b)[0] == a[0];
      hide Next;
      RunSplit(Next(s, a[0]), a[1..], b);
    }
  }

  lemma RunFive(s: Machine, a: seq<Step>, b: seq<Step>, c: seq<Step>, d: seq<Step>, e: seq<Step>)
    ensures Run(s, a + b + c + d + e) == Run(Run(Run(Run(Run(s, a), b), c), d), e)
  {
    RunSplit(s, a, b);
    RunSplit(s, a + b, c);
    RunSplit(s, a + b + c, d);
    RunSplit(s, a + b + c + d, e);
  }

  lemma RunPair(s: Machine, a: Step, b: Step)
    ensures Run(s, [a, b]) == Next(Next(s, a), b)
  {
    hide Next;
    assert [a, b] == [a] + [b];
    RunSplit(s, [a], [b]);
    RunOne(s, a);
    RunOne(Next(s, a), b);
  }

  lemma RunThree(s: Machine, a: Step, b: Step, c: Step)
    ensures Run(s, [a, b, c]) == Next(Next(Next(s, a), b), c)
  {
    hide Next;
    assert [a, b, c][1..] == [b, c] && [b, c][1..] == [c] && [c][1..] == [];
    assert Run(Next(Next(s, a), b), [c]) == Next(Next(Next(s, a), b), c);
  }

  lemma RunFour(s: Machine, a: Step, b: Step, c: Step, d: Step)
    ensures Run(s, [a, b, c, d]) == Next(Next(Next(Next(s, a), b), c), d)
  {
    hide Next;
    assert [a, b, c, d][1..] == [b, c, d] && [b, c, d][1..] == [c, d] && [c, d][1..] == [d] && [d][1..] == [];
    assert Run(Next(Next(Next(s, a), b), c), [d]) == Next(Next(Next(Next(s, a), b), c), d);
    assert Run(Next(Next(s, a), b), [c, d]) == Run(Next(Next(Next(s, a), b), c), [d]);
  }

  function Entering(h: nat, service: nat, r: Request): seq<Step> {
    [DoArrive(service, r), DoCheckAdmission(h), DoLockRef(h), DoLockAcquire(h)]
  }

  function Claiming(h: nat, now: int): seq<Step> {
    [DoLookUp(h, now, ReadOk), DoValidate(h, None), DoEnterWriter(h), DoCommitClaim(h, now, NoFault)]
  }

  function Committing(h: nat, now: int): seq<Step> {
    [DoEnterWriter(h), DoCommitMove(h, now, NoFault, ReadOk), DoEnterWriter(h), DoCommitMove(h, now, NoFault, ReadOk)]
  }

  /** A new handler on a lock key nobody uses reaches the lookup. */
  lemma Entered(s: Machine, service: nat, r: Request)
    requires s.up && !s.blocked && s.writer.None? && s.nextHandler !in s.locks.tickets
    requires LockKeyOf(Handler(service, r, Start, None)) !in s.locks.entries
    ensures var h := s.nextHandler;
            var key := LockKeyOf(Handler(service, r, Start, None));
            var t := Run(s, Entering(h, service, r));
            && t == s.(handlers := s.handlers[h := Handler(service, r, LookingUp, None)], nextHandler := h + 1, locks := t.locks,
                       log := s.log.(arrived := s.log.arrived[h := r]))
            && t.locks.entries == s.locks.entries[key := s.locks.next]
            && t.locks.tickets == s.locks.tickets[h := RequestLocks.Ticket(key, s.locks.next)]
  {
    var h := s.nextHandler;
    var x := Handler(service, r, Start, None);
    hide LockKeyOf, Run;
    RunFour(s, DoArrive(service, r), DoCheckAdmission(h), DoLockRef(h), DoLockAcquire(h));
    var s1 := Arrive(s, service, r);
    assert s1 == s.(handlers := s.handlers[h := x], nextHandler := h + 1, log := s.log.(arrived := s.log.arrived[h := r]));
    var s2 := CheckAdmission(s1, h);
    assert s2 == s1.(handlers := s.handlers[h := x.(pc := Admitted)]);
    var s3 := LockRef(s2, h);
    assert LockKeyOf(x.(pc := Admitted)) == LockKeyOf(x) by { SameLockKey(x, Admitted); }
    var l := RequestLocks.Ref(s.locks, h, LockKeyOf(x));
    assert s3 == s1.(handlers := s.handlers[h := x.(pc := Waiting)], locks := l);
    assert l.mutexes[s.locks.next] == RequestLocks.Mutex(LockKeyOf(x), 1, None);
    assert RequestLocks.Holds(RequestLocks.Acquire(l, h), h);
  }

  lemma SameLockKey(x: Handler, pc: Pc)
    ensures LockKeyOf(x.(pc := pc)) == LockKeyOf(x)
  {
  }

  /** From the lookup to its own claim, over a row that is absent or expired. */
  lemma Claimed(s: Machine, h: nat, r: Request, now: int)
    requires At(s, h) && !s.blocked && s.writer.None? && s.handlers[h].pc.LookingUp? && s.handlers[h].request == r
    requires Find(s.rows.table, r.claim.key, now).None?
    requires ValidClaim(r.claim) && r.executionUsername != "" && r.executionBoundary != ""
    ensures var t := Run(s, Claiming(h, now));
            && t == s.(handlers := s.handlers[h := s.handlers[h].(pc := Authorizing, claimed := Some(s.rows.nextInc))],
                       rows := t.rows)
            && t.rows == s.rows.(table := t.rows.table, incs := s.rows.incs[r.claim.key := s.rows.nextInc],
                                 origin := s.rows.origin[s.rows.nextInc := Origin(h, r.claim)], nextInc := s.rows.nextInc + 1)
            && t.rows.table == Purge(s.rows.table, now)[r.claim.key := NewRecord(r.claim, now)]
  {
    var x := s.handlers[h];
    hide Run, ValidClaim, NewRecord;
    RunFour(s, DoLookUp(h, now, ReadOk), DoValidate(h, None), DoEnterWriter(h), DoCommitClaim(h, now, NoFault));
    var s1 := LookUp(s, h, now, ReadOk);
    assert s1 == Goto(s, h, Validating);
    var s2 := Validate(s1, h, None);
    assert s2.handlers == s.handlers[h := x.(pc := Reserving)];
    assert s2 == s.(handlers := s2.handlers);
    var s3 := EnterWriter(s2, h);
    assert s3 == s2.(writer := Some(h));
    hide LookUp, Validate, EnterWriter;
    var s4 := CommitClaim(s3, h, now, NoFault);
    assert s4.handlers == s.handlers[h := x.(pc := Authorizing, claimed := Some(s.rows.nextInc))];
  }

  lemma RunCommitting(s: Machine, h: nat, now: int)
    ensures Run(s, Committing(h, now))
            == CommitMove(EnterWriter(CommitMove(EnterWriter(s, h), h, now, NoFault, ReadOk), h), h, now, NoFault, ReadOk)
  {
    RunFour(s, DoEnterWriter(h), DoCommitMove(h, now, NoFault, ReadOk), DoEnterWriter(h), DoCommitMove(h, now, NoFault, ReadOk));
    hide Run, CommitMove, EnterWriter;
  }

  /** A status write on one row, with nothing else about it or its incarnation
      changed. */
  predicate MovedOn(w: Rows, w': Rows, k: Key, to: Status) {
    && w'.incs == w.incs && k in w.table && Matches(w'.table, k, to)
    && w'.table[k].claim == w.table[k].claim && w'.table[k].expiresAt == w.table[k].expiresAt
  }

  /** From an allow to the executor, on whatever pending row the key has. */
  lemma Committed(s: Machine, h: nat, d: AuthorizationMetadata, reply: Reply, now: int)
    requires At(s, h) && !s.blocked && s.writer.None?
    requires s.handlers[h].pc == Moving(AuthorizationPending, Accepted,
                                        NO_DATA.(adminLevel := Admin, authorizationMetadata := Some(d)), reply)
    requires s.handlers[h].request.executionUsername != "" && s.handlers[h].request.executionBoundary != ""
    requires Matches(s.rows.table, KeyOf(s.handlers[h]), AuthorizationPending) && KeyOf(s.handlers[h]) in s.rows.incs
    ensures var t := Run(s, Committing(h, now));
            && t.up && t.handlers == s.handlers[h := s.handlers[h].(pc := Executing(s.rows.incs[KeyOf(s.handlers[h])]))]
            && t.rows.origin == s.rows.origin && t.log.dispatches == s.log.dispatches
            && MovedOn(s.rows, t.rows, KeyOf(s.handlers[h]), Running)
  {
    var x := s.handlers[h];
    hide Run, Committing, Matches, CommitMove, EnterWriter, RunningData;
    RunCommitting(s, h, now);
    AcceptedMove(s, h, d, reply, now);
    var s2 := CommitMove(EnterWriter(s, h), h, now, NoFault, ReadOk);
    RunningMove(s2, h, reply, now);
    assert s2.handlers[h := s2.handlers[h].(pc := Executing(s2.rows.incs[KeyOf(s2.handlers[h])]))]
           == s.handlers[h := x.(pc := Executing(s.rows.incs[KeyOf(x)]))];
  }

  function AdminDecision(c: Claim): Decision {
    Decision(c.requiredCapability, c.key.callerUID, c.requestingGID, c.requestingUsername, true, Admin, 0)
  }

  lemma ApprovedMove(s: Machine, h: nat)
    requires At(s, h) && s.handlers[h].pc.Authorizing? && s.handlers[h].claimed.Some?
    ensures var (x, t) := (s.handlers[h], Authorize(s, h, AdminDecision(s.handlers[h].request.claim)));
            var m := AuthorizationMetadata(x.request.claim.requiredCapability, 0);
            && t.rows == s.rows && t.up && t.blocked == s.blocked && t.writer == s.writer
            && t.log.dispatches == s.log.dispatches
            && t.handlers == s.handlers[h := x.(pc :=
                 Moving(AuthorizationPending, Accepted, NO_DATA.(adminLevel := Admin, authorizationMetadata := Some(m)),
                        PersistenceReply(x.request.claim.key.commandID)))]
  {
    hide PersistenceReply;
  }

  /** From the authorizer to the executor, when the answer is yes. */
  lemma ApprovedAndSent(s: Machine, h: nat, now: int)
    requires At(s, h) && !s.blocked && s.writer.None? && s.handlers[h].pc.Authorizing?
    requires s.handlers[h].claimed.Some?
    requires s.handlers[h].request.executionUsername != "" && s.handlers[h].request.executionBoundary != ""
    requires Matches(s.rows.table, KeyOf(s.handlers[h]), AuthorizationPending) && KeyOf(s.handlers[h]) in s.rows.incs
    ensures var t := Run(s, [DoAuthorize(h, AdminDecision(s.handlers[h].request.claim))] + Committing(h, now));
            && t.up && t.handlers == s.handlers[h := s.handlers[h].(pc := Executing(s.rows.incs[KeyOf(s.handlers[h])]))]
            && t.rows.origin == s.rows.origin && t.log.dispatches == s.log.dispatches
            && MovedOn(s.rows, t.rows, KeyOf(s.handlers[h]), Running)
  {
    hide Run, Committing, Matches, Authorize, AdminDecision, PersistenceReply, MovedOn;
    var x := s.handlers[h];
    var d := AdminDecision(x.request.claim);
    RunSplit(s, [DoAuthorize(h, d)], Committing(h, now));
    RunOne(s, DoAuthorize(h, d));
    ApprovedMove(s, h);
    var t := Authorize(s, h, d);
    Committed(t, h, AuthorizationMetadata(x.request.claim.requiredCapability, 0), PersistenceReply(x.request.claim.key.commandID), now);
    hide Next;
    assert t.handlers[h := t.handlers[h].(pc := Executing(s.rows.incs[KeyOf(x)]))]
           == s.handlers[h := x.(pc := Executing(s.rows.incs[KeyOf(x)]))];
  }

  lemma AcceptedMove(s: Machine, h: nat, d: AuthorizationMetadata, reply: Reply, now: int)
    requires At(s, h) && !s.blocked && s.writer.None?
    requires s.handlers[h].pc == Moving(AuthorizationPending, Accepted,
                                        NO_DATA.(adminLevel := Admin, authorizationMetadata := Some(d)), reply)
    requires Matches(s.rows.table, KeyOf(s.handlers[h]), AuthorizationPending) && KeyOf(s.handlers[h]) in s.rows.incs
    ensures var (x, t) := (s.handlers[h], CommitMove(EnterWriter(s, h), h, now, NoFault, ReadOk));
            && t.up && !t.blocked && t.writer.None? && t.log == s.log
            && t.handlers == s.handlers[h := x.(pc := Moving(Accepted, Running, RunningData(x.request), reply))]
            && t.rows.origin == s.rows.origin && MovedOn(s.rows, t.rows, KeyOf(x), Accepted)
  {
    hide RunningData;
    assert EnterWriter(s, h) == s.(writer := Some(h));
  }

  lemma RunningMove(s: Machine, h: nat, reply: Reply, now: int)
    requires At(s, h) && !s.blocked && s.writer.None?
    requires s.handlers[h].pc == Moving(Accepted, Running, RunningData(s.handlers[h].request), reply)
    requires s.handlers[h].request.executionUsername != "" && s.handlers[h].request.executionBoundary != ""
    requires Matches(s.rows.table, KeyOf(s.handlers[h]), Accepted) && KeyOf(s.handlers[h]) in s.rows.incs
    ensures var (x, t) := (s.handlers[h], CommitMove(EnterWriter(s, h), h, now, NoFault, ReadOk));
            && t.up && t.handlers == s.handlers[h := x.(pc := Executing(s.rows.incs[KeyOf(x)]))]
            && t.rows.origin == s.rows.origin && t.log.dispatches == s.log.dispatches
            && MovedOn(s.rows, t.rows, KeyOf(x), Running)
  {
    assert EnterWriter(s, h) == s.(writer := Some(h));
  }

  lemma RunOne(s: Machine, a: Step)
    ensures Run(s, [a]) == Next(s, a)
  {
    hide Next;
    assert [a][1..] == [];
    assert Run(Next(s, a), []) == Next(s, a);
  }
}
