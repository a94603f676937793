/** The durable command ledger of internal/ledger/ledger.go.

    The SQLite table is a map from (caller UID, command ID) to a record. A
    transaction is atomic, but its commit may report an error whether or not it
    took effect: `TxFault` is the storage engine's choice. The pure functions
    say what one transaction does to the table; `CommandLedger` is the object
    whose methods change the table and the admission gate, and the command
    service's step system (CommandService.dfy) runs on the same functions. */
module Ledger {
  import opened Wrappers

  datatype Status =
    | AuthorizationPending
    | AuthorizationUncertain
    | AuthorizationFailed
    | Accepted
    | Running
    | Succeeded
    | Failed
    | Denied
    | Unknown

  datatype Key = Key(callerUID: nat, commandID: string)

  /** Stored error payloads and results, after JSON decoding. Codes, categories
      and the fixed message texts are enumerations. */
  datatype ErrorCode =
    | InternalCode
    | InvalidPayloadCode
    | InvalidCommandCode
    | UserLookupFailedCode
    | AuthorizationDeniedCode
    | AuthorizationOutcomeUnknownCode
    | CommandIDConflictCode
    | LedgerPersistenceFailedCode
    | SlurmCommandFailedCode
    | CommandOutcomeUnknownCode

  datatype ErrorCategory =
    ValidationError | AuthorizationError | ConflictError | SlurmError | TimeoutError | InternalError

  datatype Message =
    | UnsupportedOperation
    | InvalidCommandPayload
    | TargetUnavailable
    | BoundaryUnavailable
    | IDAlreadyUsed
    | StorageUnavailable
    | ResultUnavailable
    | OutcomeOfAuthorizationUnknown
    | BeingProcessed
    | StillBeingProcessed
    | AuthorizationUnavailable
    | UserInformationUnavailable
    | NotAuthorized
    | SlurmRejected
    | OutcomeUnknown

  datatype ErrorPayload =
    ErrorPayload(code: ErrorCode, category: ErrorCategory, message: Message, retryable: bool, commandID: string)

  datatype CommandStatus = StatusRunning | StatusSucceeded

  datatype CommandResponse =
    CommandResponse(commandID: string, resource: string, command: string,
                    targetNode: Option<string>, state: Option<string>, status: CommandStatus)

  /** SlurmDB's admin level; `NoLevel` is an absent column or an empty argument. */
  datatype AdminLevel = NoLevel | Admin | OtherLevel(name: string)

  datatype AuthorizationMetadata =
    AuthorizationMetadata(requiredCapability: string, authorizedAt: int)

  datatype Claim =
    Claim(key: Key, requestFingerprint: seq<bv8>, requestPayload: seq<bv8>,
          requestingUsername: string, requestingGID: nat, requestMessageID: string,
          serviceUID: nat, serviceUsername: string, resource: string, command: string,
          operationID: string, requiredCapability: string, targetNode: string)

  datatype Record =
    Record(claim: Claim, status: Status, adminLevel: AdminLevel,
           authorizationMetadata: Option<AuthorizationMetadata>,
           executionUID: Option<nat>, executionUsername: string, executionBoundary: string,
           resultPayload: Option<CommandResponse>, errorPayload: Option<ErrorPayload>,
           createdAt: int, updatedAt: int, expiresAt: int)

  datatype TransitionData =
    TransitionData(adminLevel: AdminLevel, authorizationMetadata: Option<AuthorizationMetadata>,
                   executionUID: Option<nat>, executionUsername: string, executionBoundary: string,
                   resultPayload: Option<CommandResponse>, errorPayload: Option<ErrorPayload>)

  const NO_DATA := TransitionData(NoLevel, None, None, "", "", None, None)

  type Table = map<Key, Record>

  /** 30 days in seconds. */
  const RETENTION: int := 30 * 24 * 3600

  datatype LedgerError =
    | InvalidTransition
    | AdmissionBlocked
    | PersistenceFailed
    | CommandIDConflict
    | CommandNotFound
    | Interrupted

  /** What the storage engine does with one write: `BeforeCommit` fails before
      the commit and rolls back; `CommitLost` and `CommitApplied` both report a
      failed commit, and only the second made it durable. */
  datatype TxFault = NoFault | BeforeCommit | CommitLost | CommitApplied

  /** What the storage engine does with one read. */
  datatype ReadFault = ReadOk | ReadInterrupted | ReadBroken

  // ------------------------------------------------------------------ statuses

  predicate AllowedTransition(from: Status, to: Status) {
    match from
    case AuthorizationPending =>
      to == Accepted || to == Denied || to == AuthorizationFailed || to == AuthorizationUncertain
    case Accepted => to == Running || to == AuthorizationUncertain
    case Running => to == Succeeded || to == Failed || to == Unknown
    case _ => false
  }

  predicate Unresolved(s: Status) {
    s == AuthorizationPending || s == Accepted || s == Running
  }

  /** The statuses an incarnation can have once its dispatch intent is durable. */
  predicate Reached(s: Status) {
    s == Running || s == Succeeded || s == Failed || s == Unknown
  }

  function Rank(s: Status): (r: nat)
    ensures r <= 3
  {
    match s
    case AuthorizationPending => 0
    case Accepted => 1
    case Running => 2
    case _ => 3
  }

  function RecoveredStatus(s: Status): Status {
    match s
    case AuthorizationPending => AuthorizationUncertain
    case Accepted => AuthorizationUncertain
    case Running => Unknown
    case _ => s
  }

  // -------------------------------------------------------------- transactions

  predicate ValidClaim(c: Claim) {
    && c.key.commandID != "" && c.requestingUsername != "" && c.requestMessageID != ""
    && c.serviceUsername != "" && c.requestFingerprint != [] && c.requestPayload != []
    && c.targetNode != ""
    && c.resource == "node" && c.command == "update"
    && ((c.operationID == "node.drain" && c.requiredCapability == "nodes.drain")
        || (c.operationID == "node.resume" && c.requiredCapability == "nodes.resume"))
  }

  function NewRecord(c: Claim, now: int): Record {
    Record(c, AuthorizationPending, NoLevel, None, None, "", "", None, None, now, now, now + RETENTION)
  }

  function Purge(t: Table, now: int): Table {
    map k | k in t && t[k].expiresAt > now :: t[k]
  }

  function RecoverRecord(r: Record, now: int): Record {
    if Unresolved(r.status) then r.(status := RecoveredStatus(r.status), updatedAt := now) else r
  }

  function Recover(t: Table, now: int): Table {
    map k | k in t :: RecoverRecord(t[k], now)
  }

  function Find(t: Table, k: Key, now: int): Option<Record> {
    if k in t && t[k].expiresAt > now then Some(t[k]) else None
  }

  /** The claim transaction up to its commit. */
  datatype ReserveOutcome = Conflict | Written(table: Table, record: Record, created: bool)

  function ReserveTx(t: Table, c: Claim, now: int): ReserveOutcome {
    var live := Purge(t, now);
    if c.key !in live then
      Written(live[c.key := NewRecord(c, now)], NewRecord(c, now), true)
    else if live[c.key].claim.requestFingerprint != c.requestFingerprint then
      Conflict
    else
      Written(live, live[c.key], false)
  }

  /** The argument checks of Transition, made before the ledger is touched. */
  predicate Admissible(from: Status, to: Status, d: TransitionData) {
    && AllowedTransition(from, to)
    && (to == Accepted ==> d.adminLevel == Admin && d.authorizationMetadata.Some?)
    && (to == Running ==> d.executionUID.Some? && d.executionUsername != "" && d.executionBoundary != "")
    && (to == Denied || to == AuthorizationFailed ==> d.errorPayload.Some?)
  }

  function Coalesce<T>(incoming: Option<T>, stored: Option<T>): Option<T> {
    if incoming.Some? then incoming else stored
  }

  function NonEmpty(incoming: string, stored: string): string {
    if incoming != "" then incoming else stored
  }

  function Merge(r: Record, to: Status, d: TransitionData, now: int): Record {
    r.(status := to, updatedAt := now,
       adminLevel := if d.adminLevel != NoLevel then d.adminLevel else r.adminLevel,
       authorizationMetadata := Coalesce(d.authorizationMetadata, r.authorizationMetadata),
       executionUID := Coalesce(d.executionUID, r.executionUID),
       executionUsername := NonEmpty(d.executionUsername, r.executionUsername),
       executionBoundary := NonEmpty(d.executionBoundary, r.executionBoundary),
       resultPayload := Coalesce(d.resultPayload, r.resultPayload),
       errorPayload := Coalesce(d.errorPayload, r.errorPayload))
  }

  predicate Matches(t: Table, k: Key, from: Status) {
    k in t && t[k].status == from
  }

  predicate NoneUnresolved(t: Table) {
    forall k <- t :: !Unresolved(t[k].status)
  }

  // ------------------------------------------------------- what the schema demands

  /** The status changes there are. */
  const TRANSITIONS: set<(Status, Status)> := {
    (AuthorizationPending, Accepted), (AuthorizationPending, Denied), (AuthorizationPending, AuthorizationFailed),
    (AuthorizationPending, AuthorizationUncertain), (Accepted, Running), (Accepted, AuthorizationUncertain),
    (Running, Succeeded), (Running, Failed), (Running, Unknown)
  }

  /** What has to come with a status. */
  predicate Complete(to: Status, d: TransitionData) {
    match to
    case Accepted => d.adminLevel == Admin && d.authorizationMetadata != None
    case Running => d.executionUID != None && |d.executionUsername| > 0 && |d.executionBoundary| > 0
    case Denied => d.errorPayload != None
    case AuthorizationFailed => d.errorPayload != None
    case _ => true
  }

  /** A field takes what it is given, and otherwise stays. */
  predicate Fills<T(==)>(before: T, given: T, absent: T, after: T) {
    (given != absent ==> after == given) && (given == absent ==> after == before)
  }

  /** Each datum went to its own field, and nothing else about the row changed
      but its status and the time. */
  predicate Rewritten(before: Record, to: Status, d: TransitionData, now: int, after: Record) {
    && after.status == to && after.updatedAt == now
    && after.claim == before.claim && after.createdAt == before.createdAt && after.expiresAt == before.expiresAt
    && Fills(before.adminLevel, d.adminLevel, NoLevel, after.adminLevel)
    && Fills(before.authorizationMetadata, d.authorizationMetadata, None, after.authorizationMetadata)
    && Fills(before.executionUID, d.executionUID, None, after.executionUID)
    && Fills(before.executionUsername, d.executionUsername, "", after.executionUsername)
    && Fills(before.executionBoundary, d.executionBoundary, "", after.executionBoundary)
    && Fills(before.resultPayload, d.resultPayload, None, after.resultPayload)
    && Fills(before.errorPayload, d.errorPayload, None, after.errorPayload)
  }

  lemma MergeRewrites(r: Record, to: Status, d: TransitionData, now: int)
    ensures Rewritten(r, to, d, now, Merge(r, to, d, now))
  {
  }

  lemma AdmissibleMeans(from: Status, to: Status, d: TransitionData)
    ensures Admissible(from, to, d) <==> (from, to) in TRANSITIONS && Complete(to, d)
  {
  }

  /** A claim that lacks nothing, for one of the two operations. */
  predicate WholeClaim(c: Claim) {
    && "" !in {c.key.commandID, c.requestingUsername, c.requestMessageID, c.serviceUsername, c.targetNode}
    && |c.requestFingerprint| > 0 && |c.requestPayload| > 0
    && (c.resource, c.command) == ("node", "update")
    && (c.operationID, c.requiredCapability) in {("node.drain", "nodes.drain"), ("node.resume", "nodes.resume")}
  }

  lemma ValidClaimMeans(c: Claim)
    ensures ValidClaim(c) <==> WholeClaim(c)
  {
  }

  /** A live row is one whose 30 days are not over. */
  predicate Live(t: Table, k: Key, now: int) {
    k in t && t[k].expiresAt > now
  }

  /** A table without its expired rows. */
  ghost predicate LivesOn(t: Table, now: int, t': Table) {
    forall k :: (k in t' <==> Live(t, k, now)) && (k in t' ==> t'[k] == t[k])
  }

  /** What the claim transaction leaves behind. */
  ghost predicate Claims(t: Table, c: Claim, now: int, t': Table, r: Record, created: bool) {
    && c.key in t' && t'[c.key] == r && LivesOn(t, now, if created then t' - {c.key} else t')
    && (created <==> !Live(t, c.key, now))
    && r.claim.requestFingerprint == c.requestFingerprint
    && (created ==>
          && r.claim == c && r.status == AuthorizationPending && r.adminLevel == NoLevel && r.authorizationMetadata == None
          && r.executionUID == None && r.executionUsername == "" && r.executionBoundary == ""
          && r.resultPayload == None && r.errorPayload == None
          && r.createdAt == r.updatedAt == now && r.expiresAt == now + 2592000)
  }

  lemma ReserveMeans(t: Table, c: Claim, now: int)
    ensures ReserveTx(t, c, now).Conflict? <==> Live(t, c.key, now) && t[c.key].claim.requestFingerprint != c.requestFingerprint
    ensures ReserveTx(t, c, now).Written? ==>
              var o := ReserveTx(t, c, now); Claims(t, c, now, o.table, o.record, o.created)
  {
  }

  /** What recovery makes of a row. */
  predicate Quarantined(before: Record, now: int, after: Record) {
    match before.status
    case AuthorizationPending => after == before.(status := AuthorizationUncertain, updatedAt := now)
    case Accepted => after == before.(status := AuthorizationUncertain, updatedAt := now)
    case Running => after == before.(status := Unknown, updatedAt := now)
    case _ => after == before
  }

  lemma RecoverMeans(t: Table, now: int)
    ensures Recover(t, now).Keys == t.Keys && forall k <- t :: Quarantined(t[k], now, Recover(t, now)[k])
  {
  }

  // ---------------------------------------------------------------- the object

  datatype Reservation = Reservation(record: Record, created: bool)

  class CommandLedger {
    var table: Table
    var blocked: bool

    /** A freshly opened ledger over a table found on disk: recovered, purged,
        gate open. */
    constructor Open(onDisk: Table, now: int)
      ensures !blocked
      ensures table == Purge(Recover(onDisk, now), now)
      ensures NoneUnresolved(table)
      ensures forall k :: k in table <==> Live(onDisk, k, now)
      ensures forall k <- table ::
                Quarantined(onDisk[k], now, table[k]) && table[k].status !in {AuthorizationPending, Accepted, Running}
    {
      RecoverMeans(onDisk, now);
      table := Purge(Recover(onDisk, now), now);
      blocked := false;
    }

    method BlockPersistence() returns (e: LedgerError)
      modifies this`blocked
      ensures blocked && e == PersistenceFailed
    {
      blocked := true;
      e := PersistenceFailed;
    }

    /** An invalid claim or a closed gate changes nothing. A conflict rolls back.
        Every storage failure closes the gate and leaves the table either
        untouched or as the transaction wrote it. */
    method ReserveAuthorization(c: Claim, now: int, fault: TxFault) returns (r: Result<Reservation, LedgerError>)
      modifies this
      ensures !ValidClaim(c) ==> r == Err(InvalidTransition)
      ensures ValidClaim(c) && old(blocked) ==> r == Err(AdmissionBlocked)
      ensures !ValidClaim(c) || old(blocked) ==> table == old(table) && blocked == old(blocked)
      ensures ValidClaim(c) && !old(blocked) ==>
                match ReserveTx(old(table), c, now)
                case Conflict =>
                  && table == old(table) && blocked == (fault == BeforeCommit)
                  && r == Err(if fault == BeforeCommit then PersistenceFailed else CommandIDConflict)
                case Written(tx, record, created) =>
                  && table == (if fault == NoFault || fault == CommitApplied then tx else old(table))
                  && blocked == (fault != NoFault)
                  && r == if fault == NoFault then Ok(Reservation(record, created)) else Err(PersistenceFailed)
      ensures r.Ok? ==> WholeClaim(c) && Claims(old(table), c, now, table, r.value.record, r.value.created)
      ensures WholeClaim(c) && !old(blocked) && fault == NoFault && r.Err? ==>
                && r == Err(CommandIDConflict) && Live(old(table), c.key, now)
                && old(table)[c.key].claim.requestFingerprint != c.requestFingerprint
    {
      ReserveMeans(table, c, now);
      ValidClaimMeans(c);
      if !ValidClaim(c) {
        return Err(InvalidTransition);
      }
      if blocked {
        return Err(AdmissionBlocked);
      }
      if fault == BeforeCommit {
        var e := BlockPersistence();
        return Err(e);
      }
      var tx := Purge(table, now);
      var created := c.key !in tx;
      if created {
        tx := tx[c.key := NewRecord(c, now)];
      }
      var record := tx[c.key];
      if record.claim.requestFingerprint != c.requestFingerprint {
        return Err(CommandIDConflict);
      }
      if fault == NoFault || fault == CommitApplied {
        table := tx;
      }
      if fault != NoFault {
        var e := BlockPersistence();
        return Err(e);
      }
      return Ok(Reservation(record, created));
    }

    method Lookup(k: Key, now: int, fault: ReadFault) returns (r: Result<Option<Record>, LedgerError>)
      modifies this`blocked
      ensures blocked == (old(blocked) || fault == ReadBroken)
      ensures r.Ok? <==> fault == ReadOk
      ensures r.Ok? ==> r.value == Find(table, k, now)
      ensures r.Ok? ==> r.value == if Live(table, k, now) then Some(table[k]) else None
    {
      match fault
      case ReadOk =>
        return Ok(Find(table, k, now));
      case ReadInterrupted =>
        return Err(Interrupted);
      case ReadBroken =>
        var e := BlockPersistence();
        return Err(e);
    }

    method TransitionConflict(k: Key, now: int, fault: ReadFault) returns (e: LedgerError)
      modifies this`blocked
      ensures fault == ReadOk ==>
                && blocked == old(blocked)
                && e == (if Find(table, k, now).None? then CommandNotFound else InvalidTransition)
      ensures fault != ReadOk ==> blocked && e == PersistenceFailed
    {
      var r := Lookup(k, now, fault);
      match r
      case Err(_) =>
        e := BlockPersistence();
      case Ok(found) =>
        e := if found.None? then CommandNotFound else InvalidTransition;
    }

    /** A compare-and-swap on the status: success is reported exactly when the
        arguments are admissible, the gate was open, the row had the expected
        status and nothing failed. No other row is ever touched. */
    method Transition(k: Key, from: Status, to: Status, d: TransitionData, now: int,
                      fault: TxFault, conflictRead: ReadFault)
      returns (r: Result<(), LedgerError>)
      modifies this
      ensures r.Ok? <==> Admissible(from, to, d) && !old(blocked) && Matches(old(table), k, from) && fault == NoFault
      ensures !Admissible(from, to, d) ==> r == Err(InvalidTransition)
      ensures Admissible(from, to, d) && old(blocked) ==> r == Err(AdmissionBlocked)
      ensures !Admissible(from, to, d) || old(blocked) ==> table == old(table) && blocked == old(blocked)
      ensures Admissible(from, to, d) && !old(blocked) ==>
                if Matches(old(table), k, from) then
                  && table == (if fault == NoFault || fault == CommitApplied then old(table)[k := Merge(old(table)[k], to, d, now)]
                               else old(table))
                  && blocked == (fault != NoFault) && (blocked ==> r == Err(PersistenceFailed))
                else
                  && table == old(table)
                  && blocked == (fault == BeforeCommit || conflictRead != ReadOk)
                  && r == Err(if blocked then PersistenceFailed
                              else if Find(old(table), k, now).None? then CommandNotFound else InvalidTransition)
      ensures r.Ok? ==>
                && (from, to) in TRANSITIONS && Complete(to, d)
                && k in old(table) && old(table)[k].status == from
                && k in table && Rewritten(old(table)[k], to, d, now, table[k]) && table == old(table)[k := table[k]]
      ensures (from, to) in TRANSITIONS && Complete(to, d) ==> (r.Err? && r.error == InvalidTransition ==> !Matches(old(table), k, from))
    {
      AdmissibleMeans(from, to, d);
      if k in table {
        MergeRewrites(table[k], to, d, now);
      }
      if !Admissible(from, to, d) {
        return Err(InvalidTransition);
      }
      if blocked {
        return Err(AdmissionBlocked);
      }
      if fault == BeforeCommit {
        var e := BlockPersistence();
        return Err(e);
      }
      if k !in table || table[k].status != from {
        var e := TransitionConflict(k, now, conflictRead);
        return Err(e);
      }
      if fault == NoFault || fault == CommitApplied {
        table := table[k := Merge(table[k], to, d, now)];
      }
      if fault != NoFault {
        var e := BlockPersistence();
        return Err(e);
      }
      return Ok(());
    }

    /** True when the recovery statement reported no error. */
    method RecoverInterrupted(now: int, fault: TxFault) returns (ok: bool)
      modifies this`table
      ensures ok <==> fault == NoFault
      ensures table == (if fault == NoFault || fault == CommitApplied then Recover(old(table), now) else old(table))
      ensures table.Keys == old(table).Keys
      ensures fault == NoFault || fault == CommitApplied ==> forall k <- table :: Quarantined(old(table)[k], now, table[k])
    {
      RecoverMeans(table, now);
      if fault == NoFault || fault == CommitApplied {
        table := Recover(table, now);
      }
      ok := fault == NoFault;
    }

    /** The gate reopens only over a table with nothing unresolved in it, and
        rows that were already terminal come through unchanged. */
    method Reconcile(integrityOk: bool, now: int, fault: TxFault, checkpointOk: bool)
      returns (r: Result<(), LedgerError>)
      modifies this
      ensures !old(blocked) ==> r.Ok? && table == old(table) && !blocked
      ensures old(blocked) ==> (r.Ok? <==> integrityOk && fault == NoFault && checkpointOk)
      ensures blocked <==> r.Err?
      ensures old(blocked) && !blocked ==>
                NoneUnresolved(table) && forall k <- table :: table[k].status !in {AuthorizationPending, Accepted, Running}
      ensures table == (if old(blocked) && integrityOk && (fault == NoFault || fault == CommitApplied)
                        then Recover(old(table), now) else old(table))
      ensures forall k <- table :: !Unresolved(old(table)[k].status) ==> table[k] == old(table)[k]
    {
      if !blocked {
        return Ok(());
      }
      if !integrityOk {
        var e := BlockPersistence();
        return Err(e);
      }
      var recovered := RecoverInterrupted(now, fault);
      if !recovered || !checkpointOk {
        var e := BlockPersistence();
        return Err(e);
      }
      if !NoneUnresolved(table) {
        assert false;
      }
      blocked := false;
      return Ok(());
    }

    method PurgeExpired(now: int, fault: TxFault) returns (ok: bool)
      modifies this`table
      ensures ok <==> fault == NoFault
      ensures forall k <- table :: k in old(table) && table[k] == old(table)[k]
      ensures forall k <- old(table) :: k !in table ==> old(table)[k].expiresAt <= now
      ensures ok ==> forall k <- table :: table[k].expiresAt > now
    {
      if fault == NoFault || fault == CommitApplied {
        table := Purge(table, now);
      }
      ok := fault == NoFault;
    }
  }

  // -------------------------------------------------- how one record can evolve

  /** `r'` is a possible later state of `r` within one incarnation: a status
      change raises the rank, a terminal record is frozen, and nothing recorded
      about the claim, the authorization or the execution identity is lost. */
  predicate Evolves(r: Record, r': Record) {
    && r'.claim == r.claim && r'.createdAt == r.createdAt && r'.expiresAt == r.expiresAt
    && (r'.status != r.status ==> Rank(r.status) < Rank(r'.status))
    && (!Unresolved(r.status) ==> r' == r)
    && (Reached(r.status) ==> Reached(r'.status))
    && (r.status == Accepted ==> Reached(r'.status) || r'.status == Accepted || r'.status == AuthorizationUncertain)
    && (r.adminLevel != NoLevel ==> r'.adminLevel != NoLevel)
    && (r.authorizationMetadata.Some? ==> r'.authorizationMetadata.Some?)
    && (r.executionUID.Some? ==> r'.executionUID.Some?)
    && (r.executionUsername != "" ==> r'.executionUsername != "")
    && (r.executionBoundary != "" ==> r'.executionBoundary != "")
    && (r.errorPayload.Some? ==> r'.errorPayload.Some?)
    && (r.resultPayload.Some? ==> r'.resultPayload.Some?)
  }

  lemma EvolvesTransitive(a: Record, b: Record, c: Record)
    requires Evolves(a, b) && Evolves(b, c)
    ensures Evolves(a, c)
  {
  }

  lemma MergeEvolves(r: Record, to: Status, d: TransitionData, now: int)
    requires Admissible(r.status, to, d)
    ensures Evolves(r, Merge(r, to, d, now))
    ensures Rank(r.status) < Rank(to)
  {
  }

  lemma RecoverEvolves(r: Record, now: int)
    ensures Evolves(r, RecoverRecord(r, now))
    ensures !Unresolved(RecoverRecord(r, now).status)
    ensures Reached(r.status) <==> Reached(RecoverRecord(r, now).status)
  {
  }
}
