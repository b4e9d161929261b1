/** Transactions as data, and the theorem that all of them keep the invariant. */
module Transactions {
  import opened Types
  import opened Domain
  import opened StoreSpec
  import opened Invariant
  import opened Tables
  import opened Grants
  import opened Completions

  /** One call to the store by anyone, or the passage of time. */
  datatype Tx =
    | Tick(seconds: nat)
    | Preparing(cmd: Command, ids: FreshIds)
    | CompletingReconcile(cmd: Command, operationId: Uuid, physicalBucketId: string, response: StoredHttpResponse,
                          audit: AuditEvent)
    | CompletingDelete(cmd: Command, operationId: Uuid, response: StoredHttpResponse, audit: AuditEvent)
    | CompletingCreate(cmd: Command, operationId: Uuid, credential: NewCredential, response: StoredHttpResponse,
                       audit: AuditEvent)
    | CompletingRevoke(cmd: Command, operationId: Uuid, response: StoredHttpResponse, audit: AuditEvent)
    | Renewing(operation: OperationRequest, operationId: Uuid)
    | Failing(operation: OperationRequest, operationId: Uuid, response: StoredHttpResponse, audit: AuditEvent)
    | RecordingUsage(organizationId: Uuid, projectId: Uuid, serviceId: Uuid, bytes: U64, objects: U64, at: int)
    | RecordingAudit(audit: AuditEvent)

  /** Commands are built as the handlers build them, and fresh identifiers are fresh. Operation ids, responses, physical
      ids, Garage keys and audit events are arbitrary. */
  ghost predicate Admissible(db: Db, tx: Tx) {
    match tx
    case Preparing(cmd, ids) => WellFormed(cmd) && FreshFor(db.issued, ids)
    case CompletingReconcile(cmd, _, _, _, _) => WellFormed(cmd) && cmd.payload.Reconcile?
    case CompletingDelete(cmd, _, _, _) => WellFormed(cmd) && cmd.payload.Delete?
    case CompletingCreate(cmd, _, _, _, _) => WellFormed(cmd) && cmd.payload.CreateCredential?
    case CompletingRevoke(cmd, _, _, _) => WellFormed(cmd) && cmd.payload.RevokeCredential?
    case _ => true
  }

  ghost function Apply(db: Db, tx: Tx): Db
    requires Admissible(db, tx)
  {
    match tx
    case Tick(seconds) => Ticked(db, seconds)
    case Preparing(cmd, ids) => PrepareStep(db, cmd, ids).db
    case CompletingReconcile(cmd, id, physical, response, audit) =>
      CompleteReconcileStep(db, cmd, id, physical, response, audit).db
    case CompletingDelete(cmd, id, response, audit) => CompleteDeleteStep(db, cmd, id, response, audit).db
    case CompletingCreate(cmd, id, credential, response, audit) =>
      CompleteCreateStep(db, cmd, id, credential, response, audit).db
    case CompletingRevoke(cmd, id, response, audit) => CompleteRevokeStep(db, cmd, id, response, audit).db
    case Renewing(operation, id) => RenewStep(db, operation, id).db
    case Failing(operation, id, response, audit) => FailStep(db, operation, id, response, audit).db
    case RecordingUsage(organizationId, projectId, serviceId, bytes, objects, at) =>
      RecordUsageStep(db, organizationId, projectId, serviceId, bytes, objects, at).db
    case RecordingAudit(audit) => RecordAuditStep(db, audit).db
  }

  // ---------------------------------------------------------------- readmission

  /** A granted operation's own service has no other unfinished operation. */
  lemma NoParallelToGranted(receipts: Receipts, key: Uuid)
    requires OnePerService(receipts) && InFlight(receipts, key)
    ensures RejectParallel(receipts, receipts[key].identity.serviceId, key).Pass?
  {
    forall k | k in receipts && k != key && receipts[k].state == InProgress
      ensures receipts[k].identity.serviceId != receipts[key].identity.serviceId
    {
      assert InFlight(receipts, k);
    }
    assert Parallel(receipts, receipts[key].identity.serviceId, key) == {};
  }

  lemma BucketFound(services: Services, buckets: Buckets, s: Uuid)
    requires ServicesOk(services, buckets) && s in services
    ensures FetchBucket(buckets, s).Ok? && FetchBucket(buckets, s).value.physicalBucketId.Some?
    ensures FetchBucket(buckets, s).value.bucketName == buckets[s].bucketName
  {
    assert ServiceOk(services[s], buckets[s]);
  }

  lemma HeldNameIsGranted(db: Db, cmd: Command, physical: Option<string>, applied: bool)
    requires cmd.payload.Reconcile? && HoldsName(db.names, cmd.payload.spec.bucketName, cmd.ServiceId())
    ensures GrantReconcile(db, cmd, physical, applied).Ok?
    ensures GrantReconcile(db, cmd, physical, applied).value.names == db.names
  {
  }

  /** The checks of a reconcile on a service that accepts it. */
  lemma StandingServiceGranted(db: Db, cmd: Command)
    requires cmd.payload.Reconcile? && cmd.ServiceId() in db.services && cmd.ServiceId() in db.buckets
    requires ServiceOk(db.services[cmd.ServiceId()], db.buckets[cmd.ServiceId()])
    requires ReconcileStands(db.services, db.buckets, db.names, cmd.operation.identity, cmd.payload.generation,
                             cmd.payload.name, cmd.payload.spec)
    requires RejectParallel(db.receipts, cmd.ServiceId(), cmd.operation.key).Pass?
    ensures AdmitReconcile(db, cmd)
            == GrantReconcile(db, cmd, db.buckets[cmd.ServiceId()].physicalBucketId,
                              db.services[cmd.ServiceId()].desiredGeneration == cmd.payload.generation)
  {
  }

  lemma ReconcileReadmits(db: Db, cmd: Command)
    requires WellFormed(cmd) && cmd.payload.Reconcile? && ServicesOk(db.services, db.buckets)
    requires Stands(db.services, db.buckets, db.names, db.credentials, cmd.operation.identity)
    requires RejectParallel(db.receipts, cmd.ServiceId(), cmd.operation.key).Pass?
    ensures AdmitReconcile(db, cmd).Ok? && AdmitReconcile(db, cmd).value.names == db.names
  {
    var s := cmd.ServiceId();
    if s in db.services {
      assert ServiceOk(db.services[s], db.buckets[s]);
      StandingServiceGranted(db, cmd);
      HeldNameIsGranted(db, cmd, db.buckets[s].physicalBucketId, db.services[s].desiredGeneration == cmd.payload.generation);
    } else {
      HeldNameIsGranted(db, cmd, None, false);
    }
  }

  lemma ServiceReadmits(db: Db, identity: Identity)
    requires ServicesOk(db.services, db.buckets) && InScope(db.services, identity)
    ensures ReadyBucket(db, identity) == FetchBucket(db.buckets, identity.serviceId)
    ensures ReadyBucket(db, identity).Ok? && ReadyBucket(db, identity).value.physicalBucketId.Some?
  {
    BucketFound(db.services, db.buckets, identity.serviceId);
    assert ServiceOk(db.services[identity.serviceId], db.buckets[identity.serviceId]);
  }

  lemma DeleteReadmits(db: Db, cmd: Command)
    requires WellFormed(cmd) && cmd.payload.Delete? && InScope(db.services, cmd.operation.identity)
    requires cmd.payload.generation == db.services[cmd.ServiceId()].desiredGeneration + 1
    requires FetchBucket(db.buckets, cmd.ServiceId()).Ok?
    requires FetchBucket(db.buckets, cmd.ServiceId()).value.physicalBucketId.Some?
    requires RejectParallel(db.receipts, cmd.ServiceId(), cmd.operation.key).Pass?
    ensures AdmitDelete(db, cmd).Ok? && AdmitDelete(db, cmd).value.names == db.names
  {
  }

  lemma CredentialReadmits(db: Db, cmd: Command, operationId: Uuid)
    requires WellFormed(cmd) && ReadyBucket(db, cmd.operation.identity).Ok?
    requires RejectParallel(db.receipts, cmd.ServiceId(), cmd.operation.key).Pass?
    requires cmd.payload.CreateCredential? || cmd.payload.RevokeCredential?
    requires cmd.payload.CreateCredential? ==>
               operationId in db.reservations && ReservationFor(db.reservations[operationId], cmd.operation.identity)
    requires cmd.payload.RevokeCredential? ==>
               && cmd.payload.credentialId in db.credentials
               && db.credentials[cmd.payload.credentialId].serviceId == cmd.ServiceId()
    ensures Readmit(db, cmd, operationId).Ok? && Readmit(db, cmd, operationId).value.names == db.names
  {
  }

  /** A standing grant passes every check of its prepare call again. */
  lemma StandingReadmits(db: Db, cmd: Command, operationId: Uuid)
    requires WellFormed(cmd) && ServicesOk(db.services, db.buckets)
    requires Stands(db.services, db.buckets, db.names, db.credentials, cmd.operation.identity)
    requires RejectParallel(db.receipts, cmd.ServiceId(), cmd.operation.key).Pass?
    requires cmd.payload.CreateCredential? ==>
               operationId in db.reservations && ReservationFor(db.reservations[operationId], cmd.operation.identity)
    ensures Readmit(db, cmd, operationId).Ok?
    ensures Readmit(db, cmd, operationId).value.names == db.names
  {
    match cmd.payload {
      case Reconcile(_, _, _) => ReconcileReadmits(db, cmd);
      case Delete(_, _) =>
        BucketFound(db.services, db.buckets, cmd.ServiceId());
        DeleteReadmits(db, cmd);
      case _ =>
        ServiceReadmits(db, cmd.operation.identity);
        CredentialReadmits(db, cmd, operationId);
    }
  }

  lemma GrantedCommandIsValid(receipts: Receipts, issued: set<Uuid>, cmd: Command)
    requires ReceiptsOk(receipts, issued) && WellFormed(cmd)
    requires cmd.operation.key in receipts && receipts[cmd.operation.key].identity == cmd.operation.identity
    ensures ValidateCommand(cmd).None?
  {
    assert ReceiptOk(cmd.operation.key, receipts[cmd.operation.key]);
    assert cmd == Command(OperationRequest(cmd.operation.key, cmd.operation.identity), cmd.payload);
  }

  /** After a takeover the new operation finds everything it needs, including its credential reservation. */
  lemma TakeOverReadmits(db: Db, cmd: Command, operationId: Uuid)
    requires Retaking(db, cmd, operationId)
    ensures var taken := TakeOver(db, cmd.operation.key, operationId);
            && Readmit(taken, cmd, operationId).Ok?
            && Readmit(taken, cmd, operationId).value.names == db.names
  {
    var key, taken := cmd.operation.key, TakeOver(db, cmd.operation.key, operationId);
    TakeOverKeepsInv(db, cmd, operationId);
    assert InFlight(taken.receipts, key) && taken.receipts[key].identity == cmd.operation.identity;
    GrantedCommandIsValid(db.receipts, db.issued, cmd);
    NoParallelToGranted(taken.receipts, key);
    assert Stands(taken.services, taken.buckets, taken.names, taken.credentials, taken.receipts[key].identity);
    if cmd.payload.CreateCredential? {
      assert Creating(taken.receipts, key);
    }
    StandingReadmits(taken, cmd, operationId);
  }

  lemma PrepareGrants(db: Db, cmd: Command, ids: FreshIds)
    requires Newcomer(db, cmd, ids.credentialId)
    ensures PrepareStep(db, cmd, ids)
            == Step(Reserve(db, cmd, ids, GrantedNames(db, cmd, ids)),
                    Ok(Execute(ids.operationId, Admit(db, cmd, ids.credentialId).value.context)))
  {
  }

  lemma PrepareRetakes(db: Db, cmd: Command, ids: FreshIds)
    requires Lapsed(db, cmd.operation) && ValidateCommand(cmd).None?
    requires Readmit(TakeOver(db, cmd.operation.key, ids.operationId), cmd, ids.operationId).Ok?
    requires Readmit(TakeOver(db, cmd.operation.key, ids.operationId), cmd, ids.operationId).value.names == db.names
    ensures var taken := TakeOver(db, cmd.operation.key, ids.operationId);
            PrepareStep(db, cmd, ids)
            == Step(taken, Ok(Execute(ids.operationId, Readmit(taken, cmd, ids.operationId).value.context)))
  {
  }

  lemma PrepareDeclines(db: Db, cmd: Command, ids: FreshIds)
    requires !Newcomer(db, cmd, ids.credentialId) && !Lapsed(db, cmd.operation)
    ensures PrepareStep(db, cmd, ids).db == db
    ensures var reply := PrepareStep(db, cmd, ids).reply; !(reply.Ok? && reply.value.Execute?)
  {
  }

  /** Every prepare call either grants a new operation, or takes over a lapsed one and never fails to, or changes
      nothing and grants nothing. */
  lemma PrepareOutcome(db: Db, cmd: Command, ids: FreshIds)
    requires Inv(db) && WellFormed(cmd) && FreshFor(db.issued, ids)
    ensures var step := PrepareStep(db, cmd, ids);
            if Newcomer(db, cmd, ids.credentialId) then
              step == Step(Reserve(db, cmd, ids, GrantedNames(db, cmd, ids)),
                           Ok(Execute(ids.operationId, Admit(db, cmd, ids.credentialId).value.context)))
            else if Lapsed(db, cmd.operation) then
              && var taken := TakeOver(db, cmd.operation.key, ids.operationId);
              && Readmit(taken, cmd, ids.operationId).Ok?
              && step == Step(taken, Ok(Execute(ids.operationId, Readmit(taken, cmd, ids.operationId).value.context)))
            else
              step.db == db && !(step.reply.Ok? && step.reply.value.Execute?)
  {
    if Newcomer(db, cmd, ids.credentialId) {
      PrepareGrants(db, cmd, ids);
    } else if Lapsed(db, cmd.operation) {
      GrantedCommandIsValid(db.receipts, db.issued, cmd);
      TakeOverReadmits(db, cmd, ids.operationId);
      PrepareRetakes(db, cmd, ids);
    } else {
      PrepareDeclines(db, cmd, ids);
    }
  }

  // ---------------------------------------------------------------- the invariant is kept

  lemma RenewOutcome(db: Db, operation: OperationRequest, operationId: Uuid)
    ensures var step := RenewStep(db, operation, operationId);
            if && RequireInProgress(db.receipts, operation, operationId).Pass?
               && (operation.identity.generation.Some? ==> operation.identity.generation.value > 0)
            then step == Step(Renewed(db, operation.key), Ok(()))
            else step.db == db && step.reply.Err?
  {
  }

  lemma RenewedTablesOk(db: Db, key: Uuid)
    requires ReceiptsOk(db.receipts, db.issued) && InFlight(db.receipts, key)
    requires NamesOk(db.services, db.buckets, db.names, db.receipts) && Correspond(db.reservations, db.receipts)
    requires GrantsStand(db.services, db.buckets, db.names, db.credentials, db.receipts)
    ensures var after := Renewed(db, key);
            && ReceiptsOk(after.receipts, after.issued)
            && NamesOk(after.services, after.buckets, after.names, after.receipts)
            && Correspond(after.reservations, after.receipts)
            && GrantsStand(after.services, after.buckets, after.names, after.credentials, after.receipts)
  {
    var after := Renewed(db, key);
    ReceiptChanged(db.receipts, db.issued, key, after.receipts[key], after.issued);
    NamesWithReceipt(db.services, db.buckets, db.names, db.receipts, key, after.receipts[key]);
    StandingUnchanged(db, key, after.receipts[key]);
    CorrespondenceUntouched(db.reservations, db.receipts, key, after.receipts[key]);
  }

  lemma RenewedKeepsInv(db: Db, key: Uuid)
    requires Inv(db) && InFlight(db.receipts, key)
    ensures Inv(Renewed(db, key))
  {
    RenewedTablesOk(db, key);
  }

  ghost predicate OnlyUsageDiffers(row: BucketRow, other: BucketRow) {
    row == other.(usedBytes := row.usedBytes, usedObjects := row.usedObjects, usageMeasuredAt := row.usageMeasuredAt)
  }

  /** Usage columns are outside every other table's concern. */
  lemma UsageKeepsServices(services: Services, buckets: Buckets, s: Uuid, row: BucketRow)
    requires ServicesOk(services, buckets) && s in buckets
    requires row.usedBytes >= 0 && row.usedObjects >= 0 && OnlyUsageDiffers(row, buckets[s])
    ensures ServicesOk(services, buckets[s := row])
  {
    var after := buckets[s := row];
    forall t | t in services ensures ServiceOk(services[t], after[t]) {
      assert ServiceOk(services[t], buckets[t]);
    }
    forall t, u | t in after && u in after && t != u
      ensures after[t].bucketName != after[u].bucketName && after[t].physicalBucketId != after[u].physicalBucketId
    {
      assert buckets[t].bucketName != buckets[u].bucketName;
      assert buckets[t].physicalBucketId != buckets[u].physicalBucketId;
    }
  }

  lemma UsageKeepsNames(services: Services, buckets: Buckets, names: Names, receipts: Receipts, s: Uuid, row: BucketRow)
    requires NamesOk(services, buckets, names, receipts) && s in buckets
    requires row.bucketName == buckets[s].bucketName
    ensures NamesOk(services, buckets[s := row], names, receipts)
  {
    var after := buckets[s := row];
    forall n | n in names ensures NameOwned(services, after, receipts, n, names[n]) {
      assert NameOwned(services, buckets, receipts, n, names[n]);
    }
    forall t | t in after && Live(services, t) ensures HoldsName(names, after[t].bucketName, t) {
      assert HoldsName(names, buckets[t].bucketName, t);
    }
  }

  lemma UsageKeepsStanding(db: Db, s: Uuid, row: BucketRow)
    requires GrantsStand(db.services, db.buckets, db.names, db.credentials, db.receipts)
    requires s in db.buckets && row.bucketName == db.buckets[s].bucketName
    ensures GrantsStand(db.services, db.buckets[s := row], db.names, db.credentials, db.receipts)
  {
    var buckets := db.buckets[s := row];
    forall k | InFlight(db.receipts, k)
      ensures Stands(db.services, buckets, db.names, db.credentials, db.receipts[k].identity)
    {
      StandsElsewhere(db.services, db.buckets, db.names, db.credentials, db.services, buckets, db.names,
                      db.credentials, db.receipts[k].identity);
    }
  }

  lemma UsageKeepsInv(db: Db, s: Uuid, row: BucketRow)
    requires Inv(db) && s in db.buckets
    requires row.usedBytes >= 0 && row.usedObjects >= 0 && OnlyUsageDiffers(row, db.buckets[s])
    ensures Inv(Measured(db, s, row))
  {
    UsageKeepsServices(db.services, db.buckets, s, row);
    UsageKeepsNames(db.services, db.buckets, db.names, db.receipts, s, row);
    UsageKeepsStanding(db, s, row);
  }

  // ---------------------------------------------------------------- effects

  /** What a transaction that is not rolled back does to the tables. */
  datatype Effect =
    | Idle
    | Ticks(seconds: nat)
    | Grants(cmd: Command, ids: FreshIds)
    | Retakes(cmd: Command, operationId: Uuid)
    | Renews(operation: OperationRequest, operationId: Uuid)
    | Reconciles(cmd: Command, operationId: Uuid, physicalBucketId: string, response: StoredHttpResponse,
                 audit: AuditEvent)
    | Removes(cmd: Command, operationId: Uuid, response: StoredHttpResponse, audit: AuditEvent)
    | Issues(cmd: Command, operationId: Uuid, credential: NewCredential, response: StoredHttpResponse,
             audit: AuditEvent)
    | Withdraws(cmd: Command, operationId: Uuid, response: StoredHttpResponse, audit: AuditEvent)
    | Fails(operation: OperationRequest, operationId: Uuid, response: StoredHttpResponse, audit: AuditEvent)
    | Measures(serviceId: Uuid, row: BucketRow)
    | Notes(audit: AuditEvent)
  {
    /** The transactions that end an operation. */
    predicate Finishing() {
      Reconciles? || Removes? || Issues? || Withdraws? || Fails?
    }

    /** The operation a finishing transaction ends. */
    function Ended(): OperationRequest
      requires Finishing()
    {
      if Fails? then operation else cmd.operation
    }
  }

  ghost predicate Enabled(db: Db, effect: Effect) {
    match effect
    case Idle => true
    case Ticks(_) => true
    case Grants(cmd, ids) => WellFormed(cmd) && FreshFor(db.issued, ids) && Newcomer(db, cmd, ids.credentialId)
    case Retakes(cmd, id) => WellFormed(cmd) && id !in db.issued && Lapsed(db, cmd.operation)
    case Renews(operation, id) => RequireInProgress(db.receipts, operation, id).Pass?
    case Reconciles(cmd, id, physical, response, audit) =>
      WellFormed(cmd) && cmd.payload.Reconcile? && ReconcileCommits(db, cmd, id, physical, response, audit)
    case Removes(cmd, id, response, audit) =>
      WellFormed(cmd) && cmd.payload.Delete? && DeleteCommits(db, cmd, id, response, audit)
    case Issues(cmd, id, credential, response, audit) =>
      WellFormed(cmd) && cmd.payload.CreateCredential? && CreateCommits(db, cmd, id, credential, response, audit)
    case Withdraws(cmd, id, response, audit) =>
      WellFormed(cmd) && cmd.payload.RevokeCredential? && RevokeCommits(db, cmd, id, response, audit)
    case Fails(operation, id, response, audit) => MayFinish(db, operation, id, response, audit) && response.failed
    case Measures(s, row) =>
      s in db.buckets && row.usedBytes >= 0 && row.usedObjects >= 0 && OnlyUsageDiffers(row, db.buckets[s])
    case Notes(audit) => AuditAccepted(audit)
  }

  ghost function Perform(db: Db, effect: Effect): Db
    requires Enabled(db, effect)
  {
    match effect
    case Idle => db
    case Ticks(seconds) => Ticked(db, seconds)
    case Grants(cmd, ids) => Reserve(db, cmd, ids, GrantedNames(db, cmd, ids))
    case Retakes(cmd, id) => TakeOver(db, cmd.operation.key, id)
    case Renews(operation, _) => Renewed(db, operation.key)
    case Reconciles(cmd, id, physical, response, audit) =>
      Reconciled(db, cmd, id, physical, Finished(db.receipts, cmd.operation.key, response), audit)
    case Removes(cmd, id, response, audit) =>
      Removed(db, cmd, id, Finished(db.receipts, cmd.operation.key, response), audit)
    case Issues(cmd, id, credential, response, audit) =>
      Issued(db, cmd, id, credential, Finished(db.receipts, cmd.operation.key, response), audit)
    case Withdraws(cmd, _, response, audit) =>
      Withdrawn(db, cmd, Finished(db.receipts, cmd.operation.key, response), audit)
    case Fails(operation, id, response, audit) =>
      Abandoned(db, operation, id, Finished(db.receipts, operation.key, response), audit)
    case Measures(s, row) => Measured(db, s, row)
    case Notes(audit) => Noted(db, audit)
  }

  /** The effect of a call: nothing at all when the call is rolled back. */
  ghost function EffectOf(db: Db, tx: Tx): Effect
    requires Admissible(db, tx)
  {
    match tx
    case Tick(seconds) => Ticks(seconds)
    case Preparing(cmd, ids) =>
      if Newcomer(db, cmd, ids.credentialId) then Grants(cmd, ids)
      else if Lapsed(db, cmd.operation) then Retakes(cmd, ids.operationId)
      else Idle
    case CompletingReconcile(cmd, id, physical, response, audit) =>
      if ReconcileCommits(db, cmd, id, physical, response, audit)
      then Reconciles(cmd, id, physical, response, audit) else Idle
    case CompletingDelete(cmd, id, response, audit) =>
      if DeleteCommits(db, cmd, id, response, audit) then Removes(cmd, id, response, audit) else Idle
    case CompletingCreate(cmd, id, credential, response, audit) =>
      if CreateCommits(db, cmd, id, credential, response, audit)
      then Issues(cmd, id, credential, response, audit) else Idle
    case CompletingRevoke(cmd, id, response, audit) =>
      if RevokeCommits(db, cmd, id, response, audit) then Withdraws(cmd, id, response, audit) else Idle
    case Renewing(operation, id) => if RenewStep(db, operation, id).reply.Ok? then Renews(operation, id) else Idle
    case Failing(operation, id, response, audit) =>
      if MayFinish(db, operation, id, response, audit) && response.failed
      then Fails(operation, id, response, audit) else Idle
    case RecordingUsage(organizationId, projectId, s, bytes, objects, at) =>
      if RecordUsageStep(db, organizationId, projectId, s, bytes, objects, at).reply.Ok?
      then Measures(s, RecordUsageStep(db, organizationId, projectId, s, bytes, objects, at).db.buckets[s]) else Idle
    case RecordingAudit(audit) => if AuditAccepted(audit) then Notes(audit) else Idle
  }

  lemma CompletionPerforms(db: Db, tx: Tx)
    requires Admissible(db, tx)
    requires tx.CompletingReconcile? || tx.CompletingDelete? || tx.CompletingCreate? || tx.CompletingRevoke?
    ensures Enabled(db, EffectOf(db, tx)) && Apply(db, tx) == Perform(db, EffectOf(db, tx))
  {
    match tx {
      case CompletingReconcile(cmd, id, physical, response, audit) =>
        ReconcileOutcome(db, cmd, id, physical, response, audit);
      case CompletingDelete(cmd, id, response, audit) => DeleteOutcome(db, cmd, id, response, audit);
      case CompletingCreate(cmd, id, credential, response, audit) =>
        CreateOutcome(db, cmd, id, credential, response, audit);
      case CompletingRevoke(cmd, id, response, audit) => RevokeOutcome(db, cmd, id, response, audit);
    }
  }

  lemma PreparePerforms(db: Db, tx: Tx)
    requires Inv(db) && Admissible(db, tx) && tx.Preparing?
    ensures Enabled(db, EffectOf(db, tx)) && Apply(db, tx) == Perform(db, EffectOf(db, tx))
  {
    PrepareOutcome(db, tx.cmd, tx.ids);
  }

  lemma RecordingPerforms(db: Db, tx: Tx)
    requires Admissible(db, tx)
    requires tx.Tick? || tx.Renewing? || tx.Failing? || tx.RecordingUsage? || tx.RecordingAudit?
    ensures Enabled(db, EffectOf(db, tx)) && Apply(db, tx) == Perform(db, EffectOf(db, tx))
  {
    match tx {
      case Renewing(operation, id) => RenewOutcome(db, operation, id);
      case Failing(operation, id, response, audit) => FailOutcome(db, operation, id, response, audit);
      case _ =>
    }
  }

  /** Every call either has exactly the effect named for it, or leaves the tables as they were. */
  lemma ApplyPerforms(db: Db, tx: Tx)
    requires Inv(db) && Admissible(db, tx)
    ensures Enabled(db, EffectOf(db, tx))
    ensures Apply(db, tx) == Perform(db, EffectOf(db, tx))
  {
    match tx {
      case Preparing(_, _) => PreparePerforms(db, tx);
      case CompletingReconcile(_, _, _, _, _) => CompletionPerforms(db, tx);
      case CompletingDelete(_, _, _, _) => CompletionPerforms(db, tx);
      case CompletingCreate(_, _, _, _, _) => CompletionPerforms(db, tx);
      case CompletingRevoke(_, _, _, _) => CompletionPerforms(db, tx);
      case _ => RecordingPerforms(db, tx);
    }
  }

  lemma ClockAndAuditKeepInv(db: Db, clock: int, audit: seq<AuditEvent>)
    requires Inv(db)
    ensures Inv(db.(clock := clock)) && Inv(db.(audit := audit))
  {
  }

  lemma ServiceChangeKeepsInv(db: Db, effect: Effect)
    requires Inv(db) && Enabled(db, effect) && (effect.Reconciles? || effect.Removes?)
    ensures Inv(Perform(db, effect))
  {
    match effect {
      case Reconciles(cmd, id, physical, response, audit) =>
        ReconciledKeepsInv(db, cmd, id, physical, response, audit);
      case Removes(cmd, id, response, audit) => RemovedKeepsInv(db, cmd, id, response, audit);
    }
  }

  lemma CredentialChangeKeepsInv(db: Db, effect: Effect)
    requires Inv(db) && Enabled(db, effect) && (effect.Issues? || effect.Withdraws?)
    ensures Inv(Perform(db, effect))
  {
    match effect {
      case Issues(cmd, id, credential, response, audit) => IssuedKeepsInv(db, cmd, id, credential, response, audit);
      case Withdraws(cmd, id, response, audit) => WithdrawnKeepsInv(db, cmd, id, response, audit);
    }
  }

  lemma FinishingKeepsInv(db: Db, effect: Effect)
    requires Inv(db) && Enabled(db, effect) && effect.Finishing()
    ensures Inv(Perform(db, effect))
  {
    if effect.Reconciles? || effect.Removes? {
      ServiceChangeKeepsInv(db, effect);
    } else if effect.Fails? {
      AbandonedKeepsInv(db, effect.operation, effect.operationId, effect.response, effect.audit);
    } else {
      CredentialChangeKeepsInv(db, effect);
    }
  }

  lemma GrantingKeepsInv(db: Db, effect: Effect)
    requires Inv(db) && Enabled(db, effect) && (effect.Grants? || effect.Retakes? || effect.Renews?)
    ensures Inv(Perform(db, effect))
  {
    match effect {
      case Grants(cmd, ids) => ReserveKeepsInv(db, cmd, ids);
      case Retakes(cmd, id) => TakeOverKeepsInv(db, cmd, id);
      case Renews(operation, id) =>
        CurrentReceipt(db.receipts, operation, id);
        RenewedKeepsInv(db, operation.key);
    }
  }

  lemma RecordingKeepsInv(db: Db, effect: Effect)
    requires Inv(db) && Enabled(db, effect) && (effect.Ticks? || effect.Notes? || effect.Measures?)
    ensures Inv(Perform(db, effect))
  {
    match effect {
      case Ticks(seconds) => ClockAndAuditKeepInv(db, db.clock + seconds, db.audit);
      case Notes(audit) => ClockAndAuditKeepInv(db, db.clock, db.audit + [audit]);
      case Measures(s, row) => UsageKeepsInv(db, s, row);
    }
  }

  lemma PerformKeepsInv(db: Db, effect: Effect)
    requires Inv(db) && Enabled(db, effect)
    ensures Inv(Perform(db, effect))
  {
    if effect.Finishing() {
      FinishingKeepsInv(db, effect);
    } else if effect.Grants? || effect.Retakes? || effect.Renews? {
      GrantingKeepsInv(db, effect);
    } else if effect != Idle {
      RecordingKeepsInv(db, effect);
    }
  }

  /** Every transaction keeps the invariant, whatever operation id, response or audit event it carries. */
  lemma ApplyKeepsInv(db: Db, tx: Tx)
    requires Inv(db) && Admissible(db, tx)
    ensures Inv(Apply(db, tx))
  {
    ApplyPerforms(db, tx);
    PerformKeepsInv(db, EffectOf(db, tx));
  }
}
