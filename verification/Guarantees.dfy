/** What the invariant means for callers: limits, unreachable errors, names, generations and deletion. */
module Guarantees {
  import opened Types
  import opened Domain
  import opened StoreSpec
  import opened Invariant
  import opened Tables
  import opened Grants
  import opened Completions
  import opened Transactions
  import opened Evolution
  import opened StoreRuns

  // ---------------------------------------------------------------- credential limits

  /** The configured ceilings hold in every reachable state. */
  lemma LimitsHoldThroughout(dbs: seq<Db>, txs: seq<Tx>, n: nat, s: Uuid, organizationId: Uuid)
    requires StoreRun(dbs, txs) && n <= |txs|
    ensures InBucket(dbs[n].credentials, dbs[n].reservations, s) <= dbs[0].limits.maxCredentialsPerBucket
    ensures InOrganization(dbs[n].credentials, dbs[n].reservations, organizationId) <= dbs[0].limits.maxTotalCredentials
  {
    RunKeepsInv(dbs, txs, n);
    RunEvolves(dbs, txs, 0, n);
  }

  /** A first grant of a credential creation. */
  ghost predicate GrantsCredential(effect: Effect) {
    effect.Grants? && effect.cmd.payload.CreateCredential?
  }

  /** A new grant counts for one, and only below the lower of the signed and the configured limit. */
  lemma GrantCountsOnce(db: Db, cmd: Command, ids: FreshIds)
    requires Granting(db, cmd, ids) && cmd.payload.CreateCredential?
    ensures var after := Reserve(db, cmd, ids, GrantedNames(db, cmd, ids));
            && InBucket(after.credentials, after.reservations, cmd.ServiceId())
               == InBucket(db.credentials, db.reservations, cmd.ServiceId()) + 1
               <= Min(cmd.payload.limits.maxCredentialsPerBucket, db.limits.maxCredentialsPerBucket)
            && InOrganization(after.credentials, after.reservations, cmd.operation.identity.organizationId)
               == InOrganization(db.credentials, db.reservations, cmd.operation.identity.organizationId) + 1
               <= Min(cmd.payload.limits.maxTotalCredentials, db.limits.maxTotalCredentials)
  {
    var row := NewReservation(cmd, ids.credentialId);
    AdmittedCreate(db, cmd, ids.credentialId);
    OperationIdUnreserved(db.reservations, db.receipts, db.issued, ids.operationId);
    BucketCountAfterReserving(db.reservations, ids.operationId, row, cmd.ServiceId());
    OrganizationCountAfterReserving(db.reservations, ids.operationId, row, cmd.operation.identity.organizationId);
  }

  ghost predicate SameCounts(a: Db, b: Db, s: Uuid, organizationId: Uuid) {
    && InBucket(a.credentials, a.reservations, s) == InBucket(b.credentials, b.reservations, s)
    && InOrganization(a.credentials, a.reservations, organizationId)
       == InOrganization(b.credentials, b.reservations, organizationId)
  }

  /** Turning a reservation into a credential conserves both counts. */
  lemma IssuingConserves(db: Db, cmd: Command, id: Uuid, credential: NewCredential, receipts: Receipts,
                         audit: AuditEvent, s: Uuid, organizationId: Uuid)
    requires Inv(db) && WellFormed(cmd) && cmd.payload.CreateCredential?
    requires RequireInProgress(db.receipts, cmd.operation, id).Pass? && Reserved(db.reservations, cmd, id, credential.id)
    ensures SameCounts(db, Issued(db, cmd, id, credential, receipts, audit), s, organizationId)
  {
    IssuedFromReservation(db, cmd, id, credential);
    IssuingConservesCounts(db.credentials, db.reservations, credential.id, NewCredentialRow(db, cmd, credential), id,
                           s, organizationId);
  }

  /** Handing an operation over conserves both counts. */
  lemma TakeoverConserves(db: Db, key: Uuid, id: Uuid, s: Uuid, organizationId: Uuid)
    requires Correspond(db.reservations, db.receipts) && ReceiptsOk(db.receipts, db.issued)
    requires key in db.receipts && id !in db.issued
    ensures SameCounts(db, TakeOver(db, key, id), s, organizationId)
  {
    OperationIdUnreserved(db.reservations, db.receipts, db.issued, id);
    RekeyKeepsCounts(db.reservations, db.receipts[key].operationId, id, s, organizationId);
  }

  ghost predicate NoHigherCounts(a: Db, b: Db, s: Uuid, organizationId: Uuid) {
    && InBucket(a.credentials, a.reservations, s) >= InBucket(b.credentials, b.reservations, s)
    && InOrganization(a.credentials, a.reservations, organizationId)
       >= InOrganization(b.credentials, b.reservations, organizationId)
  }

  lemma DeletionLowersCounts(db: Db, cmd: Command, id: Uuid, receipts: Receipts, audit: AuditEvent, s: Uuid,
                             organizationId: Uuid)
    requires cmd.payload.Delete? && cmd.ServiceId() in db.services
    ensures NoHigherCounts(db, Removed(db, cmd, id, receipts, audit), s, organizationId)
  {
    var after := RevokeAll(db.credentials, cmd.ServiceId(), db.clock, cmd.operation.identity.principalId);
    RevokeAllOnlyRevokes(db.credentials, cmd.ServiceId(), db.clock, cmd.operation.identity.principalId);
    RevokingShrinksCounts(db.credentials, after, s, organizationId);
  }

  lemma RevocationLowersCounts(db: Db, cmd: Command, receipts: Receipts, audit: AuditEvent, s: Uuid,
                               organizationId: Uuid)
    requires cmd.payload.RevokeCredential? && cmd.payload.credentialId in db.credentials
    ensures NoHigherCounts(db, Withdrawn(db, cmd, receipts, audit), s, organizationId)
  {
    RevokedOnlyRevokes(db.credentials, cmd.payload.credentialId, db.clock, cmd.operation.identity.principalId);
    RevokingShrinksCounts(db.credentials, Withdrawn(db, cmd, receipts, audit).credentials, s, organizationId);
  }

  lemma FailureLowersCounts(db: Db, operation: OperationRequest, id: Uuid, receipts: Receipts, audit: AuditEvent,
                            s: Uuid, organizationId: Uuid)
    ensures NoHigherCounts(db, Abandoned(db, operation, id, receipts, audit), s, organizationId)
  {
    DropShrinksCounts(db.reservations, id, s, organizationId);
  }

  ghost predicate SameHolders(a: Db, b: Db) {
    a.credentials == b.credentials && a.reservations == b.reservations
  }

  lemma ReconcileKeepsCounts(db: Db, effect: Effect)
    requires Enabled(db, effect) && effect.Reconciles?
    ensures SameHolders(db, Perform(db, effect))
  {
  }

  lemma CredentialChangeNeverRaisesCounts(db: Db, effect: Effect, s: Uuid, organizationId: Uuid)
    requires Inv(db) && Enabled(db, effect) && (effect.Issues? || effect.Withdraws?)
    ensures NoHigherCounts(db, Perform(db, effect), s, organizationId)
  {
    var receipts := Finished(db.receipts, effect.cmd.operation.key, effect.response);
    if effect.Issues? {
      IssuingConserves(db, effect.cmd, effect.operationId, effect.credential, receipts, effect.audit, s, organizationId);
    } else {
      RevocationLowersCounts(db, effect.cmd, receipts, effect.audit, s, organizationId);
    }
  }

  lemma EndingNeverRaisesCounts(db: Db, effect: Effect, s: Uuid, organizationId: Uuid)
    requires Enabled(db, effect) && (effect.Removes? || effect.Fails?)
    ensures NoHigherCounts(db, Perform(db, effect), s, organizationId)
  {
    var receipts := Finished(db.receipts, effect.Ended().key, effect.response);
    if effect.Removes? {
      DeletionLowersCounts(db, effect.cmd, effect.operationId, receipts, effect.audit, s, organizationId);
    } else {
      FailureLowersCounts(db, effect.operation, effect.operationId, receipts, effect.audit, s, organizationId);
    }
  }

  /** Failure, revocation and deletion can only lower a count. */
  lemma FinishingNeverRaisesCounts(db: Db, effect: Effect, s: Uuid, organizationId: Uuid)
    requires Inv(db) && Enabled(db, effect) && effect.Finishing()
    ensures NoHigherCounts(db, Perform(db, effect), s, organizationId)
  {
    if effect.Reconciles? {
      ReconcileKeepsCounts(db, effect);
    } else if effect.Issues? || effect.Withdraws? {
      CredentialChangeNeverRaisesCounts(db, effect, s, organizationId);
    } else {
      EndingNeverRaisesCounts(db, effect, s, organizationId);
    }
  }

  lemma OtherEffectsKeepCounts(db: Db, effect: Effect)
    requires Enabled(db, effect) && !effect.Finishing() && !effect.Retakes? && !GrantsCredential(effect)
    ensures SameHolders(db, Perform(db, effect))
  {
  }

  lemma UngrantedNeverRaisesCounts(db: Db, effect: Effect, s: Uuid, organizationId: Uuid)
    requires Inv(db) && Enabled(db, effect) && !GrantsCredential(effect)
    ensures NoHigherCounts(db, Perform(db, effect), s, organizationId)
  {
    if effect.Finishing() {
      FinishingNeverRaisesCounts(db, effect, s, organizationId);
    } else if effect.Retakes? {
      TakeoverConserves(db, effect.cmd.operation.key, effect.operationId, s, organizationId);
    } else {
      OtherEffectsKeepCounts(db, effect);
    }
  }

  /** Nothing but the first grant of a credential creation raises a count. */
  lemma OnlyGrantsRaiseCounts(db: Db, tx: Tx, s: Uuid, organizationId: Uuid)
    requires Inv(db) && Admissible(db, tx) && !GrantsCredential(EffectOf(db, tx))
    ensures NoHigherCounts(db, Apply(db, tx), s, organizationId)
  {
    ApplyPerforms(db, tx);
    UngrantedNeverRaisesCounts(db, EffectOf(db, tx), s, organizationId);
  }

  // ---------------------------------------------------------------- errors that cannot happen

  ghost predicate Corrupt<T>(reply: Result<T>) {
    reply.Err? && (reply.error.CorruptData? || reply.error == Encryption || reply.error == Database)
  }

  lemma ParallelErrorIsPlain(receipts: Receipts, s: Uuid, key: Uuid)
    ensures var outcome := RejectParallel(receipts, s, key); outcome.Fail? ==> outcome.error.OperationInProgress?
  {
  }

  lemma NamingNeverCorrupt(db: Db, cmd: Command)
    requires Inv(db) && WellFormed(cmd) && cmd.payload.Reconcile? && cmd.operation.key !in db.receipts
    requires RejectParallel(db.receipts, cmd.ServiceId(), cmd.operation.key).Pass?
    requires cmd.ServiceId() in db.services ==>
               Live(db.services, cmd.ServiceId()) && db.buckets[cmd.ServiceId()].bucketName == cmd.payload.spec.bucketName
    ensures !Corrupt(ReserveName(db.names, cmd.payload.spec.bucketName, cmd.ServiceId()))
  {
    NameReservationNeverCollidesWithItself(db, cmd);
  }

  lemma NamingIsTheLastCheck(db: Db, cmd: Command, physical: Option<string>, applied: bool)
    requires cmd.payload.Reconcile?
    ensures Corrupt(GrantReconcile(db, cmd, physical, applied)) <==>
            Corrupt(ReserveName(db.names, cmd.payload.spec.bucketName, cmd.ServiceId()))
  {
  }

  lemma ExistingServiceChecks(db: Db, cmd: Command)
    requires cmd.payload.Reconcile? && cmd.ServiceId() in db.services && cmd.ServiceId() in db.buckets
    requires FetchBucket(db.buckets, cmd.ServiceId()).Ok?
    requires FetchBucket(db.buckets, cmd.ServiceId()).value.bucketName == db.buckets[cmd.ServiceId()].bucketName
    requires RejectParallel(db.receipts, cmd.ServiceId(), cmd.operation.key).Pass? && Corrupt(AdmitReconcile(db, cmd))
    ensures Live(db.services, cmd.ServiceId())
    ensures db.buckets[cmd.ServiceId()].bucketName == cmd.payload.spec.bucketName
    ensures Corrupt(ReserveName(db.names, cmd.payload.spec.bucketName, cmd.ServiceId()))
  {
    var physical := FetchBucket(db.buckets, cmd.ServiceId()).value.physicalBucketId;
    NamingIsTheLastCheck(db, cmd, physical, true);
    NamingIsTheLastCheck(db, cmd, physical, false);
  }

  lemma ReconcileChecksNeverCorrupt(db: Db, cmd: Command)
    requires ServicesOk(db.services, db.buckets) && cmd.payload.Reconcile? && Corrupt(AdmitReconcile(db, cmd))
    ensures RejectParallel(db.receipts, cmd.ServiceId(), cmd.operation.key).Pass?
    ensures cmd.ServiceId() in db.services ==>
              && Live(db.services, cmd.ServiceId())
              && db.buckets[cmd.ServiceId()].bucketName == cmd.payload.spec.bucketName
    ensures Corrupt(ReserveName(db.names, cmd.payload.spec.bucketName, cmd.ServiceId()))
  {
    var s := cmd.ServiceId();
    ParallelErrorIsPlain(db.receipts, s, cmd.operation.key);
    if s in db.services {
      BucketFound(db.services, db.buckets, s);
      ExistingServiceChecks(db, cmd);
    } else {
      NamingIsTheLastCheck(db, cmd, None, false);
    }
  }

  lemma ReadyBucketNeverCorrupt(db: Db, identity: Identity)
    requires ServicesOk(db.services, db.buckets)
    ensures !Corrupt(ReadyBucket(db, identity))
  {
    if identity.serviceId in db.services {
      BucketFound(db.services, db.buckets, identity.serviceId);
    }
  }

  lemma AdmitDeleteNeverCorrupt(db: Db, cmd: Command)
    requires ServicesOk(db.services, db.buckets) && cmd.payload.Delete?
    ensures !Corrupt(AdmitDelete(db, cmd))
  {
    ParallelErrorIsPlain(db.receipts, cmd.ServiceId(), cmd.operation.key);
    if cmd.ServiceId() in db.services {
      BucketFound(db.services, db.buckets, cmd.ServiceId());
    }
  }

  lemma AdmitCreateNeverCorrupt(db: Db, cmd: Command, credentialId: Uuid)
    requires cmd.payload.CreateCredential? && !Corrupt(ReadyBucket(db, cmd.operation.identity))
    requires var outcome := RejectParallel(db.receipts, cmd.ServiceId(), cmd.operation.key);
             outcome.Fail? ==> outcome.error.OperationInProgress?
    ensures !Corrupt(AdmitCreate(db, cmd, credentialId))
  {
  }

  lemma AdmitRevokeNeverCorrupt(db: Db, cmd: Command)
    requires cmd.payload.RevokeCredential? && !Corrupt(ReadyBucket(db, cmd.operation.identity))
    requires var outcome := RejectParallel(db.receipts, cmd.ServiceId(), cmd.operation.key);
             outcome.Fail? ==> outcome.error.OperationInProgress?
    ensures !Corrupt(AdmitRevoke(db, cmd))
  {
  }

  lemma AdmitCredentialNeverCorrupt(db: Db, cmd: Command, credentialId: Uuid)
    requires ServicesOk(db.services, db.buckets) && (cmd.payload.CreateCredential? || cmd.payload.RevokeCredential?)
    ensures !Corrupt(Admit(db, cmd, credentialId))
  {
    ParallelErrorIsPlain(db.receipts, cmd.ServiceId(), cmd.operation.key);
    ReadyBucketNeverCorrupt(db, cmd.operation.identity);
    if cmd.payload.CreateCredential? {
      AdmitCreateNeverCorrupt(db, cmd, credentialId);
    } else {
      AdmitRevokeNeverCorrupt(db, cmd);
    }
  }

  lemma AdmitNeverCorrupt(db: Db, cmd: Command, credentialId: Uuid)
    requires Inv(db) && WellFormed(cmd) && cmd.operation.key !in db.receipts
    ensures !Corrupt(Admit(db, cmd, credentialId))
  {
    match cmd.payload {
      case Reconcile(_, _, _) =>
        if Corrupt(AdmitReconcile(db, cmd)) {
          ReconcileChecksNeverCorrupt(db, cmd);
          NamingNeverCorrupt(db, cmd);
        }
      case Delete(_, _) => AdmitDeleteNeverCorrupt(db, cmd);
      case _ => AdmitCredentialNeverCorrupt(db, cmd, credentialId);
    }
  }

  lemma FinishedReceiptOpens(key: Uuid, row: ReceiptRow)
    requires ReceiptOk(key, row) && row.state != InProgress
    ensures DecodeReceipt(key, row).Ok?
  {
  }

  /** No prepare call ever reports corrupt data, a failed decryption or a constraint violation. */
  lemma PrepareNeverCorrupt(db: Db, cmd: Command, ids: FreshIds)
    requires Inv(db) && WellFormed(cmd) && FreshFor(db.issued, ids)
    ensures var reply := PrepareStep(db, cmd, ids).reply; !Corrupt(reply)
  {
    if ValidateCommand(cmd).None? {
      if cmd.operation.key !in db.receipts {
        AdmitNeverCorrupt(db, cmd, ids.credentialId);
      } else {
        PrepareAgainNeverCorrupt(db, cmd, ids);
      }
    } else {
      ValidationErrorIsPlain(cmd);
    }
  }

  lemma ValidationErrorIsPlain(cmd: Command)
    ensures ValidateCommand(cmd).Some? ==>
              var e := ValidateCommand(cmd).value; e.DomainValidation? || e == Validation || e == Configuration
  {
  }

  lemma SettledNeverCorrupt(db: Db, cmd: Command, ids: FreshIds)
    requires cmd.operation.key in db.receipts && ReceiptOk(cmd.operation.key, db.receipts[cmd.operation.key])
    requires ValidateCommand(cmd).None? && !Lapsed(db, cmd.operation)
    ensures !Corrupt(PrepareStep(db, cmd, ids).reply)
  {
    var row := db.receipts[cmd.operation.key];
    if row.state != InProgress {
      FinishedReceiptOpens(cmd.operation.key, row);
    }
  }

  lemma PrepareAgainNeverCorrupt(db: Db, cmd: Command, ids: FreshIds)
    requires Inv(db) && WellFormed(cmd) && FreshFor(db.issued, ids) && cmd.operation.key in db.receipts
    requires ValidateCommand(cmd).None?
    ensures !Corrupt(PrepareStep(db, cmd, ids).reply)
  {
    if Lapsed(db, cmd.operation) {
      PrepareOutcome(db, cmd, ids);
    } else {
      assert ReceiptOk(cmd.operation.key, db.receipts[cmd.operation.key]);
      SettledNeverCorrupt(db, cmd, ids);
    }
  }

  /** A claim that an existing receipt settles is a replay or still in progress; it never asks for execution. */
  lemma SettledClaimNeverExecutes(db: Db, operation: OperationRequest)
    ensures ClaimReceipt(db, operation).Settled? ==> !ClaimReceipt(db, operation).prepared.Execute?
  {
  }

  // ---------------------------------------------------------------- completions of current operations

  /** A current delete commits: the service cannot have changed under it. */
  lemma CurrentDeleteCommits(db: Db, cmd: Command, id: Uuid, response: StoredHttpResponse, audit: AuditEvent)
    requires Inv(db) && WellFormed(cmd) && cmd.payload.Delete? && MayFinish(db, cmd.operation, id, response, audit)
    ensures DeleteCommits(db, cmd, id, response, audit)
    ensures cmd.payload.generation == db.services[cmd.ServiceId()].desiredGeneration + 1
  {
    CurrentGrant(db, cmd.operation, id);
  }

  /** A current revocation commits: the credential cannot have gone. */
  lemma CurrentRevokeCommits(db: Db, cmd: Command, id: Uuid, response: StoredHttpResponse, audit: AuditEvent)
    requires Inv(db) && WellFormed(cmd) && cmd.payload.RevokeCredential?
    requires MayFinish(db, cmd.operation, id, response, audit)
    ensures RevokeCommits(db, cmd, id, response, audit)
  {
    CurrentGrant(db, cmd.operation, id);
  }

  /** A current creation commits exactly when it returns the reserved id, echoes its command, and brings key ids of
      acceptable length that no credential records yet. */
  lemma CurrentCreateCommits(db: Db, cmd: Command, id: Uuid, credential: NewCredential, response: StoredHttpResponse,
                             audit: AuditEvent)
    requires Inv(db) && WellFormed(cmd) && cmd.payload.CreateCredential?
    requires MayFinish(db, cmd.operation, id, response, audit)
    requires credential.name == cmd.payload.name && credential.permissions == cmd.payload.permissions
    ensures id in db.reservations
    ensures CreateCommits(db, cmd, id, credential, response, audit) <==>
            && credential.id == db.reservations[id].credentialId
            && 1 <= |credential.garageKeyId| <= 256 && 1 <= |credential.accessKeyId| <= 256
            && (forall c | c in db.credentials ::
                  && db.credentials[c].garageKeyId != credential.garageKeyId
                  && db.credentials[c].accessKeyId != credential.accessKeyId)
  {
    CurrentReservation(db, cmd.operation, id);
    CurrentReceipt(db.receipts, cmd.operation, id);
    ValidatedCredentialName(db.receipts, db.issued, cmd.operation.key);
    ReservedCreateCommits(db, cmd, id, credential, response, audit);
  }

  lemma ReservedCreateCommits(db: Db, cmd: Command, id: Uuid, credential: NewCredential, response: StoredHttpResponse,
                              audit: AuditEvent)
    requires WellFormed(cmd) && cmd.payload.CreateCredential? && MayFinish(db, cmd.operation, id, response, audit)
    requires credential.name == cmd.payload.name && credential.permissions == cmd.payload.permissions
    requires id in db.reservations && ReservationFor(db.reservations[id], cmd.operation.identity)
    requires ReservationUnused(db.credentials, db.reservations[id]) && db.reservations[id].credentialId != NIL
    requires 1 <= |cmd.payload.name| <= 128
    ensures CreateCommits(db, cmd, id, credential, response, audit) <==>
            && credential.id == db.reservations[id].credentialId
            && 1 <= |credential.garageKeyId| <= 256 && 1 <= |credential.accessKeyId| <= 256
            && (forall c | c in db.credentials ::
                  && db.credentials[c].garageKeyId != credential.garageKeyId
                  && db.credentials[c].accessKeyId != credential.accessKeyId)
  {
  }

  lemma CurrentReservation(db: Db, operation: OperationRequest, id: Uuid)
    requires Inv(db) && RequireInProgress(db.receipts, operation, id).Pass?
    requires operation.identity.requestHash.body.CreateCredential?
    ensures id in db.reservations && ReservationFor(db.reservations[id], operation.identity)
    ensures ReservationUnused(db.credentials, db.reservations[id]) && db.reservations[id].credentialId != NIL
    ensures ReceiptsOk(db.receipts, db.issued)
  {
    CurrentReceipt(db.receipts, operation, id);
    assert Creating(db.receipts, operation.key);
  }

  /** The rows of a validated command meet the CHECK clauses of their tables. */
  lemma ValidatedCredentialName(receipts: Receipts, issued: set<Uuid>, key: Uuid)
    requires ReceiptsOk(receipts, issued) && key in receipts
    requires receipts[key].identity.requestHash.body.CreateCredential?
    ensures 1 <= |receipts[key].identity.requestHash.body.name| <= 128
  {
    var identity := receipts[key].identity;
    assert ReceiptOk(key, receipts[key]);
    assert ValidateCommand(Command(OperationRequest(key, identity), identity.requestHash.body)).None?;
  }

  lemma ValidatedReconcile(receipts: Receipts, issued: set<Uuid>, cmd: Command)
    requires ReceiptsOk(receipts, issued) && WellFormed(cmd) && cmd.payload.Reconcile?
    requires cmd.operation.key in receipts && receipts[cmd.operation.key].identity == cmd.operation.identity
    ensures cmd.payload.spec.quotaBytes <= I64_MAX && cmd.payload.spec.quotaObjects <= I64_MAX
    ensures ServiceChecks(cmd.payload.name, cmd.payload.generation) <==> Storable(cmd.payload.name)
    ensures BucketChecks(cmd.payload.spec.bucketName, cmd.payload.spec.region, cmd.payload.spec.quotaBytes,
                         cmd.payload.spec.quotaObjects)
  {
    GrantedCommandIsValid(receipts, issued, cmd);
    ValidatedReconcileIsAcceptedDownstream(cmd);
    ValidatedSpecIsAcceptedDownstream(cmd.payload.spec);
  }

  /** A deleted service whose bucket row still carries the name. */
  ghost predicate NameOfDeleted(services: Services, buckets: Buckets, bucketName: string) {
    exists t | t in services && t in buckets :: services[t].phase == Deleted && buckets[t].bucketName == bucketName
  }

  /** Whoever holds a name reservation, the only other service that can carry the name is a deleted one. */
  lemma NameTakenOnlyByDeleted(db: Db, s: Uuid, bucketName: string)
    requires ServicesOk(db.services, db.buckets) && NamesOk(db.services, db.buckets, db.names, db.receipts)
    requires HoldsName(db.names, bucketName, s)
    ensures BucketNameTaken(db.buckets, s, bucketName) <==> NameOfDeleted(db.services, db.buckets, bucketName)
  {
    assert NameOwned(db.services, db.buckets, db.receipts, bucketName, s);
    if t :| t in db.buckets && t != s && db.buckets[t].bucketName == bucketName {
      assert !Live(db.services, t);
    }
    if t :| t in db.services && t in db.buckets && db.services[t].phase == Deleted && db.buckets[t].bucketName == bucketName {
      assert t != s;
    }
  }

  /** A current reconcile commits exactly when its physical id is acceptable and new, its name can be stored and is free
      in the project, and no deleted service carried its bucket name. */
  lemma CurrentReconcileCommits(db: Db, cmd: Command, id: Uuid, physical: string, response: StoredHttpResponse,
                                audit: AuditEvent)
    requires Inv(db) && WellFormed(cmd) && cmd.payload.Reconcile? && MayFinish(db, cmd.operation, id, response, audit)
    ensures ReconcileCommits(db, cmd, id, physical, response, audit) <==>
            && physical != [] && ByteLength(physical) <= 256 && Storable(cmd.payload.name)
            && !NameTaken(db.services, cmd.ServiceId(), cmd.operation.identity.projectId, cmd.payload.name)
            && !PhysicalIdTaken(db.buckets, cmd.ServiceId(), physical)
            && !NameOfDeleted(db.services, db.buckets, cmd.payload.spec.bucketName)
  {
    CurrentReceipt(db.receipts, cmd.operation, id);
    CurrentGrant(db, cmd.operation, id);
    ValidatedReconcile(db.receipts, db.issued, cmd);
    NameTakenOnlyByDeleted(db, cmd.ServiceId(), cmd.payload.spec.bucketName);
  }

  /** When a current reconcile cannot commit, it is told that its physical id is unacceptable, that the database refused
      its name, or that the resource exists; it is never told that the service changed or that data is corrupt. */
  lemma CurrentReconcileError(db: Db, cmd: Command, id: Uuid, physical: string, response: StoredHttpResponse,
                              audit: AuditEvent)
    requires Inv(db) && WellFormed(cmd) && cmd.payload.Reconcile? && MayFinish(db, cmd.operation, id, response, audit)
    ensures var reply := CompleteReconcileStep(db, cmd, id, physical, response, audit).reply;
            reply.Err? ==> reply.error == if physical == [] || ByteLength(physical) > 256 then Validation
                                          else if !Storable(cmd.payload.name) then Database
                                          else Conflict(ResourceExists)
  {
    CurrentReceipt(db.receipts, cmd.operation, id);
    CurrentGrant(db, cmd.operation, id);
    ValidatedReconcile(db.receipts, db.issued, cmd);
    StandingReconcileError(db, cmd, id, physical, response, audit);
  }

  lemma StandingReconcileError(db: Db, cmd: Command, id: Uuid, physical: string, response: StoredHttpResponse,
                               audit: AuditEvent)
    requires cmd.payload.Reconcile? && MayFinish(db, cmd.operation, id, response, audit)
    requires ServiceAcceptsReconcile(db.services, cmd)
    requires ServiceChecks(cmd.payload.name, cmd.payload.generation) <==> Storable(cmd.payload.name)
    requires cmd.payload.spec.quotaBytes <= I64_MAX && cmd.payload.spec.quotaObjects <= I64_MAX
    requires BucketChecks(cmd.payload.spec.bucketName, cmd.payload.spec.region, cmd.payload.spec.quotaBytes,
                          cmd.payload.spec.quotaObjects)
    ensures var reply := CompleteReconcileStep(db, cmd, id, physical, response, audit).reply;
            reply.Err? ==> reply.error == if physical == [] || ByteLength(physical) > 256 then Validation
                                          else if !Storable(cmd.payload.name) then Database
                                          else Conflict(ResourceExists)
  {
  }

  // ---------------------------------------------------------------- names, generations and deletion over runs

  /** A bucket never changes its name, and a live service always holds the reservation for it. */
  lemma BucketNamesAreForGood(dbs: seq<Db>, txs: seq<Tx>, i: nat, j: nat, s: Uuid)
    requires StoreRun(dbs, txs) && i <= j <= |txs| && s in dbs[i].buckets
    ensures s in dbs[j].buckets && dbs[j].buckets[s].bucketName == dbs[i].buckets[s].bucketName
    ensures Live(dbs[j].services, s) ==> HoldsName(dbs[j].names, dbs[i].buckets[s].bucketName, s)
  {
    RunEvolves(dbs, txs, i, j);
    RunKeepsInv(dbs, txs, j);
  }

  ghost predicate ReconcilesAt(db: Db, tx: Tx, s: Uuid) {
    && tx.CompletingReconcile? && tx.cmd.payload.Reconcile? && tx.cmd.ServiceId() == s
    && CompleteReconcileStep(db, tx.cmd, tx.operationId, tx.physicalBucketId, tx.response, tx.audit).reply.Ok?
  }

  lemma ReconcileWrites(db: Db, tx: Tx, s: Uuid)
    requires Inv(db) && Admissible(db, tx) && ReconcilesAt(db, tx, s)
    ensures s in Apply(db, tx).services
    ensures var row := Apply(db, tx).services[s];
            && row.desiredGeneration == tx.cmd.payload.generation
            && row.name == tx.cmd.payload.name && row.desiredSpec == tx.cmd.payload.spec
    ensures s in db.services ==>
              && db.services[s].desiredGeneration <= tx.cmd.payload.generation
              && (db.services[s].desiredGeneration == tx.cmd.payload.generation ==>
                    db.services[s].name == tx.cmd.payload.name && db.services[s].desiredSpec == tx.cmd.payload.spec)
  {
    ReconcileOutcome(db, tx.cmd, tx.operationId, tx.physicalBucketId, tx.response, tx.audit);
    CurrentGrant(db, tx.cmd.operation, tx.operationId);
  }

  lemma ServiceKept(before: Db, after: Db, s: Uuid)
    requires Evolves(before, after) && s in before.services
    ensures s in after.services && ServiceEvolves(before.services[s], after.services[s])
  {
  }

  lemma RunReconcileWrites(dbs: seq<Db>, txs: seq<Tx>, i: nat, s: Uuid)
    requires StoreRun(dbs, txs) && i < |txs| && ReconcilesAt(dbs[i], txs[i], s)
    ensures s in dbs[i + 1].services
    ensures var row := dbs[i + 1].services[s];
            && row.desiredGeneration == txs[i].cmd.payload.generation
            && row.name == txs[i].cmd.payload.name && row.desiredSpec == txs[i].cmd.payload.spec
    ensures s in dbs[i].services ==>
              && dbs[i].services[s].desiredGeneration <= txs[i].cmd.payload.generation
              && (dbs[i].services[s].desiredGeneration == txs[i].cmd.payload.generation ==>
                    && dbs[i].services[s].name == txs[i].cmd.payload.name
                    && dbs[i].services[s].desiredSpec == txs[i].cmd.payload.spec)
  {
    RunKeepsInv(dbs, txs, i);
    ReconcileWrites(dbs[i], txs[i], s);
  }

  /** Successful reconciles of one service never go back a generation, and two at the same generation applied the same
      name and spec. */
  lemma GenerationsNameOneSpec(dbs: seq<Db>, txs: seq<Tx>, i: nat, j: nat, s: Uuid)
    requires StoreRun(dbs, txs) && i < j < |txs| && ReconcilesAt(dbs[i], txs[i], s) && ReconcilesAt(dbs[j], txs[j], s)
    ensures txs[i].cmd.payload.generation <= txs[j].cmd.payload.generation
    ensures txs[i].cmd.payload.generation == txs[j].cmd.payload.generation ==>
              txs[i].cmd.payload == txs[j].cmd.payload
  {
    RunReconcileWrites(dbs, txs, i, s);
    RunServiceKept(dbs, txs, i + 1, j, s);
    RunReconcileWrites(dbs, txs, j, s);
  }

  lemma RunServiceKept(dbs: seq<Db>, txs: seq<Tx>, i: nat, j: nat, s: Uuid)
    requires StoreRun(dbs, txs) && i <= j <= |txs| && s in dbs[i].services
    ensures s in dbs[j].services && ServiceEvolves(dbs[i].services[s], dbs[j].services[s])
  {
    RunEvolves(dbs, txs, i, j);
    ServiceKept(dbs[i], dbs[j], s);
  }

  /** In every reachable state a service is ready or deleted, fully observed, and its bucket agrees with its spec. */
  lemma ServicesAgreeWithBuckets(dbs: seq<Db>, txs: seq<Tx>, n: nat, s: Uuid)
    requires StoreRun(dbs, txs) && n <= |txs| && s in dbs[n].services
    ensures s in dbs[n].buckets && ServiceOk(dbs[n].services[s], dbs[n].buckets[s])
  {
    RunKeepsInv(dbs, txs, n);
  }

  /** Nothing of a deleted service is left to act on. */
  ghost predicate CleanlyDeleted(db: Db, s: Uuid) {
    && s in db.services && db.services[s].phase == Deleted
    && (forall c | c in db.credentials && db.credentials[c].serviceId == s :: db.credentials[c].status == Revoked)
    && (forall o | o in db.reservations :: db.reservations[o].serviceId != s)
    && (forall n | n in db.names :: db.names[n] != s)
    && (forall k | InFlight(db.receipts, k) :: db.receipts[k].identity.serviceId != s)
  }

  lemma DeletedIsClean(db: Db, s: Uuid)
    requires Inv(db) && s in db.services && db.services[s].phase == Deleted
    ensures CleanlyDeleted(db, s)
  {
    forall k | InFlight(db.receipts, k) ensures db.receipts[k].identity.serviceId != s {
      assert Stands(db.services, db.buckets, db.names, db.credentials, db.receipts[k].identity);
    }
    forall o | o in db.reservations ensures db.reservations[o].serviceId != s {
      var k :| Owns(db.receipts, k, o);
    }
    forall n | n in db.names ensures db.names[n] != s {
      assert NameOwned(db.services, db.buckets, db.receipts, n, db.names[n]);
    }
  }

  /** A deleted service is never granted again, to any command. */
  lemma DeletedIsNeverGranted(db: Db, tx: Tx, s: Uuid)
    requires Inv(db) && Admissible(db, tx) && tx.Preparing? && tx.cmd.ServiceId() == s
    requires s in db.services && db.services[s].phase == Deleted
    ensures !GrantsAt(db, tx, tx.cmd.operation.key)
  {
    PrepareOutcome(db, tx.cmd, tx.ids);
    if Newcomer(db, tx.cmd, tx.ids.credentialId) {
      Admitted(db, tx.cmd, tx.ids);
    } else {
      DeletedIsClean(db, s);
    }
  }

  /** Deletion is final and clean in every later state of every run. */
  lemma DeletionIsFinal(dbs: seq<Db>, txs: seq<Tx>, i: nat, j: nat, s: Uuid)
    requires StoreRun(dbs, txs) && i <= j <= |txs| && s in dbs[i].services && dbs[i].services[s].phase == Deleted
    ensures CleanlyDeleted(dbs[j], s) && dbs[j].services[s] == dbs[i].services[s]
    ensures j < |txs| && txs[j].Preparing? && txs[j].cmd.ServiceId() == s ==>
              !GrantsAt(dbs[j], txs[j], txs[j].cmd.operation.key)
  {
    RunEvolves(dbs, txs, i, j);
    ServiceKept(dbs[i], dbs[j], s);
    DeletedInRun(dbs, txs, j, s);
  }

  lemma DeletedInRun(dbs: seq<Db>, txs: seq<Tx>, j: nat, s: Uuid)
    requires StoreRun(dbs, txs) && j <= |txs| && s in dbs[j].services && dbs[j].services[s].phase == Deleted
    ensures CleanlyDeleted(dbs[j], s)
    ensures j < |txs| && txs[j].Preparing? && txs[j].cmd.ServiceId() == s ==>
              !GrantsAt(dbs[j], txs[j], txs[j].cmd.operation.key)
  {
    RunKeepsInv(dbs, txs, j);
    DeletedIsClean(dbs[j], s);
    if j < |txs| && txs[j].Preparing? && txs[j].cmd.ServiceId() == s {
      DeletedIsNeverGranted(dbs[j], txs[j], s);
    }
  }
}
