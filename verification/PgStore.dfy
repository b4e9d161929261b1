/** The store as an object. Each public method is one transaction: it works on a copy of the tables and commits the
    copy only when it returns success, so every error leaves the object as it was. */
module PgStoreObject {
  import opened Types
  import opened Domain
  import opened StoreSpec

  lemma OneRowAdded(before: Receipts, after: Receipts, key: Uuid)
    requires key in after && after - {key} == before - {key}
    ensures after == before[key := after[key]]
  {
    forall k | k != key ensures k in after <==> k in before {
      assert k in after - {key} <==> k in before - {key};
    }
    forall k | k in after && k != key ensures after[k] == before[k] {
      assert (after - {key})[k] == (before - {key})[k];
    }
  }

  class PgStore {
    var services: Services
    var buckets: Buckets
    var names: Names
    var credentials: Credentials
    var reservations: Reservations
    var receipts: Receipts
    var audit: seq<AuditEvent>
    var clock: int
    var issued: set<Uuid>
    const limits: CredentialLimits

    constructor (limits: CredentialLimits, clock: int)
      ensures Tables() == Db(map[], map[], map[], map[], map[], map[], [], clock, {NIL}, limits)
    {
      services, buckets, names, credentials, reservations, receipts := map[], map[], map[], map[], map[], map[];
      audit, this.clock, issued := [], clock, {NIL};
      this.limits := limits;
    }

    function Tables(): Db
      reads this
    {
      Db(services, buckets, names, credentials, reservations, receipts, audit, clock, issued, limits)
    }

    method Commit(tx: Db)
      requires tx.limits == limits
      modifies this
      ensures Tables() == tx
    {
      services, buckets, names := tx.services, tx.buckets, tx.names;
      credentials, reservations, receipts := tx.credentials, tx.reservations, tx.receipts;
      audit, clock, issued := tx.audit, tx.clock, tx.issued;
    }

    // -------------------------------------------------------------- pieces of a transaction

    /** Looks at the receipt of a key and, when its lease has lapsed, moves it to a fresh operation id. */
    static method ClaimExistingReceipt(tx: Db, operation: OperationRequest, operationId: Uuid)
      returns (claim: Claim, after: Db)
      ensures claim == ClaimReceipt(tx, operation)
      ensures after == if claim.TakenOver? then TakeOver(tx, operation.key, operationId) else tx
    {
      after := tx;
      if operation.key !in tx.receipts {
        return Unclaimed, after;
      }
      var row := tx.receipts[operation.key];
      if row.identity != operation.identity {
        return Rejected(IdempotencyConflict), after;
      }
      if row.state == InProgress {
        if row.leaseExpiresAt.None? {
          return Rejected(CorruptData(ReceiptLease)), after;
        }
        if row.leaseExpiresAt.value > tx.clock {
          return Settled(StillInProgress(row.operationId)), after;
        }
        after := after.(issued := after.issued + {operationId});
        after := after.(receipts := after.receipts[operation.key :=
          row.(operationId := operationId, leaseAttempt := row.leaseAttempt + 1,
               leaseExpiresAt := Some(tx.clock + OPERATION_LEASE_SECONDS))]);
        after := after.(reservations := Rekey(after.reservations, row.operationId, operationId));
        return TakenOver, after;
      }
      match DecodeReceipt(operation.key, row) {
        case Ok(response) => claim := Settled(Replay(response));
        case Err(e) => claim := Rejected(e);
      }
    }

    static method ReserveReceipt(tx: Db, operation: OperationRequest, operationId: Uuid) returns (after: Db)
      ensures InFlight(after.receipts, operation.key)
      ensures var row := after.receipts[operation.key];
              && row.identity == operation.identity && row.operationId == operationId
              && row.leaseAttempt == 1 && row.leaseExpiresAt == Some(tx.clock + OPERATION_LEASE_SECONDS)
              && row.responseStatus.None? && row.responseCiphertext.None? && row.createdAt == tx.clock
      ensures after.receipts - {operation.key} == tx.receipts - {operation.key}
      ensures after == tx.(receipts := after.receipts, issued := tx.issued + {operationId})
    {
      after := tx.(issued := tx.issued + {operationId});
      after := after.(receipts := after.receipts[operation.key := NewReceipt(tx, operation.identity, operationId)]);
    }

    static method FinishReceiptRow(tx: Db, operation: OperationRequest, operationId: Uuid,
                                   response: StoredHttpResponse)
      returns (finished: Result<Receipts>)
      ensures finished == FinishReceipt(tx.receipts, operation, operationId, response)
    {
      if operation.key !in tx.receipts {
        return Err(CorruptData(OperationReceipt));
      }
      var row := tx.receipts[operation.key];
      if row.identity != operation.identity {
        return Err(IdempotencyConflict);
      }
      if row.operationId != operationId {
        return Err(OperationLeaseLost(row.operationId));
      }
      if row.state != InProgress {
        var decoded := DecodeReceipt(operation.key, row);
        if decoded.Err? {
          return Err(decoded.error);
        }
        if decoded.value == response {
          return Ok(tx.receipts);
        }
        return Err(Conflict(DifferentResult));
      }
      if !(100 <= response.status <= 599) {
        return Err(Database);
      }
      return Ok(tx.receipts[operation.key := FinishedRow(operation.key, row, response)]);
    }

    // -------------------------------------------------------------- prepare

    method PrepareReconcile(cmd: Command, ids: FreshIds) returns (reply: Result<Prepare>)
      requires cmd.payload.Reconcile?
      modifies this
      ensures Step(Tables(), reply) == PrepareStep(old(Tables()), cmd, ids)
    {
      var invalid := ValidateCommand(cmd);
      if invalid.Some? {
        return Err(invalid.value);
      }
      var claim, tx := ClaimExistingReceipt(Tables(), cmd.operation, ids.operationId);
      match claim {
        case Rejected(e) => return Err(e);
        case Settled(prepared) => return Ok(prepared);
        case Unclaimed =>
        case TakenOver =>
      }
      var admitted := AdmitReconcile(tx, cmd);
      if admitted.Err? {
        return Err(admitted.error);
      }
      if claim.Unclaimed? {
        tx := ReserveReceipt(tx, cmd.operation, ids.operationId);
        OneRowAdded(receipts, tx.receipts, cmd.operation.key);
      }
      tx := tx.(names := admitted.value.names);
      Commit(tx);
      return Ok(Execute(ids.operationId, admitted.value.context));
    }

    method PrepareDelete(cmd: Command, ids: FreshIds) returns (reply: Result<Prepare>)
      requires cmd.payload.Delete?
      modifies this
      ensures Step(Tables(), reply) == PrepareStep(old(Tables()), cmd, ids)
    {
      var invalid := ValidateCommand(cmd);
      if invalid.Some? {
        return Err(invalid.value);
      }
      var claim, tx := ClaimExistingReceipt(Tables(), cmd.operation, ids.operationId);
      match claim {
        case Rejected(e) => return Err(e);
        case Settled(prepared) => return Ok(prepared);
        case Unclaimed =>
        case TakenOver =>
      }
      var admitted := AdmitDelete(tx, cmd);
      if admitted.Err? {
        return Err(admitted.error);
      }
      DeleteGrantKeepsNames(tx, cmd);
      if claim.Unclaimed? {
        tx := ReserveReceipt(tx, cmd.operation, ids.operationId);
        OneRowAdded(receipts, tx.receipts, cmd.operation.key);
      }
      Commit(tx);
      return Ok(Execute(ids.operationId, admitted.value.context));
    }

    method PrepareCreateCredential(cmd: Command, ids: FreshIds) returns (reply: Result<Prepare>)
      requires cmd.payload.CreateCredential?
      modifies this
      ensures Step(Tables(), reply) == PrepareStep(old(Tables()), cmd, ids)
    {
      var invalid := ValidateCommand(cmd);
      if invalid.Some? {
        return Err(invalid.value);
      }
      var claim, tx := ClaimExistingReceipt(Tables(), cmd.operation, ids.operationId);
      match claim {
        case Rejected(e) => return Err(e);
        case Settled(prepared) => return Ok(prepared);
        case Unclaimed =>
        case TakenOver =>
          var readmitted := ReadmitCreate(tx, cmd, ids.operationId);
          if readmitted.Err? {
            return Err(readmitted.error);
          }
          Commit(tx);
          return Ok(Execute(ids.operationId, readmitted.value.context));
      }
      var admitted := AdmitCreate(tx, cmd, ids.credentialId);
      if admitted.Err? {
        return Err(admitted.error);
      }
      tx := ReserveReceipt(tx, cmd.operation, ids.operationId);
      OneRowAdded(receipts, tx.receipts, cmd.operation.key);
      tx := tx.(reservations := tx.reservations[ids.operationId := NewReservation(cmd, ids.credentialId)],
                issued := tx.issued + {ids.credentialId});
      assert tx.issued == issued + {ids.operationId, ids.credentialId};
      Commit(tx);
      return Ok(Execute(ids.operationId, admitted.value.context));
    }

    method PrepareRevokeCredential(cmd: Command, ids: FreshIds) returns (reply: Result<Prepare>)
      requires cmd.payload.RevokeCredential?
      modifies this
      ensures Step(Tables(), reply) == PrepareStep(old(Tables()), cmd, ids)
    {
      var invalid := ValidateCommand(cmd);
      if invalid.Some? {
        return Err(invalid.value);
      }
      var claim, tx := ClaimExistingReceipt(Tables(), cmd.operation, ids.operationId);
      match claim {
        case Rejected(e) => return Err(e);
        case Settled(prepared) => return Ok(prepared);
        case Unclaimed =>
        case TakenOver =>
      }
      var admitted := AdmitRevoke(tx, cmd);
      if admitted.Err? {
        return Err(admitted.error);
      }
      if claim.Unclaimed? {
        tx := ReserveReceipt(tx, cmd.operation, ids.operationId);
        OneRowAdded(receipts, tx.receipts, cmd.operation.key);
      }
      Commit(tx);
      return Ok(Execute(ids.operationId, admitted.value.context));
    }

    // -------------------------------------------------------------- complete

    method CompleteReconcile(cmd: Command, operationId: Uuid, physicalBucketId: string,
                             response: StoredHttpResponse, event: AuditEvent)
      returns (reply: Result<()>)
      requires cmd.payload.Reconcile?
      modifies this
      ensures Step(Tables(), reply) ==
              CompleteReconcileStep(old(Tables()), cmd, operationId, physicalBucketId, response, event)
    {
      var spec, serviceId := cmd.payload.spec, cmd.ServiceId();
      if physicalBucketId == [] || ByteLength(physicalBucketId) > 256 {
        return Err(Validation);
      }
      if ToI64(spec.quotaBytes).None? || ToI64(spec.quotaObjects).None? {
        return Err(InvalidNumericValue);
      }
      var tx := Tables();
      var required := RequireInProgress(tx.receipts, cmd.operation, operationId);
      if required.Fail? {
        return Err(required.error);
      }
      if !ServiceChecks(cmd.payload.name, cmd.payload.generation) {
        return Err(Database);
      }
      if !ServiceAcceptsReconcile(tx.services, cmd) {
        return Err(Conflict(ChangedDuringReconcile));
      }
      if NameTaken(tx.services, serviceId, cmd.operation.identity.projectId, cmd.payload.name) {
        return Err(Conflict(ResourceExists));
      }
      tx := tx.(services := tx.services[serviceId := ReconciledService(cmd, operationId)]);
      if !BucketChecks(spec.bucketName, spec.region, spec.quotaBytes, spec.quotaObjects) {
        return Err(Database);
      }
      if BucketNameTaken(tx.buckets, serviceId, spec.bucketName) || PhysicalIdTaken(tx.buckets, serviceId, physicalBucketId) {
        return Err(Conflict(ResourceExists));
      }
      var bucket := ReconciledBucket(tx.buckets, cmd, physicalBucketId, spec.quotaBytes, spec.quotaObjects);
      tx := tx.(buckets := tx.buckets[serviceId := bucket]);
      tx := tx.(names := KeepOnlyName(tx.names, serviceId, spec.bucketName));
      var finished := FinishReceiptRow(tx, cmd.operation, operationId, response);
      if finished.Err? {
        return Err(finished.error);
      }
      if !AuditAccepted(event) {
        return Err(Validation);
      }
      tx := tx.(receipts := finished.value, audit := tx.audit + [event]);
      Commit(tx);
      return Ok(());
    }

    method CompleteDelete(cmd: Command, operationId: Uuid, response: StoredHttpResponse, event: AuditEvent)
      returns (reply: Result<()>)
      requires cmd.payload.Delete?
      modifies this
      ensures Step(Tables(), reply) == CompleteDeleteStep(old(Tables()), cmd, operationId, response, event)
    {
      var identity := cmd.operation.identity;
      var serviceId := identity.serviceId;
      var tx := Tables();
      var required := RequireInProgress(tx.receipts, cmd.operation, operationId);
      if required.Fail? {
        return Err(required.error);
      }
      tx := tx.(credentials := RevokeAll(tx.credentials, serviceId, tx.clock, identity.principalId));
      if !ServiceAcceptsDelete(tx.services, identity) {
        return Err(Conflict(ChangedDuringDelete));
      }
      var service := DeletedService(tx.services[serviceId], cmd.payload.generation, operationId);
      tx := tx.(services := tx.services[serviceId := service]);
      tx := tx.(names := DropNames(tx.names, serviceId));
      var finished := FinishReceiptRow(tx, cmd.operation, operationId, response);
      if finished.Err? {
        return Err(finished.error);
      }
      if !AuditAccepted(event) {
        return Err(Validation);
      }
      tx := tx.(receipts := finished.value, audit := tx.audit + [event]);
      Commit(tx);
      return Ok(());
    }

    method CompleteCreateCredential(cmd: Command, operationId: Uuid, credential: NewCredential,
                                    response: StoredHttpResponse, event: AuditEvent)
      returns (reply: Result<()>)
      requires cmd.payload.CreateCredential?
      modifies this
      ensures Step(Tables(), reply) ==
              CompleteCreateStep(old(Tables()), cmd, operationId, credential, response, event)
    {
      if !MetadataValid(cmd, credential) {
        return Err(Validation);
      }
      var tx := Tables();
      var required := RequireInProgress(tx.receipts, cmd.operation, operationId);
      if required.Fail? {
        return Err(required.error);
      }
      if !Reserved(tx.reservations, cmd, operationId, credential.id) {
        return Err(CorruptData(CredentialReservation));
      }
      var row := NewCredentialRow(tx, cmd, credential);
      if !CredentialChecks(row) {
        return Err(Database);
      }
      if CredentialTaken(tx.credentials, credential.id, row) {
        return Err(Conflict(ResourceExists));
      }
      tx := tx.(credentials := tx.credentials[credential.id := row]);
      tx := tx.(reservations := tx.reservations - {operationId});
      var finished := FinishReceiptRow(tx, cmd.operation, operationId, response);
      if finished.Err? {
        return Err(finished.error);
      }
      if !AuditAccepted(event) {
        return Err(Validation);
      }
      tx := tx.(receipts := finished.value, audit := tx.audit + [event]);
      Commit(tx);
      return Ok(());
    }

    method CompleteRevokeCredential(cmd: Command, operationId: Uuid, response: StoredHttpResponse, event: AuditEvent)
      returns (reply: Result<()>)
      requires cmd.payload.RevokeCredential?
      modifies this
      ensures Step(Tables(), reply) == CompleteRevokeStep(old(Tables()), cmd, operationId, response, event)
    {
      var identity, id := cmd.operation.identity, cmd.payload.credentialId;
      var tx := Tables();
      var required := RequireInProgress(tx.receipts, cmd.operation, operationId);
      if required.Fail? {
        return Err(required.error);
      }
      if id !in tx.credentials || tx.credentials[id].serviceId != identity.serviceId {
        return Err(NotFound);
      }
      tx := tx.(credentials := tx.credentials[id := RevokedRow(tx.credentials[id], tx.clock, identity.principalId)]);
      var finished := FinishReceiptRow(tx, cmd.operation, operationId, response);
      if finished.Err? {
        return Err(finished.error);
      }
      if !AuditAccepted(event) {
        return Err(Validation);
      }
      tx := tx.(receipts := finished.value, audit := tx.audit + [event]);
      Commit(tx);
      return Ok(());
    }

    // -------------------------------------------------------------- renew, fail, record

    method RenewOperation(operation: OperationRequest, operationId: Uuid) returns (reply: Result<()>)
      modifies this
      ensures Step(Tables(), reply) == RenewStep(old(Tables()), operation, operationId)
    {
      if operation.identity.generation.Some? && operation.identity.generation.value <= 0 {
        return Err(Validation);
      }
      var tx := Tables();
      var required := RequireInProgress(tx.receipts, operation, operationId);
      if required.Fail? {
        return Err(required.error);
      }
      var row := tx.receipts[operation.key];
      row := row.(leaseExpiresAt := Some(tx.clock + OPERATION_LEASE_SECONDS));
      Commit(tx.(receipts := tx.receipts[operation.key := row]));
      return Ok(());
    }

    method FailOperation(operation: OperationRequest, operationId: Uuid, response: StoredHttpResponse,
                         event: AuditEvent)
      returns (reply: Result<()>)
      modifies this
      ensures Step(Tables(), reply) == FailStep(old(Tables()), operation, operationId, response, event)
    {
      if !response.failed {
        return Err(Validation);
      }
      var tx := Tables();
      var required := RequireInProgress(tx.receipts, operation, operationId);
      if required.Fail? {
        return Err(required.error);
      }
      var finished := FinishReceiptRow(tx, operation, operationId, response);
      if finished.Err? {
        return Err(finished.error);
      }
      tx := tx.(receipts := finished.value);
      tx := tx.(reservations := tx.reservations - {operationId});
      tx := tx.(names := DropUnbackedNames(tx.names, tx.buckets, operation.identity.serviceId));
      if !AuditAccepted(event) {
        return Err(Validation);
      }
      Commit(tx.(audit := tx.audit + [event]));
      return Ok(());
    }

    method RecordUsage(organizationId: Uuid, projectId: Uuid, serviceId: Uuid, bytesUsed: U64, objectsUsed: U64,
                       measuredAt: int)
      returns (reply: Result<()>)
      modifies this
      ensures Step(Tables(), reply) ==
              RecordUsageStep(old(Tables()), organizationId, projectId, serviceId, bytesUsed, objectsUsed, measuredAt)
    {
      if ToI64(bytesUsed).None? || ToI64(objectsUsed).None? {
        return Err(InvalidNumericValue);
      }
      if serviceId !in buckets || buckets[serviceId].organizationId != organizationId
         || buckets[serviceId].projectId != projectId {
        return Err(NotFound);
      }
      var row := buckets[serviceId];
      row := row.(usedBytes := bytesUsed, usedObjects := objectsUsed, usageMeasuredAt := Some(measuredAt));
      buckets := buckets[serviceId := row];
      return Ok(());
    }

    method RecordAudit(event: AuditEvent) returns (reply: Result<()>)
      modifies this
      ensures Step(Tables(), reply) == RecordAuditStep(old(Tables()), event)
    {
      if !AuditAccepted(event) {
        return Err(Validation);
      }
      audit := audit + [event];
      return Ok(());
    }
  }
}
