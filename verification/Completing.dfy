/** The completions of current operations go through: nothing can have changed under them. */
module Completing {
  import opened Types
  import opened Domain
  import opened StoreSpec
  import opened Invariant
  import opened Completions
  import opened Guarantees
  import opened GarageModel
  import opened Handlers
  import opened WorldInvariant

  lemma HandlerAuditIsAccepted(operation: OperationRequest, requestId: string, outcome: AuditOutcome)
    requires RequestIdOk(requestId)
    ensures AuditAccepted(AuditFor(operation, requestId, outcome))
  {
    var resource := AuditFor(operation, requestId, outcome).resourceType;
    assert 1 <= |resource| <= 16;
    ByteLengthBound(resource);
  }

  lemma HandlerMayFinish(db: Db, o: Uuid, cmd: Command, response: StoredHttpResponse, requestId: string,
                         outcome: AuditOutcome)
    requires Granted(db.receipts, db.issued, o, cmd) && Current(db.receipts, cmd.operation.key, o)
    requires RequestIdOk(requestId) && 100 <= response.status <= 599
    ensures MayFinish(db, cmd.operation, o, response, AuditFor(cmd.operation, requestId, outcome))
  {
    HandlerAuditIsAccepted(cmd.operation, requestId, outcome);
  }

  /** A current deletion always goes through. */
  lemma DeletionGoesThrough(db: Db, o: Uuid, cmd: Command, response: StoredHttpResponse, requestId: string)
    requires Inv(db) && Granted(db.receipts, db.issued, o, cmd) && Current(db.receipts, cmd.operation.key, o)
    requires cmd.payload.Delete? && RequestIdOk(requestId) && 100 <= response.status <= 599
    ensures CompleteDeleteStep(db, cmd, o, response, AuditFor(cmd.operation, requestId, Allowed)).reply.Ok?
  {
    var audit := AuditFor(cmd.operation, requestId, Allowed);
    HandlerMayFinish(db, o, cmd, response, requestId, Allowed);
    CurrentDeleteCommits(db, cmd, o, response, audit);
    DeleteOutcome(db, cmd, o, response, audit);
  }

  /** A current revocation always goes through. */
  lemma RevocationGoesThrough(db: Db, o: Uuid, cmd: Command, response: StoredHttpResponse, requestId: string)
    requires Inv(db) && Granted(db.receipts, db.issued, o, cmd) && Current(db.receipts, cmd.operation.key, o)
    requires cmd.payload.RevokeCredential? && RequestIdOk(requestId) && 100 <= response.status <= 599
    ensures CompleteRevokeStep(db, cmd, o, response, AuditFor(cmd.operation, requestId, Allowed)).reply.Ok?
  {
    var audit := AuditFor(cmd.operation, requestId, Allowed);
    HandlerMayFinish(db, o, cmd, response, requestId, Allowed);
    CurrentRevokeCommits(db, cmd, o, response, audit);
    RevokeOutcome(db, cmd, o, response, audit);
  }

  /** A current creation goes through exactly when Garage's key id has an acceptable length. */
  lemma CreationGoesThrough(db: Db, g: Garage, o: Uuid, cmd: Command, context: Context, k: string,
                            response: StoredHttpResponse, requestId: string)
    requires Inv(db) && Granted(db.receipts, db.issued, o, cmd) && Current(db.receipts, cmd.operation.key, o)
    requires cmd.payload.CreateCredential? && context.CreateCredentialContext? && Informed(db, o, cmd, context)
    requires KeysGone(db.credentials, g) && Unrecorded(db.credentials, k)
    requires RequestIdOk(requestId) && 100 <= response.status <= 599
    ensures var credential, audit := CredentialOf(cmd, context, k), AuditFor(cmd.operation, requestId, Allowed);
            CompleteCreateStep(db, cmd, o, credential, response, audit).reply.Ok? <==> 1 <= |k| <= 256
  {
    var audit, credential := AuditFor(cmd.operation, requestId, Allowed), CredentialOf(cmd, context, k);
    HandlerMayFinish(db, o, cmd, response, requestId, Allowed);
    CurrentReservation(db, cmd.operation, o);
    CurrentCreateCommits(db, cmd, o, credential, response, audit);
    CreateOutcome(db, cmd, o, credential, response, audit);
  }

  /** A current reconcile goes through unless its name is taken in the project or cannot be stored, Garage's bucket is
      recorded elsewhere or has an unacceptable id, or a deleted service carried its bucket name; it is never told that the
      service changed. */
  lemma ReconcileGoesThrough(db: Db, o: Uuid, cmd: Command, b: string, response: StoredHttpResponse, requestId: string)
    requires Inv(db) && Granted(db.receipts, db.issued, o, cmd) && Current(db.receipts, cmd.operation.key, o)
    requires cmd.payload.Reconcile? && RequestIdOk(requestId) && 100 <= response.status <= 599
    ensures var reply := CompleteReconcileStep(db, cmd, o, b, response, AuditFor(cmd.operation, requestId, Allowed)).reply;
            && (reply.Ok? <==>
                && b != [] && ByteLength(b) <= 256 && Storable(cmd.payload.name)
                && !NameTaken(db.services, cmd.ServiceId(), cmd.operation.identity.projectId, cmd.payload.name)
                && !PhysicalIdTaken(db.buckets, cmd.ServiceId(), b)
                && !NameOfDeleted(db.services, db.buckets, cmd.payload.spec.bucketName))
            && (reply.Err? ==> reply.error in {Validation, Database, Conflict(ResourceExists)})
  {
    var audit := AuditFor(cmd.operation, requestId, Allowed);
    HandlerMayFinish(db, o, cmd, response, requestId, Allowed);
    CurrentReconcileCommits(db, cmd, o, b, response, audit);
    CurrentReconcileError(db, cmd, o, b, response, audit);
    ReconcileOutcome(db, cmd, o, b, response, audit);
  }
}
