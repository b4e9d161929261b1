/** When a request that no receipt knows is granted, and with what. */
module Admission {
  import opened Types
  import opened Domain
  import opened StoreSpec
  import opened Invariant
  import opened Grants
  import opened Transactions

  /** The service has no unfinished operation. */
  ghost predicate Idle(receipts: Receipts, s: Uuid) {
    forall k | InFlight(receipts, k) :: receipts[k].identity.serviceId != s
  }

  lemma IdleHasNoParallel(receipts: Receipts, s: Uuid, key: Uuid)
    requires Idle(receipts, s)
    ensures RejectParallel(receipts, s, key).Pass?
  {
    forall k | k in receipts && receipts[k].state == InProgress ensures receipts[k].identity.serviceId != s {
      assert InFlight(receipts, k);
    }
    assert Parallel(receipts, s, key) == {};
  }

  /** A valid request under a new key on an idle service. */
  ghost predicate Fresh(db: Db, cmd: Command) {
    && WellFormed(cmd) && ValidateCommand(cmd).None?
    && cmd.operation.key !in db.receipts && Idle(db.receipts, cmd.ServiceId())
  }

  // ---------------------------------------------------------------- a service not seen before

  function NewServiceContext(cmd: Command): Context
    requires cmd.payload.Reconcile?
  {
    var identity, spec := cmd.operation.identity, cmd.payload.spec;
    ReconcileContext(BucketRecord(identity.serviceId, identity.organizationId, identity.projectId, None, spec.bucketName,
                                  spec.region, spec.quotaBytes, spec.quotaObjects, 0, 0, None), false)
  }

  lemma NewServiceAdmitted(db: Db, cmd: Command)
    requires cmd.payload.Reconcile? && RejectParallel(db.receipts, cmd.ServiceId(), cmd.operation.key).Pass?
    requires cmd.ServiceId() !in db.services && cmd.payload.spec.bucketName !in db.names
    requires !HoldsAnotherName(db.names, cmd.payload.spec.bucketName, cmd.ServiceId())
    ensures AdmitReconcile(db, cmd)
            == Ok(Grant(db.names[cmd.payload.spec.bucketName := cmd.ServiceId()], NewServiceContext(cmd)))
  {
  }

  /** The reconcile of a new service under a name nobody has reserved is granted, whatever bucket rows exist. */
  lemma NewServiceGranted(db: Db, cmd: Command, ids: FreshIds)
    requires Inv(db) && Fresh(db, cmd) && cmd.payload.Reconcile?
    requires cmd.ServiceId() !in db.services && cmd.payload.spec.bucketName !in db.names
    ensures PrepareStep(db, cmd, ids)
            == Step(Reserve(db, cmd, ids, db.names[cmd.payload.spec.bucketName := cmd.ServiceId()]),
                    Ok(Execute(ids.operationId, NewServiceContext(cmd))))
  {
    IdleHasNoParallel(db.receipts, cmd.ServiceId(), cmd.operation.key);
    NameReservationNeverCollidesWithItself(db, cmd);
    NewServiceAdmitted(db, cmd);
    PrepareGrants(db, cmd, ids);
  }

  // ---------------------------------------------------------------- work on a live service

  /** A reconcile of a live service at a later generation is granted, whatever service name it brings. */
  lemma UpdateGranted(db: Db, cmd: Command, ids: FreshIds)
    requires Inv(db) && Fresh(db, cmd) && cmd.payload.Reconcile? && InScope(db.services, cmd.operation.identity)
    requires cmd.payload.generation > db.services[cmd.ServiceId()].desiredGeneration
    requires cmd.payload.spec.bucketName == db.buckets[cmd.ServiceId()].bucketName
    ensures AdmitReconcile(db, cmd).Ok?
    ensures PrepareStep(db, cmd, ids)
            == Step(Reserve(db, cmd, ids, db.names), Ok(Execute(ids.operationId, AdmitReconcile(db, cmd).value.context)))
  {
    IdleHasNoParallel(db.receipts, cmd.ServiceId(), cmd.operation.key);
    ReconcileReadmits(db, cmd);
    PrepareGrants(db, cmd, ids);
  }

  lemma DeleteGranted(db: Db, cmd: Command, ids: FreshIds)
    requires Inv(db) && Fresh(db, cmd) && cmd.payload.Delete? && InScope(db.services, cmd.operation.identity)
    requires cmd.payload.generation == db.services[cmd.ServiceId()].desiredGeneration + 1
    ensures AdmitDelete(db, cmd).Ok?
    ensures PrepareStep(db, cmd, ids)
            == Step(Reserve(db, cmd, ids, db.names), Ok(Execute(ids.operationId, AdmitDelete(db, cmd).value.context)))
  {
    IdleHasNoParallel(db.receipts, cmd.ServiceId(), cmd.operation.key);
    BucketFound(db.services, db.buckets, cmd.ServiceId());
    DeleteReadmits(db, cmd);
    PrepareGrants(db, cmd, ids);
  }

  /** There is room for one more credential, under a name the service does not use yet. */
  ghost predicate Room(db: Db, cmd: Command)
    requires cmd.payload.CreateCredential?
  {
    && !DuplicateName(db, cmd.ServiceId(), cmd.payload.name)
    && InBucket(db.credentials, db.reservations, cmd.ServiceId())
       < Min(cmd.payload.limits.maxCredentialsPerBucket, db.limits.maxCredentialsPerBucket)
    && InOrganization(db.credentials, db.reservations, cmd.operation.identity.organizationId)
       < Min(cmd.payload.limits.maxTotalCredentials, db.limits.maxTotalCredentials)
  }

  lemma RoomAdmits(db: Db, cmd: Command, credentialId: Uuid)
    requires cmd.payload.CreateCredential? && Room(db, cmd) && ReadyBucket(db, cmd.operation.identity).Ok?
    requires RejectParallel(db.receipts, cmd.ServiceId(), cmd.operation.key).Pass?
    ensures AdmitCreate(db, cmd, credentialId)
            == Ok(Grant(db.names, CreateCredentialContext(ReadyBucket(db, cmd.operation.identity).value, credentialId)))
  {
  }

  lemma CreateGranted(db: Db, cmd: Command, ids: FreshIds)
    requires Inv(db) && Fresh(db, cmd) && cmd.payload.CreateCredential? && InScope(db.services, cmd.operation.identity)
    requires Room(db, cmd)
    ensures ReadyBucket(db, cmd.operation.identity).Ok?
    ensures ReadyBucket(db, cmd.operation.identity).value.physicalBucketId
            == db.buckets[cmd.ServiceId()].physicalBucketId
    ensures PrepareStep(db, cmd, ids)
            == Step(Reserve(db, cmd, ids, db.names),
                    Ok(Execute(ids.operationId,
                               CreateCredentialContext(ReadyBucket(db, cmd.operation.identity).value, ids.credentialId))))
  {
    IdleHasNoParallel(db.receipts, cmd.ServiceId(), cmd.operation.key);
    ServiceReadmits(db, cmd.operation.identity);
    RoomAdmits(db, cmd, ids.credentialId);
    PrepareGrants(db, cmd, ids);
  }
}
