/** What every sequence of store transactions keeps true of the tables. */
module Invariant {
  import opened Types
  import opened Domain
  import opened StoreSpec

  // ---------------------------------------------------------------- receipts

  /** The identity was built by a handler from its own payload, and passed validation. */
  ghost predicate IdentityOk(identity: Identity) {
    && RouteFormed(identity, identity.requestHash.body)
    && (forall key :: ValidateCommand(Command(OperationRequest(key, identity), identity.requestHash.body)).None?)
  }

  ghost predicate ReceiptOk(key: Uuid, row: ReceiptRow) {
    && IdentityOk(row.identity)
    && row.leaseAttempt >= 1
    && (row.state == InProgress ==>
          row.leaseExpiresAt.Some? && row.responseStatus.None? && row.responseCiphertext.None?)
    && (row.state != InProgress ==>
          && row.leaseExpiresAt.None?
          && row.responseStatus.Some? && 100 <= row.responseStatus.value <= 599
          && row.responseCiphertext.Some?
          && row.responseCiphertext.value.key == key
          && row.responseCiphertext.value.operationId == row.operationId)
  }

  ghost predicate ReceiptsOk(receipts: Receipts, issued: set<Uuid>) {
    && (forall k | k in receipts :: ReceiptOk(k, receipts[k]) && receipts[k].operationId in issued)
    && (forall j, k {:trigger receipts[j].operationId, receipts[k].operationId} | j in receipts && k in receipts ::
          j != k ==> receipts[j].operationId != receipts[k].operationId)
    && OnePerService(receipts)
  }

  /** At most one operation per service is unfinished. */
  ghost predicate OnePerService(receipts: Receipts) {
    forall j, k {:trigger InFlight(receipts, j), InFlight(receipts, k)}
      | InFlight(receipts, j) && InFlight(receipts, k) && j != k ::
      receipts[j].identity.serviceId != receipts[k].identity.serviceId
  }

  // ---------------------------------------------------------------- services, buckets and names

  ghost predicate Live(services: Services, serviceId: Uuid) {
    serviceId in services && services[serviceId].phase != Deleted
  }

  /** A stored service is ready or deleted, fully observed, and its bucket row agrees with its spec. */
  ghost predicate ServiceOk(service: ServiceRow, bucket: BucketRow) {
    && (service.phase == Ready || service.phase == Deleted)
    && service.observedGeneration == service.desiredGeneration
    && service.desiredGeneration > 0
    && bucket.organizationId == service.organizationId
    && bucket.projectId == service.projectId
    && bucket.physicalBucketId.Some?
    && bucket.bucketName == service.desiredSpec.bucketName
    && bucket.region == service.desiredSpec.region
    && bucket.quotaBytes == service.desiredSpec.quotaBytes
    && bucket.quotaObjects == service.desiredSpec.quotaObjects
    && bucket.usedBytes >= 0 && bucket.usedObjects >= 0
  }

  ghost predicate ServicesOk(services: Services, buckets: Buckets) {
    && services.Keys == buckets.Keys
    && (forall s | s in services :: ServiceOk(services[s], buckets[s]))
    && (forall s, t {:trigger services[s].name, services[t].name} | s in services && t in services && s != t ::
          !(services[s].projectId == services[t].projectId && services[s].name == services[t].name))
    && (forall s, t {:trigger buckets[s].bucketName, buckets[t].bucketName} | s in buckets && t in buckets && s != t ::
          buckets[s].bucketName != buckets[t].bucketName)
    && (forall s, t {:trigger buckets[s].physicalBucketId, buckets[t].physicalBucketId}
          | s in buckets && t in buckets && s != t :: buckets[s].physicalBucketId != buckets[t].physicalBucketId)
  }

  /** An unfinished reconcile of a service that asks for a bucket name. */
  ghost predicate AsksFor(receipts: Receipts, key: Uuid, serviceId: Uuid, bucketName: string) {
    && InFlight(receipts, key)
    && receipts[key].identity.serviceId == serviceId
    && receipts[key].identity.requestHash.body.Reconcile?
    && receipts[key].identity.requestHash.body.spec.bucketName == bucketName
  }

  /** A name reservation belongs to the live service that carries it or to the reconcile that is creating it. */
  ghost predicate NameOwned(services: Services, buckets: Buckets, receipts: Receipts, bucketName: string, owner: Uuid) {
    || (Live(services, owner) && owner in buckets && buckets[owner].bucketName == bucketName)
    || (owner !in services && exists k :: AsksFor(receipts, k, owner, bucketName))
  }

  ghost predicate HoldsName(names: Names, bucketName: string, serviceId: Uuid) {
    bucketName in names && names[bucketName] == serviceId
  }

  ghost predicate NamesOk(services: Services, buckets: Buckets, names: Names, receipts: Receipts) {
    && (forall s | s in buckets && Live(services, s) :: HoldsName(names, buckets[s].bucketName, s))
    && (forall n | n in names :: NameOwned(services, buckets, receipts, n, names[n]))
  }

  // ---------------------------------------------------------------- credentials and reservations

  ghost predicate CredentialOk(services: Services, row: CredentialRow) {
    && row.serviceId in services
    && row.organizationId == services[row.serviceId].organizationId
    && row.projectId == services[row.serviceId].projectId
    && (services[row.serviceId].phase == Deleted ==> row.status == Revoked)
    && (row.status == Active ==> row.revokedAt.None? && row.revokedBy.None?)
    && (row.status == Revoked ==> row.revokedAt.Some? && row.revokedBy.Some?)
  }

  ghost predicate CredentialsOk(services: Services, credentials: Credentials, issued: set<Uuid>) {
    && (forall c | c in credentials :: c in issued && CredentialOk(services, credentials[c]))
    && (forall c, d {:trigger credentials[c].garageKeyId, credentials[d].garageKeyId}
          | c in credentials && d in credentials && c != d :: credentials[c].garageKeyId != credentials[d].garageKeyId)
    && (forall c, d {:trigger credentials[c].accessKeyId, credentials[d].accessKeyId}
          | c in credentials && d in credentials && c != d :: credentials[c].accessKeyId != credentials[d].accessKeyId)
    && (forall c, d {:trigger credentials[c].name, credentials[d].name}
          | c in credentials && d in credentials && c != d ::
          !(credentials[c].serviceId == credentials[d].serviceId && credentials[c].name == credentials[d].name))
  }

  /** An unfinished credential creation. */
  ghost predicate Creating(receipts: Receipts, key: Uuid) {
    InFlight(receipts, key) && receipts[key].identity.requestHash.body.CreateCredential?
  }

  ghost predicate ReservationFor(row: ReservationRow, identity: Identity) {
    && identity.requestHash.body.CreateCredential?
    && row.serviceId == identity.serviceId
    && row.organizationId == identity.organizationId
    && row.projectId == identity.projectId
    && row.name == identity.requestHash.body.name
    && row.permissions == identity.requestHash.body.permissions
  }

  ghost predicate Owns(receipts: Receipts, key: Uuid, operationId: Uuid) {
    Creating(receipts, key) && receipts[key].operationId == operationId
  }

  ghost predicate ReservationUnused(credentials: Credentials, row: ReservationRow) {
    && row.credentialId !in credentials
    && (forall c | c in credentials :: !(credentials[c].serviceId == row.serviceId && credentials[c].name == row.name))
  }

  /** Reservations and unfinished credential creations correspond one to one, by operation id. */
  ghost predicate Correspond(reservations: Reservations, receipts: Receipts) {
    && (forall k | Creating(receipts, k) ::
          && receipts[k].operationId in reservations
          && ReservationFor(reservations[receipts[k].operationId], receipts[k].identity))
    && (forall o | o in reservations :: exists k :: Owns(receipts, k, o))
  }

  ghost predicate ReservationsOk(reservations: Reservations, credentials: Credentials, issued: set<Uuid>) {
    && (forall o | o in reservations ::
          && reservations[o].credentialId in issued && reservations[o].credentialId != NIL
          && ReservationUnused(credentials, reservations[o]))
    && (forall o, p {:trigger reservations[o].credentialId, reservations[p].credentialId}
          | o in reservations && p in reservations && o != p ::
          reservations[o].credentialId != reservations[p].credentialId)
  }

  // ---------------------------------------------------------------- granted operations

  ghost predicate InScope(services: Services, identity: Identity) {
    && Live(services, identity.serviceId)
    && services[identity.serviceId].organizationId == identity.organizationId
    && services[identity.serviceId].projectId == identity.projectId
  }

  ghost predicate ReconcileStands(services: Services, buckets: Buckets, names: Names, identity: Identity, generation: I64,
                            name: string, spec: SyouyuSpec)
  {
    && HoldsName(names, spec.bucketName, identity.serviceId)
    && (identity.serviceId in services ==>
          && InScope(services, identity)
          && identity.serviceId in buckets
          && buckets[identity.serviceId].bucketName == spec.bucketName
          && services[identity.serviceId].desiredGeneration <= generation
          && (services[identity.serviceId].desiredGeneration == generation ==>
                services[identity.serviceId].name == name && services[identity.serviceId].desiredSpec == spec))
  }

  /** What prepare checked before it granted the operation still holds. */
  ghost predicate Stands(services: Services, buckets: Buckets, names: Names, credentials: Credentials, identity: Identity) {
    match identity.requestHash.body
    case Reconcile(generation, name, spec) =>
      ReconcileStands(services, buckets, names, identity, generation, name, spec)
    case Delete(_, generation) =>
      InScope(services, identity) && generation == services[identity.serviceId].desiredGeneration + 1
    case CreateCredential(_, _, _) => InScope(services, identity)
    case RevokeCredential(c) =>
      InScope(services, identity) && c in credentials && credentials[c].serviceId == identity.serviceId
  }

  ghost predicate GrantsStand(services: Services, buckets: Buckets, names: Names, credentials: Credentials,
                        receipts: Receipts)
  {
    forall k | InFlight(receipts, k) :: Stands(services, buckets, names, credentials, receipts[k].identity)
  }

  // ---------------------------------------------------------------- limits

  ghost predicate LimitsHold(credentials: Credentials, reservations: Reservations, limits: CredentialLimits) {
    && (forall s :: InBucket(credentials, reservations, s) <= limits.maxCredentialsPerBucket)
    && (forall o :: InOrganization(credentials, reservations, o) <= limits.maxTotalCredentials)
  }

  // ---------------------------------------------------------------- the whole

  ghost predicate Inv(db: Db) {
    && NIL in db.issued
    && ReceiptsOk(db.receipts, db.issued)
    && ServicesOk(db.services, db.buckets)
    && NamesOk(db.services, db.buckets, db.names, db.receipts)
    && CredentialsOk(db.services, db.credentials, db.issued)
    && Correspond(db.reservations, db.receipts)
    && ReservationsOk(db.reservations, db.credentials, db.issued)
    && GrantsStand(db.services, db.buckets, db.names, db.credentials, db.receipts)
    && LimitsHold(db.credentials, db.reservations, db.limits)
  }

  ghost predicate FreshFor(issued: set<Uuid>, ids: FreshIds) {
    ids.operationId !in issued && ids.credentialId !in issued && ids.operationId != ids.credentialId
  }
}
