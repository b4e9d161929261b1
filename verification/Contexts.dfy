/** What the context handed to an executor says about the tables, for as long as the operation is unfinished. */
module Contexts {
  import opened Types
  import opened StoreSpec
  import opened Invariant
  import opened Grants
  import opened Completions
  import opened Transactions
  import opened Snapshot

  function Unmeasured(record: BucketRecord): BucketRecord {
    record.(usedBytes := 0, usedObjects := 0, usageMeasuredAt := None)
  }

  /** A context without the usage columns of its bucket. */
  function WithoutUsage(context: Context): Context {
    match context
    case ReconcileContext(bucket, applied) => ReconcileContext(Unmeasured(bucket), applied)
    case DeleteContext(bucket, keys) => DeleteContext(Unmeasured(bucket), keys)
    case CreateCredentialContext(bucket, id) => CreateCredentialContext(Unmeasured(bucket), id)
    case RevokeCredentialContext(_, _) => context
  }

  function PhysicalOf(buckets: Buckets, s: Uuid): Option<string> {
    if s in buckets then buckets[s].physicalBucketId else None
  }

  /** The record is the stored bucket row, apart from usage. */
  predicate Records(buckets: Buckets, s: Uuid, record: BucketRecord) {
    && s in buckets
    && BucketRecordOf(s, buckets[s]).Some?
    && Unmeasured(record) == Unmeasured(BucketRecordOf(s, buckets[s]).value)
  }

  /** The context an executor of this receipt needs, read off the tables. */
  ghost predicate Describes(db: Db, row: ReceiptRow, context: Context) {
    var identity := row.identity;
    var s := identity.serviceId;
    match identity.requestHash.body
    case Reconcile(generation, _, spec) =>
      context == ReconcileContext(
                   BucketRecord(s, identity.organizationId, identity.projectId, PhysicalOf(db.buckets, s),
                                spec.bucketName, spec.region, spec.quotaBytes, spec.quotaObjects, 0, 0, None),
                   s in db.services && db.services[s].desiredGeneration == generation)
    case Delete(_, _) =>
      && context.DeleteContext?
      && Records(db.buckets, s, context.bucket)
      && context.garageKeyIds == ActiveKeys(CredentialsOf(db.credentials, s))
    case CreateCredential(_, _, _) =>
      && context.CreateCredentialContext?
      && Records(db.buckets, s, context.bucket)
      && row.operationId in db.reservations
      && context.credentialId == db.reservations[row.operationId].credentialId
    case RevokeCredential(c) =>
      && c in db.credentials
      && context == RevokeCredentialContext(db.credentials[c].garageKeyId, db.credentials[c].status == Revoked)
  }

  // ---------------------------------------------------------------- grants report the tables

  lemma ReconcileReports(db: Db, cmd: Command, row: ReceiptRow)
    requires WellFormed(cmd) && cmd.payload.Reconcile? && AdmitReconcile(db, cmd).Ok?
    requires db.services.Keys == db.buckets.Keys && row.identity == cmd.operation.identity
    ensures Describes(db, row, AdmitReconcile(db, cmd).value.context)
  {
  }

  lemma DeleteReports(db: Db, cmd: Command, row: ReceiptRow)
    requires WellFormed(cmd) && cmd.payload.Delete? && AdmitDelete(db, cmd).Ok?
    requires row.identity == cmd.operation.identity
    ensures Describes(db, row, AdmitDelete(db, cmd).value.context)
  {
  }

  lemma CreateReports(db: Db, cmd: Command, row: ReceiptRow)
    requires WellFormed(cmd) && cmd.payload.CreateCredential? && ReadyBucket(db, cmd.operation.identity).Ok?
    requires row.identity == cmd.operation.identity && row.operationId in db.reservations
    ensures Describes(db, row, CreateCredentialContext(ReadyBucket(db, cmd.operation.identity).value,
                                                       db.reservations[row.operationId].credentialId))
  {
  }

  lemma RevokeReports(db: Db, cmd: Command, row: ReceiptRow)
    requires WellFormed(cmd) && cmd.payload.RevokeCredential? && AdmitRevoke(db, cmd).Ok?
    requires row.identity == cmd.operation.identity
    ensures Describes(db, row, AdmitRevoke(db, cmd).value.context)
  {
  }

  lemma DescribesFramed(db: Db, after: Db, row: ReceiptRow, context: Context)
    requires Describes(db, row, context) && !row.identity.requestHash.body.CreateCredential?
    requires db.services == after.services && db.buckets == after.buckets && db.credentials == after.credentials
    ensures Describes(after, row, context)
  {
  }

  lemma AdmissionReports(db: Db, cmd: Command, credentialId: Uuid, row: ReceiptRow, after: Db)
    requires WellFormed(cmd) && Admit(db, cmd, credentialId).Ok? && db.services.Keys == db.buckets.Keys
    requires row.identity == cmd.operation.identity
    requires db.services == after.services && db.buckets == after.buckets && db.credentials == after.credentials
    requires cmd.payload.CreateCredential? ==>
               row.operationId in after.reservations && after.reservations[row.operationId].credentialId == credentialId
    ensures Describes(after, row, Admit(db, cmd, credentialId).value.context)
  {
    var context := Admit(db, cmd, credentialId).value.context;
    match cmd.payload {
      case Reconcile(_, _, _) => ReconcileReports(db, cmd, row); DescribesFramed(db, after, row, context);
      case Delete(_, _) => DeleteReports(db, cmd, row); DescribesFramed(db, after, row, context);
      case CreateCredential(_, _, _) => CreateReports(after, cmd, row);
      case RevokeCredential(_) => RevokeReports(db, cmd, row); DescribesFramed(db, after, row, context);
    }
  }

  /** A first grant hands out the context the tables describe. */
  lemma GrantDescribes(db: Db, cmd: Command, ids: FreshIds)
    requires Granting(db, cmd, ids)
    ensures var after := Reserve(db, cmd, ids, GrantedNames(db, cmd, ids));
            Describes(after, after.receipts[cmd.operation.key], Admit(db, cmd, ids.credentialId).value.context)
  {
    var after := Reserve(db, cmd, ids, GrantedNames(db, cmd, ids));
    AdmissionReports(db, cmd, ids.credentialId, after.receipts[cmd.operation.key], after);
  }

  lemma ReadmissionReports(db: Db, cmd: Command, row: ReceiptRow)
    requires WellFormed(cmd) && Readmit(db, cmd, row.operationId).Ok? && db.services.Keys == db.buckets.Keys
    requires row.identity == cmd.operation.identity
    ensures Describes(db, row, Readmit(db, cmd, row.operationId).value.context)
  {
    match cmd.payload {
      case Reconcile(_, _, _) => ReconcileReports(db, cmd, row);
      case Delete(_, _) => DeleteReports(db, cmd, row);
      case CreateCredential(_, _, _) => CreateReports(db, cmd, row);
      case RevokeCredential(_) => RevokeReports(db, cmd, row);
    }
  }

  /** So does a takeover. */
  lemma RetakeDescribes(db: Db, cmd: Command, operationId: Uuid)
    requires Retaking(db, cmd, operationId)
    ensures var taken := TakeOver(db, cmd.operation.key, operationId);
            && Readmit(taken, cmd, operationId).Ok?
            && Describes(taken, taken.receipts[cmd.operation.key], Readmit(taken, cmd, operationId).value.context)
  {
    var taken := TakeOver(db, cmd.operation.key, operationId);
    TakeOverReadmits(db, cmd, operationId);
    ReadmissionReports(taken, cmd, taken.receipts[cmd.operation.key]);
  }

  // ---------------------------------------------------------------- contexts stay true

  /** The receipt in flight for an operation in two states, with the reservation it holds in each. */
  ghost predicate SameWork(a: Db, b: Db, key: Uuid) {
    && InFlight(a.receipts, key) && InFlight(b.receipts, key)
    && a.receipts[key].identity == b.receipts[key].identity
    && SameService(a, b, a.receipts[key].identity.serviceId)
    && (Creating(a.receipts, key) ==>
          && a.receipts[key].operationId in a.reservations
          && b.receipts[key].operationId in b.reservations
          && a.reservations[a.receipts[key].operationId] == b.reservations[b.receipts[key].operationId])
  }

  /** While one operation creates a credential, its reservation is the only one on the service. */
  lemma OnlyReservation(db: Db, key: Uuid, row: ReservationRow)
    requires Correspond(db.reservations, db.receipts) && OnePerService(db.receipts) && Creating(db.receipts, key)
    requires row in ReservedRows(db.reservations, db.receipts[key].identity.serviceId)
    ensures row == db.reservations[db.receipts[key].operationId]
  {
    var o :| o in db.reservations && db.reservations[o] == row;
    if o != db.receipts[key].operationId {
      ReservationsElsewhere(db.reservations, db.receipts, o, db.receipts[key].operationId);
    }
  }

  lemma SameServiceIsSameWork(a: Db, b: Db, key: Uuid)
    requires Correspond(a.reservations, a.receipts) && Correspond(b.reservations, b.receipts)
    requires OnePerService(b.receipts) && InFlight(a.receipts, key) && InFlight(b.receipts, key)
    requires a.receipts[key].identity == b.receipts[key].identity
    requires SameService(a, b, a.receipts[key].identity.serviceId)
    ensures SameWork(a, b, key)
  {
    if Creating(a.receipts, key) {
      assert Creating(b.receipts, key);
      var row := a.reservations[a.receipts[key].operationId];
      assert row in ReservedRows(a.reservations, row.serviceId);
      OnlyReservation(b, key, row);
    }
  }

  lemma CredentialsAgree(a: Db, b: Db, s: Uuid, c: Uuid)
    requires SameService(a, b, s) && c in a.credentials && a.credentials[c].serviceId == s
    ensures c in b.credentials && b.credentials[c] == a.credentials[c]
  {
    assert c in CredentialsOf(a.credentials, s);
    assert c in CredentialsOf(b.credentials, s);
  }

  lemma ContextStable(a: Db, b: Db, key: Uuid, context: Context)
    requires SameWork(a, b, key) && Describes(a, a.receipts[key], context)
    requires Stands(a.services, a.buckets, a.names, a.credentials, a.receipts[key].identity)
    requires b.services.Keys == b.buckets.Keys
    requires a.receipts[key].identity.serviceId in b.services ==>
               ServiceOk(b.services[a.receipts[key].identity.serviceId], b.buckets[a.receipts[key].identity.serviceId])
    ensures Describes(b, b.receipts[key], context)
  {
    var identity := a.receipts[key].identity;
    if identity.requestHash.body.RevokeCredential? {
      CredentialsAgree(a, b, identity.serviceId, identity.requestHash.body.credentialId);
    }
  }

  /** Two contexts for one operation differ in usage only. */
  lemma ContextsAgree(db: Db, row: ReceiptRow, context: Context, other: Context)
    requires Describes(db, row, context) && Describes(db, row, other)
    ensures WithoutUsage(context) == WithoutUsage(other)
  {
  }
}
