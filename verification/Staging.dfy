/** A world with one provisioned service, reached from an empty one, and a credential creation in its tables. */
module Staging {
  import opened Types
  import opened Domain
  import opened StoreSpec
  import opened Invariant
  import opened Completions
  import opened Transactions
  import opened Contexts
  import opened StoreRuns
  import opened Grants
  import opened Admission
  import opened Scenario
  import opened GarageModel
  import opened Handlers
  import opened Completing
  import opened WorldInvariant
  import opened WorldSteps
  import opened WorldRuns
  import opened Events

  /** A service, and a credential whose creation is begun twice. */
  datatype Cast = Cast(reconcile: Command, reconcileIds: FreshIds, bucketId: string,
                       create: Command, createIds: FreshIds, retryIds: FreshIds, keyId: string, secret: string,
                       requestId: string)

  ghost predicate ServiceProper(c: Cast) {
    && WellFormed(c.reconcile) && c.reconcile.payload.Reconcile? && ValidateCommand(c.reconcile).None?
    && Storable(c.reconcile.payload.name)
    && FreshFor({NIL}, c.reconcileIds)
    && c.bucketId != [] && ByteLength(c.bucketId) <= 256 && RequestIdOk(c.requestId)
  }

  /** Empty tables with room for a credential, no executors, and an empty Garage. */
  ghost predicate EmptyWorld(w: World) {
    && InitialWorld(w) && w.garage == Garage(map[], map[])
    && w.db.limits.maxCredentialsPerBucket >= 1 && w.db.limits.maxTotalCredentials >= 1
  }

  // ---------------------------------------------------------------- the service is provisioned

  ghost function Working(db: Db, g: Garage, c: Cast, pc: Pc): World
    requires ServiceProper(c)
  {
    World(db, g, map[c.reconcileIds.operationId := Exec(c.reconcile, NewServiceContext(c.reconcile), pc)], {})
  }

  ghost function MadeBucketOf(c: Cast, quotas: Option<Quotas>): Garage
    requires ServiceProper(c)
  {
    Garage(map[], map[c.bucketId := GarageBucket({c.reconcile.payload.spec.bucketName}, quotas, true)])
  }

  ghost function QuotasOf(c: Cast): Quotas
    requires ServiceProper(c)
  {
    Quotas(c.reconcile.payload.spec.quotaBytes, c.reconcile.payload.spec.quotaObjects)
  }

  ghost predicate Ample(db: Db, issued: set<Uuid>) {
    && db.issued == issued
    && db.limits.maxCredentialsPerBucket >= 1 && db.limits.maxTotalCredentials >= 1
  }

  lemma ValidGeneration(cmd: Command)
    requires WellFormed(cmd) && ValidateCommand(cmd).None?
    ensures cmd.operation.identity.generation.Some? ==> cmd.operation.identity.generation.value > 0
  {
  }

  lemma RenewingProvision(db: Db, cmd: Command, o: Uuid)
    requires BeingProvisioned(db, cmd, o) && WellFormed(cmd) && ValidateCommand(cmd).None?
    ensures RenewStep(db, cmd.operation, o).reply.Ok?
    ensures BeingProvisioned(Renewed(db, cmd.operation.key), cmd, o)
  {
    ValidGeneration(cmd);
  }

  lemma ServiceBegun(start: World, c: Cast) returns (es: seq<Event>, db: Db)
    requires EmptyWorld(start) && ServiceProper(c)
    ensures Leads(start, es, Working(db, start.garage, c, Calling(Lookup)))
    ensures BeingProvisioned(db, c.reconcile, c.reconcileIds.operationId)
    ensures Ample(db, {NIL, c.reconcileIds.operationId})
  {
    var o, cmd := c.reconcileIds.operationId, c.reconcile;
    NothingYet(start);
    ProvisionBegins(start.db, cmd, c.reconcileIds);
    BeginLeads(start, [], start, cmd, c.reconcileIds, NewServiceContext(cmd));
    var begun := PrepareStep(start.db, cmd, c.reconcileIds).db;
    var w := Working(begun, start.garage, c, Extending(Calling(Lookup)));
    es := [] + [Begin(cmd, c.reconcileIds)];
    assert Leads(start, es, w);
    RenewingProvision(begun, cmd, o);
    RenewLeads(start, es, w, o);
    db := Renewed(begun, cmd.operation.key);
    assert Moved(w.execs, o, Calling(Lookup)) == Working(db, start.garage, c, Calling(Lookup)).execs;
    es := es + [Renew(o)];
  }

  lemma LookupAnswered(db: Db, c: Cast)
    requires ServiceProper(c)
    ensures Answered(Working(db, Garage(map[], map[]), c, Calling(Lookup)), c.reconcileIds.operationId, Missing,
                     Working(db, Garage(map[], map[]), c, Calling(Making)))
  {
    var o := c.reconcileIds.operationId;
    assert Moved(Working(db, Garage(map[], map[]), c, Calling(Lookup)).execs, o, Calling(Making))
        == Working(db, Garage(map[], map[]), c, Calling(Making)).execs;
  }

  lemma MakingAnswered(db: Db, c: Cast)
    requires ServiceProper(c)
    ensures Answered(Working(db, Garage(map[], map[]), c, Calling(Making)), c.reconcileIds.operationId,
                     MadeBucket(c.bucketId), Working(db, MadeBucketOf(c, None), c, Calling(Setting(c.bucketId))))
  {
    var o := c.reconcileIds.operationId;
    assert Moved(Working(db, Garage(map[], map[]), c, Calling(Making)).execs, o, Calling(Setting(c.bucketId)))
        == Working(db, MadeBucketOf(c, None), c, Calling(Setting(c.bucketId))).execs;
  }

  lemma SettingAnswered(db: Db, c: Cast)
    requires ServiceProper(c)
    ensures Answered(Working(db, MadeBucketOf(c, None), c, Calling(Setting(c.bucketId))), c.reconcileIds.operationId, Done,
                     Working(db, MadeBucketOf(c, Some(QuotasOf(c))), c, Completing(BucketReady(c.bucketId))))
  {
    var o := c.reconcileIds.operationId;
    assert Moved(Working(db, MadeBucketOf(c, None), c, Calling(Setting(c.bucketId))).execs, o,
                 Completing(BucketReady(c.bucketId)))
        == Working(db, MadeBucketOf(c, Some(QuotasOf(c))), c, Completing(BucketReady(c.bucketId))).execs;
  }

  lemma BucketCalls(start: World, es: seq<Event>, db: Db, c: Cast) returns (es': seq<Event>)
    requires ServiceProper(c) && BeingProvisioned(db, c.reconcile, c.reconcileIds.operationId)
    requires Leads(start, es, Working(db, Garage(map[], map[]), c, Calling(Lookup)))
    ensures Leads(start, es', Working(db, MadeBucketOf(c, Some(QuotasOf(c))), c, Completing(BucketReady(c.bucketId))))
  {
    var o := c.reconcileIds.operationId;
    var w := Working(db, Garage(map[], map[]), c, Calling(Lookup));
    var w1 := Working(db, Garage(map[], map[]), c, Calling(Making));
    var w2 := Working(db, MadeBucketOf(c, None), c, Calling(Setting(c.bucketId)));
    var w3 := Working(db, MadeBucketOf(c, Some(QuotasOf(c))), c, Completing(BucketReady(c.bucketId)));
    LookupAnswered(db, c);
    MakingAnswered(db, c);
    SettingAnswered(db, c);
    AnswerLeads(start, es, w, o, Missing, w1);
    AnswerLeads(start, es + [Reply(o, Missing)], w1, o, MadeBucket(c.bucketId), w2);
    es' := es + [Reply(o, Missing)] + [Reply(o, MadeBucket(c.bucketId))];
    AnswerLeads(start, es', w2, o, Done, w3);
    es' := es' + [Reply(o, Done)];
  }

  lemma ServiceCompletes(db: Db, g: Garage, c: Cast) returns (after: Db)
    requires ServiceProper(c) && BeingProvisioned(db, c.reconcile, c.reconcileIds.operationId)
    ensures Completes(Working(db, g, c, Completing(BucketReady(c.bucketId))), c.reconcileIds.operationId, c.requestId, after)
    ensures Provisioned(after, c.reconcile, c.reconcileIds.operationId, c.bucketId)
    ensures after.issued == db.issued && after.clock == db.clock && after.limits == db.limits
  {
    var o, cmd := c.reconcileIds.operationId, c.reconcile;
    var tx := CompletionOf(o, cmd, NewServiceContext(cmd), BucketReady(c.bucketId), c.requestId);
    HandlerAuditIsAccepted(cmd.operation, c.requestId, Allowed);
    ProvisionEnds(db, cmd, o, c.bucketId, tx.response, tx.audit);
    after := CompleteReconcileStep(db, cmd, o, c.bucketId, tx.response, tx.audit).db;
  }

  /** The service is provisioned, its bucket made, and its executor done. */
  ghost predicate Served(w: World, c: Cast)
    requires ServiceProper(c)
  {
    && Provisioned(w.db, c.reconcile, c.reconcileIds.operationId, c.bucketId)
    && Ample(w.db, {NIL, c.reconcileIds.operationId})
    && w == Working(w.db, MadeBucketOf(c, Some(QuotasOf(c))), c, Halted)
  }

  lemma ServiceCommitted(start: World, es: seq<Event>, db: Db, c: Cast) returns (w: World)
    requires ServiceProper(c) && BeingProvisioned(db, c.reconcile, c.reconcileIds.operationId)
    requires Ample(db, {NIL, c.reconcileIds.operationId})
    requires Leads(start, es, Working(db, MadeBucketOf(c, Some(QuotasOf(c))), c, Completing(BucketReady(c.bucketId))))
    ensures Leads(start, es + [Commit(c.reconcileIds.operationId, c.requestId)], w) && Served(w, c)
  {
    var o := c.reconcileIds.operationId;
    var ready := Working(db, MadeBucketOf(c, Some(QuotasOf(c))), c, Completing(BucketReady(c.bucketId)));
    var after := ServiceCompletes(db, ready.garage, c);
    CompletionLeads(start, es, ready, o, c.requestId, after);
    w := Working(after, ready.garage, c, Halted);
    assert Moved(ready.execs, o, Halted) == w.execs;
  }

  lemma ServiceProvisioned(start: World, c: Cast) returns (es: seq<Event>, w: World)
    requires EmptyWorld(start) && ServiceProper(c)
    ensures Leads(start, es, w) && Served(w, c)
  {
    var begun, db := ServiceBegun(start, c);
    var called := BucketCalls(start, begun, db, c);
    w := ServiceCommitted(start, called, db, c);
    es := called + [Commit(c.reconcileIds.operationId, c.requestId)];
  }

  // ---------------------------------------------------------------- the credential, on the store's side

  ghost predicate Proper(c: Cast) {
    && ServiceProper(c)
    && WellFormed(c.create) && c.create.payload.CreateCredential? && ValidateCommand(c.create).None?
    && c.create.operation.key != c.reconcile.operation.key
    && c.create.ServiceId() == c.reconcile.ServiceId()
    && c.create.operation.identity.organizationId == c.reconcile.operation.identity.organizationId
    && c.create.operation.identity.projectId == c.reconcile.operation.identity.projectId
    && FreshFor({NIL, c.reconcileIds.operationId}, c.createIds)
    && FreshFor({NIL, c.reconcileIds.operationId, c.createIds.operationId, c.createIds.credentialId}, c.retryIds)
    && 1 <= |c.keyId| <= 256
  }

  /** The provisioned service with one credential creation under way, under this operation id. */
  ghost predicate BeingIssued(db: Db, c: Cast, o: Uuid, expiry: int)
    requires Proper(c)
  {
    && db.services == map[c.create.ServiceId() := ReconciledService(c.reconcile, c.reconcileIds.operationId)]
    && db.buckets.Keys == {c.create.ServiceId()}
    && db.buckets[c.create.ServiceId()].physicalBucketId == Some(c.bucketId)
    && db.credentials == map[]
    && db.reservations == map[o := NewReservation(c.create, c.createIds.credentialId)]
    && db.receipts.Keys == {c.reconcile.operation.key, c.create.operation.key}
    && Current(db.receipts, c.create.operation.key, o)
    && db.receipts[c.create.operation.key].identity == c.create.operation.identity
    && db.receipts[c.create.operation.key].leaseExpiresAt == Some(expiry)
  }

  /** A context to create this credential in this bucket. */
  ghost predicate ForCredential(context: Context, c: Cast) {
    && context.CreateCredentialContext? && context.credentialId == c.createIds.credentialId
    && context.bucket.physicalBucketId == Some(c.bucketId)
  }

  lemma EmptyHasRoom(db: Db, c: Cast)
    requires Proper(c) && db.credentials == map[] && db.reservations == map[]
    requires db.limits.maxCredentialsPerBucket >= 1 && db.limits.maxTotalCredentials >= 1
    ensures Room(db, c.create)
  {
    var s, organization := c.create.ServiceId(), c.create.operation.identity.organizationId;
    assert ActiveInBucket(db.credentials, s) == {} && ReservedInBucket(db.reservations, s) == {};
    assert ActiveInOrganization(db.credentials, organization) == {};
    assert ReservedInOrganization(db.reservations, organization) == {};
  }

  lemma IssueBegins(db: Db, c: Cast) returns (context: Context)
    requires Inv(db) && Proper(c) && Provisioned(db, c.reconcile, c.reconcileIds.operationId, c.bucketId)
    requires Ample(db, {NIL, c.reconcileIds.operationId})
    ensures PrepareStep(db, c.create, c.createIds)
            == Step(Reserve(db, c.create, c.createIds, db.names), Ok(Execute(c.createIds.operationId, context)))
    ensures ForCredential(context, c)
  {
    EmptyHasRoom(db, c);
    CreateGranted(db, c.create, c.createIds);
    context := CreateCredentialContext(ReadyBucket(db, c.create.operation.identity).value, c.createIds.credentialId);
  }

  lemma IssueBegun(db: Db, c: Cast)
    requires Proper(c) && Provisioned(db, c.reconcile, c.reconcileIds.operationId, c.bucketId)
    ensures BeingIssued(Reserve(db, c.create, c.createIds, db.names), c, c.createIds.operationId,
                        db.clock + OPERATION_LEASE_SECONDS)
  {
  }

  lemma IssueRenews(db: Db, c: Cast, o: Uuid, expiry: int)
    requires Proper(c) && BeingIssued(db, c, o, expiry)
    ensures RenewStep(db, c.create.operation, o).reply.Ok?
    ensures BeingIssued(Renewed(db, c.create.operation.key), c, o, db.clock + OPERATION_LEASE_SECONDS)
  {
    ValidGeneration(c.create);
  }

  lemma IssueTakenOver(db: Db, c: Cast, o: Uuid, expiry: int, p: Uuid)
    requires Proper(c) && BeingIssued(db, c, o, expiry)
    ensures BeingIssued(TakeOver(db, c.create.operation.key, p), c, p, db.clock + OPERATION_LEASE_SECONDS)
  {
  }

  lemma Retaken(db: Db, cmd: Command, ids: FreshIds) returns (context: Context)
    requires Inv(db) && WellFormed(cmd) && FreshFor(db.issued, ids) && Lapsed(db, cmd.operation)
    ensures var taken := TakeOver(db, cmd.operation.key, ids.operationId);
            && PrepareStep(db, cmd, ids) == Step(taken, Ok(Execute(ids.operationId, context)))
            && Describes(taken, taken.receipts[cmd.operation.key], context)
  {
    PrepareOutcome(db, cmd, ids);
    TakeoverIsTrue(db, cmd, ids);
    context := PrepareStep(db, cmd, ids).reply.value.context;
  }

  lemma IssueLapses(db: Db, c: Cast, o: Uuid, expiry: int)
    requires Proper(c) && BeingIssued(db, c, o, expiry) && expiry <= db.clock
    ensures Lapsed(db, c.create.operation)
  {
  }

  lemma IssueDescribed(db: Db, c: Cast, o: Uuid, expiry: int, context: Context)
    requires Proper(c) && BeingIssued(db, c, o, expiry)
    requires Describes(db, db.receipts[c.create.operation.key], context)
    ensures ForCredential(context, c)
  {
  }

  lemma IssueRetaken(db: Db, c: Cast, expiry: int) returns (context: Context)
    requires Inv(db) && Proper(c) && BeingIssued(db, c, c.createIds.operationId, expiry) && expiry <= db.clock
    requires FreshFor(db.issued, c.retryIds)
    ensures PrepareStep(db, c.create, c.retryIds)
            == Step(TakeOver(db, c.create.operation.key, c.retryIds.operationId),
                    Ok(Execute(c.retryIds.operationId, context)))
    ensures ForCredential(context, c)
  {
    var taken := TakeOver(db, c.create.operation.key, c.retryIds.operationId);
    IssueLapses(db, c, c.createIds.operationId, expiry);
    context := Retaken(db, c.create, c.retryIds);
    IssueTakenOver(db, c, c.createIds.operationId, expiry, c.retryIds.operationId);
    IssueDescribed(taken, c, c.retryIds.operationId, db.clock + OPERATION_LEASE_SECONDS, context);
  }

  lemma IssueCommits(db: Db, c: Cast, o: Uuid, expiry: int, context: Context, response: StoredHttpResponse,
                     audit: AuditEvent)
    requires Proper(c) && BeingIssued(db, c, o, expiry) && ForCredential(context, c)
    requires 100 <= response.status <= 599 && AuditAccepted(audit)
    ensures CreateCommits(db, c.create, o, CredentialOf(c.create, context, c.keyId), response, audit)
  {
  }

  /** The credential is recorded with this key, and its creation finished. */
  ghost predicate Recorded(db: Db, c: Cast)
    requires Proper(c)
  {
    && c.createIds.credentialId in db.credentials
    && db.credentials[c.createIds.credentialId].garageKeyId == c.keyId
    && db.credentials[c.createIds.credentialId].serviceId == c.create.ServiceId()
    && !InFlight(db.receipts, c.create.operation.key)
  }

  lemma IssueEnds(db: Db, c: Cast, o: Uuid, expiry: int, context: Context, response: StoredHttpResponse, audit: AuditEvent)
    requires Proper(c) && BeingIssued(db, c, o, expiry) && ForCredential(context, c)
    requires 100 <= response.status <= 599 && AuditAccepted(audit)
    ensures var step := CompleteCreateStep(db, c.create, o, CredentialOf(c.create, context, c.keyId), response, audit);
            step.reply == Ok(()) && Recorded(step.db, c)
  {
    IssueCommits(db, c, o, expiry, context, response, audit);
    CreateOutcome(db, c.create, o, CredentialOf(c.create, context, c.keyId), response, audit);
  }
}
