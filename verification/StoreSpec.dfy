/** Control state and the store's transactions, each as a function from the tables before to the tables after. */
module StoreSpec {
  import opened Types
  import opened Domain

  const OPERATION_LEASE_SECONDS := 120

  // ---------------------------------------------------------------- tables

  type Services = map<Uuid, ServiceRow>
  type Buckets = map<Uuid, BucketRow>
  type Names = map<string, Uuid>
  type Credentials = map<Uuid, CredentialRow>
  /** Credential reservations, by the operation id that owns each (a UNIQUE column). */
  type Reservations = map<Uuid, ReservationRow>
  type Receipts = map<Uuid, ReceiptRow>

  /** The database, its clock, the identifiers the UUID source has handed out, and the configured ceilings. */
  datatype Db = Db(
    services: Services,
    buckets: Buckets,
    names: Names,
    credentials: Credentials,
    reservations: Reservations,
    receipts: Receipts,
    audit: seq<AuditEvent>,
    clock: int,
    issued: set<Uuid>,
    limits: CredentialLimits)

  /** Identifiers drawn for one prepare call. */
  datatype FreshIds = FreshIds(operationId: Uuid, credentialId: Uuid)

  datatype Outcome = Pass | Fail(error: StoreError)

  /** A transaction's reply together with the tables it leaves behind. */
  datatype Step<T> = Step(db: Db, reply: Result<T>)

  // ---------------------------------------------------------------- ordering

  /** `ORDER BY created_at, id`. */
  predicate Before(created: map<Uuid, int>, x: Uuid, y: Uuid)
    requires x in created && y in created
  {
    created[x] < created[y] || (created[x] == created[y] && x.value <= y.value)
  }

  lemma {:induction false} EarliestExists(created: map<Uuid, int>, ids: set<Uuid>)
    requires ids != {} && ids <= created.Keys
    ensures exists m :: m in ids && forall x | x in ids :: Before(created, m, x)
    decreases |ids|
  {
    var a :| a in ids;
    var rest := ids - {a};
    if rest == {} {
      forall x | x in ids ensures Before(created, a, x) {
        assert x != a ==> x in rest;
      }
    } else {
      EarliestExists(created, rest);
      var m :| m in rest && forall x | x in rest :: Before(created, m, x);
      var first := if Before(created, m, a) then m else a;
      forall x | x in ids ensures Before(created, first, x) {
        assert x == a || x in rest;
      }
      assert first in ids;
    }
  }

  function Earliest(created: map<Uuid, int>, ids: set<Uuid>): (m: Uuid)
    requires ids != {} && ids <= created.Keys
    ensures m in ids && forall x | x in ids :: Before(created, m, x)
  {
    EarliestExists(created, ids);
    var m :| m in ids && forall x | x in ids :: Before(created, m, x);
    m
  }

  function InOrder(created: map<Uuid, int>, ids: set<Uuid>): (s: seq<Uuid>)
    requires ids <= created.Keys
    ensures |s| == |ids|
    ensures forall x :: x in s <==> x in ids
    ensures forall i, j | 0 <= i < j < |s| :: s[i] in created && s[j] in created && Before(created, s[i], s[j])
    decreases |ids|
  {
    if ids == {} then []
    else
      var m := Earliest(created, ids);
      var rest := InOrder(created, ids - {m});
      assert ids == {m} + (ids - {m});
      [m] + rest
  }

  // ---------------------------------------------------------------- receipts

  predicate InFlight(receipts: Receipts, key: Uuid) {
    key in receipts && receipts[key].state == InProgress
  }

  /** The response of a finished receipt. */
  function DecodeReceipt(key: Uuid, row: ReceiptRow): Result<StoredHttpResponse> {
    if row.responseStatus.None? || !(0 <= row.responseStatus.value <= 0xFFFF) || row.responseCiphertext.None?
    then Err(CorruptData(ReceiptResponse))
    else
      var sealed := row.responseCiphertext.value;
      if sealed.key != key || sealed.operationId != row.operationId then Err(Encryption)
      else Ok(StoredHttpResponse(row.responseStatus.value, sealed.plaintext, row.state == Failed))
  }

  function Rekey(reservations: Reservations, source: Uuid, target: Uuid): Reservations {
    if source in reservations then (reservations - {source})[target := reservations[source]] else reservations
  }

  /** Hands an in-progress receipt and its credential reservation to a fresh operation id. */
  function TakeOver(db: Db, key: Uuid, operationId: Uuid): Db
    requires key in db.receipts
  {
    var row := db.receipts[key];
    var taken := row.(operationId := operationId,
                      leaseAttempt := row.leaseAttempt + 1,
                      leaseExpiresAt := Some(db.clock + OPERATION_LEASE_SECONDS));
    db.(receipts := db.receipts[key := taken],
        reservations := Rekey(db.reservations, row.operationId, operationId),
        issued := db.issued + {operationId})
  }

  datatype Claim = Unclaimed | TakenOver | Settled(prepared: Prepare) | Rejected(error: StoreError)

  /** What an existing receipt says about a request that carries its key. */
  function ClaimReceipt(db: Db, operation: OperationRequest): Claim {
    if operation.key !in db.receipts then Unclaimed
    else
      var row := db.receipts[operation.key];
      if row.identity != operation.identity then Rejected(IdempotencyConflict)
      else if row.state == InProgress then
        if row.leaseExpiresAt.None? then Rejected(CorruptData(ReceiptLease))
        else if row.leaseExpiresAt.value <= db.clock then TakenOver
        else Settled(StillInProgress(row.operationId))
      else
        match DecodeReceipt(operation.key, row)
        case Ok(response) => Settled(Replay(response))
        case Err(e) => Rejected(e)
  }

  function NewReceipt(db: Db, identity: Identity, operationId: Uuid): ReceiptRow {
    ReceiptRow(operationId, identity, InProgress, 1, Some(db.clock + OPERATION_LEASE_SECONDS), None, None, db.clock)
  }

  function RequireInProgress(receipts: Receipts, operation: OperationRequest, operationId: Uuid): Outcome {
    if operation.key !in receipts then Fail(CorruptData(OperationReceipt))
    else
      var row := receipts[operation.key];
      if row.identity != operation.identity then Fail(IdempotencyConflict)
      else if row.operationId != operationId then Fail(OperationLeaseLost(row.operationId))
      else if row.state != InProgress then Fail(Conflict(AlreadyComplete))
      else Pass
  }

  function FinishedRow(key: Uuid, row: ReceiptRow, response: StoredHttpResponse): ReceiptRow {
    row.(state := if response.failed then Failed else Succeeded,
         responseStatus := Some(response.status),
         responseCiphertext := Some(Sealed(key, row.operationId, response.body)),
         leaseExpiresAt := None)
  }

  /** The receipts once an operation has its response. */
  function Finished(receipts: Receipts, key: Uuid, response: StoredHttpResponse): Receipts
    requires key in receipts
  {
    receipts[key := FinishedRow(key, receipts[key], response)]
  }

  function FinishReceipt(receipts: Receipts, operation: OperationRequest, operationId: Uuid,
                         response: StoredHttpResponse): Result<Receipts>
  {
    if operation.key !in receipts then Err(CorruptData(OperationReceipt))
    else
      var row := receipts[operation.key];
      if row.identity != operation.identity then Err(IdempotencyConflict)
      else if row.operationId != operationId then Err(OperationLeaseLost(row.operationId))
      else if row.state != InProgress then
        (match DecodeReceipt(operation.key, row)
         case Err(e) => Err(e)
         case Ok(stored) => if stored == response then Ok(receipts) else Err(Conflict(DifferentResult)))
      else if !(100 <= response.status <= 599) then Err(Database)
      else Ok(Finished(receipts, operation.key, response))
  }

  /** Other operations on the same service that have not finished, whether or not their lease has lapsed. */
  function Parallel(receipts: Receipts, serviceId: Uuid, key: Uuid): set<Uuid> {
    set k | k in receipts && receipts[k].state == InProgress && receipts[k].identity.serviceId == serviceId && k != key
  }

  function RejectParallel(receipts: Receipts, serviceId: Uuid, key: Uuid): Outcome {
    var others := Parallel(receipts, serviceId, key);
    if others == {} then Pass
    else
      var created := map k | k in receipts :: receipts[k].createdAt;
      Fail(OperationInProgress(receipts[Earliest(created, others)].operationId))
  }

  // ---------------------------------------------------------------- other helpers

  function EnsureScope(identity: Identity, organizationId: Uuid, projectId: Uuid): Outcome {
    if identity.organizationId != organizationId || identity.projectId != projectId
    then Fail(Conflict(ScopeMismatch)) else Pass
  }

  /** Another name already held by the service would violate the per-service UNIQUE column. */
  predicate HoldsAnotherName(names: Names, bucketName: string, serviceId: Uuid) {
    exists n | n in names :: n != bucketName && names[n] == serviceId
  }

  function ReserveName(names: Names, bucketName: string, serviceId: Uuid): Result<Names> {
    if bucketName in names then
      if names[bucketName] == serviceId then Ok(names) else Err(BucketNameUnavailable)
    else if HoldsAnotherName(names, bucketName, serviceId) then Err(Database)
    else Ok(names[bucketName := serviceId])
  }

  function BucketRecordOf(serviceId: Uuid, row: BucketRow): Option<BucketRecord> {
    if 0 <= row.quotaBytes && 0 <= row.quotaObjects && 0 <= row.usedBytes && 0 <= row.usedObjects then
      Some(BucketRecord(serviceId, row.organizationId, row.projectId, row.physicalBucketId, row.bucketName, row.region,
                        row.quotaBytes, row.quotaObjects, row.usedBytes, row.usedObjects, row.usageMeasuredAt))
    else None
  }

  function FetchBucket(buckets: Buckets, serviceId: Uuid): Result<BucketRecord> {
    if serviceId !in buckets then Err(CorruptData(ServiceBucket))
    else
      match BucketRecordOf(serviceId, buckets[serviceId])
      case Some(record) => Ok(record)
      case None => Err(CorruptData(BucketNumbers))
  }

  predicate AuditAccepted(audit: AuditEvent) {
    && audit.requestId != [] && ByteLength(audit.requestId) <= 256
    && audit.resourceType != [] && ByteLength(audit.resourceType) <= 64
  }

  function CredentialsOf(credentials: Credentials, serviceId: Uuid): Credentials {
    map c | c in credentials && credentials[c].serviceId == serviceId :: credentials[c]
  }

  function ActiveOf(credentials: Credentials): set<Uuid> {
    set c | c in credentials && credentials[c].status == Active
  }

  function KeysOf(credentials: Credentials, ids: seq<Uuid>): (keys: seq<string>)
    requires forall i | 0 <= i < |ids| :: ids[i] in credentials
    ensures |keys| == |ids|
    ensures forall i | 0 <= i < |ids| :: keys[i] == credentials[ids[i]].garageKeyId
  {
    if ids == [] then [] else [credentials[ids[0]].garageKeyId] + KeysOf(credentials, ids[1..])
  }

  function ActiveInOrder(credentials: Credentials): (ids: seq<Uuid>)
    ensures forall c :: c in ids <==> c in credentials && credentials[c].status == Active
  {
    var created := map c | c in credentials :: credentials[c].createdAt;
    InOrder(created, ActiveOf(credentials))
  }

  /** The Garage keys of a service's active credentials, oldest first. */
  function ActiveKeys(credentials: Credentials): seq<string> {
    KeysOf(credentials, ActiveInOrder(credentials))
  }

  /** The list is ordered by the age of the credentials. */
  lemma ActiveKeysOldestFirst(credentials: Credentials, i: nat, j: nat)
    requires i < j < |ActiveInOrder(credentials)|
    ensures var ids, keys := ActiveInOrder(credentials), ActiveKeys(credentials);
            && ids[i] in credentials && ids[j] in credentials
            && credentials[ids[i]].createdAt <= credentials[ids[j]].createdAt
            && keys[i] == credentials[ids[i]].garageKeyId && keys[j] == credentials[ids[j]].garageKeyId
  {
    var ids := ActiveInOrder(credentials);
    assert ids[i] in ids && ids[j] in ids;
  }

  lemma ActiveKeyListed(credentials: Credentials, c: Uuid)
    requires c in credentials && credentials[c].status == Active
    ensures credentials[c].garageKeyId in ActiveKeys(credentials)
  {
    var ids := ActiveInOrder(credentials);
    assert c in ids;
    var i :| 0 <= i < |ids| && ids[i] == c;
    assert KeysOf(credentials, ids)[i] == credentials[c].garageKeyId;
  }

  lemma ListedKeyActive(credentials: Credentials, key: string)
    requires key in ActiveKeys(credentials)
    ensures exists c :: c in credentials && credentials[c].status == Active && credentials[c].garageKeyId == key
  {
    var ids := ActiveInOrder(credentials);
    var keys := KeysOf(credentials, ids);
    var i :| 0 <= i < |keys| && keys[i] == key;
    assert ids[i] in ids;
  }

  /** The list holds exactly the keys of the active credentials. */
  lemma ActiveKeysExact(credentials: Credentials, key: string)
    ensures key in ActiveKeys(credentials) <==>
            exists c :: c in credentials && credentials[c].status == Active && credentials[c].garageKeyId == key
  {
    if key in ActiveKeys(credentials) {
      ListedKeyActive(credentials, key);
    } else {
      forall c | c in credentials && credentials[c].status == Active ensures credentials[c].garageKeyId != key {
        ActiveKeyListed(credentials, c);
      }
    }
  }

  function ActiveInBucket(credentials: Credentials, serviceId: Uuid): set<Uuid> {
    set c | c in credentials && credentials[c].status == Active && credentials[c].serviceId == serviceId
  }

  function ActiveInOrganization(credentials: Credentials, organizationId: Uuid): set<Uuid> {
    set c | c in credentials && credentials[c].status == Active && credentials[c].organizationId == organizationId
  }

  function ReservedInBucket(reservations: Reservations, serviceId: Uuid): set<Uuid> {
    set o | o in reservations && reservations[o].serviceId == serviceId
  }

  function ReservedInOrganization(reservations: Reservations, organizationId: Uuid): set<Uuid> {
    set o | o in reservations && reservations[o].organizationId == organizationId
  }

  /** Active credentials and pending reservations of one bucket. */
  function InBucket(credentials: Credentials, reservations: Reservations, serviceId: Uuid): nat {
    |ActiveInBucket(credentials, serviceId)| + |ReservedInBucket(reservations, serviceId)|
  }

  /** Active credentials and pending reservations of one organization. */
  function InOrganization(credentials: Credentials, reservations: Reservations, organizationId: Uuid): nat {
    |ActiveInOrganization(credentials, organizationId)| + |ReservedInOrganization(reservations, organizationId)|
  }

  function Min(a: U32, b: U32): U32 { if a < b then a else b }

  // ---------------------------------------------------------------- prepare

  /** What a prepare call grants: the name reservations it leaves, and the context for the executor. */
  datatype Grant = Grant(names: Names, context: Context)

  function AdmitReconcile(db: Db, cmd: Command): Result<Grant>
    requires cmd.payload.Reconcile?
  {
    var identity := cmd.operation.identity;
    var serviceId := identity.serviceId;
    var spec := cmd.payload.spec;
    var parallel := RejectParallel(db.receipts, serviceId, cmd.operation.key);
    if parallel.Fail? then Err(parallel.error)
    else if serviceId !in db.services then GrantReconcile(db, cmd, None, false)
    else
      var existing := db.services[serviceId];
      var scope := EnsureScope(identity, existing.organizationId, existing.projectId);
      if scope.Fail? then Err(scope.error)
      else if existing.phase == Deleted then Err(Conflict(AlreadyDeleted))
      else if cmd.payload.generation < existing.desiredGeneration then
        Err(StaleGeneration(existing.desiredGeneration, cmd.payload.generation))
      else
        var bucket := FetchBucket(db.buckets, serviceId);
        if bucket.Err? then Err(bucket.error)
        else if bucket.value.bucketName != spec.bucketName then Err(Conflict(BucketNameImmutable))
        else if cmd.payload.generation == existing.desiredGeneration then
          if existing.name != cmd.payload.name || existing.desiredSpec != spec then Err(Conflict(GenerationReused))
          else if existing.phase != Ready || existing.observedGeneration != cmd.payload.generation then
            Err(OperationInProgress(existing.currentOperationId))
          else GrantReconcile(db, cmd, bucket.value.physicalBucketId, true)
        else GrantReconcile(db, cmd, bucket.value.physicalBucketId, false)
  }

  function GrantReconcile(db: Db, cmd: Command, physicalBucketId: Option<string>, previouslyApplied: bool): Result<Grant>
    requires cmd.payload.Reconcile?
  {
    var identity := cmd.operation.identity;
    var spec := cmd.payload.spec;
    match ReserveName(db.names, spec.bucketName, identity.serviceId)
    case Err(e) => Err(e)
    case Ok(names) =>
      var bucket := BucketRecord(identity.serviceId, identity.organizationId, identity.projectId, physicalBucketId,
                                 spec.bucketName, spec.region, spec.quotaBytes, spec.quotaObjects, 0, 0, None);
      Ok(Grant(names, ReconcileContext(bucket, previouslyApplied)))
  }

  function AdmitDelete(db: Db, cmd: Command): Result<Grant>
    requires cmd.payload.Delete?
  {
    var identity := cmd.operation.identity;
    var serviceId := identity.serviceId;
    var parallel := RejectParallel(db.receipts, serviceId, cmd.operation.key);
    if parallel.Fail? then Err(parallel.error)
    else if serviceId !in db.services then Err(NotFound)
    else
      var service := db.services[serviceId];
      var scope := EnsureScope(identity, service.organizationId, service.projectId);
      if scope.Fail? then Err(scope.error)
      else if service.phase == Deleted then Err(NotFound)
      else if service.desiredGeneration == I64_MAX then Err(Configuration)
      else if cmd.payload.generation < service.desiredGeneration + 1 then
        Err(StaleGeneration(service.desiredGeneration, cmd.payload.generation))
      else if cmd.payload.generation != service.desiredGeneration + 1 then Err(Conflict(DeleteGenerationGap))
      else
        var bucket := FetchBucket(db.buckets, serviceId);
        if bucket.Err? then Err(bucket.error)
        else if bucket.value.physicalBucketId.None? then Err(CorruptData(PhysicalBucketId))
        else Ok(Grant(db.names, DeleteContext(bucket.value, ActiveKeys(CredentialsOf(db.credentials, serviceId)))))
  }

  lemma DeleteGrantKeepsNames(db: Db, cmd: Command)
    requires cmd.payload.Delete? && AdmitDelete(db, cmd).Ok?
    ensures AdmitDelete(db, cmd).value.names == db.names
  {
  }

  function ReadyBucket(db: Db, identity: Identity): Result<BucketRecord> {
    if identity.serviceId !in db.services then Err(NotFound)
    else
      var service := db.services[identity.serviceId];
      var scope := EnsureScope(identity, service.organizationId, service.projectId);
      if scope.Fail? then Err(scope.error)
      else if service.phase != Ready || service.observedGeneration != service.desiredGeneration then Err(ServiceNotReady)
      else
        var bucket := FetchBucket(db.buckets, identity.serviceId);
        if bucket.Err? then Err(bucket.error)
        else if bucket.value.physicalBucketId.None? then Err(CorruptData(PhysicalBucketId))
        else bucket
  }

  predicate DuplicateName(db: Db, serviceId: Uuid, name: string) {
    || (exists c | c in db.credentials :: db.credentials[c].serviceId == serviceId && db.credentials[c].name == name)
    || (exists o | o in db.reservations :: db.reservations[o].serviceId == serviceId && db.reservations[o].name == name)
  }

  function AdmitCreate(db: Db, cmd: Command, credentialId: Uuid): Result<Grant>
    requires cmd.payload.CreateCredential?
  {
    var identity := cmd.operation.identity;
    var bucket := ReadyBucket(db, identity);
    var perBucket := Min(cmd.payload.limits.maxCredentialsPerBucket, db.limits.maxCredentialsPerBucket);
    var total := Min(cmd.payload.limits.maxTotalCredentials, db.limits.maxTotalCredentials);
    var parallel := RejectParallel(db.receipts, identity.serviceId, cmd.operation.key);
    if bucket.Err? then Err(bucket.error)
    else if DuplicateName(db, identity.serviceId, cmd.payload.name) then Err(Conflict(DuplicateCredentialName))
    else if InBucket(db.credentials, db.reservations, identity.serviceId) >= perBucket then
      Err(CredentialLimitExceeded(BucketScope, perBucket))
    else if InOrganization(db.credentials, db.reservations, identity.organizationId) >= total then
      Err(CredentialLimitExceeded(OrganizationScope, total))
    else if parallel.Fail? then Err(parallel.error)
    else Ok(Grant(db.names, CreateCredentialContext(bucket.value, credentialId)))
  }

  predicate ReservationMatches(row: ReservationRow, cmd: Command)
    requires cmd.payload.CreateCredential?
  {
    && row.serviceId == cmd.operation.identity.serviceId
    && row.organizationId == cmd.operation.identity.organizationId
    && row.projectId == cmd.operation.identity.projectId
    && row.name == cmd.payload.name
    && row.permissions == cmd.payload.permissions
  }

  /** The second and later grants of one credential creation find their reservation already made. */
  function ReadmitCreate(db: Db, cmd: Command, operationId: Uuid): Result<Grant>
    requires cmd.payload.CreateCredential?
  {
    var identity := cmd.operation.identity;
    var bucket := ReadyBucket(db, identity);
    var parallel := RejectParallel(db.receipts, identity.serviceId, cmd.operation.key);
    if bucket.Err? then Err(bucket.error)
    else if parallel.Fail? then Err(parallel.error)
    else if operationId !in db.reservations || !ReservationMatches(db.reservations[operationId], cmd) then
      Err(CorruptData(CredentialReservation))
    else Ok(Grant(db.names, CreateCredentialContext(bucket.value, db.reservations[operationId].credentialId)))
  }

  function AdmitRevoke(db: Db, cmd: Command): Result<Grant>
    requires cmd.payload.RevokeCredential?
  {
    var identity := cmd.operation.identity;
    var parallel := RejectParallel(db.receipts, identity.serviceId, cmd.operation.key);
    var bucket := ReadyBucket(db, identity);
    if parallel.Fail? then Err(parallel.error)
    else if bucket.Err? then Err(bucket.error)
    else if cmd.payload.credentialId !in db.credentials
         || db.credentials[cmd.payload.credentialId].serviceId != identity.serviceId then Err(NotFound)
    else
      var row := db.credentials[cmd.payload.credentialId];
      Ok(Grant(db.names, RevokeCredentialContext(row.garageKeyId, row.status == Revoked)))
  }

  function Admit(db: Db, cmd: Command, credentialId: Uuid): Result<Grant> {
    match cmd.payload
    case Reconcile(_, _, _) => AdmitReconcile(db, cmd)
    case Delete(_, _) => AdmitDelete(db, cmd)
    case CreateCredential(_, _, _) => AdmitCreate(db, cmd, credentialId)
    case RevokeCredential(_) => AdmitRevoke(db, cmd)
  }

  function Readmit(db: Db, cmd: Command, operationId: Uuid): Result<Grant> {
    match cmd.payload
    case Reconcile(_, _, _) => AdmitReconcile(db, cmd)
    case Delete(_, _) => AdmitDelete(db, cmd)
    case CreateCredential(_, _, _) => ReadmitCreate(db, cmd, operationId)
    case RevokeCredential(_) => AdmitRevoke(db, cmd)
  }

  function NewReservation(cmd: Command, credentialId: Uuid): ReservationRow
    requires cmd.payload.CreateCredential?
  {
    var identity := cmd.operation.identity;
    ReservationRow(credentialId, identity.serviceId, identity.organizationId, identity.projectId,
                   cmd.payload.name, cmd.payload.permissions)
  }

  function ReservedReceipts(db: Db, cmd: Command, operationId: Uuid): Receipts {
    db.receipts[cmd.operation.key := NewReceipt(db, cmd.operation.identity, operationId)]
  }

  /** The tables after a first grant. */
  function Reserve(db: Db, cmd: Command, ids: FreshIds, names: Names): Db {
    db.(receipts := ReservedReceipts(db, cmd, ids.operationId),
        names := names,
        reservations := if cmd.payload.CreateCredential?
                        then db.reservations[ids.operationId := NewReservation(cmd, ids.credentialId)]
                        else db.reservations,
        issued := if cmd.payload.CreateCredential?
                  then db.issued + {ids.operationId, ids.credentialId} else db.issued + {ids.operationId})
  }

  function PrepareStep(db: Db, cmd: Command, ids: FreshIds): Step<Prepare> {
    match ValidateCommand(cmd)
    case Some(e) => Step(db, Err(e))
    case None =>
      match ClaimReceipt(db, cmd.operation)
      case Rejected(e) => Step(db, Err(e))
      case Settled(prepared) => Step(db, Ok(prepared))
      case Unclaimed =>
        (match Admit(db, cmd, ids.credentialId)
         case Err(e) => Step(db, Err(e))
         case Ok(grant) =>
           Step(Reserve(db, cmd, ids, grant.names), Ok(Execute(ids.operationId, grant.context))))
      case TakenOver =>
        var taken := TakeOver(db, cmd.operation.key, ids.operationId);
        match Readmit(taken, cmd, ids.operationId)
        case Err(e) => Step(db, Err(e))
        case Ok(grant) => Step(taken.(names := grant.names), Ok(Execute(ids.operationId, grant.context)))
  }

  // ---------------------------------------------------------------- complete

  predicate NameTaken(services: Services, serviceId: Uuid, projectId: Uuid, name: string) {
    exists s | s in services :: s != serviceId && services[s].projectId == projectId && services[s].name == name
  }

  predicate BucketNameTaken(buckets: Buckets, serviceId: Uuid, bucketName: string) {
    exists s | s in buckets :: s != serviceId && buckets[s].bucketName == bucketName
  }

  predicate PhysicalIdTaken(buckets: Buckets, serviceId: Uuid, physicalBucketId: string) {
    exists s | s in buckets :: s != serviceId && buckets[s].physicalBucketId == Some(physicalBucketId)
  }

  function ReconciledService(cmd: Command, operationId: Uuid): ServiceRow
    requires cmd.payload.Reconcile?
  {
    var identity := cmd.operation.identity;
    ServiceRow(identity.organizationId, identity.projectId, cmd.payload.name, cmd.payload.generation,
               cmd.payload.spec, cmd.payload.generation, Ready, operationId)
  }

  /** The bucket row after the upsert; an update leaves the usage columns alone. */
  function ReconciledBucket(buckets: Buckets, cmd: Command, physicalBucketId: string, quotaBytes: I64,
                            quotaObjects: I64): BucketRow
    requires cmd.payload.Reconcile?
  {
    var identity := cmd.operation.identity;
    var spec := cmd.payload.spec;
    if identity.serviceId in buckets then
      buckets[identity.serviceId].(physicalBucketId := Some(physicalBucketId), bucketName := spec.bucketName,
                                   region := spec.region, quotaBytes := quotaBytes, quotaObjects := quotaObjects)
    else
      BucketRow(identity.organizationId, identity.projectId, Some(physicalBucketId), spec.bucketName, spec.region,
                quotaBytes, quotaObjects, 0, 0, None)
  }

  function KeepOnlyName(names: Names, serviceId: Uuid, bucketName: string): Names {
    map n | n in names && !(names[n] == serviceId && n != bucketName) :: names[n]
  }

  predicate ServiceAcceptsReconcile(services: Services, cmd: Command)
    requires cmd.payload.Reconcile?
  {
    var identity := cmd.operation.identity;
    identity.serviceId in services ==>
      var row := services[identity.serviceId];
      && row.organizationId == identity.organizationId
      && row.projectId == identity.projectId
      && row.desiredGeneration <= cmd.payload.generation
      && row.phase != Deleted
  }

  /** The tables after a reconcile commits. */
  function Reconciled(db: Db, cmd: Command, operationId: Uuid, physicalBucketId: string, receipts: Receipts,
                      audit: AuditEvent): Db
    requires cmd.payload.Reconcile?
    requires cmd.payload.spec.quotaBytes <= I64_MAX && cmd.payload.spec.quotaObjects <= I64_MAX
  {
    var serviceId, spec := cmd.ServiceId(), cmd.payload.spec;
    var bucket := ReconciledBucket(db.buckets, cmd, physicalBucketId, spec.quotaBytes, spec.quotaObjects);
    db.(services := db.services[serviceId := ReconciledService(cmd, operationId)],
        buckets := db.buckets[serviceId := bucket],
        names := KeepOnlyName(db.names, serviceId, spec.bucketName),
        receipts := receipts,
        audit := db.audit + [audit])
  }

  function CompleteReconcileStep(db: Db, cmd: Command, operationId: Uuid, physicalBucketId: string,
                                 response: StoredHttpResponse, audit: AuditEvent): Step<()>
    requires cmd.payload.Reconcile?
  {
    var serviceId := cmd.ServiceId();
    var spec := cmd.payload.spec;
    var required := RequireInProgress(db.receipts, cmd.operation, operationId);
    if physicalBucketId == [] || ByteLength(physicalBucketId) > 256 then Step(db, Err(Validation))
    else if ToI64(spec.quotaBytes).None? || ToI64(spec.quotaObjects).None? then Step(db, Err(InvalidNumericValue))
    else if required.Fail? then Step(db, Err(required.error))
    else if !ServiceChecks(cmd.payload.name, cmd.payload.generation) then Step(db, Err(Database))
    else if !ServiceAcceptsReconcile(db.services, cmd) then Step(db, Err(Conflict(ChangedDuringReconcile)))
    else if NameTaken(db.services, serviceId, cmd.operation.identity.projectId, cmd.payload.name) then
      Step(db, Err(Conflict(ResourceExists)))
    else if !BucketChecks(spec.bucketName, spec.region, spec.quotaBytes, spec.quotaObjects) then Step(db, Err(Database))
    else if BucketNameTaken(db.buckets, serviceId, spec.bucketName)
         || PhysicalIdTaken(db.buckets, serviceId, physicalBucketId) then Step(db, Err(Conflict(ResourceExists)))
    else
      match FinishReceipt(db.receipts, cmd.operation, operationId, response)
      case Err(e) => Step(db, Err(e))
      case Ok(receipts) =>
        if !AuditAccepted(audit) then Step(db, Err(Validation))
        else
          Step(Reconciled(db, cmd, operationId, physicalBucketId, receipts, audit), Ok(()))
  }

  function RevokedRow(row: CredentialRow, clock: int, principalId: Uuid): CredentialRow {
    row.(status := Revoked,
         revokedAt := if row.revokedAt.Some? then row.revokedAt else Some(clock),
         revokedBy := if row.revokedBy.Some? then row.revokedBy else Some(principalId))
  }

  function RevokeAll(credentials: Credentials, serviceId: Uuid, clock: int, principalId: Uuid): Credentials {
    map c | c in credentials ::
      if credentials[c].serviceId == serviceId && credentials[c].status == Active
      then RevokedRow(credentials[c], clock, principalId) else credentials[c]
  }

  predicate ServiceAcceptsDelete(services: Services, identity: Identity) {
    && identity.serviceId in services
    && services[identity.serviceId].organizationId == identity.organizationId
    && services[identity.serviceId].projectId == identity.projectId
    && services[identity.serviceId].phase != Deleted
  }

  function DropNames(names: Names, serviceId: Uuid): Names {
    map n | n in names && names[n] != serviceId :: names[n]
  }

  function DeletedService(row: ServiceRow, generation: I64, operationId: Uuid): ServiceRow {
    row.(desiredGeneration := generation, observedGeneration := generation, phase := Deleted,
         currentOperationId := operationId)
  }

  /** The tables after a delete commits. */
  function Removed(db: Db, cmd: Command, operationId: Uuid, receipts: Receipts, audit: AuditEvent): Db
    requires cmd.payload.Delete? && cmd.ServiceId() in db.services
  {
    var serviceId := cmd.ServiceId();
    var service := DeletedService(db.services[serviceId], cmd.payload.generation, operationId);
    db.(credentials := RevokeAll(db.credentials, serviceId, db.clock, cmd.operation.identity.principalId),
        services := db.services[serviceId := service],
        names := DropNames(db.names, serviceId),
        receipts := receipts,
        audit := db.audit + [audit])
  }

  function CompleteDeleteStep(db: Db, cmd: Command, operationId: Uuid, response: StoredHttpResponse,
                              audit: AuditEvent): Step<()>
    requires cmd.payload.Delete?
  {
    var identity := cmd.operation.identity;
    var required := RequireInProgress(db.receipts, cmd.operation, operationId);
    if required.Fail? then Step(db, Err(required.error))
    else if !ServiceAcceptsDelete(db.services, identity) then Step(db, Err(Conflict(ChangedDuringDelete)))
    else
      match FinishReceipt(db.receipts, cmd.operation, operationId, response)
      case Err(e) => Step(db, Err(e))
      case Ok(receipts) =>
        if !AuditAccepted(audit) then Step(db, Err(Validation))
        else
          Step(Removed(db, cmd, operationId, receipts, audit), Ok(()))
  }

  predicate CredentialTaken(credentials: Credentials, id: Uuid, row: CredentialRow) {
    || id in credentials
    || (exists c | c in credentials ::
          || credentials[c].garageKeyId == row.garageKeyId
          || credentials[c].accessKeyId == row.accessKeyId
          || (credentials[c].serviceId == row.serviceId && credentials[c].name == row.name))
  }

  function NewCredentialRow(db: Db, cmd: Command, credential: NewCredential): CredentialRow {
    var identity := cmd.operation.identity;
    CredentialRow(identity.serviceId, identity.organizationId, identity.projectId, identity.principalId,
                  credential.name, credential.garageKeyId, credential.accessKeyId, credential.permissions,
                  Active, db.clock, None, None)
  }

  predicate MetadataValid(cmd: Command, credential: NewCredential)
    requires cmd.payload.CreateCredential?
  {
    && credential.id != NIL
    && credential.garageKeyId != []
    && credential.accessKeyId != []
    && credential.name == cmd.payload.name
    && credential.permissions == cmd.payload.permissions
  }

  predicate CredentialChecks(row: CredentialRow) {
    1 <= |row.garageKeyId| <= 256 && 1 <= |row.accessKeyId| <= 256 && 1 <= |row.name| <= 128
  }

  predicate Reserved(reservations: Reservations, cmd: Command, operationId: Uuid, credentialId: Uuid)
    requires cmd.payload.CreateCredential?
  {
    && operationId in reservations
    && reservations[operationId].credentialId == credentialId
    && reservations[operationId].serviceId == cmd.ServiceId()
    && reservations[operationId].name == cmd.payload.name
  }

  /** The tables after a credential is issued. */
  function Issued(db: Db, cmd: Command, operationId: Uuid, credential: NewCredential, receipts: Receipts,
                  audit: AuditEvent): Db
  {
    db.(credentials := db.credentials[credential.id := NewCredentialRow(db, cmd, credential)],
        reservations := db.reservations - {operationId},
        receipts := receipts,
        audit := db.audit + [audit])
  }

  function CompleteCreateStep(db: Db, cmd: Command, operationId: Uuid, credential: NewCredential,
                              response: StoredHttpResponse, audit: AuditEvent): Step<()>
    requires cmd.payload.CreateCredential?
  {
    var required := RequireInProgress(db.receipts, cmd.operation, operationId);
    var row := NewCredentialRow(db, cmd, credential);
    if !MetadataValid(cmd, credential) then Step(db, Err(Validation))
    else if required.Fail? then Step(db, Err(required.error))
    else if !Reserved(db.reservations, cmd, operationId, credential.id) then
      Step(db, Err(CorruptData(CredentialReservation)))
    else if !CredentialChecks(row) then Step(db, Err(Database))
    else if CredentialTaken(db.credentials, credential.id, row) then Step(db, Err(Conflict(ResourceExists)))
    else
      match FinishReceipt(db.receipts, cmd.operation, operationId, response)
      case Err(e) => Step(db, Err(e))
      case Ok(receipts) =>
        if !AuditAccepted(audit) then Step(db, Err(Validation))
        else
          Step(Issued(db, cmd, operationId, credential, receipts, audit), Ok(()))
  }

  /** The tables after a credential is revoked. */
  function Withdrawn(db: Db, cmd: Command, receipts: Receipts, audit: AuditEvent): Db
    requires cmd.payload.RevokeCredential? && cmd.payload.credentialId in db.credentials
  {
    var id := cmd.payload.credentialId;
    db.(credentials := db.credentials[id := RevokedRow(db.credentials[id], db.clock, cmd.operation.identity.principalId)],
        receipts := receipts,
        audit := db.audit + [audit])
  }

  function CompleteRevokeStep(db: Db, cmd: Command, operationId: Uuid, response: StoredHttpResponse,
                              audit: AuditEvent): Step<()>
    requires cmd.payload.RevokeCredential?
  {
    var identity := cmd.operation.identity;
    var id := cmd.payload.credentialId;
    var required := RequireInProgress(db.receipts, cmd.operation, operationId);
    if required.Fail? then Step(db, Err(required.error))
    else if id !in db.credentials || db.credentials[id].serviceId != identity.serviceId then Step(db, Err(NotFound))
    else
      match FinishReceipt(db.receipts, cmd.operation, operationId, response)
      case Err(e) => Step(db, Err(e))
      case Ok(receipts) =>
        if !AuditAccepted(audit) then Step(db, Err(Validation))
        else
          Step(Withdrawn(db, cmd, receipts, audit), Ok(()))
  }

  // ---------------------------------------------------------------- renew, fail, record

  function RenewedReceipts(receipts: Receipts, key: Uuid, expiry: int): Receipts
    requires key in receipts
  {
    receipts[key := receipts[key].(leaseExpiresAt := Some(expiry))]
  }

  function Renewed(db: Db, key: Uuid): Db
    requires key in db.receipts
  {
    db.(receipts := RenewedReceipts(db.receipts, key, db.clock + OPERATION_LEASE_SECONDS))
  }

  function RenewStep(db: Db, operation: OperationRequest, operationId: Uuid): Step<()> {
    var required := RequireInProgress(db.receipts, operation, operationId);
    if operation.identity.generation.Some? && operation.identity.generation.value <= 0 then Step(db, Err(Validation))
    else if required.Fail? then Step(db, Err(required.error))
    else Step(Renewed(db, operation.key), Ok(()))
  }

  /** Drops the reservations of a service that no bucket row of that service carries. */
  function DropUnbackedNames(names: Names, buckets: Buckets, serviceId: Uuid): Names {
    map n | n in names && (names[n] == serviceId ==> serviceId in buckets && buckets[serviceId].bucketName == n)
      :: names[n]
  }

  /** The tables after an operation fails. */
  function Abandoned(db: Db, operation: OperationRequest, operationId: Uuid, receipts: Receipts, audit: AuditEvent): Db {
    db.(reservations := db.reservations - {operationId},
        names := DropUnbackedNames(db.names, db.buckets, operation.identity.serviceId),
        receipts := receipts,
        audit := db.audit + [audit])
  }

  function FailStep(db: Db, operation: OperationRequest, operationId: Uuid, response: StoredHttpResponse,
                    audit: AuditEvent): Step<()>
  {
    var required := RequireInProgress(db.receipts, operation, operationId);
    if !response.failed then Step(db, Err(Validation))
    else if required.Fail? then Step(db, Err(required.error))
    else
      match FinishReceipt(db.receipts, operation, operationId, response)
      case Err(e) => Step(db, Err(e))
      case Ok(receipts) =>
        if !AuditAccepted(audit) then Step(db, Err(Validation))
        else
          Step(Abandoned(db, operation, operationId, receipts, audit), Ok(()))
  }

  function Measured(db: Db, serviceId: Uuid, row: BucketRow): Db {
    db.(buckets := db.buckets[serviceId := row])
  }

  function Noted(db: Db, audit: AuditEvent): Db {
    db.(audit := db.audit + [audit])
  }

  function Ticked(db: Db, seconds: nat): Db {
    db.(clock := db.clock + seconds)
  }

  function RecordUsageStep(db: Db, organizationId: Uuid, projectId: Uuid, serviceId: Uuid, bytesUsed: U64,
                           objectsUsed: U64, measuredAt: int): Step<()>
  {
    if ToI64(bytesUsed).None? || ToI64(objectsUsed).None? then Step(db, Err(InvalidNumericValue))
    else if || serviceId !in db.buckets
            || db.buckets[serviceId].organizationId != organizationId
            || db.buckets[serviceId].projectId != projectId then Step(db, Err(NotFound))
    else
      var row := db.buckets[serviceId].(usedBytes := bytesUsed, usedObjects := objectsUsed,
                                        usageMeasuredAt := Some(measuredAt));
      Step(Measured(db, serviceId, row), Ok(()))
  }

  function RecordAuditStep(db: Db, audit: AuditEvent): Step<()> {
    if !AuditAccepted(audit) then Step(db, Err(Validation))
    else Step(Noted(db, audit), Ok(()))
  }
}
