/** Identifiers, values, rows and errors shared by every part of the model. */
module Types {

  /** A UUID, by its value; zero is the nil UUID. */
  datatype Uuid = Uuid(value: nat)

  const NIL := Uuid(0)

  const I64_MAX := 0x7FFF_FFFF_FFFF_FFFF

  /** One octet of a body or of associated data. */
  newtype Byte = x: int | 0 <= x < 256

  type I64 = x: int | -0x8000_0000_0000_0000 <= x <= 0x7FFF_FFFF_FFFF_FFFF
  type U64 = x: int | 0 <= x <= 0xFFFF_FFFF_FFFF_FFFF
  type U32 = x: int | 0 <= x <= 0xFFFF_FFFF

  datatype Option<+T> = None | Some(value: T)

  /** The outcome of a store call: an error always means the transaction was rolled back. */
  datatype Result<+T> = Ok(value: T) | Err(error: StoreError)

  // ---------------------------------------------------------------- desired state

  datatype SyouyuSpec = SyouyuSpec(region: string, bucketName: string, quotaBytes: U64, quotaObjects: U64)

  datatype BucketPermissions = BucketPermissions(read: bool, write: bool)

  datatype CredentialLimits = CredentialLimits(maxCredentialsPerBucket: U32, maxTotalCredentials: U32)

  // ---------------------------------------------------------------- commands

  datatype Action =
    | ReconcileAction
    | DeleteAction
    | CreateCredentialAction
    | RevokeCredentialAction
    | OverviewRead
    | UsageRead
    | CredentialList

  /** What distinguishes the four mutating commands from one another. */
  datatype Payload =
    | Reconcile(generation: I64, name: string, spec: SyouyuSpec)
    | Delete(serviceId: Uuid, generation: I64)
    | CreateCredential(name: string, permissions: BucketPermissions, limits: CredentialLimits)
    | RevokeCredential(credentialId: Uuid)

  /** The digest of an action and a request body, idealised as the injective term over its preimage. */
  datatype RequestHash = RequestHash(action: Action, body: Payload)

  /** The columns of a receipt that a retry must repeat exactly. */
  datatype Identity = Identity(
    organizationId: Uuid,
    projectId: Uuid,
    serviceId: Uuid,
    principalId: Uuid,
    action: Action,
    generation: Option<I64>,
    requestHash: RequestHash)

  datatype OperationRequest = OperationRequest(key: Uuid, identity: Identity)

  datatype Command = Command(operation: OperationRequest, payload: Payload) {
    function ServiceId(): Uuid { operation.identity.serviceId }
  }

  function ActionOf(payload: Payload): Action {
    match payload
    case Reconcile(_, _, _) => ReconcileAction
    case Delete(_, _) => DeleteAction
    case CreateCredential(_, _, _) => CreateCredentialAction
    case RevokeCredential(_) => RevokeCredentialAction
  }

  function GenerationOf(payload: Payload): Option<I64> {
    match payload
    case Reconcile(g, _, _) => Some(g)
    case Delete(_, g) => Some(g)
    case CreateCredential(_, _, _) => None
    case RevokeCredential(_) => None
  }

  /** The shape every handler gives the identity of the request it builds. */
  predicate RouteFormed(identity: Identity, payload: Payload) {
    && identity.action == ActionOf(payload)
    && identity.generation == GenerationOf(payload)
    && identity.requestHash == RequestHash(identity.action, payload)
    && (payload.Delete? ==> payload.serviceId == identity.serviceId)
  }

  predicate WellFormed(cmd: Command) {
    RouteFormed(cmd.operation.identity, cmd.payload)
  }

  // ---------------------------------------------------------------- responses

  /** Response bodies, as terms over the values the handlers put in them. */
  datatype Body =
    | ReconcileReply(operationId: Uuid, generation: I64, physicalBucketId: string)
    | DeleteReply(operationId: Uuid, generation: I64)
    | CredentialReply(credentialId: Uuid, name: string, accessKeyId: string,
                      permissions: BucketPermissions, secret: string, bucketName: string)
    | RevokeReply(credentialId: Uuid)
    | ErrorReply(code: string)

  datatype StoredHttpResponse = StoredHttpResponse(status: int, body: Body, failed: bool)

  // ---------------------------------------------------------------- rows

  datatype Phase = Provisioning | Ready | Degraded | Deleting | Deleted | Broken

  datatype ServiceRow = ServiceRow(
    organizationId: Uuid,
    projectId: Uuid,
    name: string,
    desiredGeneration: I64,
    desiredSpec: SyouyuSpec,
    observedGeneration: I64,
    phase: Phase,
    currentOperationId: Uuid)

  datatype BucketRow = BucketRow(
    organizationId: Uuid,
    projectId: Uuid,
    physicalBucketId: Option<string>,
    bucketName: string,
    region: string,
    quotaBytes: I64,
    quotaObjects: I64,
    usedBytes: I64,
    usedObjects: I64,
    usageMeasuredAt: Option<int>)

  datatype CredentialStatus = Active | Revoked

  datatype CredentialRow = CredentialRow(
    serviceId: Uuid,
    organizationId: Uuid,
    projectId: Uuid,
    principalId: Uuid,
    name: string,
    garageKeyId: string,
    accessKeyId: string,
    permissions: BucketPermissions,
    status: CredentialStatus,
    createdAt: int,
    revokedAt: Option<int>,
    revokedBy: Option<Uuid>)

  datatype ReservationRow = ReservationRow(
    credentialId: Uuid,
    serviceId: Uuid,
    organizationId: Uuid,
    projectId: Uuid,
    name: string,
    permissions: BucketPermissions)

  datatype ReceiptState = InProgress | Succeeded | Failed

  /** An authenticated ciphertext: it opens only under the key and operation id it was sealed with. */
  datatype Sealed = Sealed(key: Uuid, operationId: Uuid, plaintext: Body)

  datatype ReceiptRow = ReceiptRow(
    operationId: Uuid,
    identity: Identity,
    state: ReceiptState,
    leaseAttempt: nat,
    leaseExpiresAt: Option<int>,
    responseStatus: Option<int>,
    responseCiphertext: Option<Sealed>,
    createdAt: int)

  datatype AuditOutcome = Allowed | Denied | FailedOutcome

  datatype AuditEvent = AuditEvent(
    organizationId: Uuid,
    projectId: Uuid,
    serviceId: Uuid,
    principalId: Uuid,
    requestId: string,
    action: Action,
    resourceType: string,
    outcome: AuditOutcome)

  // ---------------------------------------------------------------- records handed to callers

  datatype BucketRecord = BucketRecord(
    serviceId: Uuid,
    organizationId: Uuid,
    projectId: Uuid,
    physicalBucketId: Option<string>,
    bucketName: string,
    region: string,
    quotaBytes: U64,
    quotaObjects: U64,
    usedBytes: U64,
    usedObjects: U64,
    usageMeasuredAt: Option<int>)

  datatype Context =
    | ReconcileContext(bucket: BucketRecord, previouslyApplied: bool)
    | DeleteContext(bucket: BucketRecord, garageKeyIds: seq<string>)
    | CreateCredentialContext(bucket: BucketRecord, credentialId: Uuid)
    | RevokeCredentialContext(garageKeyId: string, alreadyRevoked: bool)

  datatype Prepare =
    | Execute(operationId: Uuid, context: Context)
    | Replay(response: StoredHttpResponse)
    | StillInProgress(operationId: Uuid)

  datatype NewCredential = NewCredential(
    id: Uuid,
    garageKeyId: string,
    accessKeyId: string,
    name: string,
    permissions: BucketPermissions)

  // ---------------------------------------------------------------- errors

  datatype ValidationError =
    | InvalidLength(lengthField: string)
    | OutOfRange(rangeField: string)
    | InvalidField(field: string)

  datatype ConflictReason =
    | AlreadyDeleted
    | BucketNameImmutable
    | GenerationReused
    | DeleteGenerationGap
    | ScopeMismatch
    | DuplicateCredentialName
    | ChangedDuringReconcile
    | ChangedDuringDelete
    | AlreadyComplete
    | DifferentResult
    | ResourceExists

  datatype Corruption =
    | OperationReceipt
    | ReceiptLease
    | ReceiptResponse
    | ServiceBucket
    | PhysicalBucketId
    | CredentialReservation
    | BucketNumbers

  datatype LimitScope = BucketScope | OrganizationScope

  datatype StoreError =
    | Database
    | Configuration
    | Validation
    | DomainValidation(reason: ValidationError)
    | NotFound
    | Conflict(why: ConflictReason)
    | IdempotencyConflict
    | BucketNameUnavailable
    | StaleGeneration(current: I64, requested: I64)
    | OperationInProgress(operationId: Uuid)
    | OperationLeaseLost(currentOperationId: Uuid)
    | ServiceNotReady
    | CredentialLimitExceeded(scope: LimitScope, limit: U32)
    | InvalidNumericValue
    | CorruptData(what: Corruption)
    | Encryption
}
