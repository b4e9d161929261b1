/** The four mutating handlers as programs that interleave with one another, with time, and with calls that arrive late. */
module Handlers {
  import opened Types
  import opened Domain
  import opened StoreSpec
  import opened Invariant
  import opened Transactions
  import opened AuditTrail
  import opened GarageModel

  // ---------------------------------------------------------------- programs

  /** Where a handler stands between two Garage calls: the call it makes next. */
  datatype Stage =
    | Lookup
    | Making
    | Setting(bucketId: string)
    | Measuring
    | Revoking(index: nat)
    | Removing
    | Listing
    | Sweeping(keyIds: seq<string>)
    | KeyMaking
    | Denying(keyId: string, secret: string)
    | Allowing(keyId: string, secret: string)
    | Undoing(keyId: string)
    | Withdrawing
    | Cleaning(keyId: string)

  /** What a handler brings to its completion. */
  datatype Product =
    | BucketReady(bucketId: string)
    | ServiceGone
    | KeyReady(keyId: string, secret: string)
    | KeyGone

  datatype Pc =
    | Extending(next: Pc)
    | Calling(stage: Stage)
    | Completing(product: Product)
    | Abandoning
    | Halted

  /** One execution of one granted operation. */
  datatype Exec = Exec(cmd: Command, context: Context, pc: Pc)

  /** The context belongs to the command, and the bucket it needs is there. */
  ghost predicate Suits(cmd: Command, context: Context) {
    match cmd.payload
    case Reconcile(_, _, _) =>
      context.ReconcileContext? && (context.previouslyApplied ==> context.bucket.physicalBucketId.Some?)
    case Delete(_, _) => context.DeleteContext? && context.bucket.physicalBucketId.Some?
    case CreateCredential(_, _, _) => context.CreateCredentialContext? && context.bucket.physicalBucketId.Some?
    case RevokeCredential(_) => context.RevokeCredentialContext?
  }

  /** The stage is one this command goes through. */
  ghost predicate StageFits(cmd: Command, context: Context, stage: Stage) {
    && Suits(cmd, context)
    && match stage
       case Lookup => cmd.payload.Reconcile? && !context.previouslyApplied
       case Making => cmd.payload.Reconcile? && !context.previouslyApplied && context.bucket.physicalBucketId.None?
       case Setting(_) => cmd.payload.Reconcile? && !context.previouslyApplied
       case Measuring => cmd.payload.Delete?
       case Revoking(i) => cmd.payload.Delete? && i < |context.garageKeyIds|
       case Removing => cmd.payload.Delete?
       case Sweeping(ids) => cmd.payload.CreateCredential? && ids != []
       case Withdrawing => cmd.payload.RevokeCredential?
       case _ => cmd.payload.CreateCredential?
  }

  /** The points before which a handler renews its lease. */
  ghost predicate Renewable(next: Pc) {
    || next == Completing(KeyGone)
    || (&& next.Calling?
        && (|| next.stage.Lookup? || next.stage.Measuring? || next.stage.Revoking? || next.stage.Removing?
            || next.stage.Listing? || next.stage.Withdrawing?))
  }

  ghost predicate PcFits(cmd: Command, context: Context, pc: Pc) {
    match pc
    case Extending(next) => Renewable(next) && PcFits(cmd, context, next)
    case Calling(stage) => StageFits(cmd, context, stage)
    case Completing(product) =>
      && Suits(cmd, context)
      && (match product
          case BucketReady(_) => cmd.payload.Reconcile?
          case ServiceGone => cmd.payload.Delete?
          case KeyReady(_, _) => cmd.payload.CreateCredential?
          case KeyGone => cmd.payload.RevokeCredential?)
    case Abandoning => true
    case Halted => true
  }

  /** The first thing an executor does. */
  ghost function Start(cmd: Command, context: Context): Pc {
    if !Suits(cmd, context) then Halted
    else
      match cmd.payload
      case Reconcile(_, _, _) =>
        if context.previouslyApplied then Completing(BucketReady(context.bucket.physicalBucketId.value))
        else Extending(Calling(Lookup))
      case Delete(_, _) => Extending(Calling(Measuring))
      case CreateCredential(_, _, _) => Extending(Calling(Listing))
      case RevokeCredential(_) =>
        Extending(if context.alreadyRevoked then Completing(KeyGone) else Calling(Withdrawing))
  }

  ghost function KeyNameOf(cmd: Command, context: Context): KeyName
    requires context.CreateCredentialContext?
  {
    Deterministic(cmd.ServiceId(), context.credentialId)
  }

  ghost function CallOf(cmd: Command, context: Context, stage: Stage): Call
    requires StageFits(cmd, context, stage)
  {
    match stage
    case Lookup =>
      if context.bucket.physicalBucketId.Some? then GetBucket(context.bucket.physicalBucketId.value)
      else GetBucketByAlias(cmd.payload.spec.bucketName)
    case Making => CreateBucket(cmd.payload.spec.bucketName)
    case Setting(b) => UpdateQuotas(b, Quotas(cmd.payload.spec.quotaBytes, cmd.payload.spec.quotaObjects))
    case Measuring => GetBucket(context.bucket.physicalBucketId.value)
    case Revoking(i) => DeleteKey(context.garageKeyIds[i])
    case Removing => DeleteBucket(context.bucket.physicalBucketId.value)
    case Listing => ListKeys(KeyNameOf(cmd, context))
    case Sweeping(ids) => DeleteKey(ids[0])
    case KeyMaking => CreateKey(KeyNameOf(cmd, context))
    case Denying(k, _) => DenyBucketKey(context.bucket.physicalBucketId.value, k, ALL_RIGHTS)
    case Allowing(k, _) =>
      AllowBucketKey(context.bucket.physicalBucketId.value, k, RightsFor(cmd.payload.permissions))
    case Undoing(k) => DeleteKey(k)
    case Withdrawing => DeleteKey(context.garageKeyId)
    case Cleaning(k) => DeleteKey(k)
  }

  ghost function RevokingFrom(context: Context, i: nat): Pc
    requires context.DeleteContext?
  {
    Extending(Calling(if i < |context.garageKeyIds| then Revoking(i) else Removing))
  }

  ghost function SweepingFrom(ids: seq<string>): Pc {
    Calling(if ids == [] then KeyMaking else Sweeping(ids))
  }

  /** What the handler does with an answer. */
  ghost function Next(cmd: Command, context: Context, stage: Stage, answer: Answer): Pc
    requires StageFits(cmd, context, stage)
  {
    match stage
    case Lookup =>
      if answer.Found? then
        if context.bucket.physicalBucketId.Some? && cmd.payload.spec.bucketName !in answer.aliases then Abandoning
        else Calling(Setting(answer.bucketId))
      else if context.bucket.physicalBucketId.Some? then Abandoning
      else Calling(Making)
    case Making => if answer.MadeBucket? then Calling(Setting(answer.bucketId)) else Abandoning
    case Setting(b) => if answer == Done then Completing(BucketReady(b)) else Abandoning
    case Measuring => if answer.Found? && !answer.empty then Abandoning else RevokingFrom(context, 0)
    case Revoking(i) => RevokingFrom(context, i + 1)
    case Removing => Completing(ServiceGone)
    case Listing => if answer.Listed? then SweepingFrom(answer.keyIds) else Abandoning
    case Sweeping(ids) => SweepingFrom(ids[1..])
    case KeyMaking =>
      if !answer.MadeKey? then Abandoning
      else if answer.secret.Some? then Calling(Denying(answer.keyId, answer.secret.value))
      else Calling(Undoing(answer.keyId))
    case Denying(k, secret) =>
      if answer != Done then Calling(Undoing(k))
      else if RightsFor(cmd.payload.permissions) == NO_RIGHTS then Completing(KeyReady(k, secret))
      else Calling(Allowing(k, secret))
    case Allowing(k, secret) => if answer == Done then Completing(KeyReady(k, secret)) else Calling(Undoing(k))
    case Undoing(_) => Abandoning
    case Withdrawing => Completing(KeyGone)
    case Cleaning(_) => Halted
  }

  /** What the handler does when the call is reported as failed. */
  ghost function OnError(stage: Stage): Pc {
    match stage
    case Denying(k, _) => Calling(Undoing(k))
    case Allowing(k, _) => Calling(Undoing(k))
    case Cleaning(_) => Halted
    case _ => Abandoning
  }

  // ---------------------------------------------------------------- completions

  ghost function AuditFor(operation: OperationRequest, requestId: string, outcome: AuditOutcome): AuditEvent {
    var identity := operation.identity;
    var resource := if identity.action == ReconcileAction || identity.action == DeleteAction
                    then "service_instance" else "credential";
    AuditEvent(identity.organizationId, identity.projectId, identity.serviceId, identity.principalId, requestId,
               identity.action, resource, outcome)
  }

  ghost function CredentialOf(cmd: Command, context: Context, keyId: string): NewCredential
    requires cmd.payload.CreateCredential? && context.CreateCredentialContext?
  {
    NewCredential(context.credentialId, keyId, keyId, cmd.payload.name, cmd.payload.permissions)
  }

  /** The completing transaction of a handler that has its product. */
  ghost function CompletionOf(o: Uuid, cmd: Command, context: Context, product: Product, requestId: string): Tx
    requires PcFits(cmd, context, Completing(product))
  {
    var audit := AuditFor(cmd.operation, requestId, Allowed);
    match product
    case BucketReady(b) =>
      CompletingReconcile(cmd, o, b, StoredHttpResponse(if context.previouslyApplied then 200 else 202,
                                                        ReconcileReply(o, cmd.payload.generation, b), false), audit)
    case ServiceGone =>
      CompletingDelete(cmd, o, StoredHttpResponse(200, DeleteReply(o, cmd.payload.generation), false), audit)
    case KeyReady(k, secret) =>
      CompletingCreate(cmd, o, CredentialOf(cmd, context, k),
                       StoredHttpResponse(201, CredentialReply(context.credentialId, cmd.payload.name, k,
                                                               cmd.payload.permissions, secret,
                                                               context.bucket.bucketName), false), audit)
    case KeyGone =>
      CompletingRevoke(cmd, o, StoredHttpResponse(200, RevokeReply(cmd.payload.credentialId), false), audit)
  }

  ghost predicate RequestIdOk(requestId: string) {
    requestId != [] && ByteLength(requestId) <= 256
  }

  // ---------------------------------------------------------------- the world

  /** A Garage call of unknown outcome: it may take effect at any later time. */
  datatype Loose = Loose(operationId: Uuid, stage: Stage)

  datatype World = World(db: Db, garage: Garage, execs: map<Uuid, Exec>, loose: set<Loose>)

  datatype Event =
    | Wait(seconds: nat)
    | Begin(cmd: Command, ids: FreshIds)
    | Renew(operationId: Uuid)
    | Reply(operationId: Uuid, answer: Answer)
    | Error(operationId: Uuid)
    | Crash(operationId: Uuid)
    | Commit(operationId: Uuid, requestId: string)
    | GiveUp(operationId: Uuid, requestId: string, response: StoredHttpResponse)
    | Late(call: Loose, answer: Answer)
    | Measure(organizationId: Uuid, projectId: Uuid, serviceId: Uuid, bytes: U64, objects: U64, at: int)
    | Read(audit: AuditEvent)

  ghost predicate AtCall(w: World, o: Uuid) {
    o in w.execs && w.execs[o].pc.Calling? && StageFits(w.execs[o].cmd, w.execs[o].context, w.execs[o].pc.stage)
  }

  ghost predicate AtCompletion(w: World, o: Uuid) {
    o in w.execs && w.execs[o].pc.Completing? && PcFits(w.execs[o].cmd, w.execs[o].context, w.execs[o].pc)
  }

  ghost function CallAt(w: World, o: Uuid): Call
    requires AtCall(w, o)
  {
    CallOf(w.execs[o].cmd, w.execs[o].context, w.execs[o].pc.stage)
  }

  ghost predicate LooseFits(w: World, call: Loose) {
    && call in w.loose && call.operationId in w.execs
    && StageFits(w.execs[call.operationId].cmd, w.execs[call.operationId].context, call.stage)
  }

  ghost function LooseCall(w: World, call: Loose): Call
    requires LooseFits(w, call)
  {
    CallOf(w.execs[call.operationId].cmd, w.execs[call.operationId].context, call.stage)
  }

  /** Executors interleave in any order and may stop for good anywhere. */
  ghost predicate Possible(w: World, e: Event) {
    match e
    case Wait(_) => true
    case Begin(cmd, ids) => WellFormed(cmd) && FreshFor(w.db.issued, ids)
    case Renew(o) => o in w.execs && w.execs[o].pc.Extending?
    case Reply(o, answer) => AtCall(w, o) && Answers(w.garage, CallAt(w, o), answer)
    case Error(o) => AtCall(w, o)
    case Crash(o) => AtCall(w, o)
    case Commit(o, requestId) => AtCompletion(w, o) && WellFormed(w.execs[o].cmd) && RequestIdOk(requestId)
    case GiveUp(o, requestId, response) =>
      && o in w.execs && w.execs[o].pc.Abandoning? && RequestIdOk(requestId)
      && response.failed && 100 <= response.status <= 599
    case Late(call, answer) => LooseFits(w, call) && Answers(w.garage, LooseCall(w, call), answer)
    case Measure(_, _, _, _, _, _) => true
    case Read(audit) => !Mutating(audit.action)
  }

  /** The store transaction of an event; events that do not touch the store let no time pass. */
  ghost function TxOf(w: World, e: Event): Tx
    requires Possible(w, e)
  {
    match e
    case Wait(seconds) => Tick(seconds)
    case Begin(cmd, ids) => Preparing(cmd, ids)
    case Renew(o) => Tx.Renewing(w.execs[o].cmd.operation, o)
    case Commit(o, requestId) =>
      CompletionOf(o, w.execs[o].cmd, w.execs[o].context, w.execs[o].pc.product, requestId)
    case GiveUp(o, requestId, response) =>
      Tx.Failing(w.execs[o].cmd.operation, o, response,
                 AuditFor(w.execs[o].cmd.operation, requestId, FailedOutcome))
    case Measure(organizationId, projectId, s, bytes, objects, at) =>
      RecordingUsage(organizationId, projectId, s, bytes, objects, at)
    case Read(audit) => RecordingAudit(audit)
    case _ => Tick(0)
  }

  lemma EventsAreTransactions(w: World, e: Event)
    requires Possible(w, e)
    ensures Admissible(w.db, TxOf(w, e)) && HandlerShaped(TxOf(w, e))
  {
  }

  ghost function GarageAfter(w: World, e: Event): Garage
    requires Possible(w, e)
  {
    match e
    case Reply(o, answer) => After(w.garage, CallAt(w, o), answer)
    case Late(call, answer) => After(w.garage, LooseCall(w, call), answer)
    case _ => w.garage
  }

  /** The error a completing call of the handler comes back with, if any. */
  ghost function CompletionError(db: Db, tx: Tx): Option<StoreError>
    requires Admissible(db, tx)
  {
    var reply := match tx
      case CompletingReconcile(cmd, o, b, response, audit) => CompleteReconcileStep(db, cmd, o, b, response, audit).reply
      case CompletingDelete(cmd, o, response, audit) => CompleteDeleteStep(db, cmd, o, response, audit).reply
      case CompletingCreate(cmd, o, credential, response, audit) =>
        CompleteCreateStep(db, cmd, o, credential, response, audit).reply
      case CompletingRevoke(cmd, o, response, audit) => CompleteRevokeStep(db, cmd, o, response, audit).reply
      case _ => Ok(());
    if reply.Err? then Some(reply.error) else None
  }

  /** A created key that could not be recorded because the operation was taken over is cleaned up. */
  ghost function AfterCompletion(product: Product, error: Option<StoreError>): Pc {
    if product.KeyReady? && error.Some? && error.value.OperationLeaseLost? then Calling(Cleaning(product.keyId)) else Halted
  }

  /** The execution an event moves. */
  ghost function Actor(e: Event): Option<Uuid> {
    match e
    case Renew(o) => Some(o)
    case Reply(o, _) => Some(o)
    case Error(o) => Some(o)
    case Crash(o) => Some(o)
    case Commit(o, _) => Some(o)
    case GiveUp(o, _, _) => Some(o)
    case _ => None
  }

  ghost function PcAfter(w: World, e: Event): Pc
    requires Possible(w, e) && Actor(e).Some?
  {
    var exec := w.execs[Actor(e).value];
    match e
    case Renew(o) => if RenewStep(w.db, exec.cmd.operation, o).reply.Ok? then exec.pc.next else Halted
    case Reply(_, answer) => Next(exec.cmd, exec.context, exec.pc.stage, answer)
    case Error(_) => OnError(exec.pc.stage)
    case Crash(_) => Halted
    case Commit(_, _) =>
      EventsAreTransactions(w, e);
      AfterCompletion(exec.pc.product, CompletionError(w.db, TxOf(w, e)))
    case GiveUp(_, _, _) => Halted
  }

  ghost function ExecsAfter(w: World, e: Event): map<Uuid, Exec>
    requires Possible(w, e)
  {
    if e.Begin? then
      var reply := PrepareStep(w.db, e.cmd, e.ids).reply;
      if reply.Ok? && reply.value.Execute? then
        w.execs[reply.value.operationId := Exec(e.cmd, reply.value.context, Start(e.cmd, reply.value.context))]
      else w.execs
    else if Actor(e).Some? then
      var o := Actor(e).value;
      w.execs[o := w.execs[o].(pc := PcAfter(w, e))]
    else w.execs
  }

  ghost function LooseAfter(w: World, e: Event): set<Loose>
    requires Possible(w, e)
  {
    match e
    case Error(o) => w.loose + {Loose(o, w.execs[o].pc.stage)}
    case Crash(o) => w.loose + {Loose(o, w.execs[o].pc.stage)}
    case _ => w.loose
  }

  ghost function Move(w: World, e: Event): World
    requires Possible(w, e)
  {
    EventsAreTransactions(w, e);
    World(Apply(w.db, TxOf(w, e)), GarageAfter(w, e), ExecsAfter(w, e), LooseAfter(w, e))
  }
}
