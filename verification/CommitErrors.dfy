/** What a completing call can come back with, in every run. */
module CommitErrors {
  import opened Types
  import opened Domain
  import opened StoreSpec
  import opened Invariant
  import opened Transactions
  import opened Guarantees
  import opened GarageModel
  import opened Handlers
  import opened Completing
  import opened WorldInvariant
  import opened WorldRuns
  import opened LeaseTheorem

  ghost predicate AcceptableBucketId(b: string) {
    b != [] && ByteLength(b) <= 256
  }

  /** While its operation is current, a handler is refused only for an id that Garage gave it, for a name that cannot be
      stored, or by a unique index. */
  ghost predicate CurrentOutcome(cmd: Command, product: Product, error: Option<StoreError>) {
    match product
    case ServiceGone => error == None
    case KeyGone => error == None
    case KeyReady(k, _) => error == if k == [] then Some(Validation) else if |k| > 256 then Some(Database) else None
    case BucketReady(b) =>
      if !AcceptableBucketId(b) then error == Some(Validation)
      else if cmd.payload.Reconcile? && !Storable(cmd.payload.name) then error == Some(Database)
      else error == None || error == Some(Conflict(ResourceExists))
  }

  /** An argument that a completing call refuses before it looks at the receipt. */
  ghost predicate BadArgument(exec: Exec, product: Product) {
    || (product.BucketReady? && !AcceptableBucketId(product.bucketId))
    || (product.KeyReady? && (product.keyId == [] || (exec.context.CreateCredentialContext? && exec.context.credentialId == NIL)))
  }

  /** Otherwise it is told who took over, or that the operation has ended. */
  ghost function LateError(receipts: Receipts, key: Uuid, o: Uuid): StoreError
    requires key in receipts
  {
    if receipts[key].operationId != o then OperationLeaseLost(receipts[key].operationId) else Conflict(AlreadyComplete)
  }

  ghost predicate LateOutcome(receipts: Receipts, o: Uuid, exec: Exec, product: Product, error: Option<StoreError>)
    requires exec.cmd.operation.key in receipts
  {
    error == Some(if BadArgument(exec, product) then Validation else LateError(receipts, exec.cmd.operation.key, o))
  }

  /** What the completing call of a handler with this product comes back with. */
  ghost function ErrorOf(db: Db, o: Uuid, exec: Exec, product: Product, requestId: string): Option<StoreError>
    requires PcFits(exec.cmd, exec.context, Completing(product)) && WellFormed(exec.cmd) && RequestIdOk(requestId)
  {
    CompletionError(db, CompletionOf(o, exec.cmd, exec.context, product, requestId))
  }

  // ---------------------------------------------------------------- current operations

  lemma EndingOutcome(db: Db, o: Uuid, exec: Exec, product: Product, requestId: string)
    requires PcFits(exec.cmd, exec.context, Completing(product)) && WellFormed(exec.cmd) && RequestIdOk(requestId)
    requires product.ServiceGone? || product.KeyGone?
    requires var tx := CompletionOf(o, exec.cmd, exec.context, product, requestId);
             && (product.ServiceGone? ==> CompleteDeleteStep(db, exec.cmd, o, tx.response, tx.audit).reply.Ok?)
             && (product.KeyGone? ==> CompleteRevokeStep(db, exec.cmd, o, tx.response, tx.audit).reply.Ok?)
    ensures CurrentOutcome(exec.cmd, product, ErrorOf(db, o, exec, product, requestId))
  {
  }

  lemma CurrentEnding(db: Db, o: Uuid, exec: Exec, product: Product, requestId: string)
    requires Inv(db) && Granted(db.receipts, db.issued, o, exec.cmd) && Current(db.receipts, exec.cmd.operation.key, o)
    requires PcFits(exec.cmd, exec.context, Completing(product)) && RequestIdOk(requestId)
    requires product.ServiceGone? || product.KeyGone?
    ensures CurrentOutcome(exec.cmd, product, ErrorOf(db, o, exec, product, requestId))
  {
    var tx := CompletionOf(o, exec.cmd, exec.context, product, requestId);
    if product.ServiceGone? {
      DeletionGoesThrough(db, o, exec.cmd, tx.response, requestId);
    } else {
      RevocationGoesThrough(db, o, exec.cmd, tx.response, requestId);
    }
    EndingOutcome(db, o, exec, product, requestId);
  }

  lemma UnfitKeyOutcome(db: Db, o: Uuid, exec: Exec, product: Product, requestId: string)
    requires product.KeyReady? && PcFits(exec.cmd, exec.context, Completing(product))
    requires WellFormed(exec.cmd) && RequestIdOk(requestId) && !(1 <= |product.keyId| <= 256)
    requires RequireInProgress(db.receipts, exec.cmd.operation, o).Pass? && exec.context.credentialId != NIL
    requires Reserved(db.reservations, exec.cmd, o, exec.context.credentialId)
    ensures CurrentOutcome(exec.cmd, product, ErrorOf(db, o, exec, product, requestId))
  {
  }

  lemma CurrentIsReserved(db: Db, o: Uuid, exec: Exec)
    requires Inv(db) && Granted(db.receipts, db.issued, o, exec.cmd) && Current(db.receipts, exec.cmd.operation.key, o)
    requires exec.cmd.payload.CreateCredential? && Suits(exec.cmd, exec.context) && Informed(db, o, exec.cmd, exec.context)
    ensures RequireInProgress(db.receipts, exec.cmd.operation, o).Pass? && exec.context.credentialId != NIL
    ensures Reserved(db.reservations, exec.cmd, o, exec.context.credentialId)
  {
    CurrentReservation(db, exec.cmd.operation, o);
  }

  lemma FitKeyOutcome(db: Db, o: Uuid, exec: Exec, product: Product, requestId: string)
    requires product.KeyReady? && PcFits(exec.cmd, exec.context, Completing(product))
    requires WellFormed(exec.cmd) && RequestIdOk(requestId) && 1 <= |product.keyId| <= 256
    requires var tx := CompletionOf(o, exec.cmd, exec.context, product, requestId);
             CompleteCreateStep(db, exec.cmd, o, tx.credential, tx.response, tx.audit).reply.Ok?
    ensures CurrentOutcome(exec.cmd, product, ErrorOf(db, o, exec, product, requestId))
  {
  }

  lemma CurrentCreation(db: Db, g: Garage, o: Uuid, exec: Exec, product: Product, requestId: string)
    requires Inv(db) && Granted(db.receipts, db.issued, o, exec.cmd) && Current(db.receipts, exec.cmd.operation.key, o)
    requires product.KeyReady? && PcFits(exec.cmd, exec.context, Completing(product)) && RequestIdOk(requestId)
    requires Informed(db, o, exec.cmd, exec.context)
    requires KeysGone(db.credentials, g) && Unrecorded(db.credentials, product.keyId)
    ensures CurrentOutcome(exec.cmd, product, ErrorOf(db, o, exec, product, requestId))
  {
    if 1 <= |product.keyId| <= 256 {
      var tx := CompletionOf(o, exec.cmd, exec.context, product, requestId);
      CreationGoesThrough(db, g, o, exec.cmd, exec.context, product.keyId, tx.response, requestId);
      FitKeyOutcome(db, o, exec, product, requestId);
    } else {
      CurrentIsReserved(db, o, exec);
      UnfitKeyOutcome(db, o, exec, product, requestId);
    }
  }

  lemma ReconcileErrorOutcome(db: Db, o: Uuid, exec: Exec, product: Product, requestId: string)
    requires product.BucketReady? && PcFits(exec.cmd, exec.context, Completing(product))
    requires WellFormed(exec.cmd) && RequestIdOk(requestId)
    requires var tx := CompletionOf(o, exec.cmd, exec.context, product, requestId);
             var reply := CompleteReconcileStep(db, exec.cmd, o, product.bucketId, tx.response, tx.audit).reply;
             reply.Err? ==> reply.error == if !AcceptableBucketId(product.bucketId) then Validation
                                           else if !Storable(exec.cmd.payload.name) then Database
                                           else Conflict(ResourceExists)
    ensures CurrentOutcome(exec.cmd, product, ErrorOf(db, o, exec, product, requestId))
  {
  }

  lemma CurrentReconcile(db: Db, o: Uuid, exec: Exec, product: Product, requestId: string)
    requires Inv(db) && Granted(db.receipts, db.issued, o, exec.cmd) && Current(db.receipts, exec.cmd.operation.key, o)
    requires product.BucketReady? && PcFits(exec.cmd, exec.context, Completing(product)) && RequestIdOk(requestId)
    ensures CurrentOutcome(exec.cmd, product, ErrorOf(db, o, exec, product, requestId))
  {
    var tx := CompletionOf(o, exec.cmd, exec.context, product, requestId);
    HandlerMayFinish(db, o, exec.cmd, tx.response, requestId, Allowed);
    CurrentReconcileError(db, exec.cmd, o, product.bucketId, tx.response, tx.audit);
    ReconcileErrorOutcome(db, o, exec, product, requestId);
  }

  lemma CurrentCommit(db: Db, g: Garage, o: Uuid, exec: Exec, product: Product, requestId: string)
    requires Inv(db) && Granted(db.receipts, db.issued, o, exec.cmd) && Current(db.receipts, exec.cmd.operation.key, o)
    requires PcFits(exec.cmd, exec.context, Completing(product)) && RequestIdOk(requestId)
    requires Informed(db, o, exec.cmd, exec.context) && KeysGone(db.credentials, g)
    requires product.KeyReady? ==> Unrecorded(db.credentials, product.keyId)
    ensures CurrentOutcome(exec.cmd, product, ErrorOf(db, o, exec, product, requestId))
  {
    match product {
      case BucketReady(_) => CurrentReconcile(db, o, exec, product, requestId);
      case KeyReady(_, _) => CurrentCreation(db, g, o, exec, product, requestId);
      case _ => CurrentEnding(db, o, exec, product, requestId);
    }
  }

  // ---------------------------------------------------------------- operations that ended or were taken over

  lemma LateIsRefused(receipts: Receipts, issued: set<Uuid>, o: Uuid, cmd: Command)
    requires Granted(receipts, issued, o, cmd) && !Current(receipts, cmd.operation.key, o)
    ensures RequireInProgress(receipts, cmd.operation, o) == Fail(LateError(receipts, cmd.operation.key, o))
  {
  }

  lemma LateEnding(db: Db, o: Uuid, exec: Exec, product: Product, requestId: string)
    requires WellFormed(exec.cmd) && exec.cmd.operation.key in db.receipts && !product.BucketReady?
    requires RequireInProgress(db.receipts, exec.cmd.operation, o) == Fail(LateError(db.receipts, exec.cmd.operation.key, o))
    requires PcFits(exec.cmd, exec.context, Completing(product)) && RequestIdOk(requestId)
    ensures LateOutcome(db.receipts, o, exec, product, ErrorOf(db, o, exec, product, requestId))
  {
  }

  lemma LateReconcile(db: Db, o: Uuid, exec: Exec, product: Product, requestId: string)
    requires WellFormed(exec.cmd) && exec.cmd.operation.key in db.receipts && product.BucketReady?
    requires RequireInProgress(db.receipts, exec.cmd.operation, o) == Fail(LateError(db.receipts, exec.cmd.operation.key, o))
    requires PcFits(exec.cmd, exec.context, Completing(product)) && RequestIdOk(requestId) && ValidateCommand(exec.cmd).None?
    ensures LateOutcome(db.receipts, o, exec, product, ErrorOf(db, o, exec, product, requestId))
  {
    ValidatedSpecIsAcceptedDownstream(exec.cmd.payload.spec);
  }

  lemma LateCommit(db: Db, o: Uuid, exec: Exec, product: Product, requestId: string)
    requires Inv(db) && Granted(db.receipts, db.issued, o, exec.cmd) && !Current(db.receipts, exec.cmd.operation.key, o)
    requires PcFits(exec.cmd, exec.context, Completing(product)) && RequestIdOk(requestId)
    ensures LateOutcome(db.receipts, o, exec, product, ErrorOf(db, o, exec, product, requestId))
  {
    LateIsRefused(db.receipts, db.issued, o, exec.cmd);
    if product.BucketReady? {
      GrantedCommandIsValid(db.receipts, db.issued, exec.cmd);
      LateReconcile(db, o, exec, product, requestId);
    } else {
      LateEnding(db, o, exec, product, requestId);
    }
  }

  // ---------------------------------------------------------------- over every run

  ghost predicate Answerable(w: World, o: Uuid, requestId: string) {
    && AtCompletion(w, o) && WellFormed(w.execs[o].cmd) && RequestIdOk(requestId)
    && w.execs[o].cmd.operation.key in w.db.receipts
  }

  ghost predicate AnswersTruly(w: World, o: Uuid, requestId: string)
    requires Answerable(w, o, requestId)
  {
    var exec := w.execs[o];
    var error := ErrorOf(w.db, o, exec, exec.pc.product, requestId);
    if Holds(w, o) then CurrentOutcome(exec.cmd, exec.pc.product, error)
    else LateOutcome(w.db.receipts, o, exec, exec.pc.product, error)
  }

  lemma AtCommit(w: World, o: Uuid)
    requires WorldInv(w) && AtCompletion(w, o)
    ensures var exec := w.execs[o];
            && Inv(w.db) && KeysGone(w.db.credentials, w.garage)
            && Granted(w.db.receipts, w.db.issued, o, exec.cmd) && Informed(w.db, o, exec.cmd, exec.context)
            && (exec.pc.product.KeyReady? ==> Unrecorded(w.db.credentials, exec.pc.product.keyId))
  {
    var exec := w.execs[o];
    if exec.pc.product.KeyReady? {
      assert HoldsKey(w.execs, o, exec.pc.product.keyId);
    }
  }

  lemma CommitAnswersTruly(w: World, o: Uuid, requestId: string)
    requires WorldInv(w) && AtCompletion(w, o) && RequestIdOk(requestId)
    ensures Answerable(w, o, requestId) && AnswersTruly(w, o, requestId)
  {
    var exec := w.execs[o];
    AtCommit(w, o);
    if Holds(w, o) {
      CurrentCommit(w.db, w.garage, o, exec, exec.pc.product, requestId);
    } else {
      LateCommit(w.db, o, exec, exec.pc.product, requestId);
    }
  }

  /** In every run, whatever happened in between: the completing call of a current operation fails only for an id that
      Garage gave it, for a name that cannot be stored, or because a unique index refuses it. The call of one that ended or
      was taken over always fails: for a bad argument, which is looked at first, or else with the operation id that took
      over, or else as already complete. */
  lemma CommitsAnswerTruly(ws: seq<World>, es: seq<Event>, n: nat)
    requires WorldRun(ws, es) && n < |es| && es[n].Commit?
    ensures Answerable(ws[n], es[n].operationId, es[n].requestId)
    ensures AnswersTruly(ws[n], es[n].operationId, es[n].requestId)
  {
    WorldRunKeepsInv(ws, es, n);
    CommitAnswersTruly(ws[n], es[n].operationId, es[n].requestId);
  }
}
