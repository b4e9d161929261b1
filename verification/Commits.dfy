/** The completing transaction of a handler, seen from tables and Garage together. */
module Commits {
  import opened Types
  import opened StoreSpec
  import opened Completions
  import opened Transactions
  import opened GarageModel
  import opened Handlers
  import opened Executors
  import opened WorldInvariant
  import opened Remains

  /** What is recorded stays known and what is struck off is gone; at most one key was recorded. */
  ghost predicate Keeps(before: Db, after: Db, g: Garage, k: Option<string>) {
    && KeysGone(after.credentials, g)
    && BucketsGone(after.services, after.buckets, g)
    && RecordsOnly(before.credentials, after.credentials, k)
  }

  lemma CommitBucket(db: Db, g: Garage, o: Uuid, cmd: Command, b: string, response: StoredHttpResponse, audit: AuditEvent)
    requires KeysGone(db.credentials, g) && BucketsGone(db.services, db.buckets, g)
    requires cmd.payload.Reconcile? && b in g.buckets
    ensures Keeps(db, CompleteReconcileStep(db, cmd, o, b, response, audit).db, g, None)
  {
    ReconcileOutcome(db, cmd, o, b, response, audit);
    if ReconcileCommits(db, cmd, o, b, response, audit) {
      ReconcileRecordsKnownBucket(db, g, o, cmd, b, Finished(db.receipts, cmd.operation.key, response), audit);
    }
  }

  lemma CommitDeletion(db: Db, g: Garage, o: Uuid, cmd: Command, context: Context, response: StoredHttpResponse,
                       audit: AuditEvent)
    requires KeysGone(db.credentials, g) && BucketsGone(db.services, db.buckets, g)
    requires Granted(db.receipts, db.issued, o, cmd) && Informed(db, o, cmd, context)
    requires PcFits(cmd, context, Completing(ServiceGone)) && PcTrue(g, cmd, context, Completing(ServiceGone))
    ensures Keeps(db, CompleteDeleteStep(db, cmd, o, response, audit).db, g, None)
  {
    DeleteOutcome(db, cmd, o, response, audit);
    if DeleteCommits(db, cmd, o, response, audit) {
      CurrentReceipt(db.receipts, cmd.operation, o);
      var receipts := Finished(db.receipts, cmd.operation.key, response);
      DeletionLeavesNothing(db, g, o, cmd, context, receipts, audit);
      RevokeAllOnlyRevokes(db.credentials, cmd.ServiceId(), db.clock, cmd.operation.identity.principalId);
      forall c | c in Removed(db, cmd, o, receipts, audit).credentials
        ensures Removed(db, cmd, o, receipts, audit).credentials[c].garageKeyId == db.credentials[c].garageKeyId
      {
        assert OnlyRevoked(db.credentials[c], Removed(db, cmd, o, receipts, audit).credentials[c]);
      }
    }
  }

  lemma CommitKey(db: Db, g: Garage, o: Uuid, cmd: Command, credential: NewCredential, response: StoredHttpResponse,
                  audit: AuditEvent)
    requires KeysGone(db.credentials, g) && BucketsGone(db.services, db.buckets, g)
    requires cmd.payload.CreateCredential? && credential.garageKeyId in g.keys
    requires credential.accessKeyId == credential.garageKeyId
    ensures var step := CompleteCreateStep(db, cmd, o, credential, response, audit);
            Keeps(db, step.db, g, if step.reply.Ok? then Some(credential.garageKeyId) else None)
  {
    CreateOutcome(db, cmd, o, credential, response, audit);
    if CreateCommits(db, cmd, o, credential, response, audit) {
      IssuingRecordsKnownKey(db, g, o, cmd, credential, Finished(db.receipts, cmd.operation.key, response), audit);
    }
  }

  lemma CommitRevocation(db: Db, g: Garage, o: Uuid, cmd: Command, context: Context, response: StoredHttpResponse,
                         audit: AuditEvent)
    requires KeysGone(db.credentials, g) && BucketsGone(db.services, db.buckets, g)
    requires Granted(db.receipts, db.issued, o, cmd) && Informed(db, o, cmd, context)
    requires PcFits(cmd, context, Completing(KeyGone)) && PcTrue(g, cmd, context, Completing(KeyGone))
    ensures Keeps(db, CompleteRevokeStep(db, cmd, o, response, audit).db, g, None)
  {
    RevokeOutcome(db, cmd, o, response, audit);
    if RevokeCommits(db, cmd, o, response, audit) {
      CurrentReceipt(db.receipts, cmd.operation, o);
      RevocationLeavesNothing(db, g, cmd, context, db.receipts[cmd.operation.key],
                              Finished(db.receipts, cmd.operation.key, response), audit);
    }
  }

  /** The key a completion records: the one in hand, if the completion went through. */
  ghost function KeyRecorded(product: Product, error: Option<StoreError>): Option<string> {
    if product.KeyReady? && error.None? then Some(product.keyId) else None
  }

  lemma CommitKeeps(db: Db, g: Garage, o: Uuid, exec: Exec, requestId: string)
    requires KeysGone(db.credentials, g) && BucketsGone(db.services, db.buckets, g)
    requires Granted(db.receipts, db.issued, o, exec.cmd) && Informed(db, o, exec.cmd, exec.context)
    requires ProgramOk(g, exec) && exec.pc.Completing?
    ensures var tx := CompletionOf(o, exec.cmd, exec.context, exec.pc.product, requestId);
            && Admissible(db, tx)
            && Keeps(db, Apply(db, tx), g, KeyRecorded(exec.pc.product, CompletionError(db, tx)))
  {
    match CompletionOf(o, exec.cmd, exec.context, exec.pc.product, requestId) {
      case CompletingReconcile(cmd, _, b, response, audit) => CommitBucket(db, g, o, cmd, b, response, audit);
      case CompletingDelete(cmd, _, response, audit) => CommitDeletion(db, g, o, cmd, exec.context, response, audit);
      case CompletingCreate(cmd, _, credential, response, audit) => CommitKey(db, g, o, cmd, credential, response, audit);
      case CompletingRevoke(cmd, _, response, audit) => CommitRevocation(db, g, o, cmd, exec.context, response, audit);
    }
  }
}
