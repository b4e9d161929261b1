/** Runs: recorded buckets never change, and under the lease assumption Garage agrees with every commit. */
module LeaseRuns {
  import opened Types
  import opened StoreSpec
  import opened Invariant
  import opened Completions
  import opened Transactions
  import opened Evolution
  import opened GarageModel
  import opened Handlers
  import opened Executors
  import opened WorldInvariant
  import opened WorldSteps
  import opened WorldRuns
  import opened OnTrack
  import opened LeaseTheorem

  // ---------------------------------------------------------------- the bucket a reconcile records

  /** A reconcile that commits records the bucket that was recorded before, if any, under the name it was recorded by. */
  lemma ReconcileRecords(db: Db, g: Garage, o: Uuid, cmd: Command, context: Context, b: string,
                         response: StoredHttpResponse, audit: AuditEvent)
    requires Inv(db) && Granted(db.receipts, db.issued, o, cmd) && Informed(db, o, cmd, context)
    requires cmd.payload.Reconcile? && context.ReconcileContext? && OwnBucket(g, cmd, context, b)
    requires ReconcileCommits(db, cmd, o, b, response, audit)
    ensures cmd.ServiceId() in db.buckets ==>
              && db.buckets[cmd.ServiceId()].physicalBucketId == Some(b)
              && db.buckets[cmd.ServiceId()].bucketName == cmd.payload.spec.bucketName
    ensures cmd.ServiceId() !in db.buckets ==> !context.previouslyApplied
  {
    CurrentReceipt(db.receipts, cmd.operation, o);
    CurrentGrant(db, cmd.operation, o);
  }

  ghost predicate PhysicalIdsStay(before: Buckets, after: Buckets) {
    forall s | s in before :: s in after && after[s].physicalBucketId == before[s].physicalBucketId
  }

  lemma ReconciledAliases(db: Db, g: Garage, o: Uuid, cmd: Command, b: string, receipts: Receipts, audit: AuditEvent)
    requires AliasesRecorded(db.buckets, g) && cmd.payload.Reconcile?
    requires cmd.payload.spec.quotaBytes <= I64_MAX && cmd.payload.spec.quotaObjects <= I64_MAX
    requires Goes(g, b, cmd.payload.spec.bucketName)
    ensures AliasesRecorded(Reconciled(db, cmd, o, b, receipts, audit).buckets, g)
  {
  }

  lemma ReconciledPhysicals(db: Db, o: Uuid, cmd: Command, b: string, receipts: Receipts, audit: AuditEvent)
    requires cmd.payload.Reconcile?
    requires cmd.payload.spec.quotaBytes <= I64_MAX && cmd.payload.spec.quotaObjects <= I64_MAX
    requires cmd.ServiceId() in db.buckets ==> db.buckets[cmd.ServiceId()].physicalBucketId == Some(b)
    ensures PhysicalIdsStay(db.buckets, Reconciled(db, cmd, o, b, receipts, audit).buckets)
  {
  }

  lemma RecordedAlias(buckets: Buckets, g: Garage, cmd: Command, context: Context, b: string)
    requires AliasesRecorded(buckets, g) && cmd.payload.Reconcile? && context.ReconcileContext?
    requires OwnBucket(g, cmd, context, b)
    requires context.previouslyApplied ==>
               && cmd.ServiceId() in buckets && buckets[cmd.ServiceId()].physicalBucketId == Some(b)
               && buckets[cmd.ServiceId()].bucketName == cmd.payload.spec.bucketName
    ensures cmd.payload.spec.bucketName in g.buckets[b].aliases
  {
  }

  lemma CommittedBucket(db: Db, g: Garage, o: Uuid, exec: Exec, b: string, response: StoredHttpResponse,
                        audit: AuditEvent)
    requires Inv(db) && Granted(db.receipts, db.issued, o, exec.cmd) && Informed(db, o, exec.cmd, exec.context)
    requires exec.cmd.payload.Reconcile? && exec.context.ReconcileContext?
    requires OwnBucket(g, exec.cmd, exec.context, b) && ReconcileCommits(db, exec.cmd, o, b, response, audit)
    ensures var after := Reconciled(db, exec.cmd, o, b, Finished(db.receipts, exec.cmd.operation.key, response), audit);
            && PhysicalIdsStay(db.buckets, after.buckets)
            && (AliasesRecorded(db.buckets, g) ==> AliasesRecorded(after.buckets, g))
  {
    var cmd, receipts := exec.cmd, Finished(db.receipts, exec.cmd.operation.key, response);
    ReconcileRecords(db, g, o, cmd, exec.context, b, response, audit);
    ReconciledPhysicals(db, o, cmd, b, receipts, audit);
    if AliasesRecorded(db.buckets, g) {
      RecordedAlias(db.buckets, g, cmd, exec.context, b);
      GrantedNameIsUsable(db, cmd, o);
      ReconciledAliases(db, g, o, cmd, b, receipts, audit);
    }
  }

  lemma ReconcileKeepsBuckets(db: Db, g: Garage, o: Uuid, exec: Exec, b: string, response: StoredHttpResponse,
                              audit: AuditEvent)
    requires Inv(db) && Granted(db.receipts, db.issued, o, exec.cmd) && Informed(db, o, exec.cmd, exec.context)
    requires ProgramOk(g, exec) && exec.pc == Completing(BucketReady(b))
    ensures var after := CompleteReconcileStep(db, exec.cmd, o, b, response, audit).db.buckets;
            && PhysicalIdsStay(db.buckets, after)
            && (AliasesRecorded(db.buckets, g) ==> AliasesRecorded(after, g))
  {
    ReconcileOutcome(db, exec.cmd, o, b, response, audit);
    if ReconcileCommits(db, exec.cmd, o, b, response, audit) {
      CommittedBucket(db, g, o, exec, b, response, audit);
    }
  }

  lemma OtherCompletionsLeaveBuckets(db: Db, o: Uuid, exec: Exec, requestId: string)
    requires exec.pc.Completing? && PcFits(exec.cmd, exec.context, exec.pc) && !exec.pc.product.BucketReady?
    requires WellFormed(exec.cmd)
    ensures var tx := CompletionOf(o, exec.cmd, exec.context, exec.pc.product, requestId);
            Admissible(db, tx) && Apply(db, tx).buckets == db.buckets
  {
    match CompletionOf(o, exec.cmd, exec.context, exec.pc.product, requestId) {
      case CompletingDelete(cmd, _, response, audit) => DeleteOutcome(db, cmd, o, response, audit);
      case CompletingCreate(cmd, _, credential, response, audit) => CreateOutcome(db, cmd, o, credential, response, audit);
      case CompletingRevoke(cmd, _, response, audit) => RevokeOutcome(db, cmd, o, response, audit);
    }
  }

  lemma CommitKeepsBuckets(w: World, e: Event)
    requires WorldInv(w) && Possible(w, e) && e.Commit?
    ensures Admissible(w.db, TxOf(w, e))
    ensures var after := Apply(w.db, TxOf(w, e)).buckets;
            && PhysicalIdsStay(w.db.buckets, after)
            && (AliasesRecorded(w.db.buckets, w.garage) ==> AliasesRecorded(after, w.garage))
  {
    var exec := w.execs[e.operationId];
    assert ProgramOk(w.garage, exec) && Granted(w.db.receipts, w.db.issued, e.operationId, exec.cmd);
    EventsAreTransactions(w, e);
    if exec.pc.product.BucketReady? {
      ReconcileKeepsBuckets(w.db, w.garage, e.operationId, exec, exec.pc.product.bucketId, TxOf(w, e).response,
                            TxOf(w, e).audit);
    } else {
      OtherCompletionsLeaveBuckets(w.db, e.operationId, exec, e.requestId);
    }
  }

  lemma QuietAliases(before: Db, after: Db, g: Garage, h: Garage)
    requires AliasesRecorded(before.buckets, g) && Quiet(before, after) && Evolves(before, after) && Ages(g, h)
    ensures AliasesRecorded(after.buckets, h)
  {
    forall s | s in after.buckets ensures s in before.buckets && after.buckets[s].bucketName == before.buckets[s].bucketName {
    }
  }

  /** No event changes the bucket recorded for a service. */
  lemma PhysicalIdsKept(w: World, e: Event)
    requires WorldInv(w) && Possible(w, e)
    ensures Admissible(w.db, TxOf(w, e)) && PhysicalIdsStay(w.db.buckets, Apply(w.db, TxOf(w, e)).buckets)
  {
    if e.Commit? {
      CommitKeepsBuckets(w, e);
    } else {
      QuietEvent(w, e);
    }
  }

  lemma AliasesKept(w: World, e: Event)
    requires WorldInv(w) && Possible(w, e) && AliasesRecorded(w.db.buckets, w.garage)
    ensures Admissible(w.db, TxOf(w, e)) && AliasesRecorded(Apply(w.db, TxOf(w, e)).buckets, GarageAfter(w, e))
  {
    if e.Commit? {
      CommitKeepsBuckets(w, e);
    } else {
      QuietEvent(w, e);
      GarageAges(w, e);
      ApplyEvolves(w.db, TxOf(w, e));
      QuietAliases(w.db, Apply(w.db, TxOf(w, e)), w.garage, GarageAfter(w, e));
    }
  }

  /** The bucket of a service, once recorded, is the same in every later state. */
  lemma {:induction false} PhysicalIdsAreForGood(ws: seq<World>, es: seq<Event>, i: nat, j: nat)
    requires WorldRun(ws, es) && i <= j <= |es|
    ensures PhysicalIdsStay(ws[i].db.buckets, ws[j].db.buckets)
  {
    if i < j {
      PhysicalIdsAreForGood(ws, es, i, j - 1);
      RunPhysicalStep(ws, es, j - 1);
    }
  }

  lemma RunPhysicalStep(ws: seq<World>, es: seq<Event>, n: nat)
    requires WorldRun(ws, es) && n < |es|
    ensures PhysicalIdsStay(ws[n].db.buckets, ws[n + 1].db.buckets)
  {
    WorldRunKeepsInv(ws, es, n);
    PhysicalIdsKept(ws[n], es[n]);
    StoreStep(ws, es, n);
  }

  // ---------------------------------------------------------------- the lease assumption over runs

  ghost predicate TimelyRun(ws: seq<World>, es: seq<Event>) {
    WorldRun(ws, es) && forall i {:trigger es[i]} | 0 <= i < |es| :: Timely(ws[i], es[i])
  }

  lemma MoveKeepsLeaseInv(w: World, e: Event)
    requires WorldInv(w) && LeaseInv(w) && Possible(w, e) && Timely(w, e)
    ensures LeaseInv(Move(w, e))
  {
    EventsAreTransactions(w, e);
    ApplyEvolves(w.db, TxOf(w, e));
    TrackKept(w, e, Apply(w.db, TxOf(w, e)));
    AliasesKept(w, e);
  }

  lemma TimelyStep(ws: seq<World>, es: seq<Event>, n: nat)
    requires TimelyRun(ws, es) && n < |es| && LeaseInv(ws[n])
    ensures LeaseInv(ws[n + 1])
  {
    WorldRunKeepsInv(ws, es, n);
    MoveKeepsLeaseInv(ws[n], es[n]);
  }

  lemma {:induction false} TimelyRunKeepsLeaseInv(ws: seq<World>, es: seq<Event>, n: nat)
    requires TimelyRun(ws, es) && n <= |es|
    ensures LeaseInv(ws[n])
  {
    if n > 0 {
      TimelyRunKeepsLeaseInv(ws, es, n - 1);
      TimelyStep(ws, es, n - 1);
    }
  }

  // ---------------------------------------------------------------- what a commit finds in Garage

  ghost predicate CommitsAt(w: World, e: Event) {
    && e.Commit? && Possible(w, e)
    && (EventsAreTransactions(w, e); CompletionError(w.db, TxOf(w, e)).None?)
  }

  lemma CommitHolds(w: World, e: Event)
    requires Possible(w, e) && CommitsAt(w, e) && RequestsOk(w.db, w.execs)
    ensures Holds(w, e.operationId)
  {
    var exec := w.execs[e.operationId];
    assert Granted(w.db.receipts, w.db.issued, e.operationId, exec.cmd);
    match CompletionOf(e.operationId, exec.cmd, exec.context, exec.pc.product, e.requestId) {
      case CompletingReconcile(cmd, o, b, response, audit) => ReconcileOutcome(w.db, cmd, o, b, response, audit);
      case CompletingDelete(cmd, o, response, audit) => DeleteOutcome(w.db, cmd, o, response, audit);
      case CompletingCreate(cmd, o, credential, response, audit) =>
        CreateOutcome(w.db, cmd, o, credential, response, audit);
      case CompletingRevoke(cmd, o, response, audit) => RevokeOutcome(w.db, cmd, o, response, audit);
    }
  }

  lemma IssuedRow(db: Db, o: Uuid, cmd: Command, credential: NewCredential, response: StoredHttpResponse,
                  audit: AuditEvent)
    requires cmd.payload.CreateCredential? && CompleteCreateStep(db, cmd, o, credential, response, audit).reply.Ok?
    ensures var after := CompleteCreateStep(db, cmd, o, credential, response, audit).db;
            && credential.id in after.credentials
            && after.credentials[credential.id] == NewCredentialRow(db, cmd, credential)
            && after.buckets == db.buckets
  {
    CreateOutcome(db, cmd, o, credential, response, audit);
  }

  /** The credential row agrees with Garage: its key is the only live one of its name, with exactly its permissions. */
  ghost predicate KeyAgrees(db: Db, g: Garage, c: Uuid) {
    && c in db.credentials
    && var row := db.credentials[c];
    && row.serviceId in db.buckets && db.buckets[row.serviceId].physicalBucketId.Some?
    && OnlyKeyWith(g, Deterministic(row.serviceId, c), row.garageKeyId, db.buckets[row.serviceId].physicalBucketId.value,
                   RightsFor(row.permissions))
  }

  lemma IssuedKeyAgrees(db: Db, g: Garage, o: Uuid, exec: Exec, requestId: string)
    requires Granted(db.receipts, db.issued, o, exec.cmd) && Informed(db, o, exec.cmd, exec.context)
    requires Current(db.receipts, exec.cmd.operation.key, o) && ProgramOk(g, exec)
    requires exec.pc.Completing? && exec.pc.product.KeyReady? && Track(g, exec.cmd, exec.context, exec.pc)
    requires var tx := CompletionOf(o, exec.cmd, exec.context, exec.pc.product, requestId);
             Admissible(db, tx) && CompletionError(db, tx).None?
    ensures KeyAgrees(Apply(db, CompletionOf(o, exec.cmd, exec.context, exec.pc.product, requestId)), g,
                      exec.context.credentialId)
  {
    var tx := CompletionOf(o, exec.cmd, exec.context, exec.pc.product, requestId);
    IssuedRow(db, o, exec.cmd, tx.credential, tx.response, tx.audit);
  }

  ghost predicate BucketAgrees(db: Db, g: Garage, s: Uuid, b: string) {
    && s in db.services && s in db.buckets && db.buckets[s].physicalBucketId == Some(b)
    && BucketLive(g, b)
    && db.services[s].desiredSpec.bucketName in g.buckets[b].aliases
    && g.buckets[b].quotas == Some(Quotas(db.services[s].desiredSpec.quotaBytes, db.services[s].desiredSpec.quotaObjects))
  }

  lemma ReconciledRow(db: Db, o: Uuid, cmd: Command, b: string, response: StoredHttpResponse, audit: AuditEvent)
    requires cmd.payload.Reconcile? && CompleteReconcileStep(db, cmd, o, b, response, audit).reply.Ok?
    ensures var after := CompleteReconcileStep(db, cmd, o, b, response, audit).db;
            && cmd.ServiceId() in after.services && cmd.ServiceId() in after.buckets
            && after.services[cmd.ServiceId()].desiredSpec == cmd.payload.spec
            && after.buckets[cmd.ServiceId()].physicalBucketId == Some(b)
  {
    ReconcileOutcome(db, cmd, o, b, response, audit);
  }

  lemma ReconciledBucketAgrees(db: Db, g: Garage, o: Uuid, exec: Exec, requestId: string)
    requires Granted(db.receipts, db.issued, o, exec.cmd) && ProgramOk(g, exec)
    requires exec.pc.Completing? && exec.pc.product.BucketReady? && !exec.context.previouslyApplied
    requires SoleAlias(g, exec.pc.product.bucketId)
    requires Track(g, exec.cmd, exec.context, exec.pc)
    requires var tx := CompletionOf(o, exec.cmd, exec.context, exec.pc.product, requestId);
             Admissible(db, tx) && CompletionError(db, tx).None?
    ensures BucketAgrees(Apply(db, CompletionOf(o, exec.cmd, exec.context, exec.pc.product, requestId)), g,
                         exec.cmd.ServiceId(), exec.pc.product.bucketId)
  {
    var tx := CompletionOf(o, exec.cmd, exec.context, exec.pc.product, requestId);
    ReconciledRow(db, o, exec.cmd, exec.pc.product.bucketId, tx.response, tx.audit);
  }

  lemma CommitFindsTrack(ws: seq<World>, es: seq<Event>, n: nat)
    requires TimelyRun(ws, es) && n < |es| && CommitsAt(ws[n], es[n])
    ensures var w, o := ws[n], es[n].operationId;
            && Granted(w.db.receipts, w.db.issued, o, w.execs[o].cmd)
            && Informed(w.db, o, w.execs[o].cmd, w.execs[o].context)
            && Current(w.db.receipts, w.execs[o].cmd.operation.key, o)
            && ProgramOk(w.garage, w.execs[o])
            && Track(w.garage, w.execs[o].cmd, w.execs[o].context, w.execs[o].pc)
  {
    WorldRunKeepsInv(ws, es, n);
    TimelyRunKeepsLeaseInv(ws, es, n);
    TrackAtCommit(ws[n], es[n]);
  }

  lemma TrackAtCommit(w: World, e: Event)
    requires WorldInv(w) && LeaseInv(w) && CommitsAt(w, e)
    ensures var o := e.operationId;
            && Granted(w.db.receipts, w.db.issued, o, w.execs[o].cmd)
            && Informed(w.db, o, w.execs[o].cmd, w.execs[o].context)
            && Current(w.db.receipts, w.execs[o].cmd.operation.key, o)
            && ProgramOk(w.garage, w.execs[o])
            && Track(w.garage, w.execs[o].cmd, w.execs[o].context, w.execs[o].pc)
  {
    CommitHolds(w, e);
  }

  /** Under the lease assumption, over all interleavings, crashes and takeovers: when a credential is issued, Garage holds
      exactly one live key of its name, it is the recorded one, and it has exactly the recorded permissions. */
  lemma IssuedKeyIsTheOnlyOne(ws: seq<World>, es: seq<Event>, n: nat)
    requires TimelyRun(ws, es) && n < |es| && CommitsAt(ws[n], es[n])
    requires ws[n].execs[es[n].operationId].pc.product.KeyReady?
    ensures ws[n].execs[es[n].operationId].context.CreateCredentialContext?
    ensures KeyAgrees(ws[n + 1].db, ws[n + 1].garage, ws[n].execs[es[n].operationId].context.credentialId)
  {
    CommitFindsTrack(ws, es, n);
    StoreStep(ws, es, n);
    IssuedKeyAgrees(ws[n].db, ws[n].garage, es[n].operationId, ws[n].execs[es[n].operationId], es[n].requestId);
  }

  /** Likewise, when a reconcile commits that was not applied before, the recorded bucket is live, carries the alias of
      the spec and has exactly its quotas, provided that bucket goes by one alias that a reconcile can ask for. */
  lemma ReconciledBucketMatchesSpec(ws: seq<World>, es: seq<Event>, n: nat)
    requires TimelyRun(ws, es) && n < |es| && CommitsAt(ws[n], es[n])
    requires ws[n].execs[es[n].operationId].pc.product.BucketReady?
    requires ws[n].execs[es[n].operationId].context.ReconcileContext?
    requires !ws[n].execs[es[n].operationId].context.previouslyApplied
    requires SoleAlias(ws[n].garage, ws[n].execs[es[n].operationId].pc.product.bucketId)
    ensures BucketAgrees(ws[n + 1].db, ws[n + 1].garage, ws[n].execs[es[n].operationId].cmd.ServiceId(),
                         ws[n].execs[es[n].operationId].pc.product.bucketId)
  {
    CommitFindsTrack(ws, es, n);
    StoreStep(ws, es, n);
    ReconciledBucketAgrees(ws[n].db, ws[n].garage, es[n].operationId, ws[n].execs[es[n].operationId], es[n].requestId);
  }

  lemma AliasStep(w: World, e: Event, b: string)
    requires Possible(w, e) && SoleAlias(w.garage, b)
    ensures SoleAlias(GarageAfter(w, e), b)
  {
    GarageAges(w, e);
    forall x | Goes(GarageAfter(w, e), b, x) && b in w.garage.buckets ensures Goes(w.garage, b, x) {
    }
  }

  lemma {:induction false} OneAliasStays(ws: seq<World>, es: seq<Event>, n: nat, b: string)
    requires WorldRun(ws, es) && n <= |es| && SoleAlias(ws[0].garage, b)
    ensures SoleAlias(ws[n].garage, b)
  {
    if n > 0 {
      OneAliasStays(ws, es, n - 1, b);
      AliasStep(ws[n - 1], es[n - 1], b);
    }
  }

  /** A bucket that Garage did not know at the start of the run goes by one alias for good. */
  lemma MadeBucketsHaveOneAlias(ws: seq<World>, es: seq<Event>, n: nat, b: string)
    requires WorldRun(ws, es) && n <= |es| && b !in ws[0].garage.buckets
    ensures SoleAlias(ws[n].garage, b)
  {
    OneAliasStays(ws, es, n, b);
  }

  // ---------------------------------------------------------------- why the assumption is needed

  /** A current creation works under a credential id that no row records yet. */
  lemma CurrentIdIsUnused(w: World, p: Uuid)
    requires WorldInv(w) && Holds(w, p) && w.execs[p].cmd.payload.CreateCredential?
    ensures w.execs[p].context.CreateCredentialContext? && w.execs[p].context.credentialId !in w.db.credentials
  {
    assert Granted(w.db.receipts, w.db.issued, p, w.execs[p].cmd);
    assert Informed(w.db, p, w.execs[p].cmd, w.execs[p].context);
    assert ReservationUnused(w.db.credentials, w.db.reservations[p]);
  }

  /** An execution is about to delete, as one of its own name's keys, the key that a credential row records. */
  ghost predicate AboutToSweep(w: World, p: Uuid, c: Uuid) {
    && AtCall(w, p) && w.execs[p].pc.stage.Sweeping?
    && c in w.db.credentials && w.execs[p].pc.stage.keyIds[0] == w.db.credentials[c].garageKeyId
  }

  lemma SweepDeletes(w: World, p: Uuid, c: Uuid)
    requires AboutToSweep(w, p, c) && KeyAgrees(w.db, w.garage, c)
    ensures Possible(w, Reply(p, Done)) && TxOf(w, Reply(p, Done)) == Tick(0)
    ensures !KeyAgrees(w.db, GarageAfter(w, Reply(p, Done)), c)
  {
  }

  lemma SweptIdIsRecorded(w: World, p: Uuid, c: Uuid)
    requires AboutToSweep(w, p, c) && ProgramOk(w.garage, w.execs[p]) && KeyAgrees(w.db, w.garage, c)
    ensures w.execs[p].cmd.payload.CreateCredential? && w.execs[p].context.CreateCredentialContext?
    ensures w.execs[p].context.credentialId == c
  {
    assert OwnKey(w.garage, w.execs[p].cmd, w.execs[p].context, w.execs[p].pc.stage.keyIds[0]);
  }

  lemma RecordedIdIsLate(w: World, p: Uuid, c: Uuid)
    requires WorldInv(w) && p in w.execs && w.execs[p].cmd.payload.CreateCredential?
    requires w.execs[p].context.CreateCredentialContext? && w.execs[p].context.credentialId in w.db.credentials
    ensures !Holds(w, p)
  {
    if Holds(w, p) {
      CurrentIdIsUnused(w, p);
    }
  }

  /** Without the assumption the agreement fails: an executor that stopped between renewing its lease and listing keys,
      and lists only after its successor made a key, is about to sweep the key its successor recorded. It can still do so,
      with the tables unchanged, and the call is never timely. */
  lemma PausedSweepBreaksAgreement(w: World, p: Uuid, c: Uuid)
    requires WorldInv(w) && AboutToSweep(w, p, c) && KeyAgrees(w.db, w.garage, c)
    ensures Possible(w, Reply(p, Done)) && TxOf(w, Reply(p, Done)) == Tick(0)
    ensures !KeyAgrees(w.db, GarageAfter(w, Reply(p, Done)), c) && !Timely(w, Reply(p, Done))
  {
    SweepDeletes(w, p, c);
    assert ProgramOk(w.garage, w.execs[p]);
    SweptIdIsRecorded(w, p, c);
    RecordedIdIsLate(w, p, c);
  }
}
