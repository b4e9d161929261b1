/** Under the lease assumption, a committed bucket goes on agreeing with the spec until the next change is under way. */
module BucketAgreement {
  import opened Types
  import opened StoreSpec
  import opened Invariant
  import opened Completions
  import opened Transactions
  import opened Contexts
  import opened GarageModel
  import opened Handlers
  import opened Executors
  import opened WorldInvariant
  import opened WorldSteps
  import opened WorldRuns
  import opened OnTrack
  import opened LeaseTheorem
  import opened LeaseRuns

  // ---------------------------------------------------------------- the condition, read from the tables

  /** The request is for a generation the service has not reached: a new spec, or its deletion. */
  ghost predicate AsksToChange(identity: Identity, service: ServiceRow) {
    || identity.requestHash.body.Delete?
    || (identity.requestHash.body.Reconcile? && identity.requestHash.body.generation > service.desiredGeneration)
  }

  /** The service is live and no unfinished operation is to change it. */
  ghost predicate Settled(db: Db, s: Uuid) {
    && Live(db.services, s)
    && (forall k | InFlight(db.receipts, k) && db.receipts[k].identity.serviceId == s ::
          !AsksToChange(db.receipts[k].identity, db.services[s]))
  }

  // ---------------------------------------------------------------- the tables

  /** A current request on a settled service is one to repeat what was applied, or to work on credentials. */
  lemma SettledRequest(db: Db, cmd: Command)
    requires Inv(db) && Settled(db, cmd.ServiceId()) && WellFormed(cmd) && InFlight(db.receipts, cmd.operation.key)
    requires db.receipts[cmd.operation.key].identity == cmd.operation.identity
    ensures !cmd.payload.Delete?
    ensures cmd.payload.Reconcile? ==>
              && cmd.payload.generation == db.services[cmd.ServiceId()].desiredGeneration
              && cmd.payload.spec == db.services[cmd.ServiceId()].desiredSpec
  {
    assert !AsksToChange(db.receipts[cmd.operation.key].identity, db.services[cmd.ServiceId()]);
    assert Stands(db.services, db.buckets, db.names, db.credentials, cmd.operation.identity);
  }

  ghost predicate SameSpec(before: Services, after: Services, s: Uuid) {
    s in before && s in after && after[s].desiredSpec == before[s].desiredSpec
  }

  lemma CurrentOnSettled(db: Db, cmd: Command, o: Uuid)
    requires Inv(db) && Settled(db, cmd.ServiceId()) && WellFormed(cmd)
    requires RequireInProgress(db.receipts, cmd.operation, o).Pass?
    ensures !cmd.payload.Delete?
    ensures cmd.payload.Reconcile? ==> cmd.payload.spec == db.services[cmd.ServiceId()].desiredSpec
  {
    CurrentReceipt(db.receipts, cmd.operation, o);
    SettledRequest(db, cmd);
  }

  lemma ReconcileWritesSpec(db: Db, cmd: Command, o: Uuid, b: string, response: StoredHttpResponse, audit: AuditEvent,
                            s: Uuid)
    requires cmd.payload.Reconcile? && s in db.services
    requires (&& RequireInProgress(db.receipts, cmd.operation, o).Pass? && cmd.ServiceId() == s) ==>
               cmd.payload.spec == db.services[s].desiredSpec
    ensures SameSpec(db.services, CompleteReconcileStep(db, cmd, o, b, response, audit).db.services, s)
  {
    ReconcileOutcome(db, cmd, o, b, response, audit);
  }

  lemma ReconcileKeepsSpec(db: Db, cmd: Command, o: Uuid, b: string, response: StoredHttpResponse, audit: AuditEvent,
                           s: Uuid)
    requires Inv(db) && WellFormed(cmd) && cmd.payload.Reconcile? && Settled(db, s)
    ensures SameSpec(db.services, CompleteReconcileStep(db, cmd, o, b, response, audit).db.services, s)
  {
    if RequireInProgress(db.receipts, cmd.operation, o).Pass? && cmd.ServiceId() == s {
      CurrentOnSettled(db, cmd, o);
    }
    ReconcileWritesSpec(db, cmd, o, b, response, audit, s);
  }

  lemma DeleteElsewhere(db: Db, cmd: Command, o: Uuid, response: StoredHttpResponse, audit: AuditEvent, s: Uuid)
    requires cmd.payload.Delete? && s in db.services
    requires cmd.ServiceId() != s || !RequireInProgress(db.receipts, cmd.operation, o).Pass?
    ensures SameSpec(db.services, CompleteDeleteStep(db, cmd, o, response, audit).db.services, s)
  {
    DeleteOutcome(db, cmd, o, response, audit);
  }

  lemma DeleteKeepsSpec(db: Db, cmd: Command, o: Uuid, response: StoredHttpResponse, audit: AuditEvent, s: Uuid)
    requires Inv(db) && WellFormed(cmd) && cmd.payload.Delete? && Settled(db, s)
    ensures SameSpec(db.services, CompleteDeleteStep(db, cmd, o, response, audit).db.services, s)
  {
    if RequireInProgress(db.receipts, cmd.operation, o).Pass? && cmd.ServiceId() == s {
      CurrentOnSettled(db, cmd, o);
    }
    DeleteElsewhere(db, cmd, o, response, audit, s);
  }

  lemma CredentialWorkKeepsSpec(db: Db, tx: Tx, s: Uuid)
    requires Admissible(db, tx) && (tx.CompletingCreate? || tx.CompletingRevoke?) && s in db.services
    ensures SameSpec(db.services, Apply(db, tx).services, s)
  {
    if tx.CompletingCreate? {
      CreateOutcome(db, tx.cmd, tx.operationId, tx.credential, tx.response, tx.audit);
    } else {
      RevokeOutcome(db, tx.cmd, tx.operationId, tx.response, tx.audit);
    }
  }

  lemma CompletionKeepsSpec(db: Db, o: Uuid, exec: Exec, requestId: string, s: Uuid)
    requires Inv(db) && Settled(db, s) && WellFormed(exec.cmd)
    requires exec.pc.Completing? && PcFits(exec.cmd, exec.context, exec.pc)
    ensures var tx := CompletionOf(o, exec.cmd, exec.context, exec.pc.product, requestId);
            Admissible(db, tx) && SameSpec(db.services, Apply(db, tx).services, s)
  {
    var tx := CompletionOf(o, exec.cmd, exec.context, exec.pc.product, requestId);
    if tx.CompletingReconcile? {
      ReconcileKeepsSpec(db, tx.cmd, o, tx.physicalBucketId, tx.response, tx.audit, s);
    } else if tx.CompletingDelete? {
      DeleteKeepsSpec(db, tx.cmd, o, tx.response, tx.audit, s);
    } else {
      CredentialWorkKeepsSpec(db, tx, s);
    }
  }

  lemma SpecKept(w: World, e: Event, s: Uuid)
    requires Inv(w.db) && Settled(w.db, s) && Possible(w, e)
    ensures Admissible(w.db, TxOf(w, e)) && SameSpec(w.db.services, Apply(w.db, TxOf(w, e)).services, s)
  {
    if e.Commit? {
      CompletionKeepsSpec(w.db, e.operationId, w.execs[e.operationId], e.requestId, s);
    } else {
      QuietEvent(w, e);
    }
  }

  // ---------------------------------------------------------------- Garage

  lemma RepeatingCallSpares(exec: Exec, stage: Stage)
    requires StageFits(exec.cmd, exec.context, stage) && !exec.cmd.payload.Delete?
    requires exec.cmd.payload.Reconcile? ==> exec.context.ReconcileContext? && exec.context.previouslyApplied
    ensures BucketTarget(CallOf(exec.cmd, exec.context, stage)).None?
  {
  }

  /** A call of the settled service's own operation goes to no bucket. */
  lemma OwnCallSpares(db: Db, o: Uuid, exec: Exec, stage: Stage)
    requires Inv(db) && Settled(db, exec.cmd.ServiceId()) && Granted(db.receipts, db.issued, o, exec.cmd)
    requires Describes(db, db.receipts[exec.cmd.operation.key], exec.context)
    requires Current(db.receipts, exec.cmd.operation.key, o) && StageFits(exec.cmd, exec.context, stage)
    ensures BucketTarget(CallOf(exec.cmd, exec.context, stage)).None?
  {
    SettledRequest(db, exec.cmd);
    RepeatingCallSpares(exec, stage);
  }

  /** A call at home in another service does not go to this service's bucket. */
  lemma OtherCallSpares(names: Names, g: Garage, s: Uuid, p: Uuid, call: Call, b: string, n: string)
    requires BucketAtHome(names, g, p, call) && p != s && SoleAlias(g, b) && Goes(g, b, n) && HoldsName(names, n, s)
    ensures BucketTarget(call) != Some(b)
  {
  }

  lemma OwnAlias(w: World, s: Uuid, b: string)
    requires Inv(w.db) && AliasesRecorded(w.db.buckets, w.garage) && Live(w.db.services, s)
    requires BucketAgrees(w.db, w.garage, s, b)
    ensures Goes(w.garage, b, w.db.buckets[s].bucketName) && HoldsName(w.db.names, w.db.buckets[s].bucketName, s)
  {
  }

  /** The bucket of a settled service agrees, and goes by one alias that a reconcile can ask for. */
  ghost predicate Sound(w: World, s: Uuid, b: string) {
    Settled(w.db, s) && SoleAlias(w.garage, b) && BucketAgrees(w.db, w.garage, s, b)
  }

  lemma OwnServiceSpares(w: World, p: Uuid, stage: Stage, b: string)
    requires WorldInv(w) && Holds(w, p) && Settled(w.db, w.execs[p].cmd.ServiceId())
    requires StageFits(w.execs[p].cmd, w.execs[p].context, stage)
    ensures BucketTarget(CallOf(w.execs[p].cmd, w.execs[p].context, stage)) != Some(b)
  {
    var exec := w.execs[p];
    assert Granted(w.db.receipts, w.db.issued, p, exec.cmd) && Informed(w.db, p, exec.cmd, exec.context);
    OwnCallSpares(w.db, p, exec, stage);
  }

  lemma OtherServiceSpares(w: World, p: Uuid, stage: Stage, s: Uuid, b: string)
    requires WorldInv(w) && LeaseInv(w) && Holds(w, p) && Sound(w, s, b) && w.execs[p].cmd.ServiceId() != s
    requires StageFits(w.execs[p].cmd, w.execs[p].context, stage)
    requires StageTrue(w.garage, w.execs[p].cmd, w.execs[p].context, stage)
    ensures BucketTarget(CallOf(w.execs[p].cmd, w.execs[p].context, stage)) != Some(b)
  {
    var exec := w.execs[p];
    OwnAlias(w, s, b);
    CallAtHome(w, p, stage);
    OtherCallSpares(w.db.names, w.garage, s, exec.cmd.ServiceId(), CallOf(exec.cmd, exec.context, stage), b,
                    w.db.buckets[s].bucketName);
  }

  lemma CleaningSpares(cmd: Command, context: Context, stage: Stage)
    requires StageFits(cmd, context, stage) && stage.Cleaning?
    ensures BucketTarget(CallOf(cmd, context, stage)).None?
  {
  }

  /** Clean-up goes to no bucket, and the calls of current operations not to this one. */
  lemma CallSparesBucket(w: World, p: Uuid, stage: Stage, s: Uuid, b: string)
    requires WorldInv(w) && LeaseInv(w) && Sound(w, s, b) && p in w.execs && (!stage.Cleaning? ==> Holds(w, p))
    requires StageFits(w.execs[p].cmd, w.execs[p].context, stage)
    requires StageTrue(w.garage, w.execs[p].cmd, w.execs[p].context, stage)
    ensures BucketTarget(CallOf(w.execs[p].cmd, w.execs[p].context, stage)) != Some(b)
  {
    if stage.Cleaning? {
      CleaningSpares(w.execs[p].cmd, w.execs[p].context, stage);
    } else if w.execs[p].cmd.ServiceId() == s {
      OwnServiceSpares(w, p, stage, b);
    } else {
      OtherServiceSpares(w, p, stage, s, b);
    }
  }

  lemma SparedBucketStays(db: Db, g: Garage, call: Call, answer: Answer, s: Uuid, b: string)
    requires BucketAgrees(db, g, s, b) && Answers(g, call, answer) && BucketTarget(call) != Some(b)
    ensures BucketAgrees(db, After(g, call, answer), s, b)
  {
  }

  lemma ReplySparesBucket(w: World, o: Uuid, s: Uuid, b: string)
    requires WorldInv(w) && LeaseInv(w) && Sound(w, s, b)
    requires AtCall(w, o) && (!w.execs[o].pc.stage.Cleaning? ==> Holds(w, o))
    ensures BucketTarget(CallAt(w, o)) != Some(b)
  {
    assert ProgramOk(w.garage, w.execs[o]);
    CallSparesBucket(w, o, w.execs[o].pc.stage, s, b);
  }

  lemma LateSparesBucket(w: World, call: Loose, s: Uuid, b: string)
    requires WorldInv(w) && LeaseInv(w) && Sound(w, s, b)
    requires LooseFits(w, call) && (!call.stage.Cleaning? ==> Holds(w, call.operationId))
    ensures BucketTarget(LooseCall(w, call)) != Some(b)
  {
    LooseUnclaiming(w.garage, w.garage, w.execs, w.loose, call);
    CallSparesBucket(w, call.operationId, call.stage, s, b);
  }

  lemma GarageSparesBucket(w: World, e: Event, s: Uuid, b: string)
    requires WorldInv(w) && LeaseInv(w) && Possible(w, e) && Timely(w, e) && Sound(w, s, b)
    ensures BucketAgrees(w.db, GarageAfter(w, e), s, b)
  {
    if e.Reply? {
      ReplySparesBucket(w, e.operationId, s, b);
      SparedBucketStays(w.db, w.garage, CallAt(w, e.operationId), e.answer, s, b);
    } else if e.Late? {
      LateSparesBucket(w, e.call, s, b);
      SparedBucketStays(w.db, w.garage, LooseCall(w, e.call), e.answer, s, b);
    }
  }

  // ---------------------------------------------------------------- every run

  lemma TablesSpareBucket(before: Db, after: Db, g: Garage, s: Uuid, b: string)
    requires BucketAgrees(before, g, s, b) && PhysicalIdsStay(before.buckets, after.buckets)
    requires SameSpec(before.services, after.services, s)
    ensures BucketAgrees(after, g, s, b)
  {
  }

  lemma TimelyEventSparesBucket(w: World, e: Event, s: Uuid, b: string)
    requires WorldInv(w) && LeaseInv(w) && Possible(w, e) && Timely(w, e) && Sound(w, s, b)
    ensures Admissible(w.db, TxOf(w, e)) && BucketAgrees(Apply(w.db, TxOf(w, e)), GarageAfter(w, e), s, b)
  {
    GarageSparesBucket(w, e, s, b);
    SpecKept(w, e, s);
    PhysicalIdsKept(w, e);
    TablesSpareBucket(w.db, Apply(w.db, TxOf(w, e)), GarageAfter(w, e), s, b);
  }

  lemma BucketStep(ws: seq<World>, es: seq<Event>, n: nat, s: Uuid, b: string)
    requires TimelyRun(ws, es) && n < |es| && Sound(ws[n], s, b)
    ensures BucketAgrees(ws[n + 1].db, ws[n + 1].garage, s, b)
  {
    WorldRunKeepsInv(ws, es, n);
    TimelyRunKeepsLeaseInv(ws, es, n);
    TimelyEventSparesBucket(ws[n], es[n], s, b);
    StoreStep(ws, es, n);
    assert ws[n + 1] == Move(ws[n], es[n]);
  }

  /** In a timely run, a bucket that agrees with the spec of its service, and goes by one alias that a reconcile can ask
      for, agrees until a change of the service is under way. */
  lemma {:induction false} AgreeingBucketStays(ws: seq<World>, es: seq<Event>, i: nat, j: nat, s: Uuid, b: string)
    requires TimelyRun(ws, es) && i <= j <= |es| && BucketAgrees(ws[i].db, ws[i].garage, s, b)
    requires SoleAlias(ws[0].garage, b) && forall k | i <= k < j :: Settled(ws[k].db, s)
    ensures BucketAgrees(ws[j].db, ws[j].garage, s, b)
  {
    if i < j {
      AgreeingBucketStays(ws, es, i, j - 1, s, b);
      OneAliasStays(ws, es, j - 1, b);
      BucketStep(ws, es, j - 1, s, b);
    }
  }

  /** So a bucket that a reconcile commits agrees with its spec from then on, until the next change is under way. */
  lemma CommittedBucketStays(ws: seq<World>, es: seq<Event>, n: nat, m: nat)
    requires TimelyRun(ws, es) && n < m <= |es| && CommitsAt(ws[n], es[n])
    requires ws[n].execs[es[n].operationId].pc.product.BucketReady?
    requires ws[n].execs[es[n].operationId].context.ReconcileContext?
    requires !ws[n].execs[es[n].operationId].context.previouslyApplied
    requires SoleAlias(ws[0].garage, ws[n].execs[es[n].operationId].pc.product.bucketId)
    requires forall k | n < k < m :: Settled(ws[k].db, ws[n].execs[es[n].operationId].cmd.ServiceId())
    ensures BucketAgrees(ws[m].db, ws[m].garage, ws[n].execs[es[n].operationId].cmd.ServiceId(),
                         ws[n].execs[es[n].operationId].pc.product.bucketId)
  {
    var exec := ws[n].execs[es[n].operationId];
    OneAliasStays(ws, es, n, exec.pc.product.bucketId);
    ReconciledBucketMatchesSpec(ws, es, n);
    AgreeingBucketStays(ws, es, n + 1, m, exec.cmd.ServiceId(), exec.pc.product.bucketId);
  }
}
