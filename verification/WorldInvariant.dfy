/** What holds of tables, executors and Garage together in every reachable state, with no assumption about leases. */
module WorldInvariant {
  import opened Types
  import opened StoreSpec
  import opened Invariant
  import opened Transactions
  import opened Evolution
  import opened Snapshot
  import opened Contexts
  import opened StoreRuns
  import opened GarageModel
  import opened Handlers
  import opened Executors

  // ---------------------------------------------------------------- how the tables move on

  /** The tables moved on, and every operation unfinished on both sides still has the same work to do. */
  ghost predicate Follows(before: Db, after: Db) {
    && Evolves(before, after)
    && (forall k | InFlight(before.receipts, k) && InFlight(after.receipts, k) :: SameWork(before, after, k))
  }

  lemma ApplyFollows(db: Db, tx: Tx)
    requires Inv(db) && Admissible(db, tx)
    ensures Follows(db, Apply(db, tx))
  {
    ApplyKeepsInv(db, tx);
    ApplyEvolves(db, tx);
    forall k | InFlight(db.receipts, k) && InFlight(Apply(db, tx).receipts, k) ensures SameWork(db, Apply(db, tx), k) {
      WorkStays(db, tx, k);
    }
  }

  lemma WorkStays(db: Db, tx: Tx, k: Uuid)
    requires Inv(db) && Admissible(db, tx) && Inv(Apply(db, tx)) && Evolves(db, Apply(db, tx))
    requires InFlight(db.receipts, k) && InFlight(Apply(db, tx).receipts, k)
    ensures SameWork(db, Apply(db, tx), k)
  {
    SnapshotStable(db, tx, k);
    assert ReceiptEvolves(db.receipts[k], Apply(db, tx).receipts[k], db.issued);
    SameServiceIsSameWork(db, Apply(db, tx), k);
  }

  // ---------------------------------------------------------------- executors

  ghost predicate Current(receipts: Receipts, key: Uuid, o: Uuid) {
    InFlight(receipts, key) && receipts[key].operationId == o
  }

  /** The request of an execution is on record. */
  ghost predicate Granted(receipts: Receipts, issued: set<Uuid>, o: Uuid, cmd: Command) {
    && o in issued && WellFormed(cmd)
    && cmd.operation.key in receipts && receipts[cmd.operation.key].identity == cmd.operation.identity
  }

  /** The context of an execution is true of the tables for as long as its operation id is current. */
  ghost predicate Informed(db: Db, o: Uuid, cmd: Command, context: Context)
    requires cmd.operation.key in db.receipts
  {
    Current(db.receipts, cmd.operation.key, o) ==> Describes(db, db.receipts[cmd.operation.key], context)
  }

  ghost predicate ProgramOk(g: Garage, exec: Exec) {
    && PcFits(exec.cmd, exec.context, exec.pc)
    && ContextKnown(g, exec.context)
    && PcTrue(g, exec.cmd, exec.context, exec.pc)
  }

  ghost predicate RequestsOk(db: Db, execs: map<Uuid, Exec>) {
    forall o | o in execs ::
      Granted(db.receipts, db.issued, o, execs[o].cmd) && Informed(db, o, execs[o].cmd, execs[o].context)
  }

  ghost predicate ProgramsOk(g: Garage, execs: map<Uuid, Exec>) {
    forall o | o in execs :: ProgramOk(g, execs[o])
  }

  // ---------------------------------------------------------------- what is gone is gone

  /** Recorded keys exist or existed, and a revoked credential has no live key. */
  ghost predicate KeysGone(credentials: Credentials, g: Garage) {
    forall c | c in credentials ::
      && credentials[c].garageKeyId in g.keys
      && credentials[c].accessKeyId == credentials[c].garageKeyId
      && (credentials[c].status == Revoked ==> KeyDead(g, credentials[c].garageKeyId))
  }

  /** Recorded buckets exist or existed, and a deleted service has no live bucket. */
  ghost predicate BucketsGone(services: Services, buckets: Buckets, g: Garage) {
    forall s | s in buckets ::
      && BucketKnown(g, buckets[s].physicalBucketId)
      && (s in services && services[s].phase == Deleted && buckets[s].physicalBucketId.Some? ==>
            BucketDead(g, buckets[s].physicalBucketId.value))
  }

  // ---------------------------------------------------------------- keys in hand

  /** The key an executor has made and not yet handed over. */
  ghost function Held(pc: Pc): Option<string> {
    match pc
    case Calling(stage) =>
      (match stage
       case Denying(k, _) => Some(k)
       case Allowing(k, _) => Some(k)
       case Undoing(k) => Some(k)
       case Cleaning(k) => Some(k)
       case _ => None)
    case Completing(product) => if product.KeyReady? then Some(product.keyId) else None
    case _ => None
  }

  ghost predicate Unrecorded(credentials: Credentials, k: string) {
    forall c | c in credentials :: credentials[c].garageKeyId != k
  }

  ghost predicate HoldsKey(execs: map<Uuid, Exec>, o: Uuid, k: string) {
    o in execs && Held(execs[o].pc) == Some(k)
  }

  /** A key in hand is recorded nowhere and is in one hand only. */
  ghost predicate HandsOk(credentials: Credentials, execs: map<Uuid, Exec>) {
    && (forall o, k | HoldsKey(execs, o, k) :: Unrecorded(credentials, k))
    && (forall o, p, k | HoldsKey(execs, o, k) && HoldsKey(execs, p, k) :: o == p)
  }

  /** Calls that only ever remove a key nobody will record. */
  ghost function Discarded(stage: Stage): Option<string> {
    match stage
    case Undoing(k) => Some(k)
    case Cleaning(k) => Some(k)
    case _ => None
  }

  /** An execution whose call got loose is on its way out. */
  ghost predicate Leaving(pc: Pc) {
    pc.Abandoning? || pc.Halted? || (pc.Calling? && pc.stage.Undoing?)
  }

  ghost predicate LooseOk(g: Garage, execs: map<Uuid, Exec>, call: Loose) {
    && call.operationId in execs
    && Leaving(execs[call.operationId].pc)
    && StageFits(execs[call.operationId].cmd, execs[call.operationId].context, call.stage)
    && StageTrue(g, execs[call.operationId].cmd, execs[call.operationId].context, call.stage)
  }

  ghost predicate AllLooseOk(g: Garage, execs: map<Uuid, Exec>, loose: set<Loose>) {
    forall call | call in loose :: LooseOk(g, execs, call)
  }

  /** A key some loose call discards is recorded nowhere and in nobody's hands. */
  ghost predicate DiscardsOk(credentials: Credentials, execs: map<Uuid, Exec>, loose: set<Loose>) {
    forall call | call in loose && Discarded(call.stage).Some? ::
      && Unrecorded(credentials, Discarded(call.stage).value)
      && (forall o :: !HoldsKey(execs, o, Discarded(call.stage).value))
  }

  // ---------------------------------------------------------------- the whole

  ghost predicate WorldInv(w: World) {
    && Inv(w.db)
    && RequestsOk(w.db, w.execs)
    && ProgramsOk(w.garage, w.execs)
    && KeysGone(w.db.credentials, w.garage)
    && BucketsGone(w.db.services, w.db.buckets, w.garage)
    && HandsOk(w.db.credentials, w.execs)
    && AllLooseOk(w.garage, w.execs, w.loose)
    && DiscardsOk(w.db.credentials, w.execs, w.loose)
  }

  // ---------------------------------------------------------------- executors survive everyone's steps

  lemma GrantSurvives(before: Db, after: Db, o: Uuid, cmd: Command)
    requires Evolves(before, after) && Granted(before.receipts, before.issued, o, cmd)
    ensures Granted(after.receipts, after.issued, o, cmd)
    ensures Current(after.receipts, cmd.operation.key, o) ==> Current(before.receipts, cmd.operation.key, o)
  {
    assert ReceiptEvolves(before.receipts[cmd.operation.key], after.receipts[cmd.operation.key], before.issued);
  }

  lemma InformationSurvives(before: Db, after: Db, o: Uuid, cmd: Command, context: Context)
    requires Inv(before) && Inv(after) && Follows(before, after)
    requires Granted(before.receipts, before.issued, o, cmd) && Informed(before, o, cmd, context)
    ensures cmd.operation.key in after.receipts && Informed(after, o, cmd, context)
  {
    var key := cmd.operation.key;
    GrantSurvives(before, after, o, cmd);
    if Current(after.receipts, key, o) {
      assert SameWork(before, after, key);
      assert Stands(before.services, before.buckets, before.names, before.credentials, before.receipts[key].identity);
      var s := before.receipts[key].identity.serviceId;
      assert s in after.services ==> ServiceOk(after.services[s], after.buckets[s]);
      ContextStable(before, after, key, context);
    }
  }

  /** An execution that was just granted starts well informed. */
  lemma NewExecutionInformed(db: Db, cmd: Command, ids: FreshIds)
    requires Inv(db) && WellFormed(cmd) && FreshFor(db.issued, ids)
    requires GrantsAt(db, Preparing(cmd, ids), cmd.operation.key)
    ensures var step := PrepareStep(db, cmd, ids);
            && step.reply.value.operationId == ids.operationId
            && cmd.operation.key in step.db.receipts
            && Granted(step.db.receipts, step.db.issued, ids.operationId, cmd)
            && Informed(step.db, ids.operationId, cmd, step.reply.value.context)
  {
    var tx := Preparing(cmd, ids);
    GrantedContextIsTrue(db, tx, cmd.operation.key);
    ApplyKeepsInv(db, tx);
    assert Apply(db, tx) == PrepareStep(db, cmd, ids).db;
    PrepareOutcome(db, cmd, ids);
  }
}
