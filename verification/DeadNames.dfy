/** A reconcile under a name that can never be committed: granted, never completed, and in everyone's way. */
module DeadNames {
  import opened Types
  import opened Domain
  import opened StoreSpec
  import opened Invariant
  import opened Completions
  import opened Transactions
  import opened Evolution
  import opened Snapshot
  import opened StoreRuns
  import opened Fencing
  import opened Guarantees
  import opened Admission

  // ---------------------------------------------------------------- in one state

  /** A deleted service of the project that still carries the service name. */
  ghost predicate ServiceNameOfDeleted(services: Services, projectId: Uuid, name: string) {
    exists t | t in services :: services[t].phase == Deleted && services[t].projectId == projectId && services[t].name == name
  }

  /** A reconcile for which there is no hope: a deleted service carries its bucket name or its service name, neither of
      which a deletion frees, or its service name cannot be stored. */
  ghost predicate Hopeless(db: Db, identity: Identity) {
    && identity.requestHash.body.Reconcile?
    && (|| NameOfDeleted(db.services, db.buckets, identity.requestHash.body.spec.bucketName)
        || ServiceNameOfDeleted(db.services, identity.projectId, identity.requestHash.body.name)
        || !Storable(identity.requestHash.body.name))
  }

  /** An unfinished operation of that kind. */
  ghost predicate Doomed(db: Db, key: Uuid) {
    InFlight(db.receipts, key) && Hopeless(db, db.receipts[key].identity)
  }

  lemma ReservedIsDoomed(db: Db, cmd: Command, ids: FreshIds, names: Names)
    requires Hopeless(db, cmd.operation.identity)
    ensures Doomed(Reserve(db, cmd, ids, names), cmd.operation.key)
  {
  }

  /** Prepare does not notice: for a new service it looks only at name reservations. */
  lemma DoomedIsGranted(db: Db, cmd: Command, ids: FreshIds)
    requires Inv(db) && Fresh(db, cmd) && cmd.payload.Reconcile? && Hopeless(db, cmd.operation.identity)
    requires cmd.ServiceId() !in db.services && cmd.payload.spec.bucketName !in db.names
    ensures var step := PrepareStep(db, cmd, ids);
            && step.reply.Ok? && step.reply.value.Execute? && step.reply.value.operationId == ids.operationId
            && Doomed(step.db, cmd.operation.key)
  {
    NewServiceGranted(db, cmd, ids);
    ReservedIsDoomed(db, cmd, ids, db.names[cmd.payload.spec.bucketName := cmd.ServiceId()]);
  }

  /** Nor for a live service: it can be renamed to a name that a deleted service carries, or that cannot be stored. */
  lemma DoomedUpdateIsGranted(db: Db, cmd: Command, ids: FreshIds)
    requires Inv(db) && Fresh(db, cmd) && cmd.payload.Reconcile? && Hopeless(db, cmd.operation.identity)
    requires InScope(db.services, cmd.operation.identity)
    requires cmd.payload.generation > db.services[cmd.ServiceId()].desiredGeneration
    requires cmd.payload.spec.bucketName == db.buckets[cmd.ServiceId()].bucketName
    ensures var step := PrepareStep(db, cmd, ids);
            && step.reply.Ok? && step.reply.value.Execute? && step.reply.value.operationId == ids.operationId
            && Doomed(step.db, cmd.operation.key)
  {
    UpdateGranted(db, cmd, ids);
    ReservedIsDoomed(db, cmd, ids, db.names);
  }

  lemma DeadServiceNameIsTaken(services: Services, buckets: Buckets, names: Names, credentials: Credentials, cmd: Command)
    requires WellFormed(cmd) && cmd.payload.Reconcile?
    requires Stands(services, buckets, names, credentials, cmd.operation.identity)
    requires ServiceNameOfDeleted(services, cmd.operation.identity.projectId, cmd.payload.name)
    ensures NameTaken(services, cmd.ServiceId(), cmd.operation.identity.projectId, cmd.payload.name)
  {
    var t :| t in services && services[t].phase == Deleted && services[t].projectId == cmd.operation.identity.projectId
          && services[t].name == cmd.payload.name;
    assert t != cmd.ServiceId();
  }

  lemma DoomedNeverReconciles(db: Db, cmd: Command, id: Uuid, physical: string, response: StoredHttpResponse,
                              audit: AuditEvent)
    requires Inv(db) && WellFormed(cmd) && cmd.payload.Reconcile? && Doomed(db, cmd.operation.key)
    requires db.receipts[cmd.operation.key].identity == cmd.operation.identity
    ensures !ReconcileCommits(db, cmd, id, physical, response, audit)
  {
    if MayFinish(db, cmd.operation, id, response, audit) {
      CurrentReconcileCommits(db, cmd, id, physical, response, audit);
      assert Stands(db.services, db.buckets, db.names, db.credentials, cmd.operation.identity);
      if ServiceNameOfDeleted(db.services, cmd.operation.identity.projectId, cmd.payload.name) {
        DeadServiceNameIsTaken(db.services, db.buckets, db.names, db.credentials, cmd);
      }
    }
  }

  lemma OtherKindsEndOthers(db: Db, effect: Effect, key: Uuid)
    requires Enabled(db, effect) && (effect.Removes? || effect.Issues? || effect.Withdraws?)
    requires effect.Ended().key == key && key in db.receipts && db.receipts[key].identity == effect.Ended().identity
    ensures !db.receipts[key].identity.requestHash.body.Reconcile?
  {
  }

  lemma DoomedIsNotReconciled(db: Db, effect: Effect, key: Uuid)
    requires Inv(db) && Enabled(db, effect) && Doomed(db, key) && effect.Finishing() && effect.Ended().key == key
    requires db.receipts[key].identity == effect.Ended().identity
    ensures !effect.Reconciles?
  {
    if effect.Reconciles? {
      DoomedNeverReconciles(db, effect.cmd, effect.operationId, effect.physicalBucketId, effect.response, effect.audit);
    }
  }

  /** Only failure ends such an operation. */
  lemma DoomedOnlyFails(db: Db, effect: Effect, key: Uuid)
    requires Inv(db) && Enabled(db, effect) && Doomed(db, key) && effect.Finishing() && effect.Ended().key == key
    ensures effect.Fails?
  {
    EndedFinishes(db, effect);
    DoomedIsNotReconciled(db, effect, key);
    if !effect.Fails? {
      OtherKindsEndOthers(db, effect, key);
    }
  }

  // ---------------------------------------------------------------- over runs

  lemma DeletedNameStays(before: Db, after: Db, n: string)
    requires Evolves(before, after) && NameOfDeleted(before.services, before.buckets, n)
    ensures after.services.Keys == after.buckets.Keys ==> NameOfDeleted(after.services, after.buckets, n)
  {
    var t :| t in before.services && t in before.buckets && before.services[t].phase == Deleted
          && before.buckets[t].bucketName == n;
    assert ServiceEvolves(before.services[t], after.services[t]);
    assert after.buckets[t].bucketName == n;
  }

  lemma DeletedServiceNameStays(before: Services, after: Services, projectId: Uuid, name: string)
    requires ServicesEvolve(before, after) && ServiceNameOfDeleted(before, projectId, name)
    ensures ServiceNameOfDeleted(after, projectId, name)
  {
    var t :| t in before && before[t].phase == Deleted && before[t].projectId == projectId && before[t].name == name;
    assert ServiceEvolves(before[t], after[t]);
  }

  lemma DoomedStays(before: Db, after: Db, key: Uuid)
    requires Evolves(before, after) && Doomed(before, key) && InFlight(after.receipts, key)
    requires after.services.Keys == after.buckets.Keys
    ensures Doomed(after, key)
  {
    ReceiptKept(before, after, key);
    var identity := before.receipts[key].identity;
    if NameOfDeleted(before.services, before.buckets, identity.requestHash.body.spec.bucketName) {
      DeletedNameStays(before, after, identity.requestHash.body.spec.bucketName);
    } else if ServiceNameOfDeleted(before.services, identity.projectId, identity.requestHash.body.name) {
      DeletedServiceNameStays(before.services, after.services, identity.projectId, identity.requestHash.body.name);
    }
  }

  /** Once doomed, an operation stays so for as long as it is unfinished. */
  lemma RunDoomed(dbs: seq<Db>, txs: seq<Tx>, i: nat, j: nat, key: Uuid)
    requires StoreRun(dbs, txs) && i <= j <= |txs| && Doomed(dbs[i], key) && InFlight(dbs[j].receipts, key)
    ensures Doomed(dbs[j], key)
  {
    RunEvolves(dbs, txs, i, j);
    RunTablesPaired(dbs, txs, j);
    DoomedStays(dbs[i], dbs[j], key);
  }

  lemma RunTablesPaired(dbs: seq<Db>, txs: seq<Tx>, n: nat)
    requires StoreRun(dbs, txs) && n <= |txs|
    ensures dbs[n].services.Keys == dbs[n].buckets.Keys
  {
    RunKeepsInv(dbs, txs, n);
  }

  lemma FailsByFailing(db: Db, tx: Tx)
    requires Admissible(db, tx) && EffectOf(db, tx).Fails?
    ensures tx.Failing?
  {
  }

  lemma DoomedEffect(db: Db, effect: Effect, key: Uuid)
    requires Inv(db) && Enabled(db, effect) && Doomed(db, key) && !InFlight(Perform(db, effect).receipts, key)
    ensures effect.Fails?
  {
    OnlyFinishingEnds(db, effect, key);
    DoomedOnlyFails(db, effect, key);
  }

  lemma DoomedStep(db: Db, tx: Tx, key: Uuid)
    requires Inv(db) && Admissible(db, tx) && Doomed(db, key) && !InFlight(Apply(db, tx).receipts, key)
    ensures tx.Failing?
  {
    ApplyPerforms(db, tx);
    DoomedEffect(db, EffectOf(db, tx), key);
    FailsByFailing(db, tx);
  }

  /** In every later state of every run, the one call that can end such an operation is a failure: no completion ever
      commits it, whatever bucket it brings. */
  lemma DoomedEndsOnlyByFailing(dbs: seq<Db>, txs: seq<Tx>, i: nat, j: nat, key: Uuid)
    requires StoreRun(dbs, txs) && i <= j < |txs| && Doomed(dbs[i], key) && EndsAt(dbs[j], txs[j], key)
    ensures txs[j].Failing?
  {
    RunDoomed(dbs, txs, i, j, key);
    RunKeepsInv(dbs, txs, j);
    DoomedStep(dbs[j], txs[j], key);
  }

  // ---------------------------------------------------------------- what others are told meanwhile

  /** The operation that a busy service names is its only unfinished one. */
  lemma BusyServiceNamesItsOperation(receipts: Receipts, key: Uuid, other: Uuid)
    requires OnePerService(receipts) && InFlight(receipts, key) && other != key
    ensures RejectParallel(receipts, receipts[key].identity.serviceId, other)
            == Fail(OperationInProgress(receipts[key].operationId))
  {
    var s := receipts[key].identity.serviceId;
    assert key in Parallel(receipts, s, other);
    forall k | k in Parallel(receipts, s, other) ensures k == key {
      assert InFlight(receipts, k);
    }
  }

  lemma BusyServiceAnswers(db: Db, cmd: Command, ids: FreshIds, o: Uuid)
    requires ValidateCommand(cmd).None? && cmd.operation.key !in db.receipts && !cmd.payload.CreateCredential?
    requires RejectParallel(db.receipts, cmd.ServiceId(), cmd.operation.key) == Fail(OperationInProgress(o))
    ensures PrepareStep(db, cmd, ids) == Step(db, Err(OperationInProgress(o)))
  {
  }

  /** A credential creation is looked at in this order: the service, its limits and names, and only then who is busy. */
  lemma BusyServiceRefusesCreation(db: Db, cmd: Command, ids: FreshIds, o: Uuid)
    requires ValidateCommand(cmd).None? && cmd.operation.key !in db.receipts && cmd.payload.CreateCredential?
    requires RejectParallel(db.receipts, cmd.ServiceId(), cmd.operation.key) == Fail(OperationInProgress(o))
    ensures PrepareStep(db, cmd, ids).db == db && PrepareStep(db, cmd, ids).reply.Err?
    ensures cmd.ServiceId() !in db.services ==> PrepareStep(db, cmd, ids).reply.error == NotFound
    ensures ReadyBucket(db, cmd.operation.identity).Ok? && Room(db, cmd) ==>
              PrepareStep(db, cmd, ids).reply.error == OperationInProgress(o)
  {
  }

  /** Until it fails, every valid request under another new key on that service is turned away and changes nothing,
      whether the service is live or was never created. */
  lemma DoomedBlocksItsService(dbs: seq<Db>, txs: seq<Tx>, i: nat, j: nat, key: Uuid, cmd: Command, ids: FreshIds)
    requires StoreRun(dbs, txs) && i <= j <= |txs| && Doomed(dbs[i], key) && InFlight(dbs[j].receipts, key)
    requires ValidateCommand(cmd).None? && cmd.operation.key !in dbs[j].receipts
    requires cmd.ServiceId() == dbs[j].receipts[key].identity.serviceId
    ensures var step, busy := PrepareStep(dbs[j], cmd, ids), OperationInProgress(dbs[j].receipts[key].operationId);
            && step.db == dbs[j] && step.reply.Err?
            && (!cmd.payload.CreateCredential? ==> step.reply.error == busy)
            && (cmd.payload.CreateCredential? ==>
                  && (cmd.ServiceId() !in dbs[j].services ==> step.reply.error == NotFound)
                  && (InScope(dbs[j].services, cmd.operation.identity) && Room(dbs[j], cmd) ==> step.reply.error == busy))
  {
    RunDoomed(dbs, txs, i, j, key);
    RunKeepsInv(dbs, txs, j);
    BlockedService(dbs[j], key, cmd, ids);
  }

  lemma BlockedService(db: Db, key: Uuid, cmd: Command, ids: FreshIds)
    requires Inv(db) && InFlight(db.receipts, key) && ValidateCommand(cmd).None? && cmd.operation.key !in db.receipts
    requires cmd.ServiceId() == db.receipts[key].identity.serviceId
    ensures var step, busy := PrepareStep(db, cmd, ids), OperationInProgress(db.receipts[key].operationId);
            && step.db == db && step.reply.Err?
            && (!cmd.payload.CreateCredential? ==> step.reply.error == busy)
            && (cmd.payload.CreateCredential? ==>
                  && (cmd.ServiceId() !in db.services ==> step.reply.error == NotFound)
                  && (InScope(db.services, cmd.operation.identity) && Room(db, cmd) ==> step.reply.error == busy))
  {
    BusyServiceNamesItsOperation(db.receipts, key, cmd.operation.key);
    if cmd.payload.CreateCredential? {
      BusyServiceRefusesCreation(db, cmd, ids, db.receipts[key].operationId);
      if InScope(db.services, cmd.operation.identity) {
        ServiceReadmits(db, cmd.operation.identity);
      }
    } else {
      BusyServiceAnswers(db, cmd, ids, db.receipts[key].operationId);
    }
  }
}
