/** One store, from empty tables: a service is reconciled and deleted, and one of its names is asked for again. */
module Scenario {
  import opened Types
  import opened Domain
  import opened StoreSpec
  import opened Invariant
  import opened Completions
  import opened Transactions
  import opened StoreRuns
  import opened Guarantees
  import opened Admission
  import opened DeadNames

  // ---------------------------------------------------------------- tables a run can reach

  /** The calls, made one after the other on empty tables, end in these tables. */
  ghost predicate EndsIn(txs: seq<Tx>, db: Db) {
    exists dbs :: StoreRun(dbs, txs) && dbs[|txs|] == db
  }

  lemma NoCallsYet(db: Db)
    requires Initial(db)
    ensures EndsIn([], db)
  {
    var txs: seq<Tx> := [];
    assert StoreRun([db], txs);
  }

  lemma ReachedInv(txs: seq<Tx>, db: Db)
    requires EndsIn(txs, db)
    ensures Inv(db)
  {
    var dbs :| StoreRun(dbs, txs) && dbs[|txs|] == db;
    RunKeepsInv(dbs, txs, |txs|);
  }

  lemma OneMoreCall(txs: seq<Tx>, db: Db, tx: Tx)
    requires EndsIn(txs, db) && Admissible(db, tx)
    ensures EndsIn(txs + [tx], Apply(db, tx))
  {
    var dbs :| StoreRun(dbs, txs) && dbs[|txs|] == db;
    var dbs', txs' := dbs + [Apply(db, tx)], txs + [tx];
    forall i | 0 <= i < |txs'| ensures Admissible(dbs'[i], txs'[i]) && dbs'[i + 1] == Apply(dbs'[i], txs'[i]) {
      if i < |txs| {
        assert txs'[i] == txs[i];
      }
    }
    assert StoreRun(dbs', txs') && dbs'[|txs'|] == Apply(db, tx);
  }

  lemma PrepareCall(txs: seq<Tx>, db: Db, cmd: Command, ids: FreshIds)
    requires EndsIn(txs, db) && WellFormed(cmd) && FreshFor(db.issued, ids)
    ensures EndsIn(txs + [Preparing(cmd, ids)], PrepareStep(db, cmd, ids).db)
  {
    OneMoreCall(txs, db, Preparing(cmd, ids));
  }

  lemma ReconcileCall(txs: seq<Tx>, db: Db, cmd: Command, o: Uuid, b: string, response: StoredHttpResponse,
                      audit: AuditEvent)
    requires EndsIn(txs, db) && WellFormed(cmd) && cmd.payload.Reconcile?
    ensures EndsIn(txs + [CompletingReconcile(cmd, o, b, response, audit)],
                   CompleteReconcileStep(db, cmd, o, b, response, audit).db)
  {
    OneMoreCall(txs, db, CompletingReconcile(cmd, o, b, response, audit));
  }

  lemma DeleteCall(txs: seq<Tx>, db: Db, cmd: Command, o: Uuid, response: StoredHttpResponse, audit: AuditEvent)
    requires EndsIn(txs, db) && WellFormed(cmd) && cmd.payload.Delete?
    ensures EndsIn(txs + [CompletingDelete(cmd, o, response, audit)],
                   CompleteDeleteStep(db, cmd, o, response, audit).db)
  {
    OneMoreCall(txs, db, CompletingDelete(cmd, o, response, audit));
  }

  // ---------------------------------------------------------------- the first service

  /** Tables in which one reconcile of a new service is under way and nothing else has happened. */
  ghost predicate BeingProvisioned(db: Db, cmd: Command, o: Uuid) {
    && cmd.payload.Reconcile?
    && db.services == map[] && db.buckets == map[] && db.credentials == map[] && db.reservations == map[]
    && db.names == map[cmd.payload.spec.bucketName := cmd.ServiceId()]
    && db.receipts.Keys == {cmd.operation.key} && InFlight(db.receipts, cmd.operation.key)
    && db.receipts[cmd.operation.key].operationId == o
    && db.receipts[cmd.operation.key].identity == cmd.operation.identity
  }

  /** Tables in which that reconcile has completed and nothing else has happened. */
  ghost predicate Provisioned(db: Db, cmd: Command, o: Uuid, b: string) {
    && cmd.payload.Reconcile?
    && db.services == map[cmd.ServiceId() := ReconciledService(cmd, o)]
    && db.buckets.Keys == {cmd.ServiceId()}
    && db.buckets[cmd.ServiceId()].physicalBucketId == Some(b)
    && db.buckets[cmd.ServiceId()].bucketName == cmd.payload.spec.bucketName
    && db.names == map[cmd.payload.spec.bucketName := cmd.ServiceId()]
    && db.credentials == map[] && db.reservations == map[]
    && db.receipts.Keys == {cmd.operation.key} && db.receipts[cmd.operation.key].state == Succeeded
  }

  lemma ProvisionBegins(db: Db, cmd: Command, ids: FreshIds)
    requires Initial(db) && WellFormed(cmd) && cmd.payload.Reconcile? && ValidateCommand(cmd).None?
    ensures var step := PrepareStep(db, cmd, ids);
            && step.reply == Ok(Execute(ids.operationId, NewServiceContext(cmd)))
            && BeingProvisioned(step.db, cmd, ids.operationId)
            && step.db.issued == {NIL, ids.operationId} && step.db.clock == db.clock && step.db.limits == db.limits
  {
    InitialInv(db);
    NewServiceGranted(db, cmd, ids);
  }

  lemma ProvisionCommits(db: Db, cmd: Command, o: Uuid, b: string, response: StoredHttpResponse, audit: AuditEvent)
    requires BeingProvisioned(db, cmd, o) && ValidateCommand(cmd).None? && Storable(cmd.payload.name)
    requires b != [] && ByteLength(b) <= 256 && 100 <= response.status <= 599 && AuditAccepted(audit)
    ensures ReconcileCommits(db, cmd, o, b, response, audit)
  {
    ValidatedReconcileIsAcceptedDownstream(cmd);
    ValidatedSpecIsAcceptedDownstream(cmd.payload.spec);
  }

  lemma ProvisionEnds(db: Db, cmd: Command, o: Uuid, b: string, response: StoredHttpResponse, audit: AuditEvent)
    requires BeingProvisioned(db, cmd, o) && ValidateCommand(cmd).None? && Storable(cmd.payload.name) && !response.failed
    requires b != [] && ByteLength(b) <= 256 && 100 <= response.status <= 599 && AuditAccepted(audit)
    ensures var step := CompleteReconcileStep(db, cmd, o, b, response, audit);
            && step.reply.Ok? && Provisioned(step.db, cmd, o, b)
            && step.db.issued == db.issued && step.db.clock == db.clock && step.db.limits == db.limits
  {
    ProvisionCommits(db, cmd, o, b, response, audit);
    ReconcileOutcome(db, cmd, o, b, response, audit);
  }

  // ---------------------------------------------------------------- its deletion

  /** Tables in which the service was deleted again and nothing else has happened. */
  ghost predicate Gone(db: Db, cmd: Command) {
    && cmd.payload.Reconcile?
    && db.services.Keys == {cmd.ServiceId()} && db.services[cmd.ServiceId()].phase == Deleted
    && db.services[cmd.ServiceId()].projectId == cmd.operation.identity.projectId
    && db.services[cmd.ServiceId()].name == cmd.payload.name
    && cmd.ServiceId() in db.buckets && db.buckets[cmd.ServiceId()].bucketName == cmd.payload.spec.bucketName
    && db.names == map[]
    && (forall k :: !InFlight(db.receipts, k))
  }

  lemma DeletionBegins(txs: seq<Tx>, db: Db, first: Command, o: Uuid, b: string, cmd: Command, ids: FreshIds)
    requires EndsIn(txs, db) && Provisioned(db, first, o, b) && WellFormed(cmd) && cmd.payload.Delete?
    requires ValidateCommand(cmd).None? && cmd.operation.key != first.operation.key
    requires cmd.ServiceId() == first.ServiceId() && cmd.payload.generation == first.payload.generation + 1
    requires cmd.operation.identity.organizationId == first.operation.identity.organizationId
    requires cmd.operation.identity.projectId == first.operation.identity.projectId
    ensures PrepareStep(db, cmd, ids).db == Reserve(db, cmd, ids, db.names)
  {
    ReachedInv(txs, db);
    DeleteGranted(db, cmd, ids);
  }

  lemma DeletionEnds(db: Db, first: Command, o: Uuid, b: string, cmd: Command, ids: FreshIds,
                     response: StoredHttpResponse, audit: AuditEvent)
    requires Provisioned(db, first, o, b) && cmd.payload.Delete? && cmd.operation.key != first.operation.key
    requires cmd.ServiceId() == first.ServiceId()
    requires cmd.operation.identity.organizationId == first.operation.identity.organizationId
    requires cmd.operation.identity.projectId == first.operation.identity.projectId
    requires 100 <= response.status <= 599 && AuditAccepted(audit)
    ensures var step := CompleteDeleteStep(Reserve(db, cmd, ids, db.names), cmd, ids.operationId, response, audit);
            step.reply.Ok? && Gone(step.db, first)
            && step.db.receipts.Keys == {first.operation.key, cmd.operation.key}
            && step.db.issued == db.issued + {ids.operationId}
  {
    var mid := Reserve(db, cmd, ids, db.names);
    assert DeleteCommits(mid, cmd, ids.operationId, response, audit);
    DeleteOutcome(mid, cmd, ids.operationId, response, audit);
  }

  // ---------------------------------------------------------------- the name again

  lemma GoneNamesAreDead(db: Db, first: Command)
    requires Gone(db, first)
    ensures NameOfDeleted(db.services, db.buckets, first.payload.spec.bucketName)
    ensures ServiceNameOfDeleted(db.services, first.operation.identity.projectId, first.payload.name)
  {
    assert first.ServiceId() in db.services;
  }

  /** The request brings the bucket name or the service name of the other, or a service name that cannot be stored. */
  ghost predicate Repeats(first: Command, cmd: Command)
    requires first.payload.Reconcile? && cmd.payload.Reconcile?
  {
    || cmd.payload.spec.bucketName == first.payload.spec.bucketName
    || (&& cmd.payload.name == first.payload.name
        && cmd.operation.identity.projectId == first.operation.identity.projectId)
    || !Storable(cmd.payload.name)
  }

  lemma NameAskedAgain(txs: seq<Tx>, db: Db, first: Command, cmd: Command, ids: FreshIds)
    requires EndsIn(txs, db) && Gone(db, first) && WellFormed(cmd) && cmd.payload.Reconcile? && ValidateCommand(cmd).None?
    requires cmd.operation.key !in db.receipts && cmd.ServiceId() != first.ServiceId()
    requires Repeats(first, cmd)
    ensures var step := PrepareStep(db, cmd, ids);
            && step.reply.Ok? && step.reply.value.Execute? && step.reply.value.operationId == ids.operationId
            && Doomed(step.db, cmd.operation.key)
  {
    ReachedInv(txs, db);
    GoneNamesAreDead(db, first);
    DoomedIsGranted(db, cmd, ids);
  }

  lemma NoCompletionCommits(txs: seq<Tx>, db: Db, cmd: Command)
    requires EndsIn(txs, db) && WellFormed(cmd) && cmd.payload.Reconcile? && Doomed(db, cmd.operation.key)
    ensures forall o, b, response, audit :: !ReconcileCommits(db, cmd, o, b, response, audit)
  {
    ReachedInv(txs, db);
    forall o, b, response, audit ensures !ReconcileCommits(db, cmd, o, b, response, audit) {
      if MayFinish(db, cmd.operation, o, response, audit) {
        CurrentReceipt(db.receipts, cmd.operation, o);
        DoomedNeverReconciles(db, cmd, o, b, response, audit);
      }
    }
  }

  /** A reconcile of one service, its deletion, and a reconcile of another service that repeats one of its names. */
  datatype Story = Story(first: Command, firstIds: FreshIds, bucketId: string, done: StoredHttpResponse, note: AuditEvent,
                         deletion: Command, deletionIds: FreshIds, gone: StoredHttpResponse, goneNote: AuditEvent,
                         second: Command, secondIds: FreshIds)

  ghost predicate FirstProper(t: Story) {
    && WellFormed(t.first) && t.first.payload.Reconcile? && ValidateCommand(t.first).None? && Storable(t.first.payload.name)
    && FreshFor({NIL}, t.firstIds)
    && t.bucketId != [] && ByteLength(t.bucketId) <= 256
    && 100 <= t.done.status <= 599 && !t.done.failed && AuditAccepted(t.note)
  }

  ghost predicate DeletionProper(t: Story)
    requires FirstProper(t)
  {
    && WellFormed(t.deletion) && t.deletion.payload.Delete? && ValidateCommand(t.deletion).None?
    && t.deletion.operation.key != t.first.operation.key
    && t.deletion.ServiceId() == t.first.ServiceId()
    && t.deletion.payload.generation == t.first.payload.generation + 1
    && t.deletion.operation.identity.organizationId == t.first.operation.identity.organizationId
    && t.deletion.operation.identity.projectId == t.first.operation.identity.projectId
    && FreshFor({NIL, t.firstIds.operationId}, t.deletionIds)
    && 100 <= t.gone.status <= 599 && AuditAccepted(t.goneNote)
  }

  ghost predicate SecondProper(t: Story)
    requires FirstProper(t)
  {
    && WellFormed(t.second) && t.second.payload.Reconcile? && ValidateCommand(t.second).None?
    && t.second.operation.key != t.first.operation.key && t.second.operation.key != t.deletion.operation.key
    && t.second.ServiceId() != t.first.ServiceId()
    && Repeats(t.first, t.second)
    && FreshFor({NIL, t.firstIds.operationId, t.deletionIds.operationId}, t.secondIds)
  }

  ghost function FirstCalls(t: Story): seq<Tx> {
    [Preparing(t.first, t.firstIds)]
    + [CompletingReconcile(t.first, t.firstIds.operationId, t.bucketId, t.done, t.note)]
  }

  ghost function DeletionCalls(t: Story): seq<Tx> {
    FirstCalls(t) + [Preparing(t.deletion, t.deletionIds)]
    + [CompletingDelete(t.deletion, t.deletionIds.operationId, t.gone, t.goneNote)]
  }

  lemma FirstRuns(start: Db, t: Story) returns (db: Db)
    requires Initial(start) && FirstProper(t)
    ensures EndsIn(FirstCalls(t), db) && Provisioned(db, t.first, t.firstIds.operationId, t.bucketId)
    ensures db.issued == {NIL, t.firstIds.operationId}
  {
    NoCallsYet(start);
    ProvisionBegins(start, t.first, t.firstIds);
    PrepareCall([], start, t.first, t.firstIds);
    assert [] + [Preparing(t.first, t.firstIds)] == [Preparing(t.first, t.firstIds)];
    var mid := PrepareStep(start, t.first, t.firstIds).db;
    ProvisionEnds(mid, t.first, t.firstIds.operationId, t.bucketId, t.done, t.note);
    ReconcileCall([Preparing(t.first, t.firstIds)], mid, t.first, t.firstIds.operationId, t.bucketId, t.done, t.note);
    db := CompleteReconcileStep(mid, t.first, t.firstIds.operationId, t.bucketId, t.done, t.note).db;
  }

  lemma DeletionRuns(before: Db, t: Story) returns (db: Db)
    requires FirstProper(t) && DeletionProper(t) && EndsIn(FirstCalls(t), before)
    requires Provisioned(before, t.first, t.firstIds.operationId, t.bucketId)
    requires before.issued == {NIL, t.firstIds.operationId}
    ensures EndsIn(DeletionCalls(t), db) && Gone(db, t.first)
    ensures db.issued == {NIL, t.firstIds.operationId, t.deletionIds.operationId}
    ensures db.receipts.Keys == {t.first.operation.key, t.deletion.operation.key}
  {
    var o, calls := t.firstIds.operationId, FirstCalls(t);
    DeletionBegins(calls, before, t.first, o, t.bucketId, t.deletion, t.deletionIds);
    PrepareCall(calls, before, t.deletion, t.deletionIds);
    var mid := Reserve(before, t.deletion, t.deletionIds, before.names);
    DeletionEnds(before, t.first, o, t.bucketId, t.deletion, t.deletionIds, t.gone, t.goneNote);
    DeleteCall(calls + [Preparing(t.deletion, t.deletionIds)], mid, t.deletion, t.deletionIds.operationId, t.gone,
               t.goneNote);
    db := CompleteDeleteStep(mid, t.deletion, t.deletionIds.operationId, t.gone, t.goneNote).db;
  }

  /** From empty tables: after a service was reconciled and deleted, the reconcile of another service under its bucket
      name or its service name is granted, and no completion of it commits. */
  lemma DeadNameIsGrantedInVain(start: Db, t: Story) returns (before: Db, after: Db)
    requires Initial(start) && FirstProper(t) && DeletionProper(t) && SecondProper(t)
    ensures EndsIn(DeletionCalls(t), before) && EndsIn(DeletionCalls(t) + [Preparing(t.second, t.secondIds)], after)
    ensures GrantsAt(before, Preparing(t.second, t.secondIds), t.second.operation.key)
    ensures Doomed(after, t.second.operation.key)
    ensures forall o, b, response, audit :: !ReconcileCommits(after, t.second, o, b, response, audit)
  {
    var provisioned := FirstRuns(start, t);
    before := DeletionRuns(provisioned, t);
    NameAskedAgain(DeletionCalls(t), before, t.first, t.second, t.secondIds);
    PrepareCall(DeletionCalls(t), before, t.second, t.secondIds);
    after := PrepareStep(before, t.second, t.secondIds).db;
    NoCompletionCommits(DeletionCalls(t) + [Preparing(t.second, t.secondIds)], after, t.second);
  }
}
