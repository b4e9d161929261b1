/** What no transaction ever undoes. */
module Evolution {
  import opened Types
  import opened StoreSpec
  import opened Invariant
  import opened Grants
  import opened Completions
  import opened Transactions

  /** A receipt keeps its identity, is frozen once finished, and changes its operation id only to an unissued one. */
  ghost predicate ReceiptEvolves(before: ReceiptRow, after: ReceiptRow, issued: set<Uuid>) {
    && after.identity == before.identity
    && (before.state != InProgress ==> after == before)
    && before.leaseAttempt <= after.leaseAttempt
    && (after.operationId == before.operationId || after.operationId !in issued)
  }

  ghost predicate ReceiptsEvolve(before: Receipts, after: Receipts, issued: set<Uuid>) {
    && (forall k | k in before :: k in after && ReceiptEvolves(before[k], after[k], issued))
    && (forall k | k in after && k !in before :: after[k].operationId !in issued)
  }

  /** A service keeps its scope, never goes back a generation, and never leaves the deleted phase; within one
      generation its name, spec and phase do not move. */
  ghost predicate ServiceEvolves(before: ServiceRow, after: ServiceRow) {
    && after.organizationId == before.organizationId
    && after.projectId == before.projectId
    && before.desiredGeneration <= after.desiredGeneration
    && (before.phase == Deleted ==> after == before)
    && (after.desiredGeneration == before.desiredGeneration ==>
          after == before.(currentOperationId := after.currentOperationId))
  }

  ghost predicate ServicesEvolve(before: Services, after: Services) {
    forall s | s in before :: s in after && ServiceEvolves(before[s], after[s])
  }

  /** A bucket keeps its name. */
  ghost predicate BucketsEvolve(before: Buckets, after: Buckets) {
    forall s | s in before :: s in after && after[s].bucketName == before[s].bucketName
  }

  ghost predicate CredentialsEvolve(before: Credentials, after: Credentials) {
    forall c | c in before :: c in after && OnlyRevoked(before[c], after[c])
  }

  ghost predicate Evolves(before: Db, after: Db) {
    && ReceiptsEvolve(before.receipts, after.receipts, before.issued)
    && ServicesEvolve(before.services, after.services)
    && BucketsEvolve(before.buckets, after.buckets)
    && CredentialsEvolve(before.credentials, after.credentials)
    && before.issued <= after.issued
    && before.clock <= after.clock
    && before.audit <= after.audit
    && before.limits == after.limits
  }

  // ---------------------------------------------------------------- reflexivity and transitivity

  lemma EvolvesReflexive(db: Db)
    ensures Evolves(db, db)
  {
  }

  lemma ReceiptsEvolveTransitively(a: Receipts, b: Receipts, c: Receipts, issued: set<Uuid>, issued': set<Uuid>)
    requires ReceiptsEvolve(a, b, issued) && ReceiptsEvolve(b, c, issued') && issued <= issued'
    ensures ReceiptsEvolve(a, c, issued)
  {
    forall k | k in a ensures k in c && ReceiptEvolves(a[k], c[k], issued) {
      assert ReceiptEvolves(a[k], b[k], issued) && ReceiptEvolves(b[k], c[k], issued');
    }
    forall k | k in c && k !in a ensures c[k].operationId !in issued {
      assert k in b ==> ReceiptEvolves(b[k], c[k], issued');
    }
  }

  lemma ServicesEvolveTransitively(a: Services, b: Services, c: Services)
    requires ServicesEvolve(a, b) && ServicesEvolve(b, c)
    ensures ServicesEvolve(a, c)
  {
    forall s | s in a ensures s in c && ServiceEvolves(a[s], c[s]) {
      assert ServiceEvolves(a[s], b[s]) && ServiceEvolves(b[s], c[s]);
    }
  }

  lemma CredentialsEvolveTransitively(a: Credentials, b: Credentials, c: Credentials)
    requires CredentialsEvolve(a, b) && CredentialsEvolve(b, c)
    ensures CredentialsEvolve(a, c)
  {
    forall id | id in a ensures id in c && OnlyRevoked(a[id], c[id]) {
      assert OnlyRevoked(a[id], b[id]) && OnlyRevoked(b[id], c[id]);
    }
  }

  lemma EvolvesTransitive(a: Db, b: Db, c: Db)
    requires Evolves(a, b) && Evolves(b, c)
    ensures Evolves(a, c)
  {
    ReceiptsEvolveTransitively(a.receipts, b.receipts, c.receipts, a.issued, b.issued);
    ServicesEvolveTransitively(a.services, b.services, c.services);
    CredentialsEvolveTransitively(a.credentials, b.credentials, c.credentials);
  }

  // ---------------------------------------------------------------- each transaction

  lemma ReceiptAddedEvolves(receipts: Receipts, key: Uuid, row: ReceiptRow, issued: set<Uuid>)
    requires key !in receipts && row.operationId !in issued
    ensures ReceiptsEvolve(receipts, receipts[key := row], issued)
  {
  }

  /** Changing receipts, reservations, names and issued ids alone. */
  lemma ReceiptChangeEvolves(db: Db, after: Db)
    requires ReceiptsEvolve(db.receipts, after.receipts, db.issued) && db.issued <= after.issued
    requires after.services == db.services && after.buckets == db.buckets && after.credentials == db.credentials
    requires after.clock == db.clock && after.audit == db.audit && after.limits == db.limits
    ensures Evolves(db, after)
  {
    EvolvesReflexive(db);
  }

  lemma ReserveEvolves(db: Db, cmd: Command, ids: FreshIds, names: Names)
    requires cmd.operation.key !in db.receipts && ids.operationId !in db.issued
    ensures Evolves(db, Reserve(db, cmd, ids, names))
  {
    ReceiptAddedEvolves(db.receipts, cmd.operation.key, NewReceipt(db, cmd.operation.identity, ids.operationId),
                        db.issued);
    ReceiptChangeEvolves(db, Reserve(db, cmd, ids, names));
  }

  lemma TakeOverEvolves(db: Db, key: Uuid, operationId: Uuid)
    requires InFlight(db.receipts, key) && operationId !in db.issued
    ensures Evolves(db, TakeOver(db, key, operationId))
  {
  }

  lemma RenewedEvolves(db: Db, key: Uuid)
    requires InFlight(db.receipts, key)
    ensures Evolves(db, Renewed(db, key))
  {
  }

  lemma FinishedEvolves(receipts: Receipts, key: Uuid, response: StoredHttpResponse, issued: set<Uuid>)
    requires InFlight(receipts, key)
    ensures ReceiptsEvolve(receipts, Finished(receipts, key, response), issued)
  {
  }

  lemma ServiceReconciledEvolves(services: Services, buckets: Buckets, names: Names, cmd: Command, operationId: Uuid)
    requires cmd.payload.Reconcile? && ServiceAcceptsReconcile(services, cmd) && services.Keys == buckets.Keys
    requires cmd.ServiceId() in services ==>
               && ServiceOk(services[cmd.ServiceId()], buckets[cmd.ServiceId()])
               && ReconcileStands(services, buckets, names, cmd.operation.identity, cmd.payload.generation,
                                  cmd.payload.name, cmd.payload.spec)
    ensures ServicesEvolve(services, services[cmd.ServiceId() := ReconciledService(cmd, operationId)])
  {
  }

  /** What the invariant says about the service of an operation in hand. */
  lemma CurrentGrant(db: Db, operation: OperationRequest, operationId: Uuid)
    requires Inv(db) && RequireInProgress(db.receipts, operation, operationId).Pass?
    ensures Stands(db.services, db.buckets, db.names, db.credentials, operation.identity)
    ensures IdentityOk(operation.identity)
    ensures db.services.Keys == db.buckets.Keys
    ensures operation.identity.serviceId in db.services ==>
              ServiceOk(db.services[operation.identity.serviceId], db.buckets[operation.identity.serviceId])
  {
    CurrentReceipt(db.receipts, operation, operationId);
    assert ReceiptOk(operation.key, db.receipts[operation.key]);
  }

  lemma ReconciledEvolves(db: Db, cmd: Command, operationId: Uuid, physical: string, response: StoredHttpResponse,
                          audit: AuditEvent)
    requires WellFormed(cmd) && cmd.payload.Reconcile? && db.services.Keys == db.buckets.Keys
    requires Stands(db.services, db.buckets, db.names, db.credentials, cmd.operation.identity)
    requires cmd.ServiceId() in db.services ==> ServiceOk(db.services[cmd.ServiceId()], db.buckets[cmd.ServiceId()])
    requires ReconcileCommits(db, cmd, operationId, physical, response, audit)
    ensures Evolves(db, Reconciled(db, cmd, operationId, physical,
                                   Finished(db.receipts, cmd.operation.key, response), audit))
  {
    CurrentReceipt(db.receipts, cmd.operation, operationId);
    FinishedEvolves(db.receipts, cmd.operation.key, response, db.issued);
    ServiceReconciledEvolves(db.services, db.buckets, db.names, cmd, operationId);
    EvolvesReflexive(db);
  }

  lemma RemovedEvolves(db: Db, cmd: Command, operationId: Uuid, response: StoredHttpResponse, audit: AuditEvent)
    requires WellFormed(cmd) && cmd.payload.Delete?
    requires Stands(db.services, db.buckets, db.names, db.credentials, cmd.operation.identity)
    requires DeleteCommits(db, cmd, operationId, response, audit)
    ensures Evolves(db, Removed(db, cmd, operationId, Finished(db.receipts, cmd.operation.key, response), audit))
  {
    CurrentReceipt(db.receipts, cmd.operation, operationId);
    FinishedEvolves(db.receipts, cmd.operation.key, response, db.issued);
    RevokeAllOnlyRevokes(db.credentials, cmd.ServiceId(), db.clock, cmd.operation.identity.principalId);
    EvolvesReflexive(db);
  }

  lemma IssuedEvolves(db: Db, cmd: Command, operationId: Uuid, credential: NewCredential,
                      response: StoredHttpResponse, audit: AuditEvent)
    requires cmd.payload.CreateCredential? && CreateCommits(db, cmd, operationId, credential, response, audit)
    ensures Evolves(db, Issued(db, cmd, operationId, credential,
                               Finished(db.receipts, cmd.operation.key, response), audit))
  {
    CurrentReceipt(db.receipts, cmd.operation, operationId);
    FinishedEvolves(db.receipts, cmd.operation.key, response, db.issued);
  }

  lemma WithdrawnEvolves(db: Db, cmd: Command, operationId: Uuid, response: StoredHttpResponse, audit: AuditEvent)
    requires cmd.payload.RevokeCredential? && RevokeCommits(db, cmd, operationId, response, audit)
    ensures Evolves(db, Withdrawn(db, cmd, Finished(db.receipts, cmd.operation.key, response), audit))
  {
    CurrentReceipt(db.receipts, cmd.operation, operationId);
    FinishedEvolves(db.receipts, cmd.operation.key, response, db.issued);
    RevokedOnlyRevokes(db.credentials, cmd.payload.credentialId, db.clock, cmd.operation.identity.principalId);
  }

  lemma AbandonedEvolves(db: Db, operation: OperationRequest, operationId: Uuid, response: StoredHttpResponse,
                         audit: AuditEvent)
    requires MayFinish(db, operation, operationId, response, audit)
    ensures Evolves(db, Abandoned(db, operation, operationId, Finished(db.receipts, operation.key, response), audit))
  {
    CurrentReceipt(db.receipts, operation, operationId);
    FinishedEvolves(db.receipts, operation.key, response, db.issued);
  }

  lemma MeasuredEvolves(db: Db, s: Uuid, row: BucketRow)
    requires s in db.buckets && row.bucketName == db.buckets[s].bucketName
    ensures Evolves(db, Measured(db, s, row))
  {
    EvolvesReflexive(db);
  }

  lemma ClockAndAuditEvolve(db: Db, seconds: nat, audit: seq<AuditEvent>)
    requires db.audit <= audit
    ensures Evolves(db, db.(clock := db.clock + seconds)) && Evolves(db, db.(audit := audit))
  {
    EvolvesReflexive(db);
  }

  lemma ServiceChangeEvolves(db: Db, effect: Effect)
    requires Inv(db) && Enabled(db, effect) && (effect.Reconciles? || effect.Removes?)
    ensures Evolves(db, Perform(db, effect))
  {
    CurrentGrant(db, effect.cmd.operation, effect.operationId);
    match effect {
      case Reconciles(cmd, id, physical, response, audit) =>
        ReconciledEvolves(db, cmd, id, physical, response, audit);
      case Removes(cmd, id, response, audit) => RemovedEvolves(db, cmd, id, response, audit);
    }
  }

  lemma CredentialChangeEvolves(db: Db, effect: Effect)
    requires Enabled(db, effect) && (effect.Issues? || effect.Withdraws?)
    ensures Evolves(db, Perform(db, effect))
  {
    match effect {
      case Issues(cmd, id, credential, response, audit) => IssuedEvolves(db, cmd, id, credential, response, audit);
      case Withdraws(cmd, id, response, audit) => WithdrawnEvolves(db, cmd, id, response, audit);
    }
  }

  lemma FinishingEvolves(db: Db, effect: Effect)
    requires Inv(db) && Enabled(db, effect) && effect.Finishing()
    ensures Evolves(db, Perform(db, effect))
  {
    if effect.Reconciles? || effect.Removes? {
      ServiceChangeEvolves(db, effect);
    } else if effect.Fails? {
      AbandonedEvolves(db, effect.operation, effect.operationId, effect.response, effect.audit);
    } else {
      CredentialChangeEvolves(db, effect);
    }
  }

  lemma GrantingEvolves(db: Db, effect: Effect)
    requires Inv(db) && Enabled(db, effect) && (effect.Grants? || effect.Retakes? || effect.Renews?)
    ensures Evolves(db, Perform(db, effect))
  {
    match effect {
      case Grants(cmd, ids) => ReserveEvolves(db, cmd, ids, GrantedNames(db, cmd, ids));
      case Retakes(cmd, id) => TakeOverEvolves(db, cmd.operation.key, id);
      case Renews(operation, id) =>
        CurrentReceipt(db.receipts, operation, id);
        RenewedEvolves(db, operation.key);
    }
  }

  lemma RecordingEvolves(db: Db, effect: Effect)
    requires Enabled(db, effect) && (effect.Ticks? || effect.Notes? || effect.Measures? || effect.Idle?)
    ensures Evolves(db, Perform(db, effect))
  {
    match effect {
      case Idle => EvolvesReflexive(db);
      case Ticks(seconds) => ClockAndAuditEvolve(db, seconds, db.audit);
      case Notes(audit) => ClockAndAuditEvolve(db, 0, db.audit + [audit]);
      case Measures(s, row) => MeasuredEvolves(db, s, row);
    }
  }

  lemma PerformEvolves(db: Db, effect: Effect)
    requires Inv(db) && Enabled(db, effect)
    ensures Evolves(db, Perform(db, effect))
  {
    if effect.Finishing() {
      FinishingEvolves(db, effect);
    } else if effect.Grants? || effect.Retakes? || effect.Renews? {
      GrantingEvolves(db, effect);
    } else {
      RecordingEvolves(db, effect);
    }
  }

  /** Every transaction only moves the tables forward. */
  lemma ApplyEvolves(db: Db, tx: Tx)
    requires Inv(db) && Admissible(db, tx)
    ensures Evolves(db, Apply(db, tx))
  {
    ApplyPerforms(db, tx);
    PerformEvolves(db, EffectOf(db, tx));
  }
}
