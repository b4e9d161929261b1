/** Finishing an operation, by completion or failure, keeps the invariant. */
module Completions {
  import opened Types
  import opened Domain
  import opened StoreSpec
  import opened Invariant
  import opened Tables

  /** The caller presents the current operation id of an unfinished receipt, with a response and an audit event the
      tables accept. */
  ghost predicate MayFinish(db: Db, operation: OperationRequest, operationId: Uuid, response: StoredHttpResponse,
                            audit: AuditEvent)
  {
    && RequireInProgress(db.receipts, operation, operationId).Pass?
    && 100 <= response.status <= 599
    && AuditAccepted(audit)
  }

  // ---------------------------------------------------------------- receipts

  lemma CurrentReceipt(receipts: Receipts, operation: OperationRequest, operationId: Uuid)
    requires RequireInProgress(receipts, operation, operationId).Pass?
    ensures InFlight(receipts, operation.key)
    ensures receipts[operation.key].identity == operation.identity
    ensures receipts[operation.key].operationId == operationId
  {
  }

  lemma FinishKeepsReceipts(receipts: Receipts, issued: set<Uuid>, key: Uuid, response: StoredHttpResponse)
    requires ReceiptsOk(receipts, issued) && InFlight(receipts, key) && 100 <= response.status <= 599
    ensures ReceiptsOk(Finished(receipts, key, response), issued)
  {
    FinishedIsOk(key, receipts[key], response);
    ReceiptChanged(receipts, issued, key, FinishedRow(key, receipts[key], response), issued);
  }

  /** Finishing an operation of another service leaves a standing grant alone. */
  lemma OthersElsewhere(receipts: Receipts, key: Uuid, response: StoredHttpResponse, other: Uuid)
    requires OnePerService(receipts) && InFlight(receipts, key)
    requires InFlight(Finished(receipts, key, response), other)
    ensures other != key && InFlight(receipts, other)
    ensures receipts[other].identity.serviceId != receipts[key].identity.serviceId
  {
    assert InFlight(receipts, other);
  }

  // ---------------------------------------------------------------- reservations

  lemma CorrespondenceDropped(reservations: Reservations, receipts: Receipts, issued: set<Uuid>, key: Uuid,
                              row: ReceiptRow)
    requires Correspond(reservations, receipts) && ReceiptsOk(receipts, issued) && InFlight(receipts, key)
    requires row.state != InProgress
    ensures Correspond(reservations - {receipts[key].operationId}, receipts[key := row])
  {
    var dropped := receipts[key].operationId;
    var receipts', reservations' := receipts[key := row], reservations - {dropped};
    forall o | o in reservations' ensures exists k :: Owns(receipts', k, o) {
      var k :| Owns(receipts, k, o);
      assert Owns(receipts', k, o);
    }
    forall k | Creating(receipts', k)
      ensures receipts'[k].operationId in reservations'
      ensures ReservationFor(reservations'[receipts'[k].operationId], receipts'[k].identity)
    {
      assert Creating(receipts, k) && k != key;
    }
  }

  /** Distinct reservations belong to distinct services. */
  lemma ReservationsElsewhere(reservations: Reservations, receipts: Receipts, o: Uuid, p: Uuid)
    requires Correspond(reservations, receipts) && OnePerService(receipts)
    requires o in reservations && p in reservations && o != p
    ensures reservations[o].serviceId != reservations[p].serviceId
  {
    var j :| Owns(receipts, j, o);
    var k :| Owns(receipts, k, p);
  }

  lemma DropShrinksCounts(reservations: Reservations, o: Uuid, s: Uuid, organizationId: Uuid)
    ensures |ReservedInBucket(reservations - {o}, s)| <= |ReservedInBucket(reservations, s)|
    ensures |ReservedInOrganization(reservations - {o}, organizationId)|
            <= |ReservedInOrganization(reservations, organizationId)|
  {
    FewerElements(ReservedInBucket(reservations - {o}, s), ReservedInBucket(reservations, s));
    FewerElements(ReservedInOrganization(reservations - {o}, organizationId),
                  ReservedInOrganization(reservations, organizationId));
  }

  lemma DropKeepsLimits(credentials: Credentials, reservations: Reservations, limits: CredentialLimits, o: Uuid)
    requires LimitsHold(credentials, reservations, limits)
    ensures LimitsHold(credentials, reservations - {o}, limits)
  {
    var after := reservations - {o};
    forall s ensures InBucket(credentials, after, s) <= limits.maxCredentialsPerBucket {
      DropShrinksCounts(reservations, o, s, NIL);
      assert InBucket(credentials, reservations, s) <= limits.maxCredentialsPerBucket;
    }
    forall org ensures InOrganization(credentials, after, org) <= limits.maxTotalCredentials {
      DropShrinksCounts(reservations, o, NIL, org);
      assert InOrganization(credentials, reservations, org) <= limits.maxTotalCredentials;
    }
  }

  // ---------------------------------------------------------------- credentials that change status

  /** The same credentials, some of them revoked. */
  ghost predicate OnlyRevokes(before: Credentials, after: Credentials) {
    && before.Keys == after.Keys
    && (forall c | c in before :: OnlyRevoked(before[c], after[c]))
  }

  ghost predicate OnlyRevoked(before: CredentialRow, after: CredentialRow) {
    && after.serviceId == before.serviceId
    && after.organizationId == before.organizationId
    && after.projectId == before.projectId
    && after.name == before.name
    && after.garageKeyId == before.garageKeyId
    && after.accessKeyId == before.accessKeyId
    && after.permissions == before.permissions
    && (after.status == Active ==> before.status == Active)
    && (after == before || (after.status == Revoked && after.revokedAt.Some? && after.revokedBy.Some?))
  }

  lemma RevokingShrinksCounts(before: Credentials, after: Credentials, s: Uuid, organizationId: Uuid)
    requires OnlyRevokes(before, after)
    ensures |ActiveInBucket(after, s)| <= |ActiveInBucket(before, s)|
    ensures |ActiveInOrganization(after, organizationId)| <= |ActiveInOrganization(before, organizationId)|
  {
    FewerElements(ActiveInBucket(after, s), ActiveInBucket(before, s));
    FewerElements(ActiveInOrganization(after, organizationId), ActiveInOrganization(before, organizationId));
  }

  /** Revoking only lowers the counts. */
  lemma RevokingKeepsLimits(before: Credentials, after: Credentials, reservations: Reservations,
                            limits: CredentialLimits)
    requires LimitsHold(before, reservations, limits) && OnlyRevokes(before, after)
    ensures LimitsHold(after, reservations, limits)
  {
    forall s ensures InBucket(after, reservations, s) <= limits.maxCredentialsPerBucket {
      RevokingShrinksCounts(before, after, s, NIL);
      assert InBucket(before, reservations, s) <= limits.maxCredentialsPerBucket;
    }
    forall org ensures InOrganization(after, reservations, org) <= limits.maxTotalCredentials {
      RevokingShrinksCounts(before, after, NIL, org);
      assert InOrganization(before, reservations, org) <= limits.maxTotalCredentials;
    }
  }

  lemma RevokingKeepsReservations(before: Credentials, after: Credentials, reservations: Reservations,
                                  issued: set<Uuid>)
    requires ReservationsOk(reservations, before, issued) && OnlyRevokes(before, after)
    ensures ReservationsOk(reservations, after, issued)
  {
    forall o | o in reservations ensures ReservationUnused(after, reservations[o]) {
      assert ReservationUnused(before, reservations[o]);
    }
  }

  // ---------------------------------------------------------------- reconcile

  lemma ServicesReconciled(services: Services, buckets: Buckets, cmd: Command, operationId: Uuid, physical: string)
    requires ServicesOk(services, buckets) && cmd.payload.Reconcile? && cmd.payload.generation > 0
    requires ServiceAcceptsReconcile(services, cmd)
    requires cmd.payload.spec.quotaBytes <= I64_MAX && cmd.payload.spec.quotaObjects <= I64_MAX
    requires !NameTaken(services, cmd.ServiceId(), cmd.operation.identity.projectId, cmd.payload.name)
    requires !BucketNameTaken(buckets, cmd.ServiceId(), cmd.payload.spec.bucketName)
    requires !PhysicalIdTaken(buckets, cmd.ServiceId(), physical)
    ensures ServicesOk(services[cmd.ServiceId() := ReconciledService(cmd, operationId)],
                       buckets[cmd.ServiceId() := ReconciledBucket(buckets, cmd, physical, cmd.payload.spec.quotaBytes,
                                                                   cmd.payload.spec.quotaObjects)])
  {
  }

  /** A service that is written under its own reserved name keeps every name owned. */
  lemma NamesReconciled(services: Services, buckets: Buckets, names: Names, receipts: Receipts, key: Uuid, s: Uuid,
                        service: ServiceRow, bucket: BucketRow, response: StoredHttpResponse)
    requires NamesOk(services, buckets, names, receipts) && OnePerService(receipts)
    requires InFlight(receipts, key) && receipts[key].identity.serviceId == s
    requires service.phase == Ready && HoldsName(names, bucket.bucketName, s)
    ensures NamesOk(services[s := service], buckets[s := bucket], KeepOnlyName(names, s, bucket.bucketName),
                    Finished(receipts, key, response))
  {
    var services', buckets' := services[s := service], buckets[s := bucket];
    var names' := KeepOnlyName(names, s, bucket.bucketName);
    var receipts' := Finished(receipts, key, response);
    forall n | n in names' ensures NameOwned(services', buckets', receipts', n, names'[n]) {
      assert NameOwned(services, buckets, receipts, n, names[n]);
      if k :| names[n] != s && AsksFor(receipts, k, names[n], n) {
        assert AsksFor(receipts', k, names[n], n);
      }
    }
    forall t | t in buckets' && Live(services', t) ensures HoldsName(names', buckets'[t].bucketName, t) {
      assert t != s ==> HoldsName(names, buckets[t].bucketName, t);
    }
  }

  lemma CredentialsReconciled(services: Services, credentials: Credentials, issued: set<Uuid>, cmd: Command,
                              operationId: Uuid)
    requires CredentialsOk(services, credentials, issued) && cmd.payload.Reconcile?
    requires ServiceAcceptsReconcile(services, cmd)
    ensures CredentialsOk(services[cmd.ServiceId() := ReconciledService(cmd, operationId)], credentials, issued)
  {
    var after := services[cmd.ServiceId() := ReconciledService(cmd, operationId)];
    forall c | c in credentials ensures CredentialOk(after, credentials[c]) {
      assert CredentialOk(services, credentials[c]);
    }
  }

  /** A grant on one service does not depend on the rows of another. */
  lemma StandsElsewhere(services: Services, buckets: Buckets, names: Names, credentials: Credentials,
                        services': Services, buckets': Buckets, names': Names, credentials': Credentials,
                        identity: Identity)
    requires Stands(services, buckets, names, credentials, identity)
    requires identity.serviceId in services <==> identity.serviceId in services'
    requires identity.serviceId in services ==> services'[identity.serviceId] == services[identity.serviceId]
    requires identity.serviceId in buckets ==>
               identity.serviceId in buckets' && buckets'[identity.serviceId].bucketName == buckets[identity.serviceId].bucketName
    requires forall n | n in names && names[n] == identity.serviceId :: HoldsName(names', n, identity.serviceId)
    requires forall c | c in credentials :: c in credentials' && credentials'[c].serviceId == credentials[c].serviceId
    ensures Stands(services', buckets', names', credentials', identity)
  {
  }

  lemma ReconcileKeepsStanding(db: Db, cmd: Command, key: Uuid, service: ServiceRow, bucket: BucketRow,
                               bucketName: string, response: StoredHttpResponse)
    requires GrantsStand(db.services, db.buckets, db.names, db.credentials, db.receipts)
    requires OnePerService(db.receipts) && InFlight(db.receipts, key)
    requires db.receipts[key].identity.serviceId == cmd.ServiceId()
    ensures GrantsStand(db.services[cmd.ServiceId() := service], db.buckets[cmd.ServiceId() := bucket],
                        KeepOnlyName(db.names, cmd.ServiceId(), bucketName), db.credentials,
                        Finished(db.receipts, key, response))
  {
    var s := cmd.ServiceId();
    var receipts := Finished(db.receipts, key, response);
    var services, buckets := db.services[s := service], db.buckets[s := bucket];
    var names := KeepOnlyName(db.names, s, bucketName);
    forall k | InFlight(receipts, k) ensures Stands(services, buckets, names, db.credentials, receipts[k].identity) {
      OthersElsewhere(db.receipts, key, response, k);
      StandsElsewhere(db.services, db.buckets, db.names, db.credentials, services, buckets, names, db.credentials,
                      receipts[k].identity);
    }
  }

  /** Exactly when a reconcile commits. */
  ghost predicate ReconcileCommits(db: Db, cmd: Command, operationId: Uuid, physical: string,
                                   response: StoredHttpResponse, audit: AuditEvent)
    requires cmd.payload.Reconcile?
  {
    && MayFinish(db, cmd.operation, operationId, response, audit)
    && physical != [] && ByteLength(physical) <= 256
    && cmd.payload.spec.quotaBytes <= I64_MAX && cmd.payload.spec.quotaObjects <= I64_MAX
    && ServiceChecks(cmd.payload.name, cmd.payload.generation)
    && ServiceAcceptsReconcile(db.services, cmd)
    && !NameTaken(db.services, cmd.ServiceId(), cmd.operation.identity.projectId, cmd.payload.name)
    && BucketChecks(cmd.payload.spec.bucketName, cmd.payload.spec.region, cmd.payload.spec.quotaBytes,
                    cmd.payload.spec.quotaObjects)
    && !BucketNameTaken(db.buckets, cmd.ServiceId(), cmd.payload.spec.bucketName)
    && !PhysicalIdTaken(db.buckets, cmd.ServiceId(), physical)
  }

  lemma ReconcileOutcome(db: Db, cmd: Command, operationId: Uuid, physical: string, response: StoredHttpResponse,
                         audit: AuditEvent)
    requires cmd.payload.Reconcile?
    ensures var step := CompleteReconcileStep(db, cmd, operationId, physical, response, audit);
            if ReconcileCommits(db, cmd, operationId, physical, response, audit)
            then step == Step(Reconciled(db, cmd, operationId, physical,
                                         Finished(db.receipts, cmd.operation.key, response), audit), Ok(()))
            else step.db == db && step.reply.Err?
  {
  }

  lemma ReconciledKeepsInv(db: Db, cmd: Command, operationId: Uuid, physical: string, response: StoredHttpResponse,
                           audit: AuditEvent)
    requires Inv(db) && WellFormed(cmd) && cmd.payload.Reconcile?
    requires ReconcileCommits(db, cmd, operationId, physical, response, audit)
    ensures Inv(Reconciled(db, cmd, operationId, physical, Finished(db.receipts, cmd.operation.key, response), audit))
  {
    var s, key, spec := cmd.ServiceId(), cmd.operation.key, cmd.payload.spec;
    var service := ReconciledService(cmd, operationId);
    var bucket := ReconciledBucket(db.buckets, cmd, physical, spec.quotaBytes, spec.quotaObjects);
    CurrentReceipt(db.receipts, cmd.operation, operationId);
    assert Stands(db.services, db.buckets, db.names, db.credentials, db.receipts[key].identity);
    ServicesReconciled(db.services, db.buckets, cmd, operationId, physical);
    NamesReconciled(db.services, db.buckets, db.names, db.receipts, key, s, service, bucket, response);
    CredentialsReconciled(db.services, db.credentials, db.issued, cmd, operationId);
    ReconcileKeepsStanding(db, cmd, key, service, bucket, spec.bucketName, response);
    FinishKeepsReceipts(db.receipts, db.issued, key, response);
    CorrespondenceUntouched(db.reservations, db.receipts, key, FinishedRow(key, db.receipts[key], response));
  }

  // ---------------------------------------------------------------- delete

  lemma RevokeAllOnlyRevokes(credentials: Credentials, s: Uuid, clock: int, principalId: Uuid)
    ensures OnlyRevokes(credentials, RevokeAll(credentials, s, clock, principalId))
    ensures forall c | c in credentials && credentials[c].serviceId == s ::
              RevokeAll(credentials, s, clock, principalId)[c].status == Revoked
  {
  }

  lemma ServicesDeleted(services: Services, buckets: Buckets, s: Uuid, generation: I64, operationId: Uuid)
    requires ServicesOk(services, buckets) && s in services && generation > 0
    ensures ServicesOk(services[s := DeletedService(services[s], generation, operationId)], buckets)
  {
  }

  lemma NamesDeleted(services: Services, buckets: Buckets, names: Names, receipts: Receipts, key: Uuid, s: Uuid,
                     service: ServiceRow, response: StoredHttpResponse)
    requires NamesOk(services, buckets, names, receipts) && OnePerService(receipts)
    requires InFlight(receipts, key) && receipts[key].identity.serviceId == s
    requires service.phase == Deleted && s in services
    ensures NamesOk(services[s := service], buckets, DropNames(names, s),
                    Finished(receipts, key, response))
  {
    var services', names' := services[s := service], DropNames(names, s);
    var receipts' := Finished(receipts, key, response);
    forall n | n in names' ensures NameOwned(services', buckets, receipts', n, names'[n]) {
      assert NameOwned(services, buckets, receipts, n, names[n]);
      if k :| AsksFor(receipts, k, names[n], n) {
        assert AsksFor(receipts', k, names[n], n);
      }
    }
    forall t | t in buckets && Live(services', t) ensures HoldsName(names', buckets[t].bucketName, t) {
      assert HoldsName(names, buckets[t].bucketName, t);
    }
  }

  lemma CredentialsDeleted(services: Services, credentials: Credentials, issued: set<Uuid>, s: Uuid, clock: int,
                           principalId: Uuid, generation: I64, operationId: Uuid)
    requires CredentialsOk(services, credentials, issued) && s in services
    ensures CredentialsOk(services[s := DeletedService(services[s], generation, operationId)],
                          RevokeAll(credentials, s, clock, principalId), issued)
  {
    RevokeAllOnlyRevokes(credentials, s, clock, principalId);
    var services' := services[s := DeletedService(services[s], generation, operationId)];
    var after := RevokeAll(credentials, s, clock, principalId);
    forall c | c in after ensures CredentialOk(services', after[c]) {
      assert CredentialOk(services, credentials[c]);
    }
  }

  lemma DeleteKeepsStanding(db: Db, key: Uuid, s: Uuid, service: ServiceRow, credentials: Credentials,
                            response: StoredHttpResponse)
    requires GrantsStand(db.services, db.buckets, db.names, db.credentials, db.receipts)
    requires OnePerService(db.receipts) && InFlight(db.receipts, key)
    requires db.receipts[key].identity.serviceId == s && OnlyRevokes(db.credentials, credentials)
    ensures GrantsStand(db.services[s := service], db.buckets, DropNames(db.names, s), credentials,
                        Finished(db.receipts, key, response))
  {
    var receipts := Finished(db.receipts, key, response);
    var services, names := db.services[s := service], DropNames(db.names, s);
    forall k | InFlight(receipts, k) ensures Stands(services, db.buckets, names, credentials, receipts[k].identity) {
      OthersElsewhere(db.receipts, key, response, k);
      StandsElsewhere(db.services, db.buckets, db.names, db.credentials, services, db.buckets, names, credentials,
                      receipts[k].identity);
    }
  }

  /** Exactly when a delete commits. */
  ghost predicate DeleteCommits(db: Db, cmd: Command, operationId: Uuid, response: StoredHttpResponse,
                                audit: AuditEvent)
  {
    && MayFinish(db, cmd.operation, operationId, response, audit)
    && ServiceAcceptsDelete(db.services, cmd.operation.identity)
  }

  lemma DeleteOutcome(db: Db, cmd: Command, operationId: Uuid, response: StoredHttpResponse, audit: AuditEvent)
    requires cmd.payload.Delete?
    ensures var step := CompleteDeleteStep(db, cmd, operationId, response, audit);
            if DeleteCommits(db, cmd, operationId, response, audit)
            then step == Step(Removed(db, cmd, operationId, Finished(db.receipts, cmd.operation.key, response), audit),
                              Ok(()))
            else step.db == db && step.reply.Err?
  {
  }

  lemma RemovedKeepsInv(db: Db, cmd: Command, operationId: Uuid, response: StoredHttpResponse, audit: AuditEvent)
    requires Inv(db) && WellFormed(cmd) && cmd.payload.Delete?
    requires DeleteCommits(db, cmd, operationId, response, audit)
    ensures Inv(Removed(db, cmd, operationId, Finished(db.receipts, cmd.operation.key, response), audit))
  {
    var identity := cmd.operation.identity;
    var s, key, g := identity.serviceId, cmd.operation.key, cmd.payload.generation;
    var service := DeletedService(db.services[s], g, operationId);
    var credentials := RevokeAll(db.credentials, s, db.clock, identity.principalId);
    CurrentReceipt(db.receipts, cmd.operation, operationId);
    assert Stands(db.services, db.buckets, db.names, db.credentials, db.receipts[key].identity);
    assert ServiceOk(db.services[s], db.buckets[s]);
    RevokeAllOnlyRevokes(db.credentials, s, db.clock, identity.principalId);
    ServicesDeleted(db.services, db.buckets, s, g, operationId);
    NamesDeleted(db.services, db.buckets, db.names, db.receipts, key, s, service, response);
    CredentialsDeleted(db.services, db.credentials, db.issued, s, db.clock, identity.principalId, g, operationId);
    DeleteKeepsStanding(db, key, s, service, credentials, response);
    FinishKeepsReceipts(db.receipts, db.issued, key, response);
    CorrespondenceUntouched(db.reservations, db.receipts, key, FinishedRow(key, db.receipts[key], response));
    RevokingKeepsReservations(db.credentials, credentials, db.reservations, db.issued);
    RevokingKeepsLimits(db.credentials, credentials, db.reservations, db.limits);
  }

  // ---------------------------------------------------------------- create credential

  lemma CredentialAdded(services: Services, credentials: Credentials, issued: set<Uuid>, id: Uuid, row: CredentialRow)
    requires CredentialsOk(services, credentials, issued) && id in issued && CredentialOk(services, row)
    requires !CredentialTaken(credentials, id, row)
    ensures CredentialsOk(services, credentials[id := row], issued)
  {
  }

  lemma BucketCountAfterIssuing(credentials: Credentials, id: Uuid, row: CredentialRow, s: Uuid)
    requires id !in credentials && row.status == Active
    ensures |ActiveInBucket(credentials[id := row], s)|
            == |ActiveInBucket(credentials, s)| + (if row.serviceId == s then 1 else 0)
  {
    var before, after := ActiveInBucket(credentials, s), ActiveInBucket(credentials[id := row], s);
    if row.serviceId == s {
      assert after == before + {id};
    } else {
      assert after == before;
    }
  }

  lemma OrganizationCountAfterIssuing(credentials: Credentials, id: Uuid, row: CredentialRow, organizationId: Uuid)
    requires id !in credentials && row.status == Active
    ensures |ActiveInOrganization(credentials[id := row], organizationId)|
            == |ActiveInOrganization(credentials, organizationId)|
               + (if row.organizationId == organizationId then 1 else 0)
  {
    var before := ActiveInOrganization(credentials, organizationId);
    var after := ActiveInOrganization(credentials[id := row], organizationId);
    if row.organizationId == organizationId {
      assert after == before + {id};
    } else {
      assert after == before;
    }
  }

  /** Turning a reservation into a credential conserves the counts of every bucket and organization. */
  lemma IssuingConservesCounts(credentials: Credentials, reservations: Reservations, id: Uuid, row: CredentialRow,
                               o: Uuid, s: Uuid, organizationId: Uuid)
    requires id !in credentials && row.status == Active && o in reservations
    requires reservations[o].serviceId == row.serviceId && reservations[o].organizationId == row.organizationId
    ensures InBucket(credentials[id := row], reservations - {o}, s) == InBucket(credentials, reservations, s)
    ensures InOrganization(credentials[id := row], reservations - {o}, organizationId)
            == InOrganization(credentials, reservations, organizationId)
  {
    var rest := reservations - {o};
    assert rest[o := reservations[o]] == reservations;
    BucketCountAfterIssuing(credentials, id, row, s);
    BucketCountAfterReserving(rest, o, reservations[o], s);
    OrganizationCountAfterIssuing(credentials, id, row, organizationId);
    OrganizationCountAfterReserving(rest, o, reservations[o], organizationId);
  }

  lemma IssuingKeepsLimits(credentials: Credentials, reservations: Reservations, limits: CredentialLimits, id: Uuid,
                           row: CredentialRow, o: Uuid)
    requires LimitsHold(credentials, reservations, limits)
    requires id !in credentials && row.status == Active && o in reservations
    requires reservations[o].serviceId == row.serviceId && reservations[o].organizationId == row.organizationId
    ensures LimitsHold(credentials[id := row], reservations - {o}, limits)
  {
    var credentials', reservations' := credentials[id := row], reservations - {o};
    forall s ensures InBucket(credentials', reservations', s) <= limits.maxCredentialsPerBucket {
      IssuingConservesCounts(credentials, reservations, id, row, o, s, NIL);
      assert InBucket(credentials, reservations, s) <= limits.maxCredentialsPerBucket;
    }
    forall org ensures InOrganization(credentials', reservations', org) <= limits.maxTotalCredentials {
      IssuingConservesCounts(credentials, reservations, id, row, o, NIL, org);
      assert InOrganization(credentials, reservations, org) <= limits.maxTotalCredentials;
    }
  }

  lemma IssuingKeepsReservations(reservations: Reservations, receipts: Receipts, credentials: Credentials,
                                 issued: set<Uuid>, o: Uuid, row: CredentialRow)
    requires ReservationsOk(reservations, credentials, issued) && Correspond(reservations, receipts)
    requires OnePerService(receipts) && o in reservations && row.serviceId == reservations[o].serviceId
    ensures ReservationsOk(reservations - {o}, credentials[reservations[o].credentialId := row], issued)
  {
    var after := credentials[reservations[o].credentialId := row];
    forall p | p in reservations - {o} ensures ReservationUnused(after, reservations[p]) {
      assert ReservationUnused(credentials, reservations[p]);
      ReservationsElsewhere(reservations, receipts, o, p);
    }
  }

  lemma StandingWithCredentials(db: Db, key: Uuid, credentials: Credentials, response: StoredHttpResponse)
    requires GrantsStand(db.services, db.buckets, db.names, db.credentials, db.receipts)
    requires InFlight(db.receipts, key)
    requires forall c | c in db.credentials :: c in credentials && credentials[c].serviceId == db.credentials[c].serviceId
    ensures GrantsStand(db.services, db.buckets, db.names, credentials,
                        Finished(db.receipts, key, response))
  {
    var receipts := Finished(db.receipts, key, response);
    forall k | InFlight(receipts, k) ensures Stands(db.services, db.buckets, db.names, credentials, receipts[k].identity) {
      assert InFlight(db.receipts, k);
      assert Stands(db.services, db.buckets, db.names, db.credentials, db.receipts[k].identity);
    }
  }

  lemma StandingWithNewCredential(db: Db, key: Uuid, id: Uuid, row: CredentialRow, response: StoredHttpResponse)
    requires GrantsStand(db.services, db.buckets, db.names, db.credentials, db.receipts)
    requires InFlight(db.receipts, key) && id !in db.credentials
    ensures GrantsStand(db.services, db.buckets, db.names, db.credentials[id := row],
                        Finished(db.receipts, key, response))
  {
    StandingWithCredentials(db, key, db.credentials[id := row], response);
  }

  /** Finishing an operation that is not a reconcile of a service under construction leaves every name owned. */
  lemma NamesAfterFinish(db: Db, key: Uuid, response: StoredHttpResponse)
    requires NamesOk(db.services, db.buckets, db.names, db.receipts)
    requires InFlight(db.receipts, key) && !db.receipts[key].identity.requestHash.body.Reconcile?
    ensures NamesOk(db.services, db.buckets, db.names, Finished(db.receipts, key, response))
  {
    NamesSurvive(db.services, db.buckets, db.names, db.receipts,
                 Finished(db.receipts, key, response));
  }

  /** A completion that commits names the reservation its operation owns. */
  lemma IssuedFromReservation(db: Db, cmd: Command, operationId: Uuid, credential: NewCredential)
    requires Inv(db) && WellFormed(cmd) && cmd.payload.CreateCredential?
    requires RequireInProgress(db.receipts, cmd.operation, operationId).Pass?
    requires Reserved(db.reservations, cmd, operationId, credential.id)
    ensures Creating(db.receipts, cmd.operation.key)
    ensures ReservationFor(db.reservations[operationId], cmd.operation.identity)
    ensures CredentialOk(db.services, NewCredentialRow(db, cmd, credential))
    ensures credential.id in db.issued && credential.id !in db.credentials
  {
    var key := cmd.operation.key;
    CurrentReceipt(db.receipts, cmd.operation, operationId);
    assert Creating(db.receipts, key);
    assert Stands(db.services, db.buckets, db.names, db.credentials, db.receipts[key].identity);
    assert ReservationUnused(db.credentials, db.reservations[operationId]);
  }

  /** Exactly when a credential is issued. */
  ghost predicate CreateCommits(db: Db, cmd: Command, operationId: Uuid, credential: NewCredential,
                                response: StoredHttpResponse, audit: AuditEvent)
    requires cmd.payload.CreateCredential?
  {
    && MayFinish(db, cmd.operation, operationId, response, audit)
    && MetadataValid(cmd, credential)
    && Reserved(db.reservations, cmd, operationId, credential.id)
    && CredentialChecks(NewCredentialRow(db, cmd, credential))
    && !CredentialTaken(db.credentials, credential.id, NewCredentialRow(db, cmd, credential))
  }

  lemma CreateOutcome(db: Db, cmd: Command, operationId: Uuid, credential: NewCredential,
                      response: StoredHttpResponse, audit: AuditEvent)
    requires cmd.payload.CreateCredential?
    ensures var step := CompleteCreateStep(db, cmd, operationId, credential, response, audit);
            if CreateCommits(db, cmd, operationId, credential, response, audit)
            then step == Step(Issued(db, cmd, operationId, credential,
                                     Finished(db.receipts, cmd.operation.key, response), audit), Ok(()))
            else step.db == db && step.reply.Err?
  {
  }

  lemma IssuedKeepsInv(db: Db, cmd: Command, operationId: Uuid, credential: NewCredential,
                       response: StoredHttpResponse, audit: AuditEvent)
    requires Inv(db) && WellFormed(cmd) && cmd.payload.CreateCredential?
    requires CreateCommits(db, cmd, operationId, credential, response, audit)
    ensures Inv(Issued(db, cmd, operationId, credential, Finished(db.receipts, cmd.operation.key, response), audit))
  {
    var key, row := cmd.operation.key, NewCredentialRow(db, cmd, credential);
    CurrentReceipt(db.receipts, cmd.operation, operationId);
    IssuedFromReservation(db, cmd, operationId, credential);
    FinishKeepsReceipts(db.receipts, db.issued, key, response);
    NamesAfterFinish(db, key, response);
    StandingWithNewCredential(db, key, credential.id, row, response);
    CorrespondenceDropped(db.reservations, db.receipts, db.issued, key, FinishedRow(key, db.receipts[key], response));
    CredentialAdded(db.services, db.credentials, db.issued, credential.id, row);
    IssuingKeepsReservations(db.reservations, db.receipts, db.credentials, db.issued, operationId, row);
    IssuingKeepsLimits(db.credentials, db.reservations, db.limits, credential.id, row, operationId);
  }

  // ---------------------------------------------------------------- revoke credential

  lemma RevokedOnlyRevokes(credentials: Credentials, id: Uuid, clock: int, principalId: Uuid)
    requires id in credentials
    ensures OnlyRevokes(credentials, credentials[id := RevokedRow(credentials[id], clock, principalId)])
  {
  }

  lemma RevokingKeepsCredentials(services: Services, before: Credentials, after: Credentials, issued: set<Uuid>)
    requires CredentialsOk(services, before, issued) && OnlyRevokes(before, after)
    ensures CredentialsOk(services, after, issued)
  {
    forall c | c in after ensures CredentialOk(services, after[c]) {
      assert CredentialOk(services, before[c]) && OnlyRevoked(before[c], after[c]);
    }
  }

  /** Exactly when a revocation commits. */
  ghost predicate RevokeCommits(db: Db, cmd: Command, operationId: Uuid, response: StoredHttpResponse,
                                audit: AuditEvent)
    requires cmd.payload.RevokeCredential?
  {
    && MayFinish(db, cmd.operation, operationId, response, audit)
    && cmd.payload.credentialId in db.credentials
    && db.credentials[cmd.payload.credentialId].serviceId == cmd.ServiceId()
  }

  lemma RevokeOutcome(db: Db, cmd: Command, operationId: Uuid, response: StoredHttpResponse, audit: AuditEvent)
    requires cmd.payload.RevokeCredential?
    ensures var step := CompleteRevokeStep(db, cmd, operationId, response, audit);
            if RevokeCommits(db, cmd, operationId, response, audit)
            then step == Step(Withdrawn(db, cmd, Finished(db.receipts, cmd.operation.key, response), audit), Ok(()))
            else step.db == db && step.reply.Err?
  {
  }

  lemma WithdrawnKeepsInv(db: Db, cmd: Command, operationId: Uuid, response: StoredHttpResponse, audit: AuditEvent)
    requires Inv(db) && WellFormed(cmd) && cmd.payload.RevokeCredential?
    requires RevokeCommits(db, cmd, operationId, response, audit)
    ensures Inv(Withdrawn(db, cmd, Finished(db.receipts, cmd.operation.key, response), audit))
  {
    var key := cmd.operation.key;
    CurrentReceipt(db.receipts, cmd.operation, operationId);
    var credentials := Withdrawn(db, cmd, db.receipts, audit).credentials;
    RevokedOnlyRevokes(db.credentials, cmd.payload.credentialId, db.clock, cmd.operation.identity.principalId);
    RevokingKeepsCredentials(db.services, db.credentials, credentials, db.issued);
    RevokingKeepsReservations(db.credentials, credentials, db.reservations, db.issued);
    RevokingKeepsLimits(db.credentials, credentials, db.reservations, db.limits);
    FinishKeepsReceipts(db.receipts, db.issued, key, response);
    NamesAfterFinish(db, key, response);
    CorrespondenceUntouched(db.reservations, db.receipts, key, FinishedRow(key, db.receipts[key], response));
    StandingWithCredentials(db, key, credentials, response);
  }

  // ---------------------------------------------------------------- failure

  lemma NamesAfterFailure(db: Db, key: Uuid, response: StoredHttpResponse)
    requires NamesOk(db.services, db.buckets, db.names, db.receipts) && OnePerService(db.receipts)
    requires db.services.Keys == db.buckets.Keys && InFlight(db.receipts, key)
    ensures NamesOk(db.services, db.buckets,
                    DropUnbackedNames(db.names, db.buckets, db.receipts[key].identity.serviceId),
                    Finished(db.receipts, key, response))
  {
    var s := db.receipts[key].identity.serviceId;
    var names := DropUnbackedNames(db.names, db.buckets, s);
    var receipts := Finished(db.receipts, key, response);
    forall n | n in names ensures NameOwned(db.services, db.buckets, receipts, n, names[n]) {
      assert NameOwned(db.services, db.buckets, db.receipts, n, db.names[n]);
      if k :| names[n] != s && AsksFor(db.receipts, k, names[n], n) {
        assert AsksFor(receipts, k, names[n], n);
      }
    }
    forall t | t in db.buckets && Live(db.services, t) ensures HoldsName(names, db.buckets[t].bucketName, t) {
      assert HoldsName(db.names, db.buckets[t].bucketName, t);
    }
  }

  lemma FailureKeepsStanding(db: Db, key: Uuid, response: StoredHttpResponse)
    requires GrantsStand(db.services, db.buckets, db.names, db.credentials, db.receipts)
    requires OnePerService(db.receipts) && InFlight(db.receipts, key)
    ensures GrantsStand(db.services, db.buckets,
                        DropUnbackedNames(db.names, db.buckets, db.receipts[key].identity.serviceId), db.credentials,
                        Finished(db.receipts, key, response))
  {
    var receipts := Finished(db.receipts, key, response);
    var names := DropUnbackedNames(db.names, db.buckets, db.receipts[key].identity.serviceId);
    forall k | InFlight(receipts, k) ensures Stands(db.services, db.buckets, names, db.credentials, receipts[k].identity) {
      OthersElsewhere(db.receipts, key, response, k);
      StandsElsewhere(db.services, db.buckets, db.names, db.credentials, db.services, db.buckets, names,
                      db.credentials, receipts[k].identity);
    }
  }

  lemma DropKeepsReservations(reservations: Reservations, credentials: Credentials, issued: set<Uuid>, o: Uuid)
    requires ReservationsOk(reservations, credentials, issued)
    ensures ReservationsOk(reservations - {o}, credentials, issued)
  {
  }

  lemma FailOutcome(db: Db, operation: OperationRequest, operationId: Uuid, response: StoredHttpResponse,
                    audit: AuditEvent)
    ensures var step := FailStep(db, operation, operationId, response, audit);
            if MayFinish(db, operation, operationId, response, audit) && response.failed
            then step == Step(Abandoned(db, operation, operationId, Finished(db.receipts, operation.key, response), audit),
                              Ok(()))
            else step.db == db && step.reply.Err?
  {
  }

  lemma AbandonedKeepsInv(db: Db, operation: OperationRequest, operationId: Uuid, response: StoredHttpResponse,
                          audit: AuditEvent)
    requires Inv(db) && MayFinish(db, operation, operationId, response, audit)
    ensures Inv(Abandoned(db, operation, operationId, Finished(db.receipts, operation.key, response), audit))
  {
    var key := operation.key;
    CurrentReceipt(db.receipts, operation, operationId);
    FinishKeepsReceipts(db.receipts, db.issued, key, response);
    NamesAfterFailure(db, key, response);
    FailureKeepsStanding(db, key, response);
    CorrespondenceDropped(db.reservations, db.receipts, db.issued, key, FinishedRow(key, db.receipts[key], response));
    DropKeepsReservations(db.reservations, db.credentials, db.issued, operationId);
    DropKeepsLimits(db.credentials, db.reservations, db.limits, operationId);
  }
}
