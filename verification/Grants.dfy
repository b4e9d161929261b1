/** Granting an operation, for the first time or by takeover, keeps the invariant. */
module Grants {
  import opened Types
  import opened Domain
  import opened StoreSpec
  import opened Invariant
  import opened Tables

  // ---------------------------------------------------------------- what admission establishes

  /** Validation does not look at the idempotency key. */
  lemma RouteFormedIdentity(cmd: Command)
    requires WellFormed(cmd) && ValidateCommand(cmd).None?
    ensures IdentityOk(cmd.operation.identity)
    ensures cmd.operation.identity.requestHash.body == cmd.payload
  {
    forall key ensures ValidateCommand(Command(OperationRequest(key, cmd.operation.identity), cmd.payload)).None? {
    }
  }

  lemma NoParallel(receipts: Receipts, serviceId: Uuid, key: Uuid, other: Uuid)
    requires RejectParallel(receipts, serviceId, key).Pass?
    requires InFlight(receipts, other) && other != key
    ensures receipts[other].identity.serviceId != serviceId
  {
    assert receipts[other].identity.serviceId == serviceId ==> other in Parallel(receipts, serviceId, key);
  }

  /** With no other unfinished operation on the service, reserving its name can only succeed or find the name taken:
      the per-service UNIQUE column never objects. */
  lemma NameReservationNeverCollidesWithItself(db: Db, cmd: Command)
    requires Inv(db) && cmd.payload.Reconcile? && WellFormed(cmd)
    requires RejectParallel(db.receipts, cmd.ServiceId(), cmd.operation.key).Pass?
    requires cmd.operation.key in db.receipts ==> db.receipts[cmd.operation.key].identity == cmd.operation.identity
    requires cmd.ServiceId() in db.services ==>
               Live(db.services, cmd.ServiceId()) && db.buckets[cmd.ServiceId()].bucketName == cmd.payload.spec.bucketName
    ensures !HoldsAnotherName(db.names, cmd.payload.spec.bucketName, cmd.ServiceId())
    ensures cmd.ServiceId() in db.services ==> HoldsName(db.names, cmd.payload.spec.bucketName, cmd.ServiceId())
  {
    var s, name := cmd.ServiceId(), cmd.payload.spec.bucketName;
    if n :| n in db.names && n != name && db.names[n] == s {
      assert NameOwned(db.services, db.buckets, db.receipts, n, s);
      var k :| AsksFor(db.receipts, k, s, n);
      if k != cmd.operation.key {
        NoParallel(db.receipts, s, cmd.operation.key, k);
      }
    }
  }

  /** What passing the checks of a reconcile says, apart from its name. */
  lemma ReconcileChecked(db: Db, cmd: Command)
    requires db.services.Keys == db.buckets.Keys && cmd.payload.Reconcile? && AdmitReconcile(db, cmd).Ok?
    ensures RejectParallel(db.receipts, cmd.ServiceId(), cmd.operation.key).Pass?
    ensures ReserveName(db.names, cmd.payload.spec.bucketName, cmd.ServiceId())
            == Ok(AdmitReconcile(db, cmd).value.names)
    ensures cmd.ServiceId() in db.services ==>
              var row := db.services[cmd.ServiceId()];
              && InScope(db.services, cmd.operation.identity)
              && db.buckets[cmd.ServiceId()].bucketName == cmd.payload.spec.bucketName
              && row.desiredGeneration <= cmd.payload.generation
              && (row.desiredGeneration == cmd.payload.generation ==>
                    row.name == cmd.payload.name && row.desiredSpec == cmd.payload.spec)
  {
  }

  lemma AdmittedReconcile(db: Db, cmd: Command)
    requires Inv(db) && WellFormed(cmd) && cmd.payload.Reconcile?
    requires cmd.operation.key in db.receipts ==> db.receipts[cmd.operation.key].identity == cmd.operation.identity
    requires AdmitReconcile(db, cmd).Ok?
    ensures var names := AdmitReconcile(db, cmd).value.names;
            && Stands(db.services, db.buckets, names, db.credentials, cmd.operation.identity)
            && (|| names == db.names
                || (&& cmd.ServiceId() !in db.services
                    && cmd.payload.spec.bucketName !in db.names
                    && names == db.names[cmd.payload.spec.bucketName := cmd.ServiceId()]))
    ensures RejectParallel(db.receipts, cmd.ServiceId(), cmd.operation.key).Pass?
  {
    ReconcileChecked(db, cmd);
    NameReservationNeverCollidesWithItself(db, cmd);
  }

  lemma AdmittedDelete(db: Db, cmd: Command)
    requires ServicesOk(db.services, db.buckets) && WellFormed(cmd) && cmd.payload.Delete?
    requires AdmitDelete(db, cmd).Ok?
    ensures AdmitDelete(db, cmd).value.names == db.names
    ensures Stands(db.services, db.buckets, db.names, db.credentials, cmd.operation.identity)
    ensures RejectParallel(db.receipts, cmd.ServiceId(), cmd.operation.key).Pass?
  {
  }

  lemma AdmittedCreate(db: Db, cmd: Command, credentialId: Uuid)
    requires ServicesOk(db.services, db.buckets) && WellFormed(cmd) && cmd.payload.CreateCredential?
    requires AdmitCreate(db, cmd, credentialId).Ok?
    ensures AdmitCreate(db, cmd, credentialId).value.names == db.names
    ensures Stands(db.services, db.buckets, db.names, db.credentials, cmd.operation.identity)
    ensures RejectParallel(db.receipts, cmd.ServiceId(), cmd.operation.key).Pass?
    ensures !DuplicateName(db, cmd.ServiceId(), cmd.payload.name)
    ensures InBucket(db.credentials, db.reservations, cmd.ServiceId())
            < Min(cmd.payload.limits.maxCredentialsPerBucket, db.limits.maxCredentialsPerBucket)
    ensures InOrganization(db.credentials, db.reservations, cmd.operation.identity.organizationId)
            < Min(cmd.payload.limits.maxTotalCredentials, db.limits.maxTotalCredentials)
  {
  }

  lemma AdmittedRevoke(db: Db, cmd: Command)
    requires ServicesOk(db.services, db.buckets) && WellFormed(cmd) && cmd.payload.RevokeCredential?
    requires AdmitRevoke(db, cmd).Ok?
    ensures AdmitRevoke(db, cmd).value.names == db.names
    ensures Stands(db.services, db.buckets, db.names, db.credentials, cmd.operation.identity)
    ensures RejectParallel(db.receipts, cmd.ServiceId(), cmd.operation.key).Pass?
  {
  }

  // ---------------------------------------------------------------- first grant

  /** A valid request that no receipt knows and that admission accepts. */
  ghost predicate Newcomer(db: Db, cmd: Command, credentialId: Uuid) {
    && ValidateCommand(cmd).None?
    && cmd.operation.key !in db.receipts
    && Admit(db, cmd, credentialId).Ok?
  }

  /** The situation of a first grant. */
  ghost predicate Granting(db: Db, cmd: Command, ids: FreshIds) {
    Inv(db) && WellFormed(cmd) && FreshFor(db.issued, ids) && Newcomer(db, cmd, ids.credentialId)
  }

  function GrantedNames(db: Db, cmd: Command, ids: FreshIds): Names
    requires Admit(db, cmd, ids.credentialId).Ok?
  {
    Admit(db, cmd, ids.credentialId).value.names
  }

  lemma Admitted(db: Db, cmd: Command, ids: FreshIds)
    requires Granting(db, cmd, ids)
    ensures var names := GrantedNames(db, cmd, ids);
            && Stands(db.services, db.buckets, names, db.credentials, cmd.operation.identity)
            && (|| names == db.names
                || (&& cmd.payload.Reconcile?
                    && cmd.ServiceId() !in db.services
                    && cmd.payload.spec.bucketName !in db.names
                    && names == db.names[cmd.payload.spec.bucketName := cmd.ServiceId()]))
    ensures forall k | InFlight(db.receipts, k) :: db.receipts[k].identity.serviceId != cmd.ServiceId()
  {
    match cmd.payload {
      case Reconcile(_, _, _) => AdmittedReconcile(db, cmd);
      case Delete(_, _) => AdmittedDelete(db, cmd);
      case CreateCredential(_, _, _) => AdmittedCreate(db, cmd, ids.credentialId);
      case RevokeCredential(_) => AdmittedRevoke(db, cmd);
    }
    forall k | InFlight(db.receipts, k) ensures db.receipts[k].identity.serviceId != cmd.ServiceId() {
      NoParallel(db.receipts, cmd.ServiceId(), cmd.operation.key, k);
    }
  }

  lemma OperationIdUnreserved(reservations: Reservations, receipts: Receipts, issued: set<Uuid>, operationId: Uuid)
    requires Correspond(reservations, receipts) && ReceiptsOk(receipts, issued) && operationId !in issued
    ensures operationId !in reservations
  {
    forall o | o in reservations ensures o in issued {
      var k :| Owns(receipts, k, o);
    }
  }

  lemma ReserveKeepsReceipts(db: Db, cmd: Command, ids: FreshIds)
    requires Granting(db, cmd, ids)
    ensures var after := Reserve(db, cmd, ids, GrantedNames(db, cmd, ids)); ReceiptsOk(after.receipts, after.issued)
  {
    Admitted(db, cmd, ids);
    RouteFormedIdentity(cmd);
    ReceiptAdded(db.receipts, db.issued, cmd.operation.key, NewReceipt(db, cmd.operation.identity, ids.operationId),
                 Reserve(db, cmd, ids, GrantedNames(db, cmd, ids)).issued);
  }

  lemma ReserveKeepsNames(db: Db, cmd: Command, ids: FreshIds)
    requires Granting(db, cmd, ids)
    ensures var after := Reserve(db, cmd, ids, GrantedNames(db, cmd, ids));
            NamesOk(after.services, after.buckets, after.names, after.receipts)
  {
    var key, names := cmd.operation.key, GrantedNames(db, cmd, ids);
    var receipts := db.receipts[key := NewReceipt(db, cmd.operation.identity, ids.operationId)];
    Admitted(db, cmd, ids);
    NamesWithReceipt(db.services, db.buckets, db.names, db.receipts, key, receipts[key]);
    if names != db.names {
      NameAdded(db.services, db.buckets, db.names, receipts, cmd.payload.spec.bucketName, cmd.ServiceId(), key);
    }
  }

  lemma StandingAdded(db: Db, names: Names, key: Uuid, row: ReceiptRow)
    requires GrantsStand(db.services, db.buckets, db.names, db.credentials, db.receipts)
    requires forall n | n in db.names :: n in names && names[n] == db.names[n]
    requires Stands(db.services, db.buckets, names, db.credentials, row.identity)
    ensures GrantsStand(db.services, db.buckets, names, db.credentials, db.receipts[key := row])
  {
    var receipts := db.receipts[key := row];
    forall k | InFlight(receipts, k)
      ensures Stands(db.services, db.buckets, names, db.credentials, receipts[k].identity)
    {
      if k != key {
        assert InFlight(db.receipts, k);
        assert Stands(db.services, db.buckets, db.names, db.credentials, db.receipts[k].identity);
      }
    }
  }

  lemma ReserveKeepsStanding(db: Db, cmd: Command, ids: FreshIds)
    requires Granting(db, cmd, ids)
    ensures var after := Reserve(db, cmd, ids, GrantedNames(db, cmd, ids));
            GrantsStand(after.services, after.buckets, after.names, after.credentials, after.receipts)
  {
    Admitted(db, cmd, ids);
    StandingAdded(db, GrantedNames(db, cmd, ids), cmd.operation.key,
                  NewReceipt(db, cmd.operation.identity, ids.operationId));
  }

  lemma NewReservationUnused(db: Db, cmd: Command, credentialId: Uuid)
    requires cmd.payload.CreateCredential? && !DuplicateName(db, cmd.ServiceId(), cmd.payload.name)
    requires CredentialsOk(db.services, db.credentials, db.issued) && credentialId !in db.issued
    ensures ReservationUnused(db.credentials, NewReservation(cmd, credentialId))
  {
  }

  lemma ReservationAdded(reservations: Reservations, credentials: Credentials, issued: set<Uuid>, o: Uuid,
                         row: ReservationRow, issued': set<Uuid>)
    requires ReservationsOk(reservations, credentials, issued) && issued <= issued'
    requires ReservationUnused(credentials, row) && row.credentialId != NIL
    requires row.credentialId !in issued && row.credentialId in issued'
    ensures ReservationsOk(reservations[o := row], credentials, issued')
  {
  }

  /** A first grant keeps the reservations, their correspondence with receipts, and both ceilings; a new credential
      also stays within the lower of the signed and the configured limit. */
  lemma ReserveKeepsReservations(db: Db, cmd: Command, ids: FreshIds)
    requires Granting(db, cmd, ids) && cmd.payload.CreateCredential?
    ensures var after := Reserve(db, cmd, ids, GrantedNames(db, cmd, ids));
            && Correspond(after.reservations, after.receipts)
            && ReservationsOk(after.reservations, after.credentials, after.issued)
            && LimitsHold(after.credentials, after.reservations, after.limits)
  {
    var row := NewReservation(cmd, ids.credentialId);
    var receipt := NewReceipt(db, cmd.operation.identity, ids.operationId);
    var after := Reserve(db, cmd, ids, GrantedNames(db, cmd, ids));
    RouteFormedIdentity(cmd);
    AdmittedCreate(db, cmd, ids.credentialId);
    OperationIdUnreserved(db.reservations, db.receipts, db.issued, ids.operationId);
    CorrespondenceAdded(db.reservations, db.receipts, cmd.operation.key, receipt, ids.operationId, row);
    NewReservationUnused(db, cmd, ids.credentialId);
    ReservationAdded(db.reservations, db.credentials, db.issued, ids.operationId, row, after.issued);
    LimitsAfterReserving(db.credentials, db.reservations, db.limits, ids.operationId, row);
  }

  lemma ReserveKeepsOtherReservations(db: Db, cmd: Command, ids: FreshIds)
    requires Granting(db, cmd, ids) && !cmd.payload.CreateCredential?
    ensures var after := Reserve(db, cmd, ids, GrantedNames(db, cmd, ids));
            && Correspond(after.reservations, after.receipts)
            && ReservationsOk(after.reservations, after.credentials, after.issued)
  {
    RouteFormedIdentity(cmd);
    CorrespondenceUntouched(db.reservations, db.receipts, cmd.operation.key,
                            NewReceipt(db, cmd.operation.identity, ids.operationId));
  }

  lemma ReserveKeepsInv(db: Db, cmd: Command, ids: FreshIds)
    requires Granting(db, cmd, ids)
    ensures Inv(Reserve(db, cmd, ids, GrantedNames(db, cmd, ids)))
  {
    ReserveKeepsReceipts(db, cmd, ids);
    ReserveKeepsNames(db, cmd, ids);
    ReserveKeepsStanding(db, cmd, ids);
    if cmd.payload.CreateCredential? {
      ReserveKeepsReservations(db, cmd, ids);
    } else {
      ReserveKeepsOtherReservations(db, cmd, ids);
    }
  }

  // ---------------------------------------------------------------- takeover

  /** The same request again, unfinished and past its lease. */
  ghost predicate Lapsed(db: Db, operation: OperationRequest) {
    && InFlight(db.receipts, operation.key)
    && db.receipts[operation.key].identity == operation.identity
    && db.receipts[operation.key].leaseExpiresAt.Some?
    && db.receipts[operation.key].leaseExpiresAt.value <= db.clock
  }

  /** The situation of a takeover. */
  ghost predicate Retaking(db: Db, cmd: Command, operationId: Uuid) {
    Inv(db) && WellFormed(cmd) && operationId !in db.issued && Lapsed(db, cmd.operation)
  }

  /** The reservation moves to the new operation id with its receipt. */
  lemma CorrespondenceRekeyed(reservations: Reservations, receipts: Receipts, issued: set<Uuid>, key: Uuid,
                              row: ReceiptRow)
    requires Correspond(reservations, receipts) && ReceiptsOk(receipts, issued)
    requires Creating(receipts, key) && row.state == InProgress && row.identity == receipts[key].identity
    requires row.operationId !in issued
    ensures Correspond(Rekey(reservations, receipts[key].operationId, row.operationId), receipts[key := row])
  {
    var source := receipts[key].operationId;
    var receipts', reservations' := receipts[key := row], Rekey(reservations, source, row.operationId);
    forall o | o in reservations' ensures exists k :: Owns(receipts', k, o) {
      if o == row.operationId {
        assert Owns(receipts', key, o);
      } else {
        var k :| Owns(receipts, k, o);
        assert Owns(receipts', k, o);
      }
    }
    forall k | Creating(receipts', k)
      ensures receipts'[k].operationId in reservations'
      ensures ReservationFor(reservations'[receipts'[k].operationId], receipts'[k].identity)
    {
      assert Creating(receipts, k);
    }
  }

  lemma NothingToRekey(reservations: Reservations, receipts: Receipts, issued: set<Uuid>, key: Uuid)
    requires Correspond(reservations, receipts) && ReceiptsOk(receipts, issued)
    requires key in receipts && !Creating(receipts, key)
    ensures receipts[key].operationId !in reservations
  {
    forall o | o in reservations ensures o != receipts[key].operationId {
      var k :| Owns(receipts, k, o);
    }
  }

  lemma RekeyKeepsCounts(reservations: Reservations, source: Uuid, target: Uuid, s: Uuid, organizationId: Uuid)
    requires target !in reservations
    ensures |ReservedInBucket(Rekey(reservations, source, target), s)| == |ReservedInBucket(reservations, s)|
    ensures |ReservedInOrganization(Rekey(reservations, source, target), organizationId)|
            == |ReservedInOrganization(reservations, organizationId)|
  {
    if source in reservations {
      var row, without := reservations[source], reservations - {source};
      BucketCountAfterReserving(without, target, row, s);
      BucketCountAfterReserving(without, source, row, s);
      OrganizationCountAfterReserving(without, target, row, organizationId);
      OrganizationCountAfterReserving(without, source, row, organizationId);
      assert without[source := row] == reservations;
    }
  }

  /** Takeover conserves the counts of every bucket and organization. */
  lemma RekeyKeepsLimits(credentials: Credentials, reservations: Reservations, limits: CredentialLimits, source: Uuid,
                         target: Uuid)
    requires LimitsHold(credentials, reservations, limits) && target !in reservations
    ensures LimitsHold(credentials, Rekey(reservations, source, target), limits)
  {
    var after := Rekey(reservations, source, target);
    forall s ensures InBucket(credentials, after, s) <= limits.maxCredentialsPerBucket {
      RekeyKeepsCounts(reservations, source, target, s, NIL);
      assert InBucket(credentials, reservations, s) <= limits.maxCredentialsPerBucket;
    }
    forall org ensures InOrganization(credentials, after, org) <= limits.maxTotalCredentials {
      RekeyKeepsCounts(reservations, source, target, NIL, org);
      assert InOrganization(credentials, reservations, org) <= limits.maxTotalCredentials;
    }
  }

  lemma RekeyKeepsReservations(reservations: Reservations, credentials: Credentials, issued: set<Uuid>,
                               issued': set<Uuid>, source: Uuid, target: Uuid)
    requires ReservationsOk(reservations, credentials, issued) && issued <= issued'
    ensures ReservationsOk(Rekey(reservations, source, target), credentials, issued')
  {
  }

  lemma StandingUnchanged(db: Db, key: Uuid, row: ReceiptRow)
    requires GrantsStand(db.services, db.buckets, db.names, db.credentials, db.receipts)
    requires InFlight(db.receipts, key) && row.identity == db.receipts[key].identity
    ensures GrantsStand(db.services, db.buckets, db.names, db.credentials, db.receipts[key := row])
  {
    var receipts := db.receipts[key := row];
    forall k | InFlight(receipts, k)
      ensures Stands(db.services, db.buckets, db.names, db.credentials, receipts[k].identity)
    {
      assert InFlight(db.receipts, k);
    }
  }

  lemma TakeOverKeepsReceipts(db: Db, cmd: Command, operationId: Uuid)
    requires Retaking(db, cmd, operationId)
    ensures var after := TakeOver(db, cmd.operation.key, operationId);
            && ReceiptsOk(after.receipts, after.issued)
            && NamesOk(after.services, after.buckets, after.names, after.receipts)
            && GrantsStand(after.services, after.buckets, after.names, after.credentials, after.receipts)
  {
    var key, after := cmd.operation.key, TakeOver(db, cmd.operation.key, operationId);
    ReceiptChanged(db.receipts, db.issued, key, after.receipts[key], after.issued);
    NamesWithReceipt(db.services, db.buckets, db.names, db.receipts, key, after.receipts[key]);
    StandingUnchanged(db, key, after.receipts[key]);
  }

  lemma TakeOverKeepsReservations(db: Db, cmd: Command, operationId: Uuid)
    requires Retaking(db, cmd, operationId)
    ensures var after := TakeOver(db, cmd.operation.key, operationId);
            && Correspond(after.reservations, after.receipts)
            && ReservationsOk(after.reservations, after.credentials, after.issued)
            && LimitsHold(after.credentials, after.reservations, after.limits)
  {
    var key, after := cmd.operation.key, TakeOver(db, cmd.operation.key, operationId);
    var source := db.receipts[key].operationId;
    OperationIdUnreserved(db.reservations, db.receipts, db.issued, operationId);
    RekeyKeepsReservations(db.reservations, db.credentials, db.issued, after.issued, source, operationId);
    RekeyKeepsLimits(db.credentials, db.reservations, db.limits, source, operationId);
    if Creating(db.receipts, key) {
      CorrespondenceRekeyed(db.reservations, db.receipts, db.issued, key, after.receipts[key]);
    } else {
      NothingToRekey(db.reservations, db.receipts, db.issued, key);
      CorrespondenceUntouched(db.reservations, db.receipts, key, after.receipts[key]);
    }
  }

  lemma TakeOverKeepsInv(db: Db, cmd: Command, operationId: Uuid)
    requires Retaking(db, cmd, operationId)
    ensures Inv(TakeOver(db, cmd.operation.key, operationId))
  {
    TakeOverKeepsReceipts(db, cmd, operationId);
    TakeOverKeepsReservations(db, cmd, operationId);
  }
}
