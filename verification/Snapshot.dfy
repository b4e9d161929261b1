/** While an operation is unfinished nothing but usage moves on its service, so its context stays true. */
module Snapshot {
  import opened Types
  import opened StoreSpec
  import opened Invariant
  import opened Grants
  import opened Completions
  import opened Transactions

  // ---------------------------------------------------------------- one service in two states

  function ReservedRows(reservations: Reservations, serviceId: Uuid): set<ReservationRow> {
    set o | o in reservations && reservations[o].serviceId == serviceId :: reservations[o]
  }

  function NamesHeld(names: Names, serviceId: Uuid): set<string> {
    set n | n in names && names[n] == serviceId
  }

  ghost predicate SameServiceRow(a: Services, b: Services, s: Uuid) {
    (s in a <==> s in b) && (s in a ==> a[s] == b[s])
  }

  ghost predicate SameBucketRow(a: Buckets, b: Buckets, s: Uuid) {
    (s in a <==> s in b) && (s in a ==> OnlyUsageDiffers(a[s], b[s]))
  }

  /** The service's row, its bucket apart from usage, its names, credentials and credential reservations agree. */
  ghost predicate SameService(a: Db, b: Db, s: Uuid) {
    && SameServiceRow(a.services, b.services, s)
    && SameBucketRow(a.buckets, b.buckets, s)
    && NamesHeld(a.names, s) == NamesHeld(b.names, s)
    && CredentialsOf(a.credentials, s) == CredentialsOf(b.credentials, s)
    && ReservedRows(a.reservations, s) == ReservedRows(b.reservations, s)
  }

  lemma SameServiceTransitive(a: Db, b: Db, c: Db, s: Uuid)
    requires SameService(a, b, s) && SameService(b, c, s)
    ensures SameService(a, c, s)
  {
  }

  // ---------------------------------------------------------------- each effect stays on its own service

  lemma RowAddedElsewhere(reservations: Reservations, o: Uuid, row: ReservationRow, s: Uuid)
    requires o !in reservations && row.serviceId != s
    ensures ReservedRows(reservations[o := row], s) == ReservedRows(reservations, s)
  {
    var after := reservations[o := row];
    forall p | p in reservations ensures p in after && after[p] == reservations[p] {
    }
  }

  lemma RowDroppedElsewhere(reservations: Reservations, o: Uuid, s: Uuid)
    requires o in reservations ==> reservations[o].serviceId != s
    ensures ReservedRows(reservations - {o}, s) == ReservedRows(reservations, s)
  {
    var after := reservations - {o};
    forall p | p in reservations && p != o ensures p in after && after[p] == reservations[p] {
    }
  }

  lemma RekeyKeepsRows(reservations: Reservations, source: Uuid, target: Uuid, s: Uuid)
    requires target !in reservations
    ensures ReservedRows(Rekey(reservations, source, target), s) == ReservedRows(reservations, s)
  {
    var after := Rekey(reservations, source, target);
    forall p | p in reservations ensures p == source || (p in after && after[p] == reservations[p]) {
    }
    assert source in reservations ==> after[target] == reservations[source];
  }

  lemma ReserveElsewhere(db: Db, cmd: Command, ids: FreshIds, names: Names, s: Uuid)
    requires cmd.ServiceId() != s && ids.operationId !in db.reservations
    requires NamesHeld(names, s) == NamesHeld(db.names, s)
    ensures SameService(db, Reserve(db, cmd, ids, names), s)
  {
    if cmd.payload.CreateCredential? {
      RowAddedElsewhere(db.reservations, ids.operationId, NewReservation(cmd, ids.credentialId), s);
    }
  }

  lemma TakeOverSame(db: Db, key: Uuid, operationId: Uuid, s: Uuid)
    requires key in db.receipts && operationId !in db.reservations
    ensures SameService(db, TakeOver(db, key, operationId), s)
  {
    RekeyKeepsRows(db.reservations, db.receipts[key].operationId, operationId, s);
  }

  lemma ReconciledElsewhere(db: Db, cmd: Command, operationId: Uuid, physical: string, receipts: Receipts,
                            audit: AuditEvent, s: Uuid)
    requires cmd.payload.Reconcile? && cmd.ServiceId() != s
    requires cmd.payload.spec.quotaBytes <= I64_MAX && cmd.payload.spec.quotaObjects <= I64_MAX
    ensures SameService(db, Reconciled(db, cmd, operationId, physical, receipts, audit), s)
  {
  }

  lemma RemovedElsewhere(db: Db, cmd: Command, operationId: Uuid, receipts: Receipts, audit: AuditEvent, s: Uuid)
    requires cmd.payload.Delete? && cmd.ServiceId() in db.services && cmd.ServiceId() != s
    ensures SameService(db, Removed(db, cmd, operationId, receipts, audit), s)
  {
  }

  lemma IssuedElsewhere(db: Db, cmd: Command, operationId: Uuid, credential: NewCredential, receipts: Receipts,
                        audit: AuditEvent, s: Uuid)
    requires cmd.ServiceId() != s && credential.id !in db.credentials
    requires operationId in db.reservations ==> db.reservations[operationId].serviceId != s
    ensures SameService(db, Issued(db, cmd, operationId, credential, receipts, audit), s)
  {
    RowDroppedElsewhere(db.reservations, operationId, s);
  }

  lemma WithdrawnElsewhere(db: Db, cmd: Command, receipts: Receipts, audit: AuditEvent, s: Uuid)
    requires cmd.payload.RevokeCredential? && cmd.payload.credentialId in db.credentials
    requires db.credentials[cmd.payload.credentialId].serviceId != s
    ensures SameService(db, Withdrawn(db, cmd, receipts, audit), s)
  {
  }

  lemma AbandonedElsewhere(db: Db, operation: OperationRequest, operationId: Uuid, receipts: Receipts,
                           audit: AuditEvent, s: Uuid)
    requires operation.identity.serviceId != s
    requires operationId in db.reservations ==> db.reservations[operationId].serviceId != s
    ensures SameService(db, Abandoned(db, operation, operationId, receipts, audit), s)
  {
    RowDroppedElsewhere(db.reservations, operationId, s);
  }

  lemma MeasuredSame(db: Db, t: Uuid, row: BucketRow, s: Uuid)
    requires t in db.buckets && OnlyUsageDiffers(row, db.buckets[t])
    ensures SameService(db, Measured(db, t, row), s)
  {
  }

  /** The reservation an operation holds, if any, is for its own service. */
  lemma ReservationOfCurrent(reservations: Reservations, receipts: Receipts, issued: set<Uuid>, key: Uuid)
    requires Correspond(reservations, receipts) && ReceiptsOk(receipts, issued) && key in receipts
    ensures receipts[key].operationId in reservations ==>
              reservations[receipts[key].operationId].serviceId == receipts[key].identity.serviceId
  {
    var o := receipts[key].operationId;
    if o in reservations {
      var k :| Owns(receipts, k, o);
      assert k == key;
    }
  }

  // ---------------------------------------------------------------- snapshot stability

  /** The operation a finishing transaction ends is unfinished before it and finished after it. */
  lemma EndedFinishes(db: Db, effect: Effect)
    requires Enabled(db, effect) && effect.Finishing()
    ensures InFlight(db.receipts, effect.Ended().key)
    ensures db.receipts[effect.Ended().key].identity == effect.Ended().identity
    ensures db.receipts[effect.Ended().key].operationId == effect.operationId
    ensures Perform(db, effect).receipts == Finished(db.receipts, effect.Ended().key, effect.response)
  {
    CurrentReceipt(db.receipts, effect.Ended(), effect.operationId);
  }

  lemma FinishingElsewhere(db: Db, effect: Effect, s: Uuid)
    requires Enabled(db, effect) && effect.Finishing() && effect.Ended().identity.serviceId != s
    requires Correspond(db.reservations, db.receipts) && ReceiptsOk(db.receipts, db.issued)
    ensures SameService(db, Perform(db, effect), s)
  {
    EndedFinishes(db, effect);
    ReservationOfCurrent(db.reservations, db.receipts, db.issued, effect.Ended().key);
    match effect {
      case Reconciles(cmd, id, physical, response, audit) =>
        ReconciledElsewhere(db, cmd, id, physical, Finished(db.receipts, cmd.operation.key, response), audit, s);
      case Removes(cmd, id, response, audit) =>
        RemovedElsewhere(db, cmd, id, Finished(db.receipts, cmd.operation.key, response), audit, s);
      case Issues(cmd, id, credential, response, audit) =>
        IssuedElsewhere(db, cmd, id, credential, Finished(db.receipts, cmd.operation.key, response), audit, s);
      case Withdraws(cmd, _, response, audit) =>
        WithdrawnElsewhere(db, cmd, Finished(db.receipts, cmd.operation.key, response), audit, s);
      case Fails(operation, id, response, audit) =>
        AbandonedElsewhere(db, operation, id, Finished(db.receipts, operation.key, response), audit, s);
    }
  }

  lemma GrantElsewhere(db: Db, cmd: Command, ids: FreshIds, s: Uuid)
    requires Granting(db, cmd, ids) && cmd.ServiceId() != s
    ensures SameService(db, Reserve(db, cmd, ids, GrantedNames(db, cmd, ids)), s)
  {
    Admitted(db, cmd, ids);
    OperationIdUnreserved(db.reservations, db.receipts, db.issued, ids.operationId);
    assert NamesHeld(GrantedNames(db, cmd, ids), s) == NamesHeld(db.names, s);
    ReserveElsewhere(db, cmd, ids, GrantedNames(db, cmd, ids), s);
  }

  /** The service a transaction works on, when it works on one. */
  ghost predicate WorksOn(effect: Effect, s: Uuid) {
    || (effect.Finishing() && effect.Ended().identity.serviceId == s)
    || (effect.Grants? && effect.cmd.ServiceId() == s)
  }

  lemma UnseenEffectsSame(db: Db, effect: Effect, s: Uuid)
    requires Enabled(db, effect) && (effect.Idle? || effect.Ticks? || effect.Notes? || effect.Renews?)
    ensures SameService(db, Perform(db, effect), s)
  {
  }

  lemma PerformElsewhere(db: Db, effect: Effect, s: Uuid)
    requires Inv(db) && Enabled(db, effect) && !WorksOn(effect, s)
    ensures SameService(db, Perform(db, effect), s)
  {
    if effect.Finishing() {
      FinishingElsewhere(db, effect, s);
    } else {
      match effect {
        case Grants(cmd, ids) => GrantElsewhere(db, cmd, ids, s);
        case Retakes(cmd, id) =>
          OperationIdUnreserved(db.reservations, db.receipts, db.issued, id);
          TakeOverSame(db, cmd.operation.key, id, s);
        case Measures(t, row) => MeasuredSame(db, t, row, s);
        case _ => UnseenEffectsSame(db, effect, s);
      }
    }
  }

  /** A transaction that leaves an operation unfinished does not work on its service. */
  lemma UnfinishedIsUntouched(db: Db, effect: Effect, key: Uuid)
    requires Inv(db) && Enabled(db, effect) && InFlight(db.receipts, key) && InFlight(Perform(db, effect).receipts, key)
    ensures !WorksOn(effect, db.receipts[key].identity.serviceId)
  {
    if effect.Finishing() {
      EndedFinishes(db, effect);
      assert key != effect.Ended().key;
      assert InFlight(db.receipts, effect.Ended().key);
    } else if effect.Grants? {
      Admitted(db, effect.cmd, effect.ids);
    }
  }

  /** No transaction of anyone moves the service of an operation that stays unfinished, apart from usage. */
  lemma SnapshotStable(db: Db, tx: Tx, key: Uuid)
    requires Inv(db) && Admissible(db, tx) && InFlight(db.receipts, key) && InFlight(Apply(db, tx).receipts, key)
    ensures SameService(db, Apply(db, tx), db.receipts[key].identity.serviceId)
  {
    ApplyPerforms(db, tx);
    UnfinishedIsUntouched(db, EffectOf(db, tx), key);
    PerformElsewhere(db, EffectOf(db, tx), db.receipts[key].identity.serviceId);
  }
}
