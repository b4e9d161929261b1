/** Row-level changes and the table invariants they keep. */
module Tables {
  import opened Types
  import opened StoreSpec
  import opened Invariant

  // ---------------------------------------------------------------- receipts

  lemma ReceiptAdded(receipts: Receipts, issued: set<Uuid>, key: Uuid, row: ReceiptRow, issued': set<Uuid>)
    requires ReceiptsOk(receipts, issued) && key !in receipts && ReceiptOk(key, row)
    requires row.operationId !in issued && row.operationId in issued' && issued <= issued'
    requires forall k | InFlight(receipts, k) :: receipts[k].identity.serviceId != row.identity.serviceId
    ensures ReceiptsOk(receipts[key := row], issued')
  {
    var after := receipts[key := row];
    forall j, k | InFlight(after, j) && InFlight(after, k) && j != k
      ensures after[j].identity.serviceId != after[k].identity.serviceId
    {
      assert j != key ==> InFlight(receipts, j);
      assert k != key ==> InFlight(receipts, k);
    }
  }

  /** A receipt may change its operation id to an unissued one, renew its lease, or finish. */
  lemma ReceiptChanged(receipts: Receipts, issued: set<Uuid>, key: Uuid, row: ReceiptRow, issued': set<Uuid>)
    requires ReceiptsOk(receipts, issued) && InFlight(receipts, key) && ReceiptOk(key, row)
    requires row.identity == receipts[key].identity && issued <= issued' && row.operationId in issued'
    requires row.operationId == receipts[key].operationId || row.operationId !in issued
    ensures ReceiptsOk(receipts[key := row], issued')
  {
    var after := receipts[key := row];
    forall j, k | InFlight(after, j) && InFlight(after, k) && j != k
      ensures after[j].identity.serviceId != after[k].identity.serviceId
    {
      assert InFlight(receipts, j) && InFlight(receipts, k);
    }
  }

  lemma FinishedIsOk(key: Uuid, row: ReceiptRow, response: StoredHttpResponse)
    requires ReceiptOk(key, row) && 100 <= response.status <= 599
    ensures ReceiptOk(key, FinishedRow(key, row, response))
  {
  }

  // ---------------------------------------------------------------- name ownership as receipts change

  /** Names stay owned while every unfinished reconcile stays unfinished. */
  lemma NamesSurvive(services: Services, buckets: Buckets, names: Names, receipts: Receipts, receipts': Receipts)
    requires NamesOk(services, buckets, names, receipts)
    requires forall k, s, n | AsksFor(receipts, k, s, n) :: AsksFor(receipts', k, s, n)
    ensures NamesOk(services, buckets, names, receipts')
  {
    forall n | n in names ensures NameOwned(services, buckets, receipts', n, names[n]) {
      assert NameOwned(services, buckets, receipts, n, names[n]);
      if k :| AsksFor(receipts, k, names[n], n) {
        assert AsksFor(receipts', k, names[n], n);
      }
    }
  }

  /** A new receipt, or an unfinished one that stays so, leaves every name owned. */
  lemma NamesWithReceipt(services: Services, buckets: Buckets, names: Names, receipts: Receipts, key: Uuid,
                         row: ReceiptRow)
    requires NamesOk(services, buckets, names, receipts)
    requires key in receipts ==> row.state == InProgress && row.identity == receipts[key].identity
    ensures NamesOk(services, buckets, names, receipts[key := row])
  {
    NamesSurvive(services, buckets, names, receipts, receipts[key := row]);
  }

  lemma NameAdded(services: Services, buckets: Buckets, names: Names, receipts: Receipts, n: string, s: Uuid, k: Uuid)
    requires NamesOk(services, buckets, names, receipts)
    requires n !in names && s !in services && AsksFor(receipts, k, s, n)
    ensures NamesOk(services, buckets, names[n := s], receipts)
  {
    var after := names[n := s];
    forall m | m in after ensures NameOwned(services, buckets, receipts, m, after[m]) {
      if m != n {
        assert NameOwned(services, buckets, receipts, m, names[m]);
      }
    }
    forall t | t in buckets && Live(services, t) ensures HoldsName(after, buckets[t].bucketName, t) {
      assert HoldsName(names, buckets[t].bucketName, t);
    }
  }

  // ---------------------------------------------------------------- reservations

  lemma CorrespondenceAdded(reservations: Reservations, receipts: Receipts, key: Uuid, receipt: ReceiptRow,
                            o: Uuid, row: ReservationRow)
    requires Correspond(reservations, receipts) && key !in receipts && o !in reservations
    requires receipt.state == InProgress && receipt.operationId == o && ReservationFor(row, receipt.identity)
    ensures Correspond(reservations[o := row], receipts[key := receipt])
  {
    var receipts', reservations' := receipts[key := receipt], reservations[o := row];
    forall p | p in reservations' ensures exists k :: Owns(receipts', k, p) {
      if p == o {
        assert Owns(receipts', key, p);
      } else {
        var k :| Owns(receipts, k, p);
        assert Owns(receipts', k, p);
      }
    }
    forall k | Creating(receipts', k)
      ensures receipts'[k].operationId in reservations'
      ensures ReservationFor(reservations'[receipts'[k].operationId], receipts'[k].identity)
    {
      if k != key {
        assert Creating(receipts, k);
      }
    }
  }

  /** The correspondence looks only at the operation ids of unfinished credential creations. */
  lemma CorrespondenceUntouched(reservations: Reservations, receipts: Receipts, key: Uuid, row: ReceiptRow)
    requires Correspond(reservations, receipts)
    requires key in receipts ==> receipts[key].identity == row.identity
    requires || !row.identity.requestHash.body.CreateCredential?
             || (InFlight(receipts, key) && row.state == InProgress && row.operationId == receipts[key].operationId)
    ensures Correspond(reservations, receipts[key := row])
  {
    var after := receipts[key := row];
    forall o | o in reservations ensures exists k :: Owns(after, k, o) {
      var k :| Owns(receipts, k, o);
      assert Owns(after, k, o);
    }
    forall k | Creating(after, k)
      ensures after[k].operationId in reservations
      ensures ReservationFor(reservations[after[k].operationId], after[k].identity)
    {
      assert Creating(receipts, k);
    }
  }

  // ---------------------------------------------------------------- counting

  lemma {:induction false} FewerElements<T>(small: set<T>, large: set<T>)
    requires small <= large
    ensures |small| <= |large|
  {
    if x :| x in small {
      FewerElements(small - {x}, large - {x});
    }
  }

  /** Adding one reservation adds one to the count of its own bucket and to no other. */
  lemma BucketCountAfterReserving(reservations: Reservations, o: Uuid, row: ReservationRow, s: Uuid)
    requires o !in reservations
    ensures |ReservedInBucket(reservations[o := row], s)|
            == |ReservedInBucket(reservations, s)| + (if row.serviceId == s then 1 else 0)
  {
    var before, after := ReservedInBucket(reservations, s), ReservedInBucket(reservations[o := row], s);
    if row.serviceId == s {
      assert after == before + {o};
    } else {
      assert after == before;
    }
  }

  lemma OrganizationCountAfterReserving(reservations: Reservations, o: Uuid, row: ReservationRow, organizationId: Uuid)
    requires o !in reservations
    ensures |ReservedInOrganization(reservations[o := row], organizationId)|
            == |ReservedInOrganization(reservations, organizationId)|
               + (if row.organizationId == organizationId then 1 else 0)
  {
    var before := ReservedInOrganization(reservations, organizationId);
    var after := ReservedInOrganization(reservations[o := row], organizationId);
    if row.organizationId == organizationId {
      assert after == before + {o};
    } else {
      assert after == before;
    }
  }

  /** A reservation that fits below both ceilings keeps both. */
  lemma LimitsAfterReserving(credentials: Credentials, reservations: Reservations, limits: CredentialLimits,
                             o: Uuid, row: ReservationRow)
    requires LimitsHold(credentials, reservations, limits) && o !in reservations
    requires InBucket(credentials, reservations, row.serviceId) < limits.maxCredentialsPerBucket
    requires InOrganization(credentials, reservations, row.organizationId) < limits.maxTotalCredentials
    ensures LimitsHold(credentials, reservations[o := row], limits)
  {
    var after := reservations[o := row];
    forall s ensures InBucket(credentials, after, s) <= limits.maxCredentialsPerBucket {
      BucketCountAfterReserving(reservations, o, row, s);
      assert InBucket(credentials, reservations, s) <= limits.maxCredentialsPerBucket;
    }
    forall org ensures InOrganization(credentials, after, org) <= limits.maxTotalCredentials {
      OrganizationCountAfterReserving(reservations, o, row, org);
      assert InOrganization(credentials, reservations, org) <= limits.maxTotalCredentials;
    }
  }
}
