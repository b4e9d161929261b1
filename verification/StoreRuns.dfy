/** Whole runs of the store: any calls by anyone, in any order, from empty tables. */
module StoreRuns {
  import opened Types
  import opened StoreSpec
  import opened Invariant
  import opened Grants
  import opened Transactions
  import opened Evolution
  import opened Snapshot
  import opened Contexts

  ghost predicate Initial(db: Db) {
    && db.services == map[] && db.buckets == map[] && db.names == map[] && db.credentials == map[]
    && db.reservations == map[] && db.receipts == map[] && db.audit == [] && db.issued == {NIL}
  }

  ghost predicate StoreRun(dbs: seq<Db>, txs: seq<Tx>) {
    && |dbs| == |txs| + 1
    && Initial(dbs[0])
    && (forall i {:trigger txs[i]} | 0 <= i < |txs| ::
          Admissible(dbs[i], txs[i]) && dbs[i + 1] == Apply(dbs[i], txs[i]))
  }

  lemma InitialInv(db: Db)
    requires Initial(db)
    ensures Inv(db)
  {
    forall s ensures InBucket(db.credentials, db.reservations, s) == 0 {
      assert ActiveInBucket(db.credentials, s) == {} && ReservedInBucket(db.reservations, s) == {};
    }
    forall o ensures InOrganization(db.credentials, db.reservations, o) == 0 {
      assert ActiveInOrganization(db.credentials, o) == {} && ReservedInOrganization(db.reservations, o) == {};
    }
  }

  /** Every reachable state satisfies the invariant. */
  lemma {:induction false} RunKeepsInv(dbs: seq<Db>, txs: seq<Tx>, n: nat)
    requires StoreRun(dbs, txs) && n <= |txs|
    ensures Inv(dbs[n])
  {
    if n == 0 {
      InitialInv(dbs[0]);
    } else {
      RunKeepsInv(dbs, txs, n - 1);
      ApplyKeepsInv(dbs[n - 1], txs[n - 1]);
    }
  }

  /** Whatever happens between two moments of a run only moves the tables forward. */
  lemma {:induction false} RunEvolves(dbs: seq<Db>, txs: seq<Tx>, i: nat, j: nat)
    requires StoreRun(dbs, txs) && i <= j <= |txs|
    ensures Evolves(dbs[i], dbs[j])
  {
    if i == j {
      EvolvesReflexive(dbs[i]);
    } else {
      RunEvolves(dbs, txs, i, j - 1);
      RunKeepsInv(dbs, txs, j - 1);
      ApplyEvolves(dbs[j - 1], txs[j - 1]);
      EvolvesTransitive(dbs[i], dbs[j - 1], dbs[j]);
    }
  }

  /** In every reachable state a service has at most one unfinished operation. */
  lemma OneUnfinishedPerService(dbs: seq<Db>, txs: seq<Tx>, n: nat, j: Uuid, k: Uuid)
    requires StoreRun(dbs, txs) && n <= |txs|
    requires InFlight(dbs[n].receipts, j) && InFlight(dbs[n].receipts, k)
    requires dbs[n].receipts[j].identity.serviceId == dbs[n].receipts[k].identity.serviceId
    ensures j == k
  {
    RunKeepsInv(dbs, txs, n);
  }

  // ---------------------------------------------------------------- the snapshot of an unfinished operation

  lemma StillInFlight(a: Db, b: Db, c: Db, key: Uuid)
    requires Evolves(a, b) && Evolves(b, c) && InFlight(a.receipts, key) && InFlight(c.receipts, key)
    ensures InFlight(b.receipts, key) && b.receipts[key].identity == a.receipts[key].identity
  {
    assert ReceiptEvolves(a.receipts[key], b.receipts[key], a.issued);
    assert ReceiptEvolves(b.receipts[key], c.receipts[key], b.issued);
  }

  /** An operation unfinished at both ends of a stretch of a run is unfinished all along it. */
  lemma InFlightBetween(dbs: seq<Db>, txs: seq<Tx>, i: nat, m: nat, j: nat, key: Uuid)
    requires StoreRun(dbs, txs) && i <= m <= j <= |txs|
    requires InFlight(dbs[i].receipts, key) && InFlight(dbs[j].receipts, key)
    ensures InFlight(dbs[m].receipts, key)
    ensures dbs[m].receipts[key].identity == dbs[i].receipts[key].identity
    ensures dbs[m].receipts[key].identity == dbs[j].receipts[key].identity
  {
    RunEvolves(dbs, txs, i, m);
    RunEvolves(dbs, txs, m, j);
    StillInFlight(dbs[i], dbs[m], dbs[j], key);
    assert ReceiptEvolves(dbs[m].receipts[key], dbs[j].receipts[key], dbs[m].issued);
  }

  lemma SnapshotStep(first: Db, db: Db, tx: Tx, key: Uuid)
    requires Inv(db) && Admissible(db, tx) && InFlight(db.receipts, key) && InFlight(Apply(db, tx).receipts, key)
    requires SameService(first, db, db.receipts[key].identity.serviceId)
    ensures SameService(first, Apply(db, tx), db.receipts[key].identity.serviceId)
  {
    SnapshotStable(db, tx, key);
    SameServiceTransitive(first, db, Apply(db, tx), db.receipts[key].identity.serviceId);
  }

  /** From grant to finish, over any interleaving, the service of an unfinished operation does not move. */
  lemma {:induction false} SnapshotOverRun(dbs: seq<Db>, txs: seq<Tx>, i: nat, j: nat, key: Uuid)
    requires StoreRun(dbs, txs) && i <= j <= |txs|
    requires InFlight(dbs[i].receipts, key) && InFlight(dbs[j].receipts, key)
    ensures dbs[j].receipts[key].identity == dbs[i].receipts[key].identity
    ensures SameService(dbs[i], dbs[j], dbs[i].receipts[key].identity.serviceId)
  {
    if i < j {
      InFlightBetween(dbs, txs, i, j - 1, j, key);
      SnapshotOverRun(dbs, txs, i, j - 1, key);
      RunKeepsInv(dbs, txs, j - 1);
      SnapshotStep(dbs[i], dbs[j - 1], txs[j - 1], key);
    }
  }

  /** A context that was true when it was granted stays true until the operation finishes. */
  lemma ContextOverRun(dbs: seq<Db>, txs: seq<Tx>, i: nat, j: nat, key: Uuid, context: Context)
    requires StoreRun(dbs, txs) && i <= j <= |txs|
    requires InFlight(dbs[i].receipts, key) && InFlight(dbs[j].receipts, key)
    requires Describes(dbs[i], dbs[i].receipts[key], context)
    ensures Describes(dbs[j], dbs[j].receipts[key], context)
  {
    SnapshotOverRun(dbs, txs, i, j, key);
    RunKeepsInv(dbs, txs, i);
    RunKeepsInv(dbs, txs, j);
    SameServiceIsSameWork(dbs[i], dbs[j], key);
    var s := dbs[i].receipts[key].identity.serviceId;
    assert s in dbs[j].services ==> ServiceOk(dbs[j].services[s], dbs[j].buckets[s]);
    ContextStable(dbs[i], dbs[j], key, context);
  }

  // ---------------------------------------------------------------- grants

  /** The call at this point answers that its caller is to execute the operation of this key. */
  ghost predicate GrantsAt(db: Db, tx: Tx, key: Uuid) {
    && tx.Preparing? && tx.cmd.operation.key == key
    && var reply := PrepareStep(db, tx.cmd, tx.ids).reply; reply.Ok? && reply.value.Execute?
  }

  ghost function ContextGranted(db: Db, tx: Tx): Context
    requires tx.Preparing? && GrantsAt(db, tx, tx.cmd.operation.key)
  {
    PrepareStep(db, tx.cmd, tx.ids).reply.value.context
  }

  lemma FirstGrantIsTrue(db: Db, cmd: Command, ids: FreshIds)
    requires Granting(db, cmd, ids)
    ensures var step := PrepareStep(db, cmd, ids);
            && step.reply.Ok? && step.reply.value.Execute?
            && Describes(step.db, NewReceipt(db, cmd.operation.identity, ids.operationId), step.reply.value.context)
            && step.db.receipts == db.receipts[cmd.operation.key := NewReceipt(db, cmd.operation.identity, ids.operationId)]
  {
    PrepareGrants(db, cmd, ids);
    GrantDescribes(db, cmd, ids);
  }

  lemma TakeoverIsTrue(db: Db, cmd: Command, ids: FreshIds)
    requires Inv(db) && WellFormed(cmd) && FreshFor(db.issued, ids) && Lapsed(db, cmd.operation)
    ensures var step := PrepareStep(db, cmd, ids);
            && step.reply.Ok? && step.reply.value.Execute?
            && step.db == TakeOver(db, cmd.operation.key, ids.operationId)
            && Describes(step.db, step.db.receipts[cmd.operation.key], step.reply.value.context)
  {
    PrepareOutcome(db, cmd, ids);
    RetakeDescribes(db, cmd, ids.operationId);
  }

  /** Every grant, first or later, leaves its operation unfinished under the fresh id with a true context. */
  lemma GrantedContextIsTrue(db: Db, tx: Tx, key: Uuid)
    requires Inv(db) && Admissible(db, tx) && GrantsAt(db, tx, key)
    ensures InFlight(Apply(db, tx).receipts, key)
    ensures Apply(db, tx).receipts[key].operationId == tx.ids.operationId
    ensures Apply(db, tx).receipts[key].identity == tx.cmd.operation.identity
    ensures Describes(Apply(db, tx), Apply(db, tx).receipts[key], ContextGranted(db, tx))
  {
    if Newcomer(db, tx.cmd, tx.ids.credentialId) {
      FirstGrantIsTrue(db, tx.cmd, tx.ids);
    } else if Lapsed(db, tx.cmd.operation) {
      TakeoverIsTrue(db, tx.cmd, tx.ids);
    } else {
      PrepareDeclines(db, tx.cmd, tx.ids);
    }
  }

  /** The context of a grant stays true in every later state in which the operation is still unfinished. */
  lemma GrantedContextPersists(dbs: seq<Db>, txs: seq<Tx>, i: nat, j: nat, key: Uuid)
    requires StoreRun(dbs, txs) && i < j <= |txs| && GrantsAt(dbs[i], txs[i], key) && InFlight(dbs[j].receipts, key)
    ensures Describes(dbs[j], dbs[j].receipts[key], ContextGranted(dbs[i], txs[i]))
  {
    RunGrantIsTrue(dbs, txs, i, key);
    ContextOverRun(dbs, txs, i + 1, j, key, ContextGranted(dbs[i], txs[i]));
  }

  lemma RunGrantIsTrue(dbs: seq<Db>, txs: seq<Tx>, i: nat, key: Uuid)
    requires StoreRun(dbs, txs) && i < |txs| && GrantsAt(dbs[i], txs[i], key)
    ensures InFlight(dbs[i + 1].receipts, key)
    ensures Describes(dbs[i + 1], dbs[i + 1].receipts[key], ContextGranted(dbs[i], txs[i]))
  {
    RunKeepsInv(dbs, txs, i);
    GrantedContextIsTrue(dbs[i], txs[i], key);
  }

  /** A lapsed operation is granted again under the fresh id, with the context the tables describe. */
  lemma LapsedIsGrantedAgain(db: Db, cmd: Command, ids: FreshIds, context: Context)
    requires Inv(db) && WellFormed(cmd) && FreshFor(db.issued, ids) && Lapsed(db, cmd.operation)
    requires Describes(db, db.receipts[cmd.operation.key], context)
    ensures GrantsAt(db, Preparing(cmd, ids), cmd.operation.key)
    ensures PrepareStep(db, cmd, ids).reply.value.operationId == ids.operationId
    ensures WithoutUsage(PrepareStep(db, cmd, ids).reply.value.context) == WithoutUsage(context)
  {
    PrepareOutcome(db, cmd, ids);
    RetakenContextAgrees(db, cmd, ids, context);
  }

  /** Takeover always works and reproduces the work: once the lease of an unfinished operation has lapsed, the same
      command is granted again under a fresh operation id, with the context of every earlier grant up to usage. */
  lemma TakeoverReproducesTheWork(dbs: seq<Db>, txs: seq<Tx>, i: nat, j: nat, cmd: Command, ids: FreshIds)
    requires StoreRun(dbs, txs) && i < j <= |txs|
    requires GrantsAt(dbs[i], txs[i], cmd.operation.key)
    requires WellFormed(cmd) && FreshFor(dbs[j].issued, ids) && Lapsed(dbs[j], cmd.operation)
    ensures GrantsAt(dbs[j], Preparing(cmd, ids), cmd.operation.key)
    ensures PrepareStep(dbs[j], cmd, ids).reply.value.operationId == ids.operationId
    ensures WithoutUsage(PrepareStep(dbs[j], cmd, ids).reply.value.context)
            == WithoutUsage(ContextGranted(dbs[i], txs[i]))
  {
    GrantedContextPersists(dbs, txs, i, j, cmd.operation.key);
    RunKeepsInv(dbs, txs, j);
    LapsedIsGrantedAgain(dbs[j], cmd, ids, ContextGranted(dbs[i], txs[i]));
  }

  lemma RetakenContextAgrees(db: Db, cmd: Command, ids: FreshIds, context: Context)
    requires Inv(db) && WellFormed(cmd) && FreshFor(db.issued, ids) && Lapsed(db, cmd.operation)
    requires Describes(db, db.receipts[cmd.operation.key], context)
    ensures var taken := TakeOver(db, cmd.operation.key, ids.operationId);
            && Readmit(taken, cmd, ids.operationId).Ok?
            && WithoutUsage(Readmit(taken, cmd, ids.operationId).value.context) == WithoutUsage(context)
  {
    var key, taken := cmd.operation.key, TakeOver(db, cmd.operation.key, ids.operationId);
    RetakeDescribes(db, cmd, ids.operationId);
    TakeOverKeepsInv(db, cmd, ids.operationId);
    OperationIdUnreserved(db.reservations, db.receipts, db.issued, ids.operationId);
    TakeOverSame(db, key, ids.operationId, cmd.ServiceId());
    SameServiceIsSameWork(db, taken, key);
    var s := cmd.ServiceId();
    assert s in taken.services ==> ServiceOk(taken.services[s], taken.buckets[s]);
    ContextStable(db, taken, key, context);
    ContextsAgree(taken, taken.receipts[key], context, Readmit(taken, cmd, ids.operationId).value.context);
  }
}
