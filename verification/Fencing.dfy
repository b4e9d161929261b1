/** An executor that lost its operation can no longer change anything; an operation that ended answers the same for good. */
module Fencing {
  import opened Types
  import opened Domain
  import opened StoreSpec
  import opened Invariant
  import opened Transactions
  import opened Evolution
  import opened Snapshot
  import opened StoreRuns

  // ---------------------------------------------------------------- fencing

  /** The operation id was handed out and belongs to no receipt any more. */
  ghost predicate Retired(db: Db, o: Uuid) {
    o in db.issued && forall k | k in db.receipts :: db.receipts[k].operationId != o
  }

  lemma RetiredForGood(before: Db, after: Db, o: Uuid)
    requires Evolves(before, after) && Retired(before, o)
    ensures Retired(after, o)
  {
    forall k | k in after.receipts ensures after.receipts[k].operationId != o {
      assert k in before.receipts ==> ReceiptEvolves(before.receipts[k], after.receipts[k], before.issued);
    }
  }

  lemma TakeoverRetires(receipts: Receipts, issued: set<Uuid>, db: Db, key: Uuid, id: Uuid)
    requires db.receipts == receipts && db.issued == issued
    requires ReceiptsOk(receipts, issued) && key in receipts && id !in issued
    ensures Retired(TakeOver(db, key, id), receipts[key].operationId)
  {
    assert receipts[key].operationId in issued;
    var after := TakeOver(db, key, id);
    forall k | k in after.receipts ensures after.receipts[k].operationId != receipts[key].operationId {
      assert k != key ==> receipts[k].operationId != receipts[key].operationId;
    }
  }

  /** The call carries an operation id, to renew, complete or fail. */
  ghost predicate Presents(tx: Tx, o: Uuid) {
    match tx
    case CompletingReconcile(_, id, _, _, _) => id == o
    case CompletingDelete(_, id, _, _) => id == o
    case CompletingCreate(_, id, _, _, _) => id == o
    case CompletingRevoke(_, id, _, _) => id == o
    case Renewing(_, id) => id == o
    case Failing(_, id, _, _) => id == o
    case _ => false
  }

  lemma NotInProgressForRetired(db: Db, operation: OperationRequest, o: Uuid)
    requires Retired(db, o)
    ensures RequireInProgress(db.receipts, operation, o).Fail?
    ensures operation.key in db.receipts && db.receipts[operation.key].identity == operation.identity ==>
              RequireInProgress(db.receipts, operation, o)
              == Fail(OperationLeaseLost(db.receipts[operation.key].operationId))
  {
  }

  /** A call that presents a retired operation id leaves every table as it was. */
  lemma RetiredChangesNothing(db: Db, tx: Tx, o: Uuid)
    requires Retired(db, o) && Admissible(db, tx) && Presents(tx, o)
    ensures Apply(db, tx) == db
  {
    match tx {
      case CompletingReconcile(cmd, _, _, _, _) => NotInProgressForRetired(db, cmd.operation, o);
      case CompletingDelete(cmd, _, _, _) => NotInProgressForRetired(db, cmd.operation, o);
      case CompletingCreate(cmd, _, _, _, _) => NotInProgressForRetired(db, cmd.operation, o);
      case CompletingRevoke(cmd, _, _, _) => NotInProgressForRetired(db, cmd.operation, o);
      case Renewing(operation, _) => NotInProgressForRetired(db, operation, o);
      case Failing(operation, _, _, _) => NotInProgressForRetired(db, operation, o);
    }
  }

  /** The reply of a call that presents an operation id. */
  ghost function ReplyTo(db: Db, tx: Tx): Result<()>
    requires Admissible(db, tx) && exists o :: Presents(tx, o)
  {
    match tx
    case CompletingReconcile(cmd, id, physical, response, audit) =>
      CompleteReconcileStep(db, cmd, id, physical, response, audit).reply
    case CompletingDelete(cmd, id, response, audit) => CompleteDeleteStep(db, cmd, id, response, audit).reply
    case CompletingCreate(cmd, id, credential, response, audit) =>
      CompleteCreateStep(db, cmd, id, credential, response, audit).reply
    case CompletingRevoke(cmd, id, response, audit) => CompleteRevokeStep(db, cmd, id, response, audit).reply
    case Renewing(operation, id) => RenewStep(db, operation, id).reply
    case Failing(operation, id, response, audit) => FailStep(db, operation, id, response, audit).reply
  }

  ghost function RequestOf(tx: Tx): OperationRequest
    requires exists o :: Presents(tx, o)
  {
    match tx
    case CompletingReconcile(cmd, _, _, _, _) => cmd.operation
    case CompletingDelete(cmd, _, _, _) => cmd.operation
    case CompletingCreate(cmd, _, _, _, _) => cmd.operation
    case CompletingRevoke(cmd, _, _, _) => cmd.operation
    case Renewing(operation, _) => operation
    case Failing(operation, _, _, _) => operation
  }

  /** The arguments a call must get right by itself, before the store looks at the receipt. */
  ghost predicate WellArgued(tx: Tx) {
    match tx
    case CompletingReconcile(_, _, physical, _, _) => physical != [] && ByteLength(physical) <= 256
    case CompletingCreate(cmd, _, credential, _, _) => cmd.payload.CreateCredential? && MetadataValid(cmd, credential)
    case Failing(_, _, response, _) => response.failed
    case _ => true
  }

  /** What validation already promised about the numbers of a stored request. */
  lemma ValidatedNumbers(receipts: Receipts, issued: set<Uuid>, key: Uuid)
    requires ReceiptsOk(receipts, issued) && key in receipts
    ensures var identity := receipts[key].identity;
            && (identity.generation.Some? ==> identity.generation.value > 0)
            && (identity.requestHash.body.Reconcile? ==>
                  && identity.requestHash.body.spec.quotaBytes <= I64_MAX
                  && identity.requestHash.body.spec.quotaObjects <= I64_MAX)
  {
    var identity := receipts[key].identity;
    assert ReceiptOk(key, receipts[key]);
    assert ValidateCommand(Command(OperationRequest(key, identity), identity.requestHash.body)).None?;
  }

  /** A well-formed call under a retired id is told who holds the operation now, whether or not it has ended. */
  lemma RetiredIsToldLeaseLost(db: Db, tx: Tx, o: Uuid)
    requires Retired(db, o) && Admissible(db, tx) && Presents(tx, o) && WellArgued(tx)
    requires ReceiptsOk(db.receipts, db.issued) && RequestOf(tx).key in db.receipts
    requires db.receipts[RequestOf(tx).key].identity == RequestOf(tx).identity
    ensures ReplyTo(db, tx) == Err(OperationLeaseLost(db.receipts[RequestOf(tx).key].operationId))
  {
    NotInProgressForRetired(db, RequestOf(tx), o);
    ValidatedNumbers(db.receipts, db.issued, RequestOf(tx).key);
  }

  /** Fencing is permanent: once an operation id has been taken over, every later call that presents it changes nothing,
      and every well-formed one is told that the lease is lost. */
  lemma TakenOverIsFencedForGood(dbs: seq<Db>, txs: seq<Tx>, i: nat, m: nat, key: Uuid)
    requires StoreRun(dbs, txs) && i < m < |txs|
    requires InFlight(dbs[i].receipts, key) && GrantsAt(dbs[i], txs[i], key)
    requires Presents(txs[m], dbs[i].receipts[key].operationId)
    ensures dbs[m + 1] == dbs[m]
    ensures && WellArgued(txs[m]) && RequestOf(txs[m]).key == key
            && RequestOf(txs[m]).identity == dbs[i].receipts[key].identity
            ==> && key in dbs[m].receipts
                && ReplyTo(dbs[m], txs[m]) == Err(OperationLeaseLost(dbs[m].receipts[key].operationId))
  {
    var o := dbs[i].receipts[key].operationId;
    RetiredByTakeover(dbs, txs, i, m, key);
    RetiredChangesNothing(dbs[m], txs[m], o);
    RunKeepsInv(dbs, txs, m);
    if WellArgued(txs[m]) && RequestOf(txs[m]).key == key && RequestOf(txs[m]).identity == dbs[i].receipts[key].identity {
      RetiredIsToldLeaseLost(dbs[m], txs[m], o);
    }
  }

  lemma GrantOfUnfinishedTakesOver(db: Db, tx: Tx, key: Uuid)
    requires Inv(db) && Admissible(db, tx) && InFlight(db.receipts, key) && GrantsAt(db, tx, key)
    ensures tx.ids.operationId !in db.issued && Apply(db, tx) == TakeOver(db, key, tx.ids.operationId)
  {
    PrepareOutcome(db, tx.cmd, tx.ids);
  }

  lemma GrantOfUnfinishedRetires(db: Db, tx: Tx, key: Uuid)
    requires Inv(db) && Admissible(db, tx) && InFlight(db.receipts, key) && GrantsAt(db, tx, key)
    ensures Retired(Apply(db, tx), db.receipts[key].operationId)
  {
    GrantOfUnfinishedTakesOver(db, tx, key);
    TakeoverRetires(db.receipts, db.issued, db, key, tx.ids.operationId);
  }

  lemma ReceiptKept(before: Db, after: Db, key: Uuid)
    requires Evolves(before, after) && key in before.receipts
    ensures key in after.receipts && after.receipts[key].identity == before.receipts[key].identity
    ensures before.receipts[key].state != InProgress ==> after.receipts[key] == before.receipts[key]
  {
    assert ReceiptEvolves(before.receipts[key], after.receipts[key], before.issued);
  }

  lemma RunTakeoverRetires(dbs: seq<Db>, txs: seq<Tx>, i: nat, key: Uuid)
    requires StoreRun(dbs, txs) && i < |txs|
    requires InFlight(dbs[i].receipts, key) && GrantsAt(dbs[i], txs[i], key)
    ensures Retired(dbs[i + 1], dbs[i].receipts[key].operationId)
  {
    RunKeepsInv(dbs, txs, i);
    GrantOfUnfinishedRetires(dbs[i], txs[i], key);
  }

  lemma RunReceiptKept(dbs: seq<Db>, txs: seq<Tx>, i: nat, m: nat, key: Uuid)
    requires StoreRun(dbs, txs) && i <= m <= |txs| && key in dbs[i].receipts
    ensures key in dbs[m].receipts && dbs[m].receipts[key].identity == dbs[i].receipts[key].identity
    ensures dbs[i].receipts[key].state != InProgress ==> dbs[m].receipts[key] == dbs[i].receipts[key]
  {
    RunEvolves(dbs, txs, i, m);
    ReceiptKept(dbs[i], dbs[m], key);
  }

  lemma RunRetired(dbs: seq<Db>, txs: seq<Tx>, i: nat, m: nat, o: Uuid)
    requires StoreRun(dbs, txs) && i <= m <= |txs| && Retired(dbs[i], o)
    ensures Retired(dbs[m], o)
  {
    RunEvolves(dbs, txs, i, m);
    RetiredForGood(dbs[i], dbs[m], o);
  }

  lemma RetiredByTakeover(dbs: seq<Db>, txs: seq<Tx>, i: nat, m: nat, key: Uuid)
    requires StoreRun(dbs, txs) && i < m <= |txs|
    requires InFlight(dbs[i].receipts, key) && GrantsAt(dbs[i], txs[i], key)
    ensures Retired(dbs[m], dbs[i].receipts[key].operationId)
    ensures key in dbs[m].receipts && dbs[m].receipts[key].identity == dbs[i].receipts[key].identity
  {
    RunTakeoverRetires(dbs, txs, i, key);
    RunRetired(dbs, txs, i + 1, m, dbs[i].receipts[key].operationId);
    RunReceiptKept(dbs, txs, i, m, key);
  }

  // ---------------------------------------------------------------- exactly-once replay

  /** The response a completing or failing call carries. */
  ghost function ResponseOf(tx: Tx): Option<StoredHttpResponse> {
    match tx
    case CompletingReconcile(_, _, _, response, _) => Some(response)
    case CompletingDelete(_, _, response, _) => Some(response)
    case CompletingCreate(_, _, _, response, _) => Some(response)
    case CompletingRevoke(_, _, response, _) => Some(response)
    case Failing(_, _, response, _) => Some(response)
    case _ => None
  }

  /** This call ends the operation of this key. */
  ghost predicate EndsAt(db: Db, tx: Tx, key: Uuid)
    requires Admissible(db, tx)
  {
    InFlight(db.receipts, key) && !InFlight(Apply(db, tx).receipts, key)
  }

  /** Sealing the response and opening it again gives it back, including its status and failed flag. */
  lemma FinishedDecodes(key: Uuid, row: ReceiptRow, response: StoredHttpResponse)
    requires 100 <= response.status <= 599
    ensures DecodeReceipt(key, FinishedRow(key, row, response)) == Ok(response)
  {
  }

  lemma OnlyFinishingEnds(db: Db, effect: Effect, key: Uuid)
    requires Enabled(db, effect) && InFlight(db.receipts, key) && !InFlight(Perform(db, effect).receipts, key)
    ensures effect.Finishing() && effect.Ended().key == key && 100 <= effect.response.status <= 599
  {
    if effect.Finishing() {
      EndedFinishes(db, effect);
    }
  }

  lemma EndingEffectStores(db: Db, effect: Effect, key: Uuid)
    requires Enabled(db, effect) && InFlight(db.receipts, key) && !InFlight(Perform(db, effect).receipts, key)
    ensures effect.Finishing() && key in Perform(db, effect).receipts
    ensures DecodeReceipt(key, Perform(db, effect).receipts[key]) == Ok(effect.response)
  {
    OnlyFinishingEnds(db, effect, key);
    EndedFinishes(db, effect);
    FinishedDecodes(key, db.receipts[key], effect.response);
  }

  lemma EffectCarriesResponse(db: Db, tx: Tx)
    requires Admissible(db, tx) && EffectOf(db, tx).Finishing()
    ensures ResponseOf(tx) == Some(EffectOf(db, tx).response)
  {
  }

  /** The call that ends an operation carries the response that the receipt gives back from then on. */
  lemma EndingStoresTheResponse(db: Db, tx: Tx, key: Uuid)
    requires Inv(db) && Admissible(db, tx) && EndsAt(db, tx, key)
    ensures ResponseOf(tx).Some? && key in Apply(db, tx).receipts
    ensures Apply(db, tx).receipts[key].state != InProgress
    ensures DecodeReceipt(key, Apply(db, tx).receipts[key]) == Ok(ResponseOf(tx).value)
  {
    ApplyPerforms(db, tx);
    EndingEffectStores(db, EffectOf(db, tx), key);
    EffectCarriesResponse(db, tx);
  }

  lemma ReplayOfFinished(db: Db, cmd: Command, ids: FreshIds, response: StoredHttpResponse)
    requires ValidateCommand(cmd).None? && cmd.operation.key in db.receipts
    requires db.receipts[cmd.operation.key].state != InProgress
    requires DecodeReceipt(cmd.operation.key, db.receipts[cmd.operation.key]) == Ok(response)
    ensures PrepareStep(db, cmd, ids)
            == Step(db, if cmd.operation.identity == db.receipts[cmd.operation.key].identity
                        then Ok(Replay(response)) else Err(IdempotencyConflict))
  {
  }

  /** Exactly once: after the call that ends an operation, the receipt is frozen, every matching request replays that
      call's response, and every other request under the key conflicts; neither changes anything. */
  lemma EndedOperationReplays(dbs: seq<Db>, txs: seq<Tx>, i: nat, j: nat, cmd: Command, ids: FreshIds)
    requires StoreRun(dbs, txs) && i < j <= |txs| && EndsAt(dbs[i], txs[i], cmd.operation.key)
    requires WellFormed(cmd)
    ensures ResponseOf(txs[i]).Some? && cmd.operation.key in dbs[i + 1].receipts && cmd.operation.key in dbs[j].receipts
    ensures dbs[j].receipts[cmd.operation.key] == dbs[i + 1].receipts[cmd.operation.key]
    ensures cmd.operation.identity == dbs[i].receipts[cmd.operation.key].identity ==>
              PrepareStep(dbs[j], cmd, ids) == Step(dbs[j], Ok(Replay(ResponseOf(txs[i]).value)))
    ensures cmd.operation.identity != dbs[i].receipts[cmd.operation.key].identity && ValidateCommand(cmd).None? ==>
              PrepareStep(dbs[j], cmd, ids) == Step(dbs[j], Err(IdempotencyConflict))
  {
    var key := cmd.operation.key;
    FrozenAfterEnd(dbs, txs, i, j, key);
    RunKeepsInv(dbs, txs, j);
    if cmd.operation.identity == dbs[i].receipts[key].identity {
      GrantedCommandIsValid(dbs[j].receipts, dbs[j].issued, cmd);
    }
    if ValidateCommand(cmd).None? {
      ReplayOfFinished(dbs[j], cmd, ids, ResponseOf(txs[i]).value);
    }
  }

  lemma RunEndingStores(dbs: seq<Db>, txs: seq<Tx>, i: nat, key: Uuid)
    requires StoreRun(dbs, txs) && i < |txs| && EndsAt(dbs[i], txs[i], key)
    ensures ResponseOf(txs[i]).Some? && key in dbs[i + 1].receipts && dbs[i + 1].receipts[key].state != InProgress
    ensures DecodeReceipt(key, dbs[i + 1].receipts[key]) == Ok(ResponseOf(txs[i]).value)
  {
    RunKeepsInv(dbs, txs, i);
    EndingStoresTheResponse(dbs[i], txs[i], key);
  }

  lemma FrozenAfterEnd(dbs: seq<Db>, txs: seq<Tx>, i: nat, j: nat, key: Uuid)
    requires StoreRun(dbs, txs) && i < j <= |txs| && EndsAt(dbs[i], txs[i], key)
    ensures ResponseOf(txs[i]).Some? && key in dbs[i + 1].receipts && key in dbs[j].receipts
    ensures dbs[j].receipts[key] == dbs[i + 1].receipts[key] && dbs[j].receipts[key].state != InProgress
    ensures dbs[j].receipts[key].identity == dbs[i].receipts[key].identity
    ensures DecodeReceipt(key, dbs[j].receipts[key]) == Ok(ResponseOf(txs[i]).value)
  {
    RunEndingStores(dbs, txs, i, key);
    RunReceiptKept(dbs, txs, i + 1, j, key);
    RunReceiptKept(dbs, txs, i, j, key);
  }
}
