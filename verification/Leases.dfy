/** Leases: who may execute an operation, how often it was granted, and when it may be granted again. */
module Leases {
  import opened Types
  import opened StoreSpec
  import opened Invariant
  import opened Grants
  import opened Transactions
  import opened Snapshot
  import opened StoreRuns

  function Attempts(receipts: Receipts, key: Uuid): nat {
    if key in receipts then receipts[key].leaseAttempt else 0
  }

  ghost predicate RenewsAt(db: Db, tx: Tx, key: Uuid) {
    tx.Renewing? && tx.operation.key == key && RenewStep(db, tx.operation, tx.operationId).reply.Ok?
  }

  ghost predicate GrantEffect(effect: Effect, key: Uuid) {
    (effect.Grants? || effect.Retakes?) && effect.cmd.operation.key == key
  }

  ghost predicate RenewEffect(effect: Effect, key: Uuid) {
    effect.Renews? && effect.operation.key == key
  }

  /** How many times the operation of this key was granted in the first `n` steps. */
  ghost function Executions(dbs: seq<Db>, txs: seq<Tx>, key: Uuid, n: nat): nat
    requires n <= |txs| && |dbs| == |txs| + 1
  {
    if n == 0 then 0
    else Executions(dbs, txs, key, n - 1) + if GrantsAt(dbs[n - 1], txs[n - 1], key) then 1 else 0
  }

  /** The expiry set by the latest grant or renewal of this key in the first `n` steps. */
  ghost function Expiry(dbs: seq<Db>, txs: seq<Tx>, key: Uuid, n: nat): int
    requires n <= |txs| && |dbs| == |txs| + 1
  {
    if n == 0 then 0
    else if GrantsAt(dbs[n - 1], txs[n - 1], key) || RenewsAt(dbs[n - 1], txs[n - 1], key) then
      dbs[n - 1].clock + OPERATION_LEASE_SECONDS
    else Expiry(dbs, txs, key, n - 1)
  }

  // ---------------------------------------------------------------- one step

  lemma GrantReplyMatchesEffect(db: Db, tx: Tx, key: Uuid)
    requires Inv(db) && Admissible(db, tx) && tx.Preparing?
    ensures GrantsAt(db, tx, key) <==> GrantEffect(EffectOf(db, tx), key)
  {
    PrepareOutcome(db, tx.cmd, tx.ids);
  }

  lemma ReplyMatchesEffect(db: Db, tx: Tx, key: Uuid)
    requires Inv(db) && Admissible(db, tx)
    ensures GrantsAt(db, tx, key) <==> GrantEffect(EffectOf(db, tx), key)
    ensures RenewsAt(db, tx, key) <==> RenewEffect(EffectOf(db, tx), key)
  {
    if tx.Preparing? {
      GrantReplyMatchesEffect(db, tx, key);
    }
  }

  /** What one effect does to the lease columns of one key. */
  ghost predicate LeaseMoves(before: Receipts, after: Receipts, key: Uuid, granted: bool, renewed: bool, clock: int) {
    && Attempts(after, key) == Attempts(before, key) + (if granted then 1 else 0)
    && (InFlight(after, key) ==>
          after[key].leaseExpiresAt
          == if granted || renewed then Some(clock + OPERATION_LEASE_SECONDS)
             else if key in before then before[key].leaseExpiresAt else None)
    && (granted && key in before ==>
          before[key].leaseExpiresAt.Some? && before[key].leaseExpiresAt.value <= clock)
    && (key !in after ==> key !in before && !granted)
    && (InFlight(after, key) ==> granted || InFlight(before, key))
  }

  lemma FinishingMovesLease(db: Db, effect: Effect, key: Uuid)
    requires Enabled(db, effect) && effect.Finishing()
    ensures LeaseMoves(db.receipts, Perform(db, effect).receipts, key, false, false, db.clock)
  {
    EndedFinishes(db, effect);
  }

  lemma ReserveMovesLease(db: Db, cmd: Command, ids: FreshIds, names: Names, key: Uuid)
    requires cmd.operation.key !in db.receipts
    ensures LeaseMoves(db.receipts, Reserve(db, cmd, ids, names).receipts, key, key == cmd.operation.key, false, db.clock)
  {
  }

  lemma TakeOverMovesLease(db: Db, operation: OperationRequest, id: Uuid, key: Uuid)
    requires Lapsed(db, operation)
    ensures LeaseMoves(db.receipts, TakeOver(db, operation.key, id).receipts, key, key == operation.key, false, db.clock)
  {
  }

  lemma PerformMovesLease(db: Db, effect: Effect, key: Uuid)
    requires Enabled(db, effect)
    ensures LeaseMoves(db.receipts, Perform(db, effect).receipts, key, GrantEffect(effect, key),
                       RenewEffect(effect, key), db.clock)
  {
    if effect.Finishing() {
      FinishingMovesLease(db, effect, key);
    } else if effect.Grants? {
      ReserveMovesLease(db, effect.cmd, effect.ids, GrantedNames(db, effect.cmd, effect.ids), key);
    } else if effect.Retakes? {
      TakeOverMovesLease(db, effect.cmd.operation, effect.operationId, key);
    }
  }

  lemma LeaseStep(db: Db, tx: Tx, key: Uuid)
    requires Inv(db) && Admissible(db, tx)
    ensures LeaseMoves(db.receipts, Apply(db, tx).receipts, key, GrantsAt(db, tx, key), RenewsAt(db, tx, key), db.clock)
  {
    ReplyMatchesEffect(db, tx, key);
    ApplyPerforms(db, tx);
    PerformMovesLease(db, EffectOf(db, tx), key);
  }

  // ---------------------------------------------------------------- whole runs

  lemma RunLeaseStep(dbs: seq<Db>, txs: seq<Tx>, key: Uuid, n: nat)
    requires StoreRun(dbs, txs) && n < |txs|
    ensures LeaseMoves(dbs[n].receipts, dbs[n + 1].receipts, key, GrantsAt(dbs[n], txs[n], key),
                       RenewsAt(dbs[n], txs[n], key), dbs[n].clock)
  {
    RunKeepsInv(dbs, txs, n);
    LeaseStep(dbs[n], txs[n], key);
  }

  /** Attempts go up by one at each grant and not otherwise. */
  ghost predicate AttemptsCount(dbs: seq<Db>, txs: seq<Tx>, key: Uuid) {
    && |dbs| == |txs| + 1 && key !in dbs[0].receipts
    && (forall i {:trigger txs[i]} | 0 <= i < |txs| ::
          Attempts(dbs[i + 1].receipts, key)
          == Attempts(dbs[i].receipts, key) + if GrantsAt(dbs[i], txs[i], key) then 1 else 0)
  }

  lemma {:induction false} CountedAttempts(dbs: seq<Db>, txs: seq<Tx>, key: Uuid, n: nat)
    requires AttemptsCount(dbs, txs, key) && n <= |txs|
    ensures Attempts(dbs[n].receipts, key) == Executions(dbs, txs, key, n)
  {
    if n > 0 {
      CountedAttempts(dbs, txs, key, n - 1);
      assert Attempts(dbs[n].receipts, key)
          == Attempts(dbs[n - 1].receipts, key) + if GrantsAt(dbs[n - 1], txs[n - 1], key) then 1 else 0;
    }
  }

  lemma AttemptsTellTheRun(dbs: seq<Db>, txs: seq<Tx>, key: Uuid, n: nat)
    requires StoreRun(dbs, txs) && n <= |txs|
    ensures Attempts(dbs[n].receipts, key) == Executions(dbs, txs, key, n)
  {
    forall i | 0 <= i < |txs|
      ensures Attempts(dbs[i + 1].receipts, key)
              == Attempts(dbs[i].receipts, key) + if GrantsAt(dbs[i], txs[i], key) then 1 else 0
    {
      RunLeaseStep(dbs, txs, key, i);
    }
    CountedAttempts(dbs, txs, key, n);
  }

  /** The expiry is set at each grant and renewal and not otherwise, and only a grant makes an operation unfinished. */
  ghost predicate ExpiryMoves(dbs: seq<Db>, txs: seq<Tx>, key: Uuid) {
    && |dbs| == |txs| + 1 && key !in dbs[0].receipts
    && (forall i {:trigger txs[i]} | 0 <= i < |txs| && InFlight(dbs[i + 1].receipts, key) ::
          if GrantsAt(dbs[i], txs[i], key) || RenewsAt(dbs[i], txs[i], key) then
            dbs[i + 1].receipts[key].leaseExpiresAt == Some(dbs[i].clock + OPERATION_LEASE_SECONDS)
          else
            InFlight(dbs[i].receipts, key)
            && dbs[i + 1].receipts[key].leaseExpiresAt == dbs[i].receipts[key].leaseExpiresAt)
  }

  lemma {:induction false} MovedExpiry(dbs: seq<Db>, txs: seq<Tx>, key: Uuid, n: nat)
    requires ExpiryMoves(dbs, txs, key) && n <= |txs| && InFlight(dbs[n].receipts, key)
    ensures dbs[n].receipts[key].leaseExpiresAt == Some(Expiry(dbs, txs, key, n))
  {
    var last := txs[n - 1];
    if !GrantsAt(dbs[n - 1], last, key) && !RenewsAt(dbs[n - 1], last, key) {
      MovedExpiry(dbs, txs, key, n - 1);
    }
  }

  lemma RunMovesExpiry(dbs: seq<Db>, txs: seq<Tx>, key: Uuid)
    requires StoreRun(dbs, txs)
    ensures ExpiryMoves(dbs, txs, key)
  {
    forall i | 0 <= i < |txs| && InFlight(dbs[i + 1].receipts, key)
      ensures if GrantsAt(dbs[i], txs[i], key) || RenewsAt(dbs[i], txs[i], key) then
                dbs[i + 1].receipts[key].leaseExpiresAt == Some(dbs[i].clock + OPERATION_LEASE_SECONDS)
              else
                InFlight(dbs[i].receipts, key)
                && dbs[i + 1].receipts[key].leaseExpiresAt == dbs[i].receipts[key].leaseExpiresAt
    {
      RunLeaseStep(dbs, txs, key, i);
    }
  }

  /** The stored attempt number is the number of grants ever made, and the stored expiry is the one set last. */
  lemma LeaseColumnsTellTheRun(dbs: seq<Db>, txs: seq<Tx>, key: Uuid, n: nat)
    requires StoreRun(dbs, txs) && n <= |txs|
    ensures Attempts(dbs[n].receipts, key) == Executions(dbs, txs, key, n)
    ensures InFlight(dbs[n].receipts, key) ==> dbs[n].receipts[key].leaseExpiresAt == Some(Expiry(dbs, txs, key, n))
  {
    AttemptsTellTheRun(dbs, txs, key, n);
    if InFlight(dbs[n].receipts, key) {
      RunMovesExpiry(dbs, txs, key);
      MovedExpiry(dbs, txs, key, n);
    }
  }

  /** A grant after the first happens only when the clock has reached the expiry set by the latest grant or renewal. */
  lemma LaterGrantsWaitForExpiry(dbs: seq<Db>, txs: seq<Tx>, key: Uuid, n: nat)
    requires StoreRun(dbs, txs) && n < |txs| && GrantsAt(dbs[n], txs[n], key) && Executions(dbs, txs, key, n) > 0
    ensures Expiry(dbs, txs, key, n) <= dbs[n].clock
  {
    LeaseColumnsTellTheRun(dbs, txs, key, n);
    RunLeaseStep(dbs, txs, key, n);
    RunKeepsInv(dbs, txs, n);
    assert ReceiptOk(key, dbs[n].receipts[key]);
  }

  ghost predicate ClockRuns(dbs: seq<Db>) {
    forall i, j | 0 <= i <= j < |dbs| :: dbs[i].clock <= dbs[j].clock
  }

  lemma ClockNeverGoesBack(dbs: seq<Db>, txs: seq<Tx>)
    requires StoreRun(dbs, txs)
    ensures ClockRuns(dbs)
  {
    forall i, j | 0 <= i <= j < |dbs| ensures dbs[i].clock <= dbs[j].clock {
      RunEvolves(dbs, txs, i, j);
    }
  }

  lemma {:induction false} ExpiryIsAfterGrant(dbs: seq<Db>, txs: seq<Tx>, key: Uuid, i: nat, n: nat)
    requires |dbs| == |txs| + 1 && ClockRuns(dbs) && i < n <= |txs| && GrantsAt(dbs[i], txs[i], key)
    ensures dbs[i].clock + OPERATION_LEASE_SECONDS <= Expiry(dbs, txs, key, n)
    ensures Executions(dbs, txs, key, n) > 0
  {
    if i + 1 < n {
      ExpiryIsAfterGrant(dbs, txs, key, i, n - 1);
    }
  }

  /** Two grants of one operation are at least a full lease apart, so of any number of retries within one lease
      exactly one executes. */
  lemma GrantsAreALeaseApart(dbs: seq<Db>, txs: seq<Tx>, key: Uuid, i: nat, j: nat)
    requires StoreRun(dbs, txs) && i < j < |txs|
    requires GrantsAt(dbs[i], txs[i], key) && GrantsAt(dbs[j], txs[j], key)
    ensures dbs[i].clock + OPERATION_LEASE_SECONDS <= dbs[j].clock
  {
    ClockNeverGoesBack(dbs, txs);
    ExpiryIsAfterGrant(dbs, txs, key, i, j);
    LaterGrantsWaitForExpiry(dbs, txs, key, j);
  }

  /** A retry before the expiry is told who is executing, and changes nothing. */
  lemma EarlyRetryIsTurnedAway(db: Db, cmd: Command, ids: FreshIds)
    requires Inv(db) && WellFormed(cmd) && InFlight(db.receipts, cmd.operation.key)
    requires db.receipts[cmd.operation.key].identity == cmd.operation.identity
    requires db.clock < db.receipts[cmd.operation.key].leaseExpiresAt.value
    ensures PrepareStep(db, cmd, ids) == Step(db, Ok(StillInProgress(db.receipts[cmd.operation.key].operationId)))
  {
    GrantedCommandIsValid(db.receipts, db.issued, cmd);
    assert ReceiptOk(cmd.operation.key, db.receipts[cmd.operation.key]);
  }
}
