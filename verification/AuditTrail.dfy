/** Every operation that ended left exactly one audit event, and no other mutating event exists. */
module AuditTrail {
  import opened Types
  import opened StoreSpec
  import opened Invariant
  import opened Grants
  import opened Completions
  import opened Transactions
  import opened Snapshot
  import opened StoreRuns

  predicate Mutating(action: Action) {
    action in {ReconcileAction, DeleteAction, CreateCredentialAction, RevokeCredentialAction}
  }

  /** The event describes the request, with this outcome. */
  predicate Recounts(audit: AuditEvent, identity: Identity, outcome: AuditOutcome) {
    && audit.organizationId == identity.organizationId
    && audit.projectId == identity.projectId
    && audit.serviceId == identity.serviceId
    && audit.principalId == identity.principalId
    && audit.action == identity.action
    && audit.outcome == outcome
  }

  /** The handlers audit a success as allowed and a failure as failed, and audit reads under the reads' own actions. */
  ghost predicate HandlerShaped(tx: Tx) {
    match tx
    case CompletingReconcile(cmd, _, _, response, audit) =>
      !response.failed && Recounts(audit, cmd.operation.identity, Allowed)
    case CompletingDelete(cmd, _, response, audit) =>
      !response.failed && Recounts(audit, cmd.operation.identity, Allowed)
    case CompletingCreate(cmd, _, _, response, audit) =>
      !response.failed && Recounts(audit, cmd.operation.identity, Allowed)
    case CompletingRevoke(cmd, _, response, audit) =>
      !response.failed && Recounts(audit, cmd.operation.identity, Allowed)
    case Failing(operation, _, _, audit) => Recounts(audit, operation.identity, FailedOutcome)
    case RecordingAudit(audit) => !Mutating(audit.action)
    case _ => true
  }

  predicate Ended(receipts: Receipts, key: Uuid) {
    key in receipts && receipts[key].state != InProgress
  }

  /** The event is the one an ended operation left. */
  predicate Settles(receipts: Receipts, key: Uuid, audit: AuditEvent) {
    && Ended(receipts, key)
    && Recounts(audit, receipts[key].identity, if receipts[key].state == Failed then FailedOutcome else Allowed)
  }

  /** One receipt for each mutating event, none for the others, each ended receipt exactly once. */
  ghost predicate Matching(audit: seq<AuditEvent>, receipts: Receipts, owners: seq<Option<Uuid>>) {
    && |owners| == |audit|
    && (forall i | 0 <= i < |audit| :: owners[i].Some? <==> Mutating(audit[i].action))
    && (forall i | 0 <= i < |audit| && owners[i].Some? :: Settles(receipts, owners[i].value, audit[i]))
    && (forall i, j | 0 <= i < j < |audit| && owners[i].Some? :: owners[i] != owners[j])
    && (forall k | Ended(receipts, k) :: Some(k) in owners)
  }

  /** Mutating audit events and ended operations are in one-to-one correspondence. */
  ghost predicate AuditMatches(db: Db) {
    exists owners :: Matching(db.audit, db.receipts, owners)
  }

  // ---------------------------------------------------------------- one step

  /** Operations that ended are the same ones. */
  ghost predicate SameEnded(before: Receipts, after: Receipts) {
    && (forall k | Ended(before, k) :: Ended(after, k) && after[k] == before[k])
    && (forall k | Ended(after, k) :: Ended(before, k))
  }

  lemma MatchingKept(audit: seq<AuditEvent>, before: Receipts, after: Receipts, owners: seq<Option<Uuid>>)
    requires Matching(audit, before, owners) && SameEnded(before, after)
    ensures Matching(audit, after, owners)
  {
    forall i | 0 <= i < |audit| && owners[i].Some? ensures Settles(after, owners[i].value, audit[i]) {
      assert Settles(before, owners[i].value, audit[i]);
    }
  }

  lemma MatchingNoted(audit: seq<AuditEvent>, receipts: Receipts, owners: seq<Option<Uuid>>, event: AuditEvent)
    requires Matching(audit, receipts, owners) && !Mutating(event.action)
    ensures Matching(audit + [event], receipts, owners + [None])
  {
    forall k | Ended(receipts, k) ensures Some(k) in owners + [None] {
      assert Some(k) in owners;
    }
  }

  lemma MatchingEnded(audit: seq<AuditEvent>, receipts: Receipts, owners: seq<Option<Uuid>>, key: Uuid,
                      response: StoredHttpResponse, event: AuditEvent)
    requires Matching(audit, receipts, owners) && InFlight(receipts, key) && Mutating(receipts[key].identity.action)
    requires Recounts(event, receipts[key].identity, if response.failed then FailedOutcome else Allowed)
    ensures Matching(audit + [event], Finished(receipts, key, response), owners + [Some(key)])
  {
    var after, owners' := Finished(receipts, key, response), owners + [Some(key)];
    assert !Ended(receipts, key);
    forall i | 0 <= i < |audit| && owners[i].Some?
      ensures owners[i].value != key && Settles(after, owners[i].value, audit[i])
    {
      assert Settles(receipts, owners[i].value, audit[i]);
    }
    forall k | Ended(after, k) ensures Some(k) in owners' {
      assert k != key ==> Ended(receipts, k);
      assert owners'[|owners|] == Some(key);
    }
  }

  lemma UnendingKeepsEnded(db: Db, effect: Effect)
    requires Enabled(db, effect) && !effect.Finishing()
    ensures SameEnded(db.receipts, Perform(db, effect).receipts)
    ensures !effect.Notes? ==> Perform(db, effect).audit == db.audit
  {
    match effect {
      case Renews(operation, id) => CurrentReceipt(db.receipts, operation, id);
      case Grants(cmd, ids) => GrantKeepsEnded(db, cmd, ids, GrantedNames(db, cmd, ids));
      case Retakes(cmd, id) => TakeoverKeepsEnded(db, cmd.operation.key, id);
      case _ =>
    }
  }

  lemma GrantKeepsEnded(db: Db, cmd: Command, ids: FreshIds, names: Names)
    requires cmd.operation.key !in db.receipts
    ensures SameEnded(db.receipts, Reserve(db, cmd, ids, names).receipts) && Reserve(db, cmd, ids, names).audit == db.audit
  {
    NewRowNotEnded(db.receipts, cmd.operation.key, NewReceipt(db, cmd.operation.identity, ids.operationId));
  }

  lemma NewRowNotEnded(receipts: Receipts, key: Uuid, row: ReceiptRow)
    requires key !in receipts && row.state == InProgress
    ensures SameEnded(receipts, receipts[key := row])
  {
  }

  lemma TakeoverKeepsEnded(db: Db, key: Uuid, id: Uuid)
    requires InFlight(db.receipts, key)
    ensures SameEnded(db.receipts, TakeOver(db, key, id).receipts) && TakeOver(db, key, id).audit == db.audit
  {
  }

  lemma FinishingAudits(db: Db, effect: Effect)
    requires Enabled(db, effect) && effect.Finishing()
    ensures Perform(db, effect).audit == db.audit + [effect.audit]
  {
  }

  lemma EffectIsHandlerShaped(db: Db, tx: Tx)
    requires Admissible(db, tx) && HandlerShaped(tx)
    ensures var effect := EffectOf(db, tx);
            && (effect.Finishing() ==>
                  Recounts(effect.audit, effect.Ended().identity,
                           if effect.response.failed then FailedOutcome else Allowed))
            && (effect.Notes? ==> !Mutating(effect.audit.action))
  {
  }

  lemma StoredActionMutates(receipts: Receipts, issued: set<Uuid>, key: Uuid)
    requires ReceiptsOk(receipts, issued) && key in receipts
    ensures Mutating(receipts[key].identity.action)
  {
    assert ReceiptOk(key, receipts[key]);
  }

  lemma EffectKeepsMatching(db: Db, effect: Effect, owners: seq<Option<Uuid>>)
    requires ReceiptsOk(db.receipts, db.issued) && Enabled(db, effect) && Matching(db.audit, db.receipts, owners)
    requires effect.Finishing() ==>
               Recounts(effect.audit, effect.Ended().identity, if effect.response.failed then FailedOutcome else Allowed)
    requires effect.Notes? ==> !Mutating(effect.audit.action)
    ensures AuditMatches(Perform(db, effect))
  {
    var after := Perform(db, effect);
    if effect.Finishing() {
      var key := effect.Ended().key;
      EndedFinishes(db, effect);
      FinishingAudits(db, effect);
      StoredActionMutates(db.receipts, db.issued, key);
      MatchingEnded(db.audit, db.receipts, owners, key, effect.response, effect.audit);
      assert Matching(after.audit, after.receipts, owners + [Some(key)]);
    } else {
      UnendingKeepsEnded(db, effect);
      MatchingKept(db.audit, db.receipts, after.receipts, owners);
      if effect.Notes? {
        MatchingNoted(db.audit, after.receipts, owners, effect.audit);
        assert Matching(after.audit, after.receipts, owners + [None]);
      } else {
        assert Matching(after.audit, after.receipts, owners);
      }
    }
  }

  lemma AuditStep(db: Db, tx: Tx)
    requires Inv(db) && Admissible(db, tx) && HandlerShaped(tx) && AuditMatches(db)
    ensures AuditMatches(Apply(db, tx))
  {
    var owners :| Matching(db.audit, db.receipts, owners);
    ApplyPerforms(db, tx);
    EffectIsHandlerShaped(db, tx);
    EffectKeepsMatching(db, EffectOf(db, tx), owners);
  }

  // ---------------------------------------------------------------- whole runs

  /** Over every run of the handlers, mutating audit events correspond one to one to ended operations. */
  lemma {:induction false} AuditConserved(dbs: seq<Db>, txs: seq<Tx>, n: nat)
    requires StoreRun(dbs, txs) && n <= |txs| && (forall i | 0 <= i < n :: HandlerShaped(txs[i]))
    ensures AuditMatches(dbs[n])
  {
    if n == 0 {
      assert Matching(dbs[0].audit, dbs[0].receipts, []);
    } else {
      AuditConserved(dbs, txs, n - 1);
      RunKeepsInv(dbs, txs, n - 1);
      AuditStep(dbs[n - 1], txs[n - 1]);
    }
  }
}
