/** Completions record only keys in hand, and strike off only what is gone from Garage. */
module Remains {
  import opened Types
  import opened StoreSpec
  import opened Contexts
  import opened GarageModel
  import opened Handlers
  import opened Executors
  import opened WorldInvariant

  // ---------------------------------------------------------------- ageing

  lemma KeysGoneAge(credentials: Credentials, g: Garage, h: Garage)
    requires KeysGone(credentials, g) && Ages(g, h)
    ensures KeysGone(credentials, h)
  {
  }

  lemma BucketsGoneAge(services: Services, buckets: Buckets, g: Garage, h: Garage)
    requires BucketsGone(services, buckets, g) && Ages(g, h)
    ensures BucketsGone(services, buckets, h)
  {
  }

  // ---------------------------------------------------------------- the four completions

  /** Deletion strikes off exactly the keys the executor walked and the bucket it removed. */
  lemma DeletionLeavesNothing(db: Db, g: Garage, o: Uuid, cmd: Command, context: Context, receipts: Receipts,
                              audit: AuditEvent)
    requires KeysGone(db.credentials, g) && BucketsGone(db.services, db.buckets, g)
    requires WellFormed(cmd) && cmd.payload.Delete? && cmd.ServiceId() in db.services
    requires Current(db.receipts, cmd.operation.key, o)
    requires db.receipts[cmd.operation.key].identity == cmd.operation.identity
    requires Describes(db, db.receipts[cmd.operation.key], context) && context.bucket.physicalBucketId.Some?
    requires DeadUpTo(g, context.garageKeyIds, |context.garageKeyIds|)
    requires BucketDead(g, context.bucket.physicalBucketId.value)
    ensures KeysGone(Removed(db, cmd, o, receipts, audit).credentials, g)
    ensures BucketsGone(Removed(db, cmd, o, receipts, audit).services, db.buckets, g)
  {
    var s, after := cmd.ServiceId(), Removed(db, cmd, o, receipts, audit);
    var own := CredentialsOf(db.credentials, s);
    forall c | c in after.credentials && after.credentials[c].status == Revoked
      ensures KeyDead(g, after.credentials[c].garageKeyId)
    {
      if db.credentials[c].status == Active {
        assert c in own;
        ActiveKeysExact(own, db.credentials[c].garageKeyId);
        assert db.credentials[c].garageKeyId in context.garageKeyIds;
      }
    }
  }

  /** Revocation strikes off a credential whose key is dead. */
  lemma RevocationLeavesNothing(db: Db, g: Garage, cmd: Command, context: Context, row: ReceiptRow, receipts: Receipts,
                                audit: AuditEvent)
    requires KeysGone(db.credentials, g) && WellFormed(cmd) && cmd.payload.RevokeCredential?
    requires row.identity == cmd.operation.identity && Describes(db, row, context)
    requires context.alreadyRevoked || KeyDead(g, context.garageKeyId)
    ensures KeysGone(Withdrawn(db, cmd, receipts, audit).credentials, g)
  {
  }

  lemma IssuingRecordsKnownKey(db: Db, g: Garage, o: Uuid, cmd: Command, credential: NewCredential, receipts: Receipts,
                               audit: AuditEvent)
    requires KeysGone(db.credentials, g) && credential.garageKeyId in g.keys
    requires credential.accessKeyId == credential.garageKeyId
    ensures KeysGone(Issued(db, cmd, o, credential, receipts, audit).credentials, g)
  {
  }

  lemma ReconcileRecordsKnownBucket(db: Db, g: Garage, o: Uuid, cmd: Command, b: string, receipts: Receipts,
                                    audit: AuditEvent)
    requires BucketsGone(db.services, db.buckets, g) && b in g.buckets && cmd.payload.Reconcile?
    requires cmd.payload.spec.quotaBytes <= I64_MAX && cmd.payload.spec.quotaObjects <= I64_MAX
    ensures BucketsGone(Reconciled(db, cmd, o, b, receipts, audit).services,
                        Reconciled(db, cmd, o, b, receipts, audit).buckets, g)
  {
  }

  // ---------------------------------------------------------------- hands

  /** Every recorded key was recorded before, except perhaps one. */
  ghost predicate RecordsOnly(before: Credentials, after: Credentials, k: Option<string>) {
    forall c | c in after ::
      (c in before && after[c].garageKeyId == before[c].garageKeyId) || k == Some(after[c].garageKeyId)
  }

  lemma StaysUnrecorded(before: Credentials, after: Credentials, k: Option<string>, held: string)
    requires RecordsOnly(before, after, k) && Unrecorded(before, held) && k != Some(held)
    ensures Unrecorded(after, held)
  {
  }

  /** A step of one execution that lets go of its key, keeps it, or takes up a brand-new one. */
  lemma HandsMoved(credentials: Credentials, g: Garage, execs: map<Uuid, Exec>, o: Uuid, pc: Pc)
    requires HandsOk(credentials, execs) && ProgramsOk(g, execs) && KeysGone(credentials, g) && o in execs
    requires Held(pc).None? || Held(pc) == Held(execs[o].pc) || Held(pc).value !in g.keys
    ensures HandsOk(credentials, execs[o := execs[o].(pc := pc)])
  {
    var after := execs[o := execs[o].(pc := pc)];
    forall p, k | HoldsKey(after, p, k) ensures HoldsKey(execs, p, k) || (p == o && k !in g.keys) {
    }
    forall p, k | HoldsKey(execs, p, k) ensures k in g.keys {
      HeldIsKnown(g, execs, p, k);
    }
  }

  lemma HeldIsKnown(g: Garage, execs: map<Uuid, Exec>, o: Uuid, k: string)
    requires ProgramsOk(g, execs) && HoldsKey(execs, o, k)
    ensures k in g.keys
  {
    assert ProgramOk(g, execs[o]);
  }

  /** Recording the key in one hand, which thereby lets go, leaves the other hands unrecorded. */
  lemma HandsRecorded(before: Credentials, after: Credentials, execs: map<Uuid, Exec>, o: Uuid, pc: Pc,
                      k: Option<string>)
    requires HandsOk(before, execs) && RecordsOnly(before, after, k) && o in execs
    requires k.Some? ==> HoldsKey(execs, o, k.value) && Held(pc).None?
    requires Held(pc).None? || Held(pc) == Held(execs[o].pc)
    ensures HandsOk(after, execs[o := execs[o].(pc := pc)])
  {
    var execs' := execs[o := execs[o].(pc := pc)];
    forall p, held | HoldsKey(execs', p, held) ensures HoldsKey(execs, p, held) && Unrecorded(after, held) {
      assert HoldsKey(execs, p, held);
      StaysUnrecorded(before, after, k, held);
    }
  }

  // ---------------------------------------------------------------- discards

  lemma DiscardIsKnown(g: Garage, execs: map<Uuid, Exec>, call: Loose)
    requires LooseOk(g, execs, call) && Discarded(call.stage).Some?
    ensures Discarded(call.stage).value in g.keys
  {
  }

  lemma DiscardsMoved(credentials: Credentials, g: Garage, execs: map<Uuid, Exec>, loose: set<Loose>, o: Uuid, pc: Pc)
    requires DiscardsOk(credentials, execs, loose) && AllLooseOk(g, execs, loose) && o in execs
    requires Held(pc).None? || Held(pc) == Held(execs[o].pc) || Held(pc).value !in g.keys
    ensures DiscardsOk(credentials, execs[o := execs[o].(pc := pc)], loose)
  {
    var after := execs[o := execs[o].(pc := pc)];
    forall call, p | call in loose && Discarded(call.stage).Some?
      ensures !HoldsKey(after, p, Discarded(call.stage).value)
    {
      DiscardIsKnown(g, execs, call);
      assert !HoldsKey(execs, p, Discarded(call.stage).value) && !HoldsKey(execs, o, Discarded(call.stage).value);
    }
  }

  lemma DiscardsRecorded(before: Credentials, after: Credentials, execs: map<Uuid, Exec>, loose: set<Loose>, o: Uuid,
                         k: Option<string>)
    requires DiscardsOk(before, execs, loose) && RecordsOnly(before, after, k)
    requires k.Some? ==> HoldsKey(execs, o, k.value)
    ensures DiscardsOk(after, execs, loose)
  {
    forall call | call in loose && Discarded(call.stage).Some? ensures Unrecorded(after, Discarded(call.stage).value) {
      StaysUnrecorded(before, after, k, Discarded(call.stage).value);
    }
  }

  /** A call that gets loose discards, if anything, the key its executor then no longer holds. */
  lemma DiscardsGrow(credentials: Credentials, execs: map<Uuid, Exec>, loose: set<Loose>, o: Uuid, stage: Stage, pc: Pc)
    requires DiscardsOk(credentials, execs, loose) && HandsOk(credentials, execs) && o in execs
    requires execs[o].pc == Calling(stage) && (Held(pc).None? || Held(pc) == Held(execs[o].pc))
    requires Discarded(stage).Some? ==> Held(pc).None?
    ensures DiscardsOk(credentials, execs[o := execs[o].(pc := pc)], loose + {Loose(o, stage)})
  {
    var after := execs[o := execs[o].(pc := pc)];
    forall p, k | HoldsKey(after, p, k) ensures HoldsKey(execs, p, k) {
    }
    if Discarded(stage).Some? {
      var k := Discarded(stage).value;
      assert HoldsKey(execs, o, k) && Unrecorded(credentials, k);
      forall p ensures !HoldsKey(after, p, k) {
        assert HoldsKey(after, p, k) ==> HoldsKey(execs, p, k) && p == o;
      }
    }
  }

  // ---------------------------------------------------------------- loose calls

  lemma LooseAges(g: Garage, h: Garage, execs: map<Uuid, Exec>, loose: set<Loose>)
    requires AllLooseOk(g, execs, loose) && Ages(g, h)
    ensures AllLooseOk(h, execs, loose)
  {
    forall call | call in loose ensures LooseOk(h, execs, call) {
      StageStaysTrue(g, h, execs[call.operationId].cmd, execs[call.operationId].context, call.stage);
    }
  }

  lemma LooseMoved(g: Garage, execs: map<Uuid, Exec>, loose: set<Loose>, o: Uuid, pc: Pc)
    requires AllLooseOk(g, execs, loose) && o in execs && (Leaving(execs[o].pc) ==> Leaving(pc))
    ensures AllLooseOk(g, execs[o := execs[o].(pc := pc)], loose)
  {
  }

  lemma LooseGrows(g: Garage, execs: map<Uuid, Exec>, loose: set<Loose>, o: Uuid, stage: Stage)
    requires AllLooseOk(g, execs, loose) && o in execs && Leaving(execs[o].pc)
    requires StageFits(execs[o].cmd, execs[o].context, stage) && StageTrue(g, execs[o].cmd, execs[o].context, stage)
    ensures AllLooseOk(g, execs, loose + {Loose(o, stage)})
  {
  }
}
