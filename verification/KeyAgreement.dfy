/** Under the lease assumption, every recorded credential agrees with Garage until someone asks to take it away. */
module KeyAgreement {
  import opened Types
  import opened StoreSpec
  import opened Invariant
  import opened Completions
  import opened Transactions
  import opened Evolution
  import opened GarageModel
  import opened Handlers
  import opened Executors
  import opened WorldInvariant
  import opened WorldSteps
  import opened WorldRuns
  import opened OnTrack
  import opened LeaseTheorem
  import opened LeaseRuns

  // ---------------------------------------------------------------- the condition, read from the receipts

  /** A request to revoke the credential or to delete its service. */
  ghost predicate AsksToRemove(identity: Identity, c: Uuid, s: Uuid) {
    || identity.requestHash.body == RevokeCredential(c)
    || (identity.requestHash.body.Delete? && identity.serviceId == s)
  }

  /** No receipt, finished or not, asks to revoke the credential or to delete its service. */
  ghost predicate Undisturbed(db: Db, c: Uuid) {
    && c in db.credentials
    && (forall k | k in db.receipts :: !AsksToRemove(db.receipts[k].identity, c, db.credentials[c].serviceId))
  }

  lemma WasUndisturbed(before: Db, after: Db, c: Uuid)
    requires Evolves(before, after) && c in before.credentials && Undisturbed(after, c)
    ensures Undisturbed(before, c)
  {
    assert OnlyRevoked(before.credentials[c], after.credentials[c]);
    forall k | k in before.receipts ensures !AsksToRemove(before.receipts[k].identity, c, before.credentials[c].serviceId) {
      assert ReceiptEvolves(before.receipts[k], after.receipts[k], before.issued);
      assert k in after.receipts;
    }
  }

  // ---------------------------------------------------------------- calls that spare the key

  /** The call neither makes a key of the name nor touches the key. */
  ghost predicate Spares(call: Call, name: KeyName, k: string) {
    call != CreateKey(name) && KeyTarget(call) != Some(k)
  }

  /** The call spares the key that the credential's row records. */
  ghost predicate SparesRow(credentials: Credentials, c: Uuid, call: Call) {
    c in credentials && Spares(call, Deterministic(credentials[c].serviceId, c), credentials[c].garageKeyId)
  }

  lemma SparedKeyStays(g: Garage, call: Call, answer: Answer, name: KeyName, k: string, b: string, rights: Rights)
    requires OnlyKeyWith(g, name, k, b, rights) && Answers(g, call, answer) && Spares(call, name, k)
    ensures OnlyKeyWith(After(g, call, answer), name, k, b, rights)
  {
    var h := After(g, call, answer);
    forall id | Named(h, id, name) ensures id == k {
      assert Named(g, id, name);
    }
    assert h.keys[k] == g.keys[k];
  }

  /** A creation works under another name. */
  lemma CreationSpares(g: Garage, exec: Exec, stage: Stage, s: Uuid, c: Uuid, k: string)
    requires exec.cmd.payload.CreateCredential? && exec.context.CreateCredentialContext? && exec.context.credentialId != c
    requires StageFits(exec.cmd, exec.context, stage) && StageTrue(g, exec.cmd, exec.context, stage)
    requires k in g.keys && g.keys[k].name == Deterministic(s, c)
    ensures Spares(CallOf(exec.cmd, exec.context, stage), Deterministic(s, c), k)
  {
    if stage.Sweeping? {
      assert OwnKey(g, exec.cmd, exec.context, stage.keyIds[0]);
    }
  }

  /** A deletion of another service walks other keys. */
  lemma DeletionSpares(credentials: Credentials, exec: Exec, stage: Stage, c: Uuid)
    requires exec.cmd.payload.Delete? && StageFits(exec.cmd, exec.context, stage)
    requires exec.context.garageKeyIds == ActiveKeys(CredentialsOf(credentials, exec.cmd.ServiceId()))
    requires c in credentials && credentials[c].serviceId != exec.cmd.ServiceId()
    requires forall d | d in credentials && d != c :: credentials[d].garageKeyId != credentials[c].garageKeyId
    ensures SparesRow(credentials, c, CallOf(exec.cmd, exec.context, stage))
  {
    if stage.Revoking? {
      var own := CredentialsOf(credentials, exec.cmd.ServiceId());
      ActiveKeysExact(own, exec.context.garageKeyIds[stage.index]);
      var d :| d in own && own[d].garageKeyId == exec.context.garageKeyIds[stage.index];
      assert d in credentials && d != c;
    }
  }

  /** A revocation of another credential goes to another key. */
  lemma RevocationSpares(credentials: Credentials, exec: Exec, stage: Stage, c: Uuid)
    requires exec.cmd.payload.RevokeCredential? && StageFits(exec.cmd, exec.context, stage)
    requires var d := exec.cmd.payload.credentialId;
             d in credentials && d != c && credentials[d].garageKeyId == exec.context.garageKeyId
    requires c in credentials
    requires forall d | d in credentials && d != c :: credentials[d].garageKeyId != credentials[c].garageKeyId
    ensures SparesRow(credentials, c, CallOf(exec.cmd, exec.context, stage))
  {
  }

  lemma ReconcileSpares(exec: Exec, stage: Stage, name: KeyName, k: string)
    requires exec.cmd.payload.Reconcile? && StageFits(exec.cmd, exec.context, stage)
    ensures Spares(CallOf(exec.cmd, exec.context, stage), name, k)
  {
  }

  lemma OtherKeysDiffer(credentials: Credentials, services: Services, issued: set<Uuid>, c: Uuid)
    requires CredentialsOk(services, credentials, issued) && c in credentials
    ensures forall d | d in credentials && d != c :: credentials[d].garageKeyId != credentials[c].garageKeyId
  {
  }

  /** The request of a current operation does not ask to remove an undisturbed credential. */
  lemma CurrentDoesNotRemove(db: Db, o: Uuid, cmd: Command, c: Uuid)
    requires Granted(db.receipts, db.issued, o, cmd) && Undisturbed(db, c)
    ensures cmd.payload.Delete? ==> cmd.ServiceId() != db.credentials[c].serviceId
    ensures cmd.payload.RevokeCredential? ==> cmd.payload.credentialId != c
  {
    assert !AsksToRemove(db.receipts[cmd.operation.key].identity, c, db.credentials[c].serviceId);
  }

  lemma InformedCallSpares(db: Db, g: Garage, o: Uuid, exec: Exec, stage: Stage, c: Uuid)
    requires CredentialsOk(db.services, db.credentials, db.issued) && Undisturbed(db, c)
    requires Granted(db.receipts, db.issued, o, exec.cmd) && Current(db.receipts, exec.cmd.operation.key, o)
    requires Informed(db, o, exec.cmd, exec.context)
    requires StageFits(exec.cmd, exec.context, stage) && StageTrue(g, exec.cmd, exec.context, stage)
    requires exec.cmd.payload.CreateCredential? ==> exec.context.credentialId !in db.credentials
    requires db.credentials[c].garageKeyId in g.keys
    requires g.keys[db.credentials[c].garageKeyId].name == Deterministic(db.credentials[c].serviceId, c)
    ensures SparesRow(db.credentials, c, CallOf(exec.cmd, exec.context, stage))
  {
    var row := db.credentials[c];
    OtherKeysDiffer(db.credentials, db.services, db.issued, c);
    CurrentDoesNotRemove(db, o, exec.cmd, c);
    match exec.cmd.payload {
      case Reconcile(_, _, _) =>
        ReconcileSpares(exec, stage, Deterministic(row.serviceId, c), row.garageKeyId);
      case Delete(_, _) => DeletionSpares(db.credentials, exec, stage, c);
      case CreateCredential(_, _, _) => CreationSpares(g, exec, stage, row.serviceId, c, row.garageKeyId);
      case RevokeCredential(_) => RevocationSpares(db.credentials, exec, stage, c);
    }
  }

  // ---------------------------------------------------------------- one event

  lemma CurrentCallSpares(w: World, p: Uuid, stage: Stage, c: Uuid)
    requires WorldInv(w) && Holds(w, p) && Undisturbed(w.db, c) && KeyAgrees(w.db, w.garage, c)
    requires StageFits(w.execs[p].cmd, w.execs[p].context, stage)
    requires StageTrue(w.garage, w.execs[p].cmd, w.execs[p].context, stage)
    ensures SparesRow(w.db.credentials, c, CallOf(w.execs[p].cmd, w.execs[p].context, stage))
  {
    var exec := w.execs[p];
    assert Granted(w.db.receipts, w.db.issued, p, exec.cmd) && Informed(w.db, p, exec.cmd, exec.context);
    if exec.cmd.payload.CreateCredential? {
      CurrentIdIsUnused(w, p);
    }
    InformedCallSpares(w.db, w.garage, p, exec, stage, c);
  }

  lemma DiscardSpares(credentials: Credentials, k: string, c: Uuid)
    requires Unrecorded(credentials, k) && c in credentials
    ensures SparesRow(credentials, c, DeleteKey(k))
  {
  }

  lemma HeldIsUnrecorded(credentials: Credentials, execs: map<Uuid, Exec>, o: Uuid)
    requires HandsOk(credentials, execs) && o in execs && execs[o].pc.Calling? && execs[o].pc.stage.Cleaning?
    ensures Unrecorded(credentials, execs[o].pc.stage.keyId)
  {
    assert HoldsKey(execs, o, execs[o].pc.stage.keyId);
  }

  lemma ReplySpares(w: World, o: Uuid, c: Uuid)
    requires WorldInv(w) && Undisturbed(w.db, c) && KeyAgrees(w.db, w.garage, c)
    requires AtCall(w, o) && (!w.execs[o].pc.stage.Cleaning? ==> Holds(w, o))
    ensures SparesRow(w.db.credentials, c, CallAt(w, o))
  {
    var stage := w.execs[o].pc.stage;
    if stage.Cleaning? {
      HeldIsUnrecorded(w.db.credentials, w.execs, o);
      DiscardSpares(w.db.credentials, stage.keyId, c);
    } else {
      assert ProgramOk(w.garage, w.execs[o]);
      CurrentCallSpares(w, o, stage, c);
    }
  }

  lemma LooseCleaningSpares(w: World, call: Loose, c: Uuid)
    requires DiscardsOk(w.db.credentials, w.execs, w.loose) && LooseFits(w, call) && call.stage.Cleaning?
    requires c in w.db.credentials
    ensures SparesRow(w.db.credentials, c, LooseCall(w, call))
  {
    DiscardSpares(w.db.credentials, call.stage.keyId, c);
  }

  lemma LooseCallSpares(w: World, call: Loose, c: Uuid)
    requires WorldInv(w) && Undisturbed(w.db, c) && KeyAgrees(w.db, w.garage, c)
    requires LooseFits(w, call) && Holds(w, call.operationId)
    ensures SparesRow(w.db.credentials, c, LooseCall(w, call))
  {
    LooseUnclaiming(w.garage, w.garage, w.execs, w.loose, call);
    CurrentCallSpares(w, call.operationId, call.stage, c);
  }

  lemma LateSpares(w: World, call: Loose, c: Uuid)
    requires WorldInv(w) && Undisturbed(w.db, c) && KeyAgrees(w.db, w.garage, c)
    requires LooseFits(w, call) && (!call.stage.Cleaning? ==> Holds(w, call.operationId))
    ensures SparesRow(w.db.credentials, c, LooseCall(w, call))
  {
    if call.stage.Cleaning? {
      LooseCleaningSpares(w, call, c);
    } else {
      LooseCallSpares(w, call, c);
    }
  }

  lemma SparedAgrees(db: Db, g: Garage, call: Call, answer: Answer, c: Uuid)
    requires KeyAgrees(db, g, c) && Answers(g, call, answer)
    requires SparesRow(db.credentials, c, call)
    ensures KeyAgrees(db, After(g, call, answer), c)
  {
    var row := db.credentials[c];
    SparedKeyStays(g, call, answer, Deterministic(row.serviceId, c), row.garageKeyId,
                   db.buckets[row.serviceId].physicalBucketId.value, RightsFor(row.permissions));
  }

  /** What a timely event does to Garage leaves an undisturbed credential in agreement. */
  lemma GarageSpares(w: World, e: Event, c: Uuid)
    requires WorldInv(w) && Possible(w, e) && Timely(w, e) && Undisturbed(w.db, c) && KeyAgrees(w.db, w.garage, c)
    ensures KeyAgrees(w.db, GarageAfter(w, e), c)
  {
    if e.Reply? {
      ReplySpares(w, e.operationId, c);
      SparedAgrees(w.db, w.garage, CallAt(w, e.operationId), e.answer, c);
    } else if e.Late? {
      LateSpares(w, e.call, c);
      SparedAgrees(w.db, w.garage, LooseCall(w, e.call), e.answer, c);
    }
  }

  /** What the tables go through does not matter to it. */
  lemma TablesSpare(before: Db, after: Db, g: Garage, c: Uuid)
    requires KeyAgrees(before, g, c) && Evolves(before, after) && PhysicalIdsStay(before.buckets, after.buckets)
    ensures KeyAgrees(after, g, c)
  {
    assert OnlyRevoked(before.credentials[c], after.credentials[c]);
  }

  lemma TimelyEventSpares(w: World, e: Event, c: Uuid)
    requires WorldInv(w) && Possible(w, e) && Timely(w, e) && Undisturbed(w.db, c) && KeyAgrees(w.db, w.garage, c)
    ensures Admissible(w.db, TxOf(w, e)) && KeyAgrees(Apply(w.db, TxOf(w, e)), GarageAfter(w, e), c)
  {
    EventsAreTransactions(w, e);
    GarageSpares(w, e, c);
    ApplyEvolves(w.db, TxOf(w, e));
    PhysicalIdsKept(w, e);
    TablesSpare(w.db, Apply(w.db, TxOf(w, e)), GarageAfter(w, e), c);
  }

  // ---------------------------------------------------------------- new rows

  lemma OtherCompletionsIssueNothing(db: Db, o: Uuid, exec: Exec, requestId: string)
    requires exec.pc.Completing? && PcFits(exec.cmd, exec.context, exec.pc) && !exec.pc.product.KeyReady?
    requires WellFormed(exec.cmd)
    ensures var tx := CompletionOf(o, exec.cmd, exec.context, exec.pc.product, requestId);
            Admissible(db, tx) && Apply(db, tx).credentials.Keys == db.credentials.Keys
  {
    match CompletionOf(o, exec.cmd, exec.context, exec.pc.product, requestId) {
      case CompletingReconcile(cmd, _, b, response, audit) => ReconcileOutcome(db, cmd, o, b, response, audit);
      case CompletingDelete(cmd, _, response, audit) => DeletionIssuesNothing(db, cmd, o, response, audit);
      case CompletingRevoke(cmd, _, response, audit) => RevocationIssuesNothing(db, cmd, o, response, audit);
    }
  }

  lemma DeletionIssuesNothing(db: Db, cmd: Command, o: Uuid, response: StoredHttpResponse, audit: AuditEvent)
    requires cmd.payload.Delete?
    ensures CompleteDeleteStep(db, cmd, o, response, audit).db.credentials.Keys == db.credentials.Keys
  {
    DeleteOutcome(db, cmd, o, response, audit);
  }

  lemma RevocationIssuesNothing(db: Db, cmd: Command, o: Uuid, response: StoredHttpResponse, audit: AuditEvent)
    requires cmd.payload.RevokeCredential?
    ensures CompleteRevokeStep(db, cmd, o, response, audit).db.credentials.Keys == db.credentials.Keys
  {
    RevokeOutcome(db, cmd, o, response, audit);
  }

  lemma CreationIssuesOne(db: Db, o: Uuid, exec: Exec, requestId: string, c: Uuid)
    requires exec.pc.Completing? && PcFits(exec.cmd, exec.context, exec.pc) && exec.pc.product.KeyReady?
    requires WellFormed(exec.cmd) && c !in db.credentials
    ensures var tx := CompletionOf(o, exec.cmd, exec.context, exec.pc.product, requestId);
            && Admissible(db, tx)
            && (c in Apply(db, tx).credentials ==> CompletionError(db, tx).None? && exec.context.credentialId == c)
  {
    var tx := CompletionOf(o, exec.cmd, exec.context, exec.pc.product, requestId);
    CreateOutcome(db, tx.cmd, o, tx.credential, tx.response, tx.audit);
  }

  /** A credential is recorded only when a creation commits it. */
  lemma NewRowIsIssued(w: World, e: Event, c: Uuid)
    requires Possible(w, e) && c !in w.db.credentials
    requires Admissible(w.db, TxOf(w, e)) && c in Apply(w.db, TxOf(w, e)).credentials
    ensures CommitsAt(w, e) && w.execs[e.operationId].pc.product.KeyReady?
    ensures w.execs[e.operationId].context.CreateCredentialContext? && w.execs[e.operationId].context.credentialId == c
  {
    if e.Commit? {
      var exec := w.execs[e.operationId];
      if exec.pc.product.KeyReady? {
        CreationIssuesOne(w.db, e.operationId, exec, e.requestId, c);
      } else {
        OtherCompletionsIssueNothing(w.db, e.operationId, exec, e.requestId);
      }
    } else {
      QuietEvent(w, e);
    }
  }

  lemma TrackedRowAgrees(w: World, e: Event)
    requires CommitsAt(w, e) && w.execs[e.operationId].pc.product.KeyReady?
    requires var o := e.operationId;
             && Granted(w.db.receipts, w.db.issued, o, w.execs[o].cmd)
             && Informed(w.db, o, w.execs[o].cmd, w.execs[o].context)
             && Current(w.db.receipts, w.execs[o].cmd.operation.key, o)
             && ProgramOk(w.garage, w.execs[o])
             && Track(w.garage, w.execs[o].cmd, w.execs[o].context, w.execs[o].pc)
    requires w.execs[e.operationId].context.CreateCredentialContext? && Admissible(w.db, TxOf(w, e))
    ensures KeyAgrees(Apply(w.db, TxOf(w, e)), w.garage, w.execs[e.operationId].context.credentialId)
  {
    IssuedKeyAgrees(w.db, w.garage, e.operationId, w.execs[e.operationId], e.requestId);
  }

  lemma NewRowAgrees(w: World, e: Event, c: Uuid)
    requires WorldInv(w) && LeaseInv(w) && Possible(w, e) && c !in w.db.credentials
    requires Admissible(w.db, TxOf(w, e)) && c in Apply(w.db, TxOf(w, e)).credentials
    ensures KeyAgrees(Apply(w.db, TxOf(w, e)), GarageAfter(w, e), c)
  {
    NewRowIsIssued(w, e, c);
    TrackAtCommit(w, e);
    TrackedRowAgrees(w, e);
  }

  // ---------------------------------------------------------------- every run

  ghost predicate AllAgree(w: World) {
    forall c | Undisturbed(w.db, c) :: KeyAgrees(w.db, w.garage, c)
  }

  lemma TimelyEventKeepsAgreement(w: World, e: Event)
    requires WorldInv(w) && LeaseInv(w) && Possible(w, e) && Timely(w, e) && AllAgree(w)
    ensures AllAgree(Move(w, e))
  {
    EventsAreTransactions(w, e);
    ApplyEvolves(w.db, TxOf(w, e));
    var after := Apply(w.db, TxOf(w, e));
    forall c | Undisturbed(after, c) ensures KeyAgrees(after, GarageAfter(w, e), c) {
      if c in w.db.credentials {
        WasUndisturbed(w.db, after, c);
        TimelyEventSpares(w, e, c);
      } else {
        NewRowAgrees(w, e, c);
      }
    }
  }

  lemma AgreementStep(ws: seq<World>, es: seq<Event>, n: nat)
    requires TimelyRun(ws, es) && n < |es| && AllAgree(ws[n])
    ensures AllAgree(ws[n + 1])
  {
    WorldRunKeepsInv(ws, es, n);
    TimelyRunKeepsLeaseInv(ws, es, n);
    TimelyEventKeepsAgreement(ws[n], es[n]);
  }

  lemma {:induction false} TimelyRunAgrees(ws: seq<World>, es: seq<Event>, n: nat)
    requires TimelyRun(ws, es) && n <= |es|
    ensures AllAgree(ws[n])
  {
    if n > 0 {
      TimelyRunAgrees(ws, es, n - 1);
      AgreementStep(ws, es, n - 1);
    }
  }

  lemma RevokedDisagrees(db: Db, g: Garage, c: Uuid)
    requires KeysGone(db.credentials, g) && c in db.credentials && db.credentials[c].status == Revoked
    ensures !KeyAgrees(db, g, c)
  {
  }

  /** In every state of every timely run, every recorded credential agrees with Garage, unless a receipt asks to revoke it
      or to delete its service. Once it is marked revoked, it agrees no more. */
  lemma RecordedKeysAgree(ws: seq<World>, es: seq<Event>, n: nat, c: Uuid)
    requires TimelyRun(ws, es) && n <= |es| && c in ws[n].db.credentials
    ensures Undisturbed(ws[n].db, c) ==> KeyAgrees(ws[n].db, ws[n].garage, c)
    ensures ws[n].db.credentials[c].status == Revoked ==> !KeyAgrees(ws[n].db, ws[n].garage, c)
  {
    TimelyRunAgrees(ws, es, n);
    if ws[n].db.credentials[c].status == Revoked {
      WorldRunKeepsInv(ws, es, n);
      RevokedDisagrees(ws[n].db, ws[n].garage, c);
    }
  }

  /** In every reachable world, whatever came before: the agreement of an undisturbed credential ends only by a Garage call
      that takes effect after its operation was taken over. */
  lemma OnlyLateCallsEndAgreement(ws: seq<World>, es: seq<Event>, n: nat, c: Uuid)
    requires WorldRun(ws, es) && n < |es| && Undisturbed(ws[n].db, c)
    requires KeyAgrees(ws[n].db, ws[n].garage, c) && !KeyAgrees(ws[n + 1].db, ws[n + 1].garage, c)
    ensures !Timely(ws[n], es[n])
  {
    WorldRunKeepsInv(ws, es, n);
    StoreStep(ws, es, n);
    assert ws[n + 1] == Move(ws[n], es[n]);
    if Timely(ws[n], es[n]) {
      TimelyEventSpares(ws[n], es[n], c);
    }
  }
}
