/** A timely run that ends in disagreement: two services that share a bucket known to Garage under both their names. */
module SharedBucket {
  import opened Types
  import opened Domain
  import opened StoreSpec
  import opened Invariant
  import opened Completions
  import opened Requests
  import opened Admission
  import opened Scenario
  import opened GarageModel
  import opened Handlers
  import opened Completing
  import opened OnTrack
  import opened WorldInvariant
  import opened WorldSteps
  import opened WorldRuns
  import opened LeaseTheorem
  import opened LeaseRuns
  import opened DeadBuckets
  import opened Events
  import opened Staging

  /** Reconciles of two services, and a bucket. */
  datatype Pair = Pair(first: Command, firstIds: FreshIds, second: Command, secondIds: FreshIds, bucketId: string,
                       requestId: string)

  ghost predicate ServiceRequest(cmd: Command) {
    WellFormed(cmd) && cmd.payload.Reconcile? && ValidateCommand(cmd).None? && Storable(cmd.payload.name)
  }

  ghost function WantedQuotas(cmd: Command): Quotas
    requires cmd.payload.Reconcile?
  {
    Quotas(cmd.payload.spec.quotaBytes, cmd.payload.spec.quotaObjects)
  }

  /** Different services that ask for different quotas under different bucket names. */
  ghost predicate Rivals(c: Pair) {
    && ServiceRequest(c.first) && ServiceRequest(c.second)
    && c.first.operation.key != c.second.operation.key && c.first.ServiceId() != c.second.ServiceId()
    && c.first.payload.spec.bucketName != c.second.payload.spec.bucketName
    && WantedQuotas(c.first) != WantedQuotas(c.second)
    && FreshFor({NIL}, c.firstIds) && FreshFor({NIL, c.firstIds.operationId}, c.secondIds)
    && c.bucketId != [] && ByteLength(c.bucketId) <= 256 && RequestIdOk(c.requestId)
  }

  /** The bucket is live and goes by both names. */
  ghost predicate Shared(g: Garage, c: Pair)
    requires Rivals(c)
  {
    && BucketLive(g, c.bucketId)
    && c.first.payload.spec.bucketName in g.buckets[c.bucketId].aliases
    && c.second.payload.spec.bucketName in g.buckets[c.bucketId].aliases
  }

  // ---------------------------------------------------------------- both reconciles are granted

  /** Both reconciles are under way and no service is recorded yet. */
  ghost predicate BothRequested(db: Db, c: Pair)
    requires Rivals(c)
  {
    && db.services == map[] && db.buckets == map[]
    && Current(db.receipts, c.first.operation.key, c.firstIds.operationId)
    && db.receipts[c.first.operation.key].identity == c.first.operation.identity
    && Current(db.receipts, c.second.operation.key, c.secondIds.operationId)
    && db.receipts[c.second.operation.key].identity == c.second.operation.identity
  }

  lemma SecondIsFresh(db: Db, c: Pair)
    requires Rivals(c) && BeingProvisioned(db, c.first, c.firstIds.operationId)
    ensures Fresh(db, c.second) && c.second.ServiceId() !in db.services
    ensures c.second.payload.spec.bucketName !in db.names
  {
    forall k | InFlight(db.receipts, k) ensures db.receipts[k].identity.serviceId != c.second.ServiceId() {
      assert k in db.receipts.Keys;
    }
  }

  lemma SecondRequested(db: Db, c: Pair)
    requires Rivals(c) && BeingProvisioned(db, c.first, c.firstIds.operationId)
    ensures BothRequested(Reserve(db, c.second, c.secondIds,
                                  db.names[c.second.payload.spec.bucketName := c.second.ServiceId()]), c)
  {
  }

  lemma SecondGranted(db: Db, c: Pair)
    requires Inv(db) && Rivals(c) && BeingProvisioned(db, c.first, c.firstIds.operationId)
    ensures var step := PrepareStep(db, c.second, c.secondIds);
            step.reply == Ok(Execute(c.secondIds.operationId, NewServiceContext(c.second))) && BothRequested(step.db, c)
  {
    SecondIsFresh(db, c);
    SecondRequested(db, c);
    NewServiceGranted(db, c.second, c.secondIds);
  }

  ghost predicate At(w: World, o: Uuid, cmd: Command, pc: Pc) {
    cmd.payload.Reconcile? && o in w.execs && w.execs[o] == Exec(cmd, NewServiceContext(cmd), pc)
  }

  /** The world while the first reconcile is the only one. */
  ghost predicate FirstAt(w: World, c: Pair, pc: Pc)
    requires Rivals(c)
  {
    && BeingProvisioned(w.db, c.first, c.firstIds.operationId) && w.db.issued == {NIL, c.firstIds.operationId}
    && At(w, c.firstIds.operationId, c.first, pc) && Shared(w.garage, c)
  }

  /** The world while both are under way. */
  ghost predicate BothAt(w: World, c: Pair, first: Pc, second: Pc)
    requires Rivals(c)
  {
    && BothRequested(w.db, c) && Shared(w.garage, c)
    && At(w, c.firstIds.operationId, c.first, first) && At(w, c.secondIds.operationId, c.second, second)
  }

  lemma FirstBegun(start: World, c: Pair) returns (es: seq<Event>, w: World)
    requires InitialWorld(start) && Rivals(c) && Shared(start.garage, c)
    ensures Leads(start, es, w) && FirstAt(w, c, Extending(Calling(Lookup)))
  {
    NothingYet(start);
    ProvisionBegins(start.db, c.first, c.firstIds);
    BeginLeads(start, [], start, c.first, c.firstIds, NewServiceContext(c.first));
    es := [] + [Begin(c.first, c.firstIds)];
    w := start.(db := PrepareStep(start.db, c.first, c.firstIds).db,
                execs := start.execs[c.firstIds.operationId := Exec(c.first, NewServiceContext(c.first),
                                                                    Extending(Calling(Lookup)))]);
  }

  lemma FirstRenewed(start: World, es: seq<Event>, w: World, c: Pair) returns (w': World)
    requires Leads(start, es, w) && Rivals(c) && FirstAt(w, c, Extending(Calling(Lookup)))
    ensures Leads(start, es + [Renew(c.firstIds.operationId)], w') && FirstAt(w', c, Calling(Lookup))
  {
    RenewingProvision(w.db, c.first, c.firstIds.operationId);
    RenewLeads(start, es, w, c.firstIds.operationId);
    w' := w.(db := Renewed(w.db, c.first.operation.key), execs := Moved(w.execs, c.firstIds.operationId, Calling(Lookup)));
  }

  lemma SecondOpens(w: World, c: Pair) returns (w': World)
    requires Inv(w.db) && Rivals(c) && FirstAt(w, c, Calling(Lookup))
    ensures Opens(w, c.second, c.secondIds, NewServiceContext(c.second), w')
    ensures BothAt(w', c, Calling(Lookup), Extending(Calling(Lookup)))
  {
    SecondGranted(w.db, c);
    w' := w.(db := PrepareStep(w.db, c.second, c.secondIds).db,
             execs := w.execs[c.secondIds.operationId := Exec(c.second, NewServiceContext(c.second),
                                                              Handlers.Start(c.second, NewServiceContext(c.second)))]);
  }

  lemma SecondBegun(start: World, es: seq<Event>, w: World, c: Pair) returns (w': World)
    requires Leads(start, es, w) && Rivals(c) && FirstAt(w, c, Calling(Lookup))
    ensures Leads(start, es + [Begin(c.second, c.secondIds)], w')
    ensures BothAt(w', c, Calling(Lookup), Extending(Calling(Lookup)))
  {
    LeadsTablesInv(start, es, w);
    w' := SecondOpens(w, c);
    BegunLeads(start, es, w, c.second, c.secondIds, NewServiceContext(c.second), w');
  }

  lemma SecondRenews(db: Db, c: Pair)
    requires Rivals(c) && BothRequested(db, c)
    ensures RenewStep(db, c.second.operation, c.secondIds.operationId).reply.Ok?
    ensures BothRequested(Renewed(db, c.second.operation.key), c)
  {
    ValidGeneration(c.second);
  }

  lemma SecondRenewed(start: World, es: seq<Event>, w: World, c: Pair) returns (w': World)
    requires Leads(start, es, w) && Rivals(c) && BothAt(w, c, Calling(Lookup), Extending(Calling(Lookup)))
    ensures Leads(start, es + [Renew(c.secondIds.operationId)], w')
    ensures BothAt(w', c, Calling(Lookup), Calling(Lookup))
  {
    SecondRenews(w.db, c);
    RenewLeads(start, es, w, c.secondIds.operationId);
    w' := w.(db := Renewed(w.db, c.second.operation.key), execs := Moved(w.execs, c.secondIds.operationId, Calling(Lookup)));
  }

  // ---------------------------------------------------------------- both find the bucket and set its quotas

  ghost function Seen(w: World, c: Pair): Answer
    requires Rivals(c) && Shared(w.garage, c)
  {
    Found(c.bucketId, w.garage.buckets[c.bucketId].aliases, true)
  }

  lemma FirstFinds(w: World, c: Pair, pc: Pc) returns (w': World)
    requires Rivals(c) && BothAt(w, c, Calling(Lookup), pc)
    ensures Answered(w, c.firstIds.operationId, Seen(w, c), w') && BothAt(w', c, Calling(Setting(c.bucketId)), pc)
  {
    w' := w.(execs := Moved(w.execs, c.firstIds.operationId, Calling(Setting(c.bucketId))));
  }

  lemma SecondFinds(w: World, c: Pair, pc: Pc) returns (w': World)
    requires Rivals(c) && BothAt(w, c, pc, Calling(Lookup))
    ensures Answered(w, c.secondIds.operationId, Seen(w, c), w') && BothAt(w', c, pc, Calling(Setting(c.bucketId)))
  {
    w' := w.(execs := Moved(w.execs, c.secondIds.operationId, Calling(Setting(c.bucketId))));
  }

  lemma FirstSets(w: World, c: Pair, pc: Pc) returns (w': World)
    requires Rivals(c) && BothAt(w, c, Calling(Setting(c.bucketId)), pc)
    ensures Answered(w, c.firstIds.operationId, Done, w') && BothAt(w', c, Completing(BucketReady(c.bucketId)), pc)
  {
    w' := w.(garage := After(w.garage, UpdateQuotas(c.bucketId, WantedQuotas(c.first)), Done),
             execs := Moved(w.execs, c.firstIds.operationId, Completing(BucketReady(c.bucketId))));
  }

  lemma SecondSets(w: World, c: Pair, pc: Pc) returns (w': World)
    requires Rivals(c) && BothAt(w, c, pc, Calling(Setting(c.bucketId)))
    ensures Answered(w, c.secondIds.operationId, Done, w') && BothAt(w', c, pc, Completing(BucketReady(c.bucketId)))
    ensures w'.garage.buckets[c.bucketId].quotas == Some(WantedQuotas(c.second))
  {
    w' := w.(garage := After(w.garage, UpdateQuotas(c.bucketId, WantedQuotas(c.second)), Done),
             execs := Moved(w.execs, c.secondIds.operationId, Completing(BucketReady(c.bucketId))));
  }

  lemma BothHold(w: World, c: Pair, first: Pc, second: Pc)
    requires Rivals(c) && BothAt(w, c, first, second)
    ensures Holds(w, c.firstIds.operationId) && Holds(w, c.secondIds.operationId)
  {
  }

  lemma BothFind(start: World, es: seq<Event>, w: World, c: Pair) returns (es': seq<Event>, w': World)
    requires Leads(start, es, w) && Rivals(c) && BothAt(w, c, Calling(Lookup), Calling(Lookup))
    ensures Leads(start, es', w')
    ensures BothAt(w', c, Calling(Setting(c.bucketId)), Calling(Setting(c.bucketId)))
  {
    BothHold(w, c, Calling(Lookup), Calling(Lookup));
    var w1 := FirstFinds(w, c, Calling(Lookup));
    AnswerLeads(start, es, w, c.firstIds.operationId, Seen(w, c), w1);
    es' := es + [Reply(c.firstIds.operationId, Seen(w, c))];
    BothHold(w1, c, Calling(Setting(c.bucketId)), Calling(Lookup));
    w' := SecondFinds(w1, c, Calling(Setting(c.bucketId)));
    AnswerLeads(start, es', w1, c.secondIds.operationId, Seen(w1, c), w');
    es' := es' + [Reply(c.secondIds.operationId, Seen(w1, c))];
  }

  lemma BothSet(start: World, es: seq<Event>, w: World, c: Pair) returns (es': seq<Event>, w': World)
    requires Leads(start, es, w) && Rivals(c)
    requires BothAt(w, c, Calling(Setting(c.bucketId)), Calling(Setting(c.bucketId)))
    ensures Leads(start, es', w')
    ensures BothAt(w', c, Completing(BucketReady(c.bucketId)), Completing(BucketReady(c.bucketId)))
    ensures w'.garage.buckets[c.bucketId].quotas == Some(WantedQuotas(c.second))
  {
    BothHold(w, c, Calling(Setting(c.bucketId)), Calling(Setting(c.bucketId)));
    var w1 := FirstSets(w, c, Calling(Setting(c.bucketId)));
    AnswerLeads(start, es, w, c.firstIds.operationId, Done, w1);
    es' := es + [Reply(c.firstIds.operationId, Done)];
    BothHold(w1, c, Completing(BucketReady(c.bucketId)), Calling(Setting(c.bucketId)));
    w' := SecondSets(w1, c, Completing(BucketReady(c.bucketId)));
    AnswerLeads(start, es', w1, c.secondIds.operationId, Done, w');
    es' := es' + [Reply(c.secondIds.operationId, Done)];
  }

  // ---------------------------------------------------------------- the first commits

  lemma FirstCommits(db: Db, c: Pair, response: StoredHttpResponse, audit: AuditEvent)
    requires Rivals(c) && BothRequested(db, c) && 100 <= response.status <= 599 && AuditAccepted(audit)
    ensures ReconcileCommits(db, c.first, c.firstIds.operationId, c.bucketId, response, audit)
  {
    ValidatedReconcileIsAcceptedDownstream(c.first);
    ValidatedSpecIsAcceptedDownstream(c.first.payload.spec);
  }

  lemma FirstCompletes(w: World, c: Pair, pc: Pc) returns (after: Db)
    requires Rivals(c) && BothAt(w, c, Completing(BucketReady(c.bucketId)), pc)
    ensures Completes(w, c.firstIds.operationId, c.requestId, after)
    ensures c.first.ServiceId() in after.services
    ensures after.services[c.first.ServiceId()].desiredSpec == c.first.payload.spec
  {
    var o, cmd := c.firstIds.operationId, c.first;
    var tx := CompletionOf(o, cmd, NewServiceContext(cmd), BucketReady(c.bucketId), c.requestId);
    HandlerAuditIsAccepted(cmd.operation, c.requestId, Allowed);
    FirstCommits(w.db, c, tx.response, tx.audit);
    ReconcileOutcome(w.db, cmd, o, c.bucketId, tx.response, tx.audit);
    ReconciledRow(w.db, o, cmd, c.bucketId, tx.response, tx.audit);
    after := CompleteReconcileStep(w.db, cmd, o, c.bucketId, tx.response, tx.audit).db;
  }

  lemma QuotasDisagree(db: Db, g: Garage, c: Pair)
    requires Rivals(c) && c.first.ServiceId() in db.services
    requires db.services[c.first.ServiceId()].desiredSpec == c.first.payload.spec
    requires BucketLive(g, c.bucketId) && g.buckets[c.bucketId].quotas == Some(WantedQuotas(c.second))
    ensures !BucketAgrees(db, g, c.first.ServiceId(), c.bucketId)
  {
  }

  lemma BothReady(start: World, c: Pair) returns (es: seq<Event>, w: World)
    requires InitialWorld(start) && Rivals(c) && Shared(start.garage, c)
    ensures Leads(start, es, w)
    ensures BothAt(w, c, Completing(BucketReady(c.bucketId)), Completing(BucketReady(c.bucketId)))
    ensures w.garage.buckets[c.bucketId].quotas == Some(WantedQuotas(c.second))
  {
    es, w := FirstBegun(start, c);
    w := FirstRenewed(start, es, w, c);
    es := es + [Renew(c.firstIds.operationId)];
    w := SecondBegun(start, es, w, c);
    es := es + [Begin(c.second, c.secondIds)];
    w := SecondRenewed(start, es, w, c);
    es, w := BothFind(start, es + [Renew(c.secondIds.operationId)], w, c);
    es, w := BothSet(start, es, w, c);
  }

  /** Why one alias is asked for: if Garage starts with a live bucket under two names, two services that ask for these
      names both adopt it. In a timely run each sets its own quotas, and the first commits over those of the second. */
  lemma SharedBucketDisagrees(start: World, c: Pair) returns (ws: seq<World>, es: seq<Event>, n: nat)
    requires InitialWorld(start) && Rivals(c) && Shared(start.garage, c)
    ensures TimelyRun(ws, es) && ws[0] == start && |es| == n + 1 && CommitsAt(ws[n], es[n])
    ensures At(ws[n], es[n].operationId, c.first, Completing(BucketReady(c.bucketId)))
    ensures !BucketAgrees(ws[n + 1].db, ws[n + 1].garage, c.first.ServiceId(), c.bucketId)
  {
    var ready, w := BothReady(start, c);
    var ws0 := RunOf(start, ready, w);
    n := |ready|;
    var after := FirstCompletes(w, c, Completing(BucketReady(c.bucketId)));
    CompletionExtends(ws0, ready, c.firstIds.operationId, c.requestId, after);
    QuotasDisagree(after, w.garage, c);
    ws := ws0 + [w.(db := after, execs := Moved(w.execs, c.firstIds.operationId, Halted))];
    es := ready + [Commit(c.firstIds.operationId, c.requestId)];
  }

  // ---------------------------------------------------------------- exactly when

  /** In a timely run, the reconcile at n commits bucket b for the first time, and Garage disagrees. */
  ghost predicate Disagrees(ws: seq<World>, es: seq<Event>, n: nat, b: string) {
    && TimelyRun(ws, es) && n < |es| && CommitsAt(ws[n], es[n])
    && var exec := ws[n].execs[es[n].operationId];
    && exec.pc.product == BucketReady(b) && exec.context.ReconcileContext? && !exec.context.previouslyApplied
    && !BucketAgrees(ws[n + 1].db, ws[n + 1].garage, exec.cmd.ServiceId(), b)
  }

  /** Requests for two names that one bucket goes by. */
  ghost function Asking(x: string, y: string, b: string): Pair {
    Pair(Ask(FIRST, Uuid(11), "s", x, 1), FreshIds(Uuid(101), Uuid(102)),
         Ask(SECOND, Uuid(21), "t", y, 2), FreshIds(Uuid(103), Uuid(104)), b, "q")
  }

  lemma AskingIsRival(x: string, y: string, b: string)
    requires x != y && ValidateBucketName(x).None? && ValidateBucketName(y).None? && b != [] && ByteLength(b) <= 256
    ensures Rivals(Asking(x, y, b))
  {
    LettersArePlain("s");
    LettersArePlain("t");
    AskIsValid(FIRST, Uuid(11), "s", x, 1);
    AskIsValid(SECOND, Uuid(21), "t", y, 2);
    LettersArePlain("q");
  }

  lemma OneAliasAgrees(ws: seq<World>, es: seq<Event>, n: nat, b: string)
    requires WorldRun(ws, es) && SoleAlias(ws[0].garage, b)
    ensures !Disagrees(ws, es, n, b)
  {
    if Disagrees(ws, es, n, b) {
      OneAliasStays(ws, es, n, b);
      ReconciledBucketMatchesSpec(ws, es, n);
    }
  }

  lemma TwoAliasesDisagree(start: World, x: string, y: string, b: string) returns (ws: seq<World>, es: seq<Event>, n: nat)
    requires InitialWorld(start) && BucketLive(start.garage, b) && b != [] && ByteLength(b) <= 256
    requires Goes(start.garage, b, x) && Goes(start.garage, b, y) && x != y
    ensures Disagrees(ws, es, n, b) && ws[0] == start
  {
    AskingIsRival(x, y, b);
    ws, es, n := SharedBucketDisagrees(start, Asking(x, y, b));
  }

  lemma DeadBucketAgrees(ws: seq<World>, es: seq<Event>, n: nat, b: string)
    requires WorldRun(ws, es) && BucketDead(ws[0].garage, b)
    ensures !Disagrees(ws, es, n, b)
  {
    if Disagrees(ws, es, n, b) {
      DeadBucketIsAvoided(ws, es, n, b);
    }
  }

  lemma UnacceptableIdNeverCommits(w: World, e: Event, b: string)
    requires e.Commit? && Possible(w, e) && w.execs[e.operationId].pc.product == BucketReady(b)
    requires b == [] || ByteLength(b) > 256
    ensures !CommitsAt(w, e)
  {
  }

  lemma NoDisagreement(ws: seq<World>, es: seq<Event>, n: nat, b: string)
    requires WorldRun(ws, es)
    requires !BucketLive(ws[0].garage, b) || b == [] || ByteLength(b) > 256 || SoleAlias(ws[0].garage, b)
    ensures !Disagrees(ws, es, n, b)
  {
    if SoleAlias(ws[0].garage, b) {
      OneAliasAgrees(ws, es, n, b);
    } else if b == [] || ByteLength(b) > 256 {
      if Disagrees(ws, es, n, b) {
        UnacceptableIdNeverCommits(ws[n], es[n], b);
      }
    } else {
      DeadBucketAgrees(ws, es, n, b);
    }
  }

  /** A bucket can be committed with quotas that are not the spec's, in some timely run from the given world, exactly when
      it is live there, has an acceptable id, and goes by two names that a reconcile can ask for. */
  lemma DisagreementNeedsTwoAliases(start: World, b: string)
    requires InitialWorld(start)
    ensures (exists ws, es, n :: |ws| > 0 && ws[0] == start && Disagrees(ws, es, n, b)) <==>
            (BucketLive(start.garage, b) && b != [] && ByteLength(b) <= 256 && !SoleAlias(start.garage, b))
  {
    if BucketLive(start.garage, b) && b != [] && ByteLength(b) <= 256 && !SoleAlias(start.garage, b) {
      var x, y :| Goes(start.garage, b, x) && Goes(start.garage, b, y) && x != y;
      var ws, es, n := TwoAliasesDisagree(start, x, y, b);
    } else {
      forall ws, es, n | |ws| > 0 && ws[0] == start ensures !Disagrees(ws, es, n, b) {
        if Disagrees(ws, es, n, b) {
          NoDisagreement(ws, es, n, b);
        }
      }
    }
  }
}
