/** Whole runs in which an executor that was taken over deletes its successor's key, or makes a second one. */
module PausedExecutor {
  import opened Types
  import opened StoreSpec
  import opened Invariant
  import opened Admission
  import opened GarageModel
  import opened Handlers
  import opened Completing
  import opened WorldSteps
  import opened WorldRuns
  import opened LeaseTheorem
  import opened LeaseRuns
  import opened Events
  import opened Staging

  // ---------------------------------------------------------------- the creation is begun and taken over

  ghost function ServedGarage(c: Cast): Garage
    requires ServiceProper(c)
  {
    MadeBucketOf(c, Some(QuotasOf(c)))
  }

  ghost function Provisioner(c: Cast): Exec
    requires ServiceProper(c)
  {
    Exec(c.reconcile, NewServiceContext(c.reconcile), Halted)
  }

  /** The creation has one executor. */
  ghost function Alone(db: Db, g: Garage, c: Cast, paused: Exec): World
    requires Proper(c)
  {
    World(db, g, map[c.reconcileIds.operationId := Provisioner(c), c.createIds.operationId := paused], {})
  }

  /** The creation was taken over: the first executor is still there, and so is its successor. */
  ghost function Racing(db: Db, g: Garage, c: Cast, paused: Exec, successor: Exec): World
    requires Proper(c)
  {
    World(db, g, map[c.reconcileIds.operationId := Provisioner(c), c.createIds.operationId := paused,
                     c.retryIds.operationId := successor], {})
  }

  ghost predicate Creates(exec: Exec, c: Cast, pc: Pc) {
    exec.cmd == c.create && ForCredential(exec.context, c) && exec.pc == pc
  }

  lemma AloneMoves(db: Db, g: Garage, c: Cast, paused: Exec, pc: Pc)
    requires Proper(c)
    ensures Moved(Alone(db, g, c, paused).execs, c.createIds.operationId, pc)
            == Alone(db, g, c, paused.(pc := pc)).execs
  {
  }

  lemma SuccessorMoves(db: Db, g: Garage, c: Cast, paused: Exec, successor: Exec, pc: Pc)
    requires Proper(c)
    ensures Moved(Racing(db, g, c, paused, successor).execs, c.retryIds.operationId, pc)
            == Racing(db, g, c, paused, successor.(pc := pc)).execs
  {
  }

  lemma PausedMoves(db: Db, g: Garage, c: Cast, paused: Exec, successor: Exec, pc: Pc)
    requires Proper(c)
    ensures Moved(Racing(db, g, c, paused, successor).execs, c.createIds.operationId, pc)
            == Racing(db, g, c, paused.(pc := pc), successor).execs
  {
  }

  /** The first executor has just been granted the creation. */
  ghost predicate FirstGrant(w: World, c: Cast, db: Db, paused: Exec)
    requires Proper(c)
  {
    && Opens(w, c.create, c.createIds, paused.context, Alone(db, ServedGarage(c), c, paused))
    && Creates(paused, c, Extending(Calling(Listing)))
    && BeingIssued(db, c, c.createIds.operationId, db.clock + OPERATION_LEASE_SECONDS)
    && db.issued == {NIL, c.reconcileIds.operationId, c.createIds.operationId, c.createIds.credentialId}
  }

  lemma BegunAlone(w: World, c: Cast, context: Context)
    requires Proper(c) && Served(w, c) && ForCredential(context, c)
    requires PrepareStep(w.db, c.create, c.createIds)
             == Step(Reserve(w.db, c.create, c.createIds, w.db.names), Ok(Execute(c.createIds.operationId, context)))
    ensures FirstGrant(w, c, Reserve(w.db, c.create, c.createIds, w.db.names),
                       Exec(c.create, context, Extending(Calling(Listing))))
  {
    var paused, db := Exec(c.create, context, Extending(Calling(Listing))), Reserve(w.db, c.create, c.createIds, w.db.names);
    IssueBegun(w.db, c);
    assert w.execs[c.createIds.operationId := paused] == Alone(db, ServedGarage(c), c, paused).execs;
  }

  lemma CreationBegins(w: World, c: Cast) returns (db: Db, paused: Exec)
    requires Inv(w.db) && Proper(c) && Served(w, c)
    ensures FirstGrant(w, c, db, paused)
  {
    var context := IssueBegins(w.db, c);
    BegunAlone(w, c, context);
    db, paused := Reserve(w.db, c.create, c.createIds, w.db.names), Exec(c.create, context, Extending(Calling(Listing)));
  }

  lemma CreationBegun(start: World, es: seq<Event>, w: World, c: Cast) returns (db: Db, paused: Exec)
    requires Leads(start, es, w) && Proper(c) && Served(w, c)
    ensures Leads(start, es + [Begin(c.create, c.createIds)], Alone(db, ServedGarage(c), c, paused))
    ensures Creates(paused, c, Extending(Calling(Listing)))
    ensures BeingIssued(db, c, c.createIds.operationId, db.clock + OPERATION_LEASE_SECONDS)
    ensures db.issued == {NIL, c.reconcileIds.operationId, c.createIds.operationId, c.createIds.credentialId}
  {
    LeadsTablesInv(start, es, w);
    db, paused := CreationBegins(w, c);
    BegunLeads(start, es, w, c.create, c.createIds, paused.context, Alone(db, ServedGarage(c), c, paused));
  }

  lemma CreationRenewed(start: World, es: seq<Event>, db: Db, c: Cast, paused: Exec, expiry: int) returns (db': Db, paused': Exec)
    requires Proper(c) && Creates(paused, c, Extending(Calling(Listing)))
    requires Leads(start, es, Alone(db, ServedGarage(c), c, paused))
    requires BeingIssued(db, c, c.createIds.operationId, expiry)
    ensures Leads(start, es + [Renew(c.createIds.operationId)], Alone(db', ServedGarage(c), c, paused'))
    ensures Creates(paused', c, Calling(Listing))
    ensures BeingIssued(db', c, c.createIds.operationId, db.clock + OPERATION_LEASE_SECONDS)
    ensures db'.issued == db.issued && db'.clock == db.clock
  {
    IssueRenews(db, c, c.createIds.operationId, expiry);
    RenewLeads(start, es, Alone(db, ServedGarage(c), c, paused), c.createIds.operationId);
    db', paused' := Renewed(db, c.create.operation.key), paused.(pc := Calling(Listing));
    AloneMoves(db, ServedGarage(c), c, paused, Calling(Listing));
  }

  /** The successor has just been granted the creation, and the first executor is still there. */
  ghost predicate SecondGrant(db: Db, g: Garage, c: Cast, paused: Exec, db': Db, successor: Exec)
    requires Proper(c)
  {
    && Opens(Alone(db, g, c, paused), c.create, c.retryIds, successor.context, Racing(db', g, c, paused, successor))
    && Creates(successor, c, Extending(Calling(Listing)))
    && BeingIssued(db', c, c.retryIds.operationId, db'.clock + OPERATION_LEASE_SECONDS)
  }

  lemma TakenOverRacing(db: Db, g: Garage, c: Cast, paused: Exec, expiry: int, context: Context)
    requires Proper(c) && BeingIssued(db, c, c.createIds.operationId, expiry)
    requires ForCredential(context, c) && FreshFor(db.issued, c.retryIds)
    requires PrepareStep(db, c.create, c.retryIds)
             == Step(TakeOver(db, c.create.operation.key, c.retryIds.operationId),
                     Ok(Execute(c.retryIds.operationId, context)))
    ensures SecondGrant(db, g, c, paused, TakeOver(db, c.create.operation.key, c.retryIds.operationId),
                        Exec(c.create, context, Extending(Calling(Listing))))
  {
    var successor := Exec(c.create, context, Extending(Calling(Listing)));
    var db' := TakeOver(db, c.create.operation.key, c.retryIds.operationId);
    IssueTakenOver(db, c, c.createIds.operationId, expiry, c.retryIds.operationId);
    assert Alone(db, g, c, paused).execs[c.retryIds.operationId := successor] == Racing(db', g, c, paused, successor).execs;
  }

  lemma TakeoverBegins(db: Db, g: Garage, c: Cast, paused: Exec, expiry: int) returns (db': Db, successor: Exec)
    requires Inv(db) && Proper(c) && BeingIssued(db, c, c.createIds.operationId, expiry) && expiry <= db.clock
    requires FreshFor(db.issued, c.retryIds)
    ensures SecondGrant(db, g, c, paused, db', successor)
  {
    var context := IssueRetaken(db, c, expiry);
    TakenOverRacing(db, g, c, paused, expiry, context);
    db' := TakeOver(db, c.create.operation.key, c.retryIds.operationId);
    successor := Exec(c.create, context, Extending(Calling(Listing)));
  }

  lemma CreationTakenOver(start: World, es: seq<Event>, db: Db, c: Cast, paused: Exec, expiry: int)
    returns (db': Db, successor: Exec)
    requires Proper(c) && Leads(start, es, Alone(db, ServedGarage(c), c, paused))
    requires BeingIssued(db, c, c.createIds.operationId, expiry) && expiry <= db.clock
    requires FreshFor(db.issued, c.retryIds)
    ensures Leads(start, es + [Begin(c.create, c.retryIds)], Racing(db', ServedGarage(c), c, paused, successor))
    ensures Creates(successor, c, Extending(Calling(Listing)))
    ensures BeingIssued(db', c, c.retryIds.operationId, db'.clock + OPERATION_LEASE_SECONDS)
  {
    var w := Alone(db, ServedGarage(c), c, paused);
    LeadsTablesInv(start, es, w);
    db', successor := TakeoverBegins(db, ServedGarage(c), c, paused, expiry);
    BegunLeads(start, es, w, c.create, c.retryIds, successor.context,
               Racing(db', ServedGarage(c), c, paused, successor));
  }

  lemma SuccessorRenews(db: Db, g: Garage, c: Cast, paused: Exec, successor: Exec, expiry: int)
    requires Proper(c) && Creates(successor, c, Extending(Calling(Listing)))
    requires BeingIssued(db, c, c.retryIds.operationId, expiry)
    ensures Extends(Racing(db, g, c, paused, successor), c.retryIds.operationId,
                    Racing(Renewed(db, c.create.operation.key), g, c, paused, successor.(pc := Calling(Listing))))
    ensures BeingIssued(Renewed(db, c.create.operation.key), c, c.retryIds.operationId, db.clock + OPERATION_LEASE_SECONDS)
  {
    IssueRenews(db, c, c.retryIds.operationId, expiry);
    SuccessorMoves(db, g, c, paused, successor, Calling(Listing));
  }

  lemma SuccessorRenewed(start: World, es: seq<Event>, db: Db, c: Cast, paused: Exec, successor: Exec, expiry: int)
    returns (db': Db, successor': Exec)
    requires Proper(c) && Creates(successor, c, Extending(Calling(Listing)))
    requires Leads(start, es, Racing(db, ServedGarage(c), c, paused, successor))
    requires BeingIssued(db, c, c.retryIds.operationId, expiry)
    ensures Leads(start, es + [Renew(c.retryIds.operationId)], Racing(db', ServedGarage(c), c, paused, successor'))
    ensures Creates(successor', c, Calling(Listing))
    ensures BeingIssued(db', c, c.retryIds.operationId, db'.clock + OPERATION_LEASE_SECONDS)
  {
    SuccessorRenews(db, ServedGarage(c), c, paused, successor, expiry);
    db', successor' := Renewed(db, c.create.operation.key), successor.(pc := Calling(Listing));
    ExtendedLeads(start, es, Racing(db, ServedGarage(c), c, paused, successor), c.retryIds.operationId,
                  Racing(db', ServedGarage(c), c, paused, successor'));
  }

  // ---------------------------------------------------------------- the successor makes its key

  /** Garage holds the bucket and one live key, of the credential's name. */
  ghost predicate KeyMade(g: Garage, c: Cast)
    requires Proper(c)
  {
    && g.buckets == ServedGarage(c).buckets && g.keys.Keys == {c.keyId}
    && g.keys[c.keyId].name == Deterministic(c.create.ServiceId(), c.createIds.credentialId) && g.keys[c.keyId].alive
  }

  lemma NothingListed(db: Db, c: Cast, paused: Exec, successor: Exec)
    requires Proper(c) && Creates(successor, c, Calling(Listing))
    ensures Answered(Racing(db, ServedGarage(c), c, paused, successor), c.retryIds.operationId, Listed([]),
                     Racing(db, ServedGarage(c), c, paused, successor.(pc := Calling(KeyMaking))))
  {
    SuccessorMoves(db, ServedGarage(c), c, paused, successor, Calling(KeyMaking));
  }

  lemma KeyIsMade(db: Db, c: Cast, paused: Exec, successor: Exec) returns (g: Garage)
    requires Proper(c) && Creates(successor, c, Calling(KeyMaking))
    ensures Answered(Racing(db, ServedGarage(c), c, paused, successor), c.retryIds.operationId,
                     MadeKey(c.keyId, Some(c.secret)),
                     Racing(db, g, c, paused, successor.(pc := Calling(Denying(c.keyId, c.secret)))))
    ensures KeyMade(g, c)
  {
    SuccessorMoves(db, ServedGarage(c), c, paused, successor, Calling(Denying(c.keyId, c.secret)));
    g := After(ServedGarage(c), CreateKey(KeyNameOf(c.create, successor.context)), MadeKey(c.keyId, Some(c.secret)));
  }

  lemma AsksForRights(c: Cast)
    requires Proper(c)
    ensures RightsFor(c.create.payload.permissions) != NO_RIGHTS
  {
  }

  lemma KeyIsDenied(db: Db, g: Garage, c: Cast, paused: Exec, successor: Exec) returns (g': Garage)
    requires Proper(c) && KeyMade(g, c) && Creates(successor, c, Calling(Denying(c.keyId, c.secret)))
    ensures Answered(Racing(db, g, c, paused, successor), c.retryIds.operationId, Done,
                     Racing(db, g', c, paused, successor.(pc := Calling(Allowing(c.keyId, c.secret)))))
    ensures KeyMade(g', c)
  {
    AsksForRights(c);
    SuccessorMoves(db, g, c, paused, successor, Calling(Allowing(c.keyId, c.secret)));
    g' := After(g, DenyBucketKey(c.bucketId, c.keyId, ALL_RIGHTS), Done);
  }

  lemma KeyIsAllowed(db: Db, g: Garage, c: Cast, paused: Exec, successor: Exec) returns (g': Garage)
    requires Proper(c) && KeyMade(g, c) && Creates(successor, c, Calling(Allowing(c.keyId, c.secret)))
    ensures Answered(Racing(db, g, c, paused, successor), c.retryIds.operationId, Done,
                     Racing(db, g', c, paused, successor.(pc := Completing(KeyReady(c.keyId, c.secret)))))
    ensures KeyMade(g', c)
  {
    SuccessorMoves(db, g, c, paused, successor, Completing(KeyReady(c.keyId, c.secret)));
    g' := After(g, AllowBucketKey(c.bucketId, c.keyId, RightsFor(c.create.payload.permissions)), Done);
  }

  lemma SuccessorHolds(db: Db, g: Garage, c: Cast, paused: Exec, successor: Exec, expiry: int)
    requires Proper(c) && BeingIssued(db, c, c.retryIds.operationId, expiry) && successor.cmd == c.create
    ensures Holds(Racing(db, g, c, paused, successor), c.retryIds.operationId)
  {
  }

  lemma KeyBuilt(start: World, es: seq<Event>, db: Db, c: Cast, paused: Exec, successor: Exec, expiry: int)
    returns (es': seq<Event>, g: Garage, ready: Exec)
    requires Proper(c) && Creates(successor, c, Calling(Listing))
    requires BeingIssued(db, c, c.retryIds.operationId, expiry)
    requires Leads(start, es, Racing(db, ServedGarage(c), c, paused, successor))
    ensures Leads(start, es', Racing(db, g, c, paused, ready))
    ensures KeyMade(g, c) && Creates(ready, c, Completing(KeyReady(c.keyId, c.secret)))
  {
    var o := c.retryIds.operationId;
    var listed, made := successor.(pc := Calling(KeyMaking)), successor.(pc := Calling(Denying(c.keyId, c.secret)));
    SuccessorHolds(db, ServedGarage(c), c, paused, successor, expiry);
    NothingListed(db, c, paused, successor);
    AnswerLeads(start, es, Racing(db, ServedGarage(c), c, paused, successor), o, Listed([]),
                Racing(db, ServedGarage(c), c, paused, listed));
    es' := es + [Reply(o, Listed([]))];
    SuccessorHolds(db, ServedGarage(c), c, paused, listed, expiry);
    g := KeyIsMade(db, c, paused, listed);
    AnswerLeads(start, es', Racing(db, ServedGarage(c), c, paused, listed), o, MadeKey(c.keyId, Some(c.secret)),
                Racing(db, g, c, paused, made));
    es', g, ready := KeyOpened(start, es' + [Reply(o, MadeKey(c.keyId, Some(c.secret)))], db, g, c, paused, made, expiry);
  }

  lemma KeyOpened(start: World, es: seq<Event>, db: Db, g: Garage, c: Cast, paused: Exec, successor: Exec, expiry: int)
    returns (es': seq<Event>, g': Garage, ready: Exec)
    requires Proper(c) && KeyMade(g, c) && Creates(successor, c, Calling(Denying(c.keyId, c.secret)))
    requires BeingIssued(db, c, c.retryIds.operationId, expiry)
    requires Leads(start, es, Racing(db, g, c, paused, successor))
    ensures Leads(start, es', Racing(db, g', c, paused, ready))
    ensures KeyMade(g', c) && Creates(ready, c, Completing(KeyReady(c.keyId, c.secret)))
  {
    var o, denied := c.retryIds.operationId, successor.(pc := Calling(Allowing(c.keyId, c.secret)));
    SuccessorHolds(db, g, c, paused, successor, expiry);
    var g1 := KeyIsDenied(db, g, c, paused, successor);
    AnswerLeads(start, es, Racing(db, g, c, paused, successor), o, Done, Racing(db, g1, c, paused, denied));
    SuccessorHolds(db, g1, c, paused, denied, expiry);
    g' := KeyIsAllowed(db, g1, c, paused, denied);
    ready := successor.(pc := Completing(KeyReady(c.keyId, c.secret)));
    AnswerLeads(start, es + [Reply(o, Done)], Racing(db, g1, c, paused, denied), o, Done,
                Racing(db, g', c, paused, ready));
    es' := es + [Reply(o, Done)] + [Reply(o, Done)];
  }

  // ---------------------------------------------------------------- the paused executor wakes up

  lemma KeyIsListed(db: Db, g: Garage, c: Cast, paused: Exec, successor: Exec)
    requires Proper(c) && KeyMade(g, c) && Creates(paused, c, Calling(Listing))
    ensures Answered(Racing(db, g, c, paused, successor), c.createIds.operationId, Listed([c.keyId]),
                     Racing(db, g, c, paused.(pc := Calling(Sweeping([c.keyId]))), successor))
  {
    PausedMoves(db, g, c, paused, successor, Calling(Sweeping([c.keyId])));
  }

  ghost function Swept(g: Garage, c: Cast): Garage
    requires Proper(c) && KeyMade(g, c)
  {
    g.(keys := g.keys[c.keyId := g.keys[c.keyId].(alive := false)])
  }

  lemma KeyIsSwept(db: Db, g: Garage, c: Cast, paused: Exec, successor: Exec)
    requires Proper(c) && KeyMade(g, c) && Creates(paused, c, Calling(Sweeping([c.keyId])))
    ensures Answered(Racing(db, g, c, paused, successor), c.createIds.operationId, Done,
                     Racing(db, Swept(g, c), c, paused.(pc := Calling(KeyMaking)), successor))
  {
    PausedMoves(db, g, c, paused, successor, Calling(KeyMaking));
    assert [c.keyId][1..] == [];
  }

  lemma SweptKeyDisagrees(db: Db, g: Garage, c: Cast)
    requires Proper(c) && KeyMade(g, c) && Recorded(db, c)
    ensures !KeyAgrees(db, Swept(g, c), c.createIds.credentialId)
  {
  }

  lemma CreationCompletes(db: Db, g: Garage, c: Cast, paused: Exec, ready: Exec, expiry: int) returns (after: Db)
    requires Proper(c) && Creates(ready, c, Completing(KeyReady(c.keyId, c.secret)))
    requires BeingIssued(db, c, c.retryIds.operationId, expiry)
    ensures Completes(Racing(db, g, c, paused, ready), c.retryIds.operationId, c.requestId, after)
    ensures Recorded(after, c)
  {
    var tx := CompletionOf(c.retryIds.operationId, c.create, ready.context, ready.pc.product, c.requestId);
    HandlerAuditIsAccepted(c.create.operation, c.requestId, Allowed);
    IssueEnds(db, c, c.retryIds.operationId, expiry, ready.context, tx.response, tx.audit);
    after := CompleteCreateStep(db, c.create, c.retryIds.operationId, tx.credential, tx.response, tx.audit).db;
  }

  // ---------------------------------------------------------------- the runs

  /** The first executor stands before this call; the successor has its key and is about to commit. */
  ghost predicate Poised(w: World, c: Cast, stage: Stage, db: Db, g: Garage, paused: Exec, ready: Exec, expiry: int)
    requires Proper(c)
  {
    && w == Racing(db, g, c, paused, ready)
    && KeyMade(g, c) && BeingIssued(db, c, c.retryIds.operationId, expiry)
    && Creates(paused, c, Calling(stage)) && Creates(ready, c, Completing(KeyReady(c.keyId, c.secret)))
  }

  lemma FirstHolds(db: Db, g: Garage, c: Cast, paused: Exec, expiry: int)
    requires Proper(c) && BeingIssued(db, c, c.createIds.operationId, expiry) && paused.cmd == c.create
    ensures Holds(Alone(db, g, c, paused), c.createIds.operationId)
  {
  }

  lemma FirstListsNothing(db: Db, c: Cast, paused: Exec)
    requires Proper(c) && Creates(paused, c, Calling(Listing))
    ensures Answered(Alone(db, ServedGarage(c), c, paused), c.createIds.operationId, Listed([]),
                     Alone(db, ServedGarage(c), c, paused.(pc := Calling(KeyMaking))))
  {
    AloneMoves(db, ServedGarage(c), c, paused, Calling(KeyMaking));
  }

  /** Before it stops, the first executor may have listed keys and found none. */
  lemma FirstExecutorStops(start: World, es: seq<Event>, db: Db, c: Cast, first: Exec, expiry: int, stage: Stage)
    returns (es': seq<Event>, paused: Exec)
    requires Proper(c) && Leads(start, es, Alone(db, ServedGarage(c), c, first)) && Creates(first, c, Calling(Listing))
    requires BeingIssued(db, c, c.createIds.operationId, expiry) && (stage.Listing? || stage.KeyMaking?)
    ensures Leads(start, es', Alone(db, ServedGarage(c), c, paused)) && Creates(paused, c, Calling(stage))
  {
    es', paused := es, first;
    if stage.KeyMaking? {
      paused := first.(pc := Calling(KeyMaking));
      FirstHolds(db, ServedGarage(c), c, first, expiry);
      FirstListsNothing(db, c, first);
      AnswerLeads(start, es, Alone(db, ServedGarage(c), c, first), c.createIds.operationId, Listed([]),
                  Alone(db, ServedGarage(c), c, paused));
      es' := es + [Reply(c.createIds.operationId, Listed([]))];
    }
  }

  lemma FirstExecutorLapses(start: World, c: Cast, stage: Stage)
    returns (es: seq<Event>, db: Db, paused: Exec, expiry: int)
    requires EmptyWorld(start) && Proper(c) && (stage.Listing? || stage.KeyMaking?)
    ensures Leads(start, es, Alone(db, ServedGarage(c), c, paused)) && Creates(paused, c, Calling(stage))
    ensures BeingIssued(db, c, c.createIds.operationId, expiry) && expiry <= db.clock
    ensures FreshFor(db.issued, c.retryIds)
  {
    var served, w := ServiceProvisioned(start, c);
    var begun, granted := CreationBegun(start, served, w, c);
    es := served + [Begin(c.create, c.createIds)];
    var first;
    db, first := CreationRenewed(start, es, begun, c, granted, begun.clock + OPERATION_LEASE_SECONDS);
    expiry := begun.clock + OPERATION_LEASE_SECONDS;
    es, paused := FirstExecutorStops(start, es + [Renew(c.createIds.operationId)], db, c, first, expiry, stage);
    WaitLeads(start, es, Alone(db, ServedGarage(c), c, paused), OPERATION_LEASE_SECONDS);
    es, db := es + [Wait(OPERATION_LEASE_SECONDS)], Ticked(db, OPERATION_LEASE_SECONDS);
  }

  lemma BothPoised(start: World, c: Cast, stage: Stage)
    returns (es: seq<Event>, w: World, db: Db, g: Garage, paused: Exec, ready: Exec, expiry: int)
    requires EmptyWorld(start) && Proper(c) && (stage.Listing? || stage.KeyMaking?)
    ensures Leads(start, es, w) && Poised(w, c, stage, db, g, paused, ready, expiry)
  {
    var lapsed, before, first, end := FirstExecutorLapses(start, c, stage);
    paused := first;
    var taken, granted := CreationTakenOver(start, lapsed, before, c, paused, end);
    es := lapsed + [Begin(c.create, c.retryIds)];
    expiry := taken.clock + OPERATION_LEASE_SECONDS;
    var successor;
    db, successor := SuccessorRenewed(start, es, taken, c, paused, granted, expiry);
    expiry := db.clock + OPERATION_LEASE_SECONDS;
    es, g, ready := KeyBuilt(start, es + [Renew(c.retryIds.operationId)], db, c, paused, successor, expiry);
    w := Racing(db, g, c, paused, ready);
  }

  lemma PoisedCommits(ws: seq<World>, es: seq<Event>, c: Cast, stage: Stage, db: Db, g: Garage, paused: Exec,
                      ready: Exec, expiry: int)
    returns (after: Db)
    requires WorldRun(ws, es) && Proper(c) && Poised(ws[|es|], c, stage, db, g, paused, ready, expiry)
    ensures CommitsAt(ws[|es|], Commit(c.retryIds.operationId, c.requestId)) && Recorded(after, c)
    ensures var ws', es' := ws + [Racing(after, g, c, paused, ready.(pc := Halted))],
                            es + [Commit(c.retryIds.operationId, c.requestId)];
            WorldRun(ws', es') && (TimelyRun(ws, es) ==> TimelyRun(ws', es'))
  {
    after := CreationCompletes(db, g, c, paused, ready, expiry);
    CompletionExtends(ws, es, c.retryIds.operationId, c.requestId, after);
    SuccessorMoves(db, g, c, paused, ready, Halted);
  }

  lemma PoisedRun(start: World, c: Cast, stage: Stage)
    returns (ws: seq<World>, es: seq<Event>, db: Db, g: Garage, paused: Exec, ready: Exec, expiry: int)
    requires EmptyWorld(start) && Proper(c) && (stage.Listing? || stage.KeyMaking?)
    ensures TimelyRun(ws, es) && ws[0] == start && Poised(ws[|es|], c, stage, db, g, paused, ready, expiry)
  {
    var w;
    es, w, db, g, paused, ready, expiry := BothPoised(start, c, stage);
    ws := RunOf(start, es, w);
  }

  lemma IssuedAgrees(ws: seq<World>, es: seq<Event>, n: nat, c: Cast, stage: Stage, db: Db, g: Garage, paused: Exec,
                     ready: Exec, expiry: int)
    requires Proper(c) && TimelyRun(ws, es) && n + 1 == |es| && CommitsAt(ws[n], es[n])
    requires Poised(ws[n], c, stage, db, g, paused, ready, expiry) && es[n].operationId == c.retryIds.operationId
    ensures KeyAgrees(ws[n + 1].db, ws[n + 1].garage, c.createIds.credentialId)
  {
    IssuedKeyIsTheOnlyOne(ws, es, n);
  }

  /** From any empty world there is a timely run in which a creation lapses, is taken over and is committed by the
      successor, and the recorded key is the only one of its name. */
  lemma TakenOverCreationCommits(start: World, c: Cast, stage: Stage)
    returns (ws: seq<World>, es: seq<Event>, n: nat, db: Db, g: Garage, paused: Exec, done: Exec)
    requires EmptyWorld(start) && Proper(c) && (stage.Listing? || stage.KeyMaking?)
    ensures TimelyRun(ws, es) && ws[0] == start && |es| == n + 1
    ensures CommitsAt(ws[n], es[n]) && ws[n + 1] == Racing(db, g, c, paused, done)
    ensures Creates(paused, c, Calling(stage)) && KeyMade(g, c) && Recorded(db, c)
    ensures KeyAgrees(db, g, c.createIds.credentialId)
  {
    var ws0, es0, before, g0, first, ready, expiry := PoisedRun(start, c, stage);
    g, paused, done, n := g0, first, ready.(pc := Halted), |es0|;
    db := PoisedCommits(ws0, es0, c, stage, before, g, paused, ready, expiry);
    ws, es := ws0 + [Racing(db, g, c, paused, done)], es0 + [Commit(c.retryIds.operationId, c.requestId)];
    assert ws[n] == ws0[n];
    IssuedAgrees(ws, es, n, c, stage, before, g, paused, ready, expiry);
  }

  lemma PausedListsAndSweeps(ws: seq<World>, es: seq<Event>, db: Db, g: Garage, c: Cast, paused: Exec, other: Exec)
    returns (ws': seq<World>, es': seq<Event>)
    requires WorldRun(ws, es) && Proper(c) && KeyMade(g, c) && Creates(paused, c, Calling(Listing))
    requires ws[|es|] == Racing(db, g, c, paused, other)
    ensures WorldRun(ws', es') && |es'| == |es| + 2 && ws'[..|es| + 1] == ws && es'[..|es|] == es
    ensures ws'[0] == ws[0] && ws'[|es| + 2] == Racing(db, Swept(g, c), c, paused.(pc := Calling(KeyMaking)), other)
  {
    var o, sweeping := c.createIds.operationId, paused.(pc := Calling(Sweeping([c.keyId])));
    KeyIsListed(db, g, c, paused, other);
    AnswerExtends(ws, es, o, Listed([c.keyId]), Racing(db, g, c, sweeping, other));
    ws', es' := ws + [Racing(db, g, c, sweeping, other)], es + [Reply(o, Listed([c.keyId]))];
    KeyIsSwept(db, g, c, sweeping, other);
    AnswerExtends(ws', es', o, Done, Racing(db, Swept(g, c), c, paused.(pc := Calling(KeyMaking)), other));
    ws', es' := ws' + [Racing(db, Swept(g, c), c, paused.(pc := Calling(KeyMaking)), other)], es' + [Reply(o, Done)];
  }

  /** What was committed in time stays so in every run that goes on from there. */
  lemma CommitStays(ws: seq<World>, es: seq<Event>, n: nat, ws': seq<World>, es': seq<Event>)
    requires TimelyRun(ws, es) && |es| == n + 1 && CommitsAt(ws[n], es[n])
    requires |ws'| >= n + 2 && |es'| >= n + 1 && ws'[..n + 2] == ws && es'[..n + 1] == es
    ensures TimelyRun(ws'[..n + 2], es'[..n + 1]) && CommitsAt(ws'[n], es'[n]) && ws'[n + 1] == ws[n + 1]
  {
    assert ws'[n] == ws[n] && es'[n] == es[n];
  }

  /** The agreement does not last: after a timely run up to the commit, the executor that was taken over lists the keys
      of its name, finds the recorded one, and deletes it, with the tables unchanged. */
  lemma PausedExecutorDeletesRecordedKey(start: World, c: Cast) returns (ws: seq<World>, es: seq<Event>, n: nat)
    requires EmptyWorld(start) && Proper(c)
    ensures WorldRun(ws, es) && ws[0] == start && |es| == n + 3
    ensures TimelyRun(ws[..n + 2], es[..n + 1]) && CommitsAt(ws[n], es[n])
    ensures KeyAgrees(ws[n + 1].db, ws[n + 1].garage, c.createIds.credentialId)
    ensures ws[n + 3].db == ws[n + 1].db && !KeyAgrees(ws[n + 3].db, ws[n + 3].garage, c.createIds.credentialId)
  {
    var ws0, es0, m, db, g, paused, done := TakenOverCreationCommits(start, c, Listing);
    n := m;
    ws, es := PausedListsAndSweeps(ws0, es0, db, g, c, paused, done);
    CommitStays(ws0, es0, n, ws, es);
    assert ws[n + 3] == Racing(db, Swept(g, c), c, paused.(pc := Calling(KeyMaking)), done);
    SweptKeyDisagrees(db, g, c);
  }

  /** Nor need it ever hold: the paused executor may delete the key before its successor commits it. */
  lemma PausedExecutorSpoilsCommit(start: World, c: Cast) returns (ws: seq<World>, es: seq<Event>, n: nat)
    requires EmptyWorld(start) && Proper(c)
    ensures WorldRun(ws, es) && ws[0] == start && |es| == n + 1 && CommitsAt(ws[n], es[n])
    ensures c.createIds.credentialId in ws[n + 1].db.credentials
    ensures !KeyAgrees(ws[n + 1].db, ws[n + 1].garage, c.createIds.credentialId)
  {
    var ws0, es0, db, g, paused, ready, expiry := PoisedRun(start, c, Listing);
    ws, es := PausedListsAndSweeps(ws0, es0, db, g, c, paused, ready);
    n := |es|;
    var after := CreationCompletes(db, Swept(g, c), c, paused.(pc := Calling(KeyMaking)), ready, expiry);
    CompletionExtends(ws, es, c.retryIds.operationId, c.requestId, after);
    ws := ws + [ws[n].(db := after, execs := Moved(ws[n].execs, c.retryIds.operationId, Halted))];
    es := es + [Commit(c.retryIds.operationId, c.requestId)];
    SweptKeyDisagrees(after, g, c);
  }

  // ---------------------------------------------------------------- a second key

  /** Garage after a second key of the credential's name was made. */
  ghost function WithStray(g: Garage, c: Cast, stray: string): Garage {
    g.(keys := g.keys[stray := GarageKey(Deterministic(c.create.ServiceId(), c.createIds.credentialId), map[], true)])
  }

  lemma StrayIsMade(db: Db, g: Garage, c: Cast, paused: Exec, other: Exec, stray: string)
    requires Proper(c) && KeyMade(g, c) && Creates(paused, c, Calling(KeyMaking)) && stray != c.keyId
    ensures Answered(Racing(db, g, c, paused, other), c.createIds.operationId, MadeKey(stray, Some(c.secret)),
                     Racing(db, WithStray(g, c, stray), c, paused.(pc := Calling(Denying(stray, c.secret))), other))
  {
    PausedMoves(db, g, c, paused, other, Calling(Denying(stray, c.secret)));
  }

  lemma StrayDisagrees(db: Db, g: Garage, c: Cast, stray: string)
    requires Proper(c) && KeyMade(g, c) && Recorded(db, c) && stray != c.keyId
    ensures !KeyAgrees(db, WithStray(g, c, stray), c.createIds.credentialId)
  {
    var row, h := db.credentials[c.createIds.credentialId], WithStray(g, c, stray);
    assert Named(h, stray, Deterministic(row.serviceId, c.createIds.credentialId));
  }

  lemma PausedMakesStray(ws: seq<World>, es: seq<Event>, db: Db, g: Garage, c: Cast, paused: Exec, other: Exec,
                         stray: string) returns (ws': seq<World>, es': seq<Event>)
    requires WorldRun(ws, es) && Proper(c) && KeyMade(g, c) && Creates(paused, c, Calling(KeyMaking)) && stray != c.keyId
    requires ws[|es|] == Racing(db, g, c, paused, other)
    ensures WorldRun(ws', es') && |es'| == |es| + 1 && ws'[..|es| + 1] == ws && es'[..|es|] == es && ws'[0] == ws[0]
    ensures ws'[|es| + 1]
            == Racing(db, WithStray(g, c, stray), c, paused.(pc := Calling(Denying(stray, c.secret))), other)
  {
    var o, last := c.createIds.operationId,
                   Racing(db, WithStray(g, c, stray), c, paused.(pc := Calling(Denying(stray, c.secret))), other);
    StrayIsMade(db, g, c, paused, other, stray);
    AnswerExtends(ws, es, o, MadeKey(stray, Some(c.secret)), last);
    ws', es' := ws + [last], es + [Reply(o, MadeKey(stray, Some(c.secret)))];
  }

  /** A second way: the executor that was taken over listed keys in time and found none. After its successor committed, it
      makes its own key, and two live keys go by the credential's name. */
  lemma PausedExecutorMakesSecondKey(start: World, c: Cast, stray: string)
    returns (ws: seq<World>, es: seq<Event>, n: nat)
    requires EmptyWorld(start) && Proper(c) && stray != c.keyId
    ensures WorldRun(ws, es) && ws[0] == start && |es| == n + 2
    ensures TimelyRun(ws[..n + 2], es[..n + 1]) && CommitsAt(ws[n], es[n])
    ensures KeyAgrees(ws[n + 1].db, ws[n + 1].garage, c.createIds.credentialId)
    ensures ws[n + 2].db == ws[n + 1].db && !KeyAgrees(ws[n + 2].db, ws[n + 2].garage, c.createIds.credentialId)
  {
    var ws0, es0, m, db, g, paused, done := TakenOverCreationCommits(start, c, KeyMaking);
    n := m;
    ws, es := PausedMakesStray(ws0, es0, db, g, c, paused, done, stray);
    CommitStays(ws0, es0, n, ws, es);
    assert ws[n + 2] == Racing(db, WithStray(g, c, stray), c, paused.(pc := Calling(Denying(stray, c.secret))), done);
    StrayDisagrees(db, g, c, stray);
  }
}
