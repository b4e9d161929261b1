/** Every event keeps the world's invariant. */
module WorldSteps {
  import opened Types
  import opened StoreSpec
  import opened Invariant
  import opened Completions
  import opened Transactions
  import opened Contexts
  import opened StoreRuns
  import opened GarageModel
  import opened Handlers
  import opened Executors
  import opened WorldInvariant
  import opened Remains
  import opened Commits

  // ---------------------------------------------------------------- shapes of an event

  ghost predicate Begins(w: World, e: Event) {
    e.Begin? && GrantsAt(w.db, Preparing(e.cmd, e.ids), e.cmd.operation.key)
  }

  ghost function NewExec(w: World, e: Event): Exec
    requires Begins(w, e)
  {
    var context := PrepareStep(w.db, e.cmd, e.ids).reply.value.context;
    Exec(e.cmd, context, Start(e.cmd, context))
  }

  /** One execution moved its program counter. */
  ghost function Moved(execs: map<Uuid, Exec>, o: Uuid, pc: Pc): map<Uuid, Exec>
    requires o in execs
  {
    execs[o := execs[o].(pc := pc)]
  }

  lemma ExecsUnlessBegun(w: World, e: Event)
    requires Possible(w, e) && !Begins(w, e)
    ensures Actor(e).Some? ==> Actor(e).value in w.execs
    ensures ExecsAfter(w, e) == if Actor(e).Some? then Moved(w.execs, Actor(e).value, PcAfter(w, e)) else w.execs
  {
  }

  lemma ExecsBegun(w: World, e: Event)
    requires Inv(w.db) && Possible(w, e) && Begins(w, e)
    ensures ExecsAfter(w, e) == w.execs[e.ids.operationId := NewExec(w, e)]
    ensures GarageAfter(w, e) == w.garage && LooseAfter(w, e) == w.loose
  {
    NewExecutionInformed(w.db, e.cmd, e.ids);
  }

  lemma GarageAges(w: World, e: Event)
    requires Possible(w, e)
    ensures Ages(w.garage, GarageAfter(w, e))
  {
    match e {
      case Reply(o, answer) => CallsAge(w.garage, CallAt(w, o), answer);
      case Late(call, answer) => CallsAge(w.garage, LooseCall(w, call), answer);
      case _ =>
    }
  }

  // ---------------------------------------------------------------- requests

  lemma RequestsSurvive(before: Db, after: Db, execs: map<Uuid, Exec>)
    requires Inv(before) && Inv(after) && Follows(before, after) && RequestsOk(before, execs)
    ensures RequestsOk(after, execs)
  {
    forall o | o in execs
      ensures Granted(after.receipts, after.issued, o, execs[o].cmd) && Informed(after, o, execs[o].cmd, execs[o].context)
    {
      GrantSurvives(before, after, o, execs[o].cmd);
      InformationSurvives(before, after, o, execs[o].cmd, execs[o].context);
    }
  }

  lemma RequestsOfMoved(db: Db, execs: map<Uuid, Exec>, o: Uuid, pc: Pc)
    requires RequestsOk(db, execs) && o in execs
    ensures RequestsOk(db, Moved(execs, o, pc))
  {
  }

  lemma RequestsOfNew(db: Db, execs: map<Uuid, Exec>, o: Uuid, exec: Exec)
    requires RequestsOk(db, execs) && Granted(db.receipts, db.issued, o, exec.cmd)
    requires Informed(db, o, exec.cmd, exec.context)
    ensures RequestsOk(db, execs[o := exec])
  {
  }

  lemma RequestsKept(w: World, e: Event, after: Db)
    requires Inv(w.db) && Possible(w, e) && RequestsOk(w.db, w.execs)
    requires Inv(after) && Follows(w.db, after) && (Begins(w, e) ==> after == PrepareStep(w.db, e.cmd, e.ids).db)
    ensures RequestsOk(after, ExecsAfter(w, e))
  {
    RequestsSurvive(w.db, after, w.execs);
    if Begins(w, e) {
      ExecsBegun(w, e);
      NewExecutionInformed(w.db, e.cmd, e.ids);
      RequestsOfNew(after, w.execs, e.ids.operationId, NewExec(w, e));
    } else {
      ExecsUnlessBegun(w, e);
      if Actor(e).Some? {
        RequestsOfMoved(after, w.execs, Actor(e).value, PcAfter(w, e));
      }
    }
  }

  // ---------------------------------------------------------------- programs

  lemma PcMoves(w: World, e: Event)
    requires Possible(w, e) && Actor(e).Some? && ProgramOk(w.garage, w.execs[Actor(e).value])
    requires Ages(w.garage, GarageAfter(w, e))
    ensures var exec := w.execs[Actor(e).value];
            && PcFits(exec.cmd, exec.context, PcAfter(w, e))
            && PcTrue(GarageAfter(w, e), exec.cmd, exec.context, PcAfter(w, e))
  {
    var exec := w.execs[Actor(e).value];
    PcStaysTrue(w.garage, GarageAfter(w, e), exec.cmd, exec.context, exec.pc);
    if e.Reply? {
      AnsweredIsTrue(w.garage, exec.cmd, exec.context, exec.pc.stage, e.answer);
    } else if e.Error? {
      ErrorIsTrue(w.garage, exec.cmd, exec.context, exec.pc.stage);
    }
  }

  lemma ProgramsAge(g: Garage, h: Garage, execs: map<Uuid, Exec>)
    requires ProgramsOk(g, execs) && Ages(g, h)
    ensures ProgramsOk(h, execs)
  {
    forall o | o in execs ensures ProgramOk(h, execs[o]) {
      ContextStaysKnown(g, h, execs[o].context);
      PcStaysTrue(g, h, execs[o].cmd, execs[o].context, execs[o].pc);
    }
  }

  /** What a granted context names is known to Garage. */
  lemma DescribedIsKnown(db: Db, g: Garage, row: ReceiptRow, context: Context)
    requires Describes(db, row, context) && KeysGone(db.credentials, g) && BucketsGone(db.services, db.buckets, g)
    ensures ContextKnown(g, context)
  {
    if context.DeleteContext? {
      var own := CredentialsOf(db.credentials, row.identity.serviceId);
      forall k | k in context.garageKeyIds ensures k in g.keys {
        ActiveKeysExact(own, k);
        var c :| c in own && own[c].garageKeyId == k;
        assert c in db.credentials;
      }
    }
  }

  ghost predicate SameRows(before: Db, after: Db) {
    after.credentials == before.credentials && after.services == before.services && after.buckets == before.buckets
  }

  lemma GrantsLeaveRows(db: Db, cmd: Command, ids: FreshIds, names: Names)
    ensures SameRows(db, Reserve(db, cmd, ids, names))
    ensures cmd.operation.key in db.receipts ==>
              SameRows(db, TakeOver(db, cmd.operation.key, ids.operationId).(names := names))
  {
  }

  lemma PrepareLeavesRows(db: Db, cmd: Command, ids: FreshIds)
    ensures SameRows(db, PrepareStep(db, cmd, ids).db)
  {
    if PrepareStep(db, cmd, ids).db != db {
      GrantsLeaveRows(db, cmd, ids, PrepareStep(db, cmd, ids).db.names);
    }
  }

  lemma NewProgramOk(w: World, e: Event)
    requires Inv(w.db) && Possible(w, e) && Begins(w, e)
    requires KeysGone(w.db.credentials, w.garage) && BucketsGone(w.db.services, w.db.buckets, w.garage)
    ensures ProgramOk(w.garage, NewExec(w, e))
  {
    var step := PrepareStep(w.db, e.cmd, e.ids);
    var context := step.reply.value.context;
    GrantedContextIsTrue(w.db, Preparing(e.cmd, e.ids), e.cmd.operation.key);
    PrepareLeavesRows(w.db, e.cmd, e.ids);
    DescribedIsKnown(step.db, w.garage, step.db.receipts[e.cmd.operation.key], context);
    StartIsTrue(w.garage, e.cmd, context);
  }

  lemma ProgramsKept(w: World, e: Event)
    requires Inv(w.db) && Possible(w, e) && ProgramsOk(w.garage, w.execs)
    requires KeysGone(w.db.credentials, w.garage) && BucketsGone(w.db.services, w.db.buckets, w.garage)
    ensures ProgramsOk(GarageAfter(w, e), ExecsAfter(w, e))
  {
    if Begins(w, e) {
      ExecsBegun(w, e);
      NewProgramOk(w, e);
    } else {
      ExecsUnlessBegun(w, e);
      MovedProgramsKept(w, e);
    }
  }

  lemma MovedProgramsKept(w: World, e: Event)
    requires Possible(w, e) && ProgramsOk(w.garage, w.execs)
    ensures ProgramsOk(GarageAfter(w, e), w.execs)
    ensures Actor(e).Some? ==>
              && Actor(e).value in w.execs
              && ProgramsOk(GarageAfter(w, e), Moved(w.execs, Actor(e).value, PcAfter(w, e)))
  {
    GarageAges(w, e);
    ProgramsAge(w.garage, GarageAfter(w, e), w.execs);
    if Actor(e).Some? {
      assert ProgramOk(w.garage, w.execs[Actor(e).value]);
      PcMoves(w, e);
    }
  }

  // ---------------------------------------------------------------- hands

  /** An execution lets go of its key, keeps it, or takes up one that did not exist before; one on its way out stays so. */
  lemma PcHands(w: World, e: Event)
    requires Possible(w, e) && Actor(e).Some? && ProgramOk(w.garage, w.execs[Actor(e).value])
    ensures var before, after := w.execs[Actor(e).value].pc, PcAfter(w, e);
            && (Held(after).None? || Held(after) == Held(before) || Held(after).value !in w.garage.keys)
            && (!e.Reply? ==> Held(after).None? || Held(after) == Held(before))
            && (Leaving(before) ==> Leaving(after))
  {
  }

  lemma LettingGo(stage: Stage)
    ensures Leaving(OnError(stage)) && (Held(OnError(stage)).None? || Held(OnError(stage)) == Held(Calling(stage)))
    ensures Discarded(stage).Some? ==> Held(OnError(stage)).None?
  {
  }

  // ---------------------------------------------------------------- events that record nothing

  ghost predicate SamePhysicals(before: Buckets, after: Buckets) {
    && before.Keys == after.Keys
    && (forall s | s in before :: after[s].physicalBucketId == before[s].physicalBucketId)
  }

  ghost predicate Quiet(before: Db, after: Db) {
    && after.credentials == before.credentials
    && after.services == before.services
    && SamePhysicals(before.buckets, after.buckets)
  }

  lemma QuietEvent(w: World, e: Event)
    requires Possible(w, e) && !e.Commit?
    ensures Admissible(w.db, TxOf(w, e)) && Quiet(w.db, Apply(w.db, TxOf(w, e)))
  {
    EventsAreTransactions(w, e);
    if e.Begin? {
      PrepareLeavesRows(w.db, e.cmd, e.ids);
    } else if e.GiveUp? {
      FailOutcome(w.db, TxOf(w, e).operation, e.operationId, e.response, TxOf(w, e).audit);
    }
  }

  // ---------------------------------------------------------------- records

  lemma QuietKeeps(before: Db, after: Db, g: Garage, h: Garage)
    requires KeysGone(before.credentials, g) && BucketsGone(before.services, before.buckets, g)
    requires Quiet(before, after) && Ages(g, h)
    ensures Keeps(before, after, h, None)
  {
    KeysGoneAge(before.credentials, g, h);
    BucketsGoneAge(before.services, before.buckets, g, h);
  }

  /** The key an event records. */
  ghost function Records(w: World, e: Event): Option<string>
    requires Possible(w, e)
  {
    if e.Commit? then
      EventsAreTransactions(w, e);
      KeyRecorded(w.execs[e.operationId].pc.product, CompletionError(w.db, TxOf(w, e)))
    else None
  }

  lemma RecordsKept(w: World, e: Event)
    requires WorldInv(w) && Possible(w, e)
    ensures Admissible(w.db, TxOf(w, e))
    ensures Keeps(w.db, Apply(w.db, TxOf(w, e)), GarageAfter(w, e), Records(w, e))
  {
    EventsAreTransactions(w, e);
    if e.Commit? {
      assert ProgramOk(w.garage, w.execs[e.operationId]);
      CommitKeeps(w.db, w.garage, e.operationId, w.execs[e.operationId], e.requestId);
    } else {
      QuietEvent(w, e);
      GarageAges(w, e);
      QuietKeeps(w.db, Apply(w.db, TxOf(w, e)), w.garage, GarageAfter(w, e));
    }
  }

  lemma RecordedWasHeld(w: World, e: Event)
    requires Possible(w, e)
    ensures Records(w, e).Some? ==>
              && e.Commit? && HoldsKey(w.execs, e.operationId, Records(w, e).value) && Held(PcAfter(w, e)).None?
  {
  }

  // ---------------------------------------------------------------- hands and loose calls

  /** Everything about hands and loose calls. */
  ghost predicate HandsAndCalls(credentials: Credentials, g: Garage, execs: map<Uuid, Exec>, loose: set<Loose>) {
    && HandsOk(credentials, execs)
    && AllLooseOk(g, execs, loose)
    && DiscardsOk(credentials, execs, loose)
  }

  lemma NewHandIsEmpty(credentials: Credentials, g: Garage, execs: map<Uuid, Exec>, loose: set<Loose>, o: Uuid,
                       cmd: Command, context: Context)
    requires HandsAndCalls(credentials, g, execs, loose) && o !in execs
    ensures HandsAndCalls(credentials, g, execs[o := Exec(cmd, context, Start(cmd, context))], loose)
  {
    var after := execs[o := Exec(cmd, context, Start(cmd, context))];
    forall p, k | HoldsKey(after, p, k) ensures HoldsKey(execs, p, k) {
    }
  }

  lemma MovedHands(credentials: Credentials, after: Credentials, g: Garage, h: Garage, execs: map<Uuid, Exec>,
                   loose: set<Loose>, o: Uuid, pc: Pc, k: Option<string>)
    requires HandsAndCalls(credentials, g, execs, loose) && ProgramsOk(g, execs) && KeysGone(credentials, g)
    requires Ages(g, h) && RecordsOnly(credentials, after, k) && o in execs
    requires Held(pc).None? || Held(pc) == Held(execs[o].pc) || (Held(pc).value !in g.keys && after == credentials)
    requires k.Some? ==> HoldsKey(execs, o, k.value) && Held(pc).None?
    requires Leaving(execs[o].pc) ==> Leaving(pc)
    ensures HandsAndCalls(after, h, Moved(execs, o, pc), loose)
  {
    LooseMoved(g, execs, loose, o, pc);
    LooseAges(g, h, Moved(execs, o, pc), loose);
    DiscardsMoved(credentials, g, execs, loose, o, pc);
    if Held(pc).None? || Held(pc) == Held(execs[o].pc) {
      HandsRecorded(credentials, after, execs, o, pc, k);
      DiscardsRecorded(credentials, after, execs, loose, o, k);
      assert DiscardsOk(after, Moved(execs, o, pc), loose);
    } else {
      HandsMoved(credentials, g, execs, o, pc);
    }
  }

  lemma LoosenedHands(credentials: Credentials, g: Garage, execs: map<Uuid, Exec>, loose: set<Loose>, o: Uuid, pc: Pc)
    requires HandsAndCalls(credentials, g, execs, loose) && ProgramsOk(g, execs) && KeysGone(credentials, g)
    requires o in execs && execs[o].pc.Calling? && Leaving(pc)
    requires Held(pc).None? || Held(pc) == Held(execs[o].pc)
    requires Discarded(execs[o].pc.stage).Some? ==> Held(pc).None?
    ensures HandsAndCalls(credentials, g, Moved(execs, o, pc), loose + {Loose(o, execs[o].pc.stage)})
  {
    assert ProgramOk(g, execs[o]);
    HandsMoved(credentials, g, execs, o, pc);
    LooseMoved(g, execs, loose, o, pc);
    LooseGrows(g, Moved(execs, o, pc), loose, o, execs[o].pc.stage);
    DiscardsGrow(credentials, execs, loose, o, execs[o].pc.stage, pc);
  }

  lemma UnmovedHands(credentials: Credentials, g: Garage, h: Garage, execs: map<Uuid, Exec>, loose: set<Loose>)
    requires HandsAndCalls(credentials, g, execs, loose) && Ages(g, h)
    ensures HandsAndCalls(credentials, h, execs, loose)
  {
    LooseAges(g, h, execs, loose);
  }

  lemma ActorHands(w: World, e: Event, after: Credentials)
    requires HandsAndCalls(w.db.credentials, w.garage, w.execs, w.loose) && ProgramsOk(w.garage, w.execs)
    requires KeysGone(w.db.credentials, w.garage) && Possible(w, e) && Actor(e).Some? && Actor(e).value in w.execs
    requires RecordsOnly(w.db.credentials, after, Records(w, e)) && (!e.Commit? ==> after == w.db.credentials)
    ensures HandsAndCalls(after, GarageAfter(w, e), Moved(w.execs, Actor(e).value, PcAfter(w, e)), LooseAfter(w, e))
  {
    var o := Actor(e).value;
    assert ProgramOk(w.garage, w.execs[o]);
    PcHands(w, e);
    if e.Error? || e.Crash? {
      LettingGo(w.execs[o].pc.stage);
      LoosenedHands(w.db.credentials, w.garage, w.execs, w.loose, o, PcAfter(w, e));
    } else {
      GarageAges(w, e);
      RecordedWasHeld(w, e);
      MovedHands(w.db.credentials, after, w.garage, GarageAfter(w, e), w.execs, w.loose, o, PcAfter(w, e), Records(w, e));
    }
  }

  lemma BegunHands(w: World, e: Event)
    requires WorldInv(w) && Possible(w, e) && Begins(w, e)
    ensures HandsAndCalls(w.db.credentials, GarageAfter(w, e), ExecsAfter(w, e), LooseAfter(w, e))
  {
    ExecsBegun(w, e);
    assert e.ids.operationId !in w.execs;
    var context := PrepareStep(w.db, e.cmd, e.ids).reply.value.context;
    NewHandIsEmpty(w.db.credentials, w.garage, w.execs, w.loose, e.ids.operationId, e.cmd, context);
  }

  lemma HandsKept(w: World, e: Event, after: Credentials)
    requires WorldInv(w) && Possible(w, e)
    requires RecordsOnly(w.db.credentials, after, Records(w, e)) && (!e.Commit? ==> after == w.db.credentials)
    ensures HandsAndCalls(after, GarageAfter(w, e), ExecsAfter(w, e), LooseAfter(w, e))
  {
    if Begins(w, e) {
      BegunHands(w, e);
    } else {
      ExecsUnlessBegun(w, e);
      if Actor(e).Some? {
        ActorHands(w, e, after);
      } else {
        GarageAges(w, e);
        UnmovedHands(after, w.garage, GarageAfter(w, e), w.execs, w.loose);
      }
    }
  }

  // ---------------------------------------------------------------- the whole

  lemma TablesKept(w: World, e: Event)
    requires Inv(w.db) && RequestsOk(w.db, w.execs) && Possible(w, e)
    ensures Admissible(w.db, TxOf(w, e)) && Inv(Apply(w.db, TxOf(w, e)))
    ensures RequestsOk(Apply(w.db, TxOf(w, e)), ExecsAfter(w, e))
  {
    EventsAreTransactions(w, e);
    ApplyKeepsInv(w.db, TxOf(w, e));
    ApplyFollows(w.db, TxOf(w, e));
    RequestsKept(w, e, Apply(w.db, TxOf(w, e)));
  }

  lemma RemainsKept(w: World, e: Event)
    requires WorldInv(w) && Possible(w, e)
    ensures Admissible(w.db, TxOf(w, e))
    ensures Keeps(w.db, Apply(w.db, TxOf(w, e)), GarageAfter(w, e), Records(w, e))
    ensures HandsAndCalls(Apply(w.db, TxOf(w, e)).credentials, GarageAfter(w, e), ExecsAfter(w, e), LooseAfter(w, e))
  {
    RecordsKept(w, e);
    if !e.Commit? {
      QuietEvent(w, e);
    }
    HandsKept(w, e, Apply(w.db, TxOf(w, e)).credentials);
  }

  /** Every event keeps the world's invariant. */
  lemma MoveKeepsWorldInv(w: World, e: Event)
    requires WorldInv(w) && Possible(w, e)
    ensures WorldInv(Move(w, e))
  {
    TablesKept(w, e);
    ProgramsKept(w, e);
    RemainsKept(w, e);
  }
}
