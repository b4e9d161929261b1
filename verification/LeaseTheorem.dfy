/** If no call of an operation takes effect after the operation was taken over, Garage agrees with what is committed. */
module LeaseTheorem {
  import opened Types
  import opened Domain
  import opened StoreSpec
  import opened Invariant
  import opened Transactions
  import opened Evolution
  import opened GarageModel
  import opened Handlers
  import opened Executors
  import opened WorldInvariant
  import opened WorldSteps
  import opened OnTrack

  // ---------------------------------------------------------------- the assumption

  ghost predicate Holds(w: World, o: Uuid) {
    o in w.execs && Current(w.db.receipts, w.execs[o].cmd.operation.key, o)
  }

  /** A Garage call that takes effect does so while its operation is current, whether or not the lease has expired. The
      clean-up after a lost lease is exempt. */
  ghost predicate Timely(w: World, e: Event) {
    && (e.Reply? && AtCall(w, e.operationId) && !w.execs[e.operationId].pc.stage.Cleaning? ==> Holds(w, e.operationId))
    && (e.Late? && !e.call.stage.Cleaning? ==> Holds(w, e.call.operationId))
  }

  // ---------------------------------------------------------------- the invariant under it

  /** Recorded buckets go by their recorded names. */
  ghost predicate AliasesRecorded(buckets: Buckets, g: Garage) {
    forall s | s in buckets && buckets[s].physicalBucketId.Some? ::
      Goes(g, buckets[s].physicalBucketId.value, buckets[s].bucketName)
  }

  ghost predicate AllOnTrack(receipts: Receipts, g: Garage, execs: map<Uuid, Exec>) {
    forall o | o in execs && Current(receipts, execs[o].cmd.operation.key, o) ::
      Track(g, execs[o].cmd, execs[o].context, execs[o].pc)
  }

  ghost predicate LeaseInv(w: World) {
    && AliasesRecorded(w.db.buckets, w.garage)
    && AllOnTrack(w.db.receipts, w.garage, w.execs)
  }

  // ---------------------------------------------------------------- current operations do not meet in Garage

  /** Two operations in hand at once work on different services. */
  lemma DifferentServices(w: World, o: Uuid, p: Uuid)
    requires Inv(w.db) && RequestsOk(w.db, w.execs) && Holds(w, o) && Holds(w, p) && o != p
    ensures w.execs[o].cmd.ServiceId() != w.execs[p].cmd.ServiceId()
  {
    assert Granted(w.db.receipts, w.db.issued, o, w.execs[o].cmd) && Granted(w.db.receipts, w.db.issued, p, w.execs[p].cmd);
    assert InFlight(w.db.receipts, w.execs[o].cmd.operation.key) && InFlight(w.db.receipts, w.execs[p].cmd.operation.key);
  }

  /** The call goes to a key of the operation's own name or to one that a credential row records. */
  ghost predicate KeyAtHome(g: Garage, credentials: Credentials, exec: Exec, call: Call) {
    && (KeyTarget(call).Some? ==>
          || (exec.context.CreateCredentialContext? && OwnKey(g, exec.cmd, exec.context, KeyTarget(call).value))
          || !Unrecorded(credentials, KeyTarget(call).value))
    && (call.CreateKey? ==>
          exec.context.CreateCredentialContext? && call.name == KeyNameOf(exec.cmd, exec.context))
  }

  lemma ActiveKeyIsRecorded(credentials: Credentials, s: Uuid, k: string)
    requires k in ActiveKeys(CredentialsOf(credentials, s))
    ensures !Unrecorded(credentials, k)
  {
    var own := CredentialsOf(credentials, s);
    ActiveKeysExact(own, k);
    var c :| c in own && own[c].garageKeyId == k;
    assert c in credentials && credentials[c].garageKeyId == k;
  }

  lemma CreateCallsStayHome(g: Garage, credentials: Credentials, exec: Exec, stage: Stage)
    requires exec.cmd.payload.CreateCredential? || exec.cmd.payload.Reconcile?
    requires StageFits(exec.cmd, exec.context, stage) && StageTrue(g, exec.cmd, exec.context, stage)
    ensures KeyAtHome(g, credentials, exec, CallOf(exec.cmd, exec.context, stage))
  {
  }

  lemma DeleteCallsStayHome(g: Garage, credentials: Credentials, exec: Exec, stage: Stage)
    requires exec.cmd.payload.Delete? && StageFits(exec.cmd, exec.context, stage)
    requires exec.context.garageKeyIds == ActiveKeys(CredentialsOf(credentials, exec.cmd.ServiceId()))
    ensures KeyAtHome(g, credentials, exec, CallOf(exec.cmd, exec.context, stage))
  {
    if stage.Revoking? {
      ActiveKeyIsRecorded(credentials, exec.cmd.ServiceId(), exec.context.garageKeyIds[stage.index]);
    }
  }

  lemma RevokeCallsStayHome(g: Garage, credentials: Credentials, exec: Exec, stage: Stage)
    requires exec.cmd.payload.RevokeCredential? && StageFits(exec.cmd, exec.context, stage)
    requires var c := exec.cmd.payload.credentialId;
             c in credentials && credentials[c].garageKeyId == exec.context.garageKeyId
    ensures KeyAtHome(g, credentials, exec, CallOf(exec.cmd, exec.context, stage))
  {
    var c := exec.cmd.payload.credentialId;
    assert c in credentials && credentials[c].garageKeyId == exec.context.garageKeyId;
  }

  lemma KeyCallsStayHome(db: Db, g: Garage, p: Uuid, exec: Exec, stage: Stage)
    requires Granted(db.receipts, db.issued, p, exec.cmd) && Informed(db, p, exec.cmd, exec.context)
    requires Current(db.receipts, exec.cmd.operation.key, p)
    requires StageFits(exec.cmd, exec.context, stage) && StageTrue(g, exec.cmd, exec.context, stage)
    ensures KeyAtHome(g, db.credentials, exec, CallOf(exec.cmd, exec.context, stage))
  {
    match exec.cmd.payload {
      case Delete(_, _) => DeleteCallsStayHome(g, db.credentials, exec, stage);
      case RevokeCredential(_) => RevokeCallsStayHome(g, db.credentials, exec, stage);
      case _ => CreateCallsStayHome(g, db.credentials, exec, stage);
    }
  }

  /** A call at home in one service leaves alone the key that an operation on another service is building up. */
  lemma KeysApart(g: Garage, credentials: Credentials, exec: Exec, other: Exec, call: Call)
    requires ProgramOk(g, exec) && exec.cmd.payload.CreateCredential? && Suits(exec.cmd, exec.context)
    requires KeyAtWork(exec.pc).Some? ==> Unrecorded(credentials, KeyAtWork(exec.pc).value)
    requires KeyAtHome(g, credentials, other, call) && exec.cmd.ServiceId() != other.cmd.ServiceId()
    ensures call != CreateKey(KeyNameOf(exec.cmd, exec.context))
    ensures KeyAtWork(exec.pc).Some? ==> KeyTarget(call) != KeyAtWork(exec.pc)
  {
  }

  /** The call changes a bucket under an alias its own service holds. */
  ghost predicate BucketAtHome(names: Names, g: Garage, s: Uuid, call: Call) {
    BucketTarget(call).Some? ==>
      exists n | n in names :: names[n] == s && Goes(g, BucketTarget(call).value, n)
  }

  /** The service holds the reservation of a name that a reconcile can ask for. */
  ghost predicate HoldsUsable(names: Names, bucketName: string, s: Uuid) {
    HoldsName(names, bucketName, s) && ValidateBucketName(bucketName).None?
  }

  lemma GrantedNameIsUsable(db: Db, cmd: Command, o: Uuid)
    requires ReceiptsOk(db.receipts, db.issued) && Granted(db.receipts, db.issued, o, cmd) && cmd.payload.Reconcile?
    ensures ValidateBucketName(cmd.payload.spec.bucketName).None?
  {
    GrantedCommandIsValid(db.receipts, db.issued, cmd);
  }

  lemma StandingName(db: Db, cmd: Command, o: Uuid)
    requires Inv(db) && Granted(db.receipts, db.issued, o, cmd) && Current(db.receipts, cmd.operation.key, o)
    ensures cmd.payload.Reconcile? ==> HoldsUsable(db.names, cmd.payload.spec.bucketName, cmd.ServiceId())
    ensures cmd.payload.Delete? ==>
              && cmd.ServiceId() in db.buckets
              && HoldsName(db.names, db.buckets[cmd.ServiceId()].bucketName, cmd.ServiceId())
  {
    CurrentGrant(db, cmd.operation, o);
    if cmd.payload.Reconcile? {
      GrantedNameIsUsable(db, cmd, o);
    }
  }

  lemma SettingStaysHome(names: Names, g: Garage, exec: Exec, stage: Stage)
    requires exec.cmd.payload.Reconcile? && HoldsUsable(names, exec.cmd.payload.spec.bucketName, exec.cmd.ServiceId())
    requires StageFits(exec.cmd, exec.context, stage) && StageTrue(g, exec.cmd, exec.context, stage)
    ensures BucketAtHome(names, g, exec.cmd.ServiceId(), CallOf(exec.cmd, exec.context, stage))
  {
    assert names[exec.cmd.payload.spec.bucketName] == exec.cmd.ServiceId();
  }

  lemma RemovingStaysHome(names: Names, buckets: Buckets, g: Garage, exec: Exec, stage: Stage)
    requires exec.cmd.payload.Delete? && AliasesRecorded(buckets, g) && StageFits(exec.cmd, exec.context, stage)
    requires var s := exec.cmd.ServiceId();
             && s in buckets && HoldsName(names, buckets[s].bucketName, s)
             && buckets[s].physicalBucketId == exec.context.bucket.physicalBucketId
    ensures BucketAtHome(names, g, exec.cmd.ServiceId(), CallOf(exec.cmd, exec.context, stage))
  {
    assert names[buckets[exec.cmd.ServiceId()].bucketName] == exec.cmd.ServiceId();
  }

  lemma OthersTouchNoBucket(names: Names, g: Garage, exec: Exec, stage: Stage)
    requires exec.cmd.payload.CreateCredential? || exec.cmd.payload.RevokeCredential?
    requires StageFits(exec.cmd, exec.context, stage)
    ensures BucketAtHome(names, g, exec.cmd.ServiceId(), CallOf(exec.cmd, exec.context, stage))
  {
  }

  lemma BucketCallsStayHome(db: Db, g: Garage, p: Uuid, exec: Exec, stage: Stage)
    requires Granted(db.receipts, db.issued, p, exec.cmd) && Informed(db, p, exec.cmd, exec.context)
    requires Current(db.receipts, exec.cmd.operation.key, p) && AliasesRecorded(db.buckets, g)
    requires exec.cmd.payload.Reconcile? ==>
               HoldsUsable(db.names, exec.cmd.payload.spec.bucketName, exec.cmd.ServiceId())
    requires exec.cmd.payload.Delete? ==>
               && exec.cmd.ServiceId() in db.buckets
               && HoldsName(db.names, db.buckets[exec.cmd.ServiceId()].bucketName, exec.cmd.ServiceId())
    requires StageFits(exec.cmd, exec.context, stage) && StageTrue(g, exec.cmd, exec.context, stage)
    ensures BucketAtHome(db.names, g, exec.cmd.ServiceId(), CallOf(exec.cmd, exec.context, stage))
  {
    match exec.cmd.payload {
      case Reconcile(_, _, _) => SettingStaysHome(db.names, g, exec, stage);
      case Delete(_, _) => RemovingStaysHome(db.names, db.buckets, g, exec, stage);
      case _ => OthersTouchNoBucket(db.names, g, exec, stage);
    }
  }

  lemma BucketsApart(names: Names, g: Garage, exec: Exec, s: Uuid, call: Call)
    requires ProgramOk(g, exec) && exec.cmd.payload.Reconcile? && Suits(exec.cmd, exec.context)
    requires HoldsUsable(names, exec.cmd.payload.spec.bucketName, exec.cmd.ServiceId())
    requires BucketAtWork(exec.pc).Some? && !exec.context.previouslyApplied
    requires SoleAlias(g, BucketAtWork(exec.pc).value)
    requires BucketAtHome(names, g, s, call) && exec.cmd.ServiceId() != s
    ensures BucketTarget(call) != BucketAtWork(exec.pc)
  {
    assert OwnBucket(g, exec.cmd, exec.context, BucketAtWork(exec.pc).value);
    assert Goes(g, BucketAtWork(exec.pc).value, exec.cmd.payload.spec.bucketName);
  }

  // ---------------------------------------------------------------- other executors' calls

  lemma OtherCallKeepsTrack(w: World, o: Uuid, p: Uuid, stage: Stage, answer: Answer)
    requires WorldInv(w) && LeaseInv(w) && Holds(w, o) && Holds(w, p) && o != p
    requires StageFits(w.execs[p].cmd, w.execs[p].context, stage)
    requires StageTrue(w.garage, w.execs[p].cmd, w.execs[p].context, stage)
    requires Answers(w.garage, CallOf(w.execs[p].cmd, w.execs[p].context, stage), answer)
    ensures Track(After(w.garage, CallOf(w.execs[p].cmd, w.execs[p].context, stage), answer),
                  w.execs[o].cmd, w.execs[o].context, w.execs[o].pc)
  {
    var exec, other := w.execs[o], w.execs[p];
    var call := CallOf(other.cmd, other.context, stage);
    assert ProgramOk(w.garage, exec);
    DifferentServices(w, o, p);
    CallAtHome(w, p, stage);
    OwnNameHeld(w, o);
    if KeyAtWork(exec.pc).Some? {
      KeyAtWorkIsHeld(w.db.credentials, w.execs, o);
    }
    ApartKeepsTrack(w.db.names, w.db.credentials, w.garage, exec, other, call, answer);
  }

  lemma CallAtHome(w: World, p: Uuid, stage: Stage)
    requires Inv(w.db) && RequestsOk(w.db, w.execs) && AliasesRecorded(w.db.buckets, w.garage) && Holds(w, p)
    requires StageFits(w.execs[p].cmd, w.execs[p].context, stage)
    requires StageTrue(w.garage, w.execs[p].cmd, w.execs[p].context, stage)
    ensures var call := CallOf(w.execs[p].cmd, w.execs[p].context, stage);
            && KeyAtHome(w.garage, w.db.credentials, w.execs[p], call)
            && BucketAtHome(w.db.names, w.garage, w.execs[p].cmd.ServiceId(), call)
  {
    assert Granted(w.db.receipts, w.db.issued, p, w.execs[p].cmd) && Informed(w.db, p, w.execs[p].cmd, w.execs[p].context);
    StandingName(w.db, w.execs[p].cmd, p);
    KeyCallsStayHome(w.db, w.garage, p, w.execs[p], stage);
    BucketCallsStayHome(w.db, w.garage, p, w.execs[p], stage);
  }

  lemma OwnNameHeld(w: World, o: Uuid)
    requires Inv(w.db) && RequestsOk(w.db, w.execs) && Holds(w, o)
    ensures w.execs[o].cmd.payload.Reconcile? ==>
              HoldsUsable(w.db.names, w.execs[o].cmd.payload.spec.bucketName, w.execs[o].cmd.ServiceId())
  {
    assert Granted(w.db.receipts, w.db.issued, o, w.execs[o].cmd);
    StandingName(w.db, w.execs[o].cmd, o);
  }

  lemma KeyAtWorkIsHeld(credentials: Credentials, execs: map<Uuid, Exec>, o: Uuid)
    requires HandsOk(credentials, execs) && o in execs && KeyAtWork(execs[o].pc).Some?
    ensures HoldsKey(execs, o, KeyAtWork(execs[o].pc).value)
    ensures Unrecorded(credentials, KeyAtWork(execs[o].pc).value)
  {
    assert HoldsKey(execs, o, KeyAtWork(execs[o].pc).value);
  }

  /** The key in one hand is not the one another hand is at work on. */
  lemma HandsApart(credentials: Credentials, execs: map<Uuid, Exec>, o: Uuid, p: Uuid, k: string)
    requires HandsOk(credentials, execs) && o in execs && p != o && HoldsKey(execs, p, k)
    ensures KeyAtWork(execs[o].pc) != Some(k)
  {
    if KeyAtWork(execs[o].pc).Some? {
      KeyAtWorkIsHeld(credentials, execs, o);
    }
  }

  lemma DiscardApart(credentials: Credentials, execs: map<Uuid, Exec>, loose: set<Loose>, o: Uuid, call: Loose, k: string)
    requires HandsOk(credentials, execs) && DiscardsOk(credentials, execs, loose) && o in execs
    requires call in loose && Discarded(call.stage) == Some(k)
    ensures KeyAtWork(execs[o].pc) != Some(k)
  {
    if KeyAtWork(execs[o].pc).Some? {
      KeyAtWorkIsHeld(credentials, execs, o);
    }
  }

  lemma ApartKeepsTrack(names: Names, credentials: Credentials, g: Garage, exec: Exec, other: Exec, call: Call,
                        answer: Answer)
    requires ProgramOk(g, exec) && Track(g, exec.cmd, exec.context, exec.pc) && Answers(g, call, answer)
    requires KeyAtHome(g, credentials, other, call) && BucketAtHome(names, g, other.cmd.ServiceId(), call)
    requires exec.cmd.ServiceId() != other.cmd.ServiceId()
    requires exec.cmd.payload.Reconcile? ==>
               HoldsUsable(names, exec.cmd.payload.spec.bucketName, exec.cmd.ServiceId())
    requires KeyAtWork(exec.pc).Some? ==> Unrecorded(credentials, KeyAtWork(exec.pc).value)
    ensures Track(After(g, call, answer), exec.cmd, exec.context, exec.pc)
  {
    if Suits(exec.cmd, exec.context) {
      if exec.cmd.payload.CreateCredential? {
        KeysApart(g, credentials, exec, other, call);
      } else if && exec.cmd.payload.Reconcile? && BucketAtWork(exec.pc).Some? && !exec.context.previouslyApplied
                && SoleAlias(g, BucketAtWork(exec.pc).value) {
        BucketsApart(names, g, exec, other.cmd.ServiceId(), call);
      }
      OthersKeepTrack(g, call, answer, exec.cmd, exec.context, exec.pc);
    }
  }

  /** Removing a key that the operation does not build up leaves it on track. */
  lemma DiscardKeepsTrack(g: Garage, k: string, answer: Answer, exec: Exec)
    requires ProgramOk(g, exec) && Track(g, exec.cmd, exec.context, exec.pc) && Answers(g, DeleteKey(k), answer)
    requires KeyAtWork(exec.pc) != Some(k)
    ensures Track(After(g, DeleteKey(k), answer), exec.cmd, exec.context, exec.pc)
  {
    if Suits(exec.cmd, exec.context) {
      OthersKeepTrack(g, DeleteKey(k), answer, exec.cmd, exec.context, exec.pc);
    }
  }

  // ---------------------------------------------------------------- program points without claims

  /** Points at which an operation claims nothing about Garage yet, or any more. */
  ghost predicate Unclaiming(context: Context, pc: Pc) {
    match pc
    case Calling(stage) => !(stage.Sweeping? || stage.KeyMaking? || stage.Denying? || stage.Allowing?)
    case Completing(product) =>
      (match product
       case KeyReady(_, _) => false
       case BucketReady(_) => context.ReconcileContext? && context.previouslyApplied
       case _ => true)
    case _ => true
  }

  lemma UnclaimingOnTrack(g: Garage, cmd: Command, context: Context, pc: Pc)
    requires Unclaiming(context, pc)
    ensures Track(g, cmd, context, pc)
  {
  }

  lemma StartUnclaiming(cmd: Command, context: Context)
    ensures Unclaiming(context, Start(cmd, context))
  {
  }

  lemma QuietMoveUnclaiming(w: World, e: Event)
    requires Possible(w, e) && Actor(e).Some? && !e.Reply? && ProgramOk(w.garage, w.execs[Actor(e).value])
    ensures Unclaiming(w.execs[Actor(e).value].context, PcAfter(w, e))
  {
  }

  // ---------------------------------------------------------------- every event

  lemma CleanReplyKeepsTrack(w: World, e: Event, o: Uuid)
    requires HandsOk(w.db.credentials, w.execs) && Possible(w, e) && o in w.execs
    requires e.Reply? && e.operationId != o && w.execs[e.operationId].pc.stage.Cleaning?
    requires ProgramOk(w.garage, w.execs[o]) && Track(w.garage, w.execs[o].cmd, w.execs[o].context, w.execs[o].pc)
    ensures Track(GarageAfter(w, e), w.execs[o].cmd, w.execs[o].context, w.execs[o].pc)
  {
    var k := w.execs[e.operationId].pc.stage.keyId;
    HandsApart(w.db.credentials, w.execs, o, e.operationId, k);
    DiscardKeepsTrack(w.garage, k, e.answer, w.execs[o]);
  }

  lemma CleanLateKeepsTrack(w: World, e: Event, o: Uuid)
    requires HandsOk(w.db.credentials, w.execs) && DiscardsOk(w.db.credentials, w.execs, w.loose)
    requires Possible(w, e) && o in w.execs && e.Late? && e.call.stage.Cleaning?
    requires ProgramOk(w.garage, w.execs[o]) && Track(w.garage, w.execs[o].cmd, w.execs[o].context, w.execs[o].pc)
    ensures Track(GarageAfter(w, e), w.execs[o].cmd, w.execs[o].context, w.execs[o].pc)
  {
    DiscardApart(w.db.credentials, w.execs, w.loose, o, e.call, e.call.stage.keyId);
    DiscardKeepsTrack(w.garage, e.call.stage.keyId, e.answer, w.execs[o]);
  }

  lemma ReplyKeepsTrack(w: World, e: Event, o: Uuid)
    requires WorldInv(w) && LeaseInv(w) && Possible(w, e) && Timely(w, e) && Holds(w, o) && e.Reply?
    requires e.operationId != o
    ensures Track(GarageAfter(w, e), w.execs[o].cmd, w.execs[o].context, w.execs[o].pc)
  {
    if w.execs[e.operationId].pc.stage.Cleaning? {
      assert ProgramOk(w.garage, w.execs[o]);
      CleanReplyKeepsTrack(w, e, o);
    } else {
      assert ProgramOk(w.garage, w.execs[e.operationId]);
      OtherCallKeepsTrack(w, o, e.operationId, w.execs[e.operationId].pc.stage, e.answer);
    }
  }

  /** An operation with a call on the loose claims nothing. */
  lemma LooseUnclaiming(g: Garage, h: Garage, execs: map<Uuid, Exec>, loose: set<Loose>, call: Loose)
    requires AllLooseOk(g, execs, loose) && call in loose
    ensures call.operationId in execs
    ensures var exec := execs[call.operationId];
            && StageFits(exec.cmd, exec.context, call.stage) && StageTrue(g, exec.cmd, exec.context, call.stage)
            && Track(h, exec.cmd, exec.context, exec.pc)
  {
    assert LooseOk(g, execs, call);
  }

  lemma LateKeepsTrack(w: World, e: Event, o: Uuid)
    requires WorldInv(w) && LeaseInv(w) && Possible(w, e) && Timely(w, e) && Holds(w, o) && e.Late?
    ensures Track(GarageAfter(w, e), w.execs[o].cmd, w.execs[o].context, w.execs[o].pc)
  {
    if e.call.stage.Cleaning? {
      assert ProgramOk(w.garage, w.execs[o]);
      CleanLateKeepsTrack(w, e, o);
    } else {
      LooseUnclaiming(w.garage, GarageAfter(w, e), w.execs, w.loose, e.call);
      if e.call.operationId != o {
        OtherCallKeepsTrack(w, o, e.call.operationId, e.call.stage, e.answer);
      }
    }
  }

  /** Whatever timely event happens, a current operation stays on track at its next point. */
  lemma ActorKeepsTrack(w: World, e: Event)
    requires WorldInv(w) && LeaseInv(w) && Possible(w, e) && Actor(e).Some? && Holds(w, Actor(e).value)
    ensures Track(GarageAfter(w, e), w.execs[Actor(e).value].cmd, w.execs[Actor(e).value].context, PcAfter(w, e))
  {
    var exec := w.execs[Actor(e).value];
    assert ProgramOk(w.garage, exec);
    if e.Reply? {
      AnsweredOnTrack(w.garage, exec.cmd, exec.context, exec.pc.stage, e.answer);
    } else {
      QuietMoveUnclaiming(w, e);
      UnclaimingOnTrack(GarageAfter(w, e), exec.cmd, exec.context, PcAfter(w, e));
    }
  }

  lemma BystanderKeepsTrack(w: World, e: Event, o: Uuid)
    requires WorldInv(w) && LeaseInv(w) && Possible(w, e) && Timely(w, e) && Holds(w, o) && Actor(e) != Some(o)
    ensures Track(GarageAfter(w, e), w.execs[o].cmd, w.execs[o].context, w.execs[o].pc)
  {
    if e.Reply? {
      ReplyKeepsTrack(w, e, o);
    } else if e.Late? {
      LateKeepsTrack(w, e, o);
    }
  }

  // ---------------------------------------------------------------- the invariant is kept

  lemma BegunOnTrack(before: Receipts, after: Receipts, g: Garage, execs: map<Uuid, Exec>, o: Uuid, cmd: Command,
                     context: Context)
    requires AllOnTrack(before, g, execs) && o !in execs
    requires forall p | p in execs && Current(after, execs[p].cmd.operation.key, p) ::
               Current(before, execs[p].cmd.operation.key, p)
    ensures AllOnTrack(after, g, execs[o := Exec(cmd, context, Start(cmd, context))])
  {
    StartUnclaiming(cmd, context);
    UnclaimingOnTrack(g, cmd, context, Start(cmd, context));
  }

  lemma CurrentWas(before: Db, after: Db, execs: map<Uuid, Exec>)
    requires Evolves(before, after) && RequestsOk(before, execs)
    ensures forall p | p in execs && Current(after.receipts, execs[p].cmd.operation.key, p) ::
              Current(before.receipts, execs[p].cmd.operation.key, p)
  {
    forall p | p in execs && Current(after.receipts, execs[p].cmd.operation.key, p)
      ensures Current(before.receipts, execs[p].cmd.operation.key, p)
    {
      GrantSurvives(before, after, p, execs[p].cmd);
    }
  }

  /** Every current operation but one is on track. */
  ghost predicate OthersOnTrack(receipts: Receipts, g: Garage, execs: map<Uuid, Exec>, actor: Option<Uuid>) {
    forall o | o in execs && Current(receipts, execs[o].cmd.operation.key, o) && actor != Some(o) ::
      Track(g, execs[o].cmd, execs[o].context, execs[o].pc)
  }

  lemma BystandersOnTrack(w: World, e: Event)
    requires WorldInv(w) && LeaseInv(w) && Possible(w, e) && Timely(w, e)
    ensures OthersOnTrack(w.db.receipts, GarageAfter(w, e), w.execs, Actor(e))
  {
    forall o | o in w.execs && Current(w.db.receipts, w.execs[o].cmd.operation.key, o) && Actor(e) != Some(o)
      ensures Track(GarageAfter(w, e), w.execs[o].cmd, w.execs[o].context, w.execs[o].pc)
    {
      BystanderKeepsTrack(w, e, o);
    }
  }

  lemma JoinOnTrack(before: Receipts, after: Receipts, h: Garage, execs: map<Uuid, Exec>, o: Uuid, pc: Pc)
    requires OthersOnTrack(before, h, execs, Some(o)) && o in execs
    requires Current(before, execs[o].cmd.operation.key, o) ==> Track(h, execs[o].cmd, execs[o].context, pc)
    requires forall p | p in execs && Current(after, execs[p].cmd.operation.key, p) ::
               Current(before, execs[p].cmd.operation.key, p)
    ensures AllOnTrack(after, h, Moved(execs, o, pc))
  {
    var moved := Moved(execs, o, pc);
    forall p | p in moved && Current(after, moved[p].cmd.operation.key, p)
      ensures Track(h, moved[p].cmd, moved[p].context, moved[p].pc)
    {
      assert Current(after, execs[p].cmd.operation.key, p);
    }
  }

  lemma ActorOnTrack(w: World, e: Event, after: Db)
    requires WorldInv(w) && LeaseInv(w) && Possible(w, e) && Timely(w, e) && Evolves(w.db, after) && Actor(e).Some?
    ensures Actor(e).value in w.execs
    ensures AllOnTrack(after.receipts, GarageAfter(w, e), Moved(w.execs, Actor(e).value, PcAfter(w, e)))
  {
    CurrentWas(w.db, after, w.execs);
    BystandersOnTrack(w, e);
    if Holds(w, Actor(e).value) {
      ActorKeepsTrack(w, e);
    }
    JoinOnTrack(w.db.receipts, after.receipts, GarageAfter(w, e), w.execs, Actor(e).value, PcAfter(w, e));
  }

  lemma MovedOnTrack(w: World, e: Event, after: Db)
    requires WorldInv(w) && LeaseInv(w) && Possible(w, e) && Timely(w, e) && Evolves(w.db, after) && !Begins(w, e)
    ensures AllOnTrack(after.receipts, GarageAfter(w, e), ExecsAfter(w, e))
  {
    ExecsUnlessBegun(w, e);
    if Actor(e).Some? {
      ActorOnTrack(w, e, after);
    } else {
      CurrentWas(w.db, after, w.execs);
      BystandersOnTrack(w, e);
    }
  }

  lemma TrackKept(w: World, e: Event, after: Db)
    requires WorldInv(w) && LeaseInv(w) && Possible(w, e) && Timely(w, e) && Evolves(w.db, after)
    ensures AllOnTrack(after.receipts, GarageAfter(w, e), ExecsAfter(w, e))
  {
    if Begins(w, e) {
      ExecsBegun(w, e);
      CurrentWas(w.db, after, w.execs);
      assert e.ids.operationId !in w.execs;
      var context := PrepareStep(w.db, e.cmd, e.ids).reply.value.context;
      BegunOnTrack(w.db.receipts, after.receipts, w.garage, w.execs, e.ids.operationId, e.cmd, context);
    } else {
      MovedOnTrack(w, e, after);
    }
  }
}
