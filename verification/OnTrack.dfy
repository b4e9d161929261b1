/** How far a current operation has brought Garage, provided no call of a lapsed operation takes effect. */
module OnTrack {
  import opened Types
  import opened Domain
  import opened GarageModel
  import opened Adapter
  import opened Handlers

  /** Exactly one live key goes by the name. */
  ghost predicate OnlyKey(g: Garage, name: KeyName, k: string) {
    Named(g, k, name) && forall id | Named(g, id, name) :: id == k
  }

  /** The one live key of the name, with exactly these rights on the bucket and none elsewhere. */
  ghost predicate OnlyKeyWith(g: Garage, name: KeyName, k: string, bucketId: string, rights: Rights) {
    OnlyKey(g, name, k) && RightsExactly(g.keys[k].rights, bucketId, rights)
  }

  /** The bucket has this alias, and a reconcile can ask for it. */
  ghost predicate Goes(g: Garage, b: string, alias: string) {
    b in g.buckets && alias in g.buckets[b].aliases && ValidateBucketName(alias).None?
  }

  /** The bucket goes by at most one alias that a reconcile can ask for. */
  ghost predicate SoleAlias(g: Garage, b: string) {
    forall x, y | Goes(g, b, x) && Goes(g, b, y) :: x == y
  }

  ghost predicate KeyOnTrack(g: Garage, cmd: Command, context: Context, pc: Pc)
    requires cmd.payload.CreateCredential? && context.CreateCredentialContext?
    requires context.bucket.physicalBucketId.Some?
  {
    var name, p := KeyNameOf(cmd, context), context.bucket.physicalBucketId.value;
    match pc
    case Calling(stage) =>
      (match stage
       case Sweeping(ids) => forall id | Named(g, id, name) :: id in ids
       case KeyMaking => forall id :: !Named(g, id, name)
       case Denying(k, _) => OnlyKeyWith(g, name, k, p, NO_RIGHTS)
       case Allowing(k, _) => OnlyKeyWith(g, name, k, p, NO_RIGHTS)
       case _ => true)
    case Completing(product) =>
      product.KeyReady? ==> OnlyKeyWith(g, name, product.keyId, p, RightsFor(cmd.payload.permissions))
    case _ => true
  }

  ghost predicate BucketOnTrack(g: Garage, cmd: Command, context: Context, pc: Pc)
    requires cmd.payload.Reconcile? && context.ReconcileContext?
  {
    match pc
    case Completing(product) =>
      product.BucketReady? && !context.previouslyApplied && SoleAlias(g, product.bucketId) ==>
        && BucketLive(g, product.bucketId)
        && g.buckets[product.bucketId].quotas == Some(Quotas(cmd.payload.spec.quotaBytes, cmd.payload.spec.quotaObjects))
    case _ => true
  }

  ghost predicate Track(g: Garage, cmd: Command, context: Context, pc: Pc) {
    Suits(cmd, context) ==>
      && (cmd.payload.CreateCredential? ==> KeyOnTrack(g, cmd, context, pc))
      && (cmd.payload.Reconcile? ==> BucketOnTrack(g, cmd, context, pc))
  }

  // ---------------------------------------------------------------- the operation's own calls

  lemma FreshKeyIsAlone(g: Garage, name: KeyName, bucketId: string, answer: Answer)
    requires Answers(g, CreateKey(name), answer) && forall id :: !Named(g, id, name)
    ensures OnlyKeyWith(After(g, CreateKey(name), answer), name, answer.keyId, bucketId, NO_RIGHTS)
  {
    var h := After(g, CreateKey(name), answer);
    forall id | Named(h, id, name) ensures id == answer.keyId {
      assert id != answer.keyId ==> Named(g, id, name);
    }
  }

  lemma RightsChange(g: Garage, name: KeyName, k: string, bucketId: string, rights: Rights, changed: Rights)
    requires OnlyKeyWith(g, name, k, bucketId, rights)
    ensures OnlyKeyWith(SetRights(g, k, bucketId, changed), name, k, bucketId, changed)
  {
    var h := SetRights(g, k, bucketId, changed);
    forall id | Named(h, id, name) ensures id == k {
      assert Named(g, id, name);
    }
    forall b ensures RightsOn(h.keys[k].rights, b) == if b == bucketId then changed else NO_RIGHTS {
      assert RightsOn(g.keys[k].rights, b) == if b == bucketId then rights else NO_RIGHTS;
    }
  }

  lemma SweptKeyIsGone(g: Garage, name: KeyName, ids: seq<string>, answer: Answer)
    requires ids != [] && Answers(g, DeleteKey(ids[0]), answer) && forall id | Named(g, id, name) :: id in ids
    ensures forall id | Named(After(g, DeleteKey(ids[0]), answer), id, name) :: id in ids[1..]
  {
    forall id | Named(After(g, DeleteKey(ids[0]), answer), id, name) ensures id in ids[1..] {
      assert Named(g, id, name) && id != ids[0];
      assert ids == [ids[0]] + ids[1..];
    }
  }

  lemma ListedIsAll(g: Garage, name: KeyName, answer: Answer)
    requires Answers(g, ListKeys(name), answer)
    ensures forall id | Named(g, id, name) :: id in answer.keyIds
  {
  }

  lemma SweepTrack(g: Garage, cmd: Command, context: Context, ids: seq<string>)
    requires cmd.payload.CreateCredential? && Suits(cmd, context)
    requires forall id | Named(g, id, KeyNameOf(cmd, context)) :: id in ids
    ensures KeyOnTrack(g, cmd, context, SweepingFrom(ids))
  {
  }

  lemma KeyAnswered(g: Garage, cmd: Command, context: Context, stage: Stage, answer: Answer)
    requires cmd.payload.CreateCredential? && StageFits(cmd, context, stage)
    requires KeyOnTrack(g, cmd, context, Calling(stage)) && Answers(g, CallOf(cmd, context, stage), answer)
    ensures KeyOnTrack(After(g, CallOf(cmd, context, stage), answer), cmd, context, Next(cmd, context, stage, answer))
  {
    var name, p := KeyNameOf(cmd, context), context.bucket.physicalBucketId.value;
    match stage {
      case Listing =>
        ListedIsAll(g, name, answer);
        SweepTrack(g, cmd, context, answer.keyIds);
      case Sweeping(ids) =>
        SweptKeyIsGone(g, name, ids, answer);
        SweepTrack(After(g, DeleteKey(ids[0]), answer), cmd, context, ids[1..]);
      case KeyMaking => FreshKeyIsAlone(g, name, p, answer);
      case Denying(k, _) => RightsChange(g, name, k, p, NO_RIGHTS, NO_RIGHTS);
      case Allowing(k, _) => RightsChange(g, name, k, p, NO_RIGHTS, RightsFor(cmd.payload.permissions));
      case _ =>
    }
  }

  /** A current operation's own call keeps it on track. */
  lemma AnsweredOnTrack(g: Garage, cmd: Command, context: Context, stage: Stage, answer: Answer)
    requires StageFits(cmd, context, stage) && Track(g, cmd, context, Calling(stage))
    requires Answers(g, CallOf(cmd, context, stage), answer)
    ensures Track(After(g, CallOf(cmd, context, stage), answer), cmd, context, Next(cmd, context, stage, answer))
  {
    if cmd.payload.CreateCredential? {
      KeyAnswered(g, cmd, context, stage, answer);
    }
  }

  // ---------------------------------------------------------------- calls of others

  ghost function KeyTarget(call: Call): Option<string> {
    match call
    case DeleteKey(k) => Some(k)
    case DenyBucketKey(_, k, _) => Some(k)
    case AllowBucketKey(_, k, _) => Some(k)
    case _ => None
  }

  ghost function BucketTarget(call: Call): Option<string> {
    match call
    case UpdateQuotas(b, _) => Some(b)
    case DeleteBucket(b) => Some(b)
    case _ => None
  }

  /** The key whose rights an execution is building up. */
  ghost function KeyAtWork(pc: Pc): Option<string> {
    match pc
    case Calling(stage) =>
      if stage.Denying? then Some(stage.keyId) else if stage.Allowing? then Some(stage.keyId) else None
    case Completing(product) => if product.KeyReady? then Some(product.keyId) else None
    case _ => None
  }

  ghost function BucketAtWork(pc: Pc): Option<string> {
    if pc.Completing? && pc.product.BucketReady? then Some(pc.product.bucketId) else None
  }

  lemma OthersSpareKey(g: Garage, call: Call, answer: Answer, cmd: Command, context: Context, pc: Pc)
    requires cmd.payload.CreateCredential? && Suits(cmd, context) && KeyOnTrack(g, cmd, context, pc)
    requires Answers(g, call, answer) && call != CreateKey(KeyNameOf(cmd, context))
    requires KeyAtWork(pc).Some? ==> KeyTarget(call) != KeyAtWork(pc)
    ensures KeyOnTrack(After(g, call, answer), cmd, context, pc)
  {
    var h := After(g, call, answer);
    forall id | Named(h, id, KeyNameOf(cmd, context)) ensures Named(g, id, KeyNameOf(cmd, context)) {
    }
    if KeyAtWork(pc).Some? {
      assert h.keys[KeyAtWork(pc).value] == g.keys[KeyAtWork(pc).value];
    }
  }

  lemma OthersSpareBucket(g: Garage, call: Call, answer: Answer, cmd: Command, context: Context, pc: Pc)
    requires cmd.payload.Reconcile? && context.ReconcileContext? && BucketOnTrack(g, cmd, context, pc)
    requires Answers(g, call, answer)
    requires BucketAtWork(pc).Some? ==> BucketAtWork(pc).value in g.buckets
    requires BucketAtWork(pc).Some? && !context.previouslyApplied && SoleAlias(g, BucketAtWork(pc).value) ==>
               BucketTarget(call) != BucketAtWork(pc)
    ensures BucketOnTrack(After(g, call, answer), cmd, context, pc)
  {
    CallsAge(g, call, answer);
    forall b, x | Goes(g, b, x) ensures Goes(After(g, call, answer), b, x) {
    }
  }

  /** A call that leaves an operation's key and bucket alone leaves it on track. */
  lemma OthersKeepTrack(g: Garage, call: Call, answer: Answer, cmd: Command, context: Context, pc: Pc)
    requires Track(g, cmd, context, pc) && Suits(cmd, context) && Answers(g, call, answer)
    requires cmd.payload.CreateCredential? ==> call != CreateKey(KeyNameOf(cmd, context))
    requires cmd.payload.CreateCredential? && KeyAtWork(pc).Some? ==> KeyTarget(call) != KeyAtWork(pc)
    requires cmd.payload.Reconcile? && BucketAtWork(pc).Some? ==> BucketAtWork(pc).value in g.buckets
    requires (&& cmd.payload.Reconcile? && BucketAtWork(pc).Some? && !context.previouslyApplied
              && SoleAlias(g, BucketAtWork(pc).value)) ==> BucketTarget(call) != BucketAtWork(pc)
    ensures Track(After(g, call, answer), cmd, context, pc)
  {
    if cmd.payload.CreateCredential? {
      OthersSpareKey(g, call, answer, cmd, context, pc);
    } else if cmd.payload.Reconcile? {
      OthersSpareBucket(g, call, answer, cmd, context, pc);
    }
  }
}
