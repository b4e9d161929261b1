/** What every executor may rely on at every point of its program, however long it has been paused. */
module Executors {
  import opened Types
  import opened GarageModel
  import opened Handlers

  // ---------------------------------------------------------------- facts about Garage that only grow

  ghost predicate BucketKnown(g: Garage, id: Option<string>) {
    id.Some? ==> id.value in g.buckets
  }

  ghost predicate ContextKnown(g: Garage, context: Context) {
    match context
    case ReconcileContext(bucket, _) => BucketKnown(g, bucket.physicalBucketId)
    case DeleteContext(bucket, keys) =>
      BucketKnown(g, bucket.physicalBucketId) && forall k | k in keys :: k in g.keys
    case CreateCredentialContext(bucket, _) => BucketKnown(g, bucket.physicalBucketId)
    case RevokeCredentialContext(key, _) => key in g.keys
  }

  /** The key exists, or existed, under the name of this operation's credential. */
  ghost predicate OwnKey(g: Garage, cmd: Command, context: Context, k: string)
    requires context.CreateCredentialContext?
  {
    k in g.keys && g.keys[k].name == KeyNameOf(cmd, context)
  }

  /** A bucket this reconcile may complete with: the recorded one if there is one, and found under the right alias. */
  ghost predicate OwnBucket(g: Garage, cmd: Command, context: Context, b: string)
    requires cmd.payload.Reconcile? && context.ReconcileContext?
  {
    && b in g.buckets
    && (context.bucket.physicalBucketId.Some? ==> b == context.bucket.physicalBucketId.value)
    && (!context.previouslyApplied ==> cmd.payload.spec.bucketName in g.buckets[b].aliases)
  }

  ghost predicate DeadUpTo(g: Garage, keys: seq<string>, n: nat) {
    forall j | 0 <= j < n && j < |keys| :: KeyDead(g, keys[j])
  }

  ghost predicate StageTrue(g: Garage, cmd: Command, context: Context, stage: Stage)
    requires StageFits(cmd, context, stage)
  {
    match stage
    case Setting(b) => OwnBucket(g, cmd, context, b)
    case Revoking(i) => DeadUpTo(g, context.garageKeyIds, i)
    case Removing => DeadUpTo(g, context.garageKeyIds, |context.garageKeyIds|)
    case Sweeping(ids) => forall id | id in ids :: OwnKey(g, cmd, context, id)
    case Denying(k, _) => OwnKey(g, cmd, context, k)
    case Allowing(k, _) => OwnKey(g, cmd, context, k)
    case Undoing(k) => OwnKey(g, cmd, context, k)
    case Cleaning(k) => OwnKey(g, cmd, context, k)
    case _ => true
  }

  ghost predicate PcTrue(g: Garage, cmd: Command, context: Context, pc: Pc)
    requires PcFits(cmd, context, pc)
  {
    match pc
    case Extending(next) => PcTrue(g, cmd, context, next)
    case Calling(stage) => StageTrue(g, cmd, context, stage)
    case Completing(product) =>
      (match product
       case BucketReady(b) => OwnBucket(g, cmd, context, b)
       case ServiceGone =>
         && DeadUpTo(g, context.garageKeyIds, |context.garageKeyIds|)
         && BucketDead(g, context.bucket.physicalBucketId.value)
       case KeyReady(k, _) => OwnKey(g, cmd, context, k)
       case KeyGone => context.alreadyRevoked || KeyDead(g, context.garageKeyId))
    case _ => true
  }

  lemma ContextStaysKnown(g: Garage, h: Garage, context: Context)
    requires Ages(g, h) && ContextKnown(g, context)
    ensures ContextKnown(h, context)
  {
  }

  lemma StageStaysTrue(g: Garage, h: Garage, cmd: Command, context: Context, stage: Stage)
    requires Ages(g, h) && StageFits(cmd, context, stage) && StageTrue(g, cmd, context, stage)
    ensures StageTrue(h, cmd, context, stage)
  {
  }

  lemma {:induction false} PcStaysTrue(g: Garage, h: Garage, cmd: Command, context: Context, pc: Pc)
    requires Ages(g, h) && PcFits(cmd, context, pc) && PcTrue(g, cmd, context, pc)
    ensures PcTrue(h, cmd, context, pc)
  {
    match pc {
      case Extending(next) => PcStaysTrue(g, h, cmd, context, next);
      case Calling(stage) => StageStaysTrue(g, h, cmd, context, stage);
      case _ =>
    }
  }

  // ---------------------------------------------------------------- the program's own steps

  lemma ReconcileAnswered(g: Garage, cmd: Command, context: Context, stage: Stage, answer: Answer)
    requires StageFits(cmd, context, stage) && StageTrue(g, cmd, context, stage) && ContextKnown(g, context)
    requires cmd.payload.Reconcile? && Answers(g, CallOf(cmd, context, stage), answer)
    ensures PcFits(cmd, context, Next(cmd, context, stage, answer))
    ensures PcTrue(After(g, CallOf(cmd, context, stage), answer), cmd, context, Next(cmd, context, stage, answer))
  {
  }

  lemma DeleteAnswered(g: Garage, cmd: Command, context: Context, stage: Stage, answer: Answer)
    requires StageFits(cmd, context, stage) && StageTrue(g, cmd, context, stage) && ContextKnown(g, context)
    requires cmd.payload.Delete? && Answers(g, CallOf(cmd, context, stage), answer)
    ensures PcFits(cmd, context, Next(cmd, context, stage, answer))
    ensures PcTrue(After(g, CallOf(cmd, context, stage), answer), cmd, context, Next(cmd, context, stage, answer))
  {
    var h := After(g, CallOf(cmd, context, stage), answer);
    CallsAge(g, CallOf(cmd, context, stage), answer);
    match stage {
      case Revoking(i) =>
        DeletedKeyIsDead(g, context.garageKeyIds[i], answer);
        assert DeadUpTo(h, context.garageKeyIds, i + 1);
        assert PcTrue(h, cmd, context, RevokingFrom(context, i + 1).next);
      case Removing => DeletedBucketIsDead(g, context.bucket.physicalBucketId.value, answer);
      case Measuring => assert PcTrue(h, cmd, context, RevokingFrom(context, 0).next);
    }
  }

  lemma CreateAnswered(g: Garage, cmd: Command, context: Context, stage: Stage, answer: Answer)
    requires StageFits(cmd, context, stage) && StageTrue(g, cmd, context, stage)
    requires cmd.payload.CreateCredential? && Answers(g, CallOf(cmd, context, stage), answer)
    ensures PcFits(cmd, context, Next(cmd, context, stage, answer))
    ensures PcTrue(After(g, CallOf(cmd, context, stage), answer), cmd, context, Next(cmd, context, stage, answer))
  {
    var h := After(g, CallOf(cmd, context, stage), answer);
    CallsAge(g, CallOf(cmd, context, stage), answer);
    if stage.Sweeping? {
      forall id | id in stage.keyIds[1..] ensures OwnKey(h, cmd, context, id) {
        assert id in stage.keyIds;
      }
    } else if stage.Listing? {
      forall id | id in answer.keyIds ensures OwnKey(h, cmd, context, id) {
        assert Named(g, id, KeyNameOf(cmd, context));
      }
    }
  }

  lemma RevokeAnswered(g: Garage, cmd: Command, context: Context, stage: Stage, answer: Answer)
    requires StageFits(cmd, context, stage) && ContextKnown(g, context)
    requires cmd.payload.RevokeCredential? && Answers(g, CallOf(cmd, context, stage), answer)
    ensures PcFits(cmd, context, Next(cmd, context, stage, answer))
    ensures PcTrue(After(g, CallOf(cmd, context, stage), answer), cmd, context, Next(cmd, context, stage, answer))
  {
    DeletedKeyIsDead(g, context.garageKeyId, answer);
  }

  /** Whatever Garage truthfully answers, the handler's next claim about it is true. */
  lemma AnsweredIsTrue(g: Garage, cmd: Command, context: Context, stage: Stage, answer: Answer)
    requires StageFits(cmd, context, stage) && PcTrue(g, cmd, context, Calling(stage)) && ContextKnown(g, context)
    requires Answers(g, CallOf(cmd, context, stage), answer)
    ensures PcFits(cmd, context, Next(cmd, context, stage, answer))
    ensures PcTrue(After(g, CallOf(cmd, context, stage), answer), cmd, context, Next(cmd, context, stage, answer))
  {
    match cmd.payload {
      case Reconcile(_, _, _) => ReconcileAnswered(g, cmd, context, stage, answer);
      case Delete(_, _) => DeleteAnswered(g, cmd, context, stage, answer);
      case CreateCredential(_, _, _) => CreateAnswered(g, cmd, context, stage, answer);
      case RevokeCredential(_) => RevokeAnswered(g, cmd, context, stage, answer);
    }
  }

  lemma ErrorIsTrue(g: Garage, cmd: Command, context: Context, stage: Stage)
    requires StageFits(cmd, context, stage) && StageTrue(g, cmd, context, stage)
    ensures PcFits(cmd, context, OnError(stage)) && PcTrue(g, cmd, context, OnError(stage))
  {
  }

  lemma StartIsTrue(g: Garage, cmd: Command, context: Context)
    requires ContextKnown(g, context)
    ensures PcFits(cmd, context, Start(cmd, context)) && PcTrue(g, cmd, context, Start(cmd, context))
  {
    if Suits(cmd, context) {
      match cmd.payload {
        case Reconcile(_, _, _) =>
          if !context.previouslyApplied {
            assert PcTrue(g, cmd, context, Calling(Lookup));
          }
        case Delete(_, _) => assert PcTrue(g, cmd, context, Calling(Measuring));
        case CreateCredential(_, _, _) => assert PcTrue(g, cmd, context, Calling(Listing));
        case RevokeCredential(_) =>
          assert PcTrue(g, cmd, context, if context.alreadyRevoked then Completing(KeyGone) else Calling(Withdrawing));
      }
    }
  }
}
