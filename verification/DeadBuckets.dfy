/** A bucket that is dead when a run starts is never taken up, by any executor or any row. */
module DeadBuckets {
  import opened Types
  import opened StoreSpec
  import opened Invariant
  import opened Completions
  import opened Transactions
  import opened Contexts
  import opened StoreRuns
  import opened GarageModel
  import opened Handlers
  import opened WorldInvariant
  import opened WorldSteps
  import opened WorldRuns
  import opened LeaseRuns

  ghost predicate PcAvoids(pc: Pc, b: string) {
    pc != Calling(Setting(b)) && pc != Completing(BucketReady(b))
  }

  ghost predicate ExecAvoids(exec: Exec, b: string) {
    && PcAvoids(exec.pc, b)
    && (exec.context.ReconcileContext? ==> exec.context.bucket.physicalBucketId != Some(b))
  }

  ghost predicate ExecsAvoid(execs: map<Uuid, Exec>, b: string) {
    forall o | o in execs :: ExecAvoids(execs[o], b)
  }

  ghost predicate RowsAvoid(buckets: Buckets, b: string) {
    forall s | s in buckets :: buckets[s].physicalBucketId != Some(b)
  }

  ghost predicate Avoided(w: World, b: string) {
    BucketDead(w.garage, b) && RowsAvoid(w.db.buckets, b) && ExecsAvoid(w.execs, b)
  }

  // ---------------------------------------------------------------- executors

  lemma AnswerAvoids(g: Garage, exec: Exec, answer: Answer, b: string)
    requires exec.pc.Calling? && StageFits(exec.cmd, exec.context, exec.pc.stage) && ExecAvoids(exec, b)
    requires BucketDead(g, b) && Answers(g, CallOf(exec.cmd, exec.context, exec.pc.stage), answer)
    ensures PcAvoids(Next(exec.cmd, exec.context, exec.pc.stage, answer), b)
  {
  }

  lemma MoveAvoids(w: World, e: Event, b: string)
    requires Possible(w, e) && Actor(e).Some? && ProgramOk(w.garage, w.execs[Actor(e).value])
    requires BucketDead(w.garage, b) && ExecAvoids(w.execs[Actor(e).value], b)
    ensures PcAvoids(PcAfter(w, e), b)
  {
    if e.Reply? {
      AnswerAvoids(w.garage, w.execs[e.operationId], e.answer, b);
    }
  }

  lemma StartAvoids(cmd: Command, context: Context, b: string)
    requires context.ReconcileContext? ==> context.bucket.physicalBucketId != Some(b)
    ensures ExecAvoids(Exec(cmd, context, Start(cmd, context)), b)
  {
  }

  lemma DescribedAvoids(db: Db, row: ReceiptRow, context: Context, b: string)
    requires Describes(db, row, context) && RowsAvoid(db.buckets, b)
    ensures context.ReconcileContext? ==> context.bucket.physicalBucketId != Some(b)
  {
  }

  lemma NewExecAvoids(w: World, e: Event, b: string)
    requires Inv(w.db) && Possible(w, e) && Begins(w, e) && RowsAvoid(w.db.buckets, b)
    ensures ExecAvoids(NewExec(w, e), b)
  {
    var step := PrepareStep(w.db, e.cmd, e.ids);
    GrantedContextIsTrue(w.db, Preparing(e.cmd, e.ids), e.cmd.operation.key);
    PrepareLeavesRows(w.db, e.cmd, e.ids);
    DescribedAvoids(step.db, step.db.receipts[e.cmd.operation.key], step.reply.value.context, b);
    StartAvoids(e.cmd, step.reply.value.context, b);
  }

  lemma ExecsGoOnAvoiding(w: World, e: Event, b: string)
    requires Inv(w.db) && ProgramsOk(w.garage, w.execs) && Possible(w, e) && Avoided(w, b)
    ensures ExecsAvoid(ExecsAfter(w, e), b)
  {
    if Begins(w, e) {
      ExecsBegun(w, e);
      NewExecAvoids(w, e, b);
    } else {
      ExecsUnlessBegun(w, e);
      if Actor(e).Some? {
        assert ProgramOk(w.garage, w.execs[Actor(e).value]);
        MoveAvoids(w, e, b);
      }
    }
  }

  // ---------------------------------------------------------------- rows

  lemma CompletionAvoids(db: Db, o: Uuid, exec: Exec, requestId: string, b: string)
    requires exec.pc.Completing? && PcFits(exec.cmd, exec.context, exec.pc) && WellFormed(exec.cmd)
    requires RowsAvoid(db.buckets, b) && PcAvoids(exec.pc, b)
    ensures var tx := CompletionOf(o, exec.cmd, exec.context, exec.pc.product, requestId);
            Admissible(db, tx) && RowsAvoid(Apply(db, tx).buckets, b)
  {
    if exec.pc.product.BucketReady? {
      var tx := CompletionOf(o, exec.cmd, exec.context, exec.pc.product, requestId);
      ReconcileAvoids(db, exec.cmd, o, exec.pc.product.bucketId, tx.response, tx.audit, b);
    } else {
      OtherCompletionsLeaveBuckets(db, o, exec, requestId);
    }
  }

  lemma ReconcileAvoids(db: Db, cmd: Command, o: Uuid, p: string, response: StoredHttpResponse, audit: AuditEvent,
                        b: string)
    requires cmd.payload.Reconcile? && RowsAvoid(db.buckets, b) && p != b
    ensures RowsAvoid(CompleteReconcileStep(db, cmd, o, p, response, audit).db.buckets, b)
  {
    ReconcileOutcome(db, cmd, o, p, response, audit);
  }

  lemma RowsGoOnAvoiding(w: World, e: Event, b: string)
    requires Possible(w, e) && Avoided(w, b)
    ensures Admissible(w.db, TxOf(w, e)) && RowsAvoid(Apply(w.db, TxOf(w, e)).buckets, b)
  {
    if e.Commit? {
      CompletionAvoids(w.db, e.operationId, w.execs[e.operationId], e.requestId, b);
    } else {
      QuietEvent(w, e);
    }
  }

  // ---------------------------------------------------------------- every run

  lemma EventAvoids(w: World, e: Event, b: string)
    requires WorldInv(w) && Possible(w, e) && Avoided(w, b)
    ensures Avoided(Move(w, e), b)
  {
    GarageAges(w, e);
    ExecsGoOnAvoiding(w, e, b);
    RowsGoOnAvoiding(w, e, b);
  }

  /** No executor ever brings such a bucket to its completion. */
  lemma {:induction false} DeadBucketIsAvoided(ws: seq<World>, es: seq<Event>, n: nat, b: string)
    requires WorldRun(ws, es) && n <= |es| && BucketDead(ws[0].garage, b)
    ensures Avoided(ws[n], b)
  {
    if n > 0 {
      DeadBucketIsAvoided(ws, es, n - 1, b);
      WorldRunKeepsInv(ws, es, n - 1);
      EventAvoids(ws[n - 1], es[n - 1], b);
    }
  }
}
