/** Building runs of the world one event at a time. */
module Events {
  import opened Types
  import opened StoreSpec
  import opened Invariant
  import opened Transactions
  import opened GarageModel
  import opened Handlers
  import opened WorldInvariant
  import opened WorldSteps
  import opened WorldRuns
  import opened LeaseTheorem
  import opened LeaseRuns

  /** The events, one after the other and all of them timely, lead from an initial world to this one. */
  ghost predicate Leads(start: World, es: seq<Event>, w: World) {
    exists ws :: TimelyRun(ws, es) && ws[0] == start && ws[|es|] == w
  }

  lemma NothingYet(start: World)
    requires InitialWorld(start)
    ensures Leads(start, [], start)
  {
    var es: seq<Event> := [];
    var ws := [start];
    assert WorldRun(ws, es) && TimelyRun(ws, es);
  }

  lemma RunOf(start: World, es: seq<Event>, w: World) returns (ws: seq<World>)
    requires Leads(start, es, w)
    ensures TimelyRun(ws, es) && ws[0] == start && ws[|es|] == w
  {
    ws :| TimelyRun(ws, es) && ws[0] == start && ws[|es|] == w;
  }

  lemma LeadsInv(start: World, es: seq<Event>, w: World)
    requires Leads(start, es, w)
    ensures WorldInv(w)
  {
    var ws :| TimelyRun(ws, es) && ws[0] == start && ws[|es|] == w;
    WorldRunKeepsInv(ws, es, |es|);
  }

  lemma LeadsTablesInv(start: World, es: seq<Event>, w: World)
    requires Leads(start, es, w)
    ensures Inv(w.db)
  {
    LeadsInv(start, es, w);
  }

  lemma StepOf(ws: seq<World>, es: seq<Event>, i: nat)
    requires WorldRun(ws, es) && i < |es|
    ensures Possible(ws[i], es[i]) && ws[i + 1] == Move(ws[i], es[i])
  {
  }

  lemma RunExtended(ws: seq<World>, es: seq<Event>, e: Event)
    requires WorldRun(ws, es) && Possible(ws[|es|], e)
    ensures WorldRun(ws + [Move(ws[|es|], e)], es + [e])
  {
    var ws', es' := ws + [Move(ws[|es|], e)], es + [e];
    forall i | 0 <= i < |es'| ensures Possible(ws'[i], es'[i]) && ws'[i + 1] == Move(ws'[i], es'[i]) {
      if i < |es| {
        assert es'[i] == es[i] && ws'[i] == ws[i] && ws'[i + 1] == ws[i + 1];
        StepOf(ws, es, i);
      }
    }
  }

  lemma TimelyExtended(ws: seq<World>, es: seq<Event>, e: Event)
    requires TimelyRun(ws, es) && Possible(ws[|es|], e) && Timely(ws[|es|], e)
    ensures TimelyRun(ws + [Move(ws[|es|], e)], es + [e])
  {
    RunExtended(ws, es, e);
    var ws', es' := ws + [Move(ws[|es|], e)], es + [e];
    forall i | 0 <= i < |es'| ensures Timely(ws'[i], es'[i]) {
      if i < |es| {
        assert es'[i] == es[i];
      }
    }
  }

  lemma OneMoreEvent(start: World, es: seq<Event>, w: World, e: Event)
    requires Leads(start, es, w) && Possible(w, e) && Timely(w, e)
    ensures Leads(start, es + [e], Move(w, e))
  {
    var ws :| TimelyRun(ws, es) && ws[0] == start && ws[|es|] == w;
    TimelyExtended(ws, es, e);
    assert (ws + [Move(w, e)])[0] == start && (ws + [Move(w, e)])[|es + [e]|] == Move(w, e);
  }

  // ---------------------------------------------------------------- each kind of event

  lemma WaitLeads(start: World, es: seq<Event>, w: World, seconds: nat)
    requires Leads(start, es, w)
    ensures Leads(start, es + [Wait(seconds)], w.(db := Ticked(w.db, seconds)))
  {
    OneMoreEvent(start, es, w, Wait(seconds));
  }

  lemma BeginLeads(start: World, es: seq<Event>, w: World, cmd: Command, ids: FreshIds, context: Context)
    requires Leads(start, es, w) && WellFormed(cmd) && FreshFor(w.db.issued, ids)
    requires PrepareStep(w.db, cmd, ids).reply == Ok(Execute(ids.operationId, context))
    ensures Leads(start, es + [Begin(cmd, ids)],
                  w.(db := PrepareStep(w.db, cmd, ids).db,
                     execs := w.execs[ids.operationId := Exec(cmd, context, Handlers.Start(cmd, context))]))
  {
    OneMoreEvent(start, es, w, Begin(cmd, ids));
  }

  /** The world after an operation was granted. */
  ghost predicate Opens(w: World, cmd: Command, ids: FreshIds, context: Context, after: World) {
    && WellFormed(cmd) && FreshFor(w.db.issued, ids)
    && PrepareStep(w.db, cmd, ids).reply == Ok(Execute(ids.operationId, context))
    && after == w.(db := PrepareStep(w.db, cmd, ids).db,
                   execs := w.execs[ids.operationId := Exec(cmd, context, Handlers.Start(cmd, context))])
  }

  lemma BegunLeads(start: World, es: seq<Event>, w: World, cmd: Command, ids: FreshIds, context: Context,
                   after: World)
    requires Leads(start, es, w) && Opens(w, cmd, ids, context, after)
    ensures Leads(start, es + [Begin(cmd, ids)], after)
  {
    BeginLeads(start, es, w, cmd, ids, context);
  }

  lemma RenewLeads(start: World, es: seq<Event>, w: World, o: Uuid)
    requires Leads(start, es, w) && o in w.execs && w.execs[o].pc.Extending?
    requires RenewStep(w.db, w.execs[o].cmd.operation, o).reply.Ok?
    ensures Leads(start, es + [Renew(o)],
                  w.(db := Renewed(w.db, w.execs[o].cmd.operation.key), execs := Moved(w.execs, o, w.execs[o].pc.next)))
  {
    OneMoreEvent(start, es, w, Renew(o));
  }

  /** The world after an execution renewed its lease. */
  ghost predicate Extends(w: World, o: Uuid, after: World) {
    && o in w.execs && w.execs[o].pc.Extending? && RenewStep(w.db, w.execs[o].cmd.operation, o).reply.Ok?
    && after == w.(db := Renewed(w.db, w.execs[o].cmd.operation.key), execs := Moved(w.execs, o, w.execs[o].pc.next))
  }

  lemma ExtendedLeads(start: World, es: seq<Event>, w: World, o: Uuid, after: World)
    requires Leads(start, es, w) && Extends(w, o, after)
    ensures Leads(start, es + [Renew(o)], after)
  {
    RenewLeads(start, es, w, o);
  }

  lemma ReplyLeads(start: World, es: seq<Event>, w: World, o: Uuid, answer: Answer)
    requires Leads(start, es, w) && AtCall(w, o) && Answers(w.garage, CallAt(w, o), answer)
    requires Holds(w, o)
    ensures var exec := w.execs[o];
            Leads(start, es + [Reply(o, answer)],
                  w.(garage := After(w.garage, CallAt(w, o), answer),
                     execs := Moved(w.execs, o, Next(exec.cmd, exec.context, exec.pc.stage, answer))))
  {
    OneMoreEvent(start, es, w, Reply(o, answer));
    assert Ticked(w.db, 0) == w.db;
  }

  /** The world after a Garage call of an execution was answered. */
  ghost predicate Answered(w: World, o: Uuid, answer: Answer, after: World) {
    && AtCall(w, o) && Answers(w.garage, CallAt(w, o), answer)
    && var exec := w.execs[o];
    && after == w.(garage := After(w.garage, CallAt(w, o), answer),
                   execs := Moved(w.execs, o, Next(exec.cmd, exec.context, exec.pc.stage, answer)))
  }

  lemma AnswerLeads(start: World, es: seq<Event>, w: World, o: Uuid, answer: Answer, after: World)
    requires Leads(start, es, w) && Answered(w, o, answer, after) && Holds(w, o)
    ensures Leads(start, es + [Reply(o, answer)], after)
  {
    ReplyLeads(start, es, w, o, answer);
  }

  lemma AnswerMoves(w: World, o: Uuid, answer: Answer, after: World)
    requires Answered(w, o, answer, after)
    ensures Possible(w, Reply(o, answer)) && Move(w, Reply(o, answer)) == after
  {
    assert Ticked(w.db, 0) == w.db;
  }

  lemma AnswerExtends(ws: seq<World>, es: seq<Event>, o: Uuid, answer: Answer, after: World)
    requires WorldRun(ws, es) && Answered(ws[|es|], o, answer, after)
    ensures WorldRun(ws + [after], es + [Reply(o, answer)])
  {
    AnswerMoves(ws[|es|], o, answer, after);
    RunExtended(ws, es, Reply(o, answer));
  }

  lemma CommitLeads(start: World, es: seq<Event>, w: World, o: Uuid, requestId: string)
    requires Leads(start, es, w) && AtCompletion(w, o) && WellFormed(w.execs[o].cmd) && RequestIdOk(requestId)
    ensures var exec := w.execs[o];
            var tx := CompletionOf(o, exec.cmd, exec.context, exec.pc.product, requestId);
            && Admissible(w.db, tx)
            && Leads(start, es + [Commit(o, requestId)],
                     w.(db := Apply(w.db, tx),
                        execs := Moved(w.execs, o, AfterCompletion(exec.pc.product, CompletionError(w.db, tx)))))
  {
    OneMoreEvent(start, es, w, Commit(o, requestId));
  }

  /** A completion that goes through, and the tables it leaves. */
  ghost predicate Completes(w: World, o: Uuid, requestId: string, after: Db) {
    && AtCompletion(w, o) && WellFormed(w.execs[o].cmd) && RequestIdOk(requestId)
    && var exec := w.execs[o];
    && var tx := CompletionOf(o, exec.cmd, exec.context, exec.pc.product, requestId);
    && (tx.CompletingReconcile? ==>
          CompleteReconcileStep(w.db, tx.cmd, o, tx.physicalBucketId, tx.response, tx.audit) == Step(after, Ok(())))
    && (tx.CompletingCreate? ==>
          CompleteCreateStep(w.db, tx.cmd, o, tx.credential, tx.response, tx.audit) == Step(after, Ok(())))
    && (tx.CompletingReconcile? || tx.CompletingCreate?)
  }

  lemma CompletesApplies(w: World, o: Uuid, requestId: string, after: Db)
    requires Completes(w, o, requestId, after)
    ensures var exec := w.execs[o];
            var tx := CompletionOf(o, exec.cmd, exec.context, exec.pc.product, requestId);
            Admissible(w.db, tx) && Apply(w.db, tx) == after && CompletionError(w.db, tx).None?
  {
  }

  lemma CompletesCommits(w: World, o: Uuid, requestId: string, after: Db)
    requires Completes(w, o, requestId, after)
    ensures CommitsAt(w, Commit(o, requestId))
  {
    CompletesApplies(w, o, requestId, after);
  }

  lemma CompletionLeads(start: World, es: seq<Event>, w: World, o: Uuid, requestId: string, after: Db)
    requires Leads(start, es, w) && Completes(w, o, requestId, after)
    ensures Leads(start, es + [Commit(o, requestId)], w.(db := after, execs := Moved(w.execs, o, Halted)))
  {
    CompletesApplies(w, o, requestId, after);
    CommitLeads(start, es, w, o, requestId);
  }

  lemma CompletionMoves(w: World, o: Uuid, requestId: string, after: Db)
    requires Completes(w, o, requestId, after)
    ensures Possible(w, Commit(o, requestId))
    ensures Move(w, Commit(o, requestId)) == w.(db := after, execs := Moved(w.execs, o, Halted))
  {
    CompletesApplies(w, o, requestId, after);
  }

  lemma CompletionExtends(ws: seq<World>, es: seq<Event>, o: Uuid, requestId: string, after: Db)
    requires WorldRun(ws, es) && Completes(ws[|es|], o, requestId, after)
    ensures WorldRun(ws + [ws[|es|].(db := after, execs := Moved(ws[|es|].execs, o, Halted))], es + [Commit(o, requestId)])
    ensures TimelyRun(ws, es) ==>
              TimelyRun(ws + [ws[|es|].(db := after, execs := Moved(ws[|es|].execs, o, Halted))], es + [Commit(o, requestId)])
    ensures CommitsAt(ws[|es|], Commit(o, requestId))
  {
    CompletesCommits(ws[|es|], o, requestId, after);
    CompletionMoves(ws[|es|], o, requestId, after);
    RunExtended(ws, es, Commit(o, requestId));
    if TimelyRun(ws, es) {
      TimelyExtended(ws, es, Commit(o, requestId));
    }
  }
}
