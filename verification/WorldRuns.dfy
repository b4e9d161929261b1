/** Whole runs of handlers, store and Garage: any interleaving, any crash, any delay, with no assumption about leases. */
module WorldRuns {
  import opened Types
  import opened StoreSpec
  import opened Invariant
  import opened Transactions
  import opened StoreRuns
  import opened AuditTrail
  import opened Guarantees
  import opened GarageModel
  import opened Handlers
  import opened WorldInvariant
  import opened WorldSteps

  /** Empty tables and no executors; Garage may already hold anything. */
  ghost predicate InitialWorld(w: World) {
    Initial(w.db) && w.execs == map[] && w.loose == {}
  }

  ghost predicate WorldRun(ws: seq<World>, es: seq<Event>) {
    && |ws| == |es| + 1
    && InitialWorld(ws[0])
    && (forall i {:trigger es[i]} | 0 <= i < |es| :: Possible(ws[i], es[i]) && ws[i + 1] == Move(ws[i], es[i]))
  }

  lemma InitialWorldInv(w: World)
    requires InitialWorld(w)
    ensures WorldInv(w)
  {
    InitialInv(w.db);
  }

  /** Every reachable state of the world satisfies its invariant. */
  lemma {:induction false} WorldRunKeepsInv(ws: seq<World>, es: seq<Event>, n: nat)
    requires WorldRun(ws, es) && n <= |es|
    ensures WorldInv(ws[n])
  {
    if n == 0 {
      InitialWorldInv(ws[0]);
    } else {
      WorldRunKeepsInv(ws, es, n - 1);
      MoveKeepsWorldInv(ws[n - 1], es[n - 1]);
    }
  }

  // ---------------------------------------------------------------- the store's view of a run

  /** The tables and transactions of a run, as the store sees it. */
  ghost predicate StoreView(ws: seq<World>, es: seq<Event>, dbs: seq<Db>, txs: seq<Tx>)
    requires WorldRun(ws, es)
  {
    && |dbs| == |ws| && |txs| == |es|
    && (forall i | 0 <= i < |ws| :: dbs[i] == ws[i].db)
    && (forall i {:trigger es[i]} {:trigger txs[i]} | 0 <= i < |es| :: txs[i] == TxOf(ws[i], es[i]))
  }

  lemma {:induction false} StoreViewExists(ws: seq<World>, es: seq<Event>) returns (dbs: seq<Db>, txs: seq<Tx>)
    requires WorldRun(ws, es)
    ensures StoreView(ws, es, dbs, txs)
  {
    dbs := seq(|ws|, i requires 0 <= i < |ws| => ws[i].db);
    txs := [];
    while |txs| < |es|
      invariant |txs| <= |es|
      invariant forall i {:trigger es[i]} {:trigger txs[i]} | 0 <= i < |txs| :: txs[i] == TxOf(ws[i], es[i])
    {
      txs := txs + [TxOf(ws[|txs|], es[|txs|])];
    }
  }

  /** The store sees every run of the handlers as one of its own runs, audited as the handlers audit. */
  lemma WorldRunIsStoreRun(ws: seq<World>, es: seq<Event>, dbs: seq<Db>, txs: seq<Tx>)
    requires WorldRun(ws, es) && StoreView(ws, es, dbs, txs)
    ensures StoreRun(dbs, txs)
    ensures forall i | 0 <= i < |txs| :: HandlerShaped(txs[i])
  {
    forall i | 0 <= i < |txs|
      ensures Admissible(dbs[i], txs[i]) && dbs[i + 1] == Apply(dbs[i], txs[i]) && HandlerShaped(txs[i])
    {
      StoreStep(ws, es, i);
    }
  }

  lemma StoreStep(ws: seq<World>, es: seq<Event>, i: nat)
    requires WorldRun(ws, es) && i < |es|
    ensures Admissible(ws[i].db, TxOf(ws[i], es[i])) && HandlerShaped(TxOf(ws[i], es[i]))
    ensures ws[i + 1].db == Apply(ws[i].db, TxOf(ws[i], es[i]))
  {
    EventsAreTransactions(ws[i], es[i]);
    assert ws[i + 1] == Move(ws[i], es[i]);
  }

  /** Over every run of the handlers, mutating audit events correspond one to one to ended operations. */
  lemma HandlersAuditOnce(ws: seq<World>, es: seq<Event>, n: nat)
    requires WorldRun(ws, es) && n <= |es|
    ensures AuditMatches(ws[n].db)
  {
    var dbs, txs := StoreViewExists(ws, es);
    WorldRunIsStoreRun(ws, es, dbs, txs);
    AuditConserved(dbs, txs, n);
  }

  // ---------------------------------------------------------------- what is struck off is gone

  /** A credential marked revoked has no live Garage key, whatever paused or abandoned executors still do. */
  lemma RevokedHasNoLiveKey(ws: seq<World>, es: seq<Event>, n: nat, c: Uuid)
    requires WorldRun(ws, es) && n <= |es|
    requires c in ws[n].db.credentials && ws[n].db.credentials[c].status == Revoked
    ensures !KeyLive(ws[n].garage, ws[n].db.credentials[c].garageKeyId)
  {
    WorldRunKeepsInv(ws, es, n);
  }

  /** A deleted service has none of its recorded keys, nor its recorded bucket, left in Garage. */
  lemma DeletedHasNothingLeft(ws: seq<World>, es: seq<Event>, n: nat, s: Uuid)
    requires WorldRun(ws, es) && n <= |es|
    requires s in ws[n].db.services && ws[n].db.services[s].phase == Deleted
    ensures forall c | c in ws[n].db.credentials && ws[n].db.credentials[c].serviceId == s ::
              !KeyLive(ws[n].garage, ws[n].db.credentials[c].garageKeyId)
    ensures s in ws[n].db.buckets && ws[n].db.buckets[s].physicalBucketId.Some?
    ensures !BucketLive(ws[n].garage, ws[n].db.buckets[s].physicalBucketId.value)
  {
    WorldRunKeepsInv(ws, es, n);
    NothingLeft(ws[n], s);
  }

  lemma NothingLeft(w: World, s: Uuid)
    requires WorldInv(w) && s in w.db.services && w.db.services[s].phase == Deleted
    ensures forall c | c in w.db.credentials && w.db.credentials[c].serviceId == s ::
              !KeyLive(w.garage, w.db.credentials[c].garageKeyId)
    ensures s in w.db.buckets && w.db.buckets[s].physicalBucketId.Some?
    ensures !BucketLive(w.garage, w.db.buckets[s].physicalBucketId.value)
  {
    DeletedIsClean(w.db, s);
    assert ServiceOk(w.db.services[s], w.db.buckets[s]);
  }

  // ---------------------------------------------------------------- clean-up

  /** The event makes Garage carry out a clean-up call on the key: the one after a lost lease, or an adapter's undo. */
  ghost predicate CleansUp(w: World, e: Event, k: string) {
    || (e.Reply? && AtCall(w, e.operationId) && Discarded(w.execs[e.operationId].pc.stage) == Some(k))
    || (e.Late? && Discarded(e.call.stage) == Some(k))
  }

  /** Clean-up never deletes a key that any credential row records, however late it takes effect. */
  lemma CleanUpSparesRecordedKeys(ws: seq<World>, es: seq<Event>, n: nat, k: string, c: Uuid)
    requires WorldRun(ws, es) && n < |es| && CleansUp(ws[n], es[n], k)
    requires c in ws[n].db.credentials
    ensures ws[n].db.credentials[c].garageKeyId != k
  {
    WorldRunKeepsInv(ws, es, n);
    SparesRecordedKeys(ws[n], es[n], k);
  }

  lemma SparesRecordedKeys(w: World, e: Event, k: string)
    requires WorldInv(w) && Possible(w, e) && CleansUp(w, e, k)
    ensures Unrecorded(w.db.credentials, k)
  {
    if e.Reply? {
      assert HoldsKey(w.execs, e.operationId, k);
    }
  }

}
