/** Concrete requests: the runs that end in disagreement exist. */
module Instances {
  import opened Types
  import opened Domain
  import opened StoreSpec
  import opened Completions
  import opened Transactions
  import opened DeadNames
  import opened Requests
  import opened Scenario
  import opened GarageModel
  import opened Handlers
  import opened WorldRuns
  import opened LeaseRuns
  import opened Staging
  import opened PausedExecutor
  import opened SharedBucket

  ghost function EmptyTables(): Db {
    Db(map[], map[], map[], map[], map[], map[], [], 0, {NIL}, CredentialLimits(1, 1))
  }

  // ---------------------------------------------------------------- the paused executor

  ghost function PausedCast(): Cast {
    Cast(Ask(FIRST, Uuid(11), "s", "aaa", 1), FreshIds(Uuid(101), Uuid(102)), "b",
         Create(Uuid(12)), FreshIds(Uuid(103), Uuid(104)), FreshIds(Uuid(105), Uuid(106)), "k", "x", "q")
  }

  lemma PausedCastIsProper()
    ensures Proper(PausedCast())
  {
    TripleIsValid("aaa");
    LettersArePlain("s");
    AskIsValid(FIRST, Uuid(11), "s", "aaa", 1);
    CreateIsValid(Uuid(12));
    LettersArePlain("b");
    LettersArePlain("q");
  }

  /** A run of the system, from nothing, in which a committed credential loses its key to an executor that had been
      taken over: the system promises this agreement only under the lease assumption. */
  lemma AgreementIsLost() returns (ws: seq<World>, es: seq<Event>, n: nat)
    ensures WorldRun(ws, es) && |es| == n + 3 && CommitsAt(ws[n], es[n])
    ensures TimelyRun(ws[..n + 2], es[..n + 1])
    ensures KeyAgrees(ws[n + 1].db, ws[n + 1].garage, Uuid(104))
    ensures !KeyAgrees(ws[n + 3].db, ws[n + 3].garage, Uuid(104))
  {
    PausedCastIsProper();
    var start := World(EmptyTables(), Garage(map[], map[]), map[], {});
    ws, es, n := PausedExecutorDeletesRecordedKey(start, PausedCast());
  }

  /** A run in which it gets a second live key from such an executor. */
  lemma SecondKeyAppears() returns (ws: seq<World>, es: seq<Event>, n: nat)
    ensures WorldRun(ws, es) && |es| == n + 2 && CommitsAt(ws[n], es[n])
    ensures TimelyRun(ws[..n + 2], es[..n + 1])
    ensures KeyAgrees(ws[n + 1].db, ws[n + 1].garage, Uuid(104))
    ensures !KeyAgrees(ws[n + 2].db, ws[n + 2].garage, Uuid(104))
  {
    PausedCastIsProper();
    var start := World(EmptyTables(), Garage(map[], map[]), map[], {});
    assert "l"[0] != "k"[0];
    ws, es, n := PausedExecutorMakesSecondKey(start, PausedCast(), "l");
  }

  // ---------------------------------------------------------------- the shared bucket

  /** A timely run over a bucket with two aliases, in which a reconcile commits a bucket with another's quotas. */
  lemma QuotasAreLost() returns (ws: seq<World>, es: seq<Event>, n: nat)
    ensures TimelyRun(ws, es) && |es| == n + 1 && CommitsAt(ws[n], es[n])
    ensures !BucketAgrees(ws[n + 1].db, ws[n + 1].garage, FIRST, "b")
  {
    TripleIsValid("aaa");
    TripleIsValid("bbb");
    LettersArePlain("b");
    assert "aaa"[0] != "bbb"[0];
    AskingIsRival("aaa", "bbb", "b");
    var g := Garage(map[], map["b" := GarageBucket({"aaa", "bbb"}, None, true)]);
    ws, es, n := SharedBucketDisagrees(World(EmptyTables(), g, map[], {}), Asking("aaa", "bbb", "b"));
  }

  // ---------------------------------------------------------------- the dead name

  ghost function Note(): AuditEvent {
    AuditEvent(Uuid(1), Uuid(2), FIRST, Uuid(3), "q", ReconcileAction, "s", Allowed)
  }

  /** Service "s" with bucket "aaa" is reconciled and deleted; then another service asks for these names. */
  ghost function DeadNameStory(name: string, bucketName: string): Story {
    Story(Ask(FIRST, Uuid(11), "s", "aaa", 1), FreshIds(Uuid(101), Uuid(102)), "b",
          StoredHttpResponse(202, ReconcileReply(Uuid(101), 1, "b"), false), Note(),
          Request(FIRST, Uuid(12), Delete(FIRST, 2)), FreshIds(Uuid(103), Uuid(104)),
          StoredHttpResponse(200, DeleteReply(Uuid(103), 2), false), Note(),
          Ask(SECOND, Uuid(21), name, bucketName, 1), FreshIds(Uuid(105), Uuid(106)))
  }

  lemma NoteIsAccepted()
    ensures AuditAccepted(Note())
  {
    LettersArePlain("q");
    LettersArePlain("s");
  }

  lemma StoryBegins(name: string, bucketName: string)
    ensures FirstProper(DeadNameStory(name, bucketName))
  {
    NoteIsAccepted();
    TripleIsValid("aaa");
    LettersArePlain("b");
    LettersArePlain("s");
    AskIsValid(FIRST, Uuid(11), "s", "aaa", 1);
  }

  lemma StoryGoesOn(name: string, bucketName: string)
    requires FirstProper(DeadNameStory(name, bucketName))
    ensures DeletionProper(DeadNameStory(name, bucketName))
  {
    NoteIsAccepted();
  }

  lemma StoryEnds(name: string, bucketName: string)
    requires name != [] && ByteLength(name) <= 120 && ValidateBucketName(bucketName).None?
    requires bucketName == "aaa" || name == "s" || !Storable(name)
    requires FirstProper(DeadNameStory(name, bucketName))
    ensures SecondProper(DeadNameStory(name, bucketName))
  {
    AskIsValid(SECOND, Uuid(21), name, bucketName, 1);
  }

  /** Five calls on empty tables leave a service whose reconcile was granted and can only fail. */
  lemma GrantIsInVain(name: string, bucketName: string) returns (db: Db)
    requires name != [] && ByteLength(name) <= 120 && ValidateBucketName(bucketName).None?
    requires bucketName == "aaa" || name == "s" || !Storable(name)
    ensures var t := DeadNameStory(name, bucketName);
            && EndsIn(DeletionCalls(t) + [Preparing(t.second, t.secondIds)], db)
            && Doomed(db, Uuid(21))
            && (forall o, b, response, audit :: !ReconcileCommits(db, t.second, o, b, response, audit))
  {
    StoryBegins(name, bucketName);
    StoryGoesOn(name, bucketName);
    StoryEnds(name, bucketName);
    var before;
    before, db := DeadNameIsGrantedInVain(EmptyTables(), DeadNameStory(name, bucketName));
  }

  /** A name that passes validation and that the database refuses. */
  lemma NulPassesValidation()
    ensures ValidateCommand(Ask(FIRST, Uuid(11), "\0", "aaa", 1)).None? && !ServiceChecks("\0", 1)
  {
    TripleIsValid("aaa");
    AsciiByteLength("\0");
    AskIsValid(FIRST, Uuid(11), "\0", "aaa", 1);
  }
}
