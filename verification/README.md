# Syouyu operation protocol

Syouyu provisions S3 buckets and access keys in a Garage cluster and keeps its control state in PostgreSQL. Every
mutation (reconcile a service, delete it, create a credential, revoke one) runs in three stages: a *prepare*
transaction grants an operation id under a 120-second lease, the handler calls Garage and renews the lease before each
batch of calls, and a *complete* or *fail* transaction ends the operation. Any number of handlers run at once, and each
may crash or pause anywhere. Once a lease has lapsed, a retry with the same idempotency key takes the operation over
under a fresh operation id.

This project models that protocol in Dafny and proves what it promises over whole runs.

## How it is built

The store:

- `Types`, `Domain`: identifiers, commands, rows, errors, and the validators.
- `StoreSpec`: each store call as a function from the tables before to the tables after and the reply. An error always
  comes with the unchanged tables.
- `PgStoreObject`: the store as a class that updates its tables step by step; every method is proved equal to its
  function in `StoreSpec`.
- `Invariant`, `Tables`, `Grants`, `Completions`, `Transactions`: the invariant of the tables, and the proof that every
  call keeps it, whatever operation id, response, physical id, key or audit event the call carries. `Transactions` names
  the effect of each call (`Effect`, `Enabled`, `Perform`), so that later proofs go by effect.
- `Evolution`: what no call undoes. `Snapshot`, `Contexts`: an unfinished operation's service does not move, so the
  context handed to its executor stays true.
- `StoreRuns`, `Leases`, `Fencing`, `Guarantees`, `AuditTrail`: theorems over every run from empty tables.
- `Admission`: when a request that no receipt knows is granted. `DeadNames`: what follows, in every run, once a reconcile
  is granted under a name that can never be committed. `Scenario`: a run of the store that gets there.

Handlers and Garage:

- `GarageModel`: Garage's keys and buckets, with tombstones so that identifiers are never used twice, and the answers
  Garage can give to each call.
- `Adapter`: the Garage adapter as a class. A call reported as failed may or may not have taken effect.
- `Handlers`: the four mutating handlers as programs over single Garage calls, and the world of tables, Garage,
  executors and *loose* calls (calls of unknown outcome that may take effect at any later time). Events interleave in any
  order. A crash is an executor that is never scheduled again. A store reply that gets lost is a commit after which the
  executor does nothing more.
- `Executors`, `WorldInvariant`, `Remains`, `Commits`, `WorldSteps`, `WorldRuns`, `Completing`, `CommitErrors`: what
  every executor may rely on however long it was paused, and theorems over every run of the world with no assumption
  about leases.
- `OnTrack`, `LeaseTheorem`, `LeaseRuns`: theorems over runs in which every Garage call takes effect while its operation
  is current (`Timely`). This is weaker than requiring the lease to be unexpired as well. The clean-up after a lost lease
  is exempt. `KeyAgreement` and `BucketAgreement` carry the agreement of tables and Garage from the commit to every later
  state. `DeadBuckets` shows that nobody takes up a bucket that was dead at the start.
- `Events` builds runs of the world one event at a time. `Staging` and `PausedExecutor` build the runs in which agreement
  is lost without `Timely`, and `SharedBucket` those in which a bucket with two aliases is shared. `Requests` and
  `Instances` supply concrete inputs.

Separately, `BodyReader` models the bounded response reader and `ReceiptCipher` the associated data of a sealed response.

## Idealisations

- UUIDs come from a source that never repeats itself; the issued ones are part of the state.
- The request hash is the injective term over its preimage.
- A sealed response is a term that opens only under the key and operation id it was sealed with. `ReceiptCipher` proves
  the associated data injective.
- A key name made from a service id and a credential id is an injective term.
- Credential reservations are keyed by their operation id, which is a UNIQUE column.
- The clock moves only forward and is read once per transaction.

## Where the code says less than one might expect

- A name reservation is dropped when its service is deleted, but the bucket row keeps the bucket name and the service row
  the service name, each under a UNIQUE constraint. A reconcile under either name, of a new service or as the renaming of a
  live one, is granted and then cannot commit (`DeadNameIsGrantedInVain`, `DoomedUpdateIsGranted`). In no continuation does
  it end by completing (`DoomedEndsOnlyByFailing`), and until it is failed its service refuses every new request
  (`DoomedBlocksItsService`). The handler returns the error of a completion without failing the operation.
  `CurrentReconcileCommits` gives the exact condition.
- A service name with a NUL passes validation, which looks only at its length (`NulPassesValidation`), and is then refused
  by PostgreSQL. Such a reconcile is in the same position.
- Completion does not look at the lease. An operation whose lease has lapsed still completes if nobody took it over.
- Garage effects are not fenced. An executor that stops between renewing its lease and listing keys, and lists after its
  successor made a key, deletes that key: after the successor's commit (`PausedExecutorDeletesRecordedKey`) or before it
  (`PausedExecutorSpoilsCommit`). One that stops after listing makes a second key (`PausedExecutorMakesSecondKey`). Under
  the lease assumption none of this happens: every recorded credential agrees with Garage in every state, until a receipt
  asks to revoke it or to delete its service (`RecordedKeysAgree`). In any run, only a Garage call of an operation that is
  no longer current ends the agreement (`OnlyLateCallsEndAgreement`).
- A bucket that Garage knows under two names can be adopted by two services at once, and then one of them commits it with
  the other's quotas, even if every call is timely. `DisagreementNeedsTwoAliases` shows that it takes exactly this: a live
  bucket under two names that a reconcile can ask for.

## Model

| member | source | states |
|---|---|---|
| `Domain.RegionRulesAgree` | crates/syouyu-api/src/config.rs:115-127 | the two implementations of the region rule accept exactly the same strings |
| `Domain.ValidatedSpecIsAcceptedDownstream` | crates/syouyu-domain/src/lib.rs:58-64 | an accepted spec converts to BIGINT and reads back equal, passes Garage's quota and input rules, and meets every CHECK of the bucket table |
| `Domain.QuotaRuleIsExact` | crates/syouyu-domain/src/lib.rs:291-302 | a quota is accepted exactly when it fits BIGINT and Garage accepts it |
| `Domain.ValidatedReconcileIsAcceptedDownstream` | crates/syouyu-store/src/models.rs:75-88 | an accepted reconcile command is one the service table takes, if and only if its name holds no NUL |
| `StoreSpec.ActiveKeysExact` | crates/syouyu-store/src/lib.rs:365-375 | the key list of a delete holds exactly the keys of the service's active credentials |
| `StoreSpec.ActiveKeysOldestFirst` | crates/syouyu-store/src/lib.rs:365-375 | that list is ordered by creation time |
| `PgStoreObject.PgStore.ClaimExistingReceipt` | crates/syouyu-store/src/lib.rs:1044-1106 | an existing receipt replays, conflicts, is in progress, or is taken over together with its reservation exactly when its lease has lapsed |
| `PgStoreObject.PgStore.ReserveReceipt` | crates/syouyu-store/src/lib.rs:1224-1256 | the key is in progress for this identity under this operation id, at attempt one, with a lease that expires 120 seconds from now and no response; every other receipt and every other table is as before, and the id counts as issued |
| `PgStoreObject.PgStore.FinishReceiptRow` | crates/syouyu-store/src/lib.rs:1108-1177 | finishing checks identity, then operation id, then state; a finished receipt accepts only the response it holds |
| `PgStoreObject.PgStore.PrepareReconcile` | crates/syouyu-store/src/lib.rs:73-187 | the transaction computes `PrepareStep`; errors leave every table as it was |
| `PgStoreObject.PgStore.PrepareDelete` | crates/syouyu-store/src/lib.rs:291-388 | likewise for delete |
| `PgStoreObject.PgStore.PrepareCreateCredential` | crates/syouyu-store/src/lib.rs:451-618 | likewise for credential creation, including the readmission of a takeover by its reservation |
| `PgStoreObject.PgStore.PrepareRevokeCredential` | crates/syouyu-store/src/lib.rs:706-762 | likewise for revocation |
| `PgStoreObject.PgStore.CompleteReconcile` | crates/syouyu-store/src/lib.rs:189-289 | the transaction computes `CompleteReconcileStep`; errors leave every table as it was |
| `PgStoreObject.PgStore.CompleteDelete` | crates/syouyu-store/src/lib.rs:390-449 | likewise for delete |
| `PgStoreObject.PgStore.CompleteCreateCredential` | crates/syouyu-store/src/lib.rs:620-704 | likewise for credential creation |
| `PgStoreObject.PgStore.CompleteRevokeCredential` | crates/syouyu-store/src/lib.rs:764-796 | likewise for revocation |
| `PgStoreObject.PgStore.RenewOperation` | crates/syouyu-store/src/lib.rs:798-833 | a current operation id gets a full lease again; nothing else changes |
| `PgStoreObject.PgStore.FailOperation` | crates/syouyu-store/src/lib.rs:835-878 | the operation ends as failed and gives up its credential reservation and any name no bucket row backs |
| `PgStoreObject.PgStore.RecordUsage` | crates/syouyu-store/src/lib.rs:944-1014 | only the usage columns of a bucket in scope change |
| `PgStoreObject.PgStore.RecordAudit` | crates/syouyu-store/src/lib.rs:1016-1021 | an acceptable event is appended and nothing else changes |
| `Completions.ReconcileOutcome` | crates/syouyu-store/src/lib.rs:189-289 | the exact condition under which a reconcile commits; otherwise nothing changes |
| `Completions.DeleteOutcome` | crates/syouyu-store/src/lib.rs:390-449 | the same for delete |
| `Completions.CreateOutcome` | crates/syouyu-store/src/lib.rs:620-704 | the same for credential creation |
| `Completions.RevokeOutcome` | crates/syouyu-store/src/lib.rs:764-796 | the same for revocation |
| `Completions.FailOutcome` | crates/syouyu-store/src/lib.rs:835-878 | the same for failure |
| `Transactions.PrepareOutcome` | crates/syouyu-store/src/lib.rs:1061-1102 | every prepare grants a new operation, or takes over a lapsed one and never fails to, or changes nothing and grants nothing |
| `Transactions.ApplyKeepsInv` | crates/syouyu-store/src/lib.rs:73-1021 | every transaction keeps the invariant of the tables |
| `Evolution.ApplyEvolves` | crates/syouyu-store/src/lib.rs:73-1021 | no transaction changes a finished receipt or a bucket name, lowers a generation, revives a deleted service or a revoked credential, or reuses an operation id |
| `Snapshot.SnapshotStable` | crates/syouyu-store/src/lib.rs:1258-1314 | no call of anyone moves the row, bucket, names, credentials or reservations of a service whose operation stays unfinished, apart from usage |
| `Contexts.GrantDescribes` | crates/syouyu-store/src/lib.rs:156-186 | a first grant hands out the context the tables describe |
| `Contexts.RetakeDescribes` | crates/syouyu-store/src/lib.rs:486-516 | so does a takeover, with the credential id of the original reservation |
| `Contexts.ContextStable` | crates/syouyu-store/src/lib.rs:1258-1314 | a true context stays true while the operation is unfinished |
| `StoreRuns.RunKeepsInv` | crates/syouyu-store/src/lib.rs:73-1021 | every reachable state satisfies the invariant |
| `StoreRuns.OneUnfinishedPerService` | crates/syouyu-store/src/lib.rs:1290-1314 | at most one unfinished operation per service in every reachable state |
| `StoreRuns.SnapshotOverRun` | crates/syouyu-store/src/lib.rs:1258-1314 | from grant to finish, over any interleaving, the service does not move |
| `StoreRuns.ContextOverRun` | crates/syouyu-store/src/lib.rs:1258-1314 | a granted context stays true until the operation finishes |
| `StoreRuns.TakeoverReproducesTheWork` | crates/syouyu-store/src/lib.rs:1061-1102 | once the lease has lapsed, the same command is always granted again under a fresh id, with the same context as every earlier grant up to usage |
| `Leases.LeaseColumnsTellTheRun` | crates/syouyu-store/src/lib.rs:1066-1086 | the attempt number is the number of grants ever made; the expiry is the one set by the latest grant or renewal |
| `Leases.LaterGrantsWaitForExpiry` | crates/syouyu-store/src/lib.rs:1066-1086 | a grant after the first happens only when the clock has reached that expiry |
| `Leases.GrantsAreALeaseApart` | crates/syouyu-store/src/lib.rs:1066-1086 | two grants of one operation are at least a lease apart, so one retry wins per expiry |
| `Leases.EarlyRetryIsTurnedAway` | crates/syouyu-store/src/lib.rs:1085-1089 | a retry before the expiry is told the current operation id and changes nothing |
| `Fencing.TakenOverIsFencedForGood` | crates/syouyu-store/src/lib.rs:1276-1287 | every later call under a taken-over id changes nothing and, when well formed, reports the lease as lost, even after the successor has finished |
| `Fencing.RetiredIsToldLeaseLost` | crates/syouyu-store/src/lib.rs:1125-1137 | the id check precedes the state check in renew, fail and all four completions |
| `Fencing.EndingStoresTheResponse` | crates/syouyu-store/src/lib.rs:1138-1177 | the receipt decodes to the response of the call that ended the operation |
| `Fencing.EndedOperationReplays` | crates/syouyu-store/src/lib.rs:1044-1106 | an ended receipt is frozen; every matching request replays its response and every other one under the key conflicts, without any change |
| `Grants.NameReservationNeverCollidesWithItself` | crates/syouyu-store/src/lib.rs:1316-1338 | the per-service UNIQUE of name reservations never fires in prepare |
| `Guarantees.LimitsHoldThroughout` | crates/syouyu-store/src/lib.rs:537-609 | active credentials plus reservations never exceed the configured ceilings |
| `Guarantees.GrantCountsOnce` | crates/syouyu-store/src/lib.rs:537-609 | a new grant counts for one and stays within the lower of the signed and the configured limit |
| `Guarantees.IssuingConserves` | crates/syouyu-store/src/lib.rs:651-698 | completion conserves both counts |
| `Guarantees.TakeoverConserves` | crates/syouyu-store/src/lib.rs:1090-1100 | takeover conserves both counts |
| `Guarantees.OnlyGrantsRaiseCounts` | crates/syouyu-store/src/lib.rs:857-860 | nothing but a first grant raises a count |
| `Guarantees.PrepareNeverCorrupt` | crates/syouyu-store/src/lib.rs:1035-1064 | no prepare in a reachable state reports corrupt data, a failed decryption or a constraint violation |
| `Guarantees.SettledClaimNeverExecutes` | crates/syouyu-store/src/lib.rs:1208-1216 | a claim settled by an existing receipt never asks for execution |
| `Guarantees.CurrentDeleteCommits` | crates/syouyu-store/src/lib.rs:390-449 | a current delete always commits, at the previous generation plus one |
| `Guarantees.CurrentRevokeCommits` | crates/syouyu-store/src/lib.rs:764-796 | a current revocation always commits |
| `Guarantees.CurrentCreateCommits` | crates/syouyu-store/src/lib.rs:651-698 | a current creation commits exactly when it brings the reserved id and unrecorded key ids of acceptable length |
| `Guarantees.CurrentReconcileCommits` | crates/syouyu-store/src/lib.rs:208-283 | a current reconcile commits exactly when its physical id is acceptable and new, its name can be stored and is free, and no deleted service carried its bucket name |
| `Guarantees.CurrentReconcileError` | crates/syouyu-store/src/lib.rs:208-283 | which of the three errors a current reconcile gets; it is never told that the service changed |
| `Guarantees.NameTakenOnlyByDeleted` | migrations/0001_initial.sql:28-42 | the holder of a name can collide on the bucket-name UNIQUE only with a deleted service |
| `Guarantees.BucketNamesAreForGood` | crates/syouyu-store/src/lib.rs:129-161 | a bucket name never changes and a live service holds its reservation |
| `Admission.NewServiceGranted` | crates/syouyu-store/src/lib.rs:73-187 | a reconcile of a service not seen before, under a name nobody has reserved, is granted whatever bucket rows exist |
| `Admission.CreateGranted` | crates/syouyu-store/src/lib.rs:451-618 | a creation on an idle live service with room is granted under the reserved credential id and the recorded bucket |
| `Admission.DeleteGranted` | crates/syouyu-store/src/lib.rs:291-388 | a delete at the next generation on an idle service is granted |
| `Admission.UpdateGranted` | crates/syouyu-store/src/lib.rs:73-187 | a reconcile of an idle live service at a later generation is granted, whatever service name it brings |
| `DeadNames.DoomedIsGranted` | crates/syouyu-store/src/lib.rs:1316-1338 | a reconcile of a new service is granted under the bucket name or the service name of a deleted one, or under a name that cannot be stored |
| `DeadNames.DoomedUpdateIsGranted` | crates/syouyu-store/src/lib.rs:112-161 | so is the renaming of a live service to such a name |
| `DeadNames.DoomedEndsOnlyByFailing` | crates/syouyu-store/src/lib.rs:208-273 | in every run, such an operation never ends by completing; whatever ends it is a failure |
| `DeadNames.DoomedBlocksItsService` | crates/syouyu-store/src/lib.rs:1290-1314 | until then every valid request under a new key on that service, live or never created, is refused and changes nothing: as in progress under that operation's id, or, for a creation, first as not found if there is no service |
| `Scenario.DeadNameIsGrantedInVain` | crates/syouyu-store/src/lib.rs:1316-1338 | from empty tables: reconcile, delete, and a reconcile of another service under one of the same names, which is granted and which no completion commits |
| `Instances.GrantIsInVain` | migrations/0001_initial.sql:1-42 | the same with a concrete first service, for every second one that repeats its bucket name or its service name or has a NUL in its name |
| `Instances.NulPassesValidation` | crates/syouyu-store/src/models.rs:75-88 | a concrete command that passes validation and that the service table refuses |
| `Guarantees.GenerationsNameOneSpec` | crates/syouyu-store/src/lib.rs:123-153 | reconciled generations never decrease, and two reconciles at one generation applied the same name and spec |
| `Guarantees.ServicesAgreeWithBuckets` | crates/syouyu-store/src/lib.rs:208-273 | every stored service is ready or deleted, fully observed, and agrees with its bucket row |
| `Guarantees.DeletionIsFinal` | crates/syouyu-store/src/lib.rs:400-447 | a deleted service stays deleted with no active credential, reservation, name or unfinished operation, and is never granted again |
| `AuditTrail.AuditConserved` | crates/syouyu-store/src/lib.rs:1368-1408 | mutating audit events and ended receipts correspond one to one, with outcome failed exactly for failed receipts |
| `Adapter.GarageAdminClient.Send` | crates/syouyu-garage/src/lib.rs:92-203 | a successful call has its effect and a truthful answer; a failed one had its effect or none; not found means nothing was there |
| `Adapter.GarageAdapter.SetBucketKeyPermissions` | crates/syouyu-garage/src/lib.rs:205-222 | success gives exactly the requested rights; once anything changed the key has no more than the requested rights; nothing else is touched |
| `Adapter.GarageAdapter.Sweep` | crates/syouyu-api/src/garage.rs:148-163 | success leaves no live key of the name; other keys are untouched |
| `Adapter.GarageAdapter.CreateCredential` | crates/syouyu-api/src/garage.rs:142-193 | success leaves exactly one live key of the name, a new one with exactly the requested rights; failure leaves no new key with more than the requested rights; keys of other names are untouched |
| `Adapter.GarageAdapter.RevokeCredential` | crates/syouyu-api/src/garage.rs:195-201 | success means the key is not live |
| `Adapter.GarageAdapter.DeleteBucket` | crates/syouyu-api/src/garage.rs:203-209 | success means the bucket is not live |
| `Adapter.GarageAdapter.ReconcileBucket` | crates/syouyu-api/src/garage.rs:80-121 | success returns a live bucket with the alias and exactly the quotas, the recorded one if there is one; other buckets are untouched |
| `Adapter.EmptyMeansNothingLeft` | crates/syouyu-api/src/garage.rs:123-140 | the emptiness test sees every unfinished upload despite the saturating sum |
| `BodyReader.ReadLimited` | crates/syouyu-garage/src/lib.rs:622-643 | for every chunking and limit: exactly the first bytes up to the limit, truncated if and only if there were more |
| `ReceiptCipher.Aad` | crates/syouyu-store/src/cipher.rs:70-76 | the 48 bytes are key, operation id and purpose |
| `ReceiptCipher.AssociatedDataIsInjective` | crates/syouyu-store/src/cipher.rs:70-76 | different keys or operation ids have different associated data |
| `Handlers.EventsAreTransactions` | crates/syouyu-api/src/routes.rs:1302-1369 | every handler event is an admissible store call audited as the handlers audit |
| `Executors.AnsweredIsTrue` | crates/syouyu-api/src/routes.rs:689-806 | after each Garage answer, what the handler goes on to rely on is true of Garage |
| `WorldRuns.WorldRunKeepsInv` | crates/syouyu-api/src/routes.rs:516-1206 | the invariant of tables, executors and Garage holds in every reachable state |
| `WorldRuns.WorldRunIsStoreRun` | crates/syouyu-api/src/routes.rs:516-1206 | every run of the handlers is a run of the store, so the store's theorems apply to it |
| `WorldRuns.HandlersAuditOnce` | crates/syouyu-api/src/routes.rs:1302-1369 | audit conservation over every handler run |
| `Remains.DeletionLeavesNothing` | crates/syouyu-store/src/lib.rs:400-411 | the credentials marked revoked by a delete are those whose keys the handler walked |
| `WorldRuns.RevokedHasNoLiveKey` | crates/syouyu-api/src/routes.rs:1171-1206 | a credential marked revoked has no live Garage key, whatever paused executors do |
| `WorldRuns.DeletedHasNothingLeft` | crates/syouyu-api/src/routes.rs:689-806 | a deleted service has no recorded key and no recorded bucket left in Garage |
| `WorldRuns.CleanUpSparesRecordedKeys` | crates/syouyu-api/src/routes.rs:1067-1083 | clean-up never deletes a key that a credential row records, however late it takes effect |
| `Completing.DeletionGoesThrough` | crates/syouyu-api/src/routes.rs:782-806 | a current deletion of a handler always completes |
| `Completing.RevocationGoesThrough` | crates/syouyu-api/src/routes.rs:1190-1206 | a current revocation of a handler always completes |
| `Completing.CreationGoesThrough` | crates/syouyu-api/src/routes.rs:1031-1083 | a current creation completes exactly when Garage's key id has an acceptable length |
| `Completing.ReconcileGoesThrough` | crates/syouyu-api/src/routes.rs:601-637 | the exact condition under which a current reconcile completes, and its only errors |
| `CommitErrors.CommitsAnswerTruly` | crates/syouyu-store/src/lib.rs:1258-1288 | in every run: the completing call of a current operation fails only for an unacceptable id from Garage, for a name that cannot be stored, or on a unique index; the call of one that ended or was taken over always fails, with exactly the error given: validation for an empty key id, a nil credential id or an unacceptable bucket id, else the id that took over, else already complete |
| `LeaseRuns.PhysicalIdsAreForGood` | crates/syouyu-api/src/routes.rs:566-598 | the bucket recorded for a service never changes |
| `LeaseRuns.IssuedKeyIsTheOnlyOne` | crates/syouyu-api/src/routes.rs:1002-1083 | under the lease assumption, an issued credential's key is the only live key of its name and has exactly the recorded permissions on the recorded bucket |
| `LeaseRuns.ReconciledBucketMatchesSpec` | crates/syouyu-api/src/routes.rs:566-637 | under the lease assumption, a reconcile not applied before commits a live bucket with the alias and quotas of its spec, if that bucket goes by one alias that a reconcile can ask for |
| `LeaseRuns.MadeBucketsHaveOneAlias` | crates/syouyu-api/src/garage.rs:101-110 | a bucket that Garage did not know at the start of a run goes by one alias for good |
| `SharedBucket.SharedBucketDisagrees` | crates/syouyu-api/src/garage.rs:80-121 | from every initial world with a live bucket under the names of two reconciles, a timely run in which the first commits the bucket with the quotas of the second |
| `SharedBucket.DisagreementNeedsTwoAliases` | crates/syouyu-api/src/garage.rs:80-121 | from every initial world, some timely run commits the bucket in disagreement if and only if the bucket is live, has an acceptable id, and goes by two names that a reconcile can ask for |
| `DeadBuckets.DeadBucketIsAvoided` | crates/syouyu-api/src/garage.rs:101-110 | in every run, no executor and no row takes up a bucket that was dead at the start |
| `BucketAgreement.AgreeingBucketStays` | crates/syouyu-api/src/routes.rs:566-637 | in a timely run, a bucket that agrees with the spec of its service goes on agreeing until a new generation or a deletion of that service is under way |
| `BucketAgreement.CommittedBucketStays` | crates/syouyu-api/src/routes.rs:566-637 | so a bucket that a reconcile commits agrees with its spec from the commit until then |
| `Instances.QuotasAreLost` | crates/syouyu-api/src/garage.rs:80-121 | such a run for concrete requests and a concrete Garage |
| `KeyAgreement.RecordedKeysAgree` | crates/syouyu-api/src/routes.rs:1002-1083 | in every state of every timely run, every recorded credential has exactly one live key of its name, the recorded one with the recorded permissions, unless some receipt asks to revoke it or to delete its service; once it is marked revoked it no longer agrees |
| `KeyAgreement.OnlyLateCallsEndAgreement` | crates/syouyu-api/src/garage.rs:142-193 | in every run, timely or not, the agreement of a credential that no receipt asks to remove ends only by a Garage call whose operation is no longer current |
| `LeaseRuns.PausedSweepBreaksAgreement` | crates/syouyu-api/src/garage.rs:148-163 | in every reachable world, an executor about to sweep a recorded key can do so with the tables unchanged, which ends the agreement; such a call is never timely |
| `PausedExecutor.TakenOverCreationCommits` | crates/syouyu-api/src/routes.rs:1002-1083 | from every empty world, a timely run in which a creation lapses, is taken over and committed by the successor, with the recorded key the only one of its name |
| `PausedExecutor.PausedExecutorDeletesRecordedKey` | crates/syouyu-api/src/garage.rs:148-163 | that run goes on: the executor that was taken over lists the recorded key and deletes it, the tables do not change, and the agreement is gone |
| `PausedExecutor.PausedExecutorSpoilsCommit` | crates/syouyu-api/src/garage.rs:148-163 | the same before the successor commits: the commit succeeds and the key it records is dead |
| `PausedExecutor.PausedExecutorMakesSecondKey` | crates/syouyu-api/src/garage.rs:164-193 | a run in which the executor that was taken over had listed in time, and makes a second live key of the name after its successor committed |
| `Instances.AgreementIsLost` | crates/syouyu-api/src/garage.rs:148-163 | the run that deletes the recorded key, for concrete requests |
| `Instances.SecondKeyAppears` | crates/syouyu-api/src/garage.rs:164-193 | the run that makes a second key, for concrete requests |

## Left out

- LeaseRuns.PausedSweepBreaksAgreement: speaks of a sweep only. KeyAgreement.OnlyLateCallsEndAgreement speaks of every call.
- Completions.ReconcileOutcome: a NUL is considered in the service name only. Bucket ids, key ids and request ids, which come from Garage and from HTTP headers, are taken to hold none.
- Transactions.ApplyKeepsInv: takes each transaction as atomic. Lock order and deadlocks are not modelled.
- PgStoreObject.PgStore.RecordUsage: does not model the separate usage snapshot table.
- PgStoreObject.PgStore.FinishReceiptRow: does not model the nonce of the ciphertext.
- PgStoreObject.PgStore.CompleteCreateCredential: does not model the secret's fingerprint column.
- PgStoreObject.PgStore.RecordAudit: the length limits on action strings are not modelled, since actions are a fixed set; context ids, resource ids and details are not modelled.
- Adapter.GarageAdminClient.Send: a refusal by the client's own input check is one of its failures without effect.
- Handlers.EventsAreTransactions: authentication, the region and scope checks before prepare, and the mapping from errors to HTTP statuses and codes are not modelled; a failed operation stores some response marked failed.
- A Garage call that was answered is not carried out a second time.
- Read-only endpoints, except as events that append audit events and move usage columns.
- JWT, HMAC, AES-GCM and SHA-256, HTTP routing, JSON, metrics, configuration and start-up.
- Garage's own replication and S3 behaviour, deployment templates and scripts.
