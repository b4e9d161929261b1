/** The Garage adapter: what its multi-call operations leave behind, whichever of their calls fail. */
module Adapter {
  import opened Types
  import opened GarageModel

  datatype BackendError = NotFoundError | Unavailable | ConflictError | InvalidResponse

  datatype Reply<+T> = Got(value: T) | Refused(error: BackendError)

  datatype IssuedKey = IssuedKey(keyId: string, secret: string)

  datatype BucketUsage = BucketUsage(bytes: U64, objects: U64, unfinishedUploadBytes: U64, unfinishedUploads: U64)

  const U64_MAX := 0xFFFF_FFFF_FFFF_FFFF

  function SaturatingAdd(a: U64, b: U64): U64 {
    if a + b <= U64_MAX then a + b else U64_MAX
  }

  /** The two counters Garage keeps for unfinished uploads, joined. */
  function UsageOf(bytes: U64, objects: U64, uploadBytes: U64, uploads: U64, multipartUploads: U64): BucketUsage {
    BucketUsage(bytes, objects, uploadBytes, SaturatingAdd(uploads, multipartUploads))
  }

  predicate BucketIsEmpty(usage: BucketUsage) {
    usage.bytes == 0 && usage.objects == 0 && usage.unfinishedUploadBytes == 0 && usage.unfinishedUploads == 0
  }

  /** Joining the counters hides no unfinished upload, however large they are. */
  lemma EmptyMeansNothingLeft(bytes: U64, objects: U64, uploadBytes: U64, uploads: U64, multipartUploads: U64)
    ensures BucketIsEmpty(UsageOf(bytes, objects, uploadBytes, uploads, multipartUploads)) <==>
            bytes == 0 && objects == 0 && uploadBytes == 0 && uploads == 0 && multipartUploads == 0
  {
  }

  /** The call was lost, or took effect with some answer. */
  ghost predicate MayFollow(g: Garage, call: Call, h: Garage) {
    h == g || exists answer {:trigger After(g, call, answer)} :: Answers(g, call, answer) && h == After(g, call, answer)
  }

  lemma CarriedOut(g: Garage, call: Call, answer: Answer)
    requires Answers(g, call, answer)
    ensures MayFollow(g, call, After(g, call, answer))
  {
  }

  /** The administration client. A call that is reported as failed may still have taken effect. */
  class GarageAdminClient {
    var garage: Garage

    constructor (initial: Garage)
      ensures garage == initial
    {
      garage := initial;
    }

    method Send(call: Call) returns (reply: Reply<Answer>)
      modifies this
      ensures reply.Got? ==>
                && reply.value != Missing && Answers(old(garage), call, reply.value)
                && garage == After(old(garage), call, reply.value)
      ensures reply.Refused? ==> MayFollow(old(garage), call, garage)
      ensures reply == Refused(NotFoundError) ==> garage == old(garage) && Answers(garage, call, Missing)
    {
      var answer: Answer := *;
      var heard: bool := *;
      var carriedOut: bool := *;
      var conflict: bool := *;
      reply := Refused(if conflict then ConflictError else Unavailable);
      if Answers(garage, call, answer) {
        if heard {
          reply := if answer == Missing then Refused(NotFoundError) else Got(answer);
          garage := if answer == Missing then garage else After(garage, call, answer);
        } else if carriedOut {
          CarriedOut(garage, call, answer);
          garage := After(garage, call, answer);
        }
      }
    }
  }

  // ---------------------------------------------------------------- frames

  /** Only keys of this name differ, and every new key carries it. */
  ghost predicate OnlyKeysNamed(g: Garage, h: Garage, name: KeyName) {
    && h.buckets == g.buckets
    && (forall id | id in h.keys && id !in g.keys :: h.keys[id].name == name)
    && (forall id | id in g.keys ::
          && id in h.keys && h.keys[id].name == g.keys[id].name
          && (g.keys[id].name != name ==> h.keys[id] == g.keys[id]))
  }

  /** Only the rights of one key on one bucket differ. */
  ghost predicate OnlyRights(g: Garage, h: Garage, keyId: string, bucketId: string) {
    && h.buckets == g.buckets
    && h.keys.Keys == g.keys.Keys
    && (forall id | id in g.keys && id != keyId :: h.keys[id] == g.keys[id])
    && (keyId in g.keys ==>
          && h.keys[keyId].name == g.keys[keyId].name && h.keys[keyId].alive == g.keys[keyId].alive
          && (forall b | b != bucketId :: RightsOn(h.keys[keyId].rights, b) == RightsOn(g.keys[keyId].rights, b)))
  }

  /** These rights on one bucket and none on any other. */
  ghost predicate RightsExactly(held: map<string, Rights>, bucketId: string, rights: Rights) {
    forall b :: RightsOn(held, b) == if b == bucketId then rights else NO_RIGHTS
  }

  ghost predicate RightsAtMost(held: map<string, Rights>, bucketId: string, rights: Rights) {
    forall b :: Within(RightsOn(held, b), if b == bucketId then rights else NO_RIGHTS)
  }

  /** Some keys of a name were deleted; the live ones left are as they were, and all among those still to come. */
  ghost predicate Sweeping(g: Garage, h: Garage, name: KeyName, left: seq<string>) {
    && OnlyKeysNamed(g, h, name)
    && h.keys.Keys == g.keys.Keys
    && (forall id | Named(h, id, name) :: id in left && h.keys[id] == g.keys[id])
  }

  lemma Swept(g: Garage, before: Garage, after: Garage, name: KeyName, left: seq<string>)
    requires Sweeping(g, before, name, left) && left != [] && Named(g, left[0], name)
    requires after.buckets == before.buckets && after.keys.Keys == before.keys.Keys
    requires forall id | id in after.keys && id != left[0] :: after.keys[id] == before.keys[id]
    requires left[0] in after.keys ==>
               after.keys[left[0]] in {before.keys[left[0]], before.keys[left[0]].(alive := false)}
    ensures Sweeping(g, after, name, left)
    ensures !KeyLive(after, left[0]) ==> Sweeping(g, after, name, left[1..])
  {
    forall id | Named(after, id, name) ensures Named(before, id, name) {
    }
  }

  class GarageAdapter {
    const client: GarageAdminClient

    constructor (c: GarageAdminClient)
      ensures client == c
    {
      client := c;
    }

    /** Replaces all rights of a key on a bucket. Whatever fails, the key never ends up with a right that it neither had
        before nor was asked for, and once the first call took effect it has no more than was asked for. */
    method SetBucketKeyPermissions(bucketId: string, keyId: string, rights: Rights) returns (reply: Reply<()>)
      modifies client
      ensures OnlyRights(old(client.garage), client.garage, keyId, bucketId)
      ensures reply.Got? ==>
                KeyLive(client.garage, keyId) && RightsOn(client.garage.keys[keyId].rights, bucketId) == rights
      ensures keyId in client.garage.keys && client.garage.keys[keyId] != old(client.garage).keys[keyId] ==>
                Within(RightsOn(client.garage.keys[keyId].rights, bucketId), rights)
    {
      var revoked := client.Send(DenyBucketKey(bucketId, keyId, ALL_RIGHTS));
      if revoked.Refused? {
        return Refused(revoked.error);
      }
      if rights == NO_RIGHTS {
        return Got(());
      }
      var allowed := client.Send(AllowBucketKey(bucketId, keyId, rights));
      reply := if allowed.Refused? then Refused(allowed.error) else Got(());
    }

    /** Deleting a key that is already gone counts as success. */
    method RevokeCredential(keyId: string) returns (reply: Reply<()>)
      modifies client
      ensures reply.Got? ==> !KeyLive(client.garage, keyId)
      ensures client.garage.buckets == old(client.garage).buckets && client.garage.keys.Keys == old(client.garage).keys.Keys
      ensures forall id | id in client.garage.keys && id != keyId ::
                client.garage.keys[id] == old(client.garage).keys[id]
      ensures keyId in client.garage.keys ==>
                || client.garage.keys[keyId] == old(client.garage).keys[keyId]
                || client.garage.keys[keyId] == old(client.garage).keys[keyId].(alive := false)
    {
      var deleted := client.Send(DeleteKey(keyId));
      reply := if deleted.Refused? && deleted.error != NotFoundError then Refused(deleted.error) else Got(());
    }

    /** Deletes every key of a name, including those an earlier attempt left behind. */
    method Sweep(name: KeyName) returns (reply: Reply<()>)
      modifies client
      ensures OnlyKeysNamed(old(client.garage), client.garage, name)
      ensures client.garage.keys.Keys == old(client.garage).keys.Keys
      ensures forall id | Named(client.garage, id, name) ::
                reply.Refused? && client.garage.keys[id] == old(client.garage).keys[id]
    {
      var listed := client.Send(ListKeys(name));
      if listed.Refused? {
        return Refused(listed.error);
      }
      var existing := listed.value.keyIds;
      var i := 0;
      while i < |existing|
        invariant 0 <= i <= |existing|
        invariant Sweeping(old(client.garage), client.garage, name, existing[i..])
      {
        ghost var before := client.garage;
        assert existing[i] in existing && existing[i..] == [existing[i]] + existing[i + 1..];
        var deleted := RevokeCredential(existing[i]);
        Swept(old(client.garage), before, client.garage, name, existing[i..]);
        if deleted.Refused? {
          return Refused(deleted.error);
        }
        i := i + 1;
      }
      reply := Got(());
    }

    /** Deletes a key if possible. */
    method Discard(keyId: string)
      modifies client
      ensures client.garage.buckets == old(client.garage).buckets && client.garage.keys.Keys == old(client.garage).keys.Keys
      ensures forall id | id in client.garage.keys ::
                && client.garage.keys[id].rights == old(client.garage).keys[id].rights
                && client.garage.keys[id].name == old(client.garage).keys[id].name
                && (id != keyId ==> client.garage.keys[id] == old(client.garage).keys[id])
    {
      var ignored := client.Send(DeleteKey(keyId));
    }

    /** Makes a key and gives it its rights; a key that could not be given them is deleted again if possible. */
    method IssueKey(bucketId: string, name: KeyName, permissions: BucketPermissions) returns (reply: Reply<IssuedKey>)
      modifies client
      ensures OnlyKeysNamed(old(client.garage), client.garage, name)
      ensures forall id | id in old(client.garage).keys :: client.garage.keys[id] == old(client.garage).keys[id]
      ensures forall id | id in client.garage.keys && id !in old(client.garage).keys ::
                RightsAtMost(client.garage.keys[id].rights, bucketId, RightsFor(permissions))
      ensures reply.Got? ==>
                && reply.value.keyId !in old(client.garage).keys
                && Named(client.garage, reply.value.keyId, name)
                && RightsExactly(client.garage.keys[reply.value.keyId].rights, bucketId, RightsFor(permissions))
                && client.garage.keys.Keys == old(client.garage).keys.Keys + {reply.value.keyId}
    {
      var made := client.Send(CreateKey(name));
      if made.Refused? {
        return Refused(made.error);
      }
      var keyId := made.value.keyId;
      if made.value.secret.None? {
        Discard(keyId);
        return Refused(InvalidResponse);
      }
      var permitted := SetBucketKeyPermissions(bucketId, keyId, RightsFor(permissions));
      assert RightsAtMost(client.garage.keys[keyId].rights, bucketId, RightsFor(permissions));
      if permitted.Refused? {
        Discard(keyId);
        return Refused(permitted.error);
      }
      reply := Got(IssuedKey(keyId, made.value.secret.value));
    }

    /** Issues the one key of a name. On success exactly one live key of the name is left: a new one, with exactly the
        requested rights on the bucket and none elsewhere. On failure every live key of the name is an old one as it was,
        or a new one with no right beyond the requested ones. Keys of other names are never touched. */
    method CreateCredential(bucketId: string, name: KeyName, permissions: BucketPermissions)
      returns (reply: Reply<IssuedKey>)
      modifies client
      ensures OnlyKeysNamed(old(client.garage), client.garage, name)
      ensures reply.Got? ==>
                && reply.value.keyId !in old(client.garage).keys
                && Named(client.garage, reply.value.keyId, name)
                && (forall id | Named(client.garage, id, name) :: id == reply.value.keyId)
                && RightsExactly(client.garage.keys[reply.value.keyId].rights, bucketId, RightsFor(permissions))
      ensures reply.Refused? ==>
                forall id | Named(client.garage, id, name) ::
                  if id in old(client.garage).keys then client.garage.keys[id] == old(client.garage).keys[id]
                  else RightsAtMost(client.garage.keys[id].rights, bucketId, RightsFor(permissions))
    {
      var swept := Sweep(name);
      if swept.Refused? {
        return Refused(swept.error);
      }
      reply := IssueKey(bucketId, name, permissions);
    }

    /** Likewise for buckets. */
    method DeleteBucket(bucketId: string) returns (reply: Reply<()>)
      modifies client
      ensures reply.Got? ==> !BucketLive(client.garage, bucketId)
      ensures client.garage.keys == old(client.garage).keys && client.garage.buckets.Keys == old(client.garage).buckets.Keys
      ensures forall b | b in client.garage.buckets && b != bucketId ::
                client.garage.buckets[b] == old(client.garage).buckets[b]
    {
      var deleted := client.Send(Call.DeleteBucket(bucketId));
      reply := if deleted.Refused? && deleted.error != NotFoundError then Refused(deleted.error) else Got(());
    }

    /** Finds or makes the bucket of a spec and sets its quotas. On success the bucket is live, carries the alias and has
        exactly the quotas; it is the recorded bucket when there is one. No other bucket that existed before is touched. */
    method ReconcileBucket(recorded: Option<string>, alias: string, quotas: Quotas) returns (reply: Reply<string>)
      modifies client
      ensures reply.Got? ==>
                && BucketLive(client.garage, reply.value)
                && alias in client.garage.buckets[reply.value].aliases
                && client.garage.buckets[reply.value].quotas == Some(quotas)
                && (recorded.Some? ==> reply.value == recorded.value)
      ensures client.garage.keys == old(client.garage).keys
      ensures forall b | b in old(client.garage).buckets ::
                && b in client.garage.buckets
                && (client.garage.buckets[b] != old(client.garage).buckets[b] ==>
                      && alias in old(client.garage).buckets[b].aliases
                      && (recorded.Some? ==> b == recorded.value)
                      && client.garage.buckets[b] == old(client.garage).buckets[b].(quotas := Some(quotas)))
    {
      var bucketId;
      if recorded.Some? {
        var found := client.Send(GetBucket(recorded.value));
        if found.Refused? {
          return Refused(found.error);
        }
        if alias !in found.value.aliases {
          return Refused(ConflictError);
        }
        bucketId := recorded.value;
      } else {
        var found := client.Send(GetBucketByAlias(alias));
        if found.Refused? && found.error != NotFoundError {
          return Refused(found.error);
        }
        if found.Refused? {
          var made := client.Send(CreateBucket(alias));
          if made.Refused? {
            return Refused(made.error);
          }
          bucketId := made.value.bucketId;
        } else {
          bucketId := found.value.bucketId;
        }
      }
      var updated := client.Send(UpdateQuotas(bucketId, quotas));
      reply := if updated.Refused? then Refused(updated.error) else Got(bucketId);
    }
  }
}
