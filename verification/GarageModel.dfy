/** The Garage backend, as its administration API shows it: keys and buckets whose identifiers are never used twice. */
module GarageModel {
  import opened Types

  /** Key names: the one the service derives from a service and a credential id, or anything else. */
  datatype KeyName = Deterministic(serviceId: Uuid, credentialId: Uuid) | OtherName(text: string)

  datatype Rights = Rights(read: bool, write: bool, owner: bool)

  const NO_RIGHTS := Rights(false, false, false)
  const ALL_RIGHTS := Rights(true, true, true)

  datatype Quotas = Quotas(maxSize: U64, maxObjects: U64)

  /** A key; a deleted one stays behind as a tombstone so that its identifier is not used again. */
  datatype GarageKey = GarageKey(name: KeyName, rights: map<string, Rights>, alive: bool)

  datatype GarageBucket = GarageBucket(aliases: set<string>, quotas: Option<Quotas>, alive: bool)

  datatype Garage = Garage(keys: map<string, GarageKey>, buckets: map<string, GarageBucket>)

  datatype Call =
    | GetBucket(bucketId: string)
    | GetBucketByAlias(alias: string)
    | CreateBucket(alias: string)
    | UpdateQuotas(bucketId: string, quotas: Quotas)
    | DeleteBucket(bucketId: string)
    | ListKeys(name: KeyName)
    | CreateKey(name: KeyName)
    | DeleteKey(keyId: string)
    | DenyBucketKey(bucketId: string, keyId: string, rights: Rights)
    | AllowBucketKey(bucketId: string, keyId: string, rights: Rights)

  /** A reply other than an error; `Missing` is the 404 that the callers tell apart from other errors. */
  datatype Answer =
    | Done
    | Missing
    | Found(bucketId: string, aliases: set<string>, empty: bool)
    | MadeBucket(bucketId: string)
    | Listed(keyIds: seq<string>)
    | MadeKey(keyId: string, secret: Option<string>)

  predicate KeyLive(g: Garage, id: string) {
    id in g.keys && g.keys[id].alive
  }

  predicate KeyDead(g: Garage, id: string) {
    id in g.keys && !g.keys[id].alive
  }

  predicate Named(g: Garage, id: string, name: KeyName) {
    KeyLive(g, id) && g.keys[id].name == name
  }

  predicate BucketLive(g: Garage, id: string) {
    id in g.buckets && g.buckets[id].alive
  }

  predicate BucketDead(g: Garage, id: string) {
    id in g.buckets && !g.buckets[id].alive
  }

  function RightsOn(rights: map<string, Rights>, bucketId: string): Rights {
    if bucketId in rights then rights[bucketId] else NO_RIGHTS
  }

  function Without(rights: Rights, denied: Rights): Rights {
    Rights(rights.read && !denied.read, rights.write && !denied.write, rights.owner && !denied.owner)
  }

  function With(rights: Rights, allowed: Rights): Rights {
    Rights(rights.read || allowed.read, rights.write || allowed.write, rights.owner || allowed.owner)
  }

  predicate Within(rights: Rights, bound: Rights) {
    (rights.read ==> bound.read) && (rights.write ==> bound.write) && (rights.owner ==> bound.owner)
  }

  function RightsFor(permissions: BucketPermissions): Rights {
    Rights(permissions.read, permissions.write, false)
  }

  /** No live bucket goes by the alias. */
  predicate Unaliased(g: Garage, alias: string) {
    forall b | b in g.buckets :: BucketLive(g, b) ==> alias !in g.buckets[b].aliases
  }

  /** The answer is one Garage can give to the call in this state. */
  predicate Answers(g: Garage, call: Call, answer: Answer) {
    match call
    case GetBucket(id) =>
      if BucketLive(g, id) then answer.Found? && answer.bucketId == id && answer.aliases == g.buckets[id].aliases
      else answer == Missing
    case GetBucketByAlias(alias) =>
      || (&& answer.Found? && BucketLive(g, answer.bucketId)
          && alias in g.buckets[answer.bucketId].aliases && answer.aliases == g.buckets[answer.bucketId].aliases)
      || (answer == Missing && Unaliased(g, alias))
    case CreateBucket(alias) =>
      answer.MadeBucket? && answer.bucketId !in g.buckets && Unaliased(g, alias)
    case UpdateQuotas(id, _) => answer == if BucketLive(g, id) then Done else Missing
    case DeleteBucket(id) => answer == if BucketLive(g, id) then Done else Missing
    case ListKeys(name) =>
      && answer.Listed?
      && (forall id | id in answer.keyIds :: Named(g, id, name))
      && (forall id | id in g.keys :: Named(g, id, name) ==> id in answer.keyIds)
    case CreateKey(_) => answer.MadeKey? && answer.keyId !in g.keys
    case DeleteKey(id) => answer == if KeyLive(g, id) then Done else Missing
    case DenyBucketKey(b, id, _) => answer == if BucketLive(g, b) && KeyLive(g, id) then Done else Missing
    case AllowBucketKey(b, id, _) => answer == if BucketLive(g, b) && KeyLive(g, id) then Done else Missing
  }

  /** Garage after the call took effect with this answer. */
  function After(g: Garage, call: Call, answer: Answer): Garage {
    match call
    case CreateBucket(alias) =>
      if answer.MadeBucket? then g.(buckets := g.buckets[answer.bucketId := GarageBucket({alias}, None, true)]) else g
    case UpdateQuotas(id, quotas) =>
      if BucketLive(g, id) then g.(buckets := g.buckets[id := g.buckets[id].(quotas := Some(quotas))]) else g
    case DeleteBucket(id) =>
      if BucketLive(g, id) then g.(buckets := g.buckets[id := g.buckets[id].(alive := false)]) else g
    case CreateKey(name) =>
      if answer.MadeKey? then g.(keys := g.keys[answer.keyId := GarageKey(name, map[], true)]) else g
    case DeleteKey(id) =>
      if KeyLive(g, id) then g.(keys := g.keys[id := g.keys[id].(alive := false)]) else g
    case DenyBucketKey(b, id, rights) =>
      if BucketLive(g, b) && KeyLive(g, id) then SetRights(g, id, b, Without(RightsOn(g.keys[id].rights, b), rights)) else g
    case AllowBucketKey(b, id, rights) =>
      if BucketLive(g, b) && KeyLive(g, id) then SetRights(g, id, b, With(RightsOn(g.keys[id].rights, b), rights)) else g
    case _ => g
  }

  function SetRights(g: Garage, id: string, bucketId: string, rights: Rights): Garage
    requires id in g.keys
  {
    g.(keys := g.keys[id := g.keys[id].(rights := g.keys[id].rights[bucketId := rights])])
  }

  // ---------------------------------------------------------------- what no call undoes

  /** Identifiers stay known, names and aliases do not change, and the dead stay dead. */
  ghost predicate Ages(g: Garage, h: Garage) {
    && (forall id | id in g.keys ::
          id in h.keys && h.keys[id].name == g.keys[id].name && (h.keys[id].alive ==> g.keys[id].alive))
    && (forall b | b in g.buckets ::
          b in h.buckets && h.buckets[b].aliases == g.buckets[b].aliases && (h.buckets[b].alive ==> g.buckets[b].alive))
  }

  lemma CallsAge(g: Garage, call: Call, answer: Answer)
    requires Answers(g, call, answer)
    ensures Ages(g, After(g, call, answer))
  {
  }

  /** After a deletion was answered, whether done or missing, the key is dead. */
  lemma DeletedKeyIsDead(g: Garage, id: string, answer: Answer)
    requires id in g.keys && Answers(g, DeleteKey(id), answer)
    ensures KeyDead(After(g, DeleteKey(id), answer), id)
  {
  }

  lemma DeletedBucketIsDead(g: Garage, id: string, answer: Answer)
    requires id in g.buckets && Answers(g, DeleteBucket(id), answer)
    ensures BucketDead(After(g, DeleteBucket(id), answer), id)
  {
  }
}
