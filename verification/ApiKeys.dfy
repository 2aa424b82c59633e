/** API keys and the index from secret hashes to keys. Secrets are represented by their hashes. */
module ApiKeys {
  import opened Wrappers
  import opened Models

  datatype ApiKey = ApiKey(id: Id, businessId: Id, name: string, secretHash: string, createdBy: Id,
                           createdAt: Time, revokedAt: Option<Time>)

  /** apiKeys and apiKeyHash. */
  datatype Keys = Keys(byId: map<Id, ApiKey>, byHash: map<string, Id>)

  const NO_KEYS := Keys(map[], map[])

  /** The hash index is exactly the inverse of the keys' hashes. */
  ghost predicate KeysOk(k: Keys) {
    && (forall id :: id in k.byId ==>
          k.byId[id].id == id && k.byId[id].secretHash in k.byHash && k.byHash[k.byId[id].secretHash] == id)
    && (forall h :: h in k.byHash ==> k.byHash[h] in k.byId && k.byId[k.byHash[h]].secretHash == h)
  }

  /** A new key: CreateAPIKey, or CreateBusiness for its first key. */
  function WithKey(k: Keys, key: ApiKey): Keys {
    Keys(k.byId[key.id := key], k.byHash[key.secretHash := key.id])
  }

  /** newID and newAPIKey give an unused identifier and a secret nobody has. */
  predicate FreshKey(k: Keys, key: ApiKey) {
    key.id !in k.byId && key.secretHash !in k.byHash && key.revokedAt.None?
  }

  predicate Revocable(k: Keys, businessId: Id, id: Id) {
    id in k.byId && k.byId[id].businessId == businessId
  }

  /** RevokeAPIKey: the key is marked, once; the index is left alone. */
  function WithRevoked(k: Keys, businessId: Id, id: Id, now: Time): Keys {
    if Revocable(k, businessId, id) && k.byId[id].revokedAt.None?
    then k.(byId := k.byId[id := k.byId[id].(revokedAt := Some(now))])
    else k
  }

  /** AuthenticateAPIKey, up to the lookup of the business. */
  function Authenticated(k: Keys, hash: string): Result<ApiKey> {
    if hash !in k.byHash || k.byHash[hash] !in k.byId then Failure(Unauthorized)
    else if k.byId[k.byHash[hash]].revokedAt.Some? then Failure(Unauthorized)
    else Success(k.byId[k.byHash[hash]])
  }

  lemma CreationKeepsOk(k: Keys, key: ApiKey)
    requires KeysOk(k) && FreshKey(k, key)
    ensures KeysOk(WithKey(k, key)) && KeysEvolve(k, WithKey(k, key))
  {
  }

  lemma RevocationKeepsOk(k: Keys, businessId: Id, id: Id, now: Time)
    requires KeysOk(k)
    ensures KeysOk(WithRevoked(k, businessId, id, now)) && KeysEvolve(k, WithRevoked(k, businessId, id, now))
  {
  }

  /** A hash authenticates exactly the unrevoked key that has it. */
  lemma AuthenticatesExactly(k: Keys, hash: string, key: ApiKey)
    requires KeysOk(k)
    ensures Authenticated(k, hash) == Success(key) <==>
            key.id in k.byId && k.byId[key.id] == key && key.secretHash == hash && key.revokedAt.None?
  {
  }

  /** Keys are never lost, and change only by being revoked. */
  ghost predicate KeysEvolve(k: Keys, k': Keys) {
    && (forall id :: id in k.byId ==>
          id in k'.byId && k'.byId[id] == k.byId[id].(revokedAt := k'.byId[id].revokedAt)
          && (k.byId[id].revokedAt.Some? ==> k'.byId[id] == k.byId[id]))
    && (forall h :: h in k.byHash ==> h in k'.byHash && k'.byHash[h] == k.byHash[h])
  }

  lemma KeysEvolveItself(k: Keys)
    ensures KeysEvolve(k, k)
  {
  }

  lemma KeysEvolveTransitive(a: Keys, b: Keys, c: Keys)
    requires KeysEvolve(a, b) && KeysEvolve(b, c)
    ensures KeysEvolve(a, c)
  {
    forall id | id in a.byId
      ensures id in b.byId && id in c.byId && c.byId[id] == a.byId[id].(revokedAt := c.byId[id].revokedAt)
    {
      assert b.byId[id] == a.byId[id].(revokedAt := b.byId[id].revokedAt);
    }
  }

  /** What has been revoked does not authenticate again. */
  lemma RevokedStaysRevoked(k: Keys, k': Keys, hash: string)
    requires KeysOk(k) && KeysEvolve(k, k') && hash in k.byHash && Authenticated(k, hash).Failure?
    ensures Authenticated(k', hash).Failure?
  {
  }

  // ---------- rebuilding the index ----------

  ghost function HashesOf(keys: map<Id, ApiKey>): set<string> {
    set id | id in keys :: keys[id].secretHash
  }

  /** rebuildIndexesLocked: some key of each hash. */
  ghost function RebuiltHashes(keys: map<Id, ApiKey>): map<string, Id> {
    map h | h in HashesOf(keys) :: var id :| id in keys && keys[id].secretHash == h; keys[id].id
  }

  ghost predicate HashIndexed(keys: map<Id, ApiKey>, hash: string, id: Id) {
    exists k :: k in keys && keys[k].secretHash == hash && keys[k].id == id
  }

  /** Whatever order the rebuilding loop visits keys in, it restores the index that was maintained. */
  lemma HashesAreRestored(k: Keys, index: map<string, Id>)
    requires KeysOk(k)
    requires forall id :: id in k.byId ==> k.byId[id].secretHash in index
    requires forall h :: h in index ==> HashIndexed(k.byId, h, index[h])
    ensures index == k.byHash
  {
    forall h | h in index ensures h in k.byHash && k.byHash[h] == index[h] {
      var id :| id in k.byId && k.byId[id].secretHash == h && k.byId[id].id == index[h];
    }
    forall h | h in k.byHash ensures h in index {
      assert k.byId[k.byHash[h]].secretHash == h;
    }
  }

  lemma HashesAreMaintained(k: Keys)
    requires KeysOk(k)
    ensures RebuiltHashes(k.byId) == k.byHash
  {
    var rebuilt := RebuiltHashes(k.byId);
    forall h | h in rebuilt ensures HashIndexed(k.byId, h, rebuilt[h]) {
      var id :| id in k.byId && k.byId[id].secretHash == h && rebuilt[h] == k.byId[id].id;
    }
    HashesAreRestored(k, rebuilt);
  }
}
