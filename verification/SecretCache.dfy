/** The secret store of the gateway plugin: a vault client (possibly absent) in front
    of an in-memory cache with one shared refresh timestamp, and the two messages
    `role:azure,cmd:get-secret` and `role:azure,cmd:list-secrets` that answer from it. */
module SecretCache {
  import opened Js
  import opened Vault

  /** Replies of the `role:azure` messages. */
  datatype SecretReply =
    | Value(value: Json)                         // { ok: true, value }
    | Names(count: nat, names: set<string>)      // { ok: true, count, names }
    | NotOk(why: string)                         // { ok: false, why }

  class SecretStore {
    /** Whether the vault client was constructed. */
    const hasClient: bool
    /** `azure.cacheSecrets` */
    const cacheSecrets: bool
    /** `azure.cacheTimeout`, in milliseconds */
    const cacheTimeout: int
    /** `secretsCache` */
    var cache: map<string, Json>
    /** `lastCacheTime`: one timestamp for all entries */
    var lastCacheTime: int

    /** Plugin start: a client exists only when a vault URL is configured and its
        construction did not throw; the cache starts empty with timestamp 0. */
    constructor (keyVaultUrl: string, clientBuilt: bool, cacheSecrets: bool, cacheTimeout: int)
      ensures hasClient <==> keyVaultUrl != "" && clientBuilt
      ensures this.cacheSecrets == cacheSecrets && this.cacheTimeout == cacheTimeout
      ensures cache == map[] && lastCacheTime == 0
    {
      hasClient := keyVaultUrl != "" && clientBuilt;
      this.cacheSecrets := cacheSecrets;
      this.cacheTimeout := cacheTimeout;
      cache := map[];
      lastCacheTime := 0;
    }

    /** The cache is younger than the timeout at time `now`. */
    predicate Fresh(now: int)
      reads this
    {
      now - lastCacheTime < cacheTimeout
    }

    /** `getSecret(name)` at time `now` answers from the cache: caching is on, the
        cached entry is truthy (so an empty string or an undefined value is a miss)
        and the cache is fresh. */
    predicate Hit(name: string, now: int)
      reads this
    {
      cacheSecrets && name in cache && Truthy(cache[name]) && Fresh(now)
    }

    /** `getSecrets()` at time `now` answers with the whole cache: caching is on, the
        cache holds at least one key (however it was filled) and it is fresh. */
    predicate Serving(now: int)
      reads this
    {
      cacheSecrets && |cache| > 0 && Fresh(now)
    }

    /** `getSecret(name)`. `now` is the clock read by the freshness test, `later` the
        one read after the vault answered; `queried` says whether the vault was asked.
        The result is Null when the client is absent or the call threw. */
    method GetSecret(name: string, vault: Vault, now: int, later: int) returns (value: Json, queried: bool)
      modifies this
      ensures !hasClient ==> value == Null && !queried && unchanged(this)
      ensures hasClient && old(Hit(name, now)) ==>
        value == old(cache[name]) && !queried && unchanged(this)
      ensures hasClient && !old(Hit(name, now)) ==>
        queried && value == (match Get(vault, name) case Some(v) => v case None => Null)
      ensures hasClient && !old(Hit(name, now)) && cacheSecrets && Get(vault, name).Some? ==>
        cache == old(cache)[name := Get(vault, name).value] && lastCacheTime == later
      ensures hasClient && !old(Hit(name, now)) && (!cacheSecrets || Get(vault, name).None?) ==>
        unchanged(this)
    {
      if !hasClient {
        return Null, false;
      }
      if Hit(name, now) {
        return cache[name], false;
      }
      queried := true;
      var got := Get(vault, name);
      if got.None? {
        return Null, queried;
      }
      if cacheSecrets {
        cache := cache[name := got.value];
        lastCacheTime := later;
      }
      value := got.value;
    }

    /** `getSecrets()` at time `now`. The result is empty when the client is absent or
        any vault call threw; a failed refresh leaves the cache as it was. */
    method GetSecrets(vault: Vault, now: int) returns (secrets: map<string, Json>, queried: bool)
      modifies this
      ensures !hasClient ==> secrets == map[] && !queried && unchanged(this)
      ensures hasClient && old(Serving(now)) ==> secrets == old(cache) && !queried && unchanged(this)
      ensures hasClient && !old(Serving(now)) ==>
        queried && secrets == (match Fetched(vault) case Some(m) => m case None => map[])
      ensures hasClient && !old(Serving(now)) && cacheSecrets && Fetched(vault).Some? ==>
        cache == secrets && lastCacheTime == now
      ensures hasClient && !old(Serving(now)) && (!cacheSecrets || Fetched(vault).None?) ==>
        unchanged(this)
    {
      if !hasClient {
        return map[], false;
      }
      if Serving(now) {
        return cache, false;
      }
      queried := true;
      var fetched := FetchAll(vault);
      if fetched.None? {
        return map[], queried;
      }
      secrets := fetched.value;
      if cacheSecrets {
        cache := secrets;
        lastCacheTime := now;
      }
    }

    /** `role:azure,cmd:get-secret`: a missing or empty name is refused before any
        lookup; a Null lookup result is reported as not found; otherwise the value
        (possibly undefined) is returned. */
    method GetSecretMessage(name: Option<string>, vault: Vault, now: int, later: int) returns (reply: SecretReply)
      modifies this
      ensures (name.None? || name.value == "") ==> reply == NotOk("missing-secret-name") && unchanged(this)
      ensures name.Some? && name.value != "" ==>
        (reply == NotOk("secret-not-found") <==>
          !hasClient || (!old(Hit(name.value, now)) && Get(vault, name.value).None?))
      ensures name.Some? && name.value != "" && reply != NotOk("secret-not-found") ==>
        reply == Value(if old(Hit(name.value, now)) then old(cache[name.value]) else Get(vault, name.value).value)
      ensures (name.Some? && name.value != "" && hasClient && !old(Hit(name.value, now))
               && cacheSecrets && Get(vault, name.value).Some?) ==>
        cache == old(cache)[name.value := Get(vault, name.value).value] && lastCacheTime == later
      ensures (name.None? || name.value == "" || !hasClient || old(Hit(name.value, now))
        || !cacheSecrets || Get(vault, name.value).None?) ==> unchanged(this)
    {
      if name.None? || name.value == "" {
        return NotOk("missing-secret-name");
      }
      var value, _ := GetSecret(name.value, vault, now, later);
      if value == Null {
        return NotOk("secret-not-found");
      }
      reply := Value(value);
    }

    /** `role:azure,cmd:list-secrets`: always ok; `count` is the number of names, which
        are the keys of what `getSecrets()` returned. */
    method ListSecretsMessage(vault: Vault, now: int) returns (reply: SecretReply)
      modifies this
      ensures reply.Names? && reply.count == |reply.names|
      ensures !hasClient ==> reply.names == {} && unchanged(this)
      ensures hasClient && old(Serving(now)) ==> reply.names == old(cache).Keys && unchanged(this)
      ensures hasClient && !old(Serving(now)) ==>
        reply.names == (match Fetched(vault) case Some(m) => m.Keys case None => {})
      ensures hasClient && !old(Serving(now)) && cacheSecrets && Fetched(vault).Some? ==>
        cache == Fetched(vault).value && lastCacheTime == now
      ensures hasClient && !old(Serving(now)) && (!cacheSecrets || Fetched(vault).None?) ==>
        unchanged(this)
    {
      var secrets, _ := GetSecrets(vault, now);
      reply := Names(|secrets.Keys|, secrets.Keys);
    }
  }

  /** The cache window for single lookups, with caching on and timeout `t`: the first
      lookup asks the vault, a second one less than `t` milliseconds later does not, one
      `t` milliseconds later asks again; a cached empty string is always a miss. */
  method LookupWindowScenario(t: int, t0: int)
    requires t > 0
  {
    var vault := Vault(true, [], map["k1" := Some("v1"), "k3" := Some("")]);
    var store := new SecretStore("https://vault.example", true, true, t);
    var v, queried := store.GetSecret("k1", vault, t0, t0);
    assert v == Str("v1") && queried;
    v, queried := store.GetSecret("k1", vault, t0 + t - 1, t0 + t - 1);
    assert v == Str("v1") && !queried;
    v, queried := store.GetSecret("k1", vault, t0 + t, t0 + t);
    assert queried;
    v, queried := store.GetSecret("k3", vault, t0 + t, t0 + t);
    v, queried := store.GetSecret("k3", vault, t0 + t, t0 + t);
    assert v == Str("") && queried;
  }

  /** A single lookup refreshes the timestamp shared by every entry, so a bulk fetch
      then serves a cache that only single lookups filled, without asking the vault. */
  method BulkServesLookupCacheScenario(t: int, t0: int)
    requires t > 0
  {
    var vault := Vault(true, ["k1", "k2"], map["k1" := Some("v1"), "k2" := Some("v2")]);
    var store := new SecretStore("https://vault.example", true, true, t);
    var v, queried := store.GetSecret("k1", vault, t0, t0);
    var all, bulkQueried := store.GetSecrets(vault, t0 + t - 1);
    assert all == map["k1" := Str("v1")] && !bulkQueried;
  }
}
