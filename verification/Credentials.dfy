/**
 Cloud clients per credentials secret, cached under a mutex. The secret is read before the lock is
 taken, so other calls and rotations may come in between: `secret` is what this call read, at any
 earlier time, and the cache is whatever the calls before left.
 */
module Credentials {
  import opened Prelude

  datatype Keys = Keys(clientId: string, clientSecret: string, baseURL: string)

  datatype Secret = Secret(version: string, keys: Keys)

  datatype Cached<+C> = Cached(version: string, client: C)

  /** What a factory without a cache would answer. */
  function Uncached<C>(global: Option<C>, build: Keys -> Option<C>, name: string, secret: Option<Secret>): Result<C> {
    if name == "" then
      if global.Some? then Ok(global.value) else Err
    else if secret.None? || secret.value.keys.clientId == "" || secret.value.keys.clientSecret == "" then Err
    else
      var c := build(secret.value.keys);
      if c.Some? then Ok(c.value) else Err
  }

  class SecretFactory<C> {
    const global: Option<C>
    const build: Keys -> Option<C>
    /** What each version of each secret held. */
    ghost const data: (string, string) -> Keys
    var cache: map<string, Cached<C>>

    constructor (global: Option<C>, build: Keys -> Option<C>, ghost data: (string, string) -> Keys)
      ensures Valid() && this.global == global && this.build == build && this.data == data
    {
      this.global, this.build, this.data, this.cache := global, build, data, map[];
    }

    /** Every cached client was built from what its version of the secret held. */
    ghost predicate Valid()
      reads this
    {
      forall k :: k in cache ==> build(data(k, cache[k].version)) == Some(cache[k].client)
    }

    method ClientFor(ns: string, name: string, secret: Option<Secret>) returns (r: Result<C>)
      requires Valid()
      requires secret.Some? ==> secret.value.keys == data(ns + "/" + name, secret.value.version)
      modifies this`cache
      ensures Valid()
      ensures r == Uncached(global, build, name, secret)
      ensures r.Err? ==> cache == old(cache)
      ensures r.Ok? && name != "" ==> cache == old(cache)[ns + "/" + name := Cached(secret.value.version, r.value)]
    {
      if name == "" {
        return if global.Some? then Ok(global.value) else Err;
      }
      if secret.None? {
        return Err;
      }
      var keys := secret.value.keys;
      if keys.clientId == "" || keys.clientSecret == "" {
        return Err;
      }
      var key := ns + "/" + name;
      if key in cache && cache[key].version == secret.value.version {
        assert cache == cache[key := cache[key]];
        return Ok(cache[key].client);
      }
      var c := build(keys);
      if c.None? {
        return Err;
      }
      cache := cache[key := Cached(secret.value.version, c.value)];
      return Ok(c.value);
    }
  }
}
