/**
 The URL cache. Redis holds entries under fingerprints of the URLs; the digest is a parameter of the
 cache, taken to be injective. `contents` is the cache as its users think of it, by URL.
 */
module UrlCache {
  import opened Base
  import opened JobStore

  type Contents = map<string, seq<StoredItem>>

  /** What a read of the cache gives. */
  type CacheRead = Option<seq<StoredItem>>

  /** Whether Redis answers the reads and the writes of one call, each by its number. */
  datatype Redis = Redis(gets: nat -> bool, sets: nat -> bool)

  class URLCache {
    const hasClient: bool             // false for a cache built without a Redis client
    const digest: string -> string
    var entries: map<string, seq<StoredItem>>
    ghost var contents: Contents

    ghost predicate Injective() {
      forall u, v :: digest(u) == digest(v) ==> u == v
    }

    function Fingerprint(url: string): string {
      "cache:url:" + digest(url)
    }

    ghost predicate Valid()
      reads this
    {
      && Injective()
      && (forall u :: u in contents ==> Fingerprint(u) in entries && entries[Fingerprint(u)] == contents[u])
      && (forall k :: k in entries ==> Owner(k) in contents && Fingerprint(Owner(k)) == k)
    }

    /** The URL with a given fingerprint, if there is one. */
    ghost function Owner(key: string): string {
      if exists u :: Fingerprint(u) == key then
        var u :| Fingerprint(u) == key;
        u
      else ""
    }

    /** What reads can see as long as Redis answers. */
    ghost function Visible(): Contents
      reads this
    {
      if hasClient then contents else map[]
    }

    /** An injective digest makes fingerprints as good as URLs. */
    lemma OwnerIs(u: string)
      requires Injective()
      ensures Owner(Fingerprint(u)) == u
    {
      var v := Owner(Fingerprint(u));
      assert Fingerprint(v) == Fingerprint(u);
      assert Fingerprint(u)[10..] == digest(u) && Fingerprint(v)[10..] == digest(v);
    }

    constructor (hasClient: bool, digest: string -> string)
      requires forall u, v :: digest(u) == digest(v) ==> u == v
      ensures Valid() && contents == map[] && this.hasClient == hasClient
    {
      this.hasClient, this.digest := hasClient, digest;
      entries, contents := map[], map[];
    }

    method Get(url: string, reachable: bool) returns (r: CacheRead)
      requires Valid()
      ensures r == if reachable && url in Visible() then Some(Visible()[url]) else None
    {
      if !hasClient || !reachable {
        return None;
      }
      var key := Fingerprint(url);
      if key !in entries {
        return None;
      }
      OwnerIs(url);
      return Some(entries[key]);
    }

    /** A cache without a client accepts every write and keeps nothing; an unreachable one reports an error. */
    method Set(url: string, items: seq<StoredItem>, reachable: bool) returns (ok: bool)
      requires Valid()
      modifies this`entries, this`contents
      ensures Valid() && (ok <==> !hasClient || reachable)
      ensures contents == if hasClient && reachable then old(contents)[url := items] else old(contents)
      ensures entries == if hasClient && reachable then old(entries)["cache:url:" + digest(url) := items]
                         else old(entries)
    {
      if !hasClient {
        return true;
      }
      if !reachable {
        return false;
      }
      entries := entries[Fingerprint(url) := items];
      contents := contents[url := items];
      OwnerIs(url);
      forall u | u in contents && u != url
        ensures Fingerprint(u) != Fingerprint(url)
      {
        OwnerIs(u);
      }
      ok := true;
    }

    /** An entry outlives its time to live, or is evicted. */
    method Expire(url: string)
      requires Valid()
      modifies this`entries, this`contents
      ensures Valid() && contents == old(contents) - {url}
    {
      entries := entries - {Fingerprint(url)};
      contents := contents - {url};
      forall u | u in contents
        ensures Fingerprint(u) != Fingerprint(url)
      {
        OwnerIs(u);
        OwnerIs(url);
      }
    }
  }
}
