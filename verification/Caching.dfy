/** The response cache of the connector's HTTP client. It is asked before every GET, holds every GET
    that was answered with 200, and is told nothing of a POST, PATCH or DELETE. */
module Caching {
  import opened Text
  import opened Domain
  import opened Store

  /** Noop is the disabled cache. */
  datatype Cache<K(==), V> = Noop | Memory(entries: map<K, V>)

  function Lookup<K, V>(cache: Cache<K, V>, key: K): Option<V> {
    if cache.Memory? && key in cache.entries then Some(cache.entries[key]) else None
  }

  function Stored<K, V>(cache: Cache<K, V>, key: K, value: V): Cache<K, V> {
    if cache.Memory? then Memory(cache.entries[key := value]) else Noop
  }

  /** Entries vanish when they expire, when room is needed, and when the SDK clears its caches. */
  function Dropped<K, V>(cache: Cache<K, V>, keys: set<K>): Cache<K, V> {
    if cache.Memory? then Memory(cache.entries - keys) else Noop
  }

  /** Dropping takes away the entries under these keys and no others. */
  lemma DroppedMeans<K, V>(cache: Cache<K, V>, keys: set<K>, key: K)
    ensures Lookup(Dropped(cache, keys), key) == if key in keys then None else Lookup(cache, key)
    ensures Dropped(cache, keys).Noop? == cache.Noop?
  {
  }

  // ---------- Reading one user ----------

  type UserCache = Cache<string, User>

  /** The key is made of the path in lower case. */
  function CacheKey(id: string): string { LowerAscii(id) }

  /** Two IDs share a key exactly when they differ only by case. */
  lemma SameKeyExactlyWhen(a: string, b: string)
    ensures CacheKey(a) == CacheKey(b) <==> |a| == |b| && forall i :: 0 <= i < |a| ==> SameLetter(a[i], b[i])
  {
    SameLowerExactlyWhen(a, b);
  }

  /** The fate of one request: served and answered; never served; or served with the answer lost.
      The last two are errors other than not-found for the caller. */
  datatype Net = Answered | Refused | Lost

  /** What the client's GetUser comes back with, if nothing happens meanwhile: from the cache, else from
      the server; None when no answer came. */
  function ReadUser(cache: UserCache, st: StoreState, id: string, net: Net): Option<UserReply> {
    match Lookup(cache, CacheKey(id))
    case Some(u) => Some(UserReply(OK, Some(u)))
    case None => if net == Answered then Some(GetUser(st, id)) else None
  }

  /** The cache after that read. */
  function AfterRead(cache: UserCache, st: StoreState, id: string, net: Net): UserCache {
    match ReadUser(cache, st, id, net)
    case Some(reply) => AfterReply(cache, id, reply)
    case None => cache
  }

  /** The cache when a reply is in: one of status 200 is put there, also if it came from there. */
  function AfterReply(cache: UserCache, id: string, reply: UserReply): UserCache {
    match reply
    case UserReply(OK, Some(u)) => Stored(cache, CacheKey(id), u)
    case _ => cache
  }

  /** Every entry is a user that was stored under its own key. */
  ghost predicate Filed(cache: UserCache, issued: set<string>) {
    forall key :: Lookup(cache, key).Some? ==> Lookup(cache, key).value.id == key && key in issued
  }

  /** A reply to a read of this user, of the server or of the cache. */
  ghost predicate Genuine(reply: UserReply, id: string, issued: set<string>) {
    || reply == UserReply(NotFound, None)
    || (reply.status == OK && reply.user.Some? && reply.user.value.id == CacheKey(id) && CacheKey(id) in issued)
  }

  lemma ServedIsGenuine(fold: CaseFold, w: World, id: string)
    requires Inv(fold, w)
    ensures Genuine(GetUser(w.store, id), id, w.issued)
  {
    if id in w.store.users {
      assert id in w.issued;
      LowerUuid(id);
    }
  }

  /** If there is an entry for the user, it is what the server would answer. */
  predicate Current(cache: UserCache, st: StoreState, id: string) {
    match Lookup(cache, CacheKey(id))
    case Some(u) => id in st.users && st.users[id] == u
    case None => true
  }

  /** What a reply does to the cache: nothing, or an entry under the key that was asked for. */
  lemma ReplyFills(cache: UserCache, issued: set<string>, id: string, reply: UserReply, key: string)
    requires Filed(cache, issued) && Genuine(reply, id, issued)
    ensures var cache' := AfterReply(cache, id, reply);
            && Filed(cache', issued)
            && (Lookup(cache', key) == Lookup(cache, key) || (key == CacheKey(id) && Lookup(cache', key) == reply.user))
  {
    var cache' := AfterReply(cache, id, reply);
    forall k | Lookup(cache', k).Some? ensures Lookup(cache', k).value.id == k && k in issued {
      if Lookup(cache', k) != Lookup(cache, k) { assert k == CacheKey(id); }
    }
  }
}
