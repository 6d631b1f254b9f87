/** The in-memory TTL cache: a dictionary from keys to a value and an
    optional expiry time. Reads evict a stale entry lazily; a sweep removes
    every stale entry at once. The clock is a `now` parameter of every
    operation that reads it. */
module Cache {
  import opened Wrappers

  datatype Entry<V> = Entry(value: V, expiresAt: Option<real>)

  /** An entry is stale once the clock is strictly past its expiry; an
      entry without expiry never is. */
  predicate Expired<V>(e: Entry<V>, now: real) {
    e.expiresAt.Some? && now > e.expiresAt.value
  }

  /** The entry `set` stores: a ttl of None or 0 means no expiry, any
      other ttl expires that many seconds after `now`. */
  function EntryFor<V>(value: V, ttl: Option<int>, now: real): (e: Entry<V>)
    ensures e.value == value
    ensures e.expiresAt.None? <==> ttl.None? || ttl.value == 0
    ensures e.expiresAt.Some? ==> e.expiresAt.value == now + ttl.value as real
  {
    if ttl.Some? && ttl.value != 0 then Entry(value, Some(now + ttl.value as real)) else Entry(value, None)
  }

  /** What a read of `key` at `now` answers. */
  function Lookup<V>(store: map<string, Entry<V>>, key: string, now: real): Option<V> {
    if key in store && !Expired(store[key], now) then Some(store[key].value) else None
  }

  /** The keys a sweep at `now` removes. */
  function ExpiredKeys<V>(store: map<string, Entry<V>>, now: real): set<string> {
    set k | k in store && Expired(store[k], now)
  }

  /** The store a sweep at `now` leaves: every entry that is not stale. */
  function Live<V>(store: map<string, Entry<V>>, now: real): (live: map<string, Entry<V>>)
    ensures live.Keys == store.Keys - ExpiredKeys(store, now)
    ensures forall k :: k in live ==> live[k] == store[k]
  {
    map k | k in store && !Expired(store[k], now) :: store[k]
  }

  /** A value stored with a ttl is read back until its expiry, inclusive. */
  lemma ReadBackWithinTtl<V>(store: map<string, Entry<V>>, key: string, value: V, ttl: Option<int>,
                             setAt: real, now: real)
    requires ttl.None? || ttl.value == 0 || now <= setAt + ttl.value as real
    ensures Lookup(store[key := EntryFor(value, ttl, setAt)], key, now) == Some(value)
  {
  }

  /** After its expiry it is gone. */
  lemma GoneAfterTtl<V>(store: map<string, Entry<V>>, key: string, value: V, ttl: int, setAt: real, now: real)
    requires ttl != 0 && now > setAt + ttl as real
    ensures Lookup(store[key := EntryFor(value, Some(ttl), setAt)], key, now) == None
  {
  }

  /** Storing one key leaves what every other key reads unchanged. */
  lemma SetIsLocal<V>(store: map<string, Entry<V>>, key: string, e: Entry<V>, other: string, now: real)
    requires other != key
    ensures Lookup(store[key := e], other, now) == Lookup(store, other, now)
  {
  }

  /** A key that reads as missing stays missing as the clock advances. */
  lemma MissingStaysMissing<V>(store: map<string, Entry<V>>, key: string, now: real, later: real)
    requires now <= later && Lookup(store, key, now).None?
    ensures Lookup(store, key, later).None?
  {
  }

  /** A sweep never changes what a read at the same time answers. */
  lemma SweepInvisible<V>(store: map<string, Entry<V>>, key: string, now: real)
    ensures Lookup(Live(store, now), key, now) == Lookup(store, key, now)
  {
  }

  /** A sweep removes exactly the stale entries, so the size drops by their number. */
  lemma LiveSize<V>(store: map<string, Entry<V>>, now: real)
    ensures |Live(store, now)| == |store| - |ExpiredKeys(store, now)|
  {
    var live := Live(store, now);
    var stale := ExpiredKeys(store, now);
    assert stale <= store.Keys;
    assert live.Keys == store.Keys - stale;
    assert |store.Keys - stale| == |store.Keys| - |stale|;
    assert |live| == |live.Keys| && |store| == |store.Keys|;
  }

  class MemoryCache<V> {
    var store: map<string, Entry<V>>

    constructor()
      ensures store == map[]
    {
      store := map[];
    }

    /** The `size` property: the number of stored entries, stale or not. */
    function Size(): (n: nat)
      reads this
      ensures n == |store|
    {
      |store|
    }

    /** `get`: the value of a fresh entry; a stale entry is deleted and
        reads as missing; a missing key leaves the store alone. */
    method Get(key: string, now: real) returns (r: Option<V>)
      modifies this
      ensures r == Lookup(old(store), key, now)
      ensures key in old(store) && Expired(old(store)[key], now) ==>
                store == old(store) - {key} && Size() == old(Size()) - 1
      ensures !(key in old(store) && Expired(old(store)[key], now)) ==> store == old(store)
    {
      if key !in store {
        return None;
      }
      var entry := store[key];
      if entry.expiresAt.Some? && now > entry.expiresAt.value {
        store := store - {key};
        return None;
      }
      return Some(entry.value);
    }

    /** `set`: stores or overwrites this key only. */
    method Set(key: string, value: V, ttl: Option<int>, now: real)
      modifies this
      ensures store == old(store)[key := EntryFor(value, ttl, now)]
    {
      var expiresAt := if ttl.Some? && ttl.value != 0 then Some(now + ttl.value as real) else None;
      store := store[key := Entry(value, expiresAt)];
    }

    /** `delete`: removes this key only, and nothing when it is absent. */
    method Delete(key: string)
      modifies this
      ensures store == old(store) - {key}
      ensures key !in old(store) ==> store == old(store)
    {
      store := store - {key};
    }

    /** `clear` */
    method Clear()
      modifies this
      ensures store == map[] && Size() == 0
    {
      store := map[];
    }

    /** `cleanup_expired`: collects the stale keys, deletes them one by one
        and returns how many there were. */
    method CleanupExpired(now: real) returns (removed: nat)
      modifies this
      ensures store == Live(old(store), now)
      ensures removed == |ExpiredKeys(old(store), now)|
      ensures Size() == old(Size()) - removed
    {
      var expired := ExpiredKeys(store, now);
      ghost var start := store;
      var todo := expired;
      while todo != {}
        invariant todo <= expired
        invariant store.Keys == start.Keys - (expired - todo)
        invariant forall k :: k in store ==> store[k] == start[k]
        decreases |todo|
      {
        var key :| key in todo;
        store := store - {key};
        todo := todo - {key};
      }
      removed := |expired|;
      LiveSize(start, now);
      assert store == Live(start, now);
    }
  }
}
