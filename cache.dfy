/**
 * The in-memory TTL cache (store/cache/cache.go): a map from key to
 * (value, expiresAt), read lazily and swept periodically.
 */
module Cache {
  import opened Wrappers

  datatype Config = Config(defaultTtl: int, cleanupInterval: int, maxItems: int)

  datatype Item<V> = Item(value: V, expiresAt: int)

  /** time.Now().After(expiresAt): strictly later. */
  predicate Expired<V>(item: Item<V>, now: int) {
    now > item.expiresAt
  }

  /** What Get answers for key at time now. */
  function Lookup<V>(items: map<string, Item<V>>, key: string, now: int): Option<V> {
    if key in items && !Expired(items[key], now) then Some(items[key].value) else None
  }

  /** The map after Get: an expired entry for key is dropped, nothing else changes. */
  function AfterGet<V>(items: map<string, Item<V>>, key: string, now: int): map<string, Item<V>> {
    if key in items && Expired(items[key], now) then items - {key} else items
  }

  /** Deleting a key after a Get of it leaves what deleting it at once leaves. */
  lemma DeleteAfterGet<V>(items: map<string, Item<V>>, key: string, now: int)
    ensures AfterGet(items, key, now) - {key} == items - {key}
  {
  }

  /** The map after one tick of the cleanup loop. */
  function Sweep<V>(items: map<string, Item<V>>, now: int): map<string, Item<V>> {
    map k | k in items && !Expired(items[k], now) :: items[k]
  }

  class TtlCache<V> {
    const config: Config
    var items: map<string, Item<V>>
    /** Whether Close has run (stopCh closed, context cancelled). */
    var closed: bool

    constructor (config: Config)
      ensures this.config == config && items == map[] && !closed
    {
      this.config := config;
      items := map[];
      closed := false;
    }

    /** Set stores value until now + DefaultTTL, replacing any earlier entry; it never evicts. */
    method Set(key: string, value: V, now: int)
      modifies this`items
      ensures items == old(items)[key := Item(value, now + config.defaultTtl)]
    {
      items := items[key := Item(value, now + config.defaultTtl)];
    }

    /** Get answers from a live entry and lazily deletes an expired one. */
    method Get(key: string, now: int) returns (r: Option<V>)
      modifies this`items
      ensures r == Lookup(old(items), key, now)
      ensures items == AfterGet(old(items), key, now)
    {
      if key !in items {
        return None;
      }
      var item := items[key];
      if now > item.expiresAt {
        items := items - {key};
        return None;
      }
      return Some(item.value);
    }

    method Delete(key: string)
      modifies this`items
      ensures items == old(items) - {key}
    {
      items := items - {key};
    }

    /** Close closes stopCh; closing it a second time would panic. */
    method Close()
      requires !closed
      modifies this`closed
      ensures closed
    {
      closed := true;
    }

    /** One tick of cleanupLoop: delete every expired entry while ranging over the map. */
    method SweepTick(now: int)
      requires !closed
      modifies this`items
      ensures items == Sweep(old(items), now)
    {
      var pending := items.Keys;
      ghost var start := items;
      while pending != {}
        invariant pending <= start.Keys
        invariant items == map k | k in start && (k in pending || !Expired(start[k], now)) :: start[k]
        decreases pending
      {
        var k :| k in pending;
        if now > items[k].expiresAt {
          items := items - {k};
        }
        pending := pending - {k};
      }
    }
  }

  /** Set then Get: the value is returned up to and including its expiry instant, then never. */
  lemma SetThenGet<V>(items: map<string, Item<V>>, key: string, value: V, ttl: int, now: int, later: int)
    ensures Lookup(items[key := Item(value, now + ttl)], key, later)
            == if later <= now + ttl then Some(value) else None
  {
  }

  /** Delete then Get: absent whatever the time. */
  lemma DeleteThenGet<V>(items: map<string, Item<V>>, key: string, now: int)
    ensures Lookup(items - {key}, key, now) == None
    ensures AfterGet(items - {key}, key, now) == items - {key}
  {
  }

  /** Get touches no key but its own, and only drops it when it is expired. */
  lemma GetChangesOnlyItsKey<V>(items: map<string, Item<V>>, key: string, now: int)
    ensures var after := AfterGet(items, key, now);
            after.Keys <= items.Keys &&
            (forall k :: k in after ==> after[k] == items[k]) &&
            (forall k :: k in items && k !in after ==> k == key && Expired(items[k], now)) &&
            (Lookup(items, key, now) == None <==> key !in items || Expired(items[key], now))
  {
  }

  /** A sweep removes exactly the expired entries. */
  lemma SweepRemovesExactlyExpired<V>(items: map<string, Item<V>>, now: int)
    ensures forall k :: k in Sweep(items, now) <==> k in items && !Expired(items[k], now)
    ensures forall k :: k in Sweep(items, now) ==> Sweep(items, now)[k] == items[k]
  {
  }

  /** Set never evicts: inserting a new key always grows the map by one, past MaxItems if need be. */
  lemma {:induction false} SetNeverEvicts<V>(items: map<string, Item<V>>, key: string, item: Item<V>)
    requires key !in items
    ensures |items[key := item]| == |items| + 1
    ensures items.Keys <= items[key := item].Keys
  {
    assert items[key := item].Keys == items.Keys + {key};
  }

  /** The cache operations, each with its own clock reading. */
  datatype Op<V> = SetOp(key: string, value: V, at: int) | GetOp(key: string, at: int) | DeleteOp(key: string) | SweepOp(at: int)

  function Apply<V>(items: map<string, Item<V>>, op: Op<V>, ttl: int): map<string, Item<V>> {
    match op
    case SetOp(k, v, t) => items[k := Item(v, t + ttl)]
    case GetOp(k, t) => AfterGet(items, k, t)
    case DeleteOp(k) => items - {k}
    case SweepOp(t) => Sweep(items, t)
  }

  function Run<V>(items: map<string, Item<V>>, ops: seq<Op<V>>, ttl: int): map<string, Item<V>>
    decreases |ops|
  {
    if ops == [] then items else Run(Apply(items, ops[0], ttl), ops[1..], ttl)
  }

  predicate Writes<V>(op: Op<V>, key: string) {
    (op.SetOp? || op.DeleteOp?) && op.key == key
  }

  predicate NotAfter<V>(op: Op<V>, t: int) {
    op.DeleteOp? || op.at <= t
  }

  /**
   * Lazy deletion and sweeping are unobservable: whatever Gets, Sweeps and writes
   * to other keys run before time t, a Get of key at t answers as it would have
   * without them.
   */
  lemma {:induction false} OtherOpsUnobservable<V>(items: map<string, Item<V>>, ops: seq<Op<V>>, ttl: int, key: string, t: int)
    requires forall i :: 0 <= i < |ops| ==> !Writes(ops[i], key) && NotAfter(ops[i], t)
    ensures Lookup(Run(items, ops, ttl), key, t) == Lookup(items, key, t)
    decreases |ops|
  {
    if ops != [] {
      var next := Apply(items, ops[0], ttl);
      assert !Writes(ops[0], key) && NotAfter(ops[0], t);
      assert Lookup(next, key, t) == Lookup(items, key, t);
      OtherOpsUnobservable(next, ops[1..], ttl, key, t);
    }
  }

  /**
   * The cache's promise: after Set(key, v) at time now, a Get of key at any
   * t <= now + ttl returns v, whatever other keys, Gets and sweeps did meanwhile.
   */
  lemma SetIsReadBackUntilExpiry<V>(items: map<string, Item<V>>, key: string, value: V, now: int, ttl: int, ops: seq<Op<V>>, t: int)
    requires t <= now + ttl
    requires forall i :: 0 <= i < |ops| ==> !Writes(ops[i], key) && NotAfter(ops[i], t)
    ensures Lookup(Run(Apply(items, SetOp(key, value, now), ttl), ops, ttl), key, t) == Some(value)
  {
    OtherOpsUnobservable(Apply(items, SetOp(key, value, now), ttl), ops, ttl, key, t);
  }
}
