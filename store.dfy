/**
 * store/store.go and the methods of store/instance_setting.go: the cache-through
 * Store over a database driver, with a user cache keyed by the decimal user ID
 * and an instance-setting cache keyed by the setting's key name.
 */
module Store {
  import opened Wrappers
  import opened Errors
  import opened Strings
  import opened StoreModel
  import opened Cache
  import opened Database
  import opened InstanceSettings

  /** Ten-minute TTL, five-minute sweep, 1000 items (never enforced), in seconds. */
  const CacheConfig: Config := Config(10 * 60, 5 * 60, 1000)

  /** strconv.FormatInt(id, 10) */
  function UserKey(id: int): string {
    IntToString(id)
  }

  /** Every cached user is the live row of the ID its key spells. */
  ghost predicate CoherentCache(items: map<string, Item<User>>, rows: seq<User>) {
    forall k :: k in items ==>
      exists i :: 0 <= i < |rows| && k == UserKey(i + 1) && Live(rows[i]) && items[k].value == rows[i]
  }

  /** GetUser: a cached user when there is one, else the first listed row, else sql.ErrNoRows. */
  function ReadThrough(hit: Option<User>, rows: seq<User>, find: FindUser, fault: bool): Result<User> {
    if hit.Some? then Ok(hit.value)
    else if fault then Err(DbError("list users"))
    else match FirstUser(rows, find)
      case None => Err(ErrNoRows)
      case Some(u) => Ok(u)
  }

  /** ListInstanceSettings over the rows the driver returns. */
  function ListResult(rows: seq<InstanceSettingRow>, codec: Codec, fault: bool): Result<seq<InstanceSetting>> {
    if fault then Err(DbError("list instance settings"))
    else
      var l := ConvertRows(rows, codec);
      if l.failure.Some? then Err(l.failure.value) else Ok(l.kept)
  }

  /** The instance-setting cache after caching each listed setting in turn. */
  function CacheAll(items: map<string, Item<InstanceSetting>>, kept: seq<InstanceSetting>, expiresAt: int): map<string, Item<InstanceSetting>>
    decreases |kept|
  {
    if kept == [] then items
    else CacheAll(items, kept[..|kept| - 1], expiresAt)[KeyName(kept[|kept| - 1].key) := Item(kept[|kept| - 1], expiresAt)]
  }

  /** GetInstanceSetting after a cache miss: none, exactly one, or an error for several. */
  function SingleSetting(list: Result<seq<InstanceSetting>>, name: string): Result<Option<InstanceSetting>> {
    if list.Err? then Err(list.error)
    else if |list.value| == 0 then Ok(None)
    else if |list.value| > 1 then Err(PlainError("found multiple instance settings with key " + name))
    else Ok(Some(list.value[0]))
  }

  /** Outcome of a Go call that may dereference a nil pointer. */
  datatype Outcome<T> = Returned(result: T) | NilDereference

  /**
   * Store.UpdateUser as written: it reads user.ID from the driver's result
   * even when the driver reports (nil, nil).
   */
  function UpdateUserAsWritten(driverResult: Result<Option<User>>): Outcome<Result<User>> {
    match driverResult
    case Err(e) => Returned(Err(e))
    case Ok(None) => NilDereference
    case Ok(Some(u)) => Returned(Ok(u))
  }

  /** Updating a missing or soft-deleted user makes Store.UpdateUser (as written) dereference nil. */
  lemma UpdateOfMissingUserDereferencesNil(rows: seq<User>, id: int)
    requires forall i :: 0 <= i < |rows| ==> rows[i].id == i + 1
    requires !HasLiveUser(rows, id)
    ensures UpdateUserAsWritten(Ok(FirstUser(rows, FindById(id)))) == NilDereference
  {
    FindByIdIsRowLookup(rows, id);
  }

  /** The concrete input: updating user 1 of an empty users table. */
  lemma UpdateOnEmptyTableDereferencesNil()
    ensures UpdateUserAsWritten(Ok(FirstUser([], FindById(1)))) == NilDereference
  {
  }

  /**
   * Store.UpdateUser as written returns the driver's error before it deletes
   * the cache entry. When that error is the re-read after an UPDATE that went
   * through, the entry it keeps no longer agrees with the row: every UPDATE
   * sets updated_at, and here the clock has moved.
   */
  lemma StaleEntryAfterFailedReRead(items: map<string, Item<User>>, rows: seq<User>, upd: UpdateUser, now: int)
    requires CoherentCache(items, rows)
    requires HasLiveUser(rows, upd.id) && UserKey(upd.id) in items
    requires now != rows[upd.id - 1].updatedAt
    ensures !CoherentCache(items, rows[upd.id - 1 := ApplyUserUpdate(rows[upd.id - 1], upd, now)])
  {
    var k := UserKey(upd.id);
    var rows' := rows[upd.id - 1 := ApplyUserUpdate(rows[upd.id - 1], upd, now)];
    var i :| 0 <= i < |rows| && k == UserKey(i + 1) && Live(rows[i]) && items[k].value == rows[i];
    IntToStringInjective(i + 1, upd.id);
    if CoherentCache(items, rows') {
      var j :| 0 <= j < |rows'| && k == UserKey(j + 1) && Live(rows'[j]) && items[k].value == rows'[j];
      IntToStringInjective(j + 1, upd.id);
    }
  }

  /** The concrete input: user 1 cached at updated_at 0, its re-read failing after an UPDATE at time 1. */
  lemma StaleEntryExample()
    ensures var u := User(1, "alice", "alice", "h1", "", "", "user", 0, 0, 0, None);
      var items := map[UserKey(1) := Item(u, 100)];
      CoherentCache(items, [u]) && !CoherentCache(items, [ApplyUserUpdate(u, NoChange(1), 1)])
  {
    var u := User(1, "alice", "alice", "h1", "", "", "user", 0, 0, 0, None);
    var items := map[UserKey(1) := Item(u, 100)];
    assert items[UserKey(1)].value == [u][0];
    StaleEntryAfterFailedReRead(items, [u], NoChange(1), 1);
    assert [u][0 := ApplyUserUpdate(u, NoChange(1), 1)] == [ApplyUserUpdate(u, NoChange(1), 1)];
  }

  /** The cache is transparent: a lookup by ID answers what the database would. */
  lemma CachedReadAgreesWithDriver(items: map<string, Item<User>>, rows: seq<User>, id: int, now: int)
    requires CoherentCache(items, rows)
    requires forall i :: 0 <= i < |rows| ==> rows[i].id == i + 1
    ensures ReadThrough(Lookup(items, UserKey(id), now), rows, FindById(id), false) ==
            ReadThrough(None, rows, FindById(id), false)
  {
    FindByIdIsRowLookup(rows, id);
    var k := UserKey(id);
    if Lookup(items, k, now).Some? {
      var i :| 0 <= i < |rows| && k == UserKey(i + 1) && Live(rows[i]) && items[k].value == rows[i];
      IntToStringInjective(i + 1, id);
    }
  }

  /** What Store.GetUser answers for a lookup by ID: the cache first, then the table. */
  function ResolveUser(items: map<string, Item<User>>, rows: seq<User>, id: int, now: int, fault: bool): Result<User> {
    ReadThrough(Lookup(items, UserKey(id), now), rows, FindById(id), fault)
  }

  /** Whichever way a lookup by ID is answered, the user is the live row with that ID. */
  lemma ResolvedUserIsLive(items: map<string, Item<User>>, rows: seq<User>, id: int, now: int, fault: bool)
    requires CoherentCache(items, rows)
    requires forall i :: 0 <= i < |rows| ==> rows[i].id == i + 1
    requires ResolveUser(items, rows, id, now, fault).Ok?
    ensures HasLiveUser(rows, id) && ResolveUser(items, rows, id, now, fault).value == rows[id - 1]
  {
    FindByIdIsRowLookup(rows, id);
    var k := UserKey(id);
    if Lookup(items, k, now).Some? {
      var i :| 0 <= i < |rows| && k == UserKey(i + 1) && Live(rows[i]) && items[k].value == rows[i];
      IntToStringInjective(i + 1, id);
    }
  }

  lemma CoherenceAfterRowChange(items: map<string, Item<User>>, rows: seq<User>, rows': seq<User>, id: int)
    requires CoherentCache(items, rows)
    requires |rows'| == |rows|
    requires forall i :: 0 <= i < |rows| && i != id - 1 ==> rows'[i] == rows[i]
    ensures CoherentCache(items - {UserKey(id)}, rows')
  {
    var items' := items - {UserKey(id)};
    forall k | k in items'
      ensures exists i :: 0 <= i < |rows'| && k == UserKey(i + 1) && Live(rows'[i]) && items'[k].value == rows'[i]
    {
      var i :| 0 <= i < |rows| && k == UserKey(i + 1) && Live(rows[i]) && items[k].value == rows[i];
      assert i != id - 1;
      assert rows'[i] == rows[i];
    }
  }

  lemma CoherenceAfterAppend(items: map<string, Item<User>>, rows: seq<User>, u: User, expiresAt: int)
    requires CoherentCache(items, rows)
    requires u.id == |rows| + 1 && Live(u)
    ensures CoherentCache(items[UserKey(u.id) := Item(u, expiresAt)], rows + [u])
  {
    var items' := items[UserKey(u.id) := Item(u, expiresAt)];
    var rows' := rows + [u];
    forall k | k in items'
      ensures exists i :: 0 <= i < |rows'| && k == UserKey(i + 1) && Live(rows'[i]) && items'[k].value == rows'[i]
    {
      if k == UserKey(u.id) {
        assert rows'[|rows|] == u;
      } else {
        var i :| 0 <= i < |rows| && k == UserKey(i + 1) && Live(rows[i]) && items[k].value == rows[i];
        assert rows'[i] == rows[i];
      }
    }
  }

  lemma CoherenceAfterGet(items: map<string, Item<User>>, rows: seq<User>, key: string, now: int)
    requires CoherentCache(items, rows)
    ensures CoherentCache(AfterGet(items, key, now), rows)
  {
    var items' := AfterGet(items, key, now);
    forall k | k in items'
      ensures exists i :: 0 <= i < |rows| && k == UserKey(i + 1) && Live(rows[i]) && items'[k].value == rows[i]
    {
      var i :| 0 <= i < |rows| && k == UserKey(i + 1) && Live(rows[i]) && items[k].value == rows[i];
    }
  }

  /** Caching a listing keeps every key already cached and adds the listed BASIC key. */
  lemma {:induction false} CacheAllKeys(items: map<string, Item<InstanceSetting>>, kept: seq<InstanceSetting>, expiresAt: int)
    requires forall s :: s in kept ==> s.key == KeyBasic
    ensures CacheAll(items, kept, expiresAt).Keys == items.Keys + (if kept == [] then {} else {KeyName(KeyBasic)})
    decreases |kept|
  {
    if kept != [] {
      var init := kept[..|kept| - 1];
      assert forall s :: s in init ==> s in kept;
      CacheAllKeys(items, init, expiresAt);
    }
  }

  class Store {
    const driver: Driver
    const userCache: TtlCache<User>
    const instanceSettingCache: TtlCache<InstanceSetting>

    /** The driver's tables are well formed and the user cache never disagrees with them. */
    ghost predicate Valid()
      reads this, driver, userCache, instanceSettingCache
    {
      driver.Valid() &&
      userCache.config == CacheConfig && instanceSettingCache.config == CacheConfig &&
      CoherentCache(userCache.items, driver.users)
    }

    /** store.New: two empty caches with the same configuration. */
    constructor (driver: Driver)
      requires driver.Valid()
      ensures this.driver == driver && Valid()
      ensures fresh(userCache) && fresh(instanceSettingCache)
      ensures userCache.items == map[] && !userCache.closed
      ensures instanceSettingCache.items == map[] && !instanceSettingCache.closed
    {
      this.driver := driver;
      userCache := new TtlCache(CacheConfig);
      instanceSettingCache := new TtlCache(CacheConfig);
    }

    /** Close shuts the user cache's sweeper (only once) and then the driver; the setting cache's sweeper keeps running. */
    method Close(fault: bool) returns (err: Option<Error>)
      requires !userCache.closed
      modifies userCache`closed, driver`closed
      ensures userCache.closed && driver.closed
      ensures err == if fault then Some(DbError("close database")) else None
      ensures instanceSettingCache.closed == old(instanceSettingCache.closed)
    {
      userCache.Close();
      err := driver.Close(fault);
    }

    method Ping(fault: bool) returns (err: Option<Error>)
      ensures err == if fault then Some(DbError("ping database")) else None
    {
      err := driver.Ping(fault);
    }

    /** CreateUser caches the created user under its decimal ID, and only on success. */
    method CreateUser(create: User, now: int, fault: bool) returns (r: Result<User>)
      requires Valid()
      modifies driver`users, userCache`items
      ensures Valid()
      ensures fault ==> r == Err(DbError("create user")) && driver.users == old(driver.users) && userCache.items == old(userCache.items)
      ensures !fault ==> (r == Ok(create.(id := |old(driver.users)| + 1, passwordExpires := now + PasswordLifetime,
                                          createdAt := now, updatedAt := now, deletedAt := None)) &&
        driver.users == old(driver.users) + [r.value] &&
        userCache.items == old(userCache.items)[UserKey(r.value.id) := Item(r.value, now + CacheConfig.defaultTtl)])
    {
      r := driver.CreateUser(create, now, fault);
      if r.Err? {
        return;
      }
      CoherenceAfterAppend(userCache.items, old(driver.users), r.value, now + CacheConfig.defaultTtl);
      userCache.Set(UserKey(r.value.id), r.value, now);
    }

    /**
     * GetUser: with an ID, an unexpired cached user answers without the driver;
     * otherwise the first listed row, or sql.ErrNoRows. Only the lazy expiry of
     * Get touches the cache.
     */
    method GetUser(find: FindUser, now: int, fault: bool) returns (r: Result<User>)
      requires Valid()
      modifies userCache`items
      ensures Valid()
      ensures r == ReadThrough(if find.id.Some? then Lookup(old(userCache.items), UserKey(find.id.value), now) else None,
                               driver.users, find, fault)
      ensures userCache.items ==
        if find.id.Some? then AfterGet(old(userCache.items), UserKey(find.id.value), now) else old(userCache.items)
    {
      if find.id.Some? {
        CoherenceAfterGet(userCache.items, driver.users, UserKey(find.id.value), now);
        var cached := userCache.Get(UserKey(find.id.value), now);
        if cached.Some? {
          return Ok(cached.value);
        }
      }
      var list := driver.ListUsers(find, fault);
      if list.Err? {
        return Err(list.error);
      }
      if |list.value| == 0 {
        return Err(ErrNoRows);
      }
      return Ok(list.value[0]);
    }

    method ListUsers(find: FindUser, fault: bool) returns (r: Result<seq<User>>)
      ensures r == if fault then Err(DbError("list users")) else Ok(SelectUsers(driver.users, find))
    {
      r := driver.ListUsers(find, fault);
    }

    /**
     * UpdateUser, corrected: the cache entry of the requested id is dropped
     * whatever the driver answers, so neither a missing user (finding 1) nor
     * a re-read that fails after the UPDATE (finding 4) leaves a stale or
     * nil-dereferencing path. A missing user is passed on as (nil, nil).
     */
    method UpdateUser(upd: UpdateUser, now: int, fault: bool, readFault: bool) returns (r: Result<Option<User>>)
      requires Valid()
      modifies driver`users, userCache`items
      ensures Valid()
      ensures userCache.items == old(userCache.items) - {UserKey(upd.id)}
      ensures fault ==> r.Err? && driver.users == old(driver.users)
      ensures !fault && readFault ==> r.Err?
      ensures !fault && !readFault ==> r == Ok(FirstUser(driver.users, FindById(upd.id)))
      ensures !fault && HasLiveUser(old(driver.users), upd.id) ==>
        driver.users == old(driver.users)[upd.id - 1 := ApplyUserUpdate(old(driver.users)[upd.id - 1], upd, now)]
      ensures !(!fault && HasLiveUser(old(driver.users), upd.id)) ==> driver.users == old(driver.users)
    {
      r := driver.UpdateUser(upd, now, fault, readFault);
      CoherenceAfterRowChange(userCache.items, old(driver.users), driver.users, upd.id);
      userCache.Delete(UserKey(upd.id));
    }

    /** DeleteUser drops the cache entry only after the driver succeeds. */
    method DeleteUser(del: DeleteUser, now: int, fault: bool) returns (err: Option<Error>)
      requires Valid()
      modifies driver`users, userCache`items
      ensures Valid()
      ensures fault ==> err.Some? && driver.users == old(driver.users) && userCache.items == old(userCache.items)
      ensures !fault ==> (err == None && userCache.items == old(userCache.items) - {UserKey(del.id)} &&
        |driver.users| == |old(driver.users)| &&
        (forall i :: 0 <= i < |driver.users| && i != del.id - 1 ==> driver.users[i] == old(driver.users)[i]) &&
        !HasLiveUser(driver.users, del.id))
    {
      err := driver.DeleteUser(del, now, fault);
      if err.Some? {
        return;
      }
      CoherenceAfterRowChange(userCache.items, old(driver.users), driver.users, del.id);
      userCache.Delete(UserKey(del.id));
    }

    method GetUserByUsername(username: string, fault: bool) returns (r: Result<Option<User>>)
      ensures r == if fault then Err(DbError("get user")) else Ok(FirstUser(driver.users, ByUsername(username)))
    {
      r := driver.GetUser(ByUsername(username), fault);
    }

    method GetUserByEmail(email: string, fault: bool) returns (r: Result<Option<User>>)
      ensures r == if fault then Err(DbError("get user")) else Ok(FirstUser(driver.users, ByEmail(email)))
    {
      r := driver.GetUser(ByEmail(email), fault);
    }

    method CreateRefreshToken(create: CreateRefreshToken, now: int, fault: bool) returns (r: Result<RefreshToken>)
      requires Valid()
      modifies driver`tokens
      ensures Valid()
      ensures fault ==> r.Err? && driver.tokens == old(driver.tokens)
      ensures !fault ==>
        r == Ok(RefreshToken(|old(driver.tokens)| + 1, create.userId, create.token, create.expiresAt, false, now, now, None)) &&
        driver.tokens == old(driver.tokens) + [r.value]
    {
      r := driver.CreateRefreshToken(create, now, fault);
    }

    method UpdateRefreshToken(upd: UpdateRefreshToken, now: int, fault: bool, readFault: bool) returns (r: Result<Option<RefreshToken>>)
      requires Valid()
      modifies driver`tokens
      ensures Valid()
      ensures fault ==> r.Err? && driver.tokens == old(driver.tokens)
      ensures !fault && readFault ==> r.Err?
      ensures !fault && !readFault ==> r == Ok(FirstToken(driver.tokens, ByTokenId(upd.id)))
      ensures !fault && !HasLiveToken(old(driver.tokens), upd.id) ==> driver.tokens == old(driver.tokens)
      ensures !fault && HasLiveToken(old(driver.tokens), upd.id) ==>
        driver.tokens == old(driver.tokens)[upd.id - 1 := old(driver.tokens)[upd.id - 1].(updatedAt := now,
          revoked := upd.revoked.GetOr(old(driver.tokens)[upd.id - 1].revoked))]
    {
      r := driver.UpdateRefreshToken(upd, now, fault, readFault);
    }

    method ListRefreshTokens(find: FindRefreshToken, fault: bool) returns (r: Result<seq<RefreshToken>>)
      ensures r == if fault then Err(DbError("list refresh tokens")) else Ok(SelectTokens(driver.tokens, find))
    {
      r := driver.ListRefreshTokens(find, fault);
    }

    method DeleteRefreshToken(del: DeleteRefreshToken, now: int, fault: bool) returns (err: Option<Error>)
      requires Valid()
      modifies driver`tokens
      ensures Valid()
      ensures fault ==> err.Some? && driver.tokens == old(driver.tokens)
      ensures !fault ==> (err == None && |driver.tokens| == |old(driver.tokens)| &&
        forall i :: 0 <= i < |driver.tokens| ==>
          (driver.tokens[i] ==
            if old(driver.tokens)[i].id == del.id && LiveToken(old(driver.tokens)[i])
            then old(driver.tokens)[i].(deletedAt := Some(now)) else old(driver.tokens)[i]))
    {
      err := driver.DeleteRefreshToken(del, now, fault);
    }

    method GetRefreshToken(token: string, fault: bool) returns (r: Result<Option<RefreshToken>>)
      ensures r == if fault then Err(DbError("get refresh token")) else Ok(FirstToken(driver.tokens, ByToken(token)))
    {
      r := driver.GetRefreshToken(token, fault);
    }

    /**
     * UpsertInstanceSetting: only BASIC is supported; the value is stored as
     * JSON under the key name and the converted setting is cached and returned.
     */
    method UpsertInstanceSetting(setting: InstanceSetting, codec: Codec, now: int, fault: bool) returns (r: Result<InstanceSetting>)
      requires Valid()
      modifies driver`settings, instanceSettingCache`items
      ensures Valid()
      ensures setting.key != KeyBasic ==>
        r == Err(PlainError("unsupported instance setting key: " + KeyName(setting.key))) &&
        driver.settings == old(driver.settings) && instanceSettingCache.items == old(instanceSettingCache.items)
      ensures r.Ok? ==>
        codec.marshal(setting.basic).Some? &&
        driver.settings == UpsertRow(old(driver.settings), InstanceSettingRow(KeyName(KeyBasic), codec.marshal(setting.basic).value, "")) &&
        r.value.key == KeyBasic && codec.unmarshal(codec.marshal(setting.basic).value) == Some(r.value.basic) &&
        instanceSettingCache.items == old(instanceSettingCache.items)[KeyName(KeyBasic) := Item(r.value, now + CacheConfig.defaultTtl)]
      ensures r.Err? ==> instanceSettingCache.items == old(instanceSettingCache.items)
      ensures setting.key == KeyBasic && codec.marshal(setting.basic).None? ==>
        r == Err(Wrap(CodecError, "failed to marshal instance setting value")) && driver.settings == old(driver.settings)
      ensures setting.key == KeyBasic && codec.marshal(setting.basic).Some? && fault ==>
        r == Err(Wrap(DbError("upsert instance setting"), "Failed to upsert instance setting")) &&
        driver.settings == old(driver.settings)
      ensures setting.key == KeyBasic && codec.marshal(setting.basic).Some? && !fault ==>
          var raw := InstanceSettingRow(KeyName(KeyBasic), codec.marshal(setting.basic).value, "");
          driver.settings == UpsertRow(old(driver.settings), raw) &&
          (ConvertFromRaw(raw, codec).Err? ==> r == Err(Wrap(ConvertFromRaw(raw, codec).error, "Failed to convert instance setting")))
      ensures RoundTrips(codec) && setting.key == KeyBasic && codec.marshal(setting.basic).Some? && !fault ==> r == Ok(setting)
    {
      if setting.key != KeyBasic {
        return Err(PlainError("unsupported instance setting key: " + KeyName(setting.key)));
      }
      var json := codec.marshal(setting.basic);
      if json.None? {
        return Err(Wrap(CodecError, "failed to marshal instance setting value"));
      }
      var raw := InstanceSettingRow(KeyName(setting.key), json.value, "");
      var stored := driver.UpsertInstanceSetting(raw, fault);
      if stored.Err? {
        return Err(Wrap(stored.error, "Failed to upsert instance setting"));
      }
      var converted := ConvertFromRaw(stored.value, codec);
      if converted.Err? {
        return Err(Wrap(converted.error, "Failed to convert instance setting"));
      }
      assert converted.value.Some?;
      var s := converted.value.value;
      instanceSettingCache.Set(KeyName(s.key), s, now);
      return Ok(s);
    }

    /** ListInstanceSettings converts the rows in order, caching each kept setting as it goes. */
    method ListInstanceSettings(find: FindInstanceSetting, codec: Codec, now: int, fault: bool) returns (r: Result<seq<InstanceSetting>>)
      requires Valid()
      modifies instanceSettingCache`items
      ensures Valid()
      ensures r == ListResult(SelectSettings(driver.settings, find.name), codec, fault)
      ensures var l := ConvertRows(SelectSettings(driver.settings, find.name), codec);
        instanceSettingCache.items ==
          if fault then old(instanceSettingCache.items)
          else CacheAll(old(instanceSettingCache.items), l.kept, now + CacheConfig.defaultTtl)
    {
      var listed := driver.ListInstanceSettings(find, fault);
      if listed.Err? {
        return Err(listed.error);
      }
      r := CacheListing(listed.value, codec, now);
    }

    /** The loop of ListInstanceSettings over the rows the driver returned. */
    method CacheListing(rows: seq<InstanceSettingRow>, codec: Codec, now: int) returns (r: Result<seq<InstanceSetting>>)
      modifies instanceSettingCache`items
      ensures r == ListResult(rows, codec, false)
      ensures instanceSettingCache.items ==
        CacheAll(old(instanceSettingCache.items), ConvertRows(rows, codec).kept, now + instanceSettingCache.config.defaultTtl)
    {
      var kept: seq<InstanceSetting> := [];
      var i := 0;
      ghost var start := instanceSettingCache.items;
      while i < |rows|
        invariant 0 <= i <= |rows|
        invariant ConvertRows(rows[..i], codec) == Listing(kept, None)
        invariant instanceSettingCache.items == CacheAll(start, kept, now + instanceSettingCache.config.defaultTtl)
      {
        ConvertStep(rows, i, codec);
        var converted := CacheConverted(rows[i], codec, now, start, kept);
        if converted.Err? {
          FailureIsFinal(rows, i + 1, codec);
          return Err(Wrap(converted.error, "Failed to convert instance setting"));
        }
        if converted.value.Some? {
          kept := kept + [converted.value.value];
        }
        i := i + 1;
      }
      assert rows[..|rows|] == rows;
      return Ok(kept);
    }

    /** One iteration: convert a row and cache it when it is kept. */
    method CacheConverted(row: InstanceSettingRow, codec: Codec, now: int,
                          ghost start: map<string, Item<InstanceSetting>>, ghost kept: seq<InstanceSetting>)
      returns (converted: Result<Option<InstanceSetting>>)
      requires instanceSettingCache.items == CacheAll(start, kept, now + instanceSettingCache.config.defaultTtl)
      modifies instanceSettingCache`items
      ensures converted == ConvertFromRaw(row, codec)
      ensures converted.Ok? && converted.value.Some? ==>
        instanceSettingCache.items == CacheAll(start, kept + [converted.value.value], now + instanceSettingCache.config.defaultTtl)
      ensures !(converted.Ok? && converted.value.Some?) ==> instanceSettingCache.items == old(instanceSettingCache.items)
    {
      converted := ConvertFromRaw(row, codec);
      if converted.Ok? && converted.value.Some? {
        var s := converted.value.value;
        instanceSettingCache.Set(KeyName(s.key), s, now);
        CacheAllStep(start, kept, s, now + instanceSettingCache.config.defaultTtl);
      }
    }

    /**
     * GetInstanceSetting: a cached setting under find.Name answers directly;
     * otherwise none, exactly one listed setting, or an error for several.
     */
    method GetInstanceSetting(find: FindInstanceSetting, codec: Codec, now: int, fault: bool) returns (r: Result<Option<InstanceSetting>>)
      requires Valid()
      modifies instanceSettingCache`items
      ensures Valid()
      ensures Lookup(old(instanceSettingCache.items), find.name, now).Some? ==>
        r == Ok(Some(Lookup(old(instanceSettingCache.items), find.name, now).value)) &&
        instanceSettingCache.items == old(instanceSettingCache.items)
      ensures Lookup(old(instanceSettingCache.items), find.name, now).None? ==>
        r == SingleSetting(ListResult(SelectSettings(driver.settings, find.name), codec, fault), find.name)
      ensures Lookup(old(instanceSettingCache.items), find.name, now).None? ==>
        var missed := AfterGet(old(instanceSettingCache.items), find.name, now);
        instanceSettingCache.items ==
          if fault then missed
          else CacheAll(missed, ConvertRows(SelectSettings(driver.settings, find.name), codec).kept, now + CacheConfig.defaultTtl)
    {
      var hit := instanceSettingCache.Get(find.name, now);
      if hit.Some? {
        return Ok(Some(hit.value));
      }
      var list := ListInstanceSettings(find, codec, now, fault);
      if list.Err? {
        return Err(list.error);
      }
      if |list.value| == 0 {
        return Ok(None);
      }
      if |list.value| > 1 {
        return Err(PlainError("found multiple instance settings with key " + find.name));
      }
      return Ok(Some(list.value[0]));
    }

    /**
     * GetInstanceBasicSetting: the stored BASIC setting or an empty one, and
     * the BASIC entry is cached afterwards in either case. With names unique
     * it fails only on a database error or an undecodable stored value.
     */
    method GetInstanceBasicSetting(codec: Codec, now: int, fault: bool) returns (r: Result<BasicSetting>)
      requires Valid()
      modifies instanceSettingCache`items
      ensures Valid()
      ensures r.Ok? ==> (KeyName(KeyBasic) in instanceSettingCache.items &&
        instanceSettingCache.items[KeyName(KeyBasic)] == Item(InstanceSetting(KeyBasic, r.value), now + CacheConfig.defaultTtl))
      ensures var hit := Lookup(old(instanceSettingCache.items), KeyName(KeyBasic), now);
        hit.Some? ==> r == Ok(hit.value.basic)
      ensures var hit := Lookup(old(instanceSettingCache.items), KeyName(KeyBasic), now);
        var got := SingleSetting(ListResult(SelectSettings(driver.settings, KeyName(KeyBasic)), codec, fault), KeyName(KeyBasic));
        hit.None? ==>
          (got.Ok? && got.value.Some? ==> r == Ok(got.value.value.basic)) &&
          (got == Ok(None) ==> r == Ok(EmptyBasicSetting)) &&
          (got.Err? ==> r == Err(Wrap(got.error, "failed to get instance basic setting")))
      ensures (Lookup(old(instanceSettingCache.items), KeyName(KeyBasic), now).None? &&
        SelectSettings(driver.settings, KeyName(KeyBasic)) == [] && !fault) ==> r == Ok(EmptyBasicSetting)
      ensures !fault && (forall row :: row in driver.settings && row.name == KeyName(KeyBasic) ==> codec.unmarshal(row.value).Some?) ==>
        r.Ok?
    {
      var setting := GetInstanceSetting(FindInstanceSetting(KeyName(KeyBasic)), codec, now, fault);
      if setting.Err? {
        if !fault && forall row :: row in driver.settings && row.name == KeyName(KeyBasic) ==> codec.unmarshal(row.value).Some? {
          BasicLookupCannotFail(driver.settings, codec, fault);
        }
        return Err(Wrap(setting.error, "failed to get instance basic setting"));
      }
      var basic := if setting.value.None? then EmptyBasicSetting else setting.value.value.basic;
      instanceSettingCache.Set(KeyName(KeyBasic), InstanceSetting(KeyBasic, basic), now);
      return Ok(basic);
    }
  }

  /** One more row of the listing loop. */
  lemma ConvertStep(rows: seq<InstanceSettingRow>, i: nat, codec: Codec)
    requires i < |rows| && ConvertRows(rows[..i], codec).failure.None?
    ensures var prefix := ConvertRows(rows[..i], codec);
      ConvertRows(rows[..i + 1], codec) ==
        match ConvertFromRaw(rows[i], codec)
        case Err(e) => Listing(prefix.kept, Some(Wrap(e, "Failed to convert instance setting")))
        case Ok(None) => prefix
        case Ok(Some(s)) => Listing(prefix.kept + [s], None)
  {
    assert rows[..i + 1][..i] == rows[..i];
  }

  /** The listing stops at its first failure: later rows change nothing. */
  lemma {:induction false} FailureIsFinal(rows: seq<InstanceSettingRow>, n: nat, codec: Codec)
    requires n <= |rows| && ConvertRows(rows[..n], codec).failure.Some?
    ensures ConvertRows(rows, codec) == ConvertRows(rows[..n], codec)
    decreases |rows| - n
  {
    if n < |rows| {
      assert rows[..n + 1][..n] == rows[..n];
      FailureIsFinal(rows, n + 1, codec);
    } else {
      assert rows[..n] == rows;
    }
  }

  lemma CacheAllStep(items: map<string, Item<InstanceSetting>>, kept: seq<InstanceSetting>, s: InstanceSetting, expiresAt: int)
    ensures CacheAll(items, kept + [s], expiresAt) == CacheAll(items, kept, expiresAt)[KeyName(s.key) := Item(s, expiresAt)]
  {
    assert (kept + [s])[..|kept|] == kept;
  }

  /** With unique names, looking BASIC up fails only on a fault or an undecodable row. */
  lemma BasicLookupCannotFail(settings: seq<InstanceSettingRow>, codec: Codec, fault: bool)
    requires UniqueNames(settings)
    requires !fault && forall row :: row in settings && row.name == KeyName(KeyBasic) ==> codec.unmarshal(row.value).Some?
    ensures SingleSetting(ListResult(SelectSettings(settings, KeyName(KeyBasic)), codec, fault), KeyName(KeyBasic)).Ok?
  {
    var rows := SelectSettings(settings, KeyName(KeyBasic));
    AtMostOneRowPerName(settings, KeyName(KeyBasic));
    if |rows| == 1 {
      assert rows == [rows[0]];
      assert rows[0] in rows;
      SingleBasicRow(rows[0], codec);
    }
  }
}
