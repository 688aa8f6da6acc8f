/** The read-through response cache of `lib/cache.js`: configuration, the
    decision `get` makes from the store read and the origin request, and the
    `Cache` object whose store those decisions change. */
module ResponseCache {
  import opened JsValues
  import opened JsStrings
  import opened Fingerprint

  // ----- Construction -----

  /** The settings the constructor keeps: the Redis url, the default ttl and
      the key prefix, each a JavaScript value as the options gave it. */
  datatype Config = Config(redis: string, ttl: Value, prefix: Value)

  /** The two assertions of the constructor. */
  datatype ConfigError =
    | OptionsNotObject   // 'you must pass an options object ...'
    | RedisUrlNotString  // 'you must pass a redis url in `options.redis`'

  const DefaultTtl: Value := Num(300)
  const DefaultPrefix: Value := Str("cache:")

  /** The checks and defaults of `new Cache(opts)`. */
  function Configure(opts: Value): (r: Result<Config, ConfigError>)
    ensures r == Failure(OptionsNotObject) <==> !IsObject(opts)
    ensures r == Failure(RedisUrlNotString) <==> IsObject(opts) && !Property(opts, "redis").Str?
    ensures r.Success? ==>
      && Property(opts, "redis") == Str(r.value.redis)
      && (Truthy(Property(opts, "ttl")) ==> r.value.ttl == Property(opts, "ttl"))
      && (!Truthy(Property(opts, "ttl")) ==> r.value.ttl == DefaultTtl)
      && (Truthy(Property(opts, "prefix")) ==> r.value.prefix == Property(opts, "prefix"))
      && (!Truthy(Property(opts, "prefix")) ==> r.value.prefix == DefaultPrefix)
      && Truthy(r.value.ttl) && Truthy(r.value.prefix)
  {
    if !IsObject(opts) then Failure(OptionsNotObject)
    else if !Property(opts, "redis").Str? then Failure(RedisUrlNotString)
    else Success(Config(
      Property(opts, "redis").s,
      Or(Property(opts, "ttl"), DefaultTtl),
      Or(Property(opts, "prefix"), DefaultPrefix)))
  }

  /** A zero ttl is falsy, so it is replaced by the default like a missing one;
      a prefix given as a string is kept. */
  lemma ZeroTtlTakesDefault(url: string)
    ensures Configure(Obj([Member("redis", Str(url)), Member("ttl", Num(0))]))
         == Success(Config(url, Num(300), Str("cache:")))
    ensures Configure(Obj([Member("redis", Str(url)), Member("prefix", Str("request:"))]))
         == Success(Config(url, Num(300), Str("request:")))
  {
    var m1 := [Member("redis", Str(url)), Member("ttl", Num(0))];
    assert m1[1..] == [Member("ttl", Num(0))] && m1[1..][1..] == [];
    assert Names(m1) == ["redis", "ttl"];
    LookupAbsent(m1, "prefix");
    assert Lookup(m1, "redis") == Str(url) && Lookup(m1, "ttl") == Num(0);
    var m2 := [Member("redis", Str(url)), Member("prefix", Str("request:"))];
    assert m2[1..] == [Member("prefix", Str("request:"))] && m2[1..][1..] == [];
    assert Names(m2) == ["redis", "prefix"];
    LookupAbsent(m2, "ttl");
    assert Lookup(m2, "redis") == Str(url) && Lookup(m2, "prefix") == Str("request:");
  }

  // ----- One call of get -----

  /** `safeparse`: the parse of the input, or null where `JSON.parse` would throw. */
  function SafeParse(json: Json, input: string): (r: Value)
    ensures json.parse(input).Some? ==> r == json.parse(input).value
    ensures json.parse(input).None? ==> r == Null
  {
    match json.parse(input)
    case Some(v) => v
    case None => Null
  }

  /** An error argument that makes `if (err)` take its branch. A falsy one
      (null, undefined, 0, '') takes the same path as none at all, so it is
      written as None, or as a Fetched response. */
  type JsError = v: Value | Truthy(v) witness Bool(true)

  /** What `Request` calls back with: the response body, or an error. */
  datatype Fetch = Fetched(data: Value) | FetchFailed(err: JsError)

  /** The outcomes of the three calls `get` makes to its collaborators: the
      store read (its error, if it fails), the origin request, and the
      store write (its error, if it fails). */
  datatype Env = Env(readError: Option<JsError>, origin: Fetch, writeError: Option<JsError>)

  datatype LogLine =
    | ProblemGetting(key: string)  // 'problem getting <key> from redis'
    | ErrorDetail(err: Value)      // the error object itself
    | UnableToCache(key: string)   // 'unable to cache <key> in redis'
    | CachedKey(key: string)       // 'cached <key>'

  /** Everything a call does outside itself, in order. */
  datatype Effect =
    | StoreGet(key: string)
    | LogError(line: LogLine)
    | LogInfo(line: LogLine)
    | OriginRequest(opts: Value)
    | StoreSetex(key: string, ttl: Value, text: string)

  /** The arguments the callback receives: `(null, data)` or `(err)`. */
  datatype Reply = Data(value: Value) | Error(err: Value)

  /** A call either throws synchronously (the descriptor is not an object)
      or calls back once. */
  datatype Outcome = ThrewNotObject | Called(reply: Reply)

  datatype Run = Run(outcome: Outcome, effects: seq<Effect>, store: map<string, string>)

  /** The value the store-read callback holds when `if (value)` is tested:
      nothing after an error, the raw reply (null when absent) when it is
      falsy, and the parsed reply otherwise. */
  function ReadValue(json: Json, readError: Option<JsError>, store: map<string, string>, key: string): (r: Value)
    ensures Truthy(r) <==> Hit(json, store, key, readError)
    ensures Truthy(r) ==> r == json.parse(store[key]).value
  {
    if readError.Some? then Undefined
    else
      var raw := if key in store then Str(store[key]) else Null;
      if Truthy(raw) then SafeParse(json, raw.s) else raw
  }

  function ReadEffects(key: string, readError: Option<JsError>): seq<Effect> {
    match readError
    case None => [StoreGet(key)]
    case Some(e) => [StoreGet(key), LogError(ProblemGetting(key)), LogError(ErrorDetail(e))]
  }

  /** The origin request and what follows it. */
  function Miss(cfg: Config, json: Json, store: map<string, string>, opts: Value, key: string, env: Env): (r: Run)
    ensures |r.effects| >= 1 && r.effects[0] == OriginRequest(opts)
    ensures r.outcome == Called(match env.origin case Fetched(d) => Data(d) case FetchFailed(e) => Error(e))
    ensures r.store == if env.origin.Fetched? && env.writeError.None? then store[key := json.stringify(env.origin.data)] else store
  {
    match env.origin
    case FetchFailed(e) => Run(Called(Error(e)), [OriginRequest(opts)], store)
    case Fetched(data) =>
      var ttl := Or(Property(opts, "ttl"), cfg.ttl);
      var text := json.stringify(data);
      var write := StoreSetex(key, ttl, text);
      match env.writeError
      case None => Run(Called(Data(data)), [OriginRequest(opts), write, LogInfo(CachedKey(key))], store[key := text])
      case Some(e) =>
        Run(Called(Data(data)), [OriginRequest(opts), write, LogError(UnableToCache(key)), LogError(ErrorDetail(e))], store)
  }

  /** What a call does once it has the key: read, and answer from the
      entry or ask the origin. */
  function Respond(cfg: Config, json: Json, store: map<string, string>, opts: Value, key: string, env: Env): (r: Run)
    ensures |r.effects| >= 1 && r.effects[0] == StoreGet(key)
    ensures Hit(json, store, key, env.readError) ==>
      r == Run(Called(Data(json.parse(store[key]).value)), ReadEffects(key, env.readError), store)
    ensures !Hit(json, store, key, env.readError) ==>
      var miss := Miss(cfg, json, store, opts, key, env);
      r.outcome == miss.outcome && r.store == miss.store
  {
    var value := ReadValue(json, env.readError, store, key);
    var read := ReadEffects(key, env.readError);
    if Truthy(value) then Run(Called(Data(value)), read, store)
    else
      var miss := Miss(cfg, json, store, opts, key, env);
      Run(miss.outcome, read + miss.effects, miss.store)
  }

  /** `cache.get(requestOpts, callback)` as one sequential step. */
  function Serve(cfg: Config, md5: string -> string, json: Json, store: map<string, string>, opts: Value, env: Env): (r: Run)
    ensures !IsObject(opts) ==> r == Run(ThrewNotObject, [], store)
    ensures IsObject(opts) ==>
      && r.outcome.Called?
      && |r.effects| >= 1 && r.effects[0] == StoreGet(Key(cfg.prefix, md5, json, opts.members))
      && (|| r.store == store
          || (env.origin.Fetched? && r.store == store[Key(cfg.prefix, md5, json, opts.members) := json.stringify(env.origin.data)]))
  {
    if !IsObject(opts) then Run(ThrewNotObject, [], store)
    else Respond(cfg, json, store, opts, Key(cfg.prefix, md5, json, opts.members), env)
  }

  // ----- What a call promises -----

  /** The store answers with a usable entry: the read succeeds and finds a
      non-empty text that parses to a truthy value. */
  predicate Hit(json: Json, store: map<string, string>, key: string, readError: Option<JsError>) {
    && readError.None?
    && key in store
    && store[key] != ""
    && json.parse(store[key]).Some?
    && Truthy(json.parse(store[key]).value)
  }

  predicate IsRead(e: Effect) { e.StoreGet? }
  predicate IsRequest(e: Effect) { e.OriginRequest? }
  predicate IsWrite(e: Effect) { e.StoreSetex? }

  /** How many of the effects are of the kind p. */
  function Count(es: seq<Effect>, p: Effect -> bool): nat {
    if es == [] then 0 else (if p(es[0]) then 1 else 0) + Count(es[1..], p)
  }

  lemma {:induction false} CountAppend(a: seq<Effect>, b: seq<Effect>, p: Effect -> bool)
    ensures Count(a + b, p) == Count(a, p) + Count(b, p)
  {
    if a == [] {
      assert a + b == b;
    } else {
      assert (a + b)[1..] == a[1..] + b;
      CountAppend(a[1..], b, p);
    }
  }

  lemma {:induction false} CountNone(es: seq<Effect>, p: Effect -> bool)
    requires forall i :: 0 <= i < |es| ==> !p(es[i])
    ensures Count(es, p) == 0
  {
    if es != [] {
      CountNone(es[1..], p);
    }
  }

  /** An effect of kind p at one position and nowhere else is counted once. */
  lemma CountExactlyOne(es: seq<Effect>, i: nat, p: Effect -> bool)
    requires i < |es| && p(es[i])
    requires forall j :: 0 <= j < |es| && j != i ==> !p(es[j])
    ensures Count(es, p) == 1
  {
    assert es == es[..i] + ([es[i]] + es[i + 1..]);
    CountNone(es[..i], p);
    CountNone(es[i + 1..], p);
    CountAppend([es[i]], es[i + 1..], p);
    CountAppend(es[..i], [es[i]] + es[i + 1..], p);
    assert [es[i]][1..] == [];
  }

  /** The key every store access of a call uses. */
  function KeyOf(cfg: Config, md5: string -> string, json: Json, opts: Value): string
    requires IsObject(opts)
  {
    Key(cfg.prefix, md5, json, opts.members)
  }

  /** Hit path: the callback gets the parsed entry; the store is read once,
      the origin is not asked and nothing is written. */
  lemma HitServesEntry(cfg: Config, md5: string -> string, json: Json, store: map<string, string>, opts: Value, env: Env)
    requires IsObject(opts)
    requires Hit(json, store, KeyOf(cfg, md5, json, opts), env.readError)
    ensures var key := KeyOf(cfg, md5, json, opts);
      Serve(cfg, md5, json, store, opts, env)
        == Run(Called(Data(json.parse(store[key]).value)), [StoreGet(key)], store)
  {
  }

  /** Past a miss, the origin is asked once, first; a write follows only a
      successful request; the store is not read again. */
  lemma MissEffects(cfg: Config, json: Json, store: map<string, string>, opts: Value, key: string, env: Env)
    ensures var es := Miss(cfg, json, store, opts, key, env).effects;
      && es[0] == OriginRequest(opts)
      && Count(es, IsRequest) == 1
      && Count(es, IsWrite) == (if env.origin.Fetched? then 1 else 0)
      && Count(es, IsRead) == 0
  {
    var es := Miss(cfg, json, store, opts, key, env).effects;
    CountExactlyOne(es, 0, IsRequest);
    CountNone(es, IsRead);
    if env.origin.Fetched? {
      CountExactlyOne(es, 1, IsWrite);
    } else {
      CountNone(es, IsWrite);
    }
  }

  /** The two shapes a call on an object descriptor takes. */
  lemma ServeShape(cfg: Config, md5: string -> string, json: Json, store: map<string, string>, opts: Value, env: Env)
    requires IsObject(opts)
    ensures var key := KeyOf(cfg, md5, json, opts);
      var read := ReadEffects(key, env.readError);
      var miss := Miss(cfg, json, store, opts, key, env);
      Serve(cfg, md5, json, store, opts, env)
        == if Hit(json, store, key, env.readError) then Run(Called(Data(json.parse(store[key]).value)), read, store)
           else Run(miss.outcome, read + miss.effects, miss.store)
  {
    var key := KeyOf(cfg, md5, json, opts);
    assert Truthy(ReadValue(json, env.readError, store, key)) <==> Hit(json, store, key, env.readError);
  }

  /** The origin is asked exactly when the store gave no usable entry, and
      then exactly once, after the read of the same key. */
  lemma OriginAskedIffNoHit(cfg: Config, md5: string -> string, json: Json, store: map<string, string>, opts: Value, env: Env)
    requires IsObject(opts)
    ensures var run := Serve(cfg, md5, json, store, opts, env);
      && run.effects[0] == StoreGet(KeyOf(cfg, md5, json, opts))
      && Count(run.effects, IsRequest) == (if Hit(json, store, KeyOf(cfg, md5, json, opts), env.readError) then 0 else 1)
      && Count(run.effects, IsRead) == 1
  {
    var key := KeyOf(cfg, md5, json, opts);
    var read := ReadEffects(key, env.readError);
    ServeShape(cfg, md5, json, store, opts, env);
    CountNone(read, IsRequest);
    CountExactlyOne(read, 0, IsRead);
    if !Hit(json, store, key, env.readError) {
      var miss := Miss(cfg, json, store, opts, key, env);
      MissEffects(cfg, json, store, opts, key, env);
      CountAppend(read, miss.effects, IsRequest);
      CountAppend(read, miss.effects, IsRead);
    }
  }

  /** Without a usable entry the caller sees exactly what the origin gave:
      store failures never reach the callback. */
  lemma MissAnswersAsOrigin(cfg: Config, md5: string -> string, json: Json, store: map<string, string>, opts: Value, env: Env)
    requires IsObject(opts)
    requires !Hit(json, store, KeyOf(cfg, md5, json, opts), env.readError)
    ensures Serve(cfg, md5, json, store, opts, env).outcome
         == Called(match env.origin case Fetched(d) => Data(d) case FetchFailed(e) => Error(e))
  {
    var key := KeyOf(cfg, md5, json, opts);
    assert !Truthy(ReadValue(json, env.readError, store, key));
  }

  /** A failed store read is logged twice, 'problem getting' first, and the
      origin is asked next. */
  lemma ReadErrorLogged(cfg: Config, md5: string -> string, json: Json, store: map<string, string>, opts: Value, env: Env)
    requires IsObject(opts) && env.readError.Some?
    ensures var key := KeyOf(cfg, md5, json, opts);
      Serve(cfg, md5, json, store, opts, env).effects[..4]
        == [StoreGet(key), LogError(ProblemGetting(key)), LogError(ErrorDetail(env.readError.value)), OriginRequest(opts)]
  {
    var key := KeyOf(cfg, md5, json, opts);
    ServeShape(cfg, md5, json, store, opts, env);
    MissEffects(cfg, json, store, opts, key, env);
  }

  /** A failed origin request is passed on verbatim and nothing is written. */
  lemma OriginErrorPropagates(cfg: Config, md5: string -> string, json: Json, store: map<string, string>, opts: Value, env: Env)
    requires IsObject(opts) && env.origin.FetchFailed?
    requires !Hit(json, store, KeyOf(cfg, md5, json, opts), env.readError)
    ensures var run := Serve(cfg, md5, json, store, opts, env);
      run.outcome == Called(Error(env.origin.err)) && run.store == store && Count(run.effects, IsWrite) == 0
  {
    var key := KeyOf(cfg, md5, json, opts);
    var read := ReadEffects(key, env.readError);
    ServeShape(cfg, md5, json, store, opts, env);
    MissEffects(cfg, json, store, opts, key, env);
    CountNone(read, IsWrite);
    CountAppend(read, Miss(cfg, json, store, opts, key, env).effects, IsWrite);
  }

  /** A successful origin request is written back exactly once, under the
      key that was read, with the descriptor's ttl or else the default, and
      as the serialised body; the callback gets the body either way. */
  lemma FetchedIsWrittenBack(cfg: Config, md5: string -> string, json: Json, store: map<string, string>, opts: Value, env: Env)
    requires IsObject(opts) && env.origin.Fetched?
    requires !Hit(json, store, KeyOf(cfg, md5, json, opts), env.readError)
    ensures var key := KeyOf(cfg, md5, json, opts);
      var text := json.stringify(env.origin.data);
      var run := Serve(cfg, md5, json, store, opts, env);
      && run.outcome == Called(Data(env.origin.data))
      && Count(run.effects, IsWrite) == 1
      && StoreSetex(key, Or(Property(opts, "ttl"), cfg.ttl), text) in run.effects
      && run.store == (if env.writeError.None? then store[key := text] else store)
  {
    var key := KeyOf(cfg, md5, json, opts);
    ServeShape(cfg, md5, json, store, opts, env);
    var read := ReadEffects(key, env.readError);
    var miss := Miss(cfg, json, store, opts, key, env);
    MissEffects(cfg, json, store, opts, key, env);
    CountNone(read, IsWrite);
    CountAppend(read, miss.effects, IsWrite);
    assert (read + miss.effects)[|read| + 1] == miss.effects[1];
  }

  /** The outcome of the store write never changes what the caller gets. */
  lemma WriteOutcomeInvisible(cfg: Config, md5: string -> string, json: Json, store: map<string, string>, opts: Value, env: Env, writeError: Option<JsError>)
    ensures Serve(cfg, md5, json, store, opts, env).outcome
         == Serve(cfg, md5, json, store, opts, env.(writeError := writeError)).outcome
  {
  }

  /** With the constructor's settings every write carries a truthy ttl: the
      descriptor's own when it is truthy (a ttl of 0 falls back), otherwise
      the configured one, which is 300 unless the options gave another. */
  lemma WriteTtlFromSettings(opts0: Value, md5: string -> string, json: Json, store: map<string, string>, opts: Value, env: Env)
    requires Configure(opts0).Success? && IsObject(opts)
    ensures var cfg := Configure(opts0).value;
      forall e :: e in Serve(cfg, md5, json, store, opts, env).effects && e.StoreSetex? ==>
        && Truthy(e.ttl)
        && e.ttl == (if Truthy(Property(opts, "ttl")) then Property(opts, "ttl") else cfg.ttl)
        && (!Truthy(Property(opts0, "ttl")) && !Truthy(Property(opts, "ttl")) ==> e.ttl == Num(300))
  {
    var cfg := Configure(opts0).value;
    WritesCarryTtl(cfg, json, store, opts, KeyOf(cfg, md5, json, opts), env);
  }

  /** Every write of a call carries `requestOpts.ttl || this.ttl`. */
  lemma WritesCarryTtl(cfg: Config, json: Json, store: map<string, string>, opts: Value, key: string, env: Env)
    ensures forall e :: e in Respond(cfg, json, store, opts, key, env).effects && e.StoreSetex? ==>
      e.ttl == Or(Property(opts, "ttl"), cfg.ttl)
  {
    var read := ReadEffects(key, env.readError);
    assert forall e :: e in read ==> !e.StoreSetex?;
  }

  // ----- The cache object -----

  class Cache {
    const redis: string
    const ttl: Value
    const prefix: Value
    /** The JSON codec and the MD5 hex digest the source takes from its libraries. */
    const json: Json
    const md5: string -> string
    /** The Redis keyspace behind `redis`, as this cache sees it. */
    var store: map<string, string>
    /** Every call to the store, the origin and the logger so far. */
    ghost var effects: seq<Effect>

    function Settings(): Config {
      Config(redis, ttl, prefix)
    }

    constructor (cfg: Config, json: Json, md5: string -> string, keyspace: map<string, string>)
      ensures Settings() == cfg && this.json == json && this.md5 == md5
      ensures store == keyspace && effects == []
    {
      redis, ttl, prefix := cfg.redis, cfg.ttl, cfg.prefix;
      this.json, this.md5 := json, md5;
      store := keyspace;
      effects := [];
    }

    /** `new Cache(opts)`: fails as the constructor's assertions do, and
        otherwise yields a cache with the configured settings. */
    static method Connect(opts: Value, json: Json, md5: string -> string, keyspace: map<string, string>)
      returns (r: Result<Cache, ConfigError>)
      ensures Configure(opts).Failure? ==> r == Failure(Configure(opts).error)
      ensures Configure(opts).Success? ==>
        && r.Success? && fresh(r.value)
        && r.value.Settings() == Configure(opts).value
        && r.value.json == json && r.value.md5 == md5
        && r.value.store == keyspace && r.value.effects == []
    {
      match Configure(opts)
      case Failure(e) => r := Failure(e);
      case Success(cfg) =>
        var c := new Cache(cfg, json, md5, keyspace);
        r := Success(c);
    }

    /** `fingerprint(obj)`: the prefix followed by the digest of the record
        the loop builds. */
    method Fingerprint(obj: seq<Member>) returns (key: string)
      ensures key == Key(prefix, md5, json, obj)
      ensures key[..|ToJsString(prefix)|] == ToJsString(prefix)
      ensures key[|ToJsString(prefix)|..] == md5(json.stringify(Obj(Cleaned(obj))))
    {
      var cleaned: seq<Member> := [];
      var keys := Sort(Names(obj));
      var i := 0;
      while i < |keys|
        invariant 0 <= i <= |keys|
        invariant cleaned == Fill(keys[..i], obj)
      {
        var k := Lower(keys[i]);
        FillStep(keys, i, obj);
        cleaned := Put(cleaned, k, Lookup(obj, k));
        i := i + 1;
      }
      assert keys[..i] == keys;
      key := ToJsString(prefix) + md5(json.stringify(Obj(cleaned)));
    }

    /** `get(requestOpts, callback)`: returns what the callback receives and
        leaves the store and the record of effects as Serve says. */
    method Get(requestOpts: Value, env: Env) returns (outcome: Outcome)
      modifies this
      ensures var run := Serve(Settings(), md5, json, old(store), requestOpts, env);
        && outcome == run.outcome
        && store == run.store
        && effects == old(effects) + run.effects
    {
      if !IsObject(requestOpts) {
        return ThrewNotObject;
      }
      var key := Fingerprint(requestOpts.members);
      outcome := Answer(requestOpts, key, env);
    }

    /** The `redis.get` callback: answer from the entry, or ask the origin. */
    method Answer(requestOpts: Value, key: string, env: Env) returns (outcome: Outcome)
      modifies this`store, this`effects
      ensures var run := Respond(Settings(), json, old(store), requestOpts, key, env);
        && outcome == run.outcome
        && store == run.store
        && effects == old(effects) + run.effects
    {
      var value := ReadStore(key, env.readError);
      if Truthy(value) {
        return Called(Data(value));
      }
      outcome := AskOrigin(requestOpts, key, env);
    }

    /** The `redis.get` callback up to `if (value)`: what it holds then. */
    method ReadStore(key: string, readError: Option<JsError>) returns (value: Value)
      modifies this`effects
      ensures value == ReadValue(json, readError, store, key)
      ensures effects == old(effects) + ReadEffects(key, readError)
    {
      effects := effects + [StoreGet(key)];
      if readError.Some? {
        effects := effects + [LogError(ProblemGetting(key)), LogError(ErrorDetail(readError.value))];
        value := Undefined;
      } else {
        value := if key in store then Str(store[key]) else Null;
        if Truthy(value) {
          value := SafeParse(json, value.s);
        }
      }
    }

    /** The `Request` callback: pass an error on, or write the body back
        and pass it on. */
    method AskOrigin(requestOpts: Value, key: string, env: Env) returns (outcome: Outcome)
      modifies this`store, this`effects
      ensures var miss := Miss(Settings(), json, old(store), requestOpts, key, env);
        && outcome == miss.outcome
        && store == miss.store
        && effects == old(effects) + miss.effects
    {
      effects := effects + [OriginRequest(requestOpts)];
      match env.origin {
        case FetchFailed(e) =>
          outcome := Called(Error(e));
        case Fetched(data) =>
          var ttl' := Or(Property(requestOpts, "ttl"), ttl);
          var text := json.stringify(data);
          effects := effects + [StoreSetex(key, ttl', text)];
          match env.writeError {
            case None =>
              store := store[key := text];
              effects := effects + [LogInfo(CachedKey(key))];
            case Some(e) =>
              effects := effects + [LogError(UnableToCache(key)), LogError(ErrorDetail(e))];
          }
          outcome := Called(Data(data));
      }
    }
  }
}
