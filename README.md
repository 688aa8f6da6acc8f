# Read-through response cache, modelled in Dafny

This project models `lib/cache.js` of the npm website (newww). That file is a read-through cache that sits in front of outbound HTTP requests. `Cache.prototype.get` computes a key from the request descriptor (`fingerprint`) and reads that key from Redis. If the entry is non-empty and parses to a truthy value, it answers from the entry. Otherwise it calls the origin through `request`, passes the origin's error on verbatim, or writes the serialised body back with `setex` and answers with the body.

Modules, one per concern:

- `JsValues` (`js_values.dfy`): JavaScript values, truthiness, `||`, `_.isObject`, property lookup, `Object.keys`, `String(v)`. It also holds the JSON codec, which the model leaves abstract.
- `JsStrings` (`js_strings.dfy`): `toLowerCase`, the default string order of `Array.prototype.sort`, and a reference sort. The lemmas prove that this order is total, antisymmetric and transitive, and that a sorted arrangement is unique.
- `Fingerprint` (`fingerprint.dfy`): the `cleaned` record that the key loop builds, and the key itself. It gives a loop-free description of that record and proves what the key depends on.
- `ResponseCache` (`cache.dfy`): the constructor's checks and defaults (`Configure`), and `Serve`, a pure function giving the outcome, effects and new store of one `get`. It also holds the lemmas about the hit, miss and error paths, and the `Cache` class. The class's `Fingerprint` method is the source's loop, with its invariant. Its `Get` method changes the store map as `Serve` says.

The cache's collaborators are parameters:

- MD5 is a function `string -> string`.
- `JSON.stringify` and `JSON.parse` are function-valued fields of `Json`. `parse` yields `None` where the real one throws.
- The outcome of the Redis read, the origin request and the Redis write is an `Env` value.
- The store is a `map<string, string>` field of `Cache`.
- Every store access, origin request and log call is appended to a ghost `effects` sequence. This lets the contracts count origin requests and writes and check their order.

Nothing assumes MD5 is injective, or that `JSON.parse` inverts `JSON.stringify`.

### What the key does and does not ignore

Lower-casing the names might suggest that the key ignores their case. It does not, because the code reads `obj[k]` after `k = k.toLowerCase()`, that is, it reads the descriptor under the lower-cased name rather than under the name it found. Three lemmas show the consequences:

- `Fingerprint.KeyIgnoresInsertionOrder`: insertion order never matters.
- `Fingerprint.MixedCaseValueIgnored`: case does matter. A field such as `Url` with no lower-case twin adds `url: undefined` to the record, so its value never reaches the key. Requests that differ only in such a field share one key.
- `Fingerprint.TtlIsHashed`: a `ttl` field is part of the key. The source marks this with a TODO.

Only top-level names are sorted. Nested objects are serialised in their own insertion order.

## Model

| member | source | states |
|---|---|---|
| `ResponseCache.Configure` | lib/cache.js:9-15 | Fails with OptionsNotObject exactly when opts is not an object. Fails with RedisUrlNotString exactly when it is an object whose `redis` is not a string. Otherwise it keeps the url. ttl is opts.ttl when truthy, else 300. prefix is opts.prefix when truthy, else 'cache:'. Both settings are therefore always truthy |
| `ResponseCache.ZeroTtlTakesDefault` | lib/cache.js:14-15 | `ttl: 0` gives the default 300. A string prefix such as 'request:' is kept |
| `ResponseCache.Cache.constructor` | lib/cache.js:13-16 | The object keeps the configured url, ttl and prefix, the injected codec and digest, and the store it is connected to |
| `ResponseCache.Cache.Connect` | lib/cache.js:9-17 | `new Cache(opts)` fails with exactly the error Configure reports. Otherwise it yields a fresh cache whose settings are Configure's |
| `ResponseCache.Cache.Fingerprint` | lib/cache.js:19-34 | The loop over the sorted names computes Key. The result starts with String(prefix), and the rest is exactly the digest of the serialised cleaned record |
| `JsStrings.Lower` | lib/cache.js:23 | Each letter A-Z becomes its lower-case partner (code + 32), and every other character is kept. So the result has the same length and no upper-case letter, and a name without one is unchanged |
| `JsStrings.LowerEqualIff` | lib/cache.js:23 | Two names lower-case to the same name exactly when they have the same length and agree letter by letter once A-Z are lowered. So `Url`, `URL` and `url` fold together |
| `JsStrings.LessEq` | lib/cache.js:21 | The order the default sort compares names in: character by character, with a prefix never after the longer name |
| `JsStrings.Sort` | lib/cache.js:21 | The sorted names are a permutation of the names |
| `JsStrings.SortSorted` | lib/cache.js:21 | The sorted names are in ascending string order |
| `JsStrings.SortedUnique` | lib/cache.js:21 | Two sorted permutations of the same names are equal, so any correct sort gives the same key |
| `JsStrings.LessEqTotal` | lib/cache.js:21 | Any two names are comparable in the sort order |
| `JsStrings.LessEqAntisymmetric` | lib/cache.js:21 | Names each at most the other are equal |
| `JsStrings.LessEqTransitive` | lib/cache.js:21 | The sort order is transitive |
| `Fingerprint.Put` | lib/cache.js:24 | After `cleaned[k] = v`, k holds v and every other name holds what it held before. An existing name keeps its position and a new one goes last. No other member appears |
| `Fingerprint.Fill` | lib/cache.js:22-25 | The loop's object after any sequence of names has at most that many members, its names are distinct and lower case, and each holds what the descriptor holds under that very name |
| `Fingerprint.Cleaned` | lib/cache.js:20-25 | The record that is serialised has at most as many members as the descriptor, with distinct lower-case names, each holding the descriptor's value under that name |
| `Fingerprint.Key` | lib/cache.js:29-33 | The key starts with the prefix converted to a string |
| `Fingerprint.Dedup` | lib/cache.js:22-25 | The reference record's names are repetition-free, and they are exactly the lower-cased names that were visited |
| `Fingerprint.FillIsRecord` | lib/cache.js:22-25 | After visiting any sequence of names, the loop's object has the lower-cased names, each at its first position. Each value is what the descriptor holds under the lower-cased name |
| `Fingerprint.CleanedIsRecord` | lib/cache.js:20-25 | The cleaned record equals the loop-free description built from the sorted names |
| `Fingerprint.CleanedNamesFromDescriptor` | lib/cache.js:21-24 | A name is in the cleaned record iff it is the lower-cased form of some descriptor name |
| `Fingerprint.CleanedShape` | lib/cache.js:20-25 | The cleaned record has distinct lower-case names, in the sorted order of the original names, and each value is read under the lower-cased name |
| `Fingerprint.LowercaseDescriptorSorts` | lib/cache.js:20-25 | An all-lower-case descriptor maps to itself: its names come out sorted and every lookup is unchanged |
| `Fingerprint.SortedLowercaseDescriptorHashedAsIs` | lib/cache.js:19-33 | An already sorted lower-case descriptor is its own cleaned record. Its key is the prefix plus the digest of the descriptor's own serialisation |
| `Fingerprint.CleanedDependsOnLoweredLookups` | lib/cache.js:21-25 | Descriptors with the same multiset of names, holding the same values under the lower-cased names, give the same cleaned record |
| `Fingerprint.KeyIgnoresInsertionOrder` | lib/cache.js:19-33 | Two descriptors with the same name-to-value map get the same key, whatever their insertion order |
| `Fingerprint.TtlIsHashed` | lib/cache.js:22-27 | A `ttl` field is not omitted. Its value is a member of the hashed record |
| `Fingerprint.SingleMemberCleaned` | lib/cache.js:20-25 | A one-property descriptor is hashed as that property under its lower-cased name. It holds the property's value when the name was already lower case, and undefined otherwise |
| `Fingerprint.MixedCaseValueIgnored` | lib/cache.js:23-24 | `{Url: a}` gives the record `{url: undefined}`, so `{Url: a}` and `{Url: b}` share one key |
| `Fingerprint.PrefixesSeparateKeys` | lib/cache.js:33 | Caches whose prefixes differ but have equal length never produce the same key |
| `ResponseCache.SafeParse` | lib/cache.js:36-42 | The result is what `JSON.parse` returns when it succeeds, and null when it throws |
| `ResponseCache.ReadValue` | lib/cache.js:51-58 | The value `if (value)` tests is truthy exactly when the read succeeded and found a non-empty entry that parses to a truthy value. It is then that parsed value |
| `ResponseCache.Miss` | lib/cache.js:61-74 | The origin request comes first. The callback gets the origin's body or error. The store gains the serialised body exactly when the request and the write both succeed |
| `ResponseCache.Respond` | lib/cache.js:51-74 | The store is read under the given key first. On a hit, the parsed entry is the answer and nothing else happens. Otherwise the answer and the new store are those of the origin step |
| `ResponseCache.Serve` | lib/cache.js:45-76 | A non-object descriptor throws before any store access, origin request or write, and leaves the store unchanged. Otherwise the call answers through the callback, its first effect is the read of the fingerprint key, and the store either stays as it was or gets the origin body under that key |
| `ResponseCache.HitServesEntry` | lib/cache.js:51-59 | Suppose the read succeeds and finds non-empty text that parses to a truthy value. Then the callback gets that value, the only effect is the read of the key, and the store is unchanged |
| `ResponseCache.ServeShape` | lib/cache.js:50-61 | A call on an object descriptor either answers from the entry after the read, or runs the origin step after the read, depending on the hit condition |
| `ResponseCache.MissEffects` | lib/cache.js:61-73 | Past a miss, the origin is asked first and exactly once. Exactly one write follows a successful request, and none follows a failed one. The store is not read again |
| `ResponseCache.OriginAskedIffNoHit` | lib/cache.js:50-61 | Every call reads the fingerprint key first, and reads the store exactly once. The origin is asked 0 times on a hit and exactly once otherwise: after a read error, an absent or empty entry, an unparseable entry, or one that parses to a falsy value |
| `ResponseCache.MissAnswersAsOrigin` | lib/cache.js:36-73 | Without a usable entry, the callback gets exactly the origin's body or error. Store failures never reach it |
| `ResponseCache.ReadErrorLogged` | lib/cache.js:51-54 | A failed read is followed by two error logs, 'problem getting' first, and then the origin request |
| `ResponseCache.OriginErrorPropagates` | lib/cache.js:61-62 | An origin error is passed on verbatim, the store is unchanged and nothing is written |
| `ResponseCache.FetchedIsWrittenBack` | lib/cache.js:61-73 | A successful request is written exactly once, under the key that was read. The write uses `requestOpts.ttl \|\| this.ttl` and the serialised body. The callback gets the body. The store changes only if the write succeeds |
| `ResponseCache.WriteOutcomeInvisible` | lib/cache.js:65-73 | Whether the write succeeds or fails never changes what the caller gets |
| `ResponseCache.WritesCarryTtl` | lib/cache.js:64-65 | Whatever the key and the outcomes, every write a call makes carries `requestOpts.ttl \|\| this.ttl` |
| `ResponseCache.WriteTtlFromSettings` | lib/cache.js:64 | With constructor settings, every write's ttl is truthy. It is the descriptor's ttl when that is truthy (so 0 falls back) and the configured ttl otherwise. It is 300 when neither the options nor the descriptor give one |
| `ResponseCache.Cache.ReadStore` | lib/cache.js:51-58 | The read callback holds nothing after an error, the raw reply when it is falsy, and the parsed reply (null if unparseable) otherwise. It logs the two error lines on a failure |
| `ResponseCache.Cache.Answer` | lib/cache.js:51-74 | The store-read callback's outcome, store and effects are those of Respond for the key |
| `ResponseCache.Cache.AskOrigin` | lib/cache.js:61-74 | The origin callback's outcome, store and effects are those of Miss. The store gains the serialised body only when the write succeeds |
| `ResponseCache.Cache.Get` | lib/cache.js:45-76 | The answer, the new store and the appended effects are exactly those of Serve on the old store |

## Left out

- The Redis connection (`Redis.connect`) and the HTTP client (`request`) are not modelled. They are replaced by the store map and by the injected outcomes in `Env`. The `response` argument of the request callback is not used by the source and is not modelled.
- Expiry is not modelled. The store map has no clock, so `setex` stores the text and the ttl appears only in the recorded effect. The write outcome is an input and does not depend on whether Redis would accept that ttl.
- MD5 and the JSON codec are uninterpreted parameters. In particular, the model does not include these JSON behaviours:
  - `JSON.stringify` drops `undefined` members.
  - `JSON.stringify(undefined)` is `undefined`.
  - Integer-like property names are enumerated in numeric order.
- Asynchrony is not modelled. Each `get` is one atomic step. The fire-and-forget `setex` is recorded before its log line. Concurrent calls with no request coalescing are not modelled.
- The promise form of `get` is not modelled, because the source does not implement it.
- Only the kind of each log line and its key or error are kept; logger text is left out.
- `assert(_.isObject(_this.redis))` is not modelled, because the constructor always sets `redis` to a client object, so that assertion cannot fail in the model.
- Error arguments are truthy by type (`JsError`). A falsy error such as `null` or `0` takes the same path as no error at all (`if (err)` at lib/cache.js:52, 62 and 66), so the model writes it as no error, or as a fetched response when it comes from the origin.
- A failed Redis read is modelled as passing no value, which is how the Redis client behaves. A read that returned an error together with a value is not modelled.
- Lower-casing covers ASCII letters only. The string order compares characters by code point. JavaScript compares UTF-16 code units, and the two orders differ only for characters outside the Basic Multilingual Plane.
- Numbers are integers of any size, so NaN, -0 and fractions are not modelled. `String(n)` is written with every digit, so the exponent notation from 1e21 up and the loss of exactness beyond 2^53 are not modelled. These matter only for a numeric `prefix`. Arrays, functions and boxed strings are modelled as plain objects. Inherited properties and `__proto__` are not modelled.
- The other files of the repository are request handlers, browser code and tests of other services. They are not part of this model.
