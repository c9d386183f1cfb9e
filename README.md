# ETIM gateway core — a Dafny model

The ETIM gateway puts an MCP server in front of the ETIM classification API
(product classes, features, values, units, groups, releases). Its core has
three parts, and this project models all three.

* **The response and credential cache** (`RedisCache`). This is a key/value store in which every entry
  has its own expiry. It is reached through a client that may be missing, or a store that may fail.
  It never raises: a read answers a miss, and a write or delete answers `false`. The key builder
  joins a prefix and the `str()` of every argument that is not `None` with `:`.
* **The bearer-token lifecycle** (`EtimTokenManager`). One cache slot, `etim:auth:token`, holds
  `{access_token, expires_at}`. A cached token is reused while `now < expires_at - 300`. Otherwise a
  client-credentials exchange (section 4.4 of RFC 6749) fetches a new one. The new token is written
  back with a time-to-live of `expires_in - 300`. A forced refresh deletes the slot first and always
  exchanges.
* **The request pipeline** (`EtimAPIClient`). `_make_request` sends the token as
  `Authorization: Bearer <token>` (section 2.1 of RFC 6750). On a 401 it forces one refresh and
  retries once with retrying switched off. Every endpoint follows the cache-aside shape:
  1. build the key;
  2. return a truthy cached value as is;
  3. otherwise call upstream;
  4. store the result under the same key with the endpoint's time-to-live (1 h for searches,
     24 h for details, 7 days for language and release lists).

Modules, one per file:

| module | file | contents |
|---|---|---|
| `Wrappers` | wrappers.dfy | `Option`, `Result` |
| `Json` | json.dfy | parsed JSON values and Python truthiness |
| `Text` | text.dfy | `str()` of integers, booleans and tuples; `join`; Python string order |
| `Sorting` | sorting.dfy | the stable `sorted(..., key=...)` the filter key uses |
| `Cache` | cache.dfy | `GenerateKey` and the `TtlCache` class |
| `Auth` | auth.dfy | the scripted token endpoint `AuthServer` and the `TokenManager` class |
| `Keys` | keys.dfy | pure key and request-body builders of every endpoint |
| `Client` | client.dfy | the scripted remote API `Upstream` and the `ApiClient` class |

The outside world appears in these forms:

* The clock is a parameter `now` (whole seconds) on every call that reads it. Every clock reading
  inside one endpoint call, including those of a refresh and a retry, is that same `now`.
* The token endpoint is an `AuthServer` object. It answers from a script of grants, and an exhausted
  script refuses.
* The remote API is an `Upstream` object. It answers from a script of replies and logs every request
  it receives. An exhausted script means the request failed in transport.
* The store is the `store` map of a `TtlCache`. Its `connected` flag says whether a client object is
  held. Its `reachable` flag says whether the store answers; when it is false, every store call
  raises inside the source and is caught there.

## Model

| member | source | states |
|---|---|---|
| `Cache.GenerateKey` | src/etim_mcp/cache.py:136-148 | the key starts with the prefix |
| `Cache.GenerateKeySnoc` | src/etim_mcp/cache.py:147-148 | with no arguments the key is the prefix; each further argument appends `":" + str(a)` in argument order, except a `None` argument, which appends nothing |
| `Cache.GenerateKeyDropsNull` | src/etim_mcp/cache.py:147 | removing a `None` argument anywhere leaves the key unchanged |
| `Cache.KeyPartsContent` | src/etim_mcp/cache.py:147 | every argument that is not `None` contributes its `str()`, and every part comes from such an argument |
| `Cache.KeyPartsConcat` | src/etim_mcp/cache.py:147 | the parts of a concatenation of arguments are the concatenation of their parts |
| `Text.NatToString` | src/etim_mcp/cache.py:147 | `str(n)` of a natural number is non-empty, all digits, without a leading zero |
| `Text.NatToStringRoundTrip` | src/etim_mcp/cache.py:147 | reading the digits of `str(n)` back gives `n` |
| `Text.TupleToString` | src/etim_mcp/cache.py:147 | `str()` of a tuple is bracketed by `(` and `)` |
| `Text.JoinSnoc` | src/etim_mcp/cache.py:148 | joining one more part appends the separator and that part |
| `Cache.SetThenLookup` | src/etim_mcp/cache.py:57-61 | a value written at `t` with time-to-live `ttl` reads back unchanged before `t + ttl`, and is a miss from then on; other keys read as before |
| `Cache.RemoveThenLookup` | src/etim_mcp/cache.py:107-109 | after a delete the key is a miss at every instant |
| `Cache.TtlCache.Read` | src/etim_mcp/cache.py:43-66 | with no client or a failing store the read is `None`; otherwise it is the live entry's value or `None` |
| `Cache.TtlCache.Get` | src/etim_mcp/cache.py:43-66 | returns exactly `Read`: the live value, or `None` on a miss, with no client, or when the store raises |
| `Cache.TtlCache.Set` | src/etim_mcp/cache.py:68-91 | succeeds iff a client is held, the store answers and the time-to-live is positive; on success the entry is replaced by the value with expiry `now + ttl`, so the last writer wins; on failure the store is unchanged |
| `Cache.TtlCache.Delete` | src/etim_mcp/cache.py:93-112 | answers `true` iff a live entry was removed; the key is gone whenever the store answered; with no client or a failing store nothing changes |
| `Cache.TtlCache.Ping` | src/etim_mcp/cache.py:114-128 | answers `true` iff a client is held and the store answers |
| `Cache.TtlCache.constructor` | src/etim_mcp/cache.py:12-41 | a cache with the given connection state and contents |
| `Auth.AuthServer.Exchange` | src/etim_mcp/auth.py:76-94 | one exchange consumes the next grant of the script and is counted |
| `Auth.ViewSlot` | src/etim_mcp/auth.py:48-52 | reference definition of how `get_token` reads the slot: a falsy value is no record; a dict yields `access_token` (default `None`) and `expires_at` (default 0); anything else raises in the source |
| `Auth.TokenDecision` | src/etim_mcp/auth.py:50-62 | reference definition of `get_token`'s result: an unreadable slot fails, a usable record's token is returned, otherwise the exchange decides; its properties are `ReuseIffUsable` and `MissingExpiryNeverUsable` |
| `Auth.Remember` | src/etim_mcp/auth.py:97-105 | reference definition of the write after an exchange: a grant is stored as `{access_token, expires_at = now + expires_in}` with expiry `now + expires_in - 300`, only through a working cache and when that time-to-live is positive |
| `Auth.TokenAfterRefresh` | src/etim_mcp/auth.py:117-126 | reference definition of the token the re-entered `get_token` yields after `refresh_token`: a refused refresh fails, a remembered grant is reused, otherwise one more exchange decides |
| `Auth.AfterGetToken` | src/etim_mcp/auth.py:48-62 | reference definition of `get_token`'s effect: one exchange and its write iff an exchange is needed, nothing otherwise |
| `Auth.AfterRefreshAndGet` | src/etim_mcp/auth.py:117-126 | reference definition of `refresh_token` followed by `get_token`: delete, one exchange, and when it was granted the effect of the next `get_token` |
| `Auth.ExchangedTokenReused` | src/etim_mcp/auth.py:48-105 | after a `get_token` that exchanged for a token good for more than 300 s through a working cache, every later `get_token` until 300 s before expiry returns that token and changes nothing |
| `Auth.RefreshLeavesNewToken` | src/etim_mcp/auth.py:117-126 | a granted refresh good for more than 300 s costs exactly one exchange, replaces the slot with the new record, and the next `get_token` reads that record |
| `Auth.RememberTouchesOnlySlot` | src/etim_mcp/auth.py:101-105 | writing the token, with or without deleting it first, changes no cache key but `etim:auth:token` |
| `Auth.ReuseIffUsable` | src/etim_mcp/auth.py:48-62 | a readable slot is reused without an exchange iff it holds a record and `now < expires_at - 300`; then the cached token is returned, otherwise the exchange's result |
| `Auth.MissingExpiryNeverUsable` | src/etim_mcp/auth.py:52-55 | a record without `expires_at` reads as expiring at 0 and is never reused at a non-negative time |
| `Auth.RememberedTokenReused` | src/etim_mcp/auth.py:55-105 | after a grant with `expires_in > 300` at `t0`, the slot is live exactly while the token is usable, and until `t0 + expires_in - 300` it yields that token without an exchange |
| `Auth.RefreshThenDecide` | src/etim_mcp/auth.py:117-126 | after a granted refresh, the next `get_token` reuses the new token when the cache works and `expires_in > 300`, and otherwise exchanges once more |
| `Auth.TokenManager.FetchNewToken` | src/etim_mcp/auth.py:64-115 | exactly one exchange; on a grant it returns the token and writes `{access_token, expires_at = now + expires_in}` with time-to-live `expires_in - 300`; a refused exchange fails and writes nothing |
| `Auth.TokenManager.GetToken` | src/etim_mcp/auth.py:37-62 | the result is the decision on the slot read at `now`; exactly one exchange happens iff there is no record or it is not usable, and none otherwise, leaving cache and token endpoint untouched |
| `Auth.TokenManager.RefreshToken` | src/etim_mcp/auth.py:117-126 | deletes the slot and always performs one exchange; after a failed refresh no token is left in the slot |
| `Auth.TokenManager.constructor` | src/etim_mcp/auth.py:18-29 | a manager over the given cache and token endpoint |
| `Keys.Language` | src/etim_mcp/client.py:117 | a missing or empty language becomes the default; any other is kept |
| `Json.Truthy` | src/etim_mcp/client.py:130-131 | Python truthiness of a parsed value, as `if cached:` and `if cached_data:` test it: `None`, `False`, `0`, `""`, `[]` and `{}` are false |
| `Sorting.SortBy` | src/etim_mcp/client.py:122-125 | the sort returns a permutation of its input |
| `Sorting.SortBySorted` | src/etim_mcp/client.py:124 | the sort's output is ordered by the key |
| `Sorting.SortByStable` | src/etim_mcp/client.py:124 | elements with equal keys keep their input order |
| `Sorting.SortedUnique` | src/etim_mcp/client.py:124 | two sequences that are ordered by the same key, are permutations of each other, and whose key decides the element are equal |
| `Sorting.SortByPermutationInvariant` | src/etim_mcp/client.py:124 | sorting two permutations of each other, whose key decides the element, gives the same result |
| `Sorting.SortByAligned` | src/etim_mcp/client.py:122-125 | sorting two sequences whose elements correspond by the key keeps the correspondence |
| `Text.BelowReflexive` | src/etim_mcp/client.py:124 | Python string order is reflexive |
| `Text.BelowAntisymmetric` | src/etim_mcp/client.py:124 | Python string order is antisymmetric |
| `Text.BelowTransitive` | src/etim_mcp/client.py:124 | Python string order is transitive |
| `Text.BelowTotal` | src/etim_mcp/client.py:124 | Python string order is total |
| `Keys.FilterEntries` | src/etim_mcp/client.py:122-125 | one entry per filter, in the order given |
| `Keys.FilterKey` | src/etim_mcp/client.py:120-125 | reference definition of the filter key: `None` when there are no filters, otherwise the tuple of `code:v1,v2,...` entries with sorted values, ordered stably by code; its properties are the lemmas that follow |
| `Keys.FilterEntryIgnoresValueOrder` | src/etim_mcp/client.py:123 | a filter's entry `code:v1,v2,...` does not depend on the order of its values |
| `Keys.FilterKeyIgnoresValueOrder` | src/etim_mcp/client.py:120-125 | the filter key does not depend on the order of values inside any filter |
| `Keys.FilterKeyIgnoresFilterOrder` | src/etim_mcp/client.py:120-125 | the filter key does not depend on the order of filters whose codes are distinct |
| `Keys.SearchClassesKeyCanonical` | src/etim_mcp/client.py:120-129 | the class-search key is the same for every reordering of values and of distinct-code filters |
| `Keys.ClassRefTexts` | src/etim_mcp/client.py:410 | one `code:version` text per requested class, in order |
| `Keys.BatchEntryDefaultsToLatest` | src/etim_mcp/client.py:410 | a class requested without a version appears as `code:latest` in the batch key |
| `Keys.ClassRefTextLatest` | src/etim_mcp/client.py:410 | a class without a version reads `code:latest` |
| `Keys.ClassDetailsManyKeyShape` | src/etim_mcp/client.py:410-411 | the batch key is `class:many`, the tuple of class texts, the language and `True`/`False`, joined by `:` |
| `Keys.SearchClassesKey` | src/etim_mcp/client.py:127-129 | the class-search key: `search:class`, text, language, modelling flag, filter key, `from` and `size`, with `None` ones dropped |
| `Keys.ClassDetailsKey` | src/etim_mcp/client.py:183 | the class-detail key: `class`, code, version when given, language and the features flag |
| `Keys.ClassDetailsManyKey` | src/etim_mcp/client.py:410-411 | the batch key: `class:many`, the tuple of `code:version` texts, language and the features flag |
| `Keys.SearchKey` | src/etim_mcp/client.py:238 | the key of a plain paged search: prefix, text, language, `from` and `size` (also lines 311 and 714) |
| `Keys.DeprecatedSearchKey` | src/etim_mcp/client.py:556 | the key of a value or unit search: prefix, text, language, the deprecated flag, `from` and `size` (also line 636) |
| `Keys.CodeKey` | src/etim_mcp/client.py:273 | the key of a plain detail lookup: prefix, code and language (also lines 593, 673 and 750) |
| `Keys.ClassVersionsKey` | src/etim_mcp/client.py:457 | `class:allversions`, code, language and the features flag |
| `Keys.ClassForReleaseKey` | src/etim_mcp/client.py:505 | `class:release`, code, release, language and the features flag |
| `Keys.GroupDetailsKey` | src/etim_mcp/client.py:789 | `group`, code, language and the releases flag |
| `Keys.ClassDiffKey` | src/etim_mcp/client.py:831 | `class:diff`, code, version and language |
| `Keys.ResponseKeysAvoidTokenSlot` | src/etim_mcp/client.py:127-129 | no endpoint's cache key can equal the token slot's key |
| `Keys.ClassRefsJson` | src/etim_mcp/client.py:417-419 | the batch body lists the requested classes in order |
| `Keys.FiltersJson` | src/etim_mcp/client.py:150-152 | the search body lists the filters in the caller's order, unsorted |
| `Keys.SearchClassesBody` | src/etim_mcp/client.py:139-152 | `modelling` is sent iff given, `filters` iff non-empty; text and language are always sent |
| `Keys.ClassDetailsBody` | src/etim_mcp/client.py:190-208 | `version` is sent iff given; descriptions and translations are always requested; the fields are `Features, Group` or just `Group` according to the flag |
| `Keys.ClassDetailsManyBody` | src/etim_mcp/client.py:417-429 | the batch body: the classes in the caller's order, the language, and fields `Group, Releases` plus `Features` when asked |
| `Keys.SearchBody` | src/etim_mcp/client.py:244-249 | a plain search body: language, `from`, `size`, text, and descriptions requested for feature-group search only (also lines 317-322 and 720-726) |
| `Keys.DeprecatedSearchBody` | src/etim_mcp/client.py:562-569 | a value or unit search body: the plain fields, the deprecated flag, and descriptions requested (also lines 642-649) |
| `Keys.CodeBody` | src/etim_mcp/client.py:279-283 | a plain detail body: language and code, with descriptions requested, and translations too except for feature details (also lines 599-606, 679-686 and 756-763) |
| `Keys.ClassVersionsBody` | src/etim_mcp/client.py:463-475 | the all-versions body: code, language, and fields `Group, Releases` plus `Features` when asked |
| `Keys.ClassForReleaseBody` | src/etim_mcp/client.py:511-524 | the for-release body: code, release, language, and fields `Group, Releases` plus `Features` when asked |
| `Keys.GroupDetailsBody` | src/etim_mcp/client.py:795-805 | the group body: language, code, descriptions and translations, and field `Releases` only when asked |
| `Keys.ClassDiffBody` | src/etim_mcp/client.py:837-846 | the diff body: language, code, version, and fields `Group, Releases, Features` |
| `Client.Classify` | src/etim_mcp/client.py:81-89 | a reply succeeds iff it is a 2xx, and then its body is returned unchanged |
| `Client.BearerRoundTrip` | src/etim_mcp/client.py:61-67 | the Authorization header carries the token, and only the token, after `Bearer ` |
| `Client.Upstream.Send` | src/etim_mcp/client.py:69-73 | a request is logged and answered by the next scripted reply |
| `Client.RequestTrace` | src/etim_mcp/client.py:35-89 | reference definition of `_make_request` on the request side: the requests sent, the refreshes forced and the result, given the token `get_token` yields, the token after a forced refresh and the scripted replies; its properties are the `Trace…` lemmas below |
| `Client.TraceShape` | src/etim_mcp/client.py:57-79 | nothing is sent without a token; the first request carries the token `get_token` gave; there is at most one refresh, made exactly after a 401 with retrying on; a second request goes out exactly when that refresh leaves a token, and carries it; never more than two requests |
| `Client.TraceResult` | src/etim_mcp/client.py:76-89 | a token failure, or a failed refresh, is the result; otherwise the result is the last reply classified, so it is the body exactly when that reply is a 2xx and a second 401 fails |
| `Client.TraceRequestsAgree` | src/etim_mcp/client.py:57-73 | every request of one call has the caller's method, endpoint and body (none for GET), and an Authorization header `Bearer <token>` with the first or the refreshed token |
| `Client.RetryTrace` | src/etim_mcp/client.py:76-79 | a retried 401 is the first request, one refresh, and then exactly what a call without retrying does on the remaining replies with the refreshed token |
| `Client.TraceWithoutRetry` | src/etim_mcp/client.py:76 | with retrying off no refresh is forced, whatever the token a refresh would have left |
| `Client.RequestTokens` | src/etim_mcp/client.py:57-79 | reference definition of `_make_request` on the token side: the first `get_token`, and after a forced refresh the refresh and the re-entered `get_token` on the grants left |
| `Client.RequestTokensBound` | src/etim_mcp/client.py:57-79 | one call makes at most one exchange, or three when a 401 forces a refresh, and at least one then; with a usable cached token and no refresh it changes nothing; no cache key but the token slot changes |
| `Client.MakeRequestOutcome` | src/etim_mcp/client.py:35-89 | reference definition of one `_make_request` on the whole state: `RequestTrace` for the requests, refreshes and result, `RequestTokens` for the token cache, the grants and the exchanges |
| `Client.RetryOutcome` | src/etim_mcp/client.py:76-79 | reference definition of the 401 path on the whole state: one forced refresh, then the call without retrying with the token the refresh leaves behind |
| `Client.AttemptIsFinal` | src/etim_mcp/client.py:57-89 | with no token, or a reply that is not a retried 401, the call is its first attempt: a token failure is the result with nothing sent, otherwise the one reply classified |
| `Client.AttemptThenRetry` | src/etim_mcp/client.py:76-79 | a retried 401 is the first attempt followed by the 401 path on the state it left, with the grants `get_token` did not use |
| `Client.RefreshThenCall` | src/etim_mcp/auth.py:117-126 | the 401 path is `refresh_token` followed by a call with retrying off; a refused refresh sends nothing and fails |
| `Client.RetryLeavesRefreshedToken` | src/etim_mcp/client.py:76-79 | after a 401 and a granted refresh good for more than 300 s through a working cache, the retry carries the refreshed token, the call costs exactly one exchange more than `get_token` made, and the slot holds the refreshed token, not the rejected one |
| `Client.TokenCarriesOver` | src/etim_mcp/auth.py:48-105 | a call whose `get_token` exchanged for a token good for more than 300 s, with no 401, leaves that token for every later call until 300 s before its expiry, with no further exchange |
| `Client.ApiClient.MakeRequest` | src/etim_mcp/client.py:35-89 | the requests logged, the replies consumed, the refreshes forced, the grants consumed, the exchanges made, the token cache left behind and the result are exactly those `MakeRequestOutcome` gives for the state before the call; no key but the token slot changes |
| `Client.ApiClient.Attempt` | src/etim_mcp/client.py:57-73 | the token is the one `get_token` decides on from the state before the call; the state afterwards is `get_token`'s effect plus, with a token, exactly one request with that token, the endpoint and the body (none for GET), whose answer is the next scripted reply; a token failure sends nothing |
| `Client.ApiClient.RetryAfterRefresh` | src/etim_mcp/client.py:76-79 | the whole state and the result are those `RetryOutcome` gives: one refresh, then a refused exchange sends nothing and fails, while a granted one leads to exactly one request carrying the token the refresh leaves behind, whose reply is final |
| `Client.ApiClient.CacheAside` | src/etim_mcp/client.py:127-159 | a truthy cached value is returned with no token fetch, no request and no change to any state; a falsy or missing one is a miss, handled as `FetchAndStore` states |
| `Client.ApiClient.FetchAndStore` | src/etim_mcp/client.py:154-159 | the request runs exactly as `MakeRequestOutcome` says, its result is returned unchanged, and the response cache is the one the request left with the result written back as `Written` says, under the key looked up; when the response cache and the token cache are one object, both effects land in it |
| `Client.Written` | src/etim_mcp/client.py:157 | reference definition of the write-back: a success is stored under the key with expiry `now + ttl` when the cache works and the time-to-live is positive; anything else leaves the store as it was |
| `Client.WrittenReadsBack` | src/etim_mcp/client.py:130-157 | what a miss wrote back is exactly what a later lookup of the key returns until `now + ttl`, and a miss from then on; a failure or an unstored result leaves the store unchanged; no other key changes |
| `Client.ApiClient.SearchClasses` | src/etim_mcp/client.py:91-159 | cache-aside as `CacheAside` states, under the canonical class-search key, 1 h, `POST /api/v2/Class/Search` |
| `Client.ApiClient.GetClassDetails` | src/etim_mcp/client.py:161-215 | cache-aside as `CacheAside` states, under `class:code[:version]:lang:flag`, 24 h, `POST /api/v2/Class/Details` |
| `Client.ApiClient.SearchFeatures` | src/etim_mcp/client.py:217-254 | cache-aside as `CacheAside` states, under `search:feature:…`, 1 h, `POST /api/v2/Feature/Search` |
| `Client.ApiClient.GetFeatureDetails` | src/etim_mcp/client.py:256-288 | cache-aside as `CacheAside` states, under `feature:code:lang`, 24 h, `POST /api/v2/Feature/Details`, descriptions only |
| `Client.ApiClient.SearchGroups` | src/etim_mcp/client.py:290-327 | cache-aside as `CacheAside` states, under `search:group:…`, 1 h, `POST /api/v2/Group/Search` |
| `Client.ApiClient.GetAllowedLanguages` | src/etim_mcp/client.py:329-347 | cache-aside as `CacheAside` states, under `languages:allowed`, 7 days, `GET /api/v2/Misc/LanguagesAllowed` with no body |
| `Client.ApiClient.GetReleases` | src/etim_mcp/client.py:349-367 | cache-aside as `CacheAside` states, under `releases`, 7 days, `GET /api/v2/Misc/Releases` with no body |
| `Client.ApiClient.GetAllLanguages` | src/etim_mcp/client.py:369-387 | cache-aside as `CacheAside` states, under `languages:all`, 7 days, `GET /api/v2/Misc/Languages` with no body |
| `Client.ApiClient.GetClassDetailsMany` | src/etim_mcp/client.py:389-436 | cache-aside as `CacheAside` states, under the batch key, 24 h, `POST /api/v2/Class/DetailsMany` |
| `Client.ApiClient.GetAllClassVersions` | src/etim_mcp/client.py:438-482 | cache-aside as `CacheAside` states, under `class:allversions:…`, 24 h, `POST /api/v2/Class/DetailsManyByCode` |
| `Client.ApiClient.GetClassForRelease` | src/etim_mcp/client.py:484-531 | cache-aside as `CacheAside` states, under `class:release:…`, 24 h, `POST /api/v2/Class/DetailsForRelease` |
| `Client.ApiClient.SearchValues` | src/etim_mcp/client.py:533-574 | cache-aside as `CacheAside` states, under `search:value:…`, 1 h, `POST /api/v2/Value/Search` |
| `Client.ApiClient.GetValueDetails` | src/etim_mcp/client.py:576-611 | cache-aside as `CacheAside` states, under `value:code:lang`, 24 h, `POST /api/v2/Value/Details` |
| `Client.ApiClient.SearchUnits` | src/etim_mcp/client.py:613-654 | cache-aside as `CacheAside` states, under `search:unit:…`, 1 h, `POST /api/v2/Unit/Search` |
| `Client.ApiClient.GetUnitDetails` | src/etim_mcp/client.py:656-691 | cache-aside as `CacheAside` states, under `unit:code:lang`, 24 h, `POST /api/v2/Unit/Details` |
| `Client.ApiClient.SearchFeatureGroups` | src/etim_mcp/client.py:693-731 | cache-aside as `CacheAside` states, under `search:featuregroup:…`, 1 h, `POST /api/v2/FeatureGroup/Search` |
| `Client.ApiClient.GetFeatureGroupDetails` | src/etim_mcp/client.py:733-768 | cache-aside as `CacheAside` states, under `featuregroup:code:lang`, 24 h, `POST /api/v2/FeatureGroup/Details` |
| `Client.ApiClient.GetGroupDetails` | src/etim_mcp/client.py:770-810 | cache-aside as `CacheAside` states, under `group:code:lang:flag`, 24 h, `POST /api/v2/Group/Details` |
| `Client.ApiClient.GetClassDiff` | src/etim_mcp/client.py:812-851 | cache-aside as `CacheAside` states, under `class:diff:code:version:lang`, 24 h, `POST /api/v2/Class/DetailsDiff` |
| `Client.ApiClient.TestConnection` | src/etim_mcp/client.py:853-864 | `true` iff the allowed-languages lookup succeeds; every failure becomes `false` |
| `Client.ApiClient.constructor` | src/etim_mcp/client.py:15-27 | a client over the given token manager, cache, remote API and default language |

The constants come from src/etim_mcp/auth.py:15-16 (`etim:auth:token`, 300 s) and
src/etim_mcp/config.py:22-24 (3600, 86400 and 604800 s). They are `Auth.TokenCacheKey`,
`Auth.TokenExpiryBuffer`, `Keys.CacheTtl`, `Keys.CacheClassTtl` and `Keys.CacheLanguagesTtl`.

## Left out

- Concurrency: every operation is one sequential step. The interleavings that asynchronous callers
  allow are not modelled.
- The code has no lock and no single-flight around the token exchange. Concurrent callers may each
  exchange, and no coalescing is modelled.
- The code has no response trimming, no detail modes and no size ceilings, so the model has none.
- `Client.ApiClient.MakeRequest`: all clock readings inside one call are taken as equal. In the source, `get_token`
  reads `time.time()` at src/etim_mcp/auth.py:55 and the exchange reads it again at line 97, once
  per exchange. A token that expires between the first request and the retry's `get_token` is
  therefore not modelled.
- `Client.ApiClient.RetryAfterRefresh`: the refresh and the re-entered request use the same `now`. The exchange's
  `expires_at` and the retry's usability check are taken at one instant.
- `Auth.TokenManager.FetchNewToken`: `expires_at` is computed from the `now` of the call, not from a fresh reading taken
  after the exchange answered.
- Redis, httpx and JSON text. The store holds parsed values, so serialising and parsing are
  identities. A 2xx reply whose body is not JSON (`response.json()` raising) is not modelled.
- Store faults are per object (`reachable`), not per call. A store that fails for one call and
  answers the next is not modelled.
- `time.time()` is a float. The model's clock is whole seconds, so `expires_at` is an integer.
- Logging, the lazy creation of HTTP clients, `connect`, and every `close`.
- The form body and URL of the token exchange. The exchange is an oracle that grants
  `(access_token, expires_in)` or refuses; a malformed token response counts as a refusal.
- `Client.TokenText`: `str()` of a token is exact for strings, `None`, booleans and integers. For a
  list or dict found in the slot it is a placeholder.
- `Text.TupleToString`: it writes `repr` of each string as the text between single quotes, with no
  escaping. Strings containing quotes or backslashes are not rendered as Python does.
- `Keys.ClassRefText`: a batch entry given with an explicit `version: None` shows `None` in Python.
  The model has no such entry; a missing version is always `latest`.
- Filters given as `None` and as `[]` are the same input in the model. Both give no filter key and
  no `filters` field.
- Python's keyword defaults of each endpoint (`from_=0`, `size=10`, the include flags, and
  `deprecated=False`) are not modelled. Every argument is passed explicitly.
- `Auth.MissingExpiryNeverUsable`: it requires `now >= 0`, which holds for any wall-clock reading.
- The MCP server layer, its tool registration and the configuration loading are not part of this
  model.
