/**
 * The API client: authenticated requests with one forced refresh and one
 * retry on 401, and the cache-aside shape every endpoint follows (build the
 * key, serve a truthy cached value, otherwise call upstream and cache the
 * result under the same key with the endpoint's time-to-live).
 */
module Client {
  import opened Wrappers
  import opened Json
  import opened Text
  import opened Cache
  import opened Auth
  import opened Keys

  datatype HttpMethod = GET | POST

  /** What goes on the wire: method, endpoint path, headers and JSON body. */
  datatype Request = Request(verb: HttpMethod, endpoint: string, headers: HeaderSet, body: Json)

  /** The headers every request carries: `Authorization`, `Accept` and, on a POST, `Content-Type`. */
  datatype HeaderSet = HeaderSet(authorization: string, accept: string, contentType: Option<string>)

  /** What comes back: a status and a parsed body, or no answer at all. */
  datatype Reply = Response(status: int, body: Json) | Unreachable

  datatype ApiError =
    | AuthFailed(cause: AuthError)   // no token could be obtained
    | StatusError(status: int)       // a non-2xx status that is not retried
    | TransportError                 // the request itself failed

  function ReplyAt(script: seq<Reply>, i: nat): Reply
  {
    if i < |script| then script[i] else Unreachable
  }

  function DropReplies(script: seq<Reply>, n: nat): seq<Reply>
  {
    if n <= |script| then script[n..] else []
  }

  /**
   * After `n` requests the script's next replies are the ones `n` further on.
   * Helper for `RetryTrace` and `RetryLeavesRefreshedToken`.
   */
  lemma ReplyAtDropped(script: seq<Reply>, n: nat, i: nat)
    ensures ReplyAt(DropReplies(script, n), i) == ReplyAt(script, n + i)
  {
  }

  /** The remote API, answering from a script and logging every request. */
  class Upstream {
    var script: seq<Reply>
    var sent: seq<Request>

    constructor (script: seq<Reply>)
      ensures this.script == script && sent == []
    {
      this.script := script;
      sent := [];
    }

    method Send(request: Request) returns (reply: Reply)
      modifies this
      ensures sent == old(sent) + [request]
      ensures reply == ReplyAt(old(script), 0)
      ensures script == DropReplies(old(script), 1)
    {
      reply := if script == [] then Unreachable else script[0];
      script := if script == [] then [] else script[1..];
      sent := sent + [request];
    }
  }

  /** `str(token)`; a list or dict found in the slot is shown as a placeholder. */
  function TokenText(token: Json): string
  {
    match token
    case JStr(s) => s
    case JNull => "None"
    case JBool(b) => BoolToString(b)
    case JNum(n) => IntToString(n)
    case JArr(_) => "[...]"
    case JObj(_) => "{...}"
  }

  /** The Authorization header value of section 2.1 of RFC 6750. */
  function Bearer(token: Json): string
  {
    "Bearer " + TokenText(token)
  }

  /** The credential carried by an Authorization header, if it uses the Bearer scheme. */
  function BearerCredential(header: string): Option<string>
  {
    if |header| >= 7 && header[..7] == "Bearer " then Some(header[7..]) else None
  }

  /** The header carries the token and nothing else. */
  lemma BearerRoundTrip(token: string)
    ensures BearerCredential(Bearer(JStr(token))) == Some(token)
  {
    assert Bearer(JStr(token))[..7] == "Bearer ";
    assert Bearer(JStr(token))[7..] == token;
  }

  function Headers(verb: HttpMethod, token: Json): HeaderSet
  {
    HeaderSet(Bearer(token), "application/json", if verb == POST then Some("application/json") else None)
  }

  /** A GET carries no body. */
  function Payload(verb: HttpMethod, data: Json): Json
  {
    if verb == GET then JNull else data
  }

  predicate Is401(reply: Reply)
  {
    reply.Response? && reply.status == 401
  }

  /** The outcome of a reply that is not retried: the body on 2xx, an error otherwise. */
  function Classify(reply: Reply): (r: Result<Json, ApiError>)
    ensures r.Success? <==> reply.Response? && 200 <= reply.status < 300
    ensures r.Success? ==> r.value == reply.body
  {
    match reply
    case Unreachable => Failure(TransportError)
    case Response(status, body) =>
      if 200 <= status < 300 then Success(body) else Failure(StatusError(status))
  }

  /** The request `_make_request` builds around one token. */
  function Call(verb: HttpMethod, endpoint: string, data: Json, token: Json): Request
  {
    Request(verb, endpoint, Headers(verb, token), Payload(verb, data))
  }

  /** The requests one `_make_request` sends, the refreshes it forces and its result. */
  datatype Trace = Trace(requests: seq<Request>, refreshes: nat, result: Result<Json, ApiError>)

  /**
   * Reference definition of `_make_request`, given the token it starts with
   * (`tok`), the token a forced refresh would leave behind (`retryTok`) and
   * the replies the service has lined up (`replies`).
   */
  function RequestTrace(verb: HttpMethod, endpoint: string, data: Json, retryOn401: bool,
                        tok: Result<Json, AuthError>, retryTok: Result<Json, AuthError>,
                        replies: seq<Reply>): Trace
  {
    if tok.Failure? then
      Trace([], 0, Failure(AuthFailed(tok.error)))
    else if !(retryOn401 && Is401(ReplyAt(replies, 0))) then
      Trace([Call(verb, endpoint, data, tok.value)], 0, Classify(ReplyAt(replies, 0)))
    else if retryTok.Failure? then
      Trace([Call(verb, endpoint, data, tok.value)], 1, Failure(AuthFailed(retryTok.error)))
    else
      Trace([Call(verb, endpoint, data, tok.value), Call(verb, endpoint, data, retryTok.value)], 1,
            Classify(ReplyAt(replies, 1)))
  }

  /**
   * Nothing is sent without a token; the first request carries the token
   * `get_token` gave; at most one retry follows, only after a 401 with
   * retrying on, after exactly one refresh, and carrying the refreshed
   * token. Any other reply is final.
   */
  lemma TraceShape(verb: HttpMethod, endpoint: string, data: Json, retryOn401: bool,
                   tok: Result<Json, AuthError>, retryTok: Result<Json, AuthError>, replies: seq<Reply>)
    ensures var t := RequestTrace(verb, endpoint, data, retryOn401, tok, retryTok, replies);
      && (t.requests == [] <==> tok.Failure?)
      && (tok.Success? ==> t.requests[0] == Call(verb, endpoint, data, tok.value))
      && (t.refreshes == 1 <==> tok.Success? && retryOn401 && Is401(ReplyAt(replies, 0)))
      && t.refreshes <= 1
      && (|t.requests| == 2 <==> t.refreshes == 1 && retryTok.Success?)
      && (|t.requests| == 2 ==> t.requests[1] == Call(verb, endpoint, data, retryTok.value))
      && |t.requests| <= 2
  {
  }

  /**
   * The result is the reply to the last request sent, classified: a body
   * exactly when that reply is a 2xx, so a second 401 is a failure. Without
   * a request sent, the result is the token failure.
   */
  lemma TraceResult(verb: HttpMethod, endpoint: string, data: Json, retryOn401: bool,
                    tok: Result<Json, AuthError>, retryTok: Result<Json, AuthError>, replies: seq<Reply>)
    ensures var t := RequestTrace(verb, endpoint, data, retryOn401, tok, retryTok, replies);
      && (tok.Failure? ==> t.result == Failure(AuthFailed(tok.error)))
      && (t.refreshes == 1 && retryTok.Failure? ==> t.result == Failure(AuthFailed(retryTok.error)))
      && (t.requests != [] && !(t.refreshes == 1 && retryTok.Failure?) ==>
            t.result == Classify(ReplyAt(replies, |t.requests| - 1)))
      && (t.result.Success? <==>
            && t.requests != [] && !(t.refreshes == 1 && retryTok.Failure?)
            && ReplyAt(replies, |t.requests| - 1).Response?
            && 200 <= ReplyAt(replies, |t.requests| - 1).status < 300)
  {
  }

  /** Every request one call sends is the same call with some token. */
  lemma TraceRequestsAgree(verb: HttpMethod, endpoint: string, data: Json, retryOn401: bool,
                           tok: Result<Json, AuthError>, retryTok: Result<Json, AuthError>,
                           replies: seq<Reply>, i: int)
    requires 0 <= i < |RequestTrace(verb, endpoint, data, retryOn401, tok, retryTok, replies).requests|
    ensures var q := RequestTrace(verb, endpoint, data, retryOn401, tok, retryTok, replies).requests[i];
      && q.verb == verb && q.endpoint == endpoint && q.body == Payload(verb, data)
      && q.headers.authorization == Bearer(if i == 0 then tok.value else retryTok.value)
  {
  }

  /**
   * A retried 401 is the first request followed by what a call without
   * retrying does on the remaining replies with the refreshed token, plus
   * the one refresh.
   */
  lemma RetryTrace(verb: HttpMethod, endpoint: string, data: Json,
                   tok: Result<Json, AuthError>, retryTok: Result<Json, AuthError>, replies: seq<Reply>)
    requires tok.Success? && Is401(ReplyAt(replies, 0))
    ensures var rt := RequestTrace(verb, endpoint, data, false, retryTok, retryTok, DropReplies(replies, 1));
      RequestTrace(verb, endpoint, data, true, tok, retryTok, replies)
        == Trace([Call(verb, endpoint, data, tok.value)] + rt.requests, 1, rt.result)
  {
    ReplyAtDropped(replies, 1, 0);
  }

  /** Without retrying, no refresh is forced and the token a refresh would leave behind plays no part. */
  lemma TraceWithoutRetry(verb: HttpMethod, endpoint: string, data: Json,
                          tok: Result<Json, AuthError>, retryTok: Result<Json, AuthError>, replies: seq<Reply>)
    ensures RequestTrace(verb, endpoint, data, false, tok, retryTok, replies)
         == RequestTrace(verb, endpoint, data, false, tok, tok, replies)
    ensures RequestTrace(verb, endpoint, data, false, tok, retryTok, replies).refreshes == 0
  {
  }

  /**
   * The token side of one `_make_request`: the cache contents it leaves and
   * the exchanges it makes, given the contents and the token endpoint's
   * script before the call and whether a 401 forced a refresh. The first
   * `get_token` comes first; a forced refresh and the re-entered
   * `get_token` use the grants left after it.
   */
  function RequestTokens(store: map<string, Entry>, up: bool, grants: seq<Grant>, now: int,
                         refreshed: bool): TokenState
  {
    var st1 := AfterGetToken(store, up, GrantAt(grants, 0), now);
    if !refreshed then st1
    else
      var st2 := AfterRefreshAndGet(st1.store, up, DropGrants(grants, st1.exchanges), now);
      TokenState(st2.store, st1.exchanges + st2.exchanges)
  }

  /**
   * One call makes at most the exchange of `get_token`, plus the refresh's
   * and the re-entered `get_token`'s when a 401 forces a refresh; a usable
   * cached token and no refresh cost nothing and change nothing; a forced
   * refresh always exchanges; no key but the token slot changes.
   */
  lemma RequestTokensBound(store: map<string, Entry>, up: bool, grants: seq<Grant>, now: int, refreshed: bool)
    ensures var st := RequestTokens(store, up, grants, now, refreshed);
      && st.exchanges <= (if refreshed then 3 else 1)
      && (refreshed ==> st.exchanges >= 1)
      && (!refreshed && !NeedsExchange(SlotIn(store, up, now), now) ==> st == TokenState(store, 0))
      && st.store - {TokenCacheKey} == store - {TokenCacheKey}
  {
    var st1 := AfterGetToken(store, up, GrantAt(grants, 0), now);
    RememberTouchesOnlySlot(store, false, up, GrantAt(grants, 0), now);
    assert st1.store - {TokenCacheKey} == store - {TokenCacheKey};
    if refreshed {
      var g := DropGrants(grants, st1.exchanges);
      var s := Remember(if up then st1.store - {TokenCacheKey} else st1.store, up, GrantAt(g, 0), now);
      RememberTouchesOnlySlot(st1.store, up, up, GrantAt(g, 0), now);
      RememberTouchesOnlySlot(s, false, up, GrantAt(g, 1), now);
    }
  }

  /**
   * Everything one request reads or changes outside the response cache: the
   * requests logged, the replies still lined up, the refreshes forced, the
   * token cache's contents and whether it works, the grants still lined up
   * and the exchanges made.
   */
  datatype World = World(sent: seq<Request>, replies: seq<Reply>, refreshes: nat,
                         store: map<string, Entry>, up: bool, grants: seq<Grant>, exchanges: nat)

  /** The token `get_token` hands out in `w` at `now`. */
  function FirstToken(w: World, now: int): Result<Json, AuthError>
  {
    TokenDecision(SlotIn(w.store, w.up, now), now, GrantAt(w.grants, 0))
  }

  /** The token the re-entered `get_token` yields after `get_token` and a forced refresh from `w`. */
  function RetryToken(w: World, now: int): Result<Json, AuthError>
  {
    var k := if NeedsExchange(SlotIn(w.store, w.up, now), now) then 1 else 0;
    TokenAfterRefresh(w.up, GrantAt(w.grants, k), GrantAt(w.grants, k + 1))
  }

  /** `w` once `requests` have been sent, `refreshes` forced and the token side has become `st`. */
  function Advance(w: World, requests: seq<Request>, refreshes: nat, st: TokenState): World
  {
    w.(sent := w.sent + requests, replies := DropReplies(w.replies, |requests|),
       refreshes := w.refreshes + refreshes, store := st.store,
       grants := DropGrants(w.grants, st.exchanges), exchanges := w.exchanges + st.exchanges)
  }

  /**
   * Reference definition of one `_make_request` from `w`: the requests,
   * refreshes and result `RequestTrace` gives, and the token side
   * `RequestTokens` gives.
   */
  function MakeRequestOutcome(w: World, verb: HttpMethod, endpoint: string, data: Json, retryOn401: bool,
                              now: int): (World, Result<Json, ApiError>)
  {
    var t := RequestTrace(verb, endpoint, data, retryOn401, FirstToken(w, now), RetryToken(w, now), w.replies);
    (Advance(w, t.requests, t.refreshes, RequestTokens(w.store, w.up, w.grants, now, t.refreshes == 1)), t.result)
  }

  /** The 401 path from `w`: one forced refresh, then a call without retrying. */
  function RetryOutcome(w: World, verb: HttpMethod, endpoint: string, data: Json, now: int)
    : (World, Result<Json, ApiError>)
  {
    var tok := TokenAfterRefresh(w.up, GrantAt(w.grants, 0), GrantAt(w.grants, 1));
    var t := RequestTrace(verb, endpoint, data, false, tok, tok, w.replies);
    (Advance(w, t.requests, 1, AfterRefreshAndGet(w.store, w.up, w.grants, now)), t.result)
  }

  /** `w` after `get_token` and, when it yields a token, one request. */
  function Attempted(w: World, verb: HttpMethod, endpoint: string, data: Json, now: int): World
  {
    var tok := FirstToken(w, now);
    Advance(w, if tok.Success? then [Call(verb, endpoint, data, tok.value)] else [], 0,
            AfterGetToken(w.store, w.up, GrantAt(w.grants, 0), now))
  }

  /** `w` after `refresh_token`. */
  function Refreshed(w: World, now: int): World
  {
    Advance(w, [], 1, TokenState(Remember(if w.up then w.store - {TokenCacheKey} else w.store, w.up,
                                          GrantAt(w.grants, 0), now), 1))
  }

  /** A call ends after its first attempt when there is no token or the reply is not a retried 401. */
  lemma AttemptIsFinal(w: World, verb: HttpMethod, endpoint: string, data: Json, retryOn401: bool, now: int)
    requires FirstToken(w, now).Failure? || !(retryOn401 && Is401(ReplyAt(w.replies, 0)))
    ensures var tok := FirstToken(w, now);
      MakeRequestOutcome(w, verb, endpoint, data, retryOn401, now)
        == (Attempted(w, verb, endpoint, data, now),
            if tok.Failure? then Failure(AuthFailed(tok.error)) else Classify(ReplyAt(w.replies, 0)))
  {
  }

  /** Sending `m` requests and then `n` consumes the replies `m + n` further on. Helper for `AdvanceTwice`. */
  lemma DropRepliesTwice(script: seq<Reply>, m: nat, n: nat)
    ensures DropReplies(DropReplies(script, m), n) == DropReplies(script, m + n)
  {
  }

  /**
   * Two steps in a row advance the state by their requests, refreshes and
   * exchanges together. Helper for `AttemptThenRetry` and `RefreshThenCall`.
   */
  lemma AdvanceTwice(w: World, q1: seq<Request>, r1: nat, st1: TokenState, q2: seq<Request>, r2: nat, st2: TokenState)
    ensures Advance(Advance(w, q1, r1, st1), q2, r2, st2)
         == Advance(w, q1 + q2, r1 + r2, TokenState(st2.store, st1.exchanges + st2.exchanges))
  {
    DropGrantsTwice(w.grants, st1.exchanges, st2.exchanges);
    DropRepliesTwice(w.replies, |q1|, |q2|);
    assert w.sent + q1 + q2 == w.sent + (q1 + q2);
  }

  /**
   * After the first attempt, a forced refresh draws on the grants `get_token`
   * left. Helper for `AttemptThenRetry`.
   */
  lemma AttemptedGrants(w: World, verb: HttpMethod, endpoint: string, data: Json, now: int)
    ensures var w1 := Attempted(w, verb, endpoint, data, now);
      && RetryToken(w, now) == TokenAfterRefresh(w1.up, GrantAt(w1.grants, 0), GrantAt(w1.grants, 1))
      && RequestTokens(w.store, w.up, w.grants, now, true)
         == (var st1 := AfterGetToken(w.store, w.up, GrantAt(w.grants, 0), now);
             var st2 := AfterRefreshAndGet(w1.store, w1.up, w1.grants, now);
             TokenState(st2.store, st1.exchanges + st2.exchanges))
  {
    var k := if NeedsExchange(SlotIn(w.store, w.up, now), now) then 1 else 0;
    GrantAtDropped(w.grants, k, 0);
    GrantAtDropped(w.grants, k, 1);
  }

  /** A retried 401 is the first attempt followed by the 401 path on what it left. */
  lemma AttemptThenRetry(w: World, verb: HttpMethod, endpoint: string, data: Json, now: int)
    requires FirstToken(w, now).Success? && Is401(ReplyAt(w.replies, 0))
    ensures MakeRequestOutcome(w, verb, endpoint, data, true, now)
         == RetryOutcome(Attempted(w, verb, endpoint, data, now), verb, endpoint, data, now)
  {
    var tok, retry := FirstToken(w, now), RetryToken(w, now);
    var w1 := Attempted(w, verb, endpoint, data, now);
    AttemptedGrants(w, verb, endpoint, data, now);
    RetryTrace(verb, endpoint, data, tok, retry, w.replies);
    var rt := RequestTrace(verb, endpoint, data, false, retry, retry, w1.replies);
    var st1 := AfterGetToken(w.store, w.up, GrantAt(w.grants, 0), now);
    var st2 := AfterRefreshAndGet(w1.store, w1.up, w1.grants, now);
    AdvanceTwice(w, [Call(verb, endpoint, data, tok.value)], 0, st1, rt.requests, 1, st2);
  }

  /**
   * A 401 on a token the slot still offered, through a working cache,
   * followed by a granted refresh good for more than the buffer: the retry
   * carries the refreshed token, the call costs the one exchange of the
   * refresh beyond what `get_token` made, and the refreshed token, not the
   * rejected one, is left in the slot for later calls.
   */
  lemma RetryLeavesRefreshedToken(w: World, verb: HttpMethod, endpoint: string, data: Json, now: int)
    requires w.up && FirstToken(w, now).Success? && Is401(ReplyAt(w.replies, 0))
    requires var k := if NeedsExchange(SlotIn(w.store, w.up, now), now) then 1 else 0;
      GrantAt(w.grants, k).Granted? && GrantAt(w.grants, k).expiresIn > TokenExpiryBuffer
    ensures var k := if NeedsExchange(SlotIn(w.store, w.up, now), now) then 1 else 0;
      var g := GrantAt(w.grants, k);
      var out := MakeRequestOutcome(w, verb, endpoint, data, true, now);
      && out.0.sent == w.sent + [Call(verb, endpoint, data, FirstToken(w, now).value),
                                 Call(verb, endpoint, data, JStr(g.accessToken))]
      && out.0.refreshes == w.refreshes + 1
      && out.0.exchanges == w.exchanges + k + 1
      && SlotIn(out.0.store, true, now) == Record(JStr(g.accessToken), now + g.expiresIn)
      && out.1 == Classify(ReplyAt(w.replies, 1))
  {
    var k := if NeedsExchange(SlotIn(w.store, w.up, now), now) then 1 else 0;
    var w1 := Attempted(w, verb, endpoint, data, now);
    AttemptThenRetry(w, verb, endpoint, data, now);
    GrantAtDropped(w.grants, k, 0);
    RefreshLeavesNewToken(w1.store, w1.grants, now);
    ReplyAtDropped(w.replies, 1, 0);
  }

  /**
   * A call whose `get_token` exchanged, through a working cache, for a
   * token good for more than the buffer, and whose reply was not a 401,
   * leaves that token where every later call until 300 s before its expiry
   * finds it, with no exchange.
   */
  lemma TokenCarriesOver(w: World, verb: HttpMethod, endpoint: string, data: Json, retryOn401: bool, now: int,
                         later: int, g2: Grant)
    requires w.up && NeedsExchange(SlotIn(w.store, true, now), now)
    requires GrantAt(w.grants, 0).Granted? && GrantAt(w.grants, 0).expiresIn > TokenExpiryBuffer
    requires !Is401(ReplyAt(w.replies, 0))
    requires now <= later < now + GrantAt(w.grants, 0).expiresIn - TokenExpiryBuffer
    ensures var w1 := MakeRequestOutcome(w, verb, endpoint, data, retryOn401, now).0;
      && w1.exchanges == w.exchanges + 1
      && FirstToken(w1, later) == Success(JStr(GrantAt(w.grants, 0).accessToken))
      && AfterGetToken(w1.store, true, g2, later) == TokenState(w1.store, 0)
  {
    ExchangedTokenReused(w.store, GrantAt(w.grants, 0), now, later, GrantAt(DropGrants(w.grants, 1), 0));
    ExchangedTokenReused(w.store, GrantAt(w.grants, 0), now, later, g2);
  }

  /**
   * The 401 path is `refresh_token` followed by a call without retrying; a
   * refused refresh sends nothing and is the result.
   */
  lemma RefreshThenCall(w: World, verb: HttpMethod, endpoint: string, data: Json, now: int)
    ensures GrantAt(w.grants, 0).Refused? ==>
      RetryOutcome(w, verb, endpoint, data, now) == (Refreshed(w, now), Failure(AuthFailed(ExchangeFailed)))
    ensures GrantAt(w.grants, 0).Granted? ==>
      RetryOutcome(w, verb, endpoint, data, now)
        == MakeRequestOutcome(Refreshed(w, now), verb, endpoint, data, false, now)
  {
    var w1 := Refreshed(w, now);
    if GrantAt(w.grants, 0).Refused? {
      assert w.sent + [] == w.sent;
    } else {
      var tok := TokenAfterRefresh(w.up, GrantAt(w.grants, 0), GrantAt(w.grants, 1));
      RefreshThenDecide(w.store, w.up, GrantAt(w.grants, 0), GrantAt(w.grants, 1), now);
      GrantAtDropped(w.grants, 1, 0);
      assert FirstToken(w1, now) == tok;
      TraceWithoutRetry(verb, endpoint, data, tok, RetryToken(w1, now), w.replies);
      var t := RequestTrace(verb, endpoint, data, false, tok, tok, w.replies);
      var st := AfterGetToken(w1.store, w.up, GrantAt(w1.grants, 0), now);
      AdvanceTwice(w, [], 1, TokenState(w1.store, 1), t.requests, 0, st);
      assert [] + t.requests == t.requests;
    }
  }

  /**
   * The response cache after a miss at `now` wrote `r` back under `key`
   * through a cache that is `up`: only a success is written, and only when
   * the store takes a positive time-to-live.
   */
  function Written(store: map<string, Entry>, key: string, r: Result<Json, ApiError>, up: bool, ttl: int,
                   now: int): map<string, Entry>
  {
    if r.Success? && up && ttl > 0 then store[key := Entry(r.value, now + ttl)] else store
  }

  /**
   * What a miss writes back is what later lookups of the key return until
   * `now + ttl`, and a miss from then on; a failure, or a result the cache
   * does not take, leaves the key as it was; no other key changes.
   */
  lemma WrittenReadsBack(store: map<string, Entry>, key: string, r: Result<Json, ApiError>, up: bool, ttl: int,
                         now: int, later: int)
    ensures r.Success? && up && ttl > 0 ==>
      Lookup(Written(store, key, r, up, ttl, now), key, later) == if later < now + ttl then r.value else JNull
    ensures !(r.Success? && up && ttl > 0) ==> Written(store, key, r, up, ttl, now) == store
    ensures Written(store, key, r, up, ttl, now) - {key} == store - {key}
  {
  }

  class ApiClient {
    const tokens: TokenManager
    const cache: TtlCache
    const upstream: Upstream
    const defaultLanguage: string

    constructor (tokens: TokenManager, cache: TtlCache, upstream: Upstream, defaultLanguage: string)
      ensures this.tokens == tokens && this.cache == cache && this.upstream == upstream
      ensures this.defaultLanguage == defaultLanguage
    {
      this.tokens := tokens;
      this.cache := cache;
      this.upstream := upstream;
      this.defaultLanguage := defaultLanguage;
    }


    /** The part of the state a request reads or changes, as one value. */
    ghost function Snapshot(): World
      reads tokens, tokens.cache, tokens.auth, upstream
    {
      World(upstream.sent, upstream.script, tokens.refreshes, tokens.cache.store,
            tokens.cache.connected && tokens.cache.reachable, tokens.auth.script, tokens.auth.exchanges)
    }

    /**
     * One authenticated request: the requests logged, the replies consumed,
     * the refreshes forced, the grants consumed, the exchanges made, the
     * token cache left behind and the result are the ones
     * `MakeRequestOutcome` gives for the state before the call.
     */
    method MakeRequest(verb: HttpMethod, endpoint: string, data: Json, retryOn401: bool, now: int)
      returns (r: Result<Json, ApiError>)
      modifies tokens`refreshes, tokens.cache`store, tokens.auth, upstream
      decreases if retryOn401 then 2 else 0
      ensures (Snapshot(), r) == MakeRequestOutcome(old(Snapshot()), verb, endpoint, data, retryOn401, now)
      ensures tokens.cache.store - {TokenCacheKey} == old(tokens.cache.store) - {TokenCacheKey}
    {
      ghost var w0 := Snapshot();
      RequestTokensBound(w0.store, w0.up, w0.grants, now, true);
      RequestTokensBound(w0.store, w0.up, w0.grants, now, false);
      var token, reply := Attempt(verb, endpoint, data, now);
      if token.Failure? {
        AttemptIsFinal(w0, verb, endpoint, data, retryOn401, now);
        return Failure(AuthFailed(token.error));
      }
      if retryOn401 && Is401(reply) {
        AttemptThenRetry(w0, verb, endpoint, data, now);
        r := RetryAfterRefresh(verb, endpoint, data, now);
        return;
      }
      AttemptIsFinal(w0, verb, endpoint, data, retryOn401, now);
      r := Classify(reply);
    }

    /** Obtains the token and, when there is one, sends the request once. */
    method Attempt(verb: HttpMethod, endpoint: string, data: Json, now: int)
      returns (token: Result<Json, AuthError>, reply: Reply)
      modifies tokens.cache`store, tokens.auth, upstream
      ensures token == FirstToken(old(Snapshot()), now)
      ensures Snapshot() == Attempted(old(Snapshot()), verb, endpoint, data, now)
      ensures token.Success? ==> reply == ReplyAt(old(upstream.script), 0)
    {
      token := tokens.GetToken(now);
      if token.Failure? {
        assert upstream.sent + [] == upstream.sent;
        return token, Unreachable;
      }
      reply := upstream.Send(Call(verb, endpoint, data, token.value));
    }

    /**
     * The cache-aside step every endpoint shares, as seen after the call:
     * a truthy cached value is returned and nothing else happens; otherwise
     * it is a miss, as `Fetched` states.
     */
    twostate predicate Served(key: string, ttl: int, verb: HttpMethod, endpoint: string, data: Json,
                              now: int, new r: Result<Json, ApiError>)
      reads this, cache, tokens, tokens.cache, tokens.auth, upstream
    {
      var cached := old(cache.Read(key, now));
      && (Truthy(cached) ==>
            && r == Success(cached)
            && Snapshot() == old(Snapshot())
            && cache.store == old(cache.store))
      && (!Truthy(cached) ==> Fetched(key, ttl, verb, endpoint, data, now, r))
    }

    /**
     * A miss, as seen after the call: the request is made as
     * `MakeRequestOutcome` says, and the response cache is the one the
     * request left (the token cache itself when the two are one) with the
     * result written back as `Written` says.
     */
    twostate predicate Fetched(key: string, ttl: int, verb: HttpMethod, endpoint: string, data: Json,
                               now: int, new r: Result<Json, ApiError>)
      reads this, cache, tokens, tokens.cache, tokens.auth, upstream
    {
      var outcome := MakeRequestOutcome(old(Snapshot()), verb, endpoint, data, true, now);
      var before := if cache == tokens.cache then outcome.0.store else old(cache.store);
      && r == outcome.1
      && cache.store == Written(before, key, r, cache.connected && cache.reachable, ttl, now)
      && Snapshot() == outcome.0.(store := tokens.cache.store)
      && (cache != tokens.cache ==> tokens.cache.store == outcome.0.store)
    }

    method CacheAside(key: string, ttl: int, verb: HttpMethod, endpoint: string, data: Json, now: int)
      returns (r: Result<Json, ApiError>)
      modifies tokens`refreshes, tokens.cache`store, tokens.auth, upstream, cache`store
      ensures Served(key, ttl, verb, endpoint, data, now, r)
    {
      var cached := cache.Get(key, now);
      if Truthy(cached) {
        return Success(cached);
      }
      r := FetchAndStore(key, ttl, verb, endpoint, data, now);
    }

    /** The miss path: the request, then the result written back under the key looked up. */
    method FetchAndStore(key: string, ttl: int, verb: HttpMethod, endpoint: string, data: Json, now: int)
      returns (r: Result<Json, ApiError>)
      modifies tokens`refreshes, tokens.cache`store, tokens.auth, upstream, cache`store
      ensures Fetched(key, ttl, verb, endpoint, data, now, r)
    {
      r := MakeRequest(verb, endpoint, data, true, now);
      if r.Failure? {
        return;
      }
      var _ := cache.Set(key, r.value, ttl, now);
    }

    // ---------------------------------------------------------------------
    // Endpoints: each builds its key and body, then goes through the cache

    method SearchClasses(text: string, language: Option<string>, from: int, size: int,
                         modelling: Option<bool>, filters: seq<Filter>, now: int)
      returns (r: Result<Json, ApiError>)
      modifies tokens`refreshes, tokens.cache`store, tokens.auth, upstream, cache`store
      ensures var lang := Language(language, defaultLanguage);
        Served(SearchClassesKey(text, lang, modelling, filters, from, size), CacheTtl, POST,
               "/api/v2/Class/Search", SearchClassesBody(text, lang, from, size, modelling, filters), now, r)
    {
      var lang := Language(language, defaultLanguage);
      r := CacheAside(SearchClassesKey(text, lang, modelling, filters, from, size), CacheTtl, POST,
                      "/api/v2/Class/Search", SearchClassesBody(text, lang, from, size, modelling, filters), now);
    }

    method GetClassDetails(code: string, version: Option<int>, language: Option<string>,
                           includeFeatures: bool, now: int)
      returns (r: Result<Json, ApiError>)
      modifies tokens`refreshes, tokens.cache`store, tokens.auth, upstream, cache`store
      ensures var lang := Language(language, defaultLanguage);
        Served(ClassDetailsKey(code, version, lang, includeFeatures), CacheClassTtl, POST,
               "/api/v2/Class/Details", ClassDetailsBody(code, version, lang, includeFeatures), now, r)
    {
      var lang := Language(language, defaultLanguage);
      r := CacheAside(ClassDetailsKey(code, version, lang, includeFeatures), CacheClassTtl, POST,
                      "/api/v2/Class/Details", ClassDetailsBody(code, version, lang, includeFeatures), now);
    }

    method SearchFeatures(text: string, language: Option<string>, from: int, size: int, now: int)
      returns (r: Result<Json, ApiError>)
      modifies tokens`refreshes, tokens.cache`store, tokens.auth, upstream, cache`store
      ensures var lang := Language(language, defaultLanguage);
        Served(SearchKey("search:feature", text, lang, from, size), CacheTtl, POST,
               "/api/v2/Feature/Search", SearchBody(text, lang, from, size, false), now, r)
    {
      var lang := Language(language, defaultLanguage);
      r := CacheAside(SearchKey("search:feature", text, lang, from, size), CacheTtl, POST,
                      "/api/v2/Feature/Search", SearchBody(text, lang, from, size, false), now);
    }

    method GetFeatureDetails(code: string, language: Option<string>, now: int)
      returns (r: Result<Json, ApiError>)
      modifies tokens`refreshes, tokens.cache`store, tokens.auth, upstream, cache`store
      ensures var lang := Language(language, defaultLanguage);
        Served(CodeKey("feature", code, lang), CacheClassTtl, POST,
               "/api/v2/Feature/Details", CodeBody(code, lang, false), now, r)
    {
      var lang := Language(language, defaultLanguage);
      r := CacheAside(CodeKey("feature", code, lang), CacheClassTtl, POST,
                      "/api/v2/Feature/Details", CodeBody(code, lang, false), now);
    }

    method SearchGroups(text: string, language: Option<string>, from: int, size: int, now: int)
      returns (r: Result<Json, ApiError>)
      modifies tokens`refreshes, tokens.cache`store, tokens.auth, upstream, cache`store
      ensures var lang := Language(language, defaultLanguage);
        Served(SearchKey("search:group", text, lang, from, size), CacheTtl, POST,
               "/api/v2/Group/Search", SearchBody(text, lang, from, size, false), now, r)
    {
      var lang := Language(language, defaultLanguage);
      r := CacheAside(SearchKey("search:group", text, lang, from, size), CacheTtl, POST,
                      "/api/v2/Group/Search", SearchBody(text, lang, from, size, false), now);
    }

    method GetAllowedLanguages(now: int) returns (r: Result<Json, ApiError>)
      modifies tokens`refreshes, tokens.cache`store, tokens.auth, upstream, cache`store
      ensures Served(AllowedLanguagesKey, CacheLanguagesTtl, GET, "/api/v2/Misc/LanguagesAllowed", JNull, now, r)
    {
      r := CacheAside(AllowedLanguagesKey, CacheLanguagesTtl, GET, "/api/v2/Misc/LanguagesAllowed", JNull, now);
    }

    method GetReleases(now: int) returns (r: Result<Json, ApiError>)
      modifies tokens`refreshes, tokens.cache`store, tokens.auth, upstream, cache`store
      ensures Served(ReleasesKey, CacheLanguagesTtl, GET, "/api/v2/Misc/Releases", JNull, now, r)
    {
      r := CacheAside(ReleasesKey, CacheLanguagesTtl, GET, "/api/v2/Misc/Releases", JNull, now);
    }

    method GetAllLanguages(now: int) returns (r: Result<Json, ApiError>)
      modifies tokens`refreshes, tokens.cache`store, tokens.auth, upstream, cache`store
      ensures Served(AllLanguagesKey, CacheLanguagesTtl, GET, "/api/v2/Misc/Languages", JNull, now, r)
    {
      r := CacheAside(AllLanguagesKey, CacheLanguagesTtl, GET, "/api/v2/Misc/Languages", JNull, now);
    }

    method GetClassDetailsMany(classes: seq<ClassRef>, language: Option<string>, includeFeatures: bool, now: int)
      returns (r: Result<Json, ApiError>)
      modifies tokens`refreshes, tokens.cache`store, tokens.auth, upstream, cache`store
      ensures var lang := Language(language, defaultLanguage);
        Served(ClassDetailsManyKey(classes, lang, includeFeatures), CacheClassTtl, POST,
               "/api/v2/Class/DetailsMany", ClassDetailsManyBody(classes, lang, includeFeatures), now, r)
    {
      var lang := Language(language, defaultLanguage);
      r := CacheAside(ClassDetailsManyKey(classes, lang, includeFeatures), CacheClassTtl, POST,
                      "/api/v2/Class/DetailsMany", ClassDetailsManyBody(classes, lang, includeFeatures), now);
    }

    method GetAllClassVersions(code: string, language: Option<string>, includeFeatures: bool, now: int)
      returns (r: Result<Json, ApiError>)
      modifies tokens`refreshes, tokens.cache`store, tokens.auth, upstream, cache`store
      ensures var lang := Language(language, defaultLanguage);
        Served(ClassVersionsKey(code, lang, includeFeatures), CacheClassTtl, POST,
               "/api/v2/Class/DetailsManyByCode", ClassVersionsBody(code, lang, includeFeatures), now, r)
    {
      var lang := Language(language, defaultLanguage);
      r := CacheAside(ClassVersionsKey(code, lang, includeFeatures), CacheClassTtl, POST,
                      "/api/v2/Class/DetailsManyByCode", ClassVersionsBody(code, lang, includeFeatures), now);
    }

    method GetClassForRelease(code: string, release: string, language: Option<string>, includeFeatures: bool, now: int)
      returns (r: Result<Json, ApiError>)
      modifies tokens`refreshes, tokens.cache`store, tokens.auth, upstream, cache`store
      ensures var lang := Language(language, defaultLanguage);
        Served(ClassForReleaseKey(code, release, lang, includeFeatures), CacheClassTtl, POST,
               "/api/v2/Class/DetailsForRelease", ClassForReleaseBody(code, release, lang, includeFeatures), now, r)
    {
      var lang := Language(language, defaultLanguage);
      r := CacheAside(ClassForReleaseKey(code, release, lang, includeFeatures), CacheClassTtl, POST,
                      "/api/v2/Class/DetailsForRelease", ClassForReleaseBody(code, release, lang, includeFeatures), now);
    }

    method SearchValues(text: string, language: Option<string>, deprecated: bool, from: int, size: int, now: int)
      returns (r: Result<Json, ApiError>)
      modifies tokens`refreshes, tokens.cache`store, tokens.auth, upstream, cache`store
      ensures var lang := Language(language, defaultLanguage);
        Served(DeprecatedSearchKey("search:value", text, lang, deprecated, from, size), CacheTtl, POST,
               "/api/v2/Value/Search", DeprecatedSearchBody(text, lang, deprecated, from, size), now, r)
    {
      var lang := Language(language, defaultLanguage);
      r := CacheAside(DeprecatedSearchKey("search:value", text, lang, deprecated, from, size), CacheTtl, POST,
                      "/api/v2/Value/Search", DeprecatedSearchBody(text, lang, deprecated, from, size), now);
    }

    method GetValueDetails(code: string, language: Option<string>, now: int)
      returns (r: Result<Json, ApiError>)
      modifies tokens`refreshes, tokens.cache`store, tokens.auth, upstream, cache`store
      ensures var lang := Language(language, defaultLanguage);
        Served(CodeKey("value", code, lang), CacheClassTtl, POST,
               "/api/v2/Value/Details", CodeBody(code, lang, true), now, r)
    {
      var lang := Language(language, defaultLanguage);
      r := CacheAside(CodeKey("value", code, lang), CacheClassTtl, POST,
                      "/api/v2/Value/Details", CodeBody(code, lang, true), now);
    }

    method SearchUnits(text: string, language: Option<string>, deprecated: bool, from: int, size: int, now: int)
      returns (r: Result<Json, ApiError>)
      modifies tokens`refreshes, tokens.cache`store, tokens.auth, upstream, cache`store
      ensures var lang := Language(language, defaultLanguage);
        Served(DeprecatedSearchKey("search:unit", text, lang, deprecated, from, size), CacheTtl, POST,
               "/api/v2/Unit/Search", DeprecatedSearchBody(text, lang, deprecated, from, size), now, r)
    {
      var lang := Language(language, defaultLanguage);
      r := CacheAside(DeprecatedSearchKey("search:unit", text, lang, deprecated, from, size), CacheTtl, POST,
                      "/api/v2/Unit/Search", DeprecatedSearchBody(text, lang, deprecated, from, size), now);
    }

    method GetUnitDetails(code: string, language: Option<string>, now: int)
      returns (r: Result<Json, ApiError>)
      modifies tokens`refreshes, tokens.cache`store, tokens.auth, upstream, cache`store
      ensures var lang := Language(language, defaultLanguage);
        Served(CodeKey("unit", code, lang), CacheClassTtl, POST,
               "/api/v2/Unit/Details", CodeBody(code, lang, true), now, r)
    {
      var lang := Language(language, defaultLanguage);
      r := CacheAside(CodeKey("unit", code, lang), CacheClassTtl, POST,
                      "/api/v2/Unit/Details", CodeBody(code, lang, true), now);
    }

    method SearchFeatureGroups(text: string, language: Option<string>, from: int, size: int, now: int)
      returns (r: Result<Json, ApiError>)
      modifies tokens`refreshes, tokens.cache`store, tokens.auth, upstream, cache`store
      ensures var lang := Language(language, defaultLanguage);
        Served(SearchKey("search:featuregroup", text, lang, from, size), CacheTtl, POST,
               "/api/v2/FeatureGroup/Search", SearchBody(text, lang, from, size, true), now, r)
    {
      var lang := Language(language, defaultLanguage);
      r := CacheAside(SearchKey("search:featuregroup", text, lang, from, size), CacheTtl, POST,
                      "/api/v2/FeatureGroup/Search", SearchBody(text, lang, from, size, true), now);
    }

    method GetFeatureGroupDetails(code: string, language: Option<string>, now: int)
      returns (r: Result<Json, ApiError>)
      modifies tokens`refreshes, tokens.cache`store, tokens.auth, upstream, cache`store
      ensures var lang := Language(language, defaultLanguage);
        Served(CodeKey("featuregroup", code, lang), CacheClassTtl, POST,
               "/api/v2/FeatureGroup/Details", CodeBody(code, lang, true), now, r)
    {
      var lang := Language(language, defaultLanguage);
      r := CacheAside(CodeKey("featuregroup", code, lang), CacheClassTtl, POST,
                      "/api/v2/FeatureGroup/Details", CodeBody(code, lang, true), now);
    }

    method GetGroupDetails(code: string, language: Option<string>, includeReleases: bool, now: int)
      returns (r: Result<Json, ApiError>)
      modifies tokens`refreshes, tokens.cache`store, tokens.auth, upstream, cache`store
      ensures var lang := Language(language, defaultLanguage);
        Served(GroupDetailsKey(code, lang, includeReleases), CacheClassTtl, POST,
               "/api/v2/Group/Details", GroupDetailsBody(code, lang, includeReleases), now, r)
    {
      var lang := Language(language, defaultLanguage);
      r := CacheAside(GroupDetailsKey(code, lang, includeReleases), CacheClassTtl, POST,
                      "/api/v2/Group/Details", GroupDetailsBody(code, lang, includeReleases), now);
    }

    method GetClassDiff(code: string, version: int, language: Option<string>, now: int)
      returns (r: Result<Json, ApiError>)
      modifies tokens`refreshes, tokens.cache`store, tokens.auth, upstream, cache`store
      ensures var lang := Language(language, defaultLanguage);
        Served(ClassDiffKey(code, version, lang), CacheClassTtl, POST,
               "/api/v2/Class/DetailsDiff", ClassDiffBody(code, version, lang), now, r)
    {
      var lang := Language(language, defaultLanguage);
      r := CacheAside(ClassDiffKey(code, version, lang), CacheClassTtl, POST,
                      "/api/v2/Class/DetailsDiff", ClassDiffBody(code, version, lang), now);
    }

    /** Whether the allowed-languages lookup succeeds; every failure becomes `false`. */
    method TestConnection(now: int) returns (ok: bool, ghost r: Result<Json, ApiError>)
      modifies tokens`refreshes, tokens.cache`store, tokens.auth, upstream, cache`store
      ensures ok == r.Success?
      ensures Served(AllowedLanguagesKey, CacheLanguagesTtl, GET, "/api/v2/Misc/LanguagesAllowed", JNull, now, r)
    {
      var languages := GetAllowedLanguages(now);
      ok := languages.Success?;
      r := languages;
    }

    /**
     * The 401 path: force a refresh, then re-enter once with retrying
     * switched off. Nothing is sent when the refresh fails.
     */
    method RetryAfterRefresh(verb: HttpMethod, endpoint: string, data: Json, now: int)
      returns (r: Result<Json, ApiError>)
      modifies tokens`refreshes, tokens.cache`store, tokens.auth, upstream
      decreases 1
      ensures (Snapshot(), r) == RetryOutcome(old(Snapshot()), verb, endpoint, data, now)
    {
      ghost var w0 := Snapshot();
      RefreshThenCall(w0, verb, endpoint, data, now);
      var refreshed := tokens.RefreshToken(now);
      assert Snapshot() == Refreshed(w0, now) by {
        assert w0.sent + [] == w0.sent;
      }
      if refreshed.Failure? {
        assert upstream.sent + [] == upstream.sent;
        return Failure(AuthFailed(refreshed.error));
      }
      r := MakeRequest(verb, endpoint, data, false, now);
    }
  }
}
