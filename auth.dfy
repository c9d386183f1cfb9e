/**
 * The bearer-token lifecycle: one cache slot holds the current token and its
 * expiry; a token is reused while more than the expiry buffer remains, and is
 * otherwise replaced through a client-credentials exchange (section 4.4 of
 * RFC 6749). There is no locking: concurrent callers may each exchange.
 */
module Auth {
  import opened Wrappers
  import opened Json
  import opened Cache

  /** The one cache slot that holds the token record. */
  const TokenCacheKey: string := "etim:auth:token"
  /** Seconds before the real expiry at which a token stops being reused. */
  const TokenExpiryBuffer: int := 300

  /** What a client-credentials exchange yields. */
  datatype Grant = Granted(accessToken: string, expiresIn: int) | Refused

  datatype AuthError =
    | ExchangeFailed   // the token endpoint refused, failed, or was unreachable
    | UnreadableSlot   // the slot holds something that is not a token record

  function GrantAt(script: seq<Grant>, i: nat): Grant
  {
    if i < |script| then script[i] else Refused
  }

  function DropGrants(script: seq<Grant>, n: nat): seq<Grant>
  {
    if n <= |script| then script[n..] else []
  }

  /**
   * After `n` exchanges the script's next grants are the ones `n` further on.
   * Helper for `Client.AttemptedGrants`, `Client.RefreshThenCall` and
   * `Client.RetryLeavesRefreshedToken`.
   */
  lemma GrantAtDropped(script: seq<Grant>, n: nat, i: nat)
    ensures GrantAt(DropGrants(script, n), i) == GrantAt(script, n + i)
  {
  }

  /** Exchanging `m` times and then `n` times consumes `m + n` grants. Helper for `Client.AdvanceTwice`. */
  lemma DropGrantsTwice(script: seq<Grant>, m: nat, n: nat)
    ensures DropGrants(DropGrants(script, m), n) == DropGrants(script, m + n)
  {
  }

  /** The token endpoint, answering from a script; an exhausted script refuses. */
  class AuthServer {
    var script: seq<Grant>
    /** How many exchanges have been requested. */
    var exchanges: nat

    constructor (script: seq<Grant>)
      ensures this.script == script && exchanges == 0
    {
      this.script := script;
      exchanges := 0;
    }

    method Exchange() returns (g: Grant)
      modifies this
      ensures g == GrantAt(old(script), 0)
      ensures script == DropGrants(old(script), 1)
      ensures exchanges == old(exchanges) + 1
    {
      g := if script == [] then Refused else script[0];
      script := if script == [] then [] else script[1..];
      exchanges := exchanges + 1;
    }
  }

  /** The record stored in the slot after a successful exchange. */
  function TokenRecord(token: string, expiresAt: int): Json
  {
    JObj(map["access_token" := JStr(token), "expires_at" := JNum(expiresAt)])
  }

  /** How the token manager reads what the cache returned for the slot. */
  datatype SlotView =
    | Empty                                // a miss or a falsy value
    | Record(token: Json, expiresAt: int)  // a dict; missing fields default to None and 0
    | Unreadable                           // reading it raises in the source

  function ViewSlot(cached: Json): SlotView
  {
    if !Truthy(cached) then Empty
    else match cached
      case JObj(m) =>
        var token := if "access_token" in m then m["access_token"] else JNull;
        var expiry := if "expires_at" in m then m["expires_at"] else JNum(0);
        (match expiry
         case JNum(n) => Record(token, n)
         case JBool(b) => Record(token, if b then 1 else 0)
         case _ => Unreadable)
      case _ => Unreadable
  }

  /** A token expiring at `expiresAt` may still be used at `now`. */
  predicate Usable(expiresAt: int, now: int)
  {
    now < expiresAt - TokenExpiryBuffer
  }

  /** `get_token` has to exchange: there is no record, or it is not usable. */
  predicate NeedsExchange(slot: SlotView, now: int)
  {
    slot.Empty? || (slot.Record? && !Usable(slot.expiresAt, now))
  }

  /** The token an exchange hands back, or the error it raises. */
  function Exchanged(g: Grant): Result<Json, AuthError>
  {
    if g.Granted? then Success(JStr(g.accessToken)) else Failure(ExchangeFailed)
  }

  /**
   * What `get_token` returns, given the slot it read at `now` and the grant
   * an exchange would yield.
   */
  function TokenDecision(slot: SlotView, now: int, g: Grant): Result<Json, AuthError>
  {
    if slot.Unreadable? then Failure(UnreadableSlot)
    else if NeedsExchange(slot, now) then Exchanged(g)
    else Success(slot.token)
  }

  /** The store after a grant obtained at `now` has been written through a cache that is `up`. */
  function Remember(store: map<string, Entry>, up: bool, g: Grant, now: int): map<string, Entry>
  {
    if up && g.Granted? && g.expiresIn - TokenExpiryBuffer > 0
    then store[TokenCacheKey := Entry(TokenRecord(g.accessToken, now + g.expiresIn),
                                      now + g.expiresIn - TokenExpiryBuffer)]
    else store
  }

  /** Remembering a grant, or forgetting the token first, touches no key but the slot. */
  lemma RememberTouchesOnlySlot(store: map<string, Entry>, forget: bool, up: bool, g: Grant, now: int)
    ensures var s0 := if forget then store - {TokenCacheKey} else store;
      Remember(s0, up, g, now) - {TokenCacheKey} == store - {TokenCacheKey}
  {
    var s0 := if forget then store - {TokenCacheKey} else store;
    assert s0 - {TokenCacheKey} == store - {TokenCacheKey};
  }

  /**
   * The cached token is returned without an exchange iff the slot holds a
   * record and `now < expires_at - 300`; otherwise the exchange decides.
   */
  lemma ReuseIffUsable(slot: SlotView, now: int, g: Grant)
    requires !slot.Unreadable?
    ensures !NeedsExchange(slot, now) <==> slot.Record? && now < slot.expiresAt - 300
    ensures !NeedsExchange(slot, now) ==> TokenDecision(slot, now, g) == Success(slot.token)
    ensures NeedsExchange(slot, now) ==> TokenDecision(slot, now, g) == Exchanged(g)
  {
  }

  /** A record without `expires_at` counts as expiring at 0 and is never reused. */
  lemma MissingExpiryNeverUsable(m: map<string, Json>, now: int)
    requires m != map[] && "expires_at" !in m
    requires now >= 0
    ensures ViewSlot(JObj(m)).Record? && ViewSlot(JObj(m)).expiresAt == 0
    ensures NeedsExchange(ViewSlot(JObj(m)), now)
  {
  }

  /**
   * The slot entry written for a grant lives exactly as long as the token is
   * usable, and while it lives it reads back as that token.
   */
  lemma RememberedTokenReused(store: map<string, Entry>, token: string, expiresIn: int, t0: int, now: int, g: Grant)
    requires expiresIn > TokenExpiryBuffer
    ensures var s := Remember(store, true, Granted(token, expiresIn), t0);
      && (Live(s, TokenCacheKey, now) <==> Usable(t0 + expiresIn, now))
      && (now < t0 + expiresIn - TokenExpiryBuffer ==>
            TokenDecision(ViewSlot(Lookup(s, TokenCacheKey, now)), now, g) == Success(JStr(token)))
  {
    var s := Remember(store, true, Granted(token, expiresIn), t0);
    if now < t0 + expiresIn - TokenExpiryBuffer {
      var rec := TokenRecord(token, t0 + expiresIn);
      assert Lookup(s, TokenCacheKey, now) == rec;
      assert "access_token" in rec.fields && "expires_at" in rec.fields;
      assert ViewSlot(rec) == Record(JStr(token), t0 + expiresIn);
    }
  }

  /**
   * The token `get_token` yields right after `refresh_token` obtained `g1`
   * through a cache that is `up`, when a further exchange would yield `g2`:
   * nothing if the refresh was refused; the refreshed token if it was
   * remembered; otherwise whatever that further exchange yields.
   */
  function TokenAfterRefresh(up: bool, g1: Grant, g2: Grant): Result<Json, AuthError>
  {
    if g1.Refused? then Failure(ExchangeFailed)
    else if up && g1.expiresIn > TokenExpiryBuffer then Success(JStr(g1.accessToken))
    else Exchanged(g2)
  }

  /** What the slot shows right after a granted refresh decides as `TokenAfterRefresh` says. */
  lemma RefreshThenDecide(store: map<string, Entry>, up: bool, g1: Grant, g2: Grant, now: int)
    requires g1.Granted?
    ensures var s := Remember(if up then store - {TokenCacheKey} else store, up, g1, now);
      TokenDecision(ViewSlot(if up then Lookup(s, TokenCacheKey, now) else JNull), now, g2)
        == TokenAfterRefresh(up, g1, g2)
  {
    var s0 := if up then store - {TokenCacheKey} else store;
    if up && g1.expiresIn > TokenExpiryBuffer {
      RememberedTokenReused(s0, g1.accessToken, g1.expiresIn, now, now, g2);
    } else if up {
      assert Remember(s0, up, g1, now) == s0;
      assert Lookup(s0, TokenCacheKey, now) == JNull;
    }
  }

  /** The slot as `get_token` reads it at `now` from `store`, through a cache that answers iff `up`. */
  function SlotIn(store: map<string, Entry>, up: bool, now: int): SlotView
  {
    ViewSlot(if up then Lookup(store, TokenCacheKey, now) else JNull)
  }

  /** The token side of the state: the cache contents and how many exchanges were made. */
  datatype TokenState = TokenState(store: map<string, Entry>, exchanges: nat)

  /** What `get_token` at `now` leaves behind, when an exchange would yield `g`. */
  function AfterGetToken(store: map<string, Entry>, up: bool, g: Grant, now: int): TokenState
  {
    if NeedsExchange(SlotIn(store, up, now), now) then TokenState(Remember(store, up, g, now), 1)
    else TokenState(store, 0)
  }

  /**
   * What `refresh_token` at `now` leaves behind and, when its exchange was
   * granted, the `get_token` that follows it; `grants` is the script of the
   * token endpoint at the refresh.
   */
  function AfterRefreshAndGet(store: map<string, Entry>, up: bool, grants: seq<Grant>, now: int): TokenState
  {
    var s := Remember(if up then store - {TokenCacheKey} else store, up, GrantAt(grants, 0), now);
    if GrantAt(grants, 0).Refused? then TokenState(s, 1)
    else
      var st := AfterGetToken(s, up, GrantAt(grants, 1), now);
      TokenState(st.store, 1 + st.exchanges)
  }

  /**
   * A token obtained by an exchange through a working cache, and good for
   * more than the buffer, is reused with no exchange by every later
   * `get_token` until 300 s before it expires.
   */
  lemma ExchangedTokenReused(store: map<string, Entry>, g: Grant, now: int, later: int, g2: Grant)
    requires NeedsExchange(SlotIn(store, true, now), now)
    requires g.Granted? && g.expiresIn > TokenExpiryBuffer
    requires now <= later < now + g.expiresIn - TokenExpiryBuffer
    ensures var st := AfterGetToken(store, true, g, now);
      && st.exchanges == 1
      && TokenDecision(SlotIn(st.store, true, later), later, g2) == Success(JStr(g.accessToken))
      && AfterGetToken(st.store, true, g2, later) == TokenState(st.store, 0)
  {
    RememberedTokenReused(store, g.accessToken, g.expiresIn, now, later, g2);
    var rec := TokenRecord(g.accessToken, now + g.expiresIn);
    assert Lookup(Remember(store, true, g, now), TokenCacheKey, later) == rec;
    assert "access_token" in rec.fields && "expires_at" in rec.fields;
  }

  /**
   * A granted refresh through a working cache, good for more than the
   * buffer, costs exactly one exchange, and leaves the refreshed token (not
   * the one it replaced) in the slot, where `get_token` finds it.
   */
  lemma RefreshLeavesNewToken(store: map<string, Entry>, grants: seq<Grant>, now: int)
    requires GrantAt(grants, 0).Granted? && GrantAt(grants, 0).expiresIn > TokenExpiryBuffer
    ensures var g := GrantAt(grants, 0);
      var st := AfterRefreshAndGet(store, true, grants, now);
      && st.exchanges == 1
      && st.store == store[TokenCacheKey := Entry(TokenRecord(g.accessToken, now + g.expiresIn),
                                                  now + g.expiresIn - TokenExpiryBuffer)]
      && SlotIn(st.store, true, now) == Record(JStr(g.accessToken), now + g.expiresIn)
  {
    var g := GrantAt(grants, 0);
    var s := Remember(store - {TokenCacheKey}, true, g, now);
    assert s == store[TokenCacheKey := Entry(TokenRecord(g.accessToken, now + g.expiresIn),
                                            now + g.expiresIn - TokenExpiryBuffer)];
    var rec := TokenRecord(g.accessToken, now + g.expiresIn);
    assert Lookup(s, TokenCacheKey, now) == rec;
    assert "access_token" in rec.fields && "expires_at" in rec.fields;
  }

  /** Owns the token slot of `cache` and the exchange with `auth`. */
  class TokenManager {
    const cache: TtlCache
    const auth: AuthServer
    /** How many forced refreshes have been made. */
    ghost var refreshes: nat

    constructor (cache: TtlCache, auth: AuthServer)
      ensures this.cache == cache && this.auth == auth && refreshes == 0
    {
      this.cache := cache;
      this.auth := auth;
      refreshes := 0;
    }

    /** The slot as `get_token` would read it at `now`. */
    function Slot(now: int): SlotView
      reads cache
    {
      SlotIn(cache.store, cache.connected && cache.reachable, now)
    }

    /**
     * One exchange; on success the token is remembered under the slot with
     * `expires_at = now + expires_in` and a time-to-live 300 s shorter.
     * A failed exchange writes nothing.
     */
    method FetchNewToken(now: int) returns (r: Result<Json, AuthError>)
      modifies cache`store, auth
      ensures r == Exchanged(GrantAt(old(auth.script), 0))
      ensures auth.script == DropGrants(old(auth.script), 1)
      ensures auth.exchanges == old(auth.exchanges) + 1
      ensures cache.store == Remember(old(cache.store), cache.connected && cache.reachable,
                                      GrantAt(old(auth.script), 0), now)
    {
      var g := auth.Exchange();
      if g.Refused? {
        return Failure(ExchangeFailed);
      }
      var expiresAt := now + g.expiresIn;
      var ttl := g.expiresIn - TokenExpiryBuffer;
      var _ := cache.Set(TokenCacheKey, TokenRecord(g.accessToken, expiresAt), ttl, now);
      r := Success(JStr(g.accessToken));
    }

    /**
     * The token to use at `now`: the cached one while usable, otherwise the
     * result of exactly one exchange.
     */
    method GetToken(now: int) returns (r: Result<Json, AuthError>)
      modifies cache`store, auth
      ensures r == TokenDecision(old(Slot(now)), now, GrantAt(old(auth.script), 0))
      ensures NeedsExchange(old(Slot(now)), now) ==>
        && auth.exchanges == old(auth.exchanges) + 1
        && auth.script == DropGrants(old(auth.script), 1)
        && cache.store == Remember(old(cache.store), cache.connected && cache.reachable,
                                   GrantAt(old(auth.script), 0), now)
      ensures !NeedsExchange(old(Slot(now)), now) ==>
        && auth.exchanges == old(auth.exchanges)
        && auth.script == old(auth.script)
        && cache.store == old(cache.store)
    {
      var cached := cache.Get(TokenCacheKey, now);
      var slot := ViewSlot(cached);
      if slot.Unreadable? {
        return Failure(UnreadableSlot);
      }
      if slot.Record? && Usable(slot.expiresAt, now) {
        return Success(slot.token);
      }
      r := FetchNewToken(now);
    }

    /**
     * Forgets the cached token, then exchanges whatever its validity; after
     * a failed refresh no token is left in the slot.
     */
    method RefreshToken(now: int) returns (r: Result<Json, AuthError>)
      modifies this`refreshes, cache`store, auth
      ensures refreshes == old(refreshes) + 1
      ensures r == Exchanged(GrantAt(old(auth.script), 0))
      ensures auth.script == DropGrants(old(auth.script), 1)
      ensures auth.exchanges == old(auth.exchanges) + 1
      ensures cache.store == Remember(
        if cache.connected && cache.reachable then old(cache.store) - {TokenCacheKey} else old(cache.store),
        cache.connected && cache.reachable, GrantAt(old(auth.script), 0), now)
      ensures r.Failure? ==> Slot(now) == Empty
    {
      refreshes := refreshes + 1;
      var _ := cache.Delete(TokenCacheKey, now);
      r := FetchNewToken(now);
    }
  }
}
