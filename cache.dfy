/**
 * The response and credential cache: a key/value store in which every entry
 * carries its own expiry, reached through a client that may be missing or
 * failing, plus the function that builds cache keys.
 *
 * Every operation degrades instead of raising: with no client, or when the
 * store raises, `Get` answers a miss and `Set`/`Delete` answer `false`.
 */
module Cache {
  import opened Json
  import opened Text

  /** A stored value and the instant (seconds) from which it is expired. */
  datatype Entry = Entry(value: Json, expiresAt: int)

  /** A positional argument of the key builder, with its Python type. */
  datatype Arg =
    | Str(s: string)
    | Int(i: int)
    | Bool(b: bool)
    | Tuple(items: seq<string>)
    | Null

  /** `str(a)`. */
  function ArgText(a: Arg): string
  {
    match a
    case Str(s) => s
    case Int(i) => IntToString(i)
    case Bool(b) => BoolToString(b)
    case Tuple(items) => TupleToString(items)
    case Null => "None"
  }

  /** `[str(arg) for arg in args if arg is not None]`. */
  function KeyParts(args: seq<Arg>): seq<string>
  {
    if args == [] then []
    else (if args[0].Null? then [] else [ArgText(args[0])]) + KeyParts(args[1..])
  }

  /** Every argument that is not `None` shows up as its text, and every part is the text of one. */
  lemma {:induction false} KeyPartsContent(args: seq<Arg>)
    ensures forall i | 0 <= i < |args| && !args[i].Null? :: ArgText(args[i]) in KeyParts(args)
    ensures forall p | p in KeyParts(args) :: exists i | 0 <= i < |args| :: !args[i].Null? && ArgText(args[i]) == p
  {
    if args != [] {
      KeyPartsContent(args[1..]);
      forall p | p in KeyParts(args)
        ensures exists i | 0 <= i < |args| :: !args[i].Null? && ArgText(args[i]) == p
      {
        if !args[0].Null? && p == ArgText(args[0]) {
          assert !args[0].Null? && ArgText(args[0]) == p;
        } else {
          assert p in KeyParts(args[1..]);
          var j :| 0 <= j < |args[1..]| && !args[1..][j].Null? && ArgText(args[1..][j]) == p;
          assert args[j + 1] == args[1..][j];
        }
      }
      forall i | 0 <= i < |args| && !args[i].Null?
        ensures ArgText(args[i]) in KeyParts(args)
      {
        if i > 0 {
          assert args[1..][i - 1] == args[i];
        }
      }
    }
  }

  /** The cache key for `prefix` and `args`: `":".join([prefix] + parts)`. */
  function GenerateKey(prefix: string, args: seq<Arg>): (key: string)
    ensures |prefix| <= |key| && key[..|prefix|] == prefix
  {
    var parts := KeyParts(args);
    assert ([prefix] + parts)[1..] == parts;
    Join(":", [prefix] + parts)
  }

  lemma {:induction false} KeyPartsConcat(xs: seq<Arg>, ys: seq<Arg>)
    ensures KeyParts(xs + ys) == KeyParts(xs) + KeyParts(ys)
    decreases |xs|
  {
    if xs == [] {
      assert xs + ys == ys;
    } else {
      assert (xs + ys)[0] == xs[0];
      assert (xs + ys)[1..] == xs[1..] + ys;
      KeyPartsConcat(xs[1..], ys);
    }
  }

  /**
   * The key is the prefix followed, in argument order, by `":" + str(a)` for
   * every argument `a` that is not `None`.
   */
  lemma GenerateKeySnoc(prefix: string, args: seq<Arg>, a: Arg)
    ensures GenerateKey(prefix, []) == prefix
    ensures GenerateKey(prefix, args + [a])
         == if a.Null? then GenerateKey(prefix, args)
            else GenerateKey(prefix, args) + ":" + ArgText(a)
  {
    KeyPartsConcat(args, [a]);
    assert KeyParts([a]) == if a.Null? then [] else [ArgText(a)];
    if !a.Null? {
      JoinSnoc(":", [prefix] + KeyParts(args), ArgText(a));
      assert [prefix] + KeyParts(args) + [ArgText(a)] == [prefix] + KeyParts(args + [a]);
    } else {
      assert KeyParts(args + [a]) == KeyParts(args);
    }
  }

  /** `None` arguments leave no trace: dropping one does not change the key. */
  lemma GenerateKeyDropsNull(prefix: string, xs: seq<Arg>, ys: seq<Arg>)
    ensures GenerateKey(prefix, xs + [Null] + ys) == GenerateKey(prefix, xs + ys)
  {
    KeyPartsConcat(xs + [Null], ys);
    KeyPartsConcat(xs, [Null]);
    KeyPartsConcat(xs, ys);
    assert KeyParts([Null]) == [];
    assert KeyParts(xs + [Null] + ys) == KeyParts(xs + ys);
  }

  /** An entry exists for `key` and has not expired at `now`. */
  predicate Live(store: map<string, Entry>, key: string, now: int)
  {
    key in store && now < store[key].expiresAt
  }

  /** What the store answers for `key` at `now`; a miss reads as `null`. */
  function Lookup(store: map<string, Entry>, key: string, now: int): Json
  {
    if Live(store, key, now) then store[key].value else JNull
  }

  /**
   * A value written at `t` with time-to-live `ttl` is read back unchanged
   * before `t + ttl` and is a miss from then on; other keys are unaffected.
   */
  lemma SetThenLookup(store: map<string, Entry>, key: string, value: Json, t: int, ttl: int, other: string, now: int)
    requires other != key
    ensures Lookup(store[key := Entry(value, t + ttl)], key, now)
         == if now < t + ttl then value else JNull
    ensures Lookup(store[key := Entry(value, t + ttl)], other, now) == Lookup(store, other, now)
  {
  }

  /** After a removal the key is a miss at every instant. */
  lemma RemoveThenLookup(store: map<string, Entry>, key: string, now: int)
    ensures Lookup(store - {key}, key, now) == JNull
  {
  }

  /** The store behind a cache client. */
  class TtlCache {
    /** A client object is held (`self.client` is set). */
    var connected: bool
    /** The store answers; when false every call on it raises. */
    var reachable: bool
    /** The entries held by the store, expired ones included until removed. */
    var store: map<string, Entry>

    constructor (connected: bool, reachable: bool, existing: map<string, Entry>)
      ensures this.connected == connected && this.reachable == reachable
      ensures store == existing
    {
      this.connected := connected;
      this.reachable := reachable;
      store := existing;
    }

    /** What `Get(key)` would answer at `now`. */
    function Read(key: string, now: int): (value: Json)
      reads this
      ensures !connected || !reachable ==> value == JNull
      ensures connected && reachable ==> value == Lookup(store, key, now)
    {
      if connected && reachable then Lookup(store, key, now) else JNull
    }

    /** The cached value for `key`, or `null` on a miss, no client, or a store error. */
    method Get(key: string, now: int) returns (value: Json)
      ensures value == Read(key, now)
    {
      if !connected {
        return JNull;
      }
      if !reachable {
        return JNull;
      }
      value := if Live(store, key, now) then store[key].value else JNull;
    }

    /**
     * Stores `value` under `key` for `ttl` seconds, replacing any earlier
     * entry. The store refuses a time-to-live that is not positive.
     */
    method Set(key: string, value: Json, ttl: int, now: int) returns (ok: bool)
      modifies this`store
      ensures ok <==> connected && reachable && ttl > 0
      ensures store == if ok then old(store)[key := Entry(value, now + ttl)] else old(store)
    {
      if !connected {
        return false;
      }
      if !reachable || ttl <= 0 {
        return false;
      }
      store := store[key := Entry(value, now + ttl)];
      ok := true;
    }

    /** Removes `key`; `true` iff a live entry was removed. */
    method Delete(key: string, now: int) returns (deleted: bool)
      modifies this`store
      ensures deleted <==> connected && reachable && Live(old(store), key, now)
      ensures store == if connected && reachable then old(store) - {key} else old(store)
    {
      if !connected {
        return false;
      }
      if !reachable {
        return false;
      }
      deleted := Live(store, key, now);
      store := store - {key};
    }

    /** Whether the store responds. */
    method Ping() returns (up: bool)
      ensures up <==> connected && reachable
    {
      if !connected {
        return false;
      }
      up := reachable;
    }
  }
}
