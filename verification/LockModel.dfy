/** The single-instance TTL lock: one Redis key per lock, holding a token until an expiry time. */
module LockModel {

  type Token = nat

  datatype Held = Held(token: Token, expiry: int)

  type Locks = map<string, Held>

  /** Redis drops a key once the clock has passed its expiry; times are server milliseconds. */
  predicate Live(s: Locks, now: int, key: string) {
    key in s && now <= s[key].expiry
  }

  predicate Holds(s: Locks, now: int, key: string, token: Token) {
    Live(s, now, key) && s[key].token == token
  }

  datatype Command =
    | Acquire(key: string, token: Token, ttl: int)
    | Release(key: string, token: Token)
    | Extend(key: string, token: Token, ttl: int)

  /** `Rejected`: Redis refuses a non-positive `PX` argument. */
  datatype Reply = Ok | LockHeld | LockNotHeld | Rejected

  function Run(s: Locks, now: int, c: Command): (Locks, Reply) {
    match c
    case Acquire(key, token, ttl) =>
      if Live(s, now, key) then (s, LockHeld)
      else if ttl <= 0 then (s, Rejected)
      else (s[key := Held(token, now + ttl)], Ok)
    case Release(key, token) =>
      if Holds(s, now, key, token) then (s - {key}, Ok) else (s, LockNotHeld)
    case Extend(key, token, ttl) =>
      if !Holds(s, now, key, token) then (s, LockNotHeld)
      else if ttl <= 0 then (s - {key}, Ok)   // PEXPIRE with such a time deletes the key
      else (s[key := Held(token, now + ttl)], Ok)
  }

  /** `Duration.Milliseconds()`: nanoseconds to whole milliseconds, towards zero. */
  function Milliseconds(ns: int): int {
    if ns >= 0 then ns / 1_000_000 else -(-ns / 1_000_000)
  }

  class RedisLocker {
    var keys: Locks

    constructor ()
      ensures keys == map[]
    {
      keys := map[];
    }

    method Acquire(key: string, token: Token, ttl: int, now: int) returns (r: Reply)
      modifies this
      ensures (keys, r) == Run(old(keys), now, Command.Acquire(key, token, Milliseconds(ttl)))
      ensures r == Ok <==> !Live(old(keys), now, key) && ttl >= 1_000_000
      ensures r == LockHeld <==> Live(old(keys), now, key)
      ensures r == Ok ==> keys == old(keys)[key := Held(token, now + ttl / 1_000_000)]
      ensures r != Ok ==> keys == old(keys)
    {
      if Live(keys, now, key) {
        return LockHeld;
      }
      var px := Milliseconds(ttl);
      if px <= 0 {
        return Rejected;
      }
      keys := keys[key := Held(token, now + px)];
      r := Ok;
    }

    method Release(key: string, token: Token, now: int) returns (r: Reply)
      modifies this
      ensures (keys, r) == Run(old(keys), now, Command.Release(key, token))
      ensures r == Ok <==> Holds(old(keys), now, key, token)
      ensures keys == if r == Ok then old(keys) - {key} else old(keys)
    {
      if key in keys && now <= keys[key].expiry && keys[key].token == token {
        keys := keys - {key};
        return Ok;
      }
      r := LockNotHeld;
    }

    method Extend(key: string, token: Token, ttl: int, now: int) returns (r: Reply)
      modifies this
      ensures (keys, r) == Run(old(keys), now, Command.Extend(key, token, Milliseconds(ttl)))
      ensures r == Ok <==> Holds(old(keys), now, key, token)
      ensures r == Ok && ttl >= 1_000_000 ==> keys == old(keys)[key := Held(token, now + ttl / 1_000_000)]
      ensures r == Ok && ttl < 1_000_000 ==> keys == old(keys) - {key}
      ensures r != Ok ==> keys == old(keys)
    {
      if key in keys && now <= keys[key].expiry && keys[key].token == token {
        var px := Milliseconds(ttl);
        if px <= 0 {
          keys := keys - {key};
        } else {
          keys := keys[key := Held(token, now + px)];
        }
        return Ok;
      }
      r := LockNotHeld;
    }

    method IsHeld(key: string, token: Token, now: int) returns (held: bool)
      ensures held <==> Holds(keys, now, key, token)
    {
      held := Live(keys, now, key) && keys[key].token == token;
    }
  }
}
