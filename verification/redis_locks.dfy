/**
 * The Redis lock registry: `get` issues SETNX on the lock's key and, unless
 * SETNX reports an error, EXPIRE with the configured timeout in seconds;
 * `release` issues DEL. The Redis server is modelled as a keyspace map plus the
 * log of commands it received; every command's reply (success or error) is
 * supplied by the caller, so each contract holds for whatever the server answers.
 */
module RedisLocks {
  import opened Base

  /** A stored key: the value SETNX wrote and the time-to-live EXPIRE attached, in seconds. */
  datatype Entry = Entry(value: Option<string>, ttlSeconds: Option<real>)

  /** A command as the server receives it. */
  datatype Command = Setnx(key: string) | Expire(key: string, seconds: real) | Del(key: string)

  /** What the server answers: success, or an error passed to the command's callback. */
  datatype Reply = Ok | Failed(error: string)

  /** The key every command for `lock` addresses. */
  function LockKey(lock: string): (key: string)
    ensures |key| == |lock| + 8 && key[8..] == lock
    ensures key[..8] == "DS_LOCK/"
  {
    "DS_LOCK/" + lock
  }

  /** Distinct locks never share a key. */
  lemma LockKeyInjective(a: string, b: string)
    ensures LockKey(a) == LockKey(b) <==> a == b
  {
    if LockKey(a) == LockKey(b) {
      assert a == LockKey(a)[8..] == LockKey(b)[8..] == b;
    }
  }

  /** `lockTimeout / 1000`: milliseconds to the seconds EXPIRE takes, as an exact division. */
  function TimeoutSeconds(lockTimeoutMs: int): (s: real)
    ensures s * 1000.0 == lockTimeoutMs as real
    ensures lockTimeoutMs >= 0 ==> s >= 0.0
  {
    lockTimeoutMs as real / 1000.0
  }

  /** Whether `x` is a whole number; EXPIRE rejects any other number of seconds. */
  predicate IsWholeNumber(x: real) {
    x == x.Floor as real
  }

  /** The EXPIRE argument is a whole number of seconds exactly when the timeout is a multiple of 1000 ms. */
  lemma WholeTimeoutIffMultiple(lockTimeoutMs: int)
    ensures IsWholeNumber(TimeoutSeconds(lockTimeoutMs)) <==> lockTimeoutMs % 1000 == 0
  {
    var s := TimeoutSeconds(lockTimeoutMs);
    var q := lockTimeoutMs / 1000;
    var r := lockTimeoutMs % 1000;
    assert lockTimeoutMs == q * 1000 + r;
    assert s == q as real + r as real / 1000.0;
    if r == 0 {
      assert s == q as real;
    } else {
      assert q as real < s < q as real + 1.0;
      assert s.Floor == q;
    }
  }

  /** `Math.ceil(lockTimeout / 1000)`: the timeout rounded up to whole seconds, so a lock never expires early. */
  function WholeSeconds(lockTimeoutMs: int): (s: int)
    ensures s * 1000 >= lockTimeoutMs && s * 1000 < lockTimeoutMs + 1000
  {
    (lockTimeoutMs + 999) / 1000
  }

  /** The Redis server's state. SETNX is sent without a value argument; the stored value is then `None`. */
  class RedisServer {
    var keys: map<string, Entry>
    var received: seq<Command>

    constructor ()
      ensures keys == map[] && received == []
    {
      keys := map[];
      received := [];
    }

    /** SETNX: creates the key if absent; the integer result is 1 when it was created, 0 otherwise. */
    method Setnx(key: string, reply: Reply) returns (result: nat)
      modifies this
      ensures received == old(received) + [Command.Setnx(key)]
      ensures reply.Failed? ==> keys == old(keys) && result == 0
      ensures reply.Ok? && key in old(keys) ==> keys == old(keys) && result == 0
      ensures reply.Ok? && key !in old(keys) ==> keys == old(keys)[key := Entry(None, None)] && result == 1
    {
      received := received + [Command.Setnx(key)];
      result := 0;
      if reply.Ok? && key !in keys {
        keys := keys[key := Entry(None, None)];
        result := 1;
      }
    }

    /**
     * EXPIRE: attaches a time-to-live to an existing key. A number of seconds that is
     * not whole is rejected with an error, and a non-positive one deletes the key at once.
     */
    method Expire(key: string, seconds: real, reply: Reply)
      modifies this
      ensures received == old(received) + [Command.Expire(key, seconds)]
      ensures keys == if reply.Ok? && IsWholeNumber(seconds) && key in old(keys)
                      then (if seconds <= 0.0 then old(keys) - {key}
                            else old(keys)[key := old(keys)[key].(ttlSeconds := Some(seconds))])
                      else old(keys)
    {
      received := received + [Command.Expire(key, seconds)];
      if reply.Ok? && IsWholeNumber(seconds) && key in keys {
        if seconds <= 0.0 {
          keys := keys - {key};
        } else {
          keys := keys[key := keys[key].(ttlSeconds := Some(seconds))];
        }
      }
    }

    /** DEL: removes the key. */
    method Del(key: string, reply: Reply)
      modifies this
      ensures received == old(received) + [Command.Del(key)]
      ensures keys == if reply.Ok? then old(keys) - {key} else old(keys)
    {
      received := received + [Command.Del(key)];
      if reply.Ok? {
        keys := keys - {key};
      }
    }
  }

  /** The lock registry plugin: a client of one Redis server and the configured `lockTimeout` in milliseconds. */
  class RedisLockRegistry {
    const client: RedisServer
    const lockTimeout: int

    constructor (client: RedisServer, lockTimeout: int)
      ensures this.client == client && this.lockTimeout == lockTimeout
    {
      this.client := client;
      this.lockTimeout := lockTimeout;
    }

    /**
     * `get(lock, callback)`: the returned value is the single argument passed to the callback.
     * The grant depends only on whether SETNX reported an error, never on its result.
     */
    method Get(lock: string, setnxReply: Reply, expireReply: Reply) returns (granted: bool)
      modifies client
      ensures granted <==> setnxReply.Ok?
      ensures !granted ==> client.received == old(client.received) + [Setnx(LockKey(lock))]
      ensures granted ==>
        client.received == old(client.received) + [Setnx(LockKey(lock)), Expire(LockKey(lock), TimeoutSeconds(lockTimeout))]
      ensures granted ==>
        var before := if LockKey(lock) in old(client.keys) then old(client.keys)[LockKey(lock)] else Entry(None, None);
        var seconds := TimeoutSeconds(lockTimeout);
        if expireReply.Ok? && IsWholeNumber(seconds) && seconds <= 0.0 then LockKey(lock) !in client.keys
        else if expireReply.Ok? && IsWholeNumber(seconds) then
          LockKey(lock) in client.keys && client.keys[LockKey(lock)] == before.(ttlSeconds := Some(seconds))
        else LockKey(lock) in client.keys && client.keys[LockKey(lock)] == before
      ensures forall k :: k != LockKey(lock) ==> (k in client.keys <==> k in old(client.keys))
      ensures forall k :: k in client.keys && k != LockKey(lock) ==> client.keys[k] == old(client.keys)[k]
      ensures !granted ==> client.keys == old(client.keys)
    {
      var key := LockKey(lock);
      var result := client.Setnx(key, setnxReply);
      if setnxReply.Failed? {
        granted := false;
        return;
      }
      client.Expire(key, TimeoutSeconds(lockTimeout), expireReply);
      granted := true;
    }

    /** `get` as evidently intended: the timeout is rounded up to whole seconds before EXPIRE. */
    method GetIntended(lock: string, setnxReply: Reply, expireReply: Reply) returns (granted: bool)
      modifies client
      ensures granted <==> setnxReply.Ok?
      ensures granted && expireReply.Ok? && lockTimeout >= 1 ==>
        var before := if LockKey(lock) in old(client.keys) then old(client.keys)[LockKey(lock)] else Entry(None, None);
        LockKey(lock) in client.keys && client.keys[LockKey(lock)] == before.(ttlSeconds := Some(WholeSeconds(lockTimeout) as real))
      ensures granted && expireReply.Ok? && lockTimeout >= 1 ==>
        WholeSeconds(lockTimeout) as real >= TimeoutSeconds(lockTimeout)
      ensures forall k :: k != LockKey(lock) ==> (k in client.keys <==> k in old(client.keys))
      ensures forall k :: k in client.keys && k != LockKey(lock) ==> client.keys[k] == old(client.keys)[k]
    {
      var key := LockKey(lock);
      var result := client.Setnx(key, setnxReply);
      if setnxReply.Failed? {
        granted := false;
        return;
      }
      client.Expire(key, WholeSeconds(lockTimeout) as real, expireReply);
      granted := true;
    }

    /** `release(lock)`: deletes the key with no ownership check and no callback. */
    method Release(lock: string, delReply: Reply)
      modifies client
      ensures client.received == old(client.received) + [Del(LockKey(lock))]
      ensures client.keys == if delReply.Ok? then old(client.keys) - {LockKey(lock)} else old(client.keys)
    {
      client.Del(LockKey(lock), delReply);
    }
  }

  /**
   * Two registries sharing one server ask for the same lock while it is held:
   * since SETNX's result is never inspected, both are granted.
   */
  method HeldLockGrantedTwice(lock: string) returns (first: bool, second: bool, server: RedisServer)
    ensures first && second
    ensures server.received == [Setnx(LockKey(lock)), Expire(LockKey(lock), 5.0),
                                Setnx(LockKey(lock)), Expire(LockKey(lock), 5.0)]
  {
    server := new RedisServer();
    var a := new RedisLockRegistry(server, 5000);
    var b := new RedisLockRegistry(server, 5000);
    first := a.Get(lock, Ok, Ok);
    second := b.Get(lock, Ok, Ok);
  }

  /**
   * SETNX creates the key and EXPIRE then fails: the lock is granted, yet its key
   * carries no time-to-live, so it never expires.
   */
  method GrantedWithoutExpiry(lock: string) returns (granted: bool, entry: Entry)
    ensures granted
    ensures entry == Entry(None, None)
  {
    var server := new RedisServer();
    var registry := new RedisLockRegistry(server, 1000);
    granted := registry.Get(lock, Ok, Failed("ERR"));
    entry := server.keys[LockKey(lock)];
  }

  /**
   * A timeout that is not a multiple of 1000 ms: EXPIRE is sent 1.5 seconds, which
   * Redis rejects, so even with every reply successful the lock never expires.
   */
  method FractionalTimeoutNeverExpires(lock: string) returns (granted: bool, entry: Entry)
    ensures granted
    ensures entry == Entry(None, None)
  {
    var server := new RedisServer();
    var registry := new RedisLockRegistry(server, 1500);
    granted := registry.Get(lock, Ok, Ok);
    entry := server.keys[LockKey(lock)];
  }

  /** With the timeout rounded up, the same lock expires after 2 seconds. */
  method WholeSecondsTimeoutExpires(lock: string) returns (granted: bool, entry: Entry)
    ensures granted
    ensures entry == Entry(None, Some(2.0))
  {
    var server := new RedisServer();
    var registry := new RedisLockRegistry(server, 1500);
    granted := registry.GetIntended(lock, Ok, Ok);
    entry := server.keys[LockKey(lock)];
  }

  /** A zero timeout: EXPIRE 0 deletes the key at once, so the lock is granted yet no key is left. */
  method ZeroTimeoutLeavesNoKey(lock: string) returns (granted: bool, server: RedisServer)
    ensures granted
    ensures LockKey(lock) !in server.keys
  {
    server := new RedisServer();
    var registry := new RedisLockRegistry(server, 0);
    granted := registry.Get(lock, Ok, Ok);
  }

  /** A registry that never held the lock releases it: the holder's key is gone. */
  method ReleaseByNonHolder(lock: string) returns (held: bool, server: RedisServer)
    ensures held
    ensures LockKey(lock) !in server.keys
  {
    server := new RedisServer();
    var holder := new RedisLockRegistry(server, 1000);
    var other := new RedisLockRegistry(server, 1000);
    held := holder.Get(lock, Ok, Ok);
    other.Release(lock, Ok);
  }
}
