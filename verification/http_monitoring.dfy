/**
 * The HTTP monitoring plugin's counters: four JavaScript `Map`s updated in place
 * by the server's monitoring hooks and emptied when the statistics are read.
 * A `Map` is modelled as its entry list in insertion order, which is what
 * spreading it (`[...map]`) produces.
 */
module HttpMonitoring {
  import opened Base
  import opened Protocol

  /** A JavaScript `Map`: entries in insertion order. */
  type Entries<K, V> = seq<(K, V)>

  /** The keys in insertion order (`[...map.keys()]`). */
  function Keys<K, V>(e: Entries<K, V>): (ks: seq<K>)
    ensures |ks| == |e| && forall i :: 0 <= i < |e| ==> ks[i] == e[i].0
  {
    if e == [] then [] else [e[0].0] + Keys(e[1..])
  }

  ghost predicate DistinctKeys<K, V>(e: Entries<K, V>) {
    forall i, j :: 0 <= i < j < |e| ==> Keys(e)[i] != Keys(e)[j]
  }

  /** `map.get(k)`. */
  function Lookup<K(==), V>(e: Entries<K, V>, k: K): (r: Option<V>)
    ensures r.Some? <==> k in Keys(e)
  {
    if e == [] then None
    else if e[0].0 == k then Some(e[0].1)
    else Lookup(e[1..], k)
  }

  /** `map.set(k, v)`: an existing key keeps its position, a new key goes last. */
  function Put<K(==), V>(e: Entries<K, V>, k: K, v: V): (r: Entries<K, V>)
    ensures Lookup(r, k) == Some(v)
  {
    if e == [] then [(k, v)]
    else if e[0].0 == k then [(k, v)] + e[1..]
    else [e[0]] + Put(e[1..], k, v)
  }

  /** After `set(k, v)`, `k` maps to `v` and every other key maps to what it did before. */
  lemma {:induction false} PutLookup<K, V>(e: Entries<K, V>, k: K, v: V, k': K)
    ensures Lookup(Put(e, k, v), k') == if k' == k then Some(v) else Lookup(e, k')
  {
    if e != [] && e[0].0 != k {
      PutLookup(e[1..], k, v, k');
    }
  }

  /** `set` keeps the key order, appending the key when it is new. */
  lemma {:induction false} PutKeys<K, V>(e: Entries<K, V>, k: K, v: V)
    ensures Keys(Put(e, k, v)) == if k in Keys(e) then Keys(e) else Keys(e) + [k]
  {
    if e != [] && e[0].0 != k {
      PutKeys(e[1..], k, v);
      assert Keys(e) == [e[0].0] + Keys(e[1..]);
    }
  }

  /** `set` keeps keys unique. */
  lemma {:induction false} PutDistinct<K, V>(e: Entries<K, V>, k: K, v: V)
    requires DistinctKeys(e)
    ensures DistinctKeys(Put(e, k, v))
  {
    PutKeys(e, k, v);
  }

  /** Every stored value satisfies `ok`. */
  ghost predicate AllValues<K, V>(e: Entries<K, V>, ok: V -> bool) {
    forall i :: 0 <= i < |e| ==> ok(e[i].1)
  }

  lemma {:induction false} PutAllValues<K, V>(e: Entries<K, V>, k: K, v: V, ok: V -> bool)
    requires AllValues(e, ok) && ok(v)
    ensures AllValues(Put(e, k, v), ok)
  {
    if e != [] && e[0].0 != k {
      assert AllValues(e[1..], ok);
      PutAllValues(e[1..], k, v, ok);
    }
  }

  /** The shared counting step: `count = map.get(k); map.set(k, !count ? 1 : count + 1)`. */
  function Increment<K(==)>(e: Entries<K, nat>, k: K): (r: Entries<K, nat>)
    ensures Lookup(r, k) == Some(Lookup(e, k).GetOr(0) + 1)
  {
    var count := Lookup(e, k).GetOr(0);
    Put(e, k, if count == 0 then 1 else count + 1)
  }

  /** The counter for `k` goes up by exactly one (from absent to 1); all other counters stay. */
  lemma {:induction false} IncrementCounts<K>(e: Entries<K, nat>, k: K, k': K)
    ensures Lookup(Increment(e, k), k') ==
            if k' == k then Some(Lookup(e, k).GetOr(0) + 1) else Lookup(e, k')
  {
    var count := Lookup(e, k).GetOr(0);
    PutLookup(e, k, if count == 0 then 1 else count + 1, k');
  }

  ghost predicate Positive(n: nat) { n >= 1 }

  /** A valid counter map: unique keys, every stored counter at least 1. */
  ghost predicate ValidCounters<K>(e: Entries<K, nat>) {
    DistinctKeys(e) && AllValues(e, Positive)
  }

  lemma {:induction false} IncrementKeepsValid<K>(e: Entries<K, nat>, k: K)
    requires ValidCounters(e)
    ensures ValidCounters(Increment(e, k))
  {
    var count := Lookup(e, k).GetOr(0);
    var r := Put(e, k, if count == 0 then 1 else count + 1);
    assert r == Increment(e, k);
    PutDistinct(e, k, if count == 0 then 1 else count + 1);
    PutAllValues(e, k, if count == 0 then 1 else count + 1, Positive);
    assert DistinctKeys(r) && AllValues(r, Positive);
  }

  /** `set` on a key not yet present appends one entry. */
  lemma {:induction false} PutNew<K, V>(e: Entries<K, V>, k: K, v: V)
    requires k !in Keys(e)
    ensures Put(e, k, v) == e + [(k, v)]
  {
    if e != [] {
      assert Keys(e) == [e[0].0] + Keys(e[1..]);
      PutNew(e[1..], k, v);
      assert e == [e[0]] + e[1..];
    }
  }

  /** The per-endpoint login record. */
  datatype LoginStats = LoginStats(allowed: nat, declined: nat)

  ghost predicate Attempted(s: LoginStats) { s.allowed + s.declined >= 1 }

  /** `allowed ? stats.allowed++ : stats.declined++`. */
  function Bump(stats: LoginStats, allowed: bool): (r: LoginStats)
    ensures r.allowed == stats.allowed + (if allowed then 1 else 0)
    ensures r.declined == stats.declined + (if allowed then 0 else 1)
  {
    if allowed then stats.(allowed := stats.allowed + 1) else stats.(declined := stats.declined + 1)
  }

  /** `onLogin`'s update: store `{0, 0}` if absent, then bump one field of that stored record. */
  function RecordLogin(e: Entries<string, LoginStats>, allowed: bool, endpointType: string): (r: Entries<string, LoginStats>)
    ensures Lookup(r, endpointType) == Some(Bump(Lookup(e, endpointType).GetOr(LoginStats(0, 0)), allowed))
  {
    var found := Lookup(e, endpointType);
    var stats := found.GetOr(LoginStats(0, 0));
    var withEntry := if found.None? then Put(e, endpointType, stats) else e;
    Put(withEntry, endpointType, Bump(stats, allowed))
  }

  /** The endpoint's `allowed` or `declined` rises by exactly one, the other field and every other endpoint stay. */
  lemma {:induction false} RecordLoginCounts(e: Entries<string, LoginStats>, allowed: bool, t: string, t': string)
    ensures t' != t ==> Lookup(RecordLogin(e, allowed, t), t') == Lookup(e, t')
    ensures var before := Lookup(e, t).GetOr(LoginStats(0, 0));
            Lookup(RecordLogin(e, allowed, t), t) == Some(Bump(before, allowed))
  {
    var found := Lookup(e, t);
    var stats := found.GetOr(LoginStats(0, 0));
    var withEntry := if found.None? then Put(e, t, stats) else e;
    assert RecordLogin(e, allowed, t) == Put(withEntry, t, Bump(stats, allowed));
    if found.None? {
      PutLookup(e, t, stats, t');
    }
    assert t' != t ==> Lookup(withEntry, t') == Lookup(e, t');
    PutLookup(withEntry, t, Bump(stats, allowed), t');
    PutLookup(withEntry, t, Bump(stats, allowed), t);
  }

  lemma {:induction false} RecordLoginKeepsValid(e: Entries<string, LoginStats>, allowed: bool, t: string)
    requires DistinctKeys(e) && AllValues(e, Attempted)
    ensures DistinctKeys(RecordLogin(e, allowed, t)) && AllValues(RecordLogin(e, allowed, t), Attempted)
  {
    var stats := Lookup(e, t).GetOr(LoginStats(0, 0));
    var updated := Bump(stats, allowed);
    if Lookup(e, t).None? {
      PutNew(e, t, stats);
      var withEntry := Put(e, t, stats);
      PutKeys(e, t, stats);
      PutDistinct(withEntry, t, updated);
      PutLastKey(e, t, stats, updated);
      assert Put(withEntry, t, updated) == e + [(t, updated)];
    } else {
      PutDistinct(e, t, updated);
      PutAllValues(e, t, updated, Attempted);
    }
  }

  /** Setting a key that was just appended replaces only that last entry. */
  lemma {:induction false} PutLastKey<V>(e: Entries<string, V>, t: string, v: V, v': V)
    requires t !in Keys(e)
    ensures Put(e + [(t, v)], t, v') == e + [(t, v')]
  {
    if e != [] {
      assert (e + [(t, v)])[1..] == e[1..] + [(t, v)];
      assert Keys(e) == [e[0].0] + Keys(e[1..]);
      PutLastKey(e[1..], t, v, v');
    }
  }

  /** What `getAndResetMonitoringStats` returns: the four entry lists. */
  datatype Snapshot = Snapshot(
    errors: Entries<string, nat>,
    recieved: Entries<TopicCode, nat>,
    send: Entries<TopicCode, nat>,
    logins: Entries<string, LoginStats>)

  /** The plugin's counters; EVENT values are strings, topics their TOPIC codes. */
  class HTTPMonitoring {
    var errorLogs: Entries<string, nat>
    var recieveStats: Entries<TopicCode, nat>
    var sendStats: Entries<TopicCode, nat>
    var loginStats: Entries<string, LoginStats>

    ghost predicate Valid()
      reads this
    {
      && ValidCounters(errorLogs)
      && ValidCounters(recieveStats)
      && ValidCounters(sendStats)
      && DistinctKeys(loginStats) && AllValues(loginStats, Attempted)
    }

    constructor ()
      ensures Valid()
      ensures errorLogs == [] && recieveStats == [] && sendStats == [] && loginStats == []
    {
      errorLogs, recieveStats, sendStats, loginStats := [], [], [], [];
    }

    /** `onErrorLog(level, event, logMessage)`: counts the event; the level and text are ignored. */
    method OnErrorLog(logLevel: nat, event: string, logMessage: string)
      requires Valid()
      modifies this
      ensures Valid()
      ensures errorLogs == Increment(old(errorLogs), event)
      ensures recieveStats == old(recieveStats) && sendStats == old(sendStats) && loginStats == old(loginStats)
    {
      IncrementKeepsValid(errorLogs, event);
      ghost var counted := Increment(errorLogs, event);
      var count := Lookup(errorLogs, event).GetOr(0);
      if count == 0 {
        errorLogs := Put(errorLogs, event, 1);
      } else {
        errorLogs := Put(errorLogs, event, count + 1);
      }
      assert errorLogs == counted;
    }

    /** `onLogin(allowed, endpointType)`. */
    method OnLogin(allowed: bool, endpointType: string)
      requires Valid()
      modifies this
      ensures Valid()
      ensures loginStats == RecordLogin(old(loginStats), allowed, endpointType)
      ensures errorLogs == old(errorLogs) && recieveStats == old(recieveStats) && sendStats == old(sendStats)
    {
      RecordLoginKeepsValid(loginStats, allowed, endpointType);
      ghost var recorded := RecordLogin(loginStats, allowed, endpointType);
      var found := Lookup(loginStats, endpointType);
      var stats := found.GetOr(LoginStats(0, 0));
      ghost var bumped := Bump(stats, allowed);
      if found.None? {
        loginStats := Put(loginStats, endpointType, stats);
      }
      if allowed {
        stats := stats.(allowed := stats.allowed + 1);
      } else {
        stats := stats.(declined := stats.declined + 1);
      }
      assert stats == bumped;
      loginStats := Put(loginStats, endpointType, stats);
      assert loginStats == recorded;
    }

    /** `onMessageRecieved(message)`: counts the message's topic among received messages. */
    method OnMessageRecieved(message: Message)
      requires Valid()
      modifies this
      ensures Valid()
      ensures recieveStats == Increment(old(recieveStats), message.topic)
      ensures errorLogs == old(errorLogs) && sendStats == old(sendStats) && loginStats == old(loginStats)
    {
      IncrementKeepsValid(recieveStats, message.topic);
      recieveStats := Increment(recieveStats, message.topic);
    }

    /** `onMessageSend(message)`: counts the message's topic among sent messages. */
    method OnMessageSend(message: Message)
      requires Valid()
      modifies this
      ensures Valid()
      ensures sendStats == Increment(old(sendStats), message.topic)
      ensures errorLogs == old(errorLogs) && recieveStats == old(recieveStats) && loginStats == old(loginStats)
    {
      IncrementKeepsValid(sendStats, message.topic);
      sendStats := Increment(sendStats, message.topic);
    }

    /** `onBroadcast(message, count)`: one more sent message on the topic, whatever the recipient count. */
    method OnBroadcast(message: Message, count: nat)
      requires Valid()
      modifies this
      ensures Valid()
      ensures sendStats == Increment(old(sendStats), message.topic)
      ensures errorLogs == old(errorLogs) && recieveStats == old(recieveStats) && loginStats == old(loginStats)
    {
      IncrementKeepsValid(sendStats, message.topic);
      sendStats := Increment(sendStats, message.topic);
    }

    /** `getAndResetMonitoringStats()`: the entries as they were, and four empty maps. */
    method GetAndResetMonitoringStats() returns (results: Snapshot)
      requires Valid()
      modifies this
      ensures Valid()
      ensures results == Snapshot(old(errorLogs), old(recieveStats), old(sendStats), old(loginStats))
      ensures errorLogs == [] && recieveStats == [] && sendStats == [] && loginStats == []
    {
      results := Snapshot(errorLogs, recieveStats, sendStats, loginStats);
      errorLogs, recieveStats, sendStats, loginStats := [], [], [], [];
    }
  }

  /** Two reads with no event in between: the second sees four empty lists. */
  method SecondResetIsEmpty(monitoring: HTTPMonitoring) returns (first: Snapshot, second: Snapshot)
    requires monitoring.Valid()
    modifies monitoring
    ensures first == Snapshot(old(monitoring.errorLogs), old(monitoring.recieveStats),
                              old(monitoring.sendStats), old(monitoring.loginStats))
    ensures second == Snapshot([], [], [], [])
  {
    first := monitoring.GetAndResetMonitoringStats();
    second := monitoring.GetAndResetMonitoringStats();
  }

  /** A broadcast to many recipients and a single send on the same topic count as two sends. */
  method BroadcastCountsOnce(m: Message) returns (stats: Snapshot)
    ensures stats.send == [(m.topic, 2)]
    ensures stats.errors == [] && stats.recieved == [] && stats.logins == []
  {
    var monitoring := new HTTPMonitoring();
    monitoring.OnBroadcast(m, 100);
    monitoring.OnMessageSend(m);
    stats := monitoring.GetAndResetMonitoringStats();
  }
}
