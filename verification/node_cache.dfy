/**
 * The in-memory record cache: each record is stored under two keys of one flat
 * key-value cache, its name (holding the version) and its name with `_d`
 * appended (holding the data). The cache library is modelled as a map; an
 * error a read may report is supplied by the caller.
 */
module NodeCache {
  import opened Base

  /** A cached value: a version number or record data (its JSON text). */
  datatype Value = Version(version: int) | Data(data: string)

  type Cache = map<string, Value>

  /** The key holding a record's data. */
  function DataKey(name: string): (key: string)
    ensures |key| == |name| + 2 && key[..|name|] == name && key[|name|..] == "_d"
  {
    name + "_d"
  }

  /** A record's data key never equals its own version key. */
  lemma DataKeyDiffers(name: string)
    ensures DataKey(name) != name
  {
    assert |DataKey(name)| != |name|;
  }

  /** The key scheme is not injective: record "a"'s data key is record "a_d"'s version key. */
  lemma KeySchemeCollides()
    ensures DataKey("a") == "a_d"
    ensures forall c: Cache, v, d, v', d' ::
              Read(Stored(Stored(c, "a", v, d), "a_d", v', d'), "a") == (Some(Version(v)), Some(Version(v')))
  {
  }

  /** The cache after `set(name, version, data)`. */
  function Stored(c: Cache, name: string, version: int, data: string): (c': Cache)
    ensures c'.Keys == c.Keys + {name, DataKey(name)}
    ensures c'[name] == Version(version) && c'[DataKey(name)] == Data(data)
    ensures forall k :: k in c && k != name && k != DataKey(name) ==> c'[k] == c[k]
  {
    DataKeyDiffers(name);
    c[name := Version(version)][DataKey(name) := Data(data)]
  }

  /** What `mget([name, name + "_d"])` yields for a record: its two entries, each possibly missing. */
  function Read(c: Cache, name: string): (r: (Option<Value>, Option<Value>))
    ensures r.0.Some? <==> name in c
    ensures r.1.Some? <==> DataKey(name) in c
    ensures r.0.Some? ==> r.0.value == c[name]
    ensures r.1.Some? ==> r.1.value == c[DataKey(name)]
  {
    (if name in c then Some(c[name]) else None,
     if DataKey(name) in c then Some(c[DataKey(name)]) else None)
  }

  /** `get` after `set` yields the version and data just written. */
  lemma GetAfterSet(c: Cache, name: string, version: int, data: string)
    ensures Read(Stored(c, name, version, data), name) == (Some(Version(version)), Some(Data(data)))
  {
  }

  /** The cache after deleting the given keys (`del(keys)`). */
  function Deleted(c: Cache, keys: seq<string>): (c': Cache)
    ensures c'.Keys == c.Keys - set k | k in keys
    ensures forall k :: k in c' ==> c'[k] == c[k]
  {
    c - set k | k in keys
  }

  /** The keys `deleteBulk` passes to `del`: every data key, then every version key. */
  function BulkKeys(names: seq<string>): (keys: seq<string>)
    ensures |keys| == 2 * |names|
    ensures forall i :: 0 <= i < |names| ==> keys[i] == DataKey(names[i]) && keys[|names| + i] == names[i]
  {
    seq(|names|, i requires 0 <= i < |names| => DataKey(names[i])) + names
  }

  /** Deleting records one at a time, in order. */
  function DeleteEach(c: Cache, names: seq<string>): (c': Cache)
    ensures c'.Keys <= c.Keys
    ensures forall k :: k in c' ==> c'[k] == c[k]
    ensures forall i :: 0 <= i < |names| ==> names[i] !in c' && DataKey(names[i]) !in c'
  {
    if names == [] then c
    else DeleteEach(Deleted(c, [names[0], DataKey(names[0])]), names[1..])
  }

  /** Both keys of every named record. */
  ghost function RecordKeys(names: seq<string>): set<string> {
    (set n | n in names) + (set n | n in names :: DataKey(n))
  }

  lemma BulkKeysCoverRecords(names: seq<string>)
    ensures (set k | k in BulkKeys(names)) == RecordKeys(names)
  {
    var b := BulkKeys(names);
    forall k | k in b ensures k in RecordKeys(names) {
      var i :| 0 <= i < |b| && b[i] == k;
      if i < |names| {
        assert k == DataKey(names[i]);
      } else {
        assert k == names[i - |names|];
      }
    }
    forall k | k in RecordKeys(names) ensures k in b {
      if k in names {
        var i :| 0 <= i < |names| && names[i] == k;
        assert b[|names| + i] == k;
      } else {
        var n :| n in names && DataKey(n) == k;
        var i :| 0 <= i < |names| && names[i] == n;
        assert b[i] == k;
      }
    }
  }

  lemma {:induction false} DeleteEachRemovesRecordKeys(c: Cache, names: seq<string>)
    ensures DeleteEach(c, names) == c - RecordKeys(names)
  {
    if names != [] {
      var c1 := Deleted(c, [names[0], DataKey(names[0])]);
      DeleteEachRemovesRecordKeys(c1, names[1..]);
      assert c1 == c - {names[0], DataKey(names[0])};
      assert RecordKeys(names) == {names[0], DataKey(names[0])} + RecordKeys(names[1..]) by {
        assert names == [names[0]] + names[1..];
        assert forall n :: n in names <==> n == names[0] || n in names[1..];
      }
    }
  }

  /** `deleteBulk(names)` ends in the same cache as `delete` on each name. */
  lemma DeleteBulkIsDeleteEach(c: Cache, names: seq<string>)
    ensures Deleted(c, BulkKeys(names)) == DeleteEach(c, names)
  {
    BulkKeysCoverRecords(names);
    DeleteEachRemovesRecordKeys(c, names);
  }

  /** What a read callback receives: an error text and nothing else, or the values. */
  datatype HeadReply = HeadFailed(error: string) | HeadOk(version: Option<Value>)
  datatype HeadBulkReply = HeadBulkFailed(error: string) | HeadBulkOk(versions: map<string, Value>)
  datatype ReadReply = ReadFailed(error: string) | ReadOk(version: Option<Value>, data: Option<Value>)

  /** The cache plugin over one cache instance. */
  class NodeCachePlugin {
    var cache: Cache

    constructor ()
      ensures cache == map[]
    {
      cache := map[];
    }

    /** `head(name)`: the version entry, or only the error text if the cache reports one. */
    method Head(name: string, cacheError: Option<string>) returns (reply: HeadReply)
      ensures cacheError.Some? ==> reply == HeadFailed(cacheError.value)
      ensures cacheError.None? ==> reply == HeadOk(Read(cache, name).0)
    {
      if cacheError.Some? {
        reply := HeadFailed(cacheError.value);
        return;
      }
      reply := HeadOk(if name in cache then Some(cache[name]) else None);
    }

    /** `headBulk(names)`: one `mget` over exactly the given keys. */
    method HeadBulk(names: seq<string>, cacheError: Option<string>) returns (reply: HeadBulkReply)
      ensures cacheError.Some? ==> reply == HeadBulkFailed(cacheError.value)
      ensures cacheError.None? ==> reply.HeadBulkOk?
      ensures reply.HeadBulkOk? ==>
        (forall k :: k in reply.versions <==> k in names && k in cache) &&
        (forall k :: k in reply.versions ==> reply.versions[k] == cache[k])
    {
      if cacheError.Some? {
        reply := HeadBulkFailed(cacheError.value);
        return;
      }
      reply := HeadBulkOk(map k | k in names && k in cache :: cache[k]);
    }

    /** `set(name, version, data)`: writes the two keys and nothing else. */
    method Set(name: string, version: int, data: string)
      modifies this
      ensures cache == Stored(old(cache), name, version, data)
    {
      cache := cache[name := Version(version)];
      cache := cache[DataKey(name) := Data(data)];
    }

    /** `get(name)`: one `mget` of the version and data keys. */
    method Get(name: string, cacheError: Option<string>) returns (reply: ReadReply)
      ensures cacheError.Some? ==> reply == ReadFailed(cacheError.value)
      ensures cacheError.None? ==> reply == ReadOk(Read(cache, name).0, Read(cache, name).1)
    {
      if cacheError.Some? {
        reply := ReadFailed(cacheError.value);
        return;
      }
      var values := map k | k in [name, DataKey(name)] && k in cache :: cache[k];
      reply := ReadOk(if name in values then Some(values[name]) else None,
                      if DataKey(name) in values then Some(values[DataKey(name)]) else None);
    }

    /** `delete(name)`: removes both keys. */
    method Delete(name: string)
      modifies this
      ensures cache == Deleted(old(cache), [name, DataKey(name)])
      ensures name !in cache && DataKey(name) !in cache
      ensures forall k :: k in old(cache) && k != name && k != DataKey(name) ==> k in cache && cache[k] == old(cache)[k]
    {
      cache := Deleted(cache, [name, DataKey(name)]);
    }

    /** `deleteBulk(names)`: one `del` over every data key and every version key. */
    method DeleteBulk(names: seq<string>)
      modifies this
      ensures cache == Deleted(old(cache), BulkKeys(names))
      ensures cache == DeleteEach(old(cache), names)
    {
      DeleteBulkIsDeleteEach(cache, names);
      cache := Deleted(cache, BulkKeys(names));
    }
  }

  /** A `set` followed by a `get` and a `head` of the same record, with no error reported. */
  method SetThenRead(name: string, version: int, data: string) returns (read: ReadReply, head: HeadReply)
    ensures read == ReadOk(Some(Version(version)), Some(Data(data)))
    ensures head == HeadOk(Some(Version(version)))
  {
    var plugin := new NodeCachePlugin();
    plugin.Set(name, version, data);
    read := plugin.Get(name, None);
    head := plugin.Head(name, None);
  }
}
