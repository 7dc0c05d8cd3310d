/**
 * The file storage plugin: each record is one file `<directory>/<name>` holding
 * the JSON object `{v: version, d: data}`. The file system is modelled as a map
 * from path to the stored object; an I/O failure the file system may report is
 * supplied by the caller. Callback invocations are returned: the error argument
 * of a write callback, the `(version, data)` of a read callback, and for
 * `deleteBulk` the number of times its callback fires.
 */
module FileStorage {
  import opened Base

  /** The stored object `{v, d}`; `d` is the record data as JSON text. */
  datatype FileRecord = FileRecord(v: int, d: string)

  /** The text a failing file operation passes to the callback (`err.toString()`). */
  datatype IoError = NoSuchFile(path: string) | IoFailure(message: string)

  /** The path of a record's file. */
  function PathOf(directory: string, name: string): (path: string)
    ensures |path| == |directory| + 1 + |name|
    ensures path[..|directory|] == directory && path[|directory|] == '/' && path[|directory| + 1..] == name
  {
    directory + "/" + name
  }

  /** Within one directory, distinct records have distinct files. */
  lemma PathInjective(directory: string, a: string, b: string)
    ensures PathOf(directory, a) == PathOf(directory, b) <==> a == b
  {
    if PathOf(directory, a) == PathOf(directory, b) {
      assert a == PathOf(directory, a)[|directory| + 1..];
    }
  }

  /**
   * The files left after unlinking the named records in turn; `outcomes[i]` is the
   * I/O failure the i-th unlink reports, if any, and a failed unlink removes nothing.
   */
  ghost function Unlinked(files: map<string, FileRecord>, directory: string, names: seq<string>, outcomes: seq<Option<string>>): (r: map<string, FileRecord>)
    requires |outcomes| == |names|
    ensures r.Keys <= files.Keys
    ensures forall p :: p in r ==> r[p] == files[p]
  {
    if names == [] then files
    else
      var rest := Unlinked(files, directory, names[..|names| - 1], outcomes[..|names| - 1]);
      if outcomes[|names| - 1].None? then rest - {PathOf(directory, names[|names| - 1])} else rest
  }

  /**
   * What the unlinks leave, in closed form: a file survives exactly when no unlink that
   * succeeded addressed it, and a surviving file keeps its record.
   */
  lemma {:induction false} UnlinkedPaths(
    files: map<string, FileRecord>, directory: string, names: seq<string>, outcomes: seq<Option<string>>, p: string)
    requires |outcomes| == |names|
    ensures p in Unlinked(files, directory, names, outcomes) <==>
            p in files && !(exists i :: 0 <= i < |names| && outcomes[i].None? && PathOf(directory, names[i]) == p)
    ensures p in Unlinked(files, directory, names, outcomes) ==> Unlinked(files, directory, names, outcomes)[p] == files[p]
    decreases |names|
  {
    if names != [] {
      var n := |names| - 1;
      var ns, os := names[..n], outcomes[..n];
      UnlinkedPaths(files, directory, ns, os, p);
      if exists i :: 0 <= i < n && os[i].None? && PathOf(directory, ns[i]) == p {
        var i :| 0 <= i < n && os[i].None? && PathOf(directory, ns[i]) == p;
        assert outcomes[i].None? && PathOf(directory, names[i]) == p;
      }
      if exists i :: 0 <= i < |names| && outcomes[i].None? && PathOf(directory, names[i]) == p {
        var i :| 0 <= i < |names| && outcomes[i].None? && PathOf(directory, names[i]) == p;
        if i < n {
          assert os[i].None? && PathOf(directory, ns[i]) == p;
        }
      }
    }
  }

  class FileStoragePlugin {
    const directory: string
    var files: map<string, FileRecord>

    constructor (directory: string, files: map<string, FileRecord>)
      ensures this.directory == directory && this.files == files
    {
      this.directory := directory;
      this.files := files;
    }

    /** `set(name, version, data)`: writes `{v, d}`; the callback gets `null` or the write error. */
    method Set(name: string, version: int, data: string, ioError: Option<string>) returns (err: Option<IoError>)
      modifies this
      ensures ioError.Some? ==> err == Some(IoFailure(ioError.value)) && files == old(files)
      ensures ioError.None? ==> err == None && files == old(files)[PathOf(directory, name) := FileRecord(version, data)]
    {
      if ioError.Some? {
        err := Some(IoFailure(ioError.value));
        return;
      }
      files := files[PathOf(directory, name) := FileRecord(version, data)];
      err := None;
    }

    /** `get(name)`: a missing or unreadable file reads as version -1 and data `null`, never as an error. */
    method Get(name: string, ioError: Option<string>) returns (version: int, data: Option<string>)
      ensures ioError.None? && PathOf(directory, name) in files ==>
                version == files[PathOf(directory, name)].v && data == Some(files[PathOf(directory, name)].d)
      ensures ioError.Some? || PathOf(directory, name) !in files ==> version == -1 && data == None
    {
      var path := PathOf(directory, name);
      if ioError.Some? || path !in files {
        return -1, None;
      }
      var value := files[path];
      version, data := value.v, Some(value.d);
    }

    /** `delete(name)`: unlinks the file; the callback gets `null` or the error. */
    method Delete(name: string, ioError: Option<string>) returns (err: Option<IoError>)
      modifies this
      ensures ioError.Some? ==> err == Some(IoFailure(ioError.value))
      ensures ioError.None? && PathOf(directory, name) !in old(files) ==> err == Some(NoSuchFile(PathOf(directory, name)))
      ensures ioError.None? && PathOf(directory, name) in old(files) ==> err == None
      ensures files == if ioError.None? then old(files) - {PathOf(directory, name)} else old(files)
    {
      var path := PathOf(directory, name);
      if ioError.Some? {
        return Some(IoFailure(ioError.value));
      }
      if path !in files {
        return Some(NoSuchFile(path));
      }
      files := files - {path};
      err := None;
    }

    /**
     * `deleteBulk(names)`: one delete per name; each delete's callback, error or not,
     * increments a shared counter and the bulk callback fires when it equals the
     * number of names. `outcomes[i]` is the I/O failure the i-th unlink reports, if any;
     * the result is how many times the bulk callback fires.
     */
    method DeleteBulk(names: seq<string>, outcomes: seq<Option<string>>) returns (fired: nat)
      requires |outcomes| == |names|
      modifies this
      ensures fired == if names == [] then 0 else 1
      ensures files == Unlinked(old(files), directory, names, outcomes)
    {
      var count := 0;
      fired := 0;
      var i := 0;
      while i < |names|
        invariant 0 <= i <= |names|
        invariant count == i
        invariant fired == if 0 < i == |names| then 1 else 0
        invariant files == Unlinked(old(files), directory, names[..i], outcomes[..i])
      {
        var name := names[i];
        var ignored := Delete(name, outcomes[i]);
        count := count + 1;
        if count == |names| {
          fired := fired + 1;
        }
        assert names[..i + 1][..i] == names[..i];
        assert outcomes[..i + 1][..i] == outcomes[..i];
        i := i + 1;
      }
      assert names[..i] == names && outcomes[..i] == outcomes;
    }

    /** `deleteBulk` as evidently intended: an empty list completes at once. */
    method DeleteBulkIntended(names: seq<string>, outcomes: seq<Option<string>>) returns (fired: nat)
      requires |outcomes| == |names|
      modifies this
      ensures fired == 1
      ensures files == Unlinked(old(files), directory, names, outcomes)
    {
      if names == [] {
        return 1;
      }
      fired := DeleteBulk(names, outcomes);
    }
  }

  /** From any prior state, a record written and then read back yields the version and data written. */
  method RoundTrip(storage: FileStoragePlugin, name: string, version: int, data: string) returns (v: int, d: Option<string>)
    modifies storage
    ensures v == version && d == Some(data)
  {
    var err := storage.Set(name, version, data, None);
    v, d := storage.Get(name, None);
  }

  /** From any prior state, reading a record that was written and then deleted yields the miss sentinel. */
  method ReadAfterDelete(storage: FileStoragePlugin, name: string, version: int, data: string)
    returns (deleteErr: Option<IoError>, v: int, d: Option<string>)
    modifies storage
    ensures deleteErr == None && v == -1 && d == None
  {
    var err := storage.Set(name, version, data, None);
    deleteErr := storage.Delete(name, None);
    v, d := storage.Get(name, None);
  }
}
