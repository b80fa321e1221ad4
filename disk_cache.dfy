/**
 * The file-based TTL cache (docs/backend-disk-cache.py). The disk is a
 * map from (namespace directory, file name) to the file's content, shared
 * by every cache object; the clock, the key hash and the cached function
 * are parameters.
 */
module DiskCaching {
  import opened Common

  /** A cached JSON value; `JNull` is Python's None. */
  datatype Json = JNull | JValue(text: string)

  datatype Entry = Entry(value: Json, createdAt: nat, expiresAt: Option<nat>, ttl: int)

  /** A cache file: a well-formed entry, or content that does not parse. */
  datatype File = CacheFile(entry: Entry) | Unreadable

  type Path = (string, string)

  /** Keys longer than this are replaced by their hash in the file name. */
  const MaxKeyLength: nat := 100

  /** _get_file_path's file name. */
  function FileName(key: string, hash: string -> string): (name: string)
    ensures |key| <= MaxKeyLength ==> name == key + ".json"
    ensures |key| > MaxKeyLength ==> name == hash(key) + ".json"
  {
    (if |key| > MaxKeyLength then hash(key) else key) + ".json"
  }

  /** Two keys short enough to be used as they are never share a file. */
  lemma ShortKeysDoNotCollide(k1: string, k2: string, hash: string -> string)
    requires |k1| <= MaxKeyLength && |k2| <= MaxKeyLength
    requires FileName(k1, hash) == FileName(k2, hash)
    ensures k1 == k2
  {
    assert |k1| == |k2|;
    assert forall i :: 0 <= i < |k1| ==> k1[i] == FileName(k1, hash)[i];
    assert forall i :: 0 <= i < |k2| ==> k2[i] == FileName(k2, hash)[i];
  }

  /** set's expires_at: now + ttl for a positive ttl, never otherwise. */
  function ExpiryOf(now: nat, ttl: int): (e: Option<nat>)
    ensures e.Some? <==> ttl > 0
    ensures e.Some? ==> e.value > now
  {
    if ttl > 0 then Some(now + ttl) else None
  }

  /** get's expiry test: a truthy expires_at strictly before now. */
  predicate Expired(e: Entry, now: nat)
  {
    e.expiresAt.Some? && e.expiresAt.value != 0 && e.expiresAt.value < now
  }

  /** What get returns, and the files after it (an expired file is deleted). */
  function Lookup(files: map<Path, File>, path: Path, default: Json, now: nat): (r: (Json, map<Path, File>))
    ensures path !in files ==> r == (default, files)
    ensures path in files && files[path].Unreadable? ==> r == (default, files)
    ensures path in files && files[path].CacheFile? && Expired(files[path].entry, now) ==>
      r == (default, files - {path})
    ensures path in files && files[path].CacheFile? && !Expired(files[path].entry, now) ==>
      r == (files[path].entry.value, files)
  {
    if path !in files then (default, files)
    else match files[path]
      case Unreadable => (default, files)
      case CacheFile(e) => if Expired(e, now) then (default, files - {path}) else (e.value, files)
  }

  /** The entry set writes. */
  function Stored(value: Json, ttl: int, now: nat): Entry
  {
    Entry(value, now, ExpiryOf(now, ttl), ttl)
  }

  /**
   * A value set at `now` is read back until its expiry and not after it;
   * with ttl <= 0 it is read back forever.
   */
  lemma StoreThenLookup(files: map<Path, File>, path: Path, value: Json, ttl: int, now: nat,
                        default: Json, later: nat)
    ensures Lookup(files[path := CacheFile(Stored(value, ttl, now))], path, default, later).0
            == if ttl > 0 && now + ttl < later then default else value
  {
    var e := Stored(value, ttl, now);
    assert Expired(e, later) <==> ttl > 0 && now + ttl < later;
  }

  /** Writing one path leaves what every other path reads unchanged: in particular another namespace's. */
  lemma StoreLeavesOthers(files: map<Path, File>, path: Path, f: File, other: Path, default: Json, now: nat)
    requires other != path
    ensures Lookup(files[path := f], other, default, now).0 == Lookup(files, other, default, now).0
  {
  }

  /** The files of a namespace directory. */
  function InNamespace(files: map<Path, File>, namespace: string): (r: set<Path>)
    ensures forall p :: p in r <==> p in files && p.0 == namespace
  {
    set p | p in files && p.0 == namespace
  }

  /** The files of every other namespace. */
  function Outside(files: map<Path, File>, namespace: string): (r: map<Path, File>)
    ensures forall p :: p in r <==> p in files && p.0 != namespace
    ensures forall p :: p in r ==> r[p] == files[p]
  {
    map p | p in files && p.0 != namespace :: files[p]
  }

  /** The cache directory: the one store every cache object reads and writes. */
  class Disk {
    var files: map<Path, File>

    constructor()
      ensures files == map[]
    {
      files := map[];
    }
  }

  class DiskCache {
    const namespace: string
    const hash: string -> string
    const disk: Disk

    constructor(namespace: string, hash: string -> string, disk: Disk)
      ensures this.namespace == namespace && this.hash == hash && this.disk == disk
    {
      this.namespace := namespace;
      this.hash := hash;
      this.disk := disk;
    }

    function PathOf(key: string): (p: Path)
    {
      (namespace, FileName(key, hash))
    }

    /** get: the default when missing, unreadable or expired (an expired file is deleted). */
    method Get(key: string, default: Json, now: nat) returns (r: Json)
      modifies disk
      ensures (r, disk.files) == Lookup(old(disk.files), PathOf(key), default, now)
    {
      var path := PathOf(key);
      if path !in disk.files {
        return default;
      }
      match disk.files[path] {
        case Unreadable =>
          r := default;
        case CacheFile(e) =>
          if e.expiresAt.Some? && e.expiresAt.value != 0 && e.expiresAt.value < now {
            disk.files := disk.files - {path};
            r := default;
          } else {
            r := e.value;
          }
      }
    }

    /** set: writes the entry, replacing any previous one. */
    method Set(key: string, value: Json, ttl: int, now: nat) returns (ok: bool)
      modifies disk
      ensures ok
      ensures disk.files == old(disk.files)[PathOf(key) := CacheFile(Stored(value, ttl, now))]
    {
      disk.files := disk.files[PathOf(key) := CacheFile(Stored(value, ttl, now))];
      ok := true;
    }

    /** delete: true exactly when the file existed; afterwards it does not. */
    method Delete(key: string) returns (existed: bool)
      modifies disk
      ensures existed <==> PathOf(key) in old(disk.files)
      ensures disk.files == old(disk.files) - {PathOf(key)}
    {
      existed := PathOf(key) in disk.files;
      if existed {
        disk.files := disk.files - {PathOf(key)};
      }
    }

    /** clear: unlinks every file of the namespace, counting them; other namespaces are untouched. */
    method Clear() returns (count: nat)
      modifies disk
      ensures count == |InNamespace(old(disk.files), namespace)|
      ensures disk.files == Outside(old(disk.files), namespace)
    {
      var mine := InNamespace(disk.files, namespace);
      var remaining := mine;
      count := 0;
      while remaining != {}
        invariant remaining <= mine
        invariant count + |remaining| == |mine|
        invariant forall p :: p in disk.files <==> p in old(disk.files) && (p in remaining || p.0 != namespace)
        invariant forall p :: p in disk.files ==> disk.files[p] == old(disk.files)[p]
        decreases |remaining|
      {
        var p :| p in remaining;
        disk.files := disk.files - {p};
        remaining := remaining - {p};
        count := count + 1;
      }
      assert disk.files == Outside(old(disk.files), namespace);
    }
  }

  /**
   * The disk_cache decorator around one call: a cached non-None value is
   * returned without calling the function; otherwise the function's
   * result `computed` is stored and returned.
   */
  method CachedCall(cache: DiskCache, key: string, ttl: int, computed: Json, now: nat)
    returns (r: Json, called: bool)
    modifies cache.disk
    ensures var (hit, after) := Lookup(old(cache.disk.files), cache.PathOf(key), JNull, now);
      (hit != JNull ==> r == hit && !called && cache.disk.files == after)
      && (hit == JNull ==>
            r == computed && called
            && cache.disk.files == after[cache.PathOf(key) := CacheFile(Stored(computed, ttl, now))])
    ensures !called ==> r != JNull
  {
    var cached := cache.Get(key, JNull, now);
    if cached != JNull {
      return cached, false;
    }
    var _ := cache.Set(key, computed, ttl, now);
    r, called := computed, true;
  }
}
