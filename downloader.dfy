/** speakleash/downloader/structure_downloader.py: a time-bucketed local cache of
    small JSON documents. A document fetched from `url` is stored in the replicate
    directory as `{md5(url)}{timestamp}.json`; within one time bucket later
    requests read that file, and the first request of a new bucket deletes the
    URL's older files, fetches, and writes whatever it got (None included). */
module Downloader {
  import opened Python
  import opened Json
  import opened Host

  // ---------------------------------------------------------------------------
  // Time buckets

  /** `datetime.now()`, reduced to the fields the timestamp shows. */
  datatype DateTime = DateTime(year: int, month: int, day: int, hour: int)

  predicate ValidDateTime(t: DateTime)
  {
    1 <= t.year <= 9999 && 1 <= t.month <= 12 && 1 <= t.day <= 31 && 0 <= t.hour <= 23
  }

  /** The bucket a timestamp names: month, day, two-digit year and, for an
      hourly timestamp, the hour. */
  datatype Bucket = Bucket(month: int, day: int, year2: int, hour: Option<int>)

  function BucketOf(now: DateTime, hourly: bool): Bucket
  {
    Bucket(now.month, now.day, now.year % 100, if hourly then Some(now.hour) else None)
  }

  function Digit(d: int): char
    requires 0 <= d < 10
  {
    ('0' as int + d) as char
  }

  /** `%m`, `%d`, `%y`, `%H`: two zero-padded decimal digits. */
  function TwoDigits(n: int): string
    requires 0 <= n < 100
  {
    [Digit(n / 10), Digit(n % 10)]
  }

  /** `get_timestamp(hourly)`: `now.strftime("-%m_%d_%y_%H")` when hourly,
      `now.strftime("-%m_%d_%y")` otherwise. */
  function Timestamp(now: DateTime, hourly: bool): (ts: string)
    requires ValidDateTime(now)
    ensures |ts| == if hourly then 12 else 9
    ensures ts[0] == '-' && '/' !in ts
  {
    var daily := "-" + TwoDigits(now.month) + "_" + TwoDigits(now.day) + "_" + TwoDigits(now.year % 100);
    if hourly then daily + "_" + TwoDigits(now.hour) else daily
  }

  predicate IsDigit(c: char)
  {
    '0' <= c <= '9'
  }

  function DigitsValue(a: char, b: char): int
  {
    10 * (a as int - '0' as int) + (b as int - '0' as int)
  }

  /** Reads a timestamp back into the bucket it names. */
  function ParseTimestamp(ts: string): Option<Bucket>
  {
    if |ts| != 9 && |ts| != 12 then None
    else if ts[0] != '-' || ts[3] != '_' || ts[6] != '_' || (|ts| == 12 && ts[9] != '_') then None
    else if !(IsDigit(ts[1]) && IsDigit(ts[2]) && IsDigit(ts[4]) && IsDigit(ts[5])
              && IsDigit(ts[7]) && IsDigit(ts[8])) then None
    else if |ts| == 12 && !(IsDigit(ts[10]) && IsDigit(ts[11])) then None
    else Some(Bucket(DigitsValue(ts[1], ts[2]), DigitsValue(ts[4], ts[5]), DigitsValue(ts[7], ts[8]),
                     if |ts| == 12 then Some(DigitsValue(ts[10], ts[11])) else None))
  }

  lemma TwoDigitsValue(n: int)
    requires 0 <= n < 100
    ensures IsDigit(TwoDigits(n)[0]) && IsDigit(TwoDigits(n)[1])
    ensures DigitsValue(TwoDigits(n)[0], TwoDigits(n)[1]) == n
  {
  }

  /** The timestamp is zero-padded and fixed-width, so it can be read back: it
      names exactly the bucket of the instant it was made at. */
  lemma TimestampRoundTrip(now: DateTime, hourly: bool)
    requires ValidDateTime(now)
    ensures ParseTimestamp(Timestamp(now, hourly)) == Some(BucketOf(now, hourly))
  {
    var ts := Timestamp(now, hourly);
    TwoDigitsValue(now.month);
    TwoDigitsValue(now.day);
    TwoDigitsValue(now.year % 100);
    TwoDigitsValue(now.hour);
    assert ts[1..3] == TwoDigits(now.month);
    assert ts[4..6] == TwoDigits(now.day);
    assert ts[7..9] == TwoDigits(now.year % 100);
    assert hourly ==> ts[10..12] == TwoDigits(now.hour);
  }

  /** Two instants share a timestamp exactly when they fall in the same bucket. */
  lemma SameTimestampIffSameBucket(a: DateTime, b: DateTime, hourly: bool)
    requires ValidDateTime(a) && ValidDateTime(b)
    ensures Timestamp(a, hourly) == Timestamp(b, hourly) <==> BucketOf(a, hourly) == BucketOf(b, hourly)
  {
    TimestampRoundTrip(a, hourly);
    TimestampRoundTrip(b, hourly);
  }

  /** For one instant, the daily timestamp is the first nine characters of the
      hourly one. */
  lemma DailyIsPrefixOfHourly(now: DateTime)
    requires ValidDateTime(now)
    ensures Timestamp(now, false) == Timestamp(now, true)[..9]
  {
  }

  // ---------------------------------------------------------------------------
  // Cache file names

  /** `f"{url_hash}{timestamp}.json"`. */
  function CacheName(hash: string, ts: string): string
  {
    hash + ts + ".json"
  }

  /** `os.path.join(self.replicate_dir, f"{url_hash}{timestamp}.json")`. */
  function CachePath(dir: string, hash: string, ts: string): string
  {
    Join(dir, CacheName(hash, ts))
  }

  /** A path `glob(os.path.join(replicate_dir, f"{url_hash}-*.json"))` returns. */
  predicate IsStale(dir: string, hash: string, p: string)
  {
    GlobMatch(Join(dir, hash + "-"), ".json", p)
  }

  /** The current bucket's own file matches the stale pattern of its hash. */
  lemma CachePathIsStale(dir: string, hash: string, ts: string)
    requires hash != "" && ts != "" && ts[0] == '-' && '/' !in ts
    ensures IsStale(dir, hash, CachePath(dir, hash, ts))
  {
    var prefix := Join(dir, hash + "-");
    assert CacheName(hash, ts) == (hash + "-") + (ts[1..] + ".json");
    JoinAppend(dir, hash + "-", ts[1..] + ".json");
    var p := CachePath(dir, hash, ts);
    assert p == prefix + ts[1..] + ".json";
    assert p[..|prefix|] == prefix;
    assert p[|p| - 5..] == ".json";
    assert p[|prefix|..|p| - 5] == ts[1..];
  }

  /** With hashes free of '-' and '/', the stale pattern of one hash never
      matches a cache file of another. */
  lemma OtherHashNotStale(dir: string, h1: string, h2: string, rest: string)
    requires h1 != "" && h2 != "" && h1 != h2
    requires '-' !in h1 && '-' !in h2 && '/' !in h1 && '/' !in h2
    requires rest != "" && rest[0] == '-'
    ensures !IsStale(dir, h1, Join(dir, h2 + rest))
  {
    var d := DirPrefix(dir);
    var prefix := d + (h1 + "-");
    assert Join(dir, h1 + "-") == prefix by { assert (h1 + "-")[0] == h1[0]; }
    assert Join(dir, h2 + rest) == d + (h2 + rest) by { assert (h2 + rest)[0] == h2[0]; }
    var p := d + (h2 + rest);
    var k := |h1|;
    if |p| >= |prefix| {
      if |h2| > k {
        assert p[|d| + k] == h2[k] && prefix[|d| + k] == '-';
        assert p[..|prefix|][|d| + k] != prefix[|d| + k];
      } else if |h2| < k {
        assert p[|d| + |h2|] == rest[0] && prefix[|d| + |h2|] == h1[|h2|];
        assert p[..|prefix|][|d| + |h2|] != prefix[|d| + |h2|];
      } else {
        assert p[..|prefix|][|d|..|d| + k] == h2;
        assert prefix[|d|..|d| + k] == h1;
      }
    }
  }

  // ---------------------------------------------------------------------------
  // What one call of get_structure does

  /** `data` after `get_data_from_file(p)`: the parsed file, or unchanged when
      the file cannot be opened or parsed (the exception is swallowed). */
  function FromFile(files: map<string, string>, p: string, lib: PyLib, prev: Json): (r: Json)
    ensures p in files && lib.loads(files[p]).Some? ==> r == lib.loads(files[p]).value
    ensures p !in files || lib.loads(files[p]).None? ==> r == prev
  {
    if p in files && lib.loads(files[p]).Some? then lib.loads(files[p]).value else prev
  }

  /** `data` after `get_data_from_url`: the parsed body of an ok response, or
      unchanged otherwise (the exception is swallowed). */
  function FromUrl(resp: Response, lib: PyLib, prev: Json): (r: Json)
    ensures resp.Refused? || !resp.ok ==> r == prev
    ensures resp.Reply? && resp.ok ==> r == (match lib.loads(resp.body) case Some(v) => v case None => prev)
  {
    if resp.Reply? && resp.ok && lib.loads(resp.body).Some? then lib.loads(resp.body).value else prev
  }

  /** The files left by `_remove_old_files`. */
  function Evict(files: map<string, string>, dir: string, hash: string): (r: map<string, string>)
    ensures forall p :: p in r <==> p in files && !IsStale(dir, hash, p)
    ensures forall p :: p in r ==> r[p] == files[p]
  {
    map p | p in files && !IsStale(dir, hash, p) :: files[p]
  }

  /** The files left by `write_data_to_file`; a failed `open` is swallowed. */
  function Store(files: map<string, string>, dirs: set<string>, dir: string, name: string, contents: string): (r: map<string, string>)
    ensures CanCreate(dirs, dir, name) ==> Join(dir, name) in r && r[Join(dir, name)] == contents
    ensures !CanCreate(dirs, dir, name) ==> r == files
    ensures forall q :: q != Join(dir, name) ==> (q in r <==> q in files)
    ensures forall q :: q in r && q != Join(dir, name) ==> r[q] == files[q]
  {
    if CanCreate(dirs, dir, name) then files[Join(dir, name) := contents] else files
  }

  /** The files, the value of `data` and the URLs requested after one call. */
  datatype Outcome = Outcome(files: map<string, string>, data: Json, requested: seq<string>)

  /** `get_structure(url)` in the time bucket `ts`, on an instance whose `data`
      holds `data`. */
  function GetStructureSpec(files: map<string, string>, dirs: set<string>, dir: string, data: Json,
                            url: string, ts: string, lib: PyLib, server: string -> Response): Outcome
  {
    var hash := lib.md5(url);
    var name := CacheName(hash, ts);
    var p := Join(dir, name);
    if p in files || p in dirs then
      Outcome(files, FromFile(files, p, lib, data), [])
    else
      var fetched := FromUrl(server(url), lib, data);
      Outcome(Store(Evict(files, dir, hash), dirs, dir, name, lib.dumps(fetched)), fetched, [url])
  }

  /** On a hit nothing but the cache file is consulted: no request, no deletion,
      no write. */
  lemma CacheHitIsLocal(files: map<string, string>, dirs: set<string>, dir: string, data: Json,
                        url: string, now: DateTime, hourly: bool, lib: PyLib, server: string -> Response)
    requires ValidDateTime(now)
    requires var p := CachePath(dir, lib.md5(url), Timestamp(now, hourly)); p in files || p in dirs
    ensures var p := CachePath(dir, lib.md5(url), Timestamp(now, hourly));
            var o := GetStructureSpec(files, dirs, dir, data, url, Timestamp(now, hourly), lib, server);
            && o.requested == [] && o.files == files
            && o.data == FromFile(files, p, lib, data)
  {
  }

  /** A cache file that cannot be opened or parsed gives back the instance's
      previous `data` (None for a fresh instance) without going to the network. */
  lemma UnreadableCacheHasNoFallback(files: map<string, string>, dirs: set<string>, dir: string, data: Json,
                                     url: string, now: DateTime, hourly: bool, lib: PyLib, server: string -> Response)
    requires ValidDateTime(now)
    requires var p := CachePath(dir, lib.md5(url), Timestamp(now, hourly));
             (p in files || p in dirs) && (p in files ==> lib.loads(files[p]).None?)
    ensures var o := GetStructureSpec(files, dirs, dir, data, url, Timestamp(now, hourly), lib, server);
            o.requested == [] && o.data == data && o.files == files
  {
  }

  /** On a miss: exactly one request, its result (or the previous data when it
      failed) is returned, every other `{hash}-*.json` file is deleted and every
      file not matching that pattern is left as it was. */
  lemma MissEvictsAndFetches(files: map<string, string>, dirs: set<string>, dir: string, data: Json,
                             url: string, now: DateTime, hourly: bool, lib: PyLib, server: string -> Response)
    requires ValidDateTime(now)
    requires var p := CachePath(dir, lib.md5(url), Timestamp(now, hourly)); p !in files && p !in dirs
    ensures var h := lib.md5(url);
            var p := CachePath(dir, h, Timestamp(now, hourly));
            var o := GetStructureSpec(files, dirs, dir, data, url, Timestamp(now, hourly), lib, server);
            && o.requested == [url]
            && o.data == FromUrl(server(url), lib, data)
            && (forall q :: q != p && IsStale(dir, h, q) ==> q !in o.files)
            && (forall q :: q in files && !IsStale(dir, h, q) ==> q in o.files && o.files[q] == files[q])
            && (p in o.files <==> CanCreate(dirs, dir, CacheName(h, Timestamp(now, hourly))))
            && (p in o.files ==> o.files[p] == lib.dumps(o.data))
  {
  }

  /** Cache files of a URL with a different hash survive a miss. */
  lemma OtherUrlCacheUntouched(files: map<string, string>, dirs: set<string>, dir: string, data: Json,
                               url: string, other: string, now: DateTime, hourly: bool,
                               otherNow: DateTime, otherHourly: bool, lib: PyLib, server: string -> Response)
    requires ValidDateTime(now) && ValidDateTime(otherNow)
    requires HexDigest(lib.md5(url)) && HexDigest(lib.md5(other)) && lib.md5(url) != lib.md5(other)
    requires CachePath(dir, lib.md5(other), Timestamp(otherNow, otherHourly)) in files
    ensures var q := CachePath(dir, lib.md5(other), Timestamp(otherNow, otherHourly));
            var o := GetStructureSpec(files, dirs, dir, data, url, Timestamp(now, hourly), lib, server);
            q in o.files && o.files[q] == files[q]
  {
    var h1, h2 := lib.md5(url), lib.md5(other);
    var ts2 := Timestamp(otherNow, otherHourly);
    HexHasNoSeparators(h1);
    HexHasNoSeparators(h2);
    assert CacheName(h2, ts2) == h2 + (ts2 + ".json");
    OtherHashNotStale(dir, h1, h2, ts2 + ".json");
  }

  lemma HexHasNoSeparators(h: string)
    requires HexDigest(h)
    ensures h != "" && h[0] != '/' && '-' !in h && '/' !in h
  {
    forall i | 0 <= i < |h|
      ensures h[i] != '-' && h[i] != '/'
    {
      assert h[i] in "0123456789abcdef";
    }
  }

  /** After a miss whose write succeeded, the current bucket's file is the only
      `{hash}-*.json` file left. */
  lemma OnlyCurrentBucketRemains(files: map<string, string>, dirs: set<string>, dir: string, data: Json,
                                 url: string, now: DateTime, hourly: bool, lib: PyLib, server: string -> Response)
    requires ValidDateTime(now) && lib.md5(url) != ""
    requires var p := CachePath(dir, lib.md5(url), Timestamp(now, hourly)); p !in files && p !in dirs
    requires CanCreate(dirs, dir, CacheName(lib.md5(url), Timestamp(now, hourly)))
    ensures var h := lib.md5(url);
            var p := CachePath(dir, h, Timestamp(now, hourly));
            var o := GetStructureSpec(files, dirs, dir, data, url, Timestamp(now, hourly), lib, server);
            forall q :: q in o.files && IsStale(dir, h, q) <==> q == p
  {
    CachePathIsStale(dir, lib.md5(url), Timestamp(now, hourly));
  }

  /** Read after write: after a miss whose write succeeded, a second call in the
      same bucket, on any instance, returns an equal value from the file and
      makes no request, provided the JSON encoding of that value decodes back to
      it. */
  lemma ReplayWithinBucket(files: map<string, string>, dirs: set<string>, dir: string, data: Json, data2: Json,
                           url: string, now: DateTime, hourly: bool, lib: PyLib, server: string -> Response)
    requires ValidDateTime(now)
    requires var p := CachePath(dir, lib.md5(url), Timestamp(now, hourly)); p !in files && p !in dirs
    requires CanCreate(dirs, dir, CacheName(lib.md5(url), Timestamp(now, hourly)))
    requires RoundTrips(lib, FromUrl(server(url), lib, data))
    ensures var ts := Timestamp(now, hourly);
            var first := GetStructureSpec(files, dirs, dir, data, url, ts, lib, server);
            var second := GetStructureSpec(first.files, dirs, dir, data2, url, ts, lib, server);
            && second.requested == []
            && second.data == first.data
            && second.files == first.files
  {
  }

  /** The first call of a new bucket fetches again and deletes the file of any
      earlier bucket of the same URL. */
  lemma NewBucketEvictsOld(files: map<string, string>, dirs: set<string>, dir: string, data: Json,
                           url: string, before: DateTime, now: DateTime, hourly: bool,
                           lib: PyLib, server: string -> Response)
    requires ValidDateTime(before) && ValidDateTime(now) && HexDigest(lib.md5(url))
    requires BucketOf(before, hourly) != BucketOf(now, hourly)
    requires var p := CachePath(dir, lib.md5(url), Timestamp(now, hourly)); p !in files && p !in dirs
    ensures var h := lib.md5(url);
            var o := GetStructureSpec(files, dirs, dir, data, url, Timestamp(now, hourly), lib, server);
            o.requested == [url] && CachePath(dir, h, Timestamp(before, hourly)) !in o.files
  {
    var h := lib.md5(url);
    var ts1, ts2 := Timestamp(before, hourly), Timestamp(now, hourly);
    HexHasNoSeparators(h);
    SameTimestampIffSameBucket(before, now, hourly);
    assert ts1 != ts2;
    assert CacheName(h, ts1)[|h|..|h| + |ts1|] == ts1;
    assert CacheName(h, ts2)[|h|..|h| + |ts2|] == ts2;
    assert CacheName(h, ts1)[0] == h[0] && CacheName(h, ts2)[0] == h[0];
    JoinInjective(dir, CacheName(h, ts1), CacheName(h, ts2));
    CachePathIsStale(dir, h, ts1);
  }

  // ---------------------------------------------------------------------------
  // The class

  class StructureDownloader {
    const replicateDir: string
    /** The last document obtained; None (`Null`) until one is. */
    var data: Json

    constructor (replicateDir: string)
      ensures this.replicateDir == replicateDir && data == Null
    {
      this.replicateDir := replicateDir;
      data := Null;
    }

    /** `_remove_old_files(url)`: deletes every `{md5(url)}-*.json` file of the
        replicate directory, ignoring paths that cannot be removed. */
    method RemoveOldFiles(url: string, fs: FileSystem, lib: PyLib)
      modifies fs
      ensures fs.files == Evict(old(fs.files), replicateDir, lib.md5(url))
      ensures fs.dirs == old(fs.dirs)
    {
      var urlHash := lib.md5(url);
      var matches := fs.Glob(Join(replicateDir, urlHash + "-"), ".json");
      var i := 0;
      while i < |matches|
        invariant 0 <= i <= |matches|
        invariant fs.dirs == old(fs.dirs)
        invariant fs.files == old(fs.files) - (set j | 0 <= j < i :: matches[j])
      {
        var removed := fs.Remove(matches[i]);
        assert (set j | 0 <= j < i + 1 :: matches[j]) == (set j | 0 <= j < i :: matches[j]) + {matches[i]};
        i := i + 1;
      }
      assert forall p :: p in (set j | 0 <= j < |matches| :: matches[j]) <==> p in matches by {
        forall p | p in matches ensures p in (set j | 0 <= j < |matches| :: matches[j]) {
          var j :| 0 <= j < |matches| && matches[j] == p;
        }
      }
    }

    /** `get_data_from_file(file)`. */
    method GetDataFromFile(file: string, fs: FileSystem, lib: PyLib)
      modifies this
      ensures data == FromFile(fs.files, file, lib, old(data))
    {
      var contents := fs.Read(file);
      if contents.Ok? {
        var parsed := lib.loads(contents.value);
        if parsed.Some? {
          data := parsed.value;
        }
      }
    }

    /** `get_data_from_url(url)`. */
    method GetDataFromUrl(url: string, net: Network, lib: PyLib)
      modifies this, net
      ensures data == FromUrl(net.server(url), lib, old(data))
      ensures net.log == old(net.log) + [url]
    {
      var response := net.Get(url);
      if response.Reply? && response.ok {
        var parsed := lib.loads(response.body);
        if parsed.Some? {
          data := parsed.value;
        }
      }
    }

    /** `write_data_to_file(data, os.path.join(dir, name))`. */
    static method WriteDataToFile(data: Json, dir: string, name: string, fs: FileSystem, lib: PyLib)
      modifies fs
      ensures fs.files == Store(old(fs.files), old(fs.dirs), dir, name, lib.dumps(data))
      ensures fs.dirs == old(fs.dirs)
    {
      var created := fs.Create(dir, name);
      if created {
        fs.Append(Join(dir, name), lib.dumps(data));
        assert "" + lib.dumps(data) == lib.dumps(data);
      }
    }

    /** `get_structure(url, hourly)` at the instant `now`. */
    method GetStructure(url: string, hourly: bool, now: DateTime, fs: FileSystem, net: Network, lib: PyLib)
      returns (r: Json)
      requires ValidDateTime(now)
      modifies this, fs, net
      ensures var o := GetStructureSpec(old(fs.files), old(fs.dirs), replicateDir, old(data),
                                        url, Timestamp(now, hourly), lib, net.server);
              fs.files == o.files && data == o.data && net.log == old(net.log) + o.requested
      ensures fs.dirs == old(fs.dirs)
      ensures r == data
    {
      var timestamp := Timestamp(now, hourly);
      var urlHash := lib.md5(url);
      var name := CacheName(urlHash, timestamp);
      var file := Join(replicateDir, name);
      if fs.Exists(file) {
        GetDataFromFile(file, fs, lib);
      } else {
        RemoveOldFiles(url, fs, lib);
        GetDataFromUrl(url, net, lib);
        WriteDataToFile(data, replicateDir, name, fs, lib);
      }
      r := data;
    }
  }
}
