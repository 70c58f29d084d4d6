/** speakleash/dataset/dataset.py: one named dataset. Its manifest is fetched once
    through the structure cache when the handle is built; accessors read the
    manifest with a default for every missing key; `check_file` makes sure the
    payload `{name}.jsonl.zst` is present with the size the manifest records,
    downloading it when it is not. */
module Dataset {
  import opened Python
  import opened Json
  import opened Host
  import opened Downloader

  /** `SpeakleashDataset.BLOCK_SIZE`: the chunk size of the streamed download. */
  const BlockSize: nat := 1024

  // ---------------------------------------------------------------------------
  // Manifest

  /** `_download_manifest`: the fetched document when it is truthy, else `{}`. */
  function ManifestOf(fetched: Json): (m: Json)
    ensures Truthy(fetched) ==> m == fetched
    ensures !Truthy(fetched) ==> m == EmptyObj
  {
    if Truthy(fetched) then fetched else EmptyObj
  }

  /** The manifest is a dict whose `stats`, when present, is a dict: exactly
      when `manifest.get("stats", {}).get(key, ...)` does not raise. */
  predicate StatsReadable(manifest: Json)
  {
    manifest.Obj? && (Lookup(manifest.fields, "stats").None? || Lookup(manifest.fields, "stats").value.Obj?)
  }

  /** `manifest["stats"][key]`, or `default` when either key is missing. */
  function StatsValue(manifest: Json, key: string, default: Json): Json
    requires StatsReadable(manifest)
  {
    match Lookup(manifest.fields, "stats")
    case None => default
    case Some(stats) => ValueOr(stats.fields, key, default)
  }

  /** `manifest.get("stats", {}).get(key, default)`. */
  function StatsField(manifest: Json, key: string, default: Json): (r: Result<Json>)
    ensures r.Raise? ==> r.exc == AttributeError
    ensures r.Ok? <==> StatsReadable(manifest)
    ensures r.Ok? ==> r.value == StatsValue(manifest, key, default)
  {
    match Get(manifest, "stats", EmptyObj)
    case Raise(e) => Raise(e)
    case Ok(stats) => Get(stats, key, default)
  }

  /** `characters`: the character count from the manifest's stats, 0 when not recorded. */
  function Characters(manifest: Json): (r: Result<Json>)
    ensures r.Ok? <==> StatsReadable(manifest)
    ensures r.Raise? ==> r.exc == AttributeError
    ensures r.Ok? ==> r.value == StatsValue(manifest, "characters", Num(0.0))
  {
    StatsField(manifest, "characters", Num(0.0))
  }

  /** `documents`: the document count from the manifest's stats, 0 when not recorded. */
  function Documents(manifest: Json): (r: Result<Json>)
    ensures r.Ok? <==> StatsReadable(manifest)
    ensures r.Raise? ==> r.exc == AttributeError
    ensures r.Ok? ==> r.value == StatsValue(manifest, "documents", Num(0.0))
  {
    StatsField(manifest, "documents", Num(0.0))
  }

  /** `stopwords`: the stopword count from the manifest's stats, 0 when not recorded. */
  function Stopwords(manifest: Json): (r: Result<Json>)
    ensures r.Ok? <==> StatsReadable(manifest)
    ensures r.Raise? ==> r.exc == AttributeError
    ensures r.Ok? ==> r.value == StatsValue(manifest, "stopwords", Num(0.0))
  {
    StatsField(manifest, "stopwords", Num(0.0))
  }

  /** `quality`: the quality dict from the manifest's stats, {} when not recorded. */
  function Quality(manifest: Json): (r: Result<Json>)
    ensures r.Ok? <==> StatsReadable(manifest)
    ensures r.Raise? ==> r.exc == AttributeError
    ensures r.Ok? ==> r.value == StatsValue(manifest, "quality", EmptyObj)
  {
    StatsField(manifest, "quality", EmptyObj)
  }

  /** `nouns`: the noun list from the manifest's stats, [] when not recorded. */
  function Nouns(manifest: Json): (r: Result<Json>)
    ensures r.Ok? <==> StatsReadable(manifest)
    ensures r.Raise? ==> r.exc == AttributeError
    ensures r.Ok? ==> r.value == StatsValue(manifest, "nouns", Arr([]))
  {
    StatsField(manifest, "nouns", Arr([]))
  }

  /** `verbs`: the verb list from the manifest's stats, [] when not recorded. */
  function Verbs(manifest: Json): (r: Result<Json>)
    ensures r.Ok? <==> StatsReadable(manifest)
    ensures r.Raise? ==> r.exc == AttributeError
    ensures r.Ok? ==> r.value == StatsValue(manifest, "verbs", Arr([]))
  {
    StatsField(manifest, "verbs", Arr([]))
  }

  /** `symbols`: the symbol list from the manifest's stats, [] when not recorded. */
  function Symbols(manifest: Json): (r: Result<Json>)
    ensures r.Ok? <==> StatsReadable(manifest)
    ensures r.Raise? ==> r.exc == AttributeError
    ensures r.Ok? ==> r.value == StatsValue(manifest, "symbols", Arr([]))
  {
    StatsField(manifest, "symbols", Arr([]))
  }

  /** `punctuations`: the punctuation list from the manifest's stats, [] when not recorded. */
  function Punctuations(manifest: Json): (r: Result<Json>)
    ensures r.Ok? <==> StatsReadable(manifest)
    ensures r.Raise? ==> r.exc == AttributeError
    ensures r.Ok? ==> r.value == StatsValue(manifest, "punctuations", Arr([]))
  {
    StatsField(manifest, "punctuations", Arr([]))
  }

  /** `sentences`: the sentence list from the manifest's stats, [] when not recorded. */
  function Sentences(manifest: Json): (r: Result<Json>)
    ensures r.Ok? <==> StatsReadable(manifest)
    ensures r.Raise? ==> r.exc == AttributeError
    ensures r.Ok? ==> r.value == StatsValue(manifest, "sentences", Arr([]))
  {
    StatsField(manifest, "sentences", Arr([]))
  }

  /** `words`: the word list from the manifest's stats, [] when not recorded. */
  function Words(manifest: Json): (r: Result<Json>)
    ensures r.Ok? <==> StatsReadable(manifest)
    ensures r.Raise? ==> r.exc == AttributeError
    ensures r.Ok? ==> r.value == StatsValue(manifest, "words", Arr([]))
  {
    StatsField(manifest, "words", Arr([]))
  }

  /** `categories`: the category confidences, {} when not recorded. */
  function Categories(manifest: Json): (r: Result<Json>)
    ensures r.Ok? <==> manifest.Obj?
    ensures r.Raise? ==> r.exc == AttributeError
    ensures r.Ok? ==> r.value == ValueOr(manifest.fields, "category=95%", EmptyObj)
  {
    Get(manifest, "category=95%", EmptyObj)
  }

  /** `description`: the description, "" when not recorded. */
  function Description(manifest: Json): (r: Result<Json>)
    ensures r.Ok? <==> manifest.Obj?
    ensures r.Raise? ==> r.exc == AttributeError
    ensures r.Ok? ==> r.value == ValueOr(manifest.fields, "description", Str(""))
  {
    Get(manifest, "description", Str(""))
  }

  /** `license`: the license, "" when not recorded. */
  function License(manifest: Json): (r: Result<Json>)
    ensures r.Ok? <==> manifest.Obj?
    ensures r.Raise? ==> r.exc == AttributeError
    ensures r.Ok? ==> r.value == ValueOr(manifest.fields, "license", Str(""))
  {
    Get(manifest, "license", Str(""))
  }

  /** `category`: the primary category, "" when not recorded. */
  function Category(manifest: Json): (r: Result<Json>)
    ensures r.Ok? <==> manifest.Obj?
    ensures r.Raise? ==> r.exc == AttributeError
    ensures r.Ok? ==> r.value == ValueOr(manifest.fields, "category", Str(""))
  {
    Get(manifest, "category", Str(""))
  }

  /** `sources`: the sources, {} when not recorded. */
  function Sources(manifest: Json): (r: Result<Json>)
    ensures r.Ok? <==> manifest.Obj?
    ensures r.Raise? ==> r.exc == AttributeError
    ensures r.Ok? ==> r.value == ValueOr(manifest.fields, "sources", EmptyObj)
  {
    Get(manifest, "sources", EmptyObj)
  }

  /** `jsonl_zst_file_size`: the payload size in bytes, 0 when not recorded. */
  function JsonlZstFileSize(manifest: Json): (r: Result<Json>)
    ensures r.Ok? <==> manifest.Obj?
    ensures r.Raise? ==> r.exc == AttributeError
    ensures r.Ok? ==> r.value == ValueOr(manifest.fields, "file_size", Num(0.0))
  {
    Get(manifest, "file_size", Num(0.0))
  }

  /** A manifest that could not be fetched (`{}`) gives every documented default. */
  lemma EmptyManifestDefaults()
    ensures Characters(EmptyObj) == Documents(EmptyObj) == Stopwords(EmptyObj) == Ok(Num(0.0))
    ensures JsonlZstFileSize(EmptyObj) == Ok(Num(0.0))
    ensures Nouns(EmptyObj) == Verbs(EmptyObj) == Symbols(EmptyObj) == Ok(Arr([]))
    ensures Punctuations(EmptyObj) == Sentences(EmptyObj) == Words(EmptyObj) == Ok(Arr([]))
    ensures Description(EmptyObj) == License(EmptyObj) == Category(EmptyObj) == Ok(Str(""))
    ensures Quality(EmptyObj) == Categories(EmptyObj) == Sources(EmptyObj) == Ok(EmptyObj)
    ensures QualityMetrics(EmptyObj) == Ok("")
    ensures Categorization(EmptyObj) == Ok(false)
  {
  }

  // ---------------------------------------------------------------------------
  // quality_metrics

  const QualityLevels: seq<string> := ["HIGH", "MEDIUM", "LOW"]

  /** `quality.get(key, 0)` for a quality dict. */
  function Level(quality: seq<Field>, key: string): Json
  {
    ValueOr(quality, key, Num(0.0))
  }

  /** The loop of `quality_metrics` over `keys`: the first key whose value is
      not 0, or "" when there is none. */
  function FirstNonZero(quality: Json, keys: seq<string>): (r: Result<string>)
    ensures !quality.Obj? && keys != [] ==> r == Raise(AttributeError)
    ensures quality.Obj? ==> r.Ok?
    ensures r.Ok? && r.value != "" ==>
              exists i :: 0 <= i < |keys| && keys[i] == r.value && NonZero(Level(quality.fields, keys[i]))
                          && forall j :: 0 <= j < i ==> !NonZero(Level(quality.fields, keys[j]))
    ensures quality.Obj? && r.value == "" && "" !in keys ==>
              forall i :: 0 <= i < |keys| ==> !NonZero(Level(quality.fields, keys[i]))
  {
    if keys == [] then Ok("")
    else match Get(quality, keys[0], Num(0.0))
      case Raise(e) => Raise(e)
      case Ok(v) =>
        if NonZero(v) then Ok(keys[0])
        else
          var r := FirstNonZero(quality, keys[1..]);
          assert r.Ok? && r.value != "" ==>
            exists i :: 0 <= i < |keys| && keys[i] == r.value && NonZero(Level(quality.fields, keys[i]))
                        && forall j :: 0 <= j < i ==> !NonZero(Level(quality.fields, keys[j])) by {
            if r.Ok? && r.value != "" {
              var i :| 0 <= i < |keys| - 1 && keys[1..][i] == r.value && NonZero(Level(quality.fields, keys[1..][i]))
                        && forall j :: 0 <= j < i ==> !NonZero(Level(quality.fields, keys[1..][j]));
              assert keys[i + 1] == r.value;
              assert forall j :: 0 <= j < i + 1 ==> !NonZero(Level(quality.fields, keys[j])) by {
                forall j | 0 <= j < i + 1 ensures !NonZero(Level(quality.fields, keys[j])) {
                  if j > 0 { assert keys[j] == keys[1..][j - 1]; }
                }
              }
            }
          }
          assert quality.Obj? && r.value == "" && "" !in keys ==>
            forall i :: 0 <= i < |keys| ==> !NonZero(Level(quality.fields, keys[i])) by {
            if quality.Obj? && r.value == "" && "" !in keys {
              assert "" !in keys[1..];
              forall i | 0 <= i < |keys| ensures !NonZero(Level(quality.fields, keys[i])) {
                if i > 0 { assert keys[i] == keys[1..][i - 1]; }
              }
            }
          }
          r
  }

  /** `quality_metrics`. */
  function QualityMetrics(manifest: Json): (r: Result<string>)
    ensures r.Ok? <==> StatsReadable(manifest) && StatsValue(manifest, "quality", EmptyObj).Obj?
    ensures r.Raise? ==> r.exc == AttributeError
    ensures r.Ok? ==> r.value == "" || r.value in QualityLevels
  {
    match Quality(manifest)
    case Raise(e) => Raise(e)
    case Ok(q) => FirstNonZero(q, QualityLevels)
  }

  /** The priority rule: HIGH if its value is non-zero, else MEDIUM if its value
      is, else LOW if its value is, else "". A missing level counts as 0. */
  lemma QualityPriority(manifest: Json, quality: seq<Field>)
    requires Quality(manifest) == Ok(Obj(quality))
    ensures QualityMetrics(manifest) ==
              Ok(if NonZero(Level(quality, "HIGH")) then "HIGH"
                 else if NonZero(Level(quality, "MEDIUM")) then "MEDIUM"
                 else if NonZero(Level(quality, "LOW")) then "LOW"
                 else "")
  {
    var r := FirstNonZero(Obj(quality), QualityLevels);
    assert r.Ok?;
    if r.value != "" {
      var i :| 0 <= i < 3 && QualityLevels[i] == r.value && NonZero(Level(quality, QualityLevels[i]))
                && forall j :: 0 <= j < i ==> !NonZero(Level(quality, QualityLevels[j]));
      if i == 1 { assert !NonZero(Level(quality, QualityLevels[0])); }
      if i == 2 {
        assert !NonZero(Level(quality, QualityLevels[0]));
        assert !NonZero(Level(quality, QualityLevels[1]));
      }
    } else {
      assert "" !in QualityLevels;
      assert !NonZero(Level(quality, QualityLevels[0]));
      assert !NonZero(Level(quality, QualityLevels[1]));
      assert !NonZero(Level(quality, QualityLevels[2]));
    }
  }

  // ---------------------------------------------------------------------------
  // categorization

  /** `v > 0` evaluates to True. */
  predicate Positive(v: Json)
  {
    Numeric(v) && NumericValue(v) > 0.0
  }

  /** The loop `for value in categories.values(): if value > 0: return True`,
      which stops at the first positive value and raises at the first value
      that cannot be compared with 0. */
  function AnyPositive(fields: seq<Field>): (r: Result<bool>)
    ensures r == Ok(true) <==>
              exists i :: 0 <= i < |fields| && Positive(fields[i].value)
                          && forall j :: 0 <= j < i ==> Numeric(fields[j].value)
    ensures r == Ok(false) <==>
              forall i :: 0 <= i < |fields| ==> Numeric(fields[i].value) && !Positive(fields[i].value)
    ensures r.Raise? ==> r.exc == TypeError
  {
    if fields == [] then Ok(false)
    else match GreaterThanZero(fields[0].value)
      case Raise(e) => Raise(e)
      case Ok(positive) =>
        if positive then Ok(true)
        else
          var r := AnyPositive(fields[1..]);
          assert forall i :: 1 <= i < |fields| ==> fields[i] == fields[1..][i - 1];
          assert r == Ok(true) ==>
            exists i :: 0 <= i < |fields| && Positive(fields[i].value)
                        && forall j :: 0 <= j < i ==> Numeric(fields[j].value) by {
            if r == Ok(true) {
              var i :| 0 <= i < |fields| - 1 && Positive(fields[1..][i].value)
                        && forall j :: 0 <= j < i ==> Numeric(fields[1..][j].value);
              assert Positive(fields[i + 1].value);
            }
          }
          assert (exists i :: 0 <= i < |fields| && Positive(fields[i].value)
                             && forall j :: 0 <= j < i ==> Numeric(fields[j].value)) ==> r == Ok(true) by {
            if exists i :: 0 <= i < |fields| && Positive(fields[i].value)
                           && forall j :: 0 <= j < i ==> Numeric(fields[j].value) {
              var i :| 0 <= i < |fields| && Positive(fields[i].value)
                        && forall j :: 0 <= j < i ==> Numeric(fields[j].value);
              assert i > 0;
              assert Positive(fields[1..][i - 1].value);
              assert forall j :: 0 <= j < i - 1 ==> Numeric(fields[1..][j].value);
            }
          }
          r
  }

  /** `categorization`. */
  function Categorization(manifest: Json): (r: Result<bool>)
    ensures !manifest.Obj? ==> r == Raise(AttributeError)
    ensures manifest.Obj? && Lookup(manifest.fields, "category=95%").None? ==> r == Ok(false)
    ensures (manifest.Obj? && Lookup(manifest.fields, "category=95%").Some?
             && !Lookup(manifest.fields, "category=95%").value.Obj?) ==> r == Raise(AttributeError)
    ensures r.Raise? ==> r.exc == AttributeError || r.exc == TypeError
  {
    match Categories(manifest)
    case Raise(e) => Raise(e)
    case Ok(categories) =>
      if categories.Obj? then AnyPositive(categories.fields) else Raise(AttributeError)
  }

  /** With numeric confidences, a dataset is categorized exactly when some
      category has a confidence above 0; a manifest without the map is not. */
  lemma CategorizationIff(manifest: Json)
    requires manifest.Obj?
    requires match Lookup(manifest.fields, "category=95%")
             case None => true
             case Some(c) => c.Obj? && forall i :: 0 <= i < |c.fields| ==> Numeric(c.fields[i].value)
    ensures match Lookup(manifest.fields, "category=95%")
            case None => Categorization(manifest) == Ok(false)
            case Some(c) => Categorization(manifest) ==
                              Ok(exists i :: 0 <= i < |c.fields| && Positive(c.fields[i].value))
  {
    match Lookup(manifest.fields, "category=95%")
    case None =>
    case Some(c) =>
      var r := AnyPositive(c.fields);
      if exists i :: 0 <= i < |c.fields| && Positive(c.fields[i].value) {
        assert r == Ok(true);
      } else {
        assert r == Ok(false);
      }
  }

  // ---------------------------------------------------------------------------
  // Download

  /** `_download_complete(size, progress)`: a declared size of 0 means unknown. */
  function DownloadComplete(size: int, progress: int): (r: bool)
    ensures size == 0 ==> r
    ensures size != 0 ==> (r <==> progress == size)
  {
    !(size != 0 && progress != size)
  }

  /** `int(response.headers.get('content-length', 0))`. */
  function DeclaredLength(resp: Response): nat
    requires resp.Reply?
  {
    match resp.contentLength
    case None => 0
    case Some(n) => n
  }

  /** `response.iter_content(n)`: the body in consecutive chunks of at most `n`. */
  function Blocks(body: string, n: nat): (r: seq<string>)
    requires n > 0
    ensures forall i :: 0 <= i < |r| ==> 0 < |r[i]| <= n
    decreases |body|
  {
    if body == [] then []
    else if |body| <= n then [body]
    else [body[..n]] + Blocks(body[n..], n)
  }

  /** The chunks written one after the other. */
  function Concat(chunks: seq<string>): string
  {
    if chunks == [] then "" else Concat(chunks[..|chunks| - 1]) + chunks[|chunks| - 1]
  }

  /** The sum of the chunk lengths, as `progress_bar.update(len(data))` counts it. */
  function TotalLength(chunks: seq<string>): nat
  {
    if chunks == [] then 0 else TotalLength(chunks[..|chunks| - 1]) + |chunks[|chunks| - 1]|
  }

  lemma {:induction false} ConcatCons(x: string, rest: seq<string>)
    ensures Concat([x] + rest) == x + Concat(rest)
    decreases |rest|
  {
    if rest != [] {
      var all := [x] + rest;
      assert all[..|all| - 1] == [x] + rest[..|rest| - 1];
      ConcatCons(x, rest[..|rest| - 1]);
    }
  }

  lemma {:induction false} TotalLengthIsLength(chunks: seq<string>)
    ensures TotalLength(chunks) == |Concat(chunks)|
  {
    if chunks != [] {
      TotalLengthIsLength(chunks[..|chunks| - 1]);
    }
  }

  /** Writing the chunks of a body in order rebuilds the body. */
  lemma {:induction false} BlocksRebuildBody(body: string, n: nat)
    requires n > 0
    ensures Concat(Blocks(body, n)) == body
    ensures TotalLength(Blocks(body, n)) == |body|
    decreases |body|
  {
    if body == [] {
    } else if |body| <= n {
      assert Concat([body]) == Concat([]) + body;
    } else {
      BlocksRebuildBody(body[n..], n);
      ConcatCons(body[..n], Blocks(body[n..], n));
      assert body[..n] + body[n..] == body;
    }
    TotalLengthIsLength(Blocks(body, n));
  }

  /** The payload request succeeds when the body is as long as declared, or
      when no length was declared. */
  lemma DownloadCompleteIff(declared: nat, body: string)
    ensures DownloadComplete(declared, TotalLength(Blocks(body, BlockSize))) <==> declared == 0 || |body| == declared
  {
    BlocksRebuildBody(body, BlockSize);
  }

  // ---------------------------------------------------------------------------
  // check_file, as a function of the state before the call

  /** The files, directories and requests after `check_file`, and its result. */
  datatype CheckOutcome = CheckOutcome(result: Result<(bool, string)>, files: map<string, string>,
                                       dirs: set<string>, requested: seq<string>)

  /** `f"{name}.jsonl.zst"`. */
  function PayloadName(name: string): string
  {
    name + ".jsonl.zst"
  }

  /** The local payload exists as a file whose size equals the manifest's
      `file_size`. */
  predicate SizeMatches(files: map<string, string>, path: string, manifest: Json)
  {
    path in files && JsonlZstFileSize(manifest).Ok? && EqualsInt(|files[path]|, JsonlZstFileSize(manifest).value)
  }

  /** `replicate_dir` exists, or `os.makedirs` can create it. */
  predicate DirReady(files: map<string, string>, dirs: set<string>, dir: string)
  {
    (dir != "" && (dir in files || dir in dirs)) || !MakeDirsFails(files, dir)
  }

  function CheckFileSpec(files: map<string, string>, dirs: set<string>, manifest: Json, name: string,
                         url: string, dir: string, server: string -> Response): CheckOutcome
  {
    if !DirReady(files, dirs, dir) then CheckOutcome(Raise(OSError), files, dirs, [])
    else
    var dirs' := if dir != "" && (dir in files || dir in dirs) then dirs else dirs + Ancestors(dir) + {dir};
    var path := Join(dir, PayloadName(name));
    var expected := JsonlZstFileSize(manifest);
    if (path in files || path in dirs') && expected.Raise? then
      CheckOutcome(Raise(expected.exc), files, dirs', [])
    else if SizeMatches(files, path, manifest) then
      CheckOutcome(Ok((true, path)), files, dirs', [])
    else
      var payloadUrl := url + PayloadName(name);
      var resp := server(payloadUrl);
      if resp.Refused? then CheckOutcome(Raise(RequestException), files, dirs', [payloadUrl])
      else if !CanCreate(dirs', dir, PayloadName(name)) then CheckOutcome(Raise(OSError), files, dirs', [payloadUrl])
      else
        var complete := DownloadComplete(DeclaredLength(resp), |resp.body|);
        CheckOutcome(Ok(if complete then (true, path) else (false, "")), files[path := resp.body], dirs', [payloadUrl])
  }

  /** An empty `replicate_dir` (which never exists), or a missing one below a
      regular file, which `os.makedirs` cannot create, makes `check_file` raise before any
      request, with nothing changed. */
  lemma CheckFileDirFails(files: map<string, string>, dirs: set<string>, manifest: Json, name: string,
                          url: string, dir: string, server: string -> Response)
    requires dir == "" || (dir !in files && dir !in dirs
                           && exists i :: 0 < i < |dir| && dir[i] == '/' && dir[..i] in files)
    ensures CheckFileSpec(files, dirs, manifest, name, url, dir, server) == CheckOutcome(Raise(OSError), files, dirs, [])
  {
  }

  /** The payload of dataset "a/b" in directory "d" lives in "d/a", which is
      not a directory when only "d" is. */
  lemma NestedPayloadPath()
    ensures Join("d", PayloadName("a/b")) == "d/a/b.jsonl.zst"
    ensures !CanCreate({"d"}, "d", PayloadName("a/b"))
  {
    var p := Join("d", PayloadName("a/b"));
    assert p == "d/a/b.jsonl.zst";
    assert p[1] == '/' && p[3] == '/';
    assert forall j :: 4 <= j < |p| ==> p[j] != '/';
    var k := LastSlash(p);
    assert k == Some(3);
    assert p[..3] == "d/a" && p[..4] == "d/a/";
  }

  /** A dataset name with a '/' names a file in a subdirectory of
      `replicate_dir`, which `check_file` does not create: the download is
      requested, and opening the payload then raises. */
  lemma NestedNameNeedsSubdirectory(url: string, server: string -> Response)
    requires server(url + PayloadName("a/b")).Reply?
    ensures CheckFileSpec(map[], {"d"}, EmptyObj, "a/b", url, "d", server)
            == CheckOutcome(Raise(OSError), map[], {"d"}, [url + PayloadName("a/b")])
  {
    NestedPayloadPath();
    assert DirReady(map[], {"d"}, "d");
    assert Join("d", PayloadName("a/b")) !in {"d"};
  }

  /** A payload already present with the recorded size is used as it is, with
      no request. */
  lemma CheckFileFastPath(files: map<string, string>, dirs: set<string>, manifest: Json, name: string,
                          url: string, dir: string, server: string -> Response)
    requires DirReady(files, dirs, dir)
    requires SizeMatches(files, Join(dir, PayloadName(name)), manifest)
    ensures var o := CheckFileSpec(files, dirs, manifest, name, url, dir, server);
            o.result == Ok((true, Join(dir, PayloadName(name)))) && o.requested == [] && o.files == files
  {
  }

  /** Otherwise there is exactly one request, for `{url}{name}.jsonl.zst`; the
      result is `(True, path)` when the transfer is complete and `(False, "")`
      when it is not, and the body replaces the local file either way. */
  lemma CheckFileDownloadsOnce(files: map<string, string>, dirs: set<string>, manifest: Json, name: string,
                               url: string, dir: string, server: string -> Response)
    requires manifest.Obj?
    requires DirReady(files, dirs, dir)
    requires !SizeMatches(files, Join(dir, PayloadName(name)), manifest)
    ensures var o := CheckFileSpec(files, dirs, manifest, name, url, dir, server);
            var resp := server(url + PayloadName(name));
            var path := Join(dir, PayloadName(name));
            && o.requested == [url + PayloadName(name)]
            && (resp.Reply? && CanCreate(o.dirs, dir, PayloadName(name)) ==>
                  && o.files == files[path := resp.body]
                  && o.result == (if DeclaredLength(resp) == 0 || |resp.body| == DeclaredLength(resp)
                                  then Ok((true, path)) else Ok((false, ""))))
  {
  }

  /** `check_file` is idempotent once a download has left a file of the size the
      manifest records: the next call makes no request and reports success. */
  lemma CheckFileIdempotent(files: map<string, string>, dirs: set<string>, manifest: Json, name: string,
                            url: string, dir: string, server: string -> Response)
    requires manifest.Obj?
    requires JsonlZstFileSize(manifest).Ok?
    requires var resp := server(url + PayloadName(name));
             resp.Reply? && EqualsInt(|resp.body|, JsonlZstFileSize(manifest).value)
    ensures var first := CheckFileSpec(files, dirs, manifest, name, url, dir, server);
            var second := CheckFileSpec(first.files, first.dirs, manifest, name, url, dir, server);
            first.result.Ok? && first.result.value.0 ==>
              second.requested == [] && second.result == first.result && second.files == first.files
  {
    var first := CheckFileSpec(files, dirs, manifest, name, url, dir, server);
    var path := Join(dir, PayloadName(name));
    if first.result.Ok? && first.result.value.0 && !SizeMatches(files, path, manifest) {
      assert first.files[path] == server(url + PayloadName(name)).body;
      assert dir in first.files || dir in first.dirs;
    }
  }

  // ---------------------------------------------------------------------------
  // data and ext_data

  /** What `Reader(path).stream_data(get_meta=withMeta)` is asked to stream. */
  datatype RecordStream = RecordStream(path: string, withMeta: bool)

  /** The gate of `data` (withMeta false) and `ext_data` (withMeta true). */
  function Gate(check: Result<(bool, string)>, withMeta: bool): (r: Result<Option<RecordStream>>)
    ensures r.Raise? <==> check.Raise?
    ensures r.Ok? ==> (r.value.None? <==> !check.value.0)
    ensures r.Ok? && r.value.Some? ==> r.value.value == RecordStream(check.value.1, withMeta)
  {
    match check
    case Raise(e) => Raise(e)
    case Ok((ok, path)) => if ok then Ok(Some(RecordStream(path, withMeta))) else Ok(None)
  }

  /** An incomplete download (declared length > 0 and not reached) makes `data`
      return None: no read of the local file is attempted. */
  lemma IncompleteDownloadGivesNoData(files: map<string, string>, dirs: set<string>, manifest: Json, name: string,
                                      url: string, dir: string, server: string -> Response, withMeta: bool)
    requires manifest.Obj?
    requires !SizeMatches(files, Join(dir, PayloadName(name)), manifest)
    requires var resp := server(url + PayloadName(name));
             resp.Reply? && DeclaredLength(resp) > 0 && |resp.body| != DeclaredLength(resp)
    requires dir != "" && dir in dirs && CanCreate(dirs, dir, PayloadName(name))
    ensures Gate(CheckFileSpec(files, dirs, manifest, name, url, dir, server).result, withMeta) == Ok(None)
  {
  }

  // ---------------------------------------------------------------------------
  // The class

  class SpeakleashDataset {
    /** The `name` attribute as the catalog gave it. */
    const name: Json
    /** The name as the f-strings that build URLs and file names render it. */
    const stem: string
    const url: string
    const replicateDir: string
    const manifest: Json

    /** `__init__`: the manifest comes from `{url}{name}.manifest` through a fresh
        structure downloader, in the hourly bucket of `now`. */
    constructor (name: Json, url: string, replicateDir: string, now: DateTime,
                 fs: FileSystem, net: Network, lib: PyLib)
      requires ValidDateTime(now)
      modifies fs, net
      ensures this.name == name && stem == Format(lib, name)
      ensures this.url == url && this.replicateDir == replicateDir
      ensures var o := GetStructureSpec(old(fs.files), old(fs.dirs), replicateDir, Null,
                                        url + Format(lib, name) + ".manifest", Timestamp(now, true), lib, net.server);
              manifest == ManifestOf(o.data) && fs.files == o.files && net.log == old(net.log) + o.requested
      ensures fs.dirs == old(fs.dirs)
    {
      var m := DownloadManifest(Format(lib, name), url, replicateDir, now, fs, net, lib);
      this.name := name;
      stem := Format(lib, name);
      this.url := url;
      this.replicateDir := replicateDir;
      manifest := m;
    }

    /** `_download_manifest`, for the dataset whose name renders as `stem`. */
    static method DownloadManifest(stem: string, url: string, replicateDir: string, now: DateTime,
                                   fs: FileSystem, net: Network, lib: PyLib) returns (m: Json)
      requires ValidDateTime(now)
      modifies fs, net
      ensures var o := GetStructureSpec(old(fs.files), old(fs.dirs), replicateDir, Null,
                                        url + stem + ".manifest", Timestamp(now, true), lib, net.server);
              m == ManifestOf(o.data) && fs.files == o.files && net.log == old(net.log) + o.requested
      ensures fs.dirs == old(fs.dirs)
    {
      var downloader := new StructureDownloader(replicateDir);
      var data := downloader.GetStructure(url + stem + ".manifest", true, now, fs, net, lib);
      m := if Truthy(data) then data else EmptyObj;
    }

    /** `samples`: `{url}{name}.sample` through the daily bucket, or `[]`. */
    method Samples(now: DateTime, fs: FileSystem, net: Network, lib: PyLib) returns (r: Json)
      requires ValidDateTime(now)
      modifies fs, net
      ensures var o := GetStructureSpec(old(fs.files), old(fs.dirs), replicateDir, Null,
                                        url + stem + ".sample", Timestamp(now, false), lib, net.server);
              r == (if Truthy(o.data) then o.data else Arr([]))
              && fs.files == o.files && net.log == old(net.log) + o.requested
      ensures fs.dirs == old(fs.dirs)
    {
      var downloader := new StructureDownloader(replicateDir);
      var data := downloader.GetStructure(url + stem + ".sample", false, now, fs, net, lib);
      r := if Truthy(data) then data else Arr([]);
    }

    /** `display_progress_bar`: writes the chunks to the open file in order and
        counts the bytes written. */
    static method DisplayProgressBar(chunks: seq<string>, path: string, fs: FileSystem) returns (progress: nat)
      requires path in fs.files && fs.files[path] == ""
      modifies fs
      ensures progress == TotalLength(chunks)
      ensures fs.files == old(fs.files)[path := Concat(chunks)]
      ensures fs.dirs == old(fs.dirs)
    {
      progress := 0;
      var i := 0;
      while i < |chunks|
        invariant 0 <= i <= |chunks|
        invariant progress == TotalLength(chunks[..i])
        invariant fs.files == old(fs.files)[path := Concat(chunks[..i])]
        invariant fs.dirs == old(fs.dirs)
      {
        progress := progress + |chunks[i]|;
        fs.Append(path, chunks[i]);
        assert chunks[..i + 1][..i] == chunks[..i];
        i := i + 1;
      }
      assert chunks[..|chunks|] == chunks;
    }

    /** `_download_file(file_name)`: one streamed request for the payload; a
        request error or a failed `open` propagates. */
    method DownloadFile(fileName: string, fs: FileSystem, net: Network) returns (r: Result<bool>)
      modifies fs, net
      ensures net.log == old(net.log) + [url + PayloadName(stem)]
      ensures fs.dirs == old(fs.dirs)
      ensures var resp := net.server(url + PayloadName(stem));
              if resp.Refused? then r == Raise(RequestException) && fs.files == old(fs.files)
              else if !CanCreate(old(fs.dirs), replicateDir, fileName) then r == Raise(OSError) && fs.files == old(fs.files)
              else r == Ok(DownloadComplete(DeclaredLength(resp), |resp.body|))
                   && fs.files == old(fs.files)[Join(replicateDir, fileName) := resp.body]
    {
      var response := net.Get(url + PayloadName(stem));
      if response.Refused? {
        return Raise(RequestException);
      }
      var totalSize := DeclaredLength(response);
      var created := fs.Create(replicateDir, fileName);
      if !created {
        return Raise(OSError);
      }
      var progress := DisplayProgressBar(Blocks(response.body, BlockSize), Join(replicateDir, fileName), fs);
      BlocksRebuildBody(response.body, BlockSize);
      r := Ok(DownloadComplete(totalSize, progress));
    }

    /** `check_file()`. */
    method CheckFile(fs: FileSystem, net: Network) returns (r: Result<(bool, string)>)
      modifies fs, net
      ensures var o := CheckFileSpec(old(fs.files), old(fs.dirs), manifest, stem, url, replicateDir, net.server);
              r == o.result && fs.files == o.files && fs.dirs == o.dirs && net.log == old(net.log) + o.requested
    {
      if !fs.Exists(replicateDir) {
        var made := fs.MakeDirs(replicateDir);
        if !made {
          return Raise(OSError);
        }
      }
      var fileName := PayloadName(stem);
      var path := Join(replicateDir, fileName);
      if fs.Exists(path) {
        var expected := JsonlZstFileSize(manifest);
        if expected.Raise? {
          return Raise(expected.exc);
        }
        if path in fs.files && EqualsInt(|fs.files[path]|, expected.value) {
          return Ok((true, path));
        }
      }
      var downloaded := DownloadFile(fileName, fs, net);
      match downloaded
      case Raise(e) => r := Raise(e);
      case Ok(complete) => r := if complete then Ok((true, path)) else Ok((false, ""));
    }

    /** `data`: None when `check_file` fails, else the stream of records. */
    method Data(fs: FileSystem, net: Network) returns (r: Result<Option<RecordStream>>)
      modifies fs, net
      ensures var o := CheckFileSpec(old(fs.files), old(fs.dirs), manifest, stem, url, replicateDir, net.server);
              r == Gate(o.result, false) && fs.files == o.files && fs.dirs == o.dirs
              && net.log == old(net.log) + o.requested
    {
      var check := CheckFile(fs, net);
      r := Gate(check, false);
    }

    /** `ext_data`: as `data`, with each record's metadata. */
    method ExtData(fs: FileSystem, net: Network) returns (r: Result<Option<RecordStream>>)
      modifies fs, net
      ensures var o := CheckFileSpec(old(fs.files), old(fs.dirs), manifest, stem, url, replicateDir, net.server);
              r == Gate(o.result, true) && fs.files == o.files && fs.dirs == o.dirs
              && net.log == old(net.log) + o.requested
    {
      var check := CheckFile(fs, net);
      r := Gate(check, true);
    }
  }
}
