# speakleash core in Dafny

speakleash is a Python client for the SpeakLeash corpus of Polish (and
Croatian) text datasets. This project models the decision logic under its
HTTP and filesystem calls, and proves properties of that model:

- **Structure cache** (`downloader.dfy`, module `Downloader`). Small JSON
  documents (catalogs, manifests, samples) are cached in the replicate
  directory as `{md5(url)}{timestamp}.json`. The timestamp is `-MM_DD_YY_HH`
  or `-MM_DD_YY`. A hit reads the file. A miss deletes the URL's other
  `{hash}-*.json` files, fetches, and writes back whatever it got, None
  included.
- **Dataset handle** (`dataset.dfy`, module `Dataset`). This covers:
  - the manifest and its accessors, each with a default;
  - the `quality_metrics` priority rule and the `categorization` rule;
  - the chunked download loop, which counts bytes;
  - the completeness check;
  - `check_file` (size-match fast path, else one download);
  - the gate in front of `data` and `ext_data`.
- **Catalog** (`core.dfy`, module `Core`). It picks the pl or hr catalog,
  builds one dataset per catalog entry that has a `"name"`, and looks a
  dataset up by name.
- **Category manager** (`categories.dfy`, module `Categories`). This covers:
  - per-language category files in the temporary directory;
  - the fetch-and-cache of the lists;
  - `categories(lang)`;
  - `check_category`: case-insensitive, confidence-thresholded matching,
    with en→pl translation by index.

Supporting modules:

- `python.dfy` (`Python`): Option, the exceptions that escape a call as a
  `Result`, POSIX `os.path.join`, and `str.strip`, `str.split`,
  `str.lower` and `readlines` on text.
- `json.dfy` (`Json`): JSON values, `dict.get`, truthiness, and the
  comparisons the code makes.
- `host.dfy` (`Host`): everything outside Python.
  - A `FileSystem` class holds a path→contents map and a set of
    directories.
  - A `Network` class wraps a fixed server function and logs every URL
    requested.
  - A `PyLib` value stands for md5, `json.loads`/`json.dumps`,
    `str.upper` and `str()`.
  - A `Config` value holds the entries of config.json.

Objects whose fields Python updates in place are classes:
`StructureDownloader`, `SpeakleashDataset`, `Speakleash`,
`CategoryManager`, the filesystem and the network. Each method that changes
state is proved against a function of the old state:

- `GetStructureSpec` for the cache;
- `CheckFileSpec` for `check_file`;
- `FileOrUrlSpec` for the category cache;
- `CheckCategorySpec` for the matcher.

The lemmas state the properties of those functions. A Python exception that
escapes a call is a `Raise` result. An exception the code swallows is
modelled as the fallback the code takes.

Where the documented behaviour and the code differ, the model follows the
code:

- A cache file that exists but cannot be read or parsed is not a miss. The
  instance's previous `data` is returned (None for a fresh downloader) and
  nothing is fetched (`UnreadableCacheHasNoFallback`).
- `_download_file` never looks at `response.ok` and does not catch request
  errors. An error page is written as the payload, and a failed request
  propagates out of `check_file`, `data` and `ext_data` as
  `Raise(RequestException)`.
- `sources` defaults to `{}`, not to a list.

## Model

| member | source | states |
|---|---|---|
| Downloader.Timestamp | speakleash/downloader/structure_downloader.py:56-67 | the hourly timestamp has 12 characters and the daily one 9; both start with '-' and contain no '/' |
| Downloader.TimestampRoundTrip | speakleash/downloader/structure_downloader.py:64-67 | the zero-padded fields read back to the month, day, two-digit year (and hour) of the instant |
| Downloader.SameTimestampIffSameBucket | speakleash/downloader/structure_downloader.py:64-67 | two instants get the same timestamp iff they fall in the same hour (or day) bucket |
| Downloader.DailyIsPrefixOfHourly | speakleash/downloader/structure_downloader.py:64-67 | for one instant, the daily timestamp is the first 9 characters of the hourly one |
| Downloader.HexHasNoSeparators | speakleash/downloader/structure_downloader.py:45-53 | a hexdigest is non-empty and contains neither '-' nor '/' |
| Downloader.CachePathIsStale | speakleash/downloader/structure_downloader.py:134-136 | the cache path `dir/{hash}{timestamp}.json` matches the `{hash}-*.json` eviction pattern of its own hash |
| Downloader.OtherHashNotStale | speakleash/downloader/structure_downloader.py:75-77 | the eviction pattern of one hash never matches a cache file of a different hash |
| Downloader.FromFile | speakleash/downloader/structure_downloader.py:85-95 | data becomes the parsed file when it exists and parses, and stays as it was otherwise |
| Downloader.FromUrl | speakleash/downloader/structure_downloader.py:97-108 | data becomes the parsed body of an ok reply that parses, and stays as it was on refusal, a not-ok reply or a parse failure |
| Downloader.Evict | speakleash/downloader/structure_downloader.py:69-83 | exactly the files not matching `{hash}-*.json` remain, with their contents |
| Downloader.Store | speakleash/downloader/structure_downloader.py:110-122 | the file holds the contents when it can be created, and no other path changes; nothing changes otherwise |
| Downloader.CacheHitIsLocal | speakleash/downloader/structure_downloader.py:138-139 | on a hit the result comes from the cache file; no request, no deletion, no write |
| Downloader.UnreadableCacheHasNoFallback | speakleash/downloader/structure_downloader.py:85-95 | a cache file that cannot be opened or parsed yields the previous data with no request and no change to the files |
| Downloader.MissEvictsAndFetches | speakleash/downloader/structure_downloader.py:140-143 | on a miss: exactly one request; data is the parsed ok response, else unchanged; every other `{hash}-*.json` is gone; other files are kept; the cache file holds the dumped data iff it could be created |
| Downloader.OtherUrlCacheUntouched | speakleash/downloader/structure_downloader.py:69-83 | a miss leaves the cache files of every other URL hash as they were |
| Downloader.OnlyCurrentBucketRemains | speakleash/downloader/structure_downloader.py:141-143 | after a miss whose write succeeds, the current bucket's file is the only `{hash}-*.json` file |
| Downloader.ReplayWithinBucket | speakleash/downloader/structure_downloader.py:134-144 | after a successful write, a second call in the same bucket returns an equal value with no request and no change to the files |
| Downloader.NewBucketEvictsOld | speakleash/downloader/structure_downloader.py:134-143 | the first call of a new bucket fetches and deletes the file of any earlier bucket of the URL |
| Downloader.StructureDownloader.constructor | speakleash/downloader/structure_downloader.py:36-43 | a fresh downloader holds no data (None) |
| Downloader.StructureDownloader.RemoveOldFiles | speakleash/downloader/structure_downloader.py:69-83 | the files are the old ones minus every path matching `{hash}-*.json`; directories are untouched |
| Downloader.StructureDownloader.GetDataFromFile | speakleash/downloader/structure_downloader.py:85-95 | data becomes the parsed file, or stays as it was when the file cannot be opened or parsed |
| Downloader.StructureDownloader.GetDataFromUrl | speakleash/downloader/structure_downloader.py:97-108 | one request; data becomes the parsed body of an ok response, else stays as it was |
| Downloader.StructureDownloader.WriteDataToFile | speakleash/downloader/structure_downloader.py:110-122 | the file holds `json.dumps(data)` when it can be created; otherwise nothing changes |
| Downloader.StructureDownloader.GetStructure | speakleash/downloader/structure_downloader.py:124-144 | the files, the data, the returned value and the requests are those of GetStructureSpec on the old state |
| Dataset.ManifestOf | speakleash/dataset/dataset.py:101-114 | the manifest is the fetched structure when truthy, else `{}` (None and empty both give `{}`) |
| Dataset.StatsField | speakleash/dataset/dataset.py:116-123 | `manifest.get("stats", {}).get(key, default)`: AttributeError exactly when the manifest, or its "stats", is not a dict; otherwise stats[key], or the default when "stats" or the key is missing |
| Dataset.Characters | speakleash/dataset/dataset.py:116-123 | stats["characters"], or 0 when it is not recorded; AttributeError exactly when the manifest or its "stats" is not a dict |
| Dataset.Documents | speakleash/dataset/dataset.py:173-180 | stats["documents"], or 0 when it is not recorded; AttributeError exactly when the manifest or its "stats" is not a dict |
| Dataset.Stopwords | speakleash/dataset/dataset.py:182-189 | stats["stopwords"], or 0 when it is not recorded; AttributeError exactly when the manifest or its "stats" is not a dict |
| Dataset.Quality | speakleash/dataset/dataset.py:164-171 | stats["quality"], or `{}` when it is not recorded; AttributeError exactly when the manifest or its "stats" is not a dict |
| Dataset.Nouns | speakleash/dataset/dataset.py:191-198 | stats["nouns"], or `[]` when it is not recorded; AttributeError exactly when the manifest or its "stats" is not a dict |
| Dataset.Verbs | speakleash/dataset/dataset.py:200-207 | stats["verbs"], or `[]` when it is not recorded; AttributeError exactly when the manifest or its "stats" is not a dict |
| Dataset.Symbols | speakleash/dataset/dataset.py:209-216 | stats["symbols"], or `[]` when it is not recorded; AttributeError exactly when the manifest or its "stats" is not a dict |
| Dataset.Punctuations | speakleash/dataset/dataset.py:218-225 | stats["punctuations"], or `[]` when it is not recorded; AttributeError exactly when the manifest or its "stats" is not a dict |
| Dataset.Sentences | speakleash/dataset/dataset.py:227-234 | stats["sentences"], or `[]` when it is not recorded; AttributeError exactly when the manifest or its "stats" is not a dict |
| Dataset.Words | speakleash/dataset/dataset.py:236-243 | stats["words"], or `[]` when it is not recorded; AttributeError exactly when the manifest or its "stats" is not a dict |
| Dataset.Categories | speakleash/dataset/dataset.py:153-162 | manifest["category=95%"], or `{}` when it is not recorded; AttributeError exactly when the manifest is not a dict |
| Dataset.Description | speakleash/dataset/dataset.py:245-252 | manifest["description"], or "" when it is not recorded; AttributeError exactly when the manifest is not a dict |
| Dataset.License | speakleash/dataset/dataset.py:254-261 | manifest["license"], or "" when it is not recorded; AttributeError exactly when the manifest is not a dict |
| Dataset.Category | speakleash/dataset/dataset.py:263-270 | manifest["category"], or "" when it is not recorded; AttributeError exactly when the manifest is not a dict |
| Dataset.Sources | speakleash/dataset/dataset.py:272-279 | manifest["sources"], or `{}` when it is not recorded; AttributeError exactly when the manifest is not a dict |
| Dataset.JsonlZstFileSize | speakleash/dataset/dataset.py:281-288 | manifest["file_size"], or 0 when it is not recorded; AttributeError exactly when the manifest is not a dict |
| Dataset.EmptyManifestDefaults | speakleash/dataset/dataset.py:116-288 | on `{}`, every accessor gives its default: counts 0, lists `[]`, texts "", maps `{}`, quality "" and categorization false |
| Dataset.FirstNonZero | speakleash/dataset/dataset.py:125-138 | the result is the first key whose value (0 when missing) is non-zero, or "" when none is |
| Dataset.QualityMetrics | speakleash/dataset/dataset.py:125-138 | never raises on a manifest whose stats quality is a dict, else AttributeError; the result is "" or one of HIGH, MEDIUM, LOW |
| Dataset.QualityPriority | speakleash/dataset/dataset.py:134-138 | quality is HIGH if its value is non-zero, else MEDIUM, else LOW, else "" |
| Dataset.AnyPositive | speakleash/dataset/dataset.py:147-151 | true iff some value is > 0 before any value that cannot be compared; false iff all values are numbers ≤ 0; TypeError otherwise |
| Dataset.Categorization | speakleash/dataset/dataset.py:140-151 | false when the manifest has no "category=95%"; AttributeError when the manifest or that entry is not a dict; any other error is the TypeError of an unorderable value |
| Dataset.CategorizationIff | speakleash/dataset/dataset.py:140-151 | with numeric confidences, categorized iff some value in "category=95%" is > 0; an absent map gives false |
| Dataset.Blocks | speakleash/dataset/dataset.py:94 | `iter_content(1024)`: every chunk holds between 1 and 1024 characters |
| Dataset.BlocksRebuildBody | speakleash/dataset/dataset.py:94-96 | writing the 1024-byte chunks in order rebuilds the body, and the byte counter ends at its length |
| Dataset.DownloadComplete | speakleash/dataset/dataset.py:70-81 | a declared size of 0 always counts as complete; any other size is complete iff the progress equals it |
| Dataset.DownloadCompleteIff | speakleash/dataset/dataset.py:71-81 | the download is complete iff no length was declared (0) or the bytes received equal it |
| Dataset.CheckFileDirFails | speakleash/dataset/dataset.py:308-309 | an empty directory (which never exists), or a missing one below a regular file, raises OSError before any request, changing nothing |
| Dataset.NestedNameNeedsSubdirectory | speakleash/dataset/dataset.py:60-65 | for dataset "a/b" in a directory "d" without "d/a", the payload is requested and opening `d/a/b.jsonl.zst` then raises OSError |
| Dataset.CheckFileFastPath | speakleash/dataset/dataset.py:314-316 | a payload already present with the manifest's size gives `(True, path)` with no request and no change |
| Dataset.CheckFileDownloadsOnce | speakleash/dataset/dataset.py:318-321 | otherwise exactly one request for `{url}{name}.jsonl.zst`; when the reply arrives and the directory holding the payload path exists, the body replaces the file and the result is `(True, path)` if complete else `(False, "")` |
| Dataset.CheckFileIdempotent | speakleash/dataset/dataset.py:290-321 | after a successful download of a body of the manifest's size, the next check makes no request and gives the same result |
| Dataset.Gate | speakleash/dataset/dataset.py:333-359 | data/ext_data give None iff the check reports failure, else a stream of the checked path (with metadata for ext_data); check errors propagate |
| Dataset.IncompleteDownloadGivesNoData | speakleash/dataset/dataset.py:340-359 | with the replicate directory and the payload's own directory present, a short download makes data and ext_data return None |
| Dataset.SpeakleashDataset.constructor | speakleash/dataset/dataset.py:40-51 | name, url and directory as given; the manifest is ManifestOf the hourly structure of `{url}{name}.manifest` |
| Dataset.SpeakleashDataset.DownloadManifest | speakleash/dataset/dataset.py:101-114 | the result is ManifestOf the structure fetched through a fresh downloader, with its effects on files and requests |
| Dataset.SpeakleashDataset.Samples | speakleash/dataset/dataset.py:323-331 | the daily structure of `{url}{name}.sample`, or `[]` when it is falsy |
| Dataset.SpeakleashDataset.DisplayProgressBar | speakleash/dataset/dataset.py:83-99 | the file holds the chunks concatenated in order and the counter is the sum of their lengths |
| Dataset.SpeakleashDataset.DownloadFile | speakleash/dataset/dataset.py:53-68 | one request; RequestException on a failed request; OSError when the directory holding the payload path is missing or the path is a directory; otherwise the body is the file and the result is the completeness check |
| Dataset.SpeakleashDataset.CheckFile | speakleash/dataset/dataset.py:290-321 | creates the missing directory and its parents, or raises when `os.makedirs` fails; the result, files, directories and requests are CheckFileSpec's |
| Dataset.SpeakleashDataset.Data | speakleash/dataset/dataset.py:347-359 | the Gate of check_file without metadata, with check_file's effects |
| Dataset.SpeakleashDataset.ExtData | speakleash/dataset/dataset.py:333-345 | the Gate of check_file with metadata, with check_file's effects |
| Core.StructureFile | speakleash/core/core.py:41-53 | the hr structure file exactly for "hr", the pl one for every other language |
| Core.Url | speakleash/core/core.py:55-69 | the hr datasets URL exactly for "hr", the pl one for every other language |
| Core.LocaleSelection | speakleash/core/core.py:43-69 | only "hr" selects the hr catalog file and URL; every other language reads the pl ones |
| Core.Items | speakleash/core/core.py:80-82 | iterating the catalog raises TypeError exactly for None, a bool or a number; a list gives its items |
| Core.NamedPositions | speakleash/core/core.py:80-82 | the positions of the dict entries with "name", strictly increasing, and no others |
| Core.CatalogNames | speakleash/core/core.py:80-82 | the comprehension raises (TypeError) iff some entry is not a dict and fails the `in` test or the subscript |
| Core.CatalogNamesInOrder | speakleash/core/core.py:80-82 | without an error, one name per entry containing "name", in catalog order |
| Core.CatalogOfDicts | speakleash/core/core.py:80-82 | a catalog of dicts never raises and yields exactly the "name" values, in order |
| Core.RunInit | speakleash/core/core.py:35-40 | the attribute assignments of `__init__` succeed iff every attribute is set before it is read, else AttributeError |
| Core.InitAsWrittenRaises | speakleash/core/core.py:35-40 | as written, the constructor raises AttributeError: `self.config` is read before it is set |
| Core.InitCorrectedCompletes | speakleash/core/core.py:35-40 | with the configuration loaded first, every attribute is set before it is read |
| Core.Speakleash.New | speakleash/core/core.py:28-40 | replicate dir, language, config, catalog file and URL of the locale; datasets as populate_datasets gives them, or its error |
| Core.Speakleash.PopulateDatasets | speakleash/core/core.py:71-83 | the catalog comes from `url + structure_file` (hourly); None for a falsy catalog; else one dataset per name of CatalogNames, in order, all with the same URL and directory, or the TypeError |
| Core.Speakleash.BuildDatasets | speakleash/core/core.py:80-82 | one dataset per name of CatalogNames(entries), in catalog order, each with the given URL and directory; the TypeError of a faulty entry propagates |
| Core.Speakleash.Get | speakleash/core/core.py:85-97 | the first dataset whose name equals `name`; None iff the list is None or empty or no name matches |
| Categories.Lines | speakleash/category_manager/category_manager.py:91-101 | the written text is empty iff the list is, and otherwise ends with "\n" |
| Categories.ReadCategories | speakleash/category_manager/category_manager.py:62-71 | one entry per line of the file (after newline translation), and no entry starts or ends with whitespace |
| Categories.CategoriesRoundTrip | speakleash/category_manager/category_manager.py:63-101 | reading back a written list gives the list when no entry has a line break or surrounding whitespace |
| Categories.FromResponse | speakleash/category_manager/category_manager.py:73-89 | non-empty iff the response is ok; then the pieces contain no "\n" and joined with "\n" are the body |
| Categories.CachedListIsLocal | speakleash/category_manager/category_manager.py:119-123 | an existing category file is read with no request and no write |
| Categories.NoUrlNoCategories | speakleash/category_manager/category_manager.py:124-129 | no file and no URL: no categories, nothing requested or written |
| Categories.FetchedListReadBack | speakleash/category_manager/category_manager.py:112-129 | a list fetched and written is read back equal by the next call, with no request |
| Categories.IndexOf | speakleash/category_manager/category_manager.py:152-155 | the index of the first occurrence, or the length when absent |
| Categories.Translate | speakleash/category_manager/category_manager.py:144-158 | only for "en": the pl entry at the first index of the category in the en list, none if absent or out of range |
| Categories.MatchAny | speakleash/category_manager/category_manager.py:181-183 | the only exception the inner loop can raise is the TypeError of comparing a non-number with the threshold |
| Categories.MatchAnyIff | speakleash/category_manager/category_manager.py:181-183 | true iff some key equal up to upper has confidence ≥ cf before any equal key with a non-number; false iff none matches or clashes |
| Categories.EmptyInputsNeverMatch | speakleash/category_manager/category_manager.py:171-172 | empty meta or empty categories give false |
| Categories.OtherLanguageNeverMatches | speakleash/category_manager/category_manager.py:174-180 | for a language other than "pl" and "en" (including "PL") nothing matches |
| Categories.CheckFromPlIff | speakleash/category_manager/category_manager.py:174-183 | for "pl" with numeric confidences: true iff some non-empty requested category equals some key up to upper with confidence ≥ cf |
| Categories.EnglishIsTranslatedPolish | speakleash/category_manager/category_manager.py:174-183 | checking in "en" equals checking in "pl" on the translated categories |
| Categories.CategoriesIgnoreCase | speakleash/category_manager/category_manager.py:138-142 | `categories(lang)` does not depend on the case of `lang` |
| Categories.CategoryManager.Open | speakleash/category_manager/category_manager.py:32-39 | OSError with nothing changed when `{tmp}/speakleash` is missing and cannot be made; otherwise creates it if missing, then loads pl, then en by FileOrUrlSpec; the first error propagates |
| Categories.CategoryManager.CreateDirs | speakleash/category_manager/category_manager.py:41-49 | when nothing exists at the path, the directory and its missing parents are added, or OSError when `os.makedirs` fails; files untouched |
| Categories.CategoryManager.GetCategoriesFromFile | speakleash/category_manager/category_manager.py:62-71 | ReadCategories of the file, or OSError when the path is not a file |
| Categories.CategoryManager.GetCategoriesFromUrl | speakleash/category_manager/category_manager.py:73-89 | one request; FromResponse of the reply |
| Categories.CategoryManager.WriteCategoriesToFile | speakleash/category_manager/category_manager.py:91-101 | the file holds each category followed by "\n", or OSError when it cannot be created |
| Categories.CategoryManager.GetCategoriesFromFileOrUrl | speakleash/category_manager/category_manager.py:112-129 | the result, files and requests are FileOrUrlSpec's: the file if it exists, else fetch-and-write when the URL is non-empty, else `[]` |
| Categories.CategoryManager.Categories | speakleash/category_manager/category_manager.py:131-142 | pl list for "pl", en list for "en" (lower-cased), `[]` for any other language |
| Categories.CategoryManager.CheckCategory | speakleash/category_manager/category_manager.py:160-185 | the nested loops compute CheckCategorySpec, with its early exits and errors |
| Python.StripLine | speakleash/category_manager/category_manager.py:70-71 | stripping a line with its "\n" gives the line back when it has no surrounding whitespace |
| Python.SplitJoin | speakleash/category_manager/category_manager.py:84-85 | splitting the body on "\n" loses nothing: joining the pieces gives it back |

## Left out

- HTTP is a fixed function from URL to response: a failed request, or the
  `ok` flag, an optional `content-length` and a body. Streaming, headers
  other than `content-length`, encodings and transfer errors after the
  response starts are not modelled.
- The filesystem is a map from path to contents plus a set of directories.
  - File contents are strings; one character stands for one byte of a
    payload.
  - Opening for writing fails only when the directory that holds the
    joined path is missing, or when the path is a directory. A dataset
    name with a '/' therefore needs its subdirectory of the replicate
    directory, which nothing creates.
  - `os.makedirs` creates the named directory and the missing ones above
    it. It raises on the empty path and below a regular file. Path
    normalisation (`..`, `//`, a trailing `/`) is not modelled.
  - `glob` does not interpret metacharacters in the directory or hash, and
    skipping hidden files is not modelled.
- The clock is a `DateTime` parameter read once per operation. Building a
  catalog uses the same instant for every manifest.
- md5, `json.loads`, `json.dumps`, `str.upper` and `str()` of a non-string
  are uninterpreted functions. The eviction lemmas assume the hash is a
  32-digit lower-case hexdigest. The read-after-write lemma assumes the
  value survives `json.dumps` then `json.loads`.
- JSON numbers are reals. The int/float distinction, NaN and infinities
  are not modelled; confidences and sizes compare as exact numbers.
- `str.lower` is ASCII-only. Among the values `categories` accepts, this
  matches Python, since no other character lower-cases to a, e, l, n or p.
  UTF-8 decoding errors are not modelled.
- The configuration is a `Config` value of strings. How config.json is
  loaded (speakleash/config_loader.py) is not part of this model, nor is
  `get_url_from_config`'s KeyError for languages other than pl and en,
  which it is never called with.
- The decompressing record reader (`lm_dataformat.Reader`) is not part of
  this model. `data` and `ext_data` return a `RecordStream` naming the path
  and the metadata flag.
- The tqdm progress display and the error `print` in `_download_manifest`
  are output only; the byte counter is kept.
- `__repr__` and `__str__` of a dataset are not modelled.
- `update_categories_dir` is an unimplemented stub and is not modelled.
- speakleash/contrib.py (HuggingFace, pandas, joblib, tokenizers),
  speakleash/Speakleash.py (a legacy copy of the catalog), setup.py and
  speakleash/__init__.py are not part of this model.
- Dataset.SpeakleashDataset.DownloadFile: a `content-length` header that is
  not an integer, for which `int()` raises ValueError, is not modelled; the
  declared length is a natural number or absent.
- Dataset.SpeakleashDataset.CheckFile: a directory at the payload path is
  treated as never having the manifest's size. Python compares the
  directory's own size.
- Core.Speakleash.PopulateDatasets: for a truthy catalog, the contract states
  each dataset's name, URL and directory, not the file and network effects
  of the manifest fetches (each constructor states its own). On an error
  midway, only the error is stated.
- Core.Speakleash.BuildDatasets: the same gap as PopulateDatasets, whose
  loop it is: the contract states each dataset's name, URL and directory,
  not its manifest or the file and network effects of the manifest fetches.
- Core.Speakleash.New: the catalog's effects are those of PopulateDatasets,
  and are stated only as far as its contract states them.

## Findings

| source | as written | input that shows it | evidently intended | confidence | as-written member | corrected member |
|---|---|---|---|---|---|---|
| speakleash/core/core.py:35-40 | `__init__` calls `get_structure_file` (line 37), which reads `self.config`; `self.config` is assigned only on line 40 | any construction, e.g. `Speakleash("data")` raises AttributeError | load the configuration before the catalog file and URL are chosen | high; not executed | Core.InitAsWrittenRaises | Core.Speakleash.New |
