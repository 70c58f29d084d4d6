/** speakleash/category_manager/category_manager.py: the Polish and English
    category lists, cached one per language as text files in the temporary
    directory, and the check of a document's category confidences against
    requested categories. */
module Categories {
  import opened Python
  import opened Json
  import opened Host

  // ---------------------------------------------------------------------------
  // Category files

  /** `write_categories_to_file`: each category followed by "\n". */
  function Lines(categories: seq<string>): (r: string)
    ensures r == "" <==> categories == []
    ensures r != "" ==> r[|r| - 1] == '\n'
  {
    if categories == [] then "" else categories[0] + "\n" + Lines(categories[1..])
  }

  /** Writing one more category appends that category and its "\n". */
  lemma LinesStep(categories: seq<string>, i: nat)
    requires i < |categories|
    ensures Lines(categories[..i + 1]) == Lines(categories[..i]) + (categories[i] + "\n")
  {
    LinesAppend(categories[..i], [categories[i]]);
    assert [categories[i]][1..] == [];
    assert Lines([categories[i]]) == categories[i] + "\n";
    assert categories[..i + 1] == categories[..i] + [categories[i]];
  }

  /** `get_categories_from_file` on a file holding `contents`: its lines, stripped. */
  function ReadCategories(contents: string): (r: seq<string>)
    ensures |r| == |ReadLines(UniversalNewlines(contents))|
    ensures forall i :: 0 <= i < |r| ==> Stripped(r[i])
  {
    var lines := ReadLines(UniversalNewlines(contents));
    seq(|lines|, i requires 0 <= i < |lines| => Strip(lines[i]))
  }

  lemma {:induction false} LinesAppend(a: seq<string>, b: seq<string>)
    ensures Lines(a + b) == Lines(a) + Lines(b)
  {
    if a != [] {
      assert (a + b)[0] == a[0];
      assert (a + b)[1..] == a[1..] + b;
      LinesAppend(a[1..], b);
      assert Lines(a + b) == a[0] + "\n" + (Lines(a[1..]) + Lines(b));
    } else {
      assert a + b == b;
    }
  }

  /** An entry that the file round trip keeps: one line, and nothing for
      `strip` to remove. */
  predicate Keepable(c: string)
  {
    '\n' !in c && '\r' !in c && Stripped(c)
  }

  lemma {:induction false} LinesHaveNoCarriageReturn(categories: seq<string>)
    requires forall i :: 0 <= i < |categories| ==> '\r' !in categories[i]
    ensures '\r' !in Lines(categories)
  {
    if categories != [] {
      LinesHaveNoCarriageReturn(categories[1..]);
    }
  }

  lemma {:induction false} ReadLinesOfLines(categories: seq<string>)
    requires forall i :: 0 <= i < |categories| ==> '\n' !in categories[i]
    ensures ReadLines(Lines(categories)) == seq(|categories|, i requires 0 <= i < |categories| => categories[i] + "\n")
  {
    if categories != [] {
      var rest := Lines(categories[1..]);
      FirstLine(categories[0], rest);
      var s := Lines(categories);
      assert s[..|categories[0]| + 1] == categories[0] + "\n";
      assert s[|categories[0]| + 1..] == rest;
      ReadLinesOfLines(categories[1..]);
    }
  }

  /** Reading back a written category file gives the list that was written,
      when every entry is a single line with no surrounding whitespace. */
  lemma CategoriesRoundTrip(categories: seq<string>)
    requires forall i :: 0 <= i < |categories| ==> Keepable(categories[i])
    ensures ReadCategories(Lines(categories)) == categories
  {
    LinesHaveNoCarriageReturn(categories);
    NoCarriageReturn(Lines(categories));
    ReadLinesOfLines(categories);
    forall i | 0 <= i < |categories|
      ensures Strip(categories[i] + "\n") == categories[i]
    {
      StripLine(categories[i]);
    }
  }

  /** `get_categories_from_url`: the body split on "\n" for an ok response,
      otherwise (not ok, or the request failed) no categories. */
  function FromResponse(resp: Response): (r: seq<string>)
    ensures r != [] <==> resp.Reply? && resp.ok
    ensures r != [] ==> JoinWith(r, '\n') == resp.body
    ensures forall i :: 0 <= i < |r| ==> '\n' !in r[i]
  {
    if resp.Reply? && resp.ok then
      SplitJoin(resp.body, '\n');
      Split(resp.body, '\n')
    else []
  }

  /** `f"{lang}_categories.txt"`. */
  function CategoriesFileName(lang: string): string
  {
    lang + "_categories.txt"
  }

  /** What `__get_categories_from_file_or_url` returns, the files after it, and
      the URLs it requested. */
  datatype Fetched = Fetched(result: Result<seq<string>>, files: map<string, string>, requested: seq<string>)

  function FileOrUrlSpec(files: map<string, string>, dirs: set<string>, tempDir: string, lang: string,
                         url: string, server: string -> Response): Fetched
  {
    var path := Join(tempDir, CategoriesFileName(lang));
    if path in files then Fetched(Ok(ReadCategories(files[path])), files, [])
    else if path in dirs then Fetched(Raise(OSError), files, [])
    else if url != "" then
      var categories := FromResponse(server(url));
      if CanCreate(dirs, tempDir, CategoriesFileName(lang)) then
        Fetched(Ok(categories), files[path := Lines(categories)], [url])
      else Fetched(Raise(OSError), files, [url])
    else Fetched(Ok([]), files, [])
  }

  /** A cached list is read with no network access and no change to the files. */
  lemma CachedListIsLocal(files: map<string, string>, dirs: set<string>, tempDir: string, lang: string,
                          url: string, server: string -> Response)
    requires Join(tempDir, CategoriesFileName(lang)) in files
    ensures var o := FileOrUrlSpec(files, dirs, tempDir, lang, url, server);
            o.requested == [] && o.files == files
            && o.result == Ok(ReadCategories(files[Join(tempDir, CategoriesFileName(lang))]))
  {
  }

  /** With no cached list and no URL there is nothing to fetch: the list is empty. */
  lemma NoUrlNoCategories(files: map<string, string>, dirs: set<string>, tempDir: string, lang: string,
                          server: string -> Response)
    requires Join(tempDir, CategoriesFileName(lang)) !in files
    requires Join(tempDir, CategoriesFileName(lang)) !in dirs
    ensures FileOrUrlSpec(files, dirs, tempDir, lang, "", server) == Fetched(Ok([]), files, [])
  {
  }

  /** A list fetched and written in one call is read back unchanged from the file
      by the next call, which makes no request, provided each fetched line is
      keepable. */
  lemma FetchedListReadBack(files: map<string, string>, dirs: set<string>, tempDir: string, lang: string,
                            url: string, server: string -> Response)
    requires Join(tempDir, CategoriesFileName(lang)) !in files
    requires url != "" && CanCreate(dirs, tempDir, CategoriesFileName(lang))
    requires var fetched := FromResponse(server(url));
             forall i :: 0 <= i < |fetched| ==> Keepable(fetched[i])
    ensures var first := FileOrUrlSpec(files, dirs, tempDir, lang, url, server);
            var second := FileOrUrlSpec(first.files, dirs, tempDir, lang, url, server);
            first.requested == [url] && first.result.Ok?
            && second.requested == [] && second.result == first.result && second.files == first.files
  {
    CategoriesRoundTrip(FromResponse(server(url)));
  }

  // ---------------------------------------------------------------------------
  // Translation and matching

  /** The index of the first occurrence of `x`, or `|xs|` when there is none. */
  function IndexOf(xs: seq<string>, x: string): (i: nat)
    ensures i <= |xs|
    ensures i < |xs| ==> xs[i] == x
    ensures forall j :: 0 <= j < i ==> xs[j] != x
  {
    if xs == [] then 0 else if xs[0] == x then 0 else 1 + IndexOf(xs[1..], x)
  }

  /** `__get_pl_category`: for "en", the pl entry at the index of the category's
      first occurrence in the en list; None for another language, a category
      not in the en list, or an index past the end of the pl list. */
  function Translate(category: string, lang: string, pl: seq<string>, en: seq<string>): (r: Option<string>)
    ensures r.Some? <==> lang == "en" && category in en && IndexOf(en, category) < |pl|
    ensures r.Some? ==> r.value == pl[IndexOf(en, category)]
  {
    if lang != "en" then None
    else
      var i := IndexOf(en, category);
      if i < |en| && i < |pl| then Some(pl[i]) else None
  }

  /** `meta_cat.upper() == target.upper() and confidence >= cf` holds. */
  predicate Matches(f: Field, target: string, cf: real, upper: string -> string)
  {
    upper(f.key) == upper(target) && Numeric(f.value) && NumericValue(f.value) >= cf
  }

  /** The comparison `confidence >= cf` is reached and raises. */
  predicate Clashes(f: Field, target: string, upper: string -> string)
  {
    upper(f.key) == upper(target) && !Numeric(f.value)
  }

  /** The inner loop of `check_category` over `meta["category"].items()`. */
  function MatchAny(fields: seq<Field>, target: string, cf: real, upper: string -> string): (r: Result<bool>)
    ensures r.Raise? ==> r.exc == TypeError
  {
    if fields == [] then Ok(false)
    else if upper(fields[0].key) == upper(target) then
      match AtLeast(fields[0].value, cf)
      case Raise(e) => Raise(e)
      case Ok(atLeast) => if atLeast then Ok(true) else MatchAny(fields[1..], target, cf, upper)
    else MatchAny(fields[1..], target, cf, upper)
  }

  /** The inner loop finds a match iff some key equal to the target up to
      `upper` has a confidence of at least `cf`, with no equal key before it
      whose confidence cannot be compared; it reports none iff no key matches
      or clashes. */
  lemma {:induction false} MatchAnyIff(fields: seq<Field>, target: string, cf: real, upper: string -> string)
    ensures MatchAny(fields, target, cf, upper) == Ok(true) <==>
              exists i :: 0 <= i < |fields| && Matches(fields[i], target, cf, upper)
                          && forall j :: 0 <= j < i ==> !Clashes(fields[j], target, upper)
    ensures MatchAny(fields, target, cf, upper) == Ok(false) <==>
              forall i :: 0 <= i < |fields| ==> !Matches(fields[i], target, cf, upper) && !Clashes(fields[i], target, upper)
  {
    MatchAnyTrue(fields, target, cf, upper);
    MatchAnyFalse(fields, target, cf, upper);
  }

  lemma {:induction false} MatchAnyTrue(fields: seq<Field>, target: string, cf: real, upper: string -> string)
    ensures MatchAny(fields, target, cf, upper) == Ok(true) <==>
              exists i :: 0 <= i < |fields| && Matches(fields[i], target, cf, upper)
                          && forall j :: 0 <= j < i ==> !Clashes(fields[j], target, upper)
  {
    if fields != [] {
      MatchAnyTrue(fields[1..], target, cf, upper);
      var rest := MatchAny(fields[1..], target, cf, upper);
      assert rest == Ok(true) ==>
        exists i :: 1 <= i < |fields| && Matches(fields[i], target, cf, upper)
                    && forall j :: 1 <= j < i ==> !Clashes(fields[j], target, upper) by {
        if rest == Ok(true) {
          var i :| 0 <= i < |fields| - 1 && Matches(fields[1..][i], target, cf, upper)
                    && forall j :: 0 <= j < i ==> !Clashes(fields[1..][j], target, upper);
          assert Matches(fields[i + 1], target, cf, upper);
          assert forall j :: 1 <= j < i + 1 ==> fields[j] == fields[1..][j - 1];
        }
      }
      assert (exists i :: 1 <= i < |fields| && Matches(fields[i], target, cf, upper)
                          && forall j :: 1 <= j < i ==> !Clashes(fields[j], target, upper)) ==> rest == Ok(true) by {
        if exists i :: 1 <= i < |fields| && Matches(fields[i], target, cf, upper)
                       && forall j :: 1 <= j < i ==> !Clashes(fields[j], target, upper) {
          var i :| 1 <= i < |fields| && Matches(fields[i], target, cf, upper)
                    && forall j :: 1 <= j < i ==> !Clashes(fields[j], target, upper);
          assert Matches(fields[1..][i - 1], target, cf, upper);
          assert forall j :: 0 <= j < i - 1 ==> !Clashes(fields[1..][j], target, upper) by {
            assert forall j :: 0 <= j < i - 1 ==> fields[1..][j] == fields[j + 1];
          }
        }
      }
    }
  }

  lemma {:induction false} MatchAnyFalse(fields: seq<Field>, target: string, cf: real, upper: string -> string)
    ensures MatchAny(fields, target, cf, upper) == Ok(false) <==>
              forall i :: 0 <= i < |fields| ==> !Matches(fields[i], target, cf, upper) && !Clashes(fields[i], target, upper)
  {
    if fields != [] {
      MatchAnyFalse(fields[1..], target, cf, upper);
      assert forall i :: 1 <= i < |fields| ==> fields[i] == fields[1..][i - 1];
    }
  }

  /** The categories to look for in `meta`: for "pl" the category itself, for
      another language its translation; None or "" is skipped. */
  function Target(category: string, lang: string, pl: seq<string>, en: seq<string>): Option<string>
  {
    if lang != "pl" then Translate(category, lang, pl, en) else Some(category)
  }

  /** The outer loop of `check_category` over the requested categories. */
  function CheckFrom(meta: Json, categories: seq<string>, cf: real, lang: string,
                     pl: seq<string>, en: seq<string>, upper: string -> string): Result<bool>
  {
    if categories == [] then Ok(false)
    else
      var target := Target(categories[0], lang, pl, en);
      if target.None? || target.value == "" then CheckFrom(meta, categories[1..], cf, lang, pl, en, upper)
      else match Get(meta, "category", EmptyObj)
        case Raise(e) => Raise(e)
        case Ok(scores) =>
          if !scores.Obj? then Raise(AttributeError)
          else match MatchAny(scores.fields, target.value, cf, upper)
            case Raise(e) => Raise(e)
            case Ok(found) => if found then Ok(true) else CheckFrom(meta, categories[1..], cf, lang, pl, en, upper)
  }

  /** `check_category(meta, categories, cf, lang)`. */
  function CheckCategorySpec(meta: Json, categories: seq<string>, cf: real, lang: string,
                             pl: seq<string>, en: seq<string>, upper: string -> string): Result<bool>
  {
    if !Truthy(meta) || categories == [] then Ok(false)
    else CheckFrom(meta, categories, cf, lang, pl, en, upper)
  }

  /** An empty `meta` or an empty request never matches. */
  lemma EmptyInputsNeverMatch(meta: Json, categories: seq<string>, cf: real, lang: string,
                              pl: seq<string>, en: seq<string>, upper: string -> string)
    requires !Truthy(meta) || categories == []
    ensures CheckCategorySpec(meta, categories, cf, lang, pl, en, upper) == Ok(false)
  {
  }

  /** For a language other than "pl" and "en" (including "PL") nothing is
      translated, so nothing matches. */
  lemma {:induction false} OtherLanguageNeverMatches(meta: Json, categories: seq<string>, cf: real, lang: string,
                                                     pl: seq<string>, en: seq<string>, upper: string -> string)
    requires lang != "pl" && lang != "en"
    ensures CheckFrom(meta, categories, cf, lang, pl, en, upper) == Ok(false)
  {
    if categories != [] {
      OtherLanguageNeverMatches(meta, categories[1..], cf, lang, pl, en, upper);
    }
  }

  /** The category confidences of `meta` are a dict of numbers (or absent). */
  predicate NumericScores(meta: Json)
  {
    meta.Obj? &&
    match Lookup(meta.fields, "category")
    case None => true
    case Some(scores) => scores.Obj? && forall i :: 0 <= i < |scores.fields| ==> Numeric(scores.fields[i].value)
  }

  function Scores(meta: Json): seq<Field>
    requires NumericScores(meta)
  {
    match Lookup(meta.fields, "category")
    case None => []
    case Some(scores) => scores.fields
  }

  /** With numeric confidences and lang "pl": a match exists iff some non-empty
      requested category equals some key of `meta["category"]` up to `upper`,
      with a confidence of at least `cf`. */
  lemma {:induction false} CheckFromPlIff(meta: Json, categories: seq<string>, cf: real,
                                          pl: seq<string>, en: seq<string>, upper: string -> string)
    requires NumericScores(meta)
    ensures CheckFrom(meta, categories, cf, "pl", pl, en, upper) ==
              Ok(exists c, k :: 0 <= c < |categories| && 0 <= k < |Scores(meta)| && categories[c] != ""
                                && Matches(Scores(meta)[k], categories[c], cf, upper))
  {
    var fields := Scores(meta);
    if categories != [] {
      CheckFromPlIff(meta, categories[1..], cf, pl, en, upper);
      assert forall c :: 1 <= c < |categories| ==> categories[c] == categories[1..][c - 1];
      assert forall i :: 0 <= i < |fields| ==> !Clashes(fields[i], categories[0], upper);
      if categories[0] != "" {
        assert Get(meta, "category", EmptyObj) == Ok(Obj(fields));
        var found := MatchAny(fields, categories[0], cf, upper);
        MatchAnyIff(fields, categories[0], cf, upper);
        if found == Ok(true) {
          var k :| 0 <= k < |fields| && Matches(fields[k], categories[0], cf, upper)
                    && forall j :: 0 <= j < k ==> !Clashes(fields[j], categories[0], upper);
          assert 0 <= 0 < |categories| && 0 <= k < |fields| && categories[0] != ""
                 && Matches(fields[k], categories[0], cf, upper);
        } else {
          assert found == Ok(false);
        }
      }
    }
  }

  /** The translated request: the pl names of the en categories that have one. */
  function Translated(categories: seq<string>, pl: seq<string>, en: seq<string>): seq<string>
  {
    if categories == [] then []
    else
      var t := Translate(categories[0], "en", pl, en);
      (if t.Some? then [t.value] else []) + Translated(categories[1..], pl, en)
  }

  /** Checking in English is checking in Polish on the translated request. */
  lemma {:induction false} EnglishIsTranslatedPolish(meta: Json, categories: seq<string>, cf: real,
                                                     pl: seq<string>, en: seq<string>, upper: string -> string)
    ensures CheckFrom(meta, categories, cf, "en", pl, en, upper) ==
            CheckFrom(meta, Translated(categories, pl, en), cf, "pl", pl, en, upper)
  {
    if categories != [] {
      EnglishIsTranslatedPolish(meta, categories[1..], cf, pl, en, upper);
      var t := Translate(categories[0], "en", pl, en);
      var rest := Translated(categories[1..], pl, en);
      if t.Some? {
        assert Translated(categories, pl, en) == [t.value] + rest;
        assert ([t.value] + rest)[1..] == rest;
      } else {
        assert Translated(categories, pl, en) == rest;
      }
    }
  }

  // ---------------------------------------------------------------------------
  // The manager

  class CategoryManager {
    const tempDir: string
    const categoriesPl: seq<string>
    const categoriesEn: seq<string>

    constructor (tempDir: string, categoriesPl: seq<string>, categoriesEn: seq<string>)
      ensures this.tempDir == tempDir && this.categoriesPl == categoriesPl && this.categoriesEn == categoriesEn
    {
      this.tempDir := tempDir;
      this.categoriesPl := categoriesPl;
      this.categoriesEn := categoriesEn;
    }

    /** `CategoryManager()`: the temporary directory `{tempRoot}/speakleash`
        (created when missing), then the pl list, then the en list, each from
        its cached file or else from the configured URL. */
    static method Open(tempRoot: string, cfg: Config, fs: FileSystem, net: Network) returns (r: Result<CategoryManager>)
      modifies fs, net
      ensures var tempDir := Join(tempRoot, "speakleash");
              !old(fs.Exists(tempDir)) && MakeDirsFails(old(fs.files), tempDir) ==>
                r == Raise(OSError) && fs.files == old(fs.files) && fs.dirs == old(fs.dirs) && net.log == old(net.log)
      ensures var tempDir := Join(tempRoot, "speakleash");
              old(fs.Exists(tempDir)) || !MakeDirsFails(old(fs.files), tempDir) ==>
              var dirs := if old(fs.Exists(tempDir)) then old(fs.dirs) else old(fs.dirs) + Ancestors(tempDir) + {tempDir};
              var plList := FileOrUrlSpec(old(fs.files), dirs, tempDir, "pl", cfg.categoriesPl, net.server);
              var enList := FileOrUrlSpec(plList.files, dirs, tempDir, "en", cfg.categoriesEn, net.server);
              && fs.dirs == dirs
              && (plList.result.Raise? ==> r == Raise(plList.result.exc) && fs.files == plList.files
                                           && net.log == old(net.log) + plList.requested)
              && (plList.result.Ok? ==>
                    && fs.files == enList.files && net.log == old(net.log) + plList.requested + enList.requested
                    && (enList.result.Raise? ==> r == Raise(enList.result.exc))
                    && (enList.result.Ok? ==> r.Ok? && r.value.tempDir == tempDir
                                              && r.value.categoriesPl == plList.result.value
                                              && r.value.categoriesEn == enList.result.value))
    {
      var tempDir := Join(tempRoot, "speakleash");
      var made := CreateDirs(tempDir, fs);
      if made.Raise? {
        return Raise(made.exc);
      }
      var plList := GetCategoriesFromFileOrUrl(tempDir, "pl", cfg.categoriesPl, fs, net);
      if plList.Raise? {
        return Raise(plList.exc);
      }
      var enList := GetCategoriesFromFileOrUrl(tempDir, "en", cfg.categoriesEn, fs, net);
      if enList.Raise? {
        return Raise(enList.exc);
      }
      var m := new CategoryManager(tempDir, plList.value, enList.value);
      r := Ok(m);
    }

    /** `create_dirs(temp_dir)`. */
    static method CreateDirs(tempDir: string, fs: FileSystem) returns (r: Result<()>)
      modifies fs
      ensures r.Raise? <==> !old(fs.Exists(tempDir)) && MakeDirsFails(old(fs.files), tempDir)
      ensures r.Raise? ==> r.exc == OSError
      ensures fs.dirs == if old(fs.Exists(tempDir)) || r.Raise? then old(fs.dirs)
                         else old(fs.dirs) + Ancestors(tempDir) + {tempDir}
      ensures fs.files == old(fs.files)
    {
      r := Ok(());
      if !fs.Exists(tempDir) {
        var made := fs.MakeDirs(tempDir);
        if !made {
          r := Raise(OSError);
        }
      }
    }

    /** `get_categories_from_file(path)`: fails unless `path` is a file. */
    static method GetCategoriesFromFile(path: string, fs: FileSystem) returns (r: Result<seq<string>>)
      ensures r == if path in fs.files then Ok(ReadCategories(fs.files[path])) else Raise(OSError)
    {
      var contents := fs.Read(path);
      match contents
      case Raise(e) => r := Raise(e);
      case Ok(text) => r := Ok(ReadCategories(text));
    }

    /** `get_categories_from_url(url)`: one request; a failed request is caught. */
    static method GetCategoriesFromUrl(url: string, net: Network) returns (r: seq<string>)
      modifies net
      ensures r == FromResponse(net.server(url))
      ensures net.log == old(net.log) + [url]
    {
      var response := net.Get(url);
      if response.Reply? && response.ok {
        r := Split(response.body, '\n');
      } else {
        r := [];
      }
    }

    /** `write_categories_to_file(os.path.join(dir, name), categories)`. */
    static method WriteCategoriesToFile(dir: string, name: string, categories: seq<string>, fs: FileSystem)
      returns (r: Result<()>)
      modifies fs
      ensures r.Ok? <==> CanCreate(old(fs.dirs), dir, name)
      ensures r.Raise? ==> r.exc == OSError && fs.files == old(fs.files)
      ensures r.Ok? ==> fs.files == old(fs.files)[Join(dir, name) := Lines(categories)]
      ensures fs.dirs == old(fs.dirs)
    {
      var created := fs.Create(dir, name);
      if !created {
        return Raise(OSError);
      }
      var path := Join(dir, name);
      var i := 0;
      while i < |categories|
        invariant 0 <= i <= |categories|
        invariant fs.files == old(fs.files)[path := Lines(categories[..i])]
        invariant fs.dirs == old(fs.dirs)
      {
        fs.Append(path, categories[i] + "\n");
        LinesStep(categories, i);
        i := i + 1;
      }
      assert categories[..|categories|] == categories;
      r := Ok(());
    }

    /** `__get_categories_from_file_or_url(lang)`, with the configured URL. */
    static method GetCategoriesFromFileOrUrl(tempDir: string, lang: string, url: string,
                                             fs: FileSystem, net: Network) returns (r: Result<seq<string>>)
      modifies fs, net
      ensures var o := FileOrUrlSpec(old(fs.files), old(fs.dirs), tempDir, lang, url, net.server);
              r == o.result && fs.files == o.files && net.log == old(net.log) + o.requested
      ensures fs.dirs == old(fs.dirs)
    {
      var path := Join(tempDir, CategoriesFileName(lang));
      if fs.Exists(path) {
        r := GetCategoriesFromFile(path, fs);
      } else if url != "" {
        var categories := GetCategoriesFromUrl(url, net);
        var written := WriteCategoriesToFile(tempDir, CategoriesFileName(lang), categories, fs);
        r := if written.Ok? then Ok(categories) else Raise(written.exc);
      } else {
        r := Ok([]);
      }
    }

    /** `categories(lang)`: the list of the language, compared case-insensitively;
        an unknown language gives no categories. */
    function Categories(lang: string): (r: seq<string>)
      ensures Lower(lang) == "pl" ==> r == categoriesPl
      ensures Lower(lang) == "en" ==> r == categoriesEn
      ensures Lower(lang) != "pl" && Lower(lang) != "en" ==> r == []
    {
      var key := Lower(lang);
      if key == "pl" then categoriesPl else if key == "en" then categoriesEn else []
    }

    /** `check_category(meta, categories, cf, lang)`, with `upper` as `str.upper`. */
    method CheckCategory(meta: Json, categories: seq<string>, cf: real, lang: string, upper: string -> string)
      returns (r: Result<bool>)
      ensures r == CheckCategorySpec(meta, categories, cf, lang, categoriesPl, categoriesEn, upper)
    {
      if !Truthy(meta) || categories == [] {
        return Ok(false);
      }
      var i := 0;
      while i < |categories|
        invariant 0 <= i <= |categories|
        invariant CheckFrom(meta, categories[i..], cf, lang, categoriesPl, categoriesEn, upper)
                  == CheckFrom(meta, categories, cf, lang, categoriesPl, categoriesEn, upper)
      {
        assert categories[i..][1..] == categories[i + 1..];
        var plCategory := if lang != "pl" then Translate(categories[i], lang, categoriesPl, categoriesEn)
                          else Some(categories[i]);
        if plCategory.Some? && plCategory.value != "" {
          var scores := Get(meta, "category", EmptyObj);
          if scores.Raise? {
            return Raise(scores.exc);
          }
          if !scores.value.Obj? {
            return Raise(AttributeError);
          }
          var fields := scores.value.fields;
          var j := 0;
          while j < |fields|
            invariant 0 <= j <= |fields|
            invariant MatchAny(fields[j..], plCategory.value, cf, upper) == MatchAny(fields, plCategory.value, cf, upper)
          {
            assert fields[j..][1..] == fields[j + 1..];
            if upper(fields[j].key) == upper(plCategory.value) {
              var atLeast := AtLeast(fields[j].value, cf);
              if atLeast.Raise? {
                return Raise(atLeast.exc);
              }
              if atLeast.value {
                return Ok(true);
              }
            }
            j := j + 1;
          }
        }
        i := i + 1;
      }
      return Ok(false);
    }
  }

  lemma {:induction false} LowerIdempotent(s: string)
    ensures Lower(Lower(s)) == Lower(s)
  {
    if s != [] {
      LowerIdempotent(s[1..]);
    }
  }

  /** `categories(lang)` does not depend on the case of `lang`. */
  lemma CategoriesIgnoreCase(m: CategoryManager, lang: string)
    ensures m.Categories(lang) == m.Categories(Lower(lang))
  {
    LowerIdempotent(lang);
  }
}
