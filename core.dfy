/** speakleash/core/core.py: the entry object. It picks the catalog of a locale,
    builds one dataset handle per catalog entry that has a "name", and finds a
    dataset by name. */
module Core {
  import opened Python
  import opened Json
  import opened Host
  import opened Downloader
  import opened Dataset

  // ---------------------------------------------------------------------------
  // Locale

  /** `get_structure_file`: the catalog file of the locale. */
  function StructureFile(cfg: Config, lang: string): (r: string)
    ensures lang == "hr" ==> r == cfg.structureFileHr
    ensures lang != "hr" ==> r == cfg.structureFilePl
  {
    if lang == "hr" then cfg.structureFileHr else cfg.structureFilePl
  }

  /** `get_url`: the base URL of the locale's datasets. */
  function Url(cfg: Config, lang: string): (r: string)
    ensures lang == "hr" ==> r == cfg.datasetsTextHr
    ensures lang != "hr" ==> r == cfg.datasetsTextPl
  {
    if lang == "hr" then cfg.datasetsTextHr else cfg.datasetsTextPl
  }

  /** Where `populate_datasets` fetches the catalog from. */
  function CatalogUrl(cfg: Config, lang: string): string
  {
    Url(cfg, lang) + StructureFile(cfg, lang)
  }

  /** Only the exact code "hr" selects the hr entries; every other language,
      "HR" and "en" included, reads the pl ones. */
  lemma LocaleSelection(cfg: Config, lang: string)
    ensures lang == "hr" ==> CatalogUrl(cfg, lang) == cfg.datasetsTextHr + cfg.structureFileHr
    ensures lang != "hr" ==> CatalogUrl(cfg, lang) == CatalogUrl(cfg, "pl") == cfg.datasetsTextPl + cfg.structureFilePl
    ensures lang != "hr" ==> Url(cfg, lang) == Url(cfg, "pl")
  {
  }

  // ---------------------------------------------------------------------------
  // The catalog comprehension

  /** `iter(v)` for a truthy catalog: a list gives its items, a dict its keys, a
      string its characters; a number or bool is not iterable. */
  function Items(v: Json): (r: Result<seq<Json>>)
    ensures r.Raise? <==> v.Null? || v.Bool? || v.Num?
    ensures r.Raise? ==> r.exc == TypeError
    ensures v.Arr? ==> r == Ok(v.items)
  {
    match v
    case Arr(items) => Ok(items)
    case Obj(fields) => Ok(seq(|fields|, i requires 0 <= i < |fields| => Str(fields[i].key)))
    case Str(s) => Ok(seq(|s|, i requires 0 <= i < |s| => Str([s[i]])))
    case _ => Raise(TypeError)
  }

  /** `key` occurs as a contiguous part of `s`. */
  predicate IsSubstring(key: string, s: string)
  {
    exists i :: 0 <= i <= |s| && key <= s[i..]
  }

  /** `key in item`: a key of a dict, a substring of a string, an element of a
      list; other values do not support `in`. */
  function Contains(item: Json, key: string): Result<bool>
  {
    match item
    case Obj(fields) => Ok(Lookup(fields, key).Some?)
    case Str(s) => Ok(IsSubstring(key, s))
    case Arr(items) => Ok(Str(key) in items)
    case _ => Raise(TypeError)
  }

  /** `item[key]` after `key in item` held: only a dict takes a string subscript. */
  function Subscript(item: Json, key: string): (r: Result<Json>)
    requires Contains(item, key) == Ok(true)
    ensures r.Ok? <==> item.Obj?
  {
    if item.Obj? then Ok(Lookup(item.fields, key).value) else Raise(TypeError)
  }

  /** A catalog entry that yields a dataset: a dict with a "name" key. */
  predicate Named(item: Json)
  {
    item.Obj? && Lookup(item.fields, "name").Some?
  }

  function NameOf(item: Json): Json
    requires Named(item)
  {
    Lookup(item.fields, "name").value
  }

  /** A catalog entry on which the comprehension raises: the `in` test fails, or
      it succeeds on something that is not a dict and the subscript fails. */
  predicate Faulty(item: Json)
  {
    Contains(item, "name").Raise? || (Contains(item, "name") == Ok(true) && !item.Obj?)
  }

  /** The positions of the named entries, in increasing order. */
  function NamedPositions(items: seq<Json>): (ps: seq<nat>)
    ensures forall k :: 0 <= k < |ps| ==> ps[k] < |items|
    ensures forall k, l :: 0 <= k < l < |ps| ==> ps[k] < ps[l]
    ensures forall i :: 0 <= i < |items| ==> (Named(items[i]) <==> i in ps)
  {
    if items == [] then []
    else
      var ps := NamedPositions(items[..|items| - 1]);
      assert forall i :: 0 <= i < |items| - 1 ==> items[..|items| - 1][i] == items[i];
      if Named(items[|items| - 1]) then ps + [|items| - 1] else ps
  }

  /** The names the comprehension passes to `SpeakleashDataset`, or the
      TypeError it raises at the first faulty entry. */
  function CatalogNames(items: seq<Json>): (r: Result<seq<Json>>)
    ensures r.Raise? <==> exists i :: 0 <= i < |items| && Faulty(items[i])
    ensures r.Raise? ==> r.exc == TypeError
  {
    if items == [] then Ok([])
    else
      var front := items[..|items| - 1];
      var last := items[|items| - 1];
      var init := CatalogNames(front);
      assert forall i :: 0 <= i < |front| ==> front[i] == items[i];
      if init.Raise? then init
      else match Contains(last, "name")
        case Raise(e) => Raise(e)
        case Ok(has) =>
          if !has then
            assert !Faulty(last);
            init
          else match Subscript(last, "name")
            case Raise(e) => Raise(e)
            case Ok(n) => Ok(init.value + [n])
  }

  /** When the comprehension does not raise, it yields one name per named entry,
      in catalog order. */
  lemma {:induction false} CatalogNamesInOrder(items: seq<Json>)
    requires CatalogNames(items).Ok?
    ensures var names, ps := CatalogNames(items).value, NamedPositions(items);
            |names| == |ps| && forall k :: 0 <= k < |names| ==> names[k] == NameOf(items[ps[k]])
  {
    if items != [] {
      var front := items[..|items| - 1];
      var last := items[|items| - 1];
      assert forall i :: 0 <= i < |front| ==> front[i] == items[i];
      assert CatalogNames(front).Ok?;
      CatalogNamesInOrder(front);
    }
  }

  /** A catalog of dicts never raises, and yields exactly the "name" values of
      the entries that have one, in order. */
  lemma CatalogOfDicts(items: seq<Json>)
    requires forall i :: 0 <= i < |items| ==> items[i].Obj?
    ensures CatalogNames(items).Ok?
    ensures var ps := NamedPositions(items);
            CatalogNames(items).value == seq(|ps|, k requires 0 <= k < |ps| => NameOf(items[ps[k]]))
  {
    assert forall i :: 0 <= i < |items| ==> !Faulty(items[i]);
    CatalogNamesInOrder(items);
  }

  // ---------------------------------------------------------------------------
  // The entry object

  /** The order in which `__init__` evaluates its statements: each reads some
      attributes of `self` and then assigns one. */
  datatype Step = Step(uses: set<string>, target: string)

  /** The attributes the statements assign. */
  function Targets(steps: seq<Step>): set<string>
  {
    if steps == [] then {} else {steps[0].target} + Targets(steps[1..])
  }

  lemma {:induction false} TargetIn(steps: seq<Step>, j: nat)
    requires j < |steps|
    ensures steps[j].target in Targets(steps)
  {
    if j > 0 {
      TargetIn(steps[1..], j - 1);
    }
  }

  /** Running the statements from a state where `initial` are the attributes
      already set: AttributeError at the first read of an attribute not yet
      set, otherwise every target ends up set. */
  function RunInit(steps: seq<Step>, initial: set<string>): (r: Result<set<string>>)
    ensures r.Ok? <==> forall i :: 0 <= i < |steps| ==> steps[i].uses <= initial + Targets(steps[..i])
    ensures r.Ok? ==> r.value == initial + Targets(steps)
    ensures r.Raise? ==> r.exc == AttributeError
  {
    if steps == [] then Ok(initial)
    else if !(steps[0].uses <= initial) then
      assert Targets(steps[..0]) == {};
      Raise(AttributeError)
    else
      var r := RunInit(steps[1..], initial + {steps[0].target});
      assert forall i :: 0 <= i < |steps| - 1 ==>
        initial + Targets(steps[..i + 1]) == initial + {steps[0].target} + Targets(steps[1..][..i]) by {
        forall i | 0 <= i < |steps| - 1
          ensures initial + Targets(steps[..i + 1]) == initial + {steps[0].target} + Targets(steps[1..][..i])
        {
          assert steps[..i + 1][1..] == steps[1..][..i];
        }
      }
      assert Targets(steps[..0]) == {};
      r
  }

  /** `Speakleash.__init__` as written: `get_structure_file` and `get_url` read
      `self.config`, which is initial last. */
  const InitAsWritten: seq<Step> := [
    Step({}, "replicate_dir"),
    Step({}, "lang"),
    Step({"lang", "config"}, "structure_file"),
    Step({"lang", "config"}, "url"),
    Step({"replicate_dir", "url", "structure_file"}, "datasets"),
    Step({}, "config")
  ]

  /** The same statements with the configuration loaded first. */
  const InitCorrected: seq<Step> := [
    Step({}, "replicate_dir"),
    Step({}, "lang"),
    Step({}, "config"),
    Step({"lang", "config"}, "structure_file"),
    Step({"lang", "config"}, "url"),
    Step({"replicate_dir", "url", "structure_file"}, "datasets")
  ]

  /** As written, constructing the entry object always raises AttributeError:
      `self.config` is read by the third statement and set by the sixth. */
  lemma InitAsWrittenRaises()
    ensures RunInit(InitAsWritten, {}) == Raise(AttributeError)
  {
    var t := InitAsWritten[..2];
    assert t[0].target == "replicate_dir" && t[1].target == "lang";
    assert t[1..][1..] == [];
    assert Targets(t[1..]) == {"lang"} + Targets(t[1..][1..]);
    assert Targets(t) == {"replicate_dir", "lang"};
    assert !(InitAsWritten[2].uses <= {} + Targets(InitAsWritten[..2]));
  }

  /** With the configuration first, every attribute is set before it is read. */
  lemma InitCorrectedCompletes()
    ensures RunInit(InitCorrected, {}).Ok?
    ensures "config" in RunInit(InitCorrected, {}).value && "datasets" in RunInit(InitCorrected, {}).value
  {
    var s := InitCorrected;
    forall i | 0 <= i < |s|
      ensures s[i].uses <= Targets(s[..i])
    {
      if i >= 3 {
        TargetIn(s[..i], 1);
        TargetIn(s[..i], 2);
        assert s[..i][1].target == "lang" && s[..i][2].target == "config";
      }
      if i == 5 {
        TargetIn(s[..i], 0);
        TargetIn(s[..i], 3);
        TargetIn(s[..i], 4);
        assert s[..i][0].target == "replicate_dir" && s[..i][3].target == "structure_file"
               && s[..i][4].target == "url";
      }
    }
    TargetIn(s, 2);
    TargetIn(s, 5);
  }

  class Speakleash {
    const replicateDir: string
    const lang: string
    const config: Config
    const structureFile: string
    const url: string
    const datasets: Option<seq<SpeakleashDataset>>

    constructor (replicateDir: string, lang: string, config: Config, datasets: Option<seq<SpeakleashDataset>>)
      ensures this.replicateDir == replicateDir && this.lang == lang && this.config == config
      ensures structureFile == StructureFile(config, lang) && url == Url(config, lang)
      ensures this.datasets == datasets
    {
      this.replicateDir := replicateDir;
      this.lang := lang;
      this.config := config;
      structureFile := StructureFile(config, lang);
      url := Url(config, lang);
      this.datasets := datasets;
    }

    /** `Speakleash(replicate_dir, lang)` with the configuration loaded before it
        is used (InitCorrected): the locale's catalog, then its datasets. */
    static method New(replicateDir: string, lang: string, config: Config, now: DateTime,
                      fs: FileSystem, net: Network, lib: PyLib) returns (r: Result<Speakleash>)
      requires ValidDateTime(now)
      modifies fs, net
      ensures r.Ok? ==> && r.value.replicateDir == replicateDir && r.value.lang == lang
                        && r.value.config == config
                        && r.value.structureFile == StructureFile(config, lang)
                        && r.value.url == Url(config, lang)
      ensures var catalog := GetStructureSpec(old(fs.files), old(fs.dirs), replicateDir, Null,
                                              CatalogUrl(config, lang), Timestamp(now, true), lib, net.server).data;
              PopulateResult(r, catalog, Url(config, lang), replicateDir)
    {
      var datasets := PopulateDatasets(replicateDir, Url(config, lang), StructureFile(config, lang), now, fs, net, lib);
      match datasets
      case Raise(e) => r := Raise(e);
      case Ok(ds) =>
        var s := new Speakleash(replicateDir, lang, config, ds);
        r := Ok(s);
    }

    /** `populate_datasets`: the catalog from `url + structure_file` (hourly
        bucket); None when it is empty or could not be had, otherwise one
        dataset per named entry, in order, all with the same base URL and
        directory. */
    static method PopulateDatasets(replicateDir: string, url: string, structureFile: string, now: DateTime,
                                   fs: FileSystem, net: Network, lib: PyLib)
      returns (r: Result<Option<seq<SpeakleashDataset>>>)
      requires ValidDateTime(now)
      modifies fs, net
      ensures var catalog := GetStructureSpec(old(fs.files), old(fs.dirs), replicateDir, Null,
                                              url + structureFile, Timestamp(now, true), lib, net.server).data;
              PopulateListing(r, catalog, url, replicateDir)
      ensures var o := GetStructureSpec(old(fs.files), old(fs.dirs), replicateDir, Null,
                                        url + structureFile, Timestamp(now, true), lib, net.server);
              !Truthy(o.data) ==> fs.files == o.files && net.log == old(net.log) + o.requested
    {
      var downloader := new StructureDownloader(replicateDir);
      var names := downloader.GetStructure(url + structureFile, true, now, fs, net, lib);
      if !Truthy(names) {
        return Ok(None);
      }
      var items := Items(names);
      if items.Raise? {
        return Raise(items.exc);
      }
      var ds := BuildDatasets(items.value, url, replicateDir, now, fs, net, lib);
      match ds
      case Raise(e) => r := Raise(e);
      case Ok(datasets) => r := Ok(Some(datasets));
    }

    /** The comprehension of `populate_datasets` over the catalog's entries: a
        dataset for each entry containing "name", built in order. */
    static method BuildDatasets(entries: seq<Json>, url: string, replicateDir: string, now: DateTime,
                                fs: FileSystem, net: Network, lib: PyLib)
      returns (r: Result<seq<SpeakleashDataset>>)
      requires ValidDateTime(now)
      modifies fs, net
      ensures match CatalogNames(entries)
              case Raise(e) => r == Raise(e)
              case Ok(names) =>
                && r.Ok? && |r.value| == |names|
                && forall k :: 0 <= k < |names| ==>
                     r.value[k].name == names[k] && r.value[k].url == url && r.value[k].replicateDir == replicateDir
    {
      var ds: seq<SpeakleashDataset> := [];
      var i := 0;
      while i < |entries|
        invariant 0 <= i <= |entries|
        invariant CatalogNames(entries[..i]).Ok?
        invariant |ds| == |CatalogNames(entries[..i]).value|
        invariant forall k :: 0 <= k < |ds| ==>
                    ds[k].name == CatalogNames(entries[..i]).value[k] && ds[k].url == url && ds[k].replicateDir == replicateDir
      {
        assert entries[..i + 1][..i] == entries[..i];
        var has := Contains(entries[i], "name");
        if has.Raise? {
          assert Faulty(entries[..i + 1][i]);
          CatalogPrefixRaises(entries, i + 1);
          return Raise(has.exc);
        }
        if has.value {
          var name := Subscript(entries[i], "name");
          if name.Raise? {
            assert Faulty(entries[..i + 1][i]);
            CatalogPrefixRaises(entries, i + 1);
            return Raise(name.exc);
          }
          var d := new SpeakleashDataset(name.value, url, replicateDir, now, fs, net, lib);
          ds := ds + [d];
        }
        i := i + 1;
      }
      assert entries[..|entries|] == entries;
      return Ok(ds);
    }

    /** `get(name)`: the first dataset whose name equals `name`; None when the
        list is None or empty, or nothing matches. */
    method Get(name: string) returns (r: Option<SpeakleashDataset>)
      ensures r.None? <==> datasets.None? || forall i :: 0 <= i < |datasets.value| ==> datasets.value[i].name != Str(name)
      ensures r.Some? ==> exists i :: 0 <= i < |datasets.value| && datasets.value[i] == r.value
                                      && r.value.name == Str(name)
                                      && forall j :: 0 <= j < i ==> datasets.value[j].name != Str(name)
    {
      if datasets.Some? && datasets.value != [] {
        var ds := datasets.value;
        var i := 0;
        while i < |ds|
          invariant 0 <= i <= |ds|
          invariant forall j :: 0 <= j < i ==> ds[j].name != Str(name)
        {
          if ds[i].name == Str(name) {
            return Some(ds[i]);
          }
          i := i + 1;
        }
      }
      return None;
    }
  }

  /** When a prefix of the entries holds a faulty one, the whole catalog raises. */
  lemma CatalogPrefixRaises(entries: seq<Json>, n: nat)
    requires n <= |entries|
    requires exists i :: 0 <= i < n && Faulty(entries[..n][i])
    ensures CatalogNames(entries).Raise?
  {
    var i :| 0 <= i < n && Faulty(entries[..n][i]);
    assert entries[i] == entries[..n][i];
  }

  /** What `populate_datasets` returns for a fetched catalog: None for a falsy
      one, the iteration error, or one dataset per name of CatalogNames, with
      the shared URL and directory. */
  predicate PopulateListing(r: Result<Option<seq<SpeakleashDataset>>>, catalog: Json, url: string, replicateDir: string)
  {
    if !Truthy(catalog) then r == Ok(None)
    else match Items(catalog)
      case Raise(e) => r == Raise(e)
      case Ok(items) =>
        match CatalogNames(items)
        case Raise(e) => r == Raise(e)
        case Ok(names) =>
          && r.Ok? && r.value.Some? && |r.value.value| == |names|
          && forall k :: 0 <= k < |names| ==>
               r.value.value[k].name == names[k] && r.value.value[k].url == url && r.value.value[k].replicateDir == replicateDir
  }

  /** The entry object's construction fails exactly when `populate_datasets`
      raises, and otherwise holds its listing. */
  predicate PopulateResult(r: Result<Speakleash>, catalog: Json, url: string, replicateDir: string)
    reads if r.Ok? then {r.value} else {}
  {
    var listing := if r.Ok? then Ok(r.value.datasets) else Raise(r.exc);
    PopulateListing(listing, catalog, url, replicateDir)
  }
}
