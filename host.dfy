/** What the library reaches outside Python for: the functions of foreign
    libraries it calls, the HTTP server behind `requests.get`, and the local
    filesystem. Each is an explicit value or object here, so every operation
    that touches them says what it may change. */
module Host {
  import opened Python
  import opened Json

  /** Foreign functions, fixed for one run: `hashlib.md5(..).hexdigest()`,
      `json.loads` (None when the text is not valid JSON), `json.dumps`,
      Python's full Unicode `str.upper`, and `str(v)` for a value that is not
      a string. */
  datatype PyLib = PyLib(
    md5: string -> string,
    loads: string -> Option<Json>,
    dumps: Json -> string,
    upper: string -> string,
    format: Json -> string)

  /** How an f-string renders a value: a string as itself, anything else by `str`. */
  function Format(lib: PyLib, v: Json): (r: string)
    ensures v.Str? ==> r == v.s
  {
    if v.Str? then v.s else lib.format(v)
  }

  /** The entries of config.json the modelled code reads: the catalog file name
      and the base URL of the dataset texts per locale, and the URL of each
      category list. */
  datatype Config = Config(
    structureFilePl: string,
    structureFileHr: string,
    datasetsTextPl: string,
    datasetsTextHr: string,
    categoriesPl: string,
    categoriesEn: string)

  /** An md5 hexdigest: 32 lower-case hexadecimal digits. */
  predicate HexDigest(h: string)
  {
    |h| == 32 && forall i :: 0 <= i < |h| ==> h[i] in "0123456789abcdef"
  }

  /** `json.dumps` followed by `json.loads` gives the value back. */
  predicate RoundTrips(lib: PyLib, v: Json)
  {
    lib.loads(lib.dumps(v)) == Some(v)
  }

  /** What `requests.get(url)` produces: a raised RequestException, or a response
      with its `ok` flag, its `content-length` header if any, and its body. */
  datatype Response =
    | Refused
    | Reply(ok: bool, contentLength: Option<nat>, body: string)

  /** The remote server. `log` records every URL requested, in order. */
  class Network {
    const server: string -> Response
    var log: seq<string>

    constructor (server: string -> Response)
      ensures this.server == server && log == []
    {
      this.server := server;
      log := [];
    }

    /** `requests.get(url)`, with or without `stream=True`. */
    method Get(url: string) returns (r: Response)
      modifies this
      ensures r == server(url)
      ensures log == old(log) + [url]
    {
      r := server(url);
      log := log + [url];
    }
  }

  /** The position of the last '/' among the first `n` characters of `p`. */
  function LastSlashBefore(p: string, n: nat): (k: Option<nat>)
    requires n <= |p|
    ensures k.None? ==> forall j :: 0 <= j < n ==> p[j] != '/'
    ensures k.Some? ==> k.value < n && p[k.value] == '/' && forall j :: k.value < j < n ==> p[j] != '/'
  {
    if n == 0 then None
    else if p[n - 1] == '/' then Some(n - 1)
    else LastSlashBefore(p, n - 1)
  }

  /** The position of the last '/' in `p`, if any. */
  function LastSlash(p: string): Option<nat>
  {
    LastSlashBefore(p, |p|)
  }

  /** The directory that holds path `p` exists: the working directory when `p`
      has no '/', the root when its only '/' leads, and otherwise the prefix
      before the last '/' (written with or without that '/'). */
  predicate ParentExists(dirs: set<string>, p: string)
  {
    match LastSlash(p)
    case None => true
    case Some(k) => k == 0 || p[..k] in dirs || p[..k + 1] in dirs
  }

  /** A file `name` can be opened for writing in `dir` when the directory that
      will hold `os.path.join(dir, name)` exists and that path is not a
      directory itself; a `name` with a '/' lives in a subdirectory of `dir`. */
  predicate CanCreate(dirs: set<string>, dir: string, name: string)
  {
    ParentExists(dirs, Join(dir, name)) && Join(dir, name) !in dirs
  }

  /** For a plain file name, an existing `dir` (or the working directory) is
      the directory that holds the joined path. */
  lemma {:induction false} PlainNameParent(dirs: set<string>, dir: string, name: string)
    requires name != "" && '/' !in name
    requires dir == "" || dir in dirs
    ensures ParentExists(dirs, Join(dir, name))
  {
    var d := DirPrefix(dir);
    var p := Join(dir, name);
    assert p == d + name;
    match LastSlash(p)
    case None =>
    case Some(k) =>
      assert p[|d| - 1] == '/';
      assert forall j :: |d| <= j < |p| ==> p[j] == name[j - |d|];
      assert k == |d| - 1;
      if dir[|dir| - 1] == '/' {
        assert p[..k + 1] == dir;
      } else {
        assert p[..k] == dir;
      }
  }

  /** The directories above `d` that `os.makedirs(d)` walks through: each
      non-empty prefix of `d` that a '/' follows. */
  function Ancestors(d: string): (r: set<string>)
    ensures forall a :: a in r ==> |a| < |d| && a != "" && d[..|a|] == a && d[|a|] == '/'
  {
    set i | 0 < i < |d| && d[i] == '/' :: d[..i]
  }

  /** `os.makedirs(d)` raises FileNotFoundError for the empty path (there is no
      directory to create) and NotADirectoryError when a path above `d` is a
      regular file. */
  predicate MakeDirsFails(files: map<string, string>, d: string)
  {
    d == "" || exists i :: 0 < i < |d| && d[i] == '/' && d[..i] in files
  }

  /** `p` matches the glob pattern `prefix*suffix`; `*` does not cross a '/'. */
  predicate GlobMatch(prefix: string, suffix: string, p: string)
  {
    && |p| >= |prefix| + |suffix|
    && p[..|prefix|] == prefix
    && p[|p| - |suffix|..] == suffix
    && '/' !in p[|prefix|..|p| - |suffix|]
  }

  /** The local filesystem: regular files with their contents (one character per
      byte, so a file's size is its length) and the set of directories. */
  class FileSystem {
    var files: map<string, string>
    var dirs: set<string>

    constructor (files: map<string, string>, dirs: set<string>)
      ensures this.files == files && this.dirs == dirs
    {
      this.files := files;
      this.dirs := dirs;
    }

    /** `os.path.exists(p)`: never true of the empty path. */
    predicate Exists(p: string)
      reads this
    {
      p != "" && (p in files || p in dirs)
    }

    /** `open(p).read()`: fails on a directory or a missing path. */
    method Read(p: string) returns (r: Result<string>)
      ensures r == if p in files then Ok(files[p]) else Raise(OSError)
    {
      if p in files {
        r := Ok(files[p]);
      } else {
        r := Raise(OSError);
      }
    }

    /** `open(os.path.join(dir, name), 'w')`: creates or truncates the file. */
    method Create(dir: string, name: string) returns (ok: bool)
      modifies this
      ensures ok == CanCreate(old(dirs), dir, name)
      ensures dirs == old(dirs)
      ensures files == if ok then old(files)[Join(dir, name) := ""] else old(files)
    {
      ok := CanCreate(dirs, dir, name);
      if ok {
        files := files[Join(dir, name) := ""];
      }
    }

    /** `f.write(s)` on a file opened by `Create`. */
    method Append(p: string, s: string)
      requires p in files
      modifies this
      ensures files == old(files)[p := old(files)[p] + s]
      ensures dirs == old(dirs)
    {
      files := files[p := files[p] + s];
    }

    /** `os.remove(p)`: fails (and changes nothing) unless `p` is a file. */
    method Remove(p: string) returns (ok: bool)
      modifies this
      ensures ok == (p in old(files))
      ensures files == old(files) - {p}
      ensures dirs == old(dirs)
    {
      ok := p in files;
      files := files - {p};
    }

    /** `os.makedirs(d, exist_ok=True)`, called only where `d` does not exist:
        it creates `d` and every missing directory above it, or raises and
        creates nothing. */
    method MakeDirs(d: string) returns (ok: bool)
      requires !Exists(d)
      modifies this
      ensures ok == !MakeDirsFails(old(files), d)
      ensures dirs == if ok then old(dirs) + Ancestors(d) + {d} else old(dirs)
      ensures files == old(files)
    {
      ok := !MakeDirsFails(files, d);
      if ok {
        dirs := dirs + Ancestors(d) + {d};
      }
    }

    /** `glob.glob(prefix + "*" + suffix)`: every existing path that matches,
        each once, in an order the filesystem chooses. */
    method Glob(prefix: string, suffix: string) returns (ps: seq<string>)
      ensures forall p :: p in ps <==> Exists(p) && GlobMatch(prefix, suffix, p)
      ensures forall i, j :: 0 <= i < j < |ps| ==> ps[i] != ps[j]
    {
      var todo := set p | p in files.Keys + dirs && p != "" && GlobMatch(prefix, suffix, p);
      ps := [];
      while todo != {}
        invariant forall p :: p in ps || p in todo <==> Exists(p) && GlobMatch(prefix, suffix, p)
        invariant forall p :: p in ps ==> p !in todo
        invariant forall i, j :: 0 <= i < j < |ps| ==> ps[i] != ps[j]
        decreases |todo|
      {
        var p :| p in todo;
        ps := ps + [p];
        todo := todo - {p};
      }
    }
  }
}
