/** The part of Python's runtime that the modelled code relies on: None-or-value,
    exceptions that escape a call, `os.path.join`, and the `str` methods used on
    category lists (`strip`, `split`, `lower`, reading a text file line by line). */
module Python {

  datatype Option<+T> = None | Some(value: T)

  /** The exceptions that can escape the modelled code, grouped by cause. */
  datatype Exception =
    | AttributeError    // a dict method (`get`, `values`, `items`) called on a non-dict
    | TypeError         // an unsupported comparison, membership test or subscript
    | OSError           // `open` on a directory, or in a directory that does not exist
    | RequestException  // `requests.get` could not complete the request

  /** The outcome of a Python call: the value it returns, or the exception it raises. */
  datatype Result<+T> = Ok(value: T) | Raise(exc: Exception)

  // ---------------------------------------------------------------------------
  // os.path.join (POSIX)

  /** What `os.path.join(dir, name)` puts in front of a relative `name`. */
  function DirPrefix(dir: string): string
  {
    if dir == "" || dir[|dir| - 1] == '/' then dir else dir + "/"
  }

  function Join(dir: string, name: string): string
  {
    if |name| > 0 && name[0] == '/' then name else DirPrefix(dir) + name
  }

  /** Joining distributes over appending to a non-empty name. */
  lemma JoinAppend(dir: string, x: string, y: string)
    requires x != ""
    ensures Join(dir, x + y) == Join(dir, x) + y
  {
    assert (x + y)[0] == x[0];
  }

  /** Two relative names joined to the same directory give the same path only if
      they are the same name. */
  lemma JoinInjective(dir: string, a: string, b: string)
    requires a != "" && a[0] != '/' && b != "" && b[0] != '/'
    ensures Join(dir, a) == Join(dir, b) <==> a == b
  {
    var d := DirPrefix(dir);
    assert a == (d + a)[|d|..];
    assert b == (d + b)[|d|..];
  }

  // ---------------------------------------------------------------------------
  // Characters and case

  /** `c.isspace()` in Python 3. */
  predicate IsSpace(c: char)
  {
    var n := c as int;
    n == 0x20 || 0x09 <= n <= 0x0D || 0x1C <= n <= 0x1F || n == 0x85 || n == 0xA0
    || n == 0x1680 || 0x2000 <= n <= 0x200A || n == 0x2028 || n == 0x2029
    || n == 0x202F || n == 0x205F || n == 0x3000
  }

  function LowerChar(c: char): char
  {
    if 'A' <= c <= 'Z' then (c as int + 32) as char else c
  }

  /** `s.lower()` restricted to ASCII letters. */
  function Lower(s: string): (r: string)
    ensures |r| == |s|
    ensures forall i :: 0 <= i < |s| ==> r[i] == LowerChar(s[i])
  {
    if s == [] then [] else [LowerChar(s[0])] + Lower(s[1..])
  }

  // ---------------------------------------------------------------------------
  // str.strip()

  function StripLeft(s: string): (r: string)
    ensures |r| <= |s| && r == s[|s| - |r|..]
    ensures r == [] || !IsSpace(r[0])
  {
    if s != [] && IsSpace(s[0]) then StripLeft(s[1..]) else s
  }

  function StripRight(s: string): (r: string)
    ensures |r| <= |s| && r == s[..|r|]
    ensures r == [] || !IsSpace(r[|r| - 1])
  {
    if s != [] && IsSpace(s[|s| - 1]) then StripRight(s[..|s| - 1]) else s
  }

  /** `s.strip()`: drop leading and trailing whitespace. */
  function Strip(s: string): (r: string)
    ensures Stripped(r)
  {
    StripRight(StripLeft(s))
  }

  /** A string that neither starts nor ends with whitespace. */
  predicate Stripped(s: string)
  {
    s == [] || (!IsSpace(s[0]) && !IsSpace(s[|s| - 1]))
  }

  /** Stripping a line that ends in one newline gives back the line when the line
      has no surrounding whitespace of its own. */
  lemma StripLine(s: string)
    requires Stripped(s)
    ensures Strip(s + "\n") == s
  {
    var t := s + "\n";
    if s == [] {
      assert IsSpace(t[0]) && t[1..] == [];
    } else {
      assert t[0] == s[0];
      assert StripLeft(t) == t;
      assert t[..|t| - 1] == s;
      assert StripRight(t) == StripRight(s);
    }
  }

  // ---------------------------------------------------------------------------
  // str.split(sep) and its inverse

  /** `s.split(sep)` for a one-character separator: never empty, and the pieces
      contain no separator. */
  function Split(s: string, sep: char): (r: seq<string>)
    ensures |r| >= 1
    ensures forall i :: 0 <= i < |r| ==> sep !in r[i]
  {
    if s == [] then [""]
    else
      var rest := Split(s[1..], sep);
      if s[0] == sep then [""] + rest else [[s[0]] + rest[0]] + rest[1..]
  }

  /** `sep.join(pieces)`. */
  function JoinWith(pieces: seq<string>, sep: char): string
  {
    if pieces == [] then ""
    else if |pieces| == 1 then pieces[0]
    else pieces[0] + [sep] + JoinWith(pieces[1..], sep)
  }

  /** Splitting and joining on the same separator are inverse. */
  lemma {:induction false} SplitJoin(s: string, sep: char)
    ensures JoinWith(Split(s, sep), sep) == s
  {
    if s != [] {
      var rest := Split(s[1..], sep);
      SplitJoin(s[1..], sep);
      if s[0] == sep {
        assert Split(s, sep) == [""] + rest;
        assert (([""] + rest)[1..]) == rest;
      } else {
        var r := Split(s, sep);
        assert r == [[s[0]] + rest[0]] + rest[1..];
        if |rest| == 1 {
          assert JoinWith(r, sep) == [s[0]] + rest[0];
        } else {
          assert r[1..] == rest[1..];
          assert JoinWith(rest, sep) == rest[0] + [sep] + JoinWith(rest[1..], sep);
        }
      }
    }
  }

  // ---------------------------------------------------------------------------
  // Reading a text file: universal newlines, then readlines()

  /** Text-mode decoding with `newline=None`: "\r\n" and "\r" both read as "\n". */
  function UniversalNewlines(s: string): (r: string)
    ensures '\r' !in r
  {
    if s == [] then []
    else if s[0] == '\r' then
      if |s| > 1 && s[1] == '\n' then "\n" + UniversalNewlines(s[2..])
      else "\n" + UniversalNewlines(s[1..])
    else [s[0]] + UniversalNewlines(s[1..])
  }

  /** Length of the first line of `s`, its terminating "\n" included. */
  function LineLength(s: string): (n: nat)
    ensures n <= |s|
    ensures s != [] ==> n > 0
  {
    if s == [] then 0 else if s[0] == '\n' then 1 else 1 + LineLength(s[1..])
  }

  /** `readlines()` on already decoded text: each line keeps its "\n"; only the
      last line may lack one. */
  function ReadLines(s: string): seq<string>
    decreases |s|
  {
    if s == [] then [] else
      var n := LineLength(s);
      [s[..n]] + ReadLines(s[n..])
  }

  lemma {:induction false} NoCarriageReturn(s: string)
    requires '\r' !in s
    ensures UniversalNewlines(s) == s
  {
    if s != [] {
      NoCarriageReturn(s[1..]);
      assert s == [s[0]] + s[1..];
    }
  }

  lemma {:induction false} FirstLine(line: string, rest: string)
    requires '\n' !in line
    ensures LineLength(line + "\n" + rest) == |line| + 1
  {
    if line != [] {
      assert (line + "\n" + rest)[1..] == line[1..] + "\n" + rest;
      FirstLine(line[1..], rest);
    }
  }
}
