/**
 * The Go string and path helpers the templating code relies on, on `/`-separated
 * paths (os.PathSeparator is '/', filepath.ListSeparator is ':').
 */
module Paths {

  /** strings.HasPrefix */
  predicate HasPrefix(s: string, p: string)
  {
    |p| <= |s| && s[..|p|] == p
  }

  /** strings.HasSuffix */
  predicate HasSuffix(s: string, p: string)
  {
    |p| <= |s| && s[|s| - |p|..] == p
  }

  /** strings.TrimSuffix: removes `suffix` once when `s` ends with it. */
  function TrimSuffix(s: string, suffix: string): (r: string)
    ensures HasSuffix(s, suffix) ==> r + suffix == s
    ensures !HasSuffix(s, suffix) ==> r == s
  {
    if HasSuffix(s, suffix) then s[..|s| - |suffix|] else s
  }

  /**
   * filepath.Ext: the suffix of `path` from the final '.' of its final element,
   * or "" when that element has no dot.
   */
  function Ext(path: string): (ext: string)
    ensures ext == "" || (ext[0] == '.' && HasSuffix(path, ext))
  {
    if |path| == 0 then ""
    else
      var c := path[|path| - 1];
      if c == '/' then ""
      else if c == '.' then "."
      else
        var e := Ext(path[..|path| - 1]);
        if e == "" then "" else e + [c]
  }

  /** The template name of a file: its name without the extension. */
  lemma ExtSplitsName(name: string)
    ensures TrimSuffix(name, Ext(name)) + Ext(name) == name
  {
  }

  /**
   * filepath.Join for the operands this code passes: a clean directory and a
   * single element; "." stands for the current directory.
   */
  function Join(dir: string, elem: string): string
  {
    if dir == "." || dir == "" then elem
    else if elem == "." || elem == "" then dir
    else dir + "/" + elem
  }

  /** strings.Split(s, string(sep)) */
  function Split(s: string, sep: char): (parts: seq<string>)
    ensures |parts| >= 1
    ensures forall i | 0 <= i < |parts| :: sep !in parts[i]
  {
    if |s| == 0 then [""]
    else
      var rest := Split(s[1..], sep);
      if s[0] == sep then [""] + rest
      else [[s[0]] + rest[0]] + rest[1..]
  }

  /** strings.Join(parts, string(sep)) */
  function JoinWith(parts: seq<string>, sep: char): string
  {
    if |parts| == 0 then ""
    else if |parts| == 1 then parts[0]
    else parts[0] + [sep] + JoinWith(parts[1..], sep)
  }

  /** Joining the pieces of a split gives back the string. */
  lemma {:induction false} JoinSplit(s: string, sep: char)
    ensures JoinWith(Split(s, sep), sep) == s
  {
    if |s| > 0 {
      var rest := Split(s[1..], sep);
      JoinSplit(s[1..], sep);
      if s[0] == sep {
        assert Split(s, sep) == [""] + rest;
        assert JoinWith(Split(s, sep), sep) == "" + [sep] + JoinWith(rest, sep);
      } else if |rest| == 1 {
        assert Split(s, sep) == [[s[0]] + rest[0]];
      } else {
        var parts := Split(s, sep);
        assert parts == [[s[0]] + rest[0]] + rest[1..];
        assert JoinWith(rest, sep) == rest[0] + [sep] + JoinWith(rest[1..], sep);
        assert parts[1..] == rest[1..];
      }
    }
  }

  /** A separator-free string is a single piece. */
  lemma {:induction false} SplitNoSep(s: string, sep: char)
    requires sep !in s
    ensures Split(s, sep) == [s]
  {
    if |s| > 0 {
      assert sep !in s[1..] by {
        forall i | 0 <= i < |s[1..]| ensures s[1..][i] != sep { assert s[1..][i] == s[i + 1]; }
      }
      SplitNoSep(s[1..], sep);
      assert s[0] != sep by { assert s[0] in s; }
      assert [s[0]] + s[1..] == s;
    }
  }

  /** Splitting at a separator concatenates the pieces of both sides. */
  lemma {:induction false} SplitAt(a: string, b: string, sep: char)
    ensures Split(a + [sep] + b, sep) == Split(a, sep) + Split(b, sep)
  {
    if |a| == 0 {
      assert a + [sep] + b == [sep] + b;
      assert ([sep] + b)[1..] == b;
    } else {
      assert (a + [sep] + b)[1..] == a[1..] + [sep] + b;
      SplitAt(a[1..], b, sep);
    }
  }

  /**
   * The parent of a walk path as templatingv2/templating/tregistry.go computes it:
   * the path split at '/', without its last element, joined again.
   */
  function Parent(path: string): string
  {
    var elems := Split(path, '/');
    JoinWith(elems[..|elems| - 1], '/')
  }

  /** A path with no separator has the empty parent. */
  lemma ParentOfTopLevel(path: string)
    requires '/' !in path
    ensures Parent(path) == ""
  {
    SplitNoSep(path, '/');
  }

  /** The parent of `dir/name` is `dir`, whenever `name` holds no separator. */
  lemma ParentOfNested(dir: string, name: string)
    requires '/' !in name
    ensures Parent(dir + "/" + name) == dir
  {
    SplitAt(dir, name, '/');
    SplitNoSep(name, '/');
    var elems := Split(dir + "/" + name, '/');
    assert elems == Split(dir, '/') + [name];
    assert elems[..|elems| - 1] == Split(dir, '/');
    JoinSplit(dir, '/');
  }

  /** A string holding the separator splits into at least two pieces. */
  lemma SplitSeveral(s: string, sep: char)
    requires sep in s
    ensures |Split(s, sep)| >= 2
  {
    var i :| 0 <= i < |s| && s[i] == sep;
    assert s == s[..i] + [sep] + s[i + 1..];
    SplitAt(s[..i], s[i + 1..], sep);
  }

  /** Joined pieces start with the first piece's first character. */
  lemma JoinWithStart(parts: seq<string>, sep: char)
    requires |parts| >= 1 && parts[0] != ""
    ensures JoinWith(parts, sep) != "" && JoinWith(parts, sep)[0] == parts[0][0]
  {
  }

  /** filepath.SplitList: the empty path has no elements, any other is split at ':'. */
  function SplitList(path: string): (parts: seq<string>)
  {
    if path == "" then [] else Split(path, ':')
  }

  /** A path yields more than one list element exactly when it contains ':'. */
  lemma {:induction false} SplitListMany(path: string)
    ensures |SplitList(path)| > 1 <==> ':' in path
  {
    if path != "" {
      if ':' in path {
        SplitSeveral(path, ':');
      } else {
        SplitNoSep(path, ':');
      }
    }
  }

  /** One element of an io/fs path is valid when it is not empty, "." or "..". */
  predicate ValidElem(elem: string)
  {
    elem != "" && elem != "." && elem != ".."
  }

  /** fs.ValidPath: "." or '/'-separated valid elements (no leading or trailing slash). */
  predicate ValidPath(name: string)
  {
    name == "." || forall e | e in Split(name, '/') :: ValidElem(e)
  }
}
