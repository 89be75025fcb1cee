/**
 * The glob-based template context of templating/templating/context.go.
 *
 * A context reads its directory through twelve glob patterns (three per
 * template format): files under `_components/` become globals, files under
 * `components/` and files beside the context become locals; a later pattern
 * replaces an earlier same-named template. Directories, unreadable files and
 * files that do not parse are passed over. `GetRoot`, `GetBody` and `GetHead`
 * graft every global and then every local into the named local template, keep
 * the result, and answer with it from then on.
 */
module GlobContext {
  import opened Wrappers
  import opened Errors
  import opened Paths
  import opened Externals

  const TEMPLATE_FORMATS: seq<string> := ["html", "tmpl", "gotmpl", "gotemplate"]
  const TEMPLATE_GLOBAL_PREFIX: string := "_"
  const TEMPLATE_COMPONENT_DIRECTORY: string := "components"
  const TEMPLATE_HEAD: string := "head"
  const TEMPLATE_BODY: string := "body"
  const TEMPLATE_ROOT: string := "root"

  /**
   * An html/template *Template of this package: its name, the parse tree of its
   * own file (the wrapper's Tree, which grafting leaves alone), and the trees of
   * every template defined in its namespace.
   */
  datatype Template = Template(name: string, tree: Tree, defs: map<string, Tree>)

  /** Every template is stored under its own name. */
  ghost predicate Named(m: map<string, Template>)
  {
    forall k | k in m :: m[k].name == k
  }

  // ---------------------------------------------------------------------------
  // Glob patterns

  /** A pattern matching the files of `dir` (the context directory itself when empty) that end in `.ext`. */
  datatype Glob = Glob(dir: string, ext: string)

  /** The pattern as text. */
  function GlobText(g: Glob): string
  {
    (if g.dir == "" then "" else g.dir + "/") + "*." + g.ext
  }

  /** The patterns for `formats`, three per format: global components, components, the directory itself. */
  function GlobsOf(formats: seq<string>): seq<Glob>
  {
    if formats == [] then []
    else
      var f := formats[|formats| - 1];
      GlobsOf(formats[..|formats| - 1])
        + [Glob(TEMPLATE_GLOBAL_PREFIX + TEMPLATE_COMPONENT_DIRECTORY, f), Glob(TEMPLATE_COMPONENT_DIRECTORY, f), Glob("", f)]
  }

  /** Globs() */
  method Globs() returns (g: seq<Glob>)
    ensures g == GlobsOf(TEMPLATE_FORMATS)
  {
    g := [];
    var i := 0;
    while i < |TEMPLATE_FORMATS|
      invariant 0 <= i <= |TEMPLATE_FORMATS|
      invariant g == GlobsOf(TEMPLATE_FORMATS[..i])
    {
      var f := TEMPLATE_FORMATS[i];
      assert TEMPLATE_FORMATS[..i + 1][..i] == TEMPLATE_FORMATS[..i];
      g := g + [Glob(TEMPLATE_GLOBAL_PREFIX + TEMPLATE_COMPONENT_DIRECTORY, f)];
      g := g + [Glob(TEMPLATE_COMPONENT_DIRECTORY, f)];
      g := g + [Glob("", f)];
      i := i + 1;
    }
    assert TEMPLATE_FORMATS[..i] == TEMPLATE_FORMATS;
  }

  /** The directory a pattern lists, below the context directory `root`. */
  function GlobDir(root: string, g: Glob): string
  {
    if g.dir == "" then root else Join(root, g.dir)
  }

  /** The entries of `entries` whose name ends in `.<ext>` (what `*.<ext>` matches), in listing order. */
  function Matching(entries: seq<Entry>, ext: string): (r: seq<Entry>)
    ensures forall e | e in r :: e in entries && HasSuffix(e.name, "." + ext)
    ensures forall e | e in entries && HasSuffix(e.name, "." + ext) :: e in r
  {
    if entries == [] then []
    else (if HasSuffix(entries[0].name, "." + ext) then [entries[0]] else []) + Matching(entries[1..], ext)
  }

  /** fs.Glob below `root`: an unreadable directory matches nothing. */
  function GlobMatches(fsys: FileSystem, root: string, g: Glob): seq<Entry>
  {
    match ReadDir(fsys, GlobDir(root, g))
    case None => []
    case Some(entries) => Matching(entries, g.ext)
  }

  // ---------------------------------------------------------------------------
  // Parsing a directory

  /** The template one matched entry yields, if any: not for a directory, an unreadable file or a parse failure. */
  function LoadMatch(fsys: FileSystem, dir: string, e: Entry): (r: Option<Template>)
    ensures r.Some? <==> !e.isDir && Join(dir, e.name) in fsys.files && fsys.files[Join(dir, e.name)].Parsed?
    ensures r.Some? ==> r.value.tree == fsys.files[Join(dir, e.name)].tree
    ensures r.Some? ==> r.value.name + Ext(e.name) == e.name && r.value.defs == map[r.value.name := r.value.tree]
  {
    var file := Join(dir, e.name);
    if e.isDir || file !in fsys.files || fsys.files[file].Malformed? then None
    else
      ExtSplitsName(e.name);
      var name := TrimSuffix(e.name, Ext(e.name));
      var tree := fsys.files[file].tree;
      Some(Template(name, tree, map[name := tree]))
  }

  datatype Index = Index(locals: map<string, Template>, globals: map<string, Template>)

  /** The index after recording, in order, the templates the matches of one pattern yield. */
  function IndexMatches(fsys: FileSystem, dir: string, global: bool, idx: Index, matches: seq<Entry>): Index
  {
    if matches == [] then idx
    else MatchStep(fsys, dir, global, IndexMatches(fsys, dir, global, idx, matches[..|matches| - 1]), matches[|matches| - 1])
  }

  /** One match: its template, if it yields one, is recorded under its name in the map of its kind. */
  function MatchStep(fsys: FileSystem, dir: string, global: bool, prev: Index, e: Entry): Index
  {
    match LoadMatch(fsys, dir, e)
    case None => prev
    case Some(t) => if global then prev.(globals := prev.globals[t.name := t]) else prev.(locals := prev.locals[t.name := t])
  }

  /** The index after every pattern of `globs` has been matched, in order; a pattern beginning with `_` yields globals. */
  function IndexGlobs(fsys: FileSystem, root: string, globs: seq<Glob>, idx: Index): Index
  {
    if globs == [] then idx
    else GlobStep(fsys, root, IndexGlobs(fsys, root, globs[..|globs| - 1], idx), globs[|globs| - 1])
  }

  /** One pattern: its matches are recorded, as globals when the pattern begins with `_`. */
  function GlobStep(fsys: FileSystem, root: string, prev: Index, g: Glob): Index
  {
    IndexMatches(fsys, GlobDir(root, g), HasPrefix(GlobText(g), TEMPLATE_GLOBAL_PREFIX), prev, GlobMatches(fsys, root, g))
  }

  datatype DraftParse = DraftParse(err: Option<Error>, idx: Index)

  /** What `Parse` returns and leaves, starting from `idx`: an invalid directory path is refused. */
  function ParseDir(fsys: FileSystem, path: string, idx: Index): DraftParse
  {
    if !ValidPath(path) then DraftParse(Some(DraftInvalidPathError), idx)
    else DraftParse(None, IndexGlobs(fsys, path, GlobsOf(TEMPLATE_FORMATS), idx))
  }

  // ---------------------------------------------------------------------------
  // Grafting

  /** The trees of a template map, by key. */
  function TreesOf(m: map<string, Template>): map<string, Tree>
  {
    map k | k in m :: m[k].tree
  }

  /** `t` after AddParseTree of every global and then every local. */
  function Composed(t: Template, globals: map<string, Template>, locals: map<string, Template>): Template
  {
    t.(defs := t.defs + TreesOf(globals) + TreesOf(locals))
  }

  /** The value of a context: the fields a registry observes. */
  datatype ContextValue = ContextValue(
    Path: string,
    locals: map<string, Template>,
    globals: map<string, Template>,
    body: Option<Template>,
    head: Option<Template>)

  /** A context in which every template is stored under its own name. */
  ghost predicate NamedValue(c: ContextValue)
  {
    Named(c.locals) && Named(c.globals)
  }

  /** The value of NewTemplateContext(path) after Parse, whether or not Parse failed. */
  function ParsedValue(fsys: FileSystem, path: string): ContextValue
  {
    var p := ParseDir(fsys, path, Index(map[], map[]));
    ContextValue(path, p.idx.locals, p.idx.globals, None, None)
  }

  class TemplateContext {
    const Path: string
    var locals: map<string, Template>
    var globals: map<string, Template>
    /** The slot GetRoot and GetBody both fill. */
    var body: Option<Template>
    var head: Option<Template>

    ghost predicate Valid()
      reads this
    {
      Named(locals) && Named(globals)
    }

    function State(): ContextValue
      reads this
    {
      ContextValue(Path, locals, globals, body, head)
    }

    /** NewTemplateContext(path) */
    constructor (path: string)
      ensures Valid()
      ensures Path == path && locals == map[] && globals == map[] && body == None && head == None
    {
      Path, locals, globals, body, head := path, map[], map[], None, None;
    }

    /** Indexes the directory at Path through the glob patterns. */
    method Parse(fsys: FileSystem) returns (err: Option<Error>)
      requires Valid()
      modifies this`locals, this`globals
      ensures Valid()
      ensures DraftParse(err, Index(locals, globals)) == ParseDir(fsys, Path, Index(old(locals), old(globals)))
    {
      var globs := Globs();
      if !ValidPath(Path) {
        return Some(DraftInvalidPathError);
      }
      ghost var start := Index(locals, globals);
      IndexAll(fsys, globs);
      IndexGlobsNamed(fsys, Path, globs, start);
      return None;
    }

    /** Parse's loop over the patterns. */
    method IndexAll(fsys: FileSystem, globs: seq<Glob>)
      modifies this`locals, this`globals
      ensures Index(locals, globals) == IndexGlobs(fsys, Path, globs, Index(old(locals), old(globals)))
    {
      ghost var start := Index(locals, globals);
      var i := 0;
      while i < |globs|
        invariant 0 <= i <= |globs|
        invariant Index(locals, globals) == IndexGlobs(fsys, Path, globs[..i], start)
      {
        assert globs[..i + 1][..i] == globs[..i];
        assert IndexGlobs(fsys, Path, globs[..i + 1], start) == GlobStep(fsys, Path, IndexGlobs(fsys, Path, globs[..i], start), globs[i]);
        IndexPattern(fsys, globs[i]);
        i := i + 1;
      }
      assert globs[..i] == globs;
    }

    /** The body of Parse's pattern loop: record what one pattern's matches yield. */
    method IndexPattern(fsys: FileSystem, g: Glob)
      modifies this`locals, this`globals
      ensures Index(locals, globals) == GlobStep(fsys, Path, Index(old(locals), old(globals)), g)
    {
      var matches := GlobMatches(fsys, Path, g);
      IndexMatchList(fsys, GlobDir(Path, g), HasPrefix(GlobText(g), TEMPLATE_GLOBAL_PREFIX), matches);
    }

    /** The match loop of one pattern. */
    method IndexMatchList(fsys: FileSystem, dir: string, global: bool, matches: seq<Entry>)
      modifies this`locals, this`globals
      ensures Index(locals, globals) == IndexMatches(fsys, dir, global, Index(old(locals), old(globals)), matches)
    {
      ghost var start := Index(locals, globals);
      var j := 0;
      while j < |matches|
        invariant 0 <= j <= |matches|
        invariant Index(locals, globals) == IndexMatches(fsys, dir, global, start, matches[..j])
      {
        assert matches[..j + 1][..j] == matches[..j];
        assert IndexMatches(fsys, dir, global, start, matches[..j + 1]) == MatchStep(fsys, dir, global, IndexMatches(fsys, dir, global, start, matches[..j]), matches[j]);
        RecordMatch(fsys, dir, global, matches[j]);
        j := j + 1;
      }
      assert matches[..j] == matches;
    }

    /** The body of the match loop: the template a match yields is recorded under its name. */
    method RecordMatch(fsys: FileSystem, dir: string, global: bool, e: Entry)
      modifies this`locals, this`globals
      ensures Index(locals, globals) == MatchStep(fsys, dir, global, Index(old(locals), old(globals)), e)
    {
      var t := LoadMatch(fsys, dir, e);
      if t.Some? {
        if global {
          globals := globals[t.value.name := t.value];
        } else {
          locals := locals[t.value.name := t.value];
        }
      }
    }

    /** Copies the given templates into the globals; a supplied name replaces the context's own. */
    method SetGlobals(m: map<string, Template>) returns (err: Option<Error>)
      requires Valid() && Named(m)
      modifies this`globals
      ensures Valid()
      ensures globals == old(globals) + m && err == None
    {
      var rest := m.Keys;
      while rest != {}
        invariant rest <= m.Keys
        invariant globals == old(globals) + map k | k in m.Keys - rest :: m[k]
        decreases rest
      {
        var k :| k in rest;
        globals := globals[k := m[k]];
        rest := rest - {k};
      }
      return None;
    }

    function GetGlobals(): (g: map<string, Template>)
      reads this
      ensures g == globals
    {
      globals
    }

    /** The grafting loops: every global, then every local, is added to `t`'s namespace under its name. */
    method Graft(t: Template) returns (u: Template)
      requires Valid()
      ensures u == Composed(t, globals, locals)
    {
      u := t;
      var rest := globals.Keys;
      while rest != {}
        invariant rest <= globals.Keys
        invariant u == t.(defs := t.defs + TreesOf(map k | k in globals.Keys - rest :: globals[k]))
        decreases rest
      {
        var k :| k in rest;
        var g := globals[k];
        u := u.(defs := u.defs[g.name := g.tree]);
        rest := rest - {k};
      }
      ghost var mid := u;
      rest := locals.Keys;
      while rest != {}
        invariant rest <= locals.Keys
        invariant u == mid.(defs := mid.defs + TreesOf(map k | k in locals.Keys - rest :: locals[k]))
        decreases rest
      {
        var k :| k in rest;
        var g := locals[k];
        u := u.(defs := u.defs[g.name := g.tree]);
        rest := rest - {k};
      }
    }

    /** The layout template: the composed `root` local, kept in the body slot. */
    method GetRoot() returns (r: Result<Template, Error>)
      requires Valid()
      modifies this`locals, this`body
      ensures Valid() && globals == old(globals) && head == old(head)
      ensures old(body).Some? ==> r == Success(old(body).value) && locals == old(locals) && body == old(body)
      ensures old(body).None? && TEMPLATE_ROOT !in old(locals) ==>
        r == Failure(DraftNoTemplateError) && locals == old(locals) && body == None
      ensures old(body).None? && TEMPLATE_ROOT in old(locals) ==>
        var t := Composed(old(locals)[TEMPLATE_ROOT], globals, old(locals));
        r == Success(t) && body == Some(t) && locals == old(locals)[TEMPLATE_ROOT := t]
    {
      if body.Some? {
        return Success(body.value);
      }
      if TEMPLATE_ROOT !in locals {
        return Failure(DraftNoTemplateError);
      }
      var t := Graft(locals[TEMPLATE_ROOT]);
      locals := locals[TEMPLATE_ROOT := t];
      body := Some(t);
      return Success(t);
    }

    /** The page body: the composed `body` local, kept in the body slot. */
    method GetBody() returns (r: Result<Template, Error>)
      requires Valid()
      modifies this`locals, this`body
      ensures Valid() && globals == old(globals) && head == old(head)
      ensures old(body).Some? ==> r == Success(old(body).value) && locals == old(locals) && body == old(body)
      ensures old(body).None? && TEMPLATE_BODY !in old(locals) ==>
        r == Failure(DraftNoTemplateError) && locals == old(locals) && body == None
      ensures old(body).None? && TEMPLATE_BODY in old(locals) ==>
        var t := Composed(old(locals)[TEMPLATE_BODY], globals, old(locals));
        r == Success(t) && body == Some(t) && locals == old(locals)[TEMPLATE_BODY := t]
    {
      if body.Some? {
        return Success(body.value);
      }
      if TEMPLATE_BODY !in locals {
        return Failure(DraftNoTemplateError);
      }
      var t := Graft(locals[TEMPLATE_BODY]);
      locals := locals[TEMPLATE_BODY := t];
      body := Some(t);
      return Success(t);
    }

    /** The page head: the composed `head` local, kept in the head slot. */
    method GetHead() returns (r: Result<Template, Error>)
      requires Valid()
      modifies this`locals, this`head
      ensures Valid() && globals == old(globals) && body == old(body)
      ensures old(head).Some? ==> r == Success(old(head).value) && locals == old(locals) && head == old(head)
      ensures old(head).None? && TEMPLATE_HEAD !in old(locals) ==>
        r == Failure(DraftNoTemplateError) && locals == old(locals) && head == None
      ensures old(head).None? && TEMPLATE_HEAD in old(locals) ==>
        var t := Composed(old(locals)[TEMPLATE_HEAD], globals, old(locals));
        r == Success(t) && head == Some(t) && locals == old(locals)[TEMPLATE_HEAD := t]
    {
      if head.Some? {
        return Success(head.value);
      }
      if TEMPLATE_HEAD !in locals {
        return Failure(DraftNoTemplateError);
      }
      var t := Graft(locals[TEMPLATE_HEAD]);
      locals := locals[TEMPLATE_HEAD := t];
      head := Some(t);
      return Success(t);
    }
  }

  /** NewTemplateContext(path) followed by Parse: the fresh context and the error Parse reports. */
  method NewParsed(fsys: FileSystem, path: string) returns (context: TemplateContext, err: Option<Error>)
    ensures fresh(context) && context.Valid()
    ensures context.State() == ParsedValue(fsys, path)
    ensures err == ParseDir(fsys, path, Index(map[], map[])).err
  {
    context := new TemplateContext(path);
    err := context.Parse(fsys);
  }

  // ---------------------------------------------------------------------------
  // Properties

  /** The patterns come in format order, each format giving `_components/`, `components/` and the directory itself. */
  lemma {:induction false} GlobsOrder(formats: seq<string>, i: nat)
    requires i < |formats|
    ensures |GlobsOf(formats)| == 3 * |formats|
    ensures GlobsOf(formats)[3 * i] == Glob("_components", formats[i])
    ensures GlobsOf(formats)[3 * i + 1] == Glob("components", formats[i])
    ensures GlobsOf(formats)[3 * i + 2] == Glob("", formats[i])
  {
    var n := |formats| - 1;
    if i < n {
      GlobsOrder(formats[..n], i);
      assert formats[..n][i] == formats[i];
    } else {
      if n > 0 {
        GlobsOrder(formats[..n], 0);
      }
    }
  }

  /** A pattern yields globals exactly when it lists the `_components` directory. */
  lemma GlobalPattern(formats: seq<string>, j: nat)
    requires j < |GlobsOf(formats)|
    ensures HasPrefix(GlobText(GlobsOf(formats)[j]), TEMPLATE_GLOBAL_PREFIX) <==> GlobsOf(formats)[j].dir == "_components"
  {
    GlobsLength(formats);
    var i := j / 3;
    GlobsOrder(formats, i);
    assert j == 3 * i || j == 3 * i + 1 || j == 3 * i + 2;
    var g := GlobsOf(formats)[j];
    if g.dir == "components" {
      assert GlobText(g)[0] == 'c';
    } else if g.dir == "" {
      assert GlobText(g)[0] == '*';
    }
  }

  lemma {:induction false} GlobsLength(formats: seq<string>)
    ensures |GlobsOf(formats)| == 3 * |formats|
  {
    if formats != [] {
      GlobsLength(formats[..|formats| - 1]);
    }
  }

  /** The map a pattern records into: the globals for a global pattern, the locals otherwise. */
  function Side(idx: Index, global: bool): map<string, Template>
  {
    if global then idx.globals else idx.locals
  }

  /** Whether match `e` yields a template named `k`. */
  predicate Yields(fsys: FileSystem, dir: string, e: Entry, k: string)
  {
    LoadMatch(fsys, dir, e).Some? && LoadMatch(fsys, dir, e).value.name == k
  }

  /**
   * A pattern's matches leave the other map alone, and record a name exactly when
   * it was there before or some match that loads yields it: a match that is a
   * directory or an unreadable or unparsable file is passed over.
   */
  lemma {:induction false} IndexMatchesKeys(fsys: FileSystem, dir: string, global: bool, idx: Index, matches: seq<Entry>, k: string)
    ensures Side(IndexMatches(fsys, dir, global, idx, matches), !global) == Side(idx, !global)
    ensures k in Side(IndexMatches(fsys, dir, global, idx, matches), global) <==>
      k in Side(idx, global) || exists i | 0 <= i < |matches| :: Yields(fsys, dir, matches[i], k)
  {
    if matches != [] {
      var n := |matches| - 1;
      var prev := IndexMatches(fsys, dir, global, idx, matches[..n]);
      IndexMatchesKeys(fsys, dir, global, idx, matches[..n], k);
      MatchStepKeys(fsys, dir, global, prev, matches[n], k);
      SomeYieldsSnoc(fsys, dir, matches[..n], matches, k);
    }
  }

  /** Some match of a non-empty list yields `k` exactly when one before the last does or the last does. */
  lemma SomeYieldsSnoc(fsys: FileSystem, dir: string, prefix: seq<Entry>, matches: seq<Entry>, k: string)
    requires matches != [] && prefix == matches[..|matches| - 1]
    ensures (exists i | 0 <= i < |matches| :: Yields(fsys, dir, matches[i], k)) <==>
      (exists i | 0 <= i < |prefix| :: Yields(fsys, dir, prefix[i], k)) || Yields(fsys, dir, matches[|matches| - 1], k)
  {
    if exists i | 0 <= i < |prefix| :: Yields(fsys, dir, prefix[i], k) {
      var i :| 0 <= i < |prefix| && Yields(fsys, dir, prefix[i], k);
      assert matches[i] == prefix[i];
    }
    if exists i | 0 <= i < |matches| :: Yields(fsys, dir, matches[i], k) {
      var i :| 0 <= i < |matches| && Yields(fsys, dir, matches[i], k);
      if i < |prefix| { assert prefix[i] == matches[i]; }
    }
  }

  /** One match leaves the other map alone and adds at most the name it yields. */
  lemma MatchStepKeys(fsys: FileSystem, dir: string, global: bool, prev: Index, e: Entry, k: string)
    ensures Side(MatchStep(fsys, dir, global, prev, e), !global) == Side(prev, !global)
    ensures k in Side(MatchStep(fsys, dir, global, prev, e), global) <==> k in Side(prev, global) || Yields(fsys, dir, e, k)
  {
  }

  /** The last match yielding a name decides the template recorded under it. */
  lemma {:induction false} IndexMatchesLastWins(fsys: FileSystem, dir: string, global: bool, idx: Index, matches: seq<Entry>, i: nat)
    requires i < |matches| && LoadMatch(fsys, dir, matches[i]).Some?
    requires forall j | i < j < |matches| :: !Yields(fsys, dir, matches[j], LoadMatch(fsys, dir, matches[i]).value.name)
    ensures var t := LoadMatch(fsys, dir, matches[i]).value;
      t.name in Side(IndexMatches(fsys, dir, global, idx, matches), global)
      && Side(IndexMatches(fsys, dir, global, idx, matches), global)[t.name] == t
  {
    var n := |matches| - 1;
    if i < n {
      assert matches[..n][i] == matches[i];
      forall j | i < j < n ensures !Yields(fsys, dir, matches[..n][j], LoadMatch(fsys, dir, matches[i]).value.name) {
        assert matches[..n][j] == matches[j];
      }
      IndexMatchesLastWins(fsys, dir, global, idx, matches[..n], i);
    }
  }

  /** Indexing keeps every template under its own name. */
  lemma {:induction false} IndexMatchesNamed(fsys: FileSystem, dir: string, global: bool, idx: Index, matches: seq<Entry>)
    requires Named(idx.locals) && Named(idx.globals)
    ensures Named(IndexMatches(fsys, dir, global, idx, matches).locals)
    ensures Named(IndexMatches(fsys, dir, global, idx, matches).globals)
  {
    if matches != [] {
      IndexMatchesNamed(fsys, dir, global, idx, matches[..|matches| - 1]);
    }
  }

  lemma {:induction false} IndexGlobsNamed(fsys: FileSystem, root: string, globs: seq<Glob>, idx: Index)
    requires Named(idx.locals) && Named(idx.globals)
    ensures Named(IndexGlobs(fsys, root, globs, idx).locals)
    ensures Named(IndexGlobs(fsys, root, globs, idx).globals)
  {
    if globs != [] {
      var g := globs[|globs| - 1];
      IndexGlobsNamed(fsys, root, globs[..|globs| - 1], idx);
      IndexMatchesNamed(fsys, GlobDir(root, g), HasPrefix(GlobText(g), TEMPLATE_GLOBAL_PREFIX),
                        IndexGlobs(fsys, root, globs[..|globs| - 1], idx), GlobMatches(fsys, root, g));
      assert IndexGlobs(fsys, root, globs, idx) == GlobStep(fsys, root, IndexGlobs(fsys, root, globs[..|globs| - 1], idx), g);
    }
  }

  /**
   * After grafting, the namespace defines every global and every local; a local
   * replaces a global of the same name, and the template's own definitions stay
   * only where neither map has the name.
   */
  lemma ComposedResolves(t: Template, globals: map<string, Template>, locals: map<string, Template>, k: string)
    ensures var d := Composed(t, globals, locals).defs;
      && (k in d <==> k in t.defs || k in globals || k in locals)
      && (k in locals ==> d[k] == locals[k].tree)
      && (k !in locals && k in globals ==> d[k] == globals[k].tree)
      && (k !in locals && k !in globals && k in t.defs ==> d[k] == t.defs[k])
  {
  }

  /** A composed template keeps its name and its own tree, so grafting it again under its name is harmless. */
  lemma ComposedKeepsIdentity(t: Template, globals: map<string, Template>, locals: map<string, Template>)
    ensures Composed(t, globals, locals).name == t.name && Composed(t, globals, locals).tree == t.tree
  {
  }
}
