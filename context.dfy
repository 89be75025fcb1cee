/**
 * The per-directory template context of templatingv2/templating/context.go.
 *
 * A context indexes the template files of one directory (and of its `components`
 * sub-directory) by template name, separately for locals and for globals (files
 * whose name starts with `_`); the values are file-system paths. Compiling a
 * context reads and parses every indexed file into one namespace, globals
 * first and then locals, and memoises the namespace in `cache`.
 */
module Context {
  import opened Wrappers
  import opened Errors
  import opened Paths
  import opened Externals

  const TEMPLATE_FORMATS: seq<string> := [".html", ".tmpl", ".gotmpl", ".gotemplate", ".gohtml", ".gohtmltemplate"]
  const TEMPLATE_GLOBAL_PREFIX: string := "_"
  const TEMPLATE_COMPONENT_DIRECTORY: string := "components"

  /** A template file met while parsing: its template name, its path, and whether it is global. */
  datatype Candidate = Candidate(key: string, file: string, global: bool)

  /** What an entry named `name` in directory `dir` contributes: nothing unless its extension is a template format. */
  function FileCandidate(dir: string, name: string): seq<Candidate>
  {
    var ext := Ext(name);
    if ext !in TEMPLATE_FORMATS then []
    else [Candidate(TrimSuffix(name, ext), Join(dir, name), HasPrefix(name, TEMPLATE_GLOBAL_PREFIX))]
  }

  /** The candidates of a `components` listing, in listing order (its entries are not checked for being directories). */
  function ComponentCandidates(dir: string, entries: seq<Entry>): seq<Candidate>
  {
    if entries == [] then []
    else ComponentCandidates(dir, entries[..|entries| - 1]) + FileCandidate(dir, entries[|entries| - 1].name)
  }

  /** The candidates met so far and the error that stopped the scan, if any. */
  datatype Scan = Scan(cands: seq<Candidate>, err: Option<Error>)

  /**
   * The scan of a directory's entries: a directory named `components` is listed one
   * level deep (a failed listing stops the scan); every other entry, directories
   * included, is judged by its extension.
   */
  function ScanEntries(fsys: FileSystem, fspath: string, entries: seq<Entry>): Scan
  {
    if entries == [] then Scan([], None)
    else ScanStep(fsys, fspath, ScanEntries(fsys, fspath, entries[..|entries| - 1]), entries[|entries| - 1])
  }

  /** One entry of the scan; nothing happens after a failure. */
  function ScanStep(fsys: FileSystem, fspath: string, prev: Scan, e: Entry): Scan
  {
    if prev.err.Some? then prev
    else if e.isDir && e.name == TEMPLATE_COMPONENT_DIRECTORY then
      var cdir := Join(fspath, e.name);
      match ReadDir(fsys, cdir)
      case None => Scan(prev.cands, Some(NewError(FileAccessError, cdir)))
      case Some(sub) => Scan(prev.cands + ComponentCandidates(cdir, sub), None)
    else Scan(prev.cands + FileCandidate(fspath, e.name), None)
  }

  /** `m` after recording, in order, every candidate of the given kind (a later one replaces an earlier same-named one). */
  function Overlay(m: map<string, string>, cands: seq<Candidate>, global: bool): map<string, string>
  {
    if cands == [] then m
    else
      var prev := Overlay(m, cands[..|cands| - 1], global);
      var c := cands[|cands| - 1];
      if c.global == global then prev[c.key := c.file] else prev
  }

  /** The value of a TemplateContext struct. */
  datatype ContextState = ContextState(
    Path: string,
    locals: map<string, string>,
    globals: map<string, string>,
    cache: Namespace?)

  datatype ParseResult = ParseResult(err: Option<Error>, state: ContextState)

  /** What `Parse` returns and leaves behind, starting from state `s`. */
  function ParseOutcome(fsys: FileSystem, codec: PathCodec, s: ContextState): ParseResult
  {
    var fspath := codec.routeToFS(s.Path);
    match ReadDir(fsys, fspath)
    case None => ParseResult(Some(NewError(InvalidPathError, s.Path)), s)
    case Some(entries) =>
      var scan := ScanEntries(fsys, fspath, entries);
      ParseResult(scan.err, s.(locals := Overlay(s.locals, scan.cands, false),
                                globals := Overlay(s.globals, scan.cands, true)))
  }

  /** The state of NewTemplateContext(path). */
  function Empty(path: string): ContextState
  {
    ContextState(path, map[], map[], null)
  }

  /** fs.ReadFile followed by template parsing of one indexed file. */
  function Load(fsys: FileSystem, path: string): (r: Result<Tree, Error>)
    ensures path !in fsys.files ==> r == Failure(NewError(FileAccessError, path))
    ensures path in fsys.files ==> (r.Success? <==> fsys.files[path].Parsed?)
  {
    if path !in fsys.files then Failure(NewError(FileAccessError, path))
    else match fsys.files[path]
      case Parsed(tree) => Success(tree)
      case Malformed(reason) => Failure(TemplateSyntax(reason))
  }

  ghost predicate AllLoadable(fsys: FileSystem, paths: map<string, string>)
  {
    forall k | k in paths :: Load(fsys, paths[k]).Success?
  }

  /** The trees of an index whose files all load, under their template names. */
  function Trees(fsys: FileSystem, paths: map<string, string>): map<string, Tree>
    requires AllLoadable(fsys, paths)
  {
    map k | k in paths :: Load(fsys, paths[k]).value
  }

  /** `e` is the failure of loading one of the indexed files. */
  ghost predicate LoadErrorOf(fsys: FileSystem, paths: map<string, string>, e: Error)
  {
    exists k | k in paths :: Load(fsys, paths[k]) == Failure(e)
  }

  ghost predicate Compiles(fsys: FileSystem, globals: map<string, string>, locals: map<string, string>)
  {
    AllLoadable(fsys, globals) && AllLoadable(fsys, locals)
  }

  /** The compiled namespace: every global, then every local over it. */
  function Compiled(fsys: FileSystem, globals: map<string, string>, locals: map<string, string>): map<string, Tree>
    requires Compiles(fsys, globals, locals)
  {
    Trees(fsys, globals) + Trees(fsys, locals)
  }

  /** Globals are read first, so a failing global is reported before any local is read. */
  ghost predicate CompileError(fsys: FileSystem, globals: map<string, string>, locals: map<string, string>, e: Error)
  {
    if AllLoadable(fsys, globals) then LoadErrorOf(fsys, locals, e) else LoadErrorOf(fsys, globals, e)
  }

  /**
   * readTemplates: loads every indexed file into `t`, stopping at the first one that
   * cannot be read or parsed (the map is visited in no fixed order).
   */
  method ReadTemplates(fsys: FileSystem, t: Namespace, paths: map<string, string>) returns (r: Result<Namespace, Error>)
    modifies t
    ensures r.Success? <==> AllLoadable(fsys, paths)
    ensures r.Success? ==> r.value == t && t.trees == old(t.trees) + Trees(fsys, paths)
    ensures r.Failure? ==> LoadErrorOf(fsys, paths, r.error)
  {
    var rest := paths.Keys;
    ghost var done: set<string> := {};
    while rest != {}
      invariant rest + done == paths.Keys && rest !! done
      invariant forall k | k in done :: Load(fsys, paths[k]).Success?
      invariant t.trees == old(t.trees) + map k | k in done :: Load(fsys, paths[k]).value
      decreases rest
    {
      var k :| k in rest;
      var loaded := Load(fsys, paths[k]);
      if loaded.Failure? {
        return Failure(loaded.error);
      }
      t.AddParseTree(k, loaded.value);
      rest, done := rest - {k}, done + {k};
    }
    assert done == paths.Keys;
    return Success(t);
  }

  class TemplateContext {
    /** The route path of the directory (not a file-system path). */
    const Path: string
    /** Template name to file path, for the directory's own non-global files. */
    var locals: map<string, string>
    /** Template name to file path, for global files, own and inherited. */
    var globals: map<string, string>
    /** The compiled namespace, once a compile succeeded. */
    var cache: Namespace?

    function State(): ContextState
      reads this
    {
      ContextState(Path, locals, globals, cache)
    }

    /** NewTemplateContext(path) */
    constructor (path: string)
      ensures State() == Empty(path)
    {
      Path, locals, globals, cache := path, map[], map[], null;
    }

    /** The copy Go makes when a TemplateContext value is read out of a map. */
    constructor Copy(s: ContextState)
      ensures State() == s
    {
      Path, locals, globals, cache := s.Path, s.locals, s.globals, s.cache;
    }

    /** Indexes the directory `PathToFSPath(Path)` into `locals` and `globals`. */
    method Parse(fsys: FileSystem, codec: PathCodec) returns (err: Option<Error>)
      modifies this`locals, this`globals
      ensures ParseResult(err, State()) == ParseOutcome(fsys, codec, old(State()))
    {
      var fspath := codec.routeToFS(Path);
      var listing := ReadDir(fsys, fspath);
      if listing.None? {
        return Some(NewError(InvalidPathError, Path));
      }
      var entries := listing.value;
      ghost var l0, g0 := locals, globals;
      var i := 0;
      while i < |entries|
        invariant 0 <= i <= |entries|
        invariant ScanEntries(fsys, fspath, entries[..i]).err.None?
        invariant locals == Overlay(l0, ScanEntries(fsys, fspath, entries[..i]).cands, false)
        invariant globals == Overlay(g0, ScanEntries(fsys, fspath, entries[..i]).cands, true)
      {
        assert entries[..i + 1][..i] == entries[..i];
        assert ScanEntries(fsys, fspath, entries[..i + 1])
            == ScanStep(fsys, fspath, ScanEntries(fsys, fspath, entries[..i]), entries[i]);
        err := IndexEntry(fsys, fspath, entries[i], ScanEntries(fsys, fspath, entries[..i]).cands, l0, g0);
        if err.Some? {
          ScanErrorSticks(fsys, fspath, entries, i + 1);
          return;
        }
        i := i + 1;
      }
      assert entries[..i] == entries;
      return None;
    }

    /** The body of Parse's loop for one entry `e` of directory `fspath`, after the candidates `prev`. */
    method IndexEntry(fsys: FileSystem, fspath: string, e: Entry, ghost prev: seq<Candidate>,
                      ghost l0: map<string, string>, ghost g0: map<string, string>) returns (err: Option<Error>)
      requires locals == Overlay(l0, prev, false) && globals == Overlay(g0, prev, true)
      modifies this`locals, this`globals
      ensures var next := ScanStep(fsys, fspath, Scan(prev, None), e);
        && err == next.err
        && locals == Overlay(l0, next.cands, false) && globals == Overlay(g0, next.cands, true)
    {
      if e.isDir && e.name == TEMPLATE_COMPONENT_DIRECTORY {
        var cdir := Join(fspath, e.name);
        var sub := ReadDir(fsys, cdir);
        if sub.None? {
          return Some(NewError(FileAccessError, cdir));
        }
        IndexComponents(cdir, sub.value);
        OverlayAppend(l0, prev, ComponentCandidates(cdir, sub.value), false);
        OverlayAppend(g0, prev, ComponentCandidates(cdir, sub.value), true);
      } else {
        IndexFile(fspath, e.name);
        OverlayAppend(l0, prev, FileCandidate(fspath, e.name), false);
        OverlayAppend(g0, prev, FileCandidate(fspath, e.name), true);
      }
      return None;
    }

    /** The body of Parse's loops for one entry `name` of directory `dir`. */
    method IndexFile(dir: string, name: string)
      modifies this`locals, this`globals
      ensures locals == Overlay(old(locals), FileCandidate(dir, name), false)
      ensures globals == Overlay(old(globals), FileCandidate(dir, name), true)
    {
      var ext := Ext(name);
      if ext in TEMPLATE_FORMATS {
        var key := TrimSuffix(name, ext);
        assert FileCandidate(dir, name)[..0] == [];
        if HasPrefix(name, TEMPLATE_GLOBAL_PREFIX) {
          globals := globals[key := Join(dir, name)];
        } else {
          locals := locals[key := Join(dir, name)];
        }
      }
    }

    /** The inner loop of Parse over the listing of `components`. */
    method IndexComponents(cdir: string, sub: seq<Entry>)
      modifies this`locals, this`globals
      ensures locals == Overlay(old(locals), ComponentCandidates(cdir, sub), false)
      ensures globals == Overlay(old(globals), ComponentCandidates(cdir, sub), true)
    {
      var j := 0;
      assert sub[..0] == [];
      while j < |sub|
        invariant 0 <= j <= |sub|
        invariant locals == Overlay(old(locals), ComponentCandidates(cdir, sub[..j]), false)
        invariant globals == Overlay(old(globals), ComponentCandidates(cdir, sub[..j]), true)
      {
        assert sub[..j + 1][..j] == sub[..j];
        OverlayAppend(old(locals), ComponentCandidates(cdir, sub[..j]), FileCandidate(cdir, sub[j].name), false);
        OverlayAppend(old(globals), ComponentCandidates(cdir, sub[..j]), FileCandidate(cdir, sub[j].name), true);
        IndexFile(cdir, sub[j].name);
        j := j + 1;
      }
      assert sub[..j] == sub;
    }

    /** Installs every entry of `m` into `globals`, replacing same-named ones; never fails. */
    method SetGlobals(m: map<string, string>) returns (err: Option<Error>)
      modifies this`globals
      ensures globals == old(globals) + m
      ensures err == None
    {
      var rest := m.Keys;
      while rest != {}
        invariant rest <= m.Keys
        invariant globals == old(globals) + map k | k in m.Keys - rest :: m[k]
        decreases rest
      {
        var k :| k in rest;
        globals := globals[k := m[k]];
        rest := rest - {k};
      }
      return None;
    }

    function GetGlobals(): (g: map<string, string>)
      reads this
      ensures g == globals
    {
      globals
    }

    /** Compiles into the caller's namespace `t` and caches `t`; on a cache hit `t` is ignored. */
    method Add(fsys: FileSystem, t: Namespace) returns (r: Result<Namespace, Error>)
      modifies this`cache, t
      ensures old(cache) != null ==> r == Success(old(cache)) && cache == old(cache) && unchanged(t)
      ensures old(cache) == null ==> (r.Success? <==> Compiles(fsys, globals, locals))
      ensures old(cache) == null && r.Success? ==>
        r.value == t && cache == t && t.trees == old(t.trees) + Compiled(fsys, globals, locals)
      ensures old(cache) == null && r.Failure? ==> cache == null && CompileError(fsys, globals, locals, r.error)
    {
      if cache != null {
        return Success(cache);
      }
      r := Compile(fsys, t);
      if r.Success? {
        cache := t;
      }
    }

    /** Both passes of readTemplates into `t`: the globals first, then the locals over them. */
    method Compile(fsys: FileSystem, t: Namespace) returns (r: Result<Namespace, Error>)
      modifies t
      ensures r.Success? <==> Compiles(fsys, globals, locals)
      ensures r.Success? ==> r.value == t && t.trees == old(t.trees) + Compiled(fsys, globals, locals)
      ensures r.Failure? ==> CompileError(fsys, globals, locals, r.error)
    {
      ghost var t0 := t.trees;
      r := ReadTemplates(fsys, t, globals);
      if r.Failure? {
        return Failure(r.error);
      }
      ghost var t1 := t.trees;
      r := ReadTemplates(fsys, t, locals);
      if r.Failure? {
        return Failure(r.error);
      }
      assert t.trees == t1 + Trees(fsys, locals);
      assert t1 == t0 + Trees(fsys, globals);
    }

    /** Same as Get: it names the fresh namespace after `Path`. */
    method GetByName(fsys: FileSystem) returns (r: Result<Namespace, Error>)
      modifies this`cache
      ensures old(cache) != null ==> r == Success(old(cache)) && cache == old(cache)
      ensures old(cache) == null ==> (r.Success? <==> Compiles(fsys, globals, locals))
      ensures old(cache) == null && r.Success? ==>
        fresh(r.value) && r.value.name == Path && r.value.trees == Compiled(fsys, globals, locals) && cache == r.value
      ensures old(cache) == null && r.Failure? ==> cache == null && CompileError(fsys, globals, locals, r.error)
    {
      r := Get(fsys);
    }

    /** The compiled namespace of this directory, built on the first successful call and cached. */
    method Get(fsys: FileSystem) returns (r: Result<Namespace, Error>)
      modifies this`cache
      ensures old(cache) != null ==> r == Success(old(cache)) && cache == old(cache)
      ensures old(cache) == null ==> (r.Success? <==> Compiles(fsys, globals, locals))
      ensures old(cache) == null && r.Success? ==>
        fresh(r.value) && r.value.name == Path && r.value.trees == Compiled(fsys, globals, locals) && cache == r.value
      ensures old(cache) == null && r.Failure? ==> cache == null && CompileError(fsys, globals, locals, r.error)
    {
      if cache != null {
        return Success(cache);
      }
      var t := new Namespace(Path);
      r := Compile(fsys, t);
      if r.Success? {
        cache := t;
      }
    }
  }

  // ---------------------------------------------------------------------------
  // Properties of the index

  lemma {:induction false} OverlayAppend(m: map<string, string>, a: seq<Candidate>, b: seq<Candidate>, global: bool)
    ensures Overlay(m, a + b, global) == Overlay(Overlay(m, a, global), b, global)
  {
    if b == [] {
      assert a + b == a;
    } else {
      assert (a + b)[..|a + b| - 1] == a + b[..|b| - 1];
      OverlayAppend(m, a, b[..|b| - 1], global);
    }
  }

  /** Whatever a map held before, the recorded candidates sit on top of it: files parsed later override installed entries. */
  lemma {:induction false} OverlayOnTop(m: map<string, string>, cands: seq<Candidate>, global: bool)
    ensures Overlay(m, cands, global) == m + Overlay(map[], cands, global)
  {
    if cands != [] {
      OverlayOnTop(m, cands[..|cands| - 1], global);
    }
  }

  /** A name is indexed exactly when it was there before or some candidate of that kind has it. */
  lemma {:induction false} OverlayKeys(m: map<string, string>, cands: seq<Candidate>, global: bool, k: string)
    ensures k in Overlay(m, cands, global) <==>
      k in m || exists i | 0 <= i < |cands| :: cands[i].global == global && cands[i].key == k
  {
    if cands != [] {
      var n := |cands| - 1;
      OverlayKeys(m, cands[..n], global, k);
      if exists i | 0 <= i < n :: cands[..n][i].global == global && cands[..n][i].key == k {
        var i :| 0 <= i < n && cands[..n][i].global == global && cands[..n][i].key == k;
        assert cands[i] == cands[..n][i];
      }
      if exists i | 0 <= i < |cands| :: cands[i].global == global && cands[i].key == k {
        var i :| 0 <= i < |cands| && cands[i].global == global && cands[i].key == k;
        if i < n { assert cands[..n][i] == cands[i]; }
      }
    }
  }

  /** The last candidate of a name decides its entry: a later file replaces an earlier same-named one. */
  lemma {:induction false} OverlayLastWins(m: map<string, string>, cands: seq<Candidate>, global: bool, i: nat)
    requires i < |cands| && cands[i].global == global
    requires forall j | i < j < |cands| :: !(cands[j].global == global && cands[j].key == cands[i].key)
    ensures cands[i].key in Overlay(m, cands, global)
    ensures Overlay(m, cands, global)[cands[i].key] == cands[i].file
  {
    var n := |cands| - 1;
    if i < n {
      OverlayLastWins(m, cands[..n], global, i);
    }
  }

  /** A candidate made from a file named `key + ext` in `dir`, global exactly when the name starts with `_`. */
  ghost predicate FromFile(dir: string, c: Candidate)
  {
    && (c.global <==> HasPrefix(c.key, TEMPLATE_GLOBAL_PREFIX))
    && exists ext | ext in TEMPLATE_FORMATS :: c.file == Join(dir, c.key + ext)
  }

  lemma FileCandidateShape(dir: string, name: string)
    ensures forall c | c in FileCandidate(dir, name) :: FromFile(dir, c) && c.key + Ext(name) == name
  {
    var ext := Ext(name);
    if ext in TEMPLATE_FORMATS {
      FileCandidateOf(dir, name);
      var c := FileCandidate(dir, name)[0];
      assert ext != "" && ext[0] == '.';
      ExtSplitsName(name);
      assert c.key + ext == name;
      GlobalByKey(c.key, ext);
      assert c.file == Join(dir, c.key + ext);
    }
  }

  /** Appending an extension does not change whether a name starts with the global prefix. */
  lemma GlobalByKey(key: string, ext: string)
    requires ext != "" && ext[0] == '.'
    ensures HasPrefix(key + ext, TEMPLATE_GLOBAL_PREFIX) <==> HasPrefix(key, TEMPLATE_GLOBAL_PREFIX)
  {
    if |key| == 0 {
      assert key + ext == ext;
    } else {
      assert (key + ext)[0] == key[0];
    }
  }

  lemma {:induction false} ComponentCandidatesShape(dir: string, entries: seq<Entry>)
    ensures forall c | c in ComponentCandidates(dir, entries) :: FromFile(dir, c)
  {
    if entries != [] {
      ComponentCandidatesShape(dir, entries[..|entries| - 1]);
      FileCandidateShape(dir, entries[|entries| - 1].name);
    }
  }

  /**
   * Every indexed file has a template extension and is keyed by its name without it;
   * it is global exactly when that key starts with `_`; it lies in the directory or
   * in its `components` sub-directory.
   */
  lemma {:induction false} ScanShape(fsys: FileSystem, fspath: string, entries: seq<Entry>)
    ensures forall c | c in ScanEntries(fsys, fspath, entries).cands ::
      FromFile(fspath, c) || FromFile(Join(fspath, TEMPLATE_COMPONENT_DIRECTORY), c)
  {
    if entries != [] {
      var e := entries[|entries| - 1];
      ScanShape(fsys, fspath, entries[..|entries| - 1]);
      FileCandidateShape(fspath, e.name);
      var cdir := Join(fspath, TEMPLATE_COMPONENT_DIRECTORY);
      if cdir in fsys.dirs {
        ComponentCandidatesShape(cdir, fsys.dirs[cdir]);
      }
    }
  }

  /** Once the scan has failed, later entries change nothing. */
  lemma {:induction false} ScanErrorSticks(fsys: FileSystem, fspath: string, entries: seq<Entry>, i: nat)
    requires i <= |entries|
    requires ScanEntries(fsys, fspath, entries[..i]).err.Some?
    ensures ScanEntries(fsys, fspath, entries) == ScanEntries(fsys, fspath, entries[..i])
  {
    if i < |entries| {
      var n := |entries| - 1;
      assert entries[..n][..i] == entries[..i];
      ScanErrorSticks(fsys, fspath, entries[..n], i);
    } else {
      assert entries[..i] == entries;
    }
  }

  /** Every top-level template file of a directory whose scan succeeded is indexed under its name without extension. */
  lemma {:induction false} ScanFindsFiles(fsys: FileSystem, fspath: string, entries: seq<Entry>, i: nat)
    requires i < |entries|
    requires ScanEntries(fsys, fspath, entries).err.None?
    requires !(entries[i].isDir && entries[i].name == TEMPLATE_COMPONENT_DIRECTORY)
    requires Ext(entries[i].name) in TEMPLATE_FORMATS
    ensures Candidate(TrimSuffix(entries[i].name, Ext(entries[i].name)), Join(fspath, entries[i].name),
                      HasPrefix(entries[i].name, TEMPLATE_GLOBAL_PREFIX)) in ScanEntries(fsys, fspath, entries).cands
  {
    var n := |entries| - 1;
    var prev := ScanEntries(fsys, fspath, entries[..n]);
    assert ScanEntries(fsys, fspath, entries) == ScanStep(fsys, fspath, prev, entries[n]);
    assert prev.err.None?;
    if i < n {
      assert entries[..n][i] == entries[i];
      ScanFindsFiles(fsys, fspath, entries[..n], i);
      ScanStepKeeps(fsys, fspath, prev, entries[n]);
    } else {
      assert i == n;
      FileCandidateOf(fspath, entries[i].name);
    }
  }

  lemma FileCandidateOf(dir: string, name: string)
    requires Ext(name) in TEMPLATE_FORMATS
    ensures FileCandidate(dir, name) == [Candidate(TrimSuffix(name, Ext(name)), Join(dir, name), HasPrefix(name, TEMPLATE_GLOBAL_PREFIX))]
  {
  }

  lemma ScanStepKeeps(fsys: FileSystem, fspath: string, prev: Scan, e: Entry)
    ensures forall c | c in prev.cands :: c in ScanStep(fsys, fspath, prev, e).cands
  {
  }

  /** A failed scan is a failed `components` listing, reported with the sub-directory's path. */
  lemma {:induction false} ScanErrorIsComponents(fsys: FileSystem, fspath: string, entries: seq<Entry>)
    requires ScanEntries(fsys, fspath, entries).err.Some?
    ensures var cdir := Join(fspath, TEMPLATE_COMPONENT_DIRECTORY);
      && cdir !in fsys.dirs
      && ScanEntries(fsys, fspath, entries).err == Some(NewError(FileAccessError, cdir))
  {
    var n := |entries| - 1;
    if ScanEntries(fsys, fspath, entries[..n]).err.Some? {
      ScanErrorIsComponents(fsys, fspath, entries[..n]);
    }
  }

  /**
   * Parsing overlays the directory's own files on whatever was installed before:
   * an inherited global installed first loses to an own global of the same name,
   * and the locals are the ones installed plus the directory's own.
   */
  lemma ParseOverridesInstalled(fsys: FileSystem, codec: PathCodec, s: ContextState)
    ensures var own := ParseOutcome(fsys, codec, Empty(s.Path)).state;
      var after := ParseOutcome(fsys, codec, s).state;
      && after.globals == s.globals + own.globals
      && after.locals == s.locals + own.locals
      && ParseOutcome(fsys, codec, s).err == ParseOutcome(fsys, codec, Empty(s.Path)).err
  {
    var fspath := codec.routeToFS(s.Path);
    if fspath in fsys.dirs {
      var scan := ScanEntries(fsys, fspath, fsys.dirs[fspath]);
      OverlayOnTop(s.globals, scan.cands, true);
      OverlayOnTop(s.locals, scan.cands, false);
    }
  }

  /** Parsing changes only the two indexes: the route path and the cache stay. */
  lemma ParseKeepsIdentity(fsys: FileSystem, codec: PathCodec, s: ContextState)
    ensures ParseOutcome(fsys, codec, s).state.Path == s.Path
    ensures ParseOutcome(fsys, codec, s).state.cache == s.cache
  {
  }

  /** From a fresh context, every global key starts with `_` and no local key does. */
  lemma ParsedKeysByPrefix(fsys: FileSystem, codec: PathCodec, path: string)
    ensures var st := ParseOutcome(fsys, codec, Empty(path)).state;
      && (forall k | k in st.globals :: HasPrefix(k, TEMPLATE_GLOBAL_PREFIX))
      && (forall k | k in st.locals :: !HasPrefix(k, TEMPLATE_GLOBAL_PREFIX))
  {
    var fspath := codec.routeToFS(path);
    if fspath in fsys.dirs {
      var cands := ScanEntries(fsys, fspath, fsys.dirs[fspath]).cands;
      ScanShape(fsys, fspath, fsys.dirs[fspath]);
      var st := ParseOutcome(fsys, codec, Empty(path)).state;
      forall k | k in st.globals ensures HasPrefix(k, TEMPLATE_GLOBAL_PREFIX) {
        OverlayKeys(map[], cands, true, k);
        var i :| 0 <= i < |cands| && cands[i].global && cands[i].key == k;
        assert cands[i] in cands;
      }
      forall k | k in st.locals ensures !HasPrefix(k, TEMPLATE_GLOBAL_PREFIX) {
        OverlayKeys(map[], cands, false, k);
        var i :| 0 <= i < |cands| && !cands[i].global && cands[i].key == k;
        assert cands[i] in cands;
      }
    }
  }

  /** A locally defined name always shows its own tree in the compiled namespace, whatever global shares its name. */
  lemma LocalShadowsGlobal(fsys: FileSystem, globals: map<string, string>, locals: map<string, string>, k: string)
    requires Compiles(fsys, globals, locals) && k in locals
    ensures Compiled(fsys, globals, locals)[k] == Load(fsys, locals[k]).value
  {
  }
}
