/**
 * The route registry of templatingv2/templating/tregistry.go.
 *
 * `Parse` walks the routes file system once and stores one context value per
 * directory under its route path; before a directory parses its own files it
 * receives the globals of its parent directory, so its own `_` files win.
 * `Add` compiles a route on first use, caches the namespace, and grafts it into
 * a namespace the caller supplies (the layout being composed with the route).
 */
module TRegistry {
  import opened Wrappers
  import opened Errors
  import opened Paths
  import opened Externals
  import opened Context

  /** The context stored for a directory the walk visits, given the contexts stored so far. */
  function DirContext(fsys: FileSystem, codec: PathCodec, known: map<string, ContextState>, path: string): ContextState
  {
    var url := codec.fsToRoute(path);
    var above := codec.fsToRoute(Parent(path));
    var start := if path != "." && above in known then Empty(url).(globals := map[] + known[above].globals) else Empty(url);
    ParseOutcome(fsys, codec, start).state
  }

  /** The contexts after the walk callback has run on `visits`, in order. */
  function Walk(fsys: FileSystem, codec: PathCodec, visits: seq<Visit>, known: map<string, ContextState>): map<string, ContextState>
  {
    if visits == [] then known
    else
      WalkStep(fsys, codec, Walk(fsys, codec, visits[..|visits| - 1], known), visits[|visits| - 1])
  }

  /** One call of the walk callback: a directory stores its context, a file is passed over. */
  function WalkStep(fsys: FileSystem, codec: PathCodec, prev: map<string, ContextState>, v: Visit): map<string, ContextState>
  {
    if !v.isDir then prev else prev[codec.fsToRoute(v.path) := DirContext(fsys, codec, prev, v.path)]
  }

  /** The grafting loop of Add: every template of `src` is (re)defined in `dst`. */
  method Graft(src: Namespace, dst: Namespace)
    modifies dst
    ensures dst.trees == old(dst.trees) + old(src.trees)
  {
    ghost var s0 := src.trees;
    var rest := src.trees.Keys;
    while rest != {}
      invariant rest <= s0.Keys
      invariant forall k | k in rest :: k in src.trees && src.trees[k] == s0[k]
      invariant dst.trees == old(dst.trees) + map k | k in s0.Keys - rest :: s0[k]
      decreases rest
    {
      var k :| k in rest;
      dst.AddParseTree(k, src.trees[k]);
      rest := rest - {k};
    }
  }

  class TemplateRegistry {
    var routesFS: FileSystem
    var parsed: bool
    /** Directory contexts by route path, stored by value. */
    var templates: map<string, ContextState>
    /** Compiled namespaces by route path; an absent key reads as nil. */
    var cache: map<string, Namespace>
    var funcs: map<string, Func>

    /** An unparsed registry is empty; only known routes are cached; stored contexts are uncompiled. */
    ghost predicate Valid()
      reads this
    {
      && (!parsed ==> templates == map[] && cache == map[])
      && cache.Keys <= templates.Keys
      && (forall k | k in templates :: templates[k].cache == null)
    }

    /** NewTemplateRegistry(routes) */
    constructor (routes: FileSystem)
      ensures Valid()
      ensures routesFS == routes && !parsed && templates == map[] && cache == map[] && funcs == DefaultFuncs
    {
      routesFS, parsed, templates, cache, funcs := routes, false, map[], map[], DefaultFuncs;
    }

    /** A new registry over the merged file system; the receiver is left as it is. */
    method Register(path: string, fsys: FileSystem, merge: (FileSystem, FileSystem) -> FileSystem) returns (r: TemplateRegistry)
      ensures fresh(r) && r.Valid()
      ensures r.routesFS == merge(fsys, routesFS) && !r.parsed && r.templates == map[] && r.cache == map[]
      ensures r.funcs == DefaultFuncs
    {
      r := new TemplateRegistry(merge(fsys, routesFS));
    }

    /** Adds helper functions; supplied names take the new value, no name is removed. */
    method RegisterFuncs(fs: map<string, Func>)
      modifies this`funcs
      ensures funcs == old(funcs) + fs
    {
      funcs := AddFuncs(funcs, fs);
    }

    /** Marks the registry parsed, then stores one context per directory of the walk. */
    method Parse(codec: PathCodec)
      requires Valid()
      modifies this`parsed, this`templates
      ensures Valid() && parsed
      ensures templates == Walk(routesFS, codec, routesFS.walk, old(templates))
    {
      parsed := true;
      var walk := routesFS.walk;
      ghost var known := templates;
      var i := 0;
      while i < |walk|
        invariant 0 <= i <= |walk|
        invariant parsed
        invariant templates == Walk(routesFS, codec, walk[..i], known)
      {
        assert walk[..i + 1][..i] == walk[..i];
        if walk[i].isDir {
          IndexDir(codec, walk[i].path);
        }
        i := i + 1;
      }
      assert walk[..i] == walk;
      WalkGrows(routesFS, codec, walk, known);
    }

    /** The walk callback for one directory: inherit the parent's globals, parse, store by value. */
    method IndexDir(codec: PathCodec, path: string)
      modifies this`templates
      ensures templates == old(templates)[codec.fsToRoute(path) := DirContext(routesFS, codec, old(templates), path)]
    {
      var url := codec.fsToRoute(path);
      var tc := new TemplateContext(url);
      if path != "." {
        var pathelem := Split(path, '/');
        var pathabove := JoinWith(pathelem[..|pathelem| - 1], '/');
        pathabove := codec.fsToRoute(pathabove);
        if pathabove in templates {
          var _ := tc.SetGlobals(templates[pathabove].globals);
        }
      }
      var _ := tc.Parse(routesFS, codec);
      templates := templates[url := tc.State()];
    }

    /**
     * Grafts the namespace of route `path` into `t`, compiling and caching it on
     * first use and parsing the registry once if it was never parsed.
     */
    method Add(path: string, t: Namespace, codec: PathCodec) returns (err: Option<Error>)
      requires Valid()
      modifies this, t
      decreases if parsed then 0 else 1
      ensures Valid() && parsed
      ensures routesFS == old(routesFS) && funcs == old(funcs)
      ensures templates == if old(parsed) then old(templates) else Walk(routesFS, codec, routesFS.walk, old(templates))
      ensures old(path in cache) ==>
        err == None && cache == old(cache) && t.trees == old(t.trees) + old(cache[path].trees)
      ensures old(path !in cache) && path !in templates ==>
        err == Some(NewError(NoTemplateError, path)) && cache == old(cache) && unchanged(t)
      ensures old(path !in cache) && path in templates ==>
        var s := templates[path];
        && (err.None? <==> Compiles(routesFS, s.globals, s.locals))
        && (err.None? ==>
              && path in cache && fresh(cache[path]) && cache == old(cache)[path := cache[path]]
              && cache[path].trees == Compiled(routesFS, s.globals, s.locals)
              && t.trees == old(t.trees) + Compiled(routesFS, s.globals, s.locals))
        && (err.Some? ==> cache == old(cache) && unchanged(t) && CompileError(routesFS, s.globals, s.locals, err.value))
    {
      var temp: Namespace;
      if path in cache {
        temp := cache[path];
      } else {
        if path !in templates {
          if !parsed {
            Parse(codec);
            err := Add(path, t, codec);
            return;
          }
          return Some(NewError(NoTemplateError, path));
        }
        var tc := new TemplateContext.Copy(templates[path]);
        var compiled := tc.Get(routesFS);
        if compiled.Failure? {
          return Some(compiled.error);
        }
        temp := compiled.value;
        cache := cache[path := temp];
      }
      Graft(temp, t);
      return None;
    }

    /** Not implemented by the source: always succeeds. */
    method Get(path: string) returns (err: Option<Error>)
      ensures err == None
    {
      return None;
    }
  }

  // ---------------------------------------------------------------------------
  // Properties of the walk

  /** The walk only adds or replaces routes, and stores every context uncompiled. */
  lemma {:induction false} WalkGrows(fsys: FileSystem, codec: PathCodec, visits: seq<Visit>, known: map<string, ContextState>)
    requires forall k | k in known :: known[k].cache == null
    ensures known.Keys <= Walk(fsys, codec, visits, known).Keys
    ensures forall k | k in Walk(fsys, codec, visits, known) :: Walk(fsys, codec, visits, known)[k].cache == null
  {
    if visits != [] {
      var prev := Walk(fsys, codec, visits[..|visits| - 1], known);
      WalkGrows(fsys, codec, visits[..|visits| - 1], known);
      var v := visits[|visits| - 1];
      if v.isDir {
        var url := codec.fsToRoute(v.path);
        var above := codec.fsToRoute(Parent(v.path));
        var start := if v.path != "." && above in prev then Empty(url).(globals := map[] + prev[above].globals) else Empty(url);
        ParseKeepsIdentity(fsys, codec, start);
      }
    }
  }

  /** A route is stored exactly when it was known before or some visited directory maps to it. */
  lemma {:induction false} WalkKeys(fsys: FileSystem, codec: PathCodec, visits: seq<Visit>, known: map<string, ContextState>, k: string)
    ensures k in Walk(fsys, codec, visits, known) <==>
      k in known || exists i | 0 <= i < |visits| :: visits[i].isDir && codec.fsToRoute(visits[i].path) == k
  {
    if visits != [] {
      var n := |visits| - 1;
      WalkKeys(fsys, codec, visits[..n], known, k);
      if exists i | 0 <= i < n :: visits[..n][i].isDir && codec.fsToRoute(visits[..n][i].path) == k {
        var i :| 0 <= i < n && visits[..n][i].isDir && codec.fsToRoute(visits[..n][i].path) == k;
        assert visits[i] == visits[..n][i];
      }
      if exists i | 0 <= i < |visits| :: visits[i].isDir && codec.fsToRoute(visits[i].path) == k {
        var i :| 0 <= i < |visits| && visits[i].isDir && codec.fsToRoute(visits[i].path) == k;
        if i < n { assert visits[..n][i] == visits[i]; }
      }
    }
  }

  /** The context a later visit stores replaces an earlier one: the last directory with a route decides it. */
  lemma {:induction false} WalkLastVisitWins(fsys: FileSystem, codec: PathCodec, visits: seq<Visit>, known: map<string, ContextState>, i: nat)
    requires i < |visits| && visits[i].isDir
    requires forall j | i < j < |visits| :: !(visits[j].isDir && codec.fsToRoute(visits[j].path) == codec.fsToRoute(visits[i].path))
    ensures codec.fsToRoute(visits[i].path) in Walk(fsys, codec, visits, known)
    ensures Walk(fsys, codec, visits, known)[codec.fsToRoute(visits[i].path)]
         == DirContext(fsys, codec, Walk(fsys, codec, visits[..i], known), visits[i].path)
  {
    var n := |visits| - 1;
    if i < n {
      assert visits[..n][i] == visits[i];
      assert visits[..n][..i] == visits[..i];
      WalkLastVisitWins(fsys, codec, visits[..n], known, i);
    } else {
      assert visits[..i] == visits[..n];
    }
  }

  /**
   * A directory below the root whose parent route is stored inherits the parent's
   * globals, overridden by its own `_` files; its locals are only its own. Any
   * other directory has only its own files.
   */
  lemma DirContextInherits(fsys: FileSystem, codec: PathCodec, known: map<string, ContextState>, path: string)
    ensures var url := codec.fsToRoute(path);
      var above := codec.fsToRoute(Parent(path));
      var own := ParseOutcome(fsys, codec, Empty(url)).state;
      var stored := DirContext(fsys, codec, known, path);
      && stored.Path == url && stored.cache == null
      && stored.locals == own.locals
      && stored.globals == (if path != "." && above in known then known[above].globals + own.globals else own.globals)
  {
    var url := codec.fsToRoute(path);
    var above := codec.fsToRoute(Parent(path));
    var start := if path != "." && above in known then Empty(url).(globals := map[] + known[above].globals) else Empty(url);
    ParseOverridesInstalled(fsys, codec, start);
    ParseKeepsIdentity(fsys, codec, start);
    assert start.locals == map[];
    assert map[] + ParseOutcome(fsys, codec, Empty(url)).state.locals == ParseOutcome(fsys, codec, Empty(url)).state.locals;
    if !(path != "." && above in known) {
      assert map[] + ParseOutcome(fsys, codec, Empty(url)).state.globals == ParseOutcome(fsys, codec, Empty(url)).state.globals;
    }
  }

  /** The parent route of `dir/name` is the route of `dir`. */
  lemma NestedParentRoute(codec: PathCodec, dir: string, name: string)
    requires '/' !in name
    ensures codec.fsToRoute(Parent(dir + "/" + name)) == codec.fsToRoute(dir)
  {
    ParentOfNested(dir, name);
  }

  /** A top-level directory looks its parent up under the route of "", which is the root's route exactly when the codec maps "" like ".". */
  lemma TopLevelParentRoute(codec: PathCodec, name: string)
    requires '/' !in name
    ensures codec.fsToRoute(Parent(name)) == codec.fsToRoute(".") <==> codec.fsToRoute("") == codec.fsToRoute(".")
  {
    ParentOfTopLevel(name);
  }
}
