/**
 * The route registry of templating_test/templating/contexts.go, built on the
 * glob-based contexts.
 *
 * `Parse` stores the root context under "/" and then, for every directory the
 * walk visits, parses a fresh context, looks its parent up under the "head" key
 * it derives from the path, copies the parent's globals over its own (so the
 * inherited templates win) and stores it under "/" + path. A directory whose
 * parent is not found is not stored.
 */
module TestRoutes {
  import opened Wrappers
  import opened Errors
  import opened Paths
  import opened Externals
  import opened GlobContext

  /** The key under which a walked directory looks its parent up. */
  function HeadKey(path: string): string
  {
    var elems := Split(path, '/');
    var head := if |path| > 1 then JoinWith(elems[..|elems| - 1], '/') else "";
    if head == "" then "/" else head
  }

  /** The context the walk callback stores for directory `path`, if it stores one. */
  function DirOutcome(fsys: FileSystem, known: map<string, ContextValue>, path: string): Option<ContextValue>
  {
    if ParseDir(fsys, path, Index(map[], map[])).err.Some? then None
    else if HeadKey(path) !in known then None
    else
      var own := ParsedValue(fsys, path);
      Some(own.(globals := own.globals + known[HeadKey(path)].globals))
  }

  /** The contexts after the walk callback has run on `visits`, in order. */
  function WalkRoutes(fsys: FileSystem, visits: seq<Visit>, known: map<string, ContextValue>): map<string, ContextValue>
  {
    if visits == [] then known
    else RouteStep(fsys, WalkRoutes(fsys, visits[..|visits| - 1], known), visits[|visits| - 1])
  }

  /** One call of the walk callback. */
  function RouteStep(fsys: FileSystem, prev: map<string, ContextValue>, v: Visit): map<string, ContextValue>
  {
    if !v.isDir then prev
    else
      match DirOutcome(fsys, prev, v.path)
      case None => prev
      case Some(c) => prev["/" + v.path := c]
  }

  /** The contexts `Parse` leaves, starting from `known`. */
  function ParseRoutes(fsys: FileSystem, known: map<string, ContextValue>): map<string, ContextValue>
  {
    WalkRoutes(fsys, fsys.walk, known["/" := ParsedValue(fsys, ".")])
  }

  /** context.SetGlobals(parent.GetGlobals()): the parent's globals replace same-named globals of the child. */
  method Inherit(context: TemplateContext, parent: TemplateContext)
    requires context.Valid() && parent.Valid() && context != parent
    modifies context
    ensures context.Valid()
    ensures context.State() == old(context.State()).(globals := old(context.globals) + parent.globals)
  {
    var _ := context.SetGlobals(parent.GetGlobals());
  }

  class TemplateRegistry {
    var routesFS: FileSystem
    /** Contexts by route, shared by reference. */
    var cache: map<string, TemplateContext>
    var funcs: map<string, Func>

    /** The values of the stored contexts. */
    ghost function States(): map<string, ContextValue>
      reads this, cache.Values
    {
      map k | k in cache :: cache[k].State()
    }

    /** Every stored context keeps its templates under their names. */
    ghost predicate Valid()
      reads this, cache.Values
    {
      forall k | k in cache :: cache[k].Valid()
    }

    /** NewTemplateRegistry(routes) */
    constructor (routes: FileSystem)
      ensures Valid()
      ensures routesFS == routes && cache == map[] && funcs == DefaultFuncs
    {
      routesFS, cache, funcs := routes, map[], DefaultFuncs;
    }

    /** Merges a file system over the current one and forgets every context. */
    method Register(path: string, fsys: FileSystem, merge: (FileSystem, FileSystem) -> FileSystem)
      modifies this`routesFS, this`cache
      ensures routesFS == merge(fsys, old(routesFS)) && cache == map[]
    {
      routesFS := merge(fsys, routesFS);
      cache := map[];
    }

    /** Adds helper functions; supplied names take the new value, no name is removed. */
    method RegisterFuncs(fs: map<string, Func>)
      modifies this`funcs
      ensures funcs == old(funcs) + fs
    {
      funcs := AddFuncs(funcs, fs);
    }

    /** Stores the root context under "/", then runs the walk callback on every visit. */
    method Parse()
      requires Valid()
      modifies this`cache
      ensures Valid()
      ensures States() == ParseRoutes(routesFS, old(States()))
    {
      StoreRoot();
      var walk := routesFS.walk;
      ghost var known := States();
      var i := 0;
      while i < |walk|
        invariant 0 <= i <= |walk|
        invariant Valid()
        invariant States() == WalkRoutes(routesFS, walk[..i], known)
      {
        assert walk[..i + 1][..i] == walk[..i];
        assert WalkRoutes(routesFS, walk[..i + 1], known) == RouteStep(routesFS, WalkRoutes(routesFS, walk[..i], known), walk[i]);
        if walk[i].isDir {
          VisitDir(walk[i]);
        }
        i := i + 1;
      }
      assert walk[..i] == walk;
    }

    /** The root context, parsed (its error ignored) and stored under "/". */
    method StoreRoot()
      requires Valid()
      modifies this`cache
      ensures Valid()
      ensures States() == old(States())["/" := ParsedValue(routesFS, ".")]
    {
      var rootcontext, _ := NewParsed(routesFS, ".");
      assert rootcontext !in cache.Values;
      Store("/", rootcontext);
    }

    /** The walk callback for one directory: the context it builds is stored under "/" + path. */
    method VisitDir(v: Visit)
      requires Valid() && v.isDir
      modifies this`cache
      ensures Valid()
      ensures States() == RouteStep(routesFS, old(States()), v)
    {
      var context := Prepare(v.path);
      if context != null {
        Store("/" + v.path, context);
      }
    }

    /**
     * The walk callback up to storing: parse a fresh context, find the parent
     * under the head key, copy its globals. Nil when the callback gives up.
     */
    method Prepare(path: string) returns (context: TemplateContext?)
      requires Valid()
      ensures context == null <==> DirOutcome(routesFS, States(), path).None?
      ensures context != null ==> fresh(context) && context.Valid() && DirOutcome(routesFS, States(), path) == Some(context.State())
    {
      ghost var known := States();
      var err;
      context, err := NewParsed(routesFS, path);
      if err.Some? {
        return null;
      }
      assert context !in cache.Values;
      var pathelements := Split(path, '/');
      var head := "";
      if |path| > 1 {
        head := JoinWith(pathelements[..|pathelements| - 1], '/');
      }
      if head == "" {
        head := "/";
      }
      assert head == HeadKey(path);
      if head !in cache {
        return null;
      }
      Inherit(context, cache[head]);
    }

    /** r.cache.Set(key, context) */
    method Store(key: string, context: TemplateContext)
      requires Valid() && context.Valid()
      modifies this`cache
      ensures Valid()
      ensures cache == old(cache)[key := context]
      ensures States() == old(States())[key := context.State()]
    {
      cache := cache[key := context];
    }

    /** The context stored under `path`, or nil. */
    method Get(path: string) returns (r: Option<TemplateContext>)
      ensures path in cache <==> r.Some?
      ensures r.Some? ==> r.value == cache[path]
    {
      if path in cache {
        return Some(cache[path]);
      }
      return None;
    }
  }

  // ---------------------------------------------------------------------------
  // Properties of the walk

  /** A top-level directory (and "." itself) looks its parent up under "/". */
  lemma TopLevelHead(path: string)
    requires '/' !in path
    ensures HeadKey(path) == "/"
  {
    SplitNoSep(path, '/');
  }

  /** A nested directory looks its parent up under a key that does not begin with "/". */
  lemma NestedHead(path: string)
    requires ValidPath(path) && '/' in path
    ensures HeadKey(path) != "" && HeadKey(path)[0] != '/'
  {
    var elems := Split(path, '/');
    SplitSeveral(path, '/');
    assert path != ".";
    assert elems[0] in elems;
    assert elems[..|elems| - 1][0] == elems[0];
    JoinWithStart(elems[..|elems| - 1], '/');
    assert '/' !in elems[0];
    assert elems[0][0] in elems[0];
  }

  /**
   * Once the root is stored, a valid top-level directory is always stored: its
   * own templates, with the root's globals replacing same-named globals of its own.
   */
  lemma TopLevelInheritsRoot(fsys: FileSystem, known: map<string, ContextValue>, path: string)
    requires ValidPath(path) && '/' !in path && "/" in known
    ensures DirOutcome(fsys, known, path) ==
      Some(ParsedValue(fsys, path).(globals := ParsedValue(fsys, path).globals + known["/"].globals))
  {
    TopLevelHead(path);
  }

  /** Every key the walk stores begins with "/". */
  ghost predicate Rooted(m: map<string, ContextValue>)
  {
    forall k | k in m :: k != "" && k[0] == '/'
  }

  /**
   * A nested directory is never stored: the walk keeps only what was known and
   * the directories of the top level.
   */
  lemma {:induction false} NestedNeverStored(fsys: FileSystem, visits: seq<Visit>, known: map<string, ContextValue>, k: string)
    requires Rooted(known)
    requires forall i | 0 <= i < |visits| :: ValidPath(visits[i].path)
    ensures Rooted(WalkRoutes(fsys, visits, known))
    ensures k in WalkRoutes(fsys, visits, known) ==>
      k in known || exists i | 0 <= i < |visits| :: visits[i].isDir && '/' !in visits[i].path && k == "/" + visits[i].path
  {
    if visits != [] {
      var n := |visits| - 1;
      var prev := WalkRoutes(fsys, visits[..n], known);
      assert forall i | 0 <= i < n :: visits[..n][i] == visits[i];
      NestedNeverStored(fsys, visits[..n], known, k);
      var v := visits[n];
      if v.isDir && '/' in v.path {
        NestedHead(v.path);
        assert HeadKey(v.path) !in prev;
      }
      if k in prev && k != "/" + v.path {
        if k !in known {
          var i :| 0 <= i < n && visits[..n][i].isDir && '/' !in visits[..n][i].path && k == "/" + visits[..n][i].path;
          assert visits[i] == visits[..n][i];
        }
      }
    }
  }
}
