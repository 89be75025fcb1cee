/**
 * The layout registry of templating_test/templating/layouts.go, built on the
 * glob-based contexts.
 *
 * `Parse` indexes the root directory, then, for every directory the walk visits
 * other than "." itself, parses a fresh context, copies the root's globals over
 * its own and stores it under its walk path. The guard meant to skip
 * subdirectories splits the path as a path list (at ':'), so it skips only
 * paths holding ':'; `WalkTopLayouts` is the guard splitting at '/'.
 */
module TestLayouts {
  import opened Wrappers
  import opened Errors
  import opened Paths
  import opened Externals
  import opened GlobContext

  /** A layout: its own templates, with the root's globals replacing same-named globals of its own. */
  function LayoutValue(fsys: FileSystem, globals: map<string, Template>, path: string): ContextValue
  {
    var own := ParsedValue(fsys, path);
    own.(globals := own.globals + globals)
  }

  /** Whether the walk callback passes a visit over, as written: SplitList splits at ':'. */
  predicate Skipped(v: Visit)
  {
    v.path == "." || !v.isDir || |SplitList(v.path)| > 1
  }

  /** The layouts after the walk callback has run on `visits`, in order. */
  function WalkLayouts(fsys: FileSystem, globals: map<string, Template>, visits: seq<Visit>,
                       known: map<string, ContextValue>): map<string, ContextValue>
  {
    if visits == [] then known
    else
      var prev := WalkLayouts(fsys, globals, visits[..|visits| - 1], known);
      var v := visits[|visits| - 1];
      if Skipped(v) then prev else prev[v.path := LayoutValue(fsys, globals, v.path)]
  }

  /** The layouts `Parse` leaves, starting from `known`. */
  function ParseLayouts(fsys: FileSystem, known: map<string, ContextValue>): map<string, ContextValue>
  {
    WalkLayouts(fsys, ParsedValue(fsys, ".").globals, fsys.walk, known)
  }

  /** The guard as its comment describes it: a path of more than one '/'-separated element is a subdirectory. */
  predicate SkippedTopLevel(v: Visit)
  {
    v.path == "." || !v.isDir || |Split(v.path, '/')| > 1
  }

  /** The walk with the subdirectory guard splitting at '/'. */
  function WalkTopLayouts(fsys: FileSystem, globals: map<string, Template>, visits: seq<Visit>,
                          known: map<string, ContextValue>): map<string, ContextValue>
  {
    if visits == [] then known
    else
      var prev := WalkTopLayouts(fsys, globals, visits[..|visits| - 1], known);
      var v := visits[|visits| - 1];
      if SkippedTopLevel(v) then prev else prev[v.path := LayoutValue(fsys, globals, v.path)]
  }

  /** A fresh layout context: its own directory parsed (the error ignored), then the root's globals copied in. */
  method NewLayout(fsys: FileSystem, globals: map<string, Template>, path: string) returns (context: TemplateContext)
    requires Named(globals)
    ensures fresh(context)
    ensures context.State() == LayoutValue(fsys, globals, path)
  {
    var err;
    context, err := NewParsed(fsys, path);
    var _ := context.SetGlobals(globals);
  }

  class LayoutRegistry {
    var layoutsFS: FileSystem
    /** Layout contexts by walk path, shared by reference. */
    var cache: map<string, TemplateContext>
    var funcs: map<string, Func>

    /** The values of the stored contexts. */
    ghost function States(): map<string, ContextValue>
      reads this, cache.Values
    {
      map k | k in cache :: cache[k].State()
    }

    /** NewLayoutRegistry(routes) */
    constructor (routes: FileSystem)
      ensures layoutsFS == routes && cache == map[] && funcs == DefaultFuncs
    {
      layoutsFS, cache, funcs := routes, map[], DefaultFuncs;
    }

    /** Merges a file system over the current one and forgets every layout. */
    method Register(path: string, fsys: FileSystem, merge: (FileSystem, FileSystem) -> FileSystem)
      modifies this`layoutsFS, this`cache
      ensures layoutsFS == merge(fsys, old(layoutsFS)) && cache == map[]
    {
      layoutsFS := merge(fsys, layoutsFS);
      cache := map[];
    }

    /** Adds helper functions; supplied names take the new value, no name is removed. */
    method RegisterFuncs(fs: map<string, Func>)
      modifies this`funcs
      ensures funcs == old(funcs) + fs
    {
      funcs := AddFuncs(funcs, fs);
    }

    /** Indexes the root, then runs the walk callback on every visit. */
    method Parse()
      modifies this`cache
      ensures States() == ParseLayouts(layoutsFS, old(States()))
    {
      var rootcontext, _ := NewParsed(layoutsFS, ".");
      var globals := rootcontext.GetGlobals();
      var walk := layoutsFS.walk;
      ghost var known := States();
      var i := 0;
      while i < |walk|
        invariant 0 <= i <= |walk|
        invariant globals == ParsedValue(layoutsFS, ".").globals
        invariant States() == WalkLayouts(layoutsFS, globals, walk[..i], known)
      {
        assert walk[..i + 1][..i] == walk[..i];
        var v := walk[i];
        if v.path != "." && v.isDir {
          var pathelements := SplitList(v.path);
          if |pathelements| <= 1 {
            VisitLayout(v.path, globals);
          }
        }
        i := i + 1;
      }
      assert walk[..i] == walk;
    }

    /** The walk callback for one layout directory: parse, take the root's globals, store. */
    method VisitLayout(path: string, globals: map<string, Template>)
      requires Named(globals)
      modifies this`cache
      ensures States() == old(States())[path := LayoutValue(layoutsFS, globals, path)]
    {
      var context := NewLayout(layoutsFS, globals, path);
      assert context !in cache.Values;
      Store(path, context);
    }

    /** r.cache.Set(key, context) */
    method Store(key: string, context: TemplateContext)
      modifies this`cache
      ensures cache == old(cache)[key := context]
      ensures States() == old(States())[key := context.State()]
    {
      cache := cache[key := context];
    }

    /** The layout stored under `path`, or nil. */
    method Get(path: string) returns (r: Option<TemplateContext>)
      ensures path in cache <==> r.Some?
      ensures r.Some? ==> r.value == cache[path]
    {
      if path in cache {
        return Some(cache[path]);
      }
      return None;
    }
  }

  // ---------------------------------------------------------------------------
  // Properties of the walk

  /** As written, the guard passes over a directory only when its path holds ':'. */
  lemma SkippedOnlyWithColon(v: Visit)
    requires v.path != "." && v.isDir
    ensures Skipped(v) <==> ':' in v.path
  {
    SplitListMany(v.path);
  }

  /** As written, a subdirectory is stored as a layout of its own: "a/b" below "a". */
  lemma SubdirectoryStored(fsys: FileSystem, globals: map<string, Template>)
    ensures "a/b" in WalkLayouts(fsys, globals, [Visit(".", true), Visit("a", true), Visit("a/b", true)], map[])
  {
    var visits := [Visit(".", true), Visit("a", true), Visit("a/b", true)];
    SkippedOnlyWithColon(Visit("a/b", true));
    assert visits[..2] == [Visit(".", true), Visit("a", true)];
  }

  /** With the guard splitting at '/', only top-level directories are stored. */
  lemma {:induction false} TopLayoutsFlat(fsys: FileSystem, globals: map<string, Template>, visits: seq<Visit>,
                                          known: map<string, ContextValue>, k: string)
    ensures k in WalkTopLayouts(fsys, globals, visits, known) ==>
      k in known || ('/' !in k && exists i | 0 <= i < |visits| :: visits[i].isDir && visits[i].path == k)
  {
    if visits != [] {
      var n := |visits| - 1;
      TopLayoutsFlat(fsys, globals, visits[..n], known, k);
      var v := visits[n];
      if !SkippedTopLevel(v) && k == v.path {
        if '/' in k {
          SplitSeveral(k, '/');
        }
      } else if k in WalkTopLayouts(fsys, globals, visits[..n], known) && k !in known {
        var i :| 0 <= i < n && visits[..n][i].isDir && visits[..n][i].path == k;
        assert visits[i] == visits[..n][i];
      }
    }
  }

  /** Every layout keeps the root's globals over its own same-named ones, and only its own locals. */
  lemma RootGlobalsWin(fsys: FileSystem, globals: map<string, Template>, path: string, k: string)
    requires k in globals
    ensures k in LayoutValue(fsys, globals, path).globals
    ensures LayoutValue(fsys, globals, path).globals[k] == globals[k]
    ensures LayoutValue(fsys, globals, path).locals == ParsedValue(fsys, path).locals
  {
  }
}
