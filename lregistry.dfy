/**
 * The second layout registry, templatingv2/templating/lregistry.go.
 *
 * Unlike layout_registry.go it holds no parsed flag and stores pointers to the
 * layout contexts, keyed by route path; compiling a layout caches the namespace
 * inside the stored context itself. `Get` answers with the template named
 * `root` of the layout's namespace.
 */
module LRegistry {
  import opened Wrappers
  import opened Errors
  import opened Externals
  import opened Context
  import opened Layouts

  /** The template every layout must define. */
  const ROOT_LAYOUT_NAME: string := "root"

  /** A template looked up by name in a namespace (Lookup's result). */
  datatype TemplateRef = TemplateRef(ns: Namespace, name: string)

  /**
   * ns.Lookup("root"): found when some file defined it, or when the namespace
   * itself carries that name; otherwise the layout `name` has no template.
   */
  function RootOf(ns: Namespace, name: string): (r: Result<TemplateRef, Error>)
    reads ns
    ensures r.Success? <==> ROOT_LAYOUT_NAME in ns.trees || ns.name == ROOT_LAYOUT_NAME
    ensures r.Success? ==> r.value == TemplateRef(ns, ROOT_LAYOUT_NAME)
    ensures r.Failure? ==> r.error == NewError(NoTemplateError, name)
  {
    if ROOT_LAYOUT_NAME in ns.trees || ns.name == ROOT_LAYOUT_NAME then Success(TemplateRef(ns, ROOT_LAYOUT_NAME))
    else Failure(NewError(NoTemplateError, name))
  }

  /** What `Parse` returns and the layouts it leaves: the root's own error is ignored. */
  function ParseRoutedLayouts(fsys: FileSystem, codec: PathCodec, known: map<string, ContextState>): LayoutsParse
  {
    var root := ParseOutcome(fsys, codec, Empty("."));
    match ReadDir(fsys, ".")
    case None => LayoutsParse(Some(NewError(FileAccessError, ".")), known)
    case Some(entries) => LayoutsParse(None, IndexLayouts(fsys, codec, root.state.globals, entries, codec.fsToRoute, known))
  }

  class LayoutRegistry {
    var layoutsFS: FileSystem
    /** Layout contexts by route path, shared by reference. */
    var cache: map<string, TemplateContext>
    var funcs: map<string, Func>

    /** The values of the stored contexts. */
    ghost function States(): map<string, ContextState>
      reads this, cache.Values
    {
      map k | k in cache :: cache[k].State()
    }

    /** NewLayoutRegistry(routes) */
    constructor (routes: FileSystem)
      ensures layoutsFS == routes && cache == map[] && funcs == DefaultFuncs
    {
      layoutsFS, cache, funcs := routes, map[], DefaultFuncs;
    }

    /** Merges a file system over the current one and forgets every layout; the receiver itself changes. */
    method Register(path: string, fsys: FileSystem, merge: (FileSystem, FileSystem) -> FileSystem)
      modifies this`layoutsFS, this`cache
      ensures layoutsFS == merge(fsys, old(layoutsFS)) && cache == map[]
    {
      layoutsFS := merge(fsys, layoutsFS);
      cache := map[];
    }

    /** Adds helper functions; supplied names take the new value, no name is removed. */
    method RegisterFuncs(fs: map<string, Func>)
      modifies this`funcs
      ensures funcs == old(funcs) + fs
    {
      funcs := AddFuncs(funcs, fs);
    }

    /** Indexes the root, then stores a fresh context per layout directory under its route path. */
    method Parse(codec: PathCodec) returns (err: Option<Error>)
      modifies this`cache
      ensures LayoutsParse(err, States()) == ParseRoutedLayouts(layoutsFS, codec, old(States()))
    {
      var rootcontext := new TemplateContext(".");
      var _ := rootcontext.Parse(layoutsFS, codec);
      var globals := rootcontext.GetGlobals();
      var listing := ReadDir(layoutsFS, ".");
      if listing.None? {
        return Some(NewError(FileAccessError, "."));
      }
      var entries := listing.value;
      ghost var known := States();
      var i := 0;
      while i < |entries|
        invariant 0 <= i <= |entries|
        invariant States() == IndexLayouts(layoutsFS, codec, globals, entries[..i], codec.fsToRoute, known)
      {
        assert entries[..i + 1][..i] == entries[..i];
        if IsLayoutDir(entries[i]) {
          StoreLayout(codec, globals, entries[i].name);
        }
        i := i + 1;
      }
      assert entries[..i] == entries;
      return None;
    }

    /** The loop body of Parse for one layout directory: a fresh context, root globals, own files, stored by route. */
    method StoreLayout(codec: PathCodec, globals: map<string, string>, name: string)
      modifies this`cache
      ensures States() == old(States())[codec.fsToRoute(name) := LayoutContext(layoutsFS, codec, globals, name)]
    {
      var url := codec.fsToRoute(name);
      var context := NewLayout(layoutsFS, codec, globals, name);
      assert context !in cache.Values;
      cache := cache[url := context];
      assert States() == old(States())[url := context.State()];
    }

    /**
     * The `root` template of layout `name`: the stored context compiles its
     * namespace on first use and keeps it.
     */
    method Get(name: string, codec: PathCodec) returns (r: Result<TemplateRef, Error>)
      modifies if codec.fsToRoute(name) in cache then {cache[codec.fsToRoute(name)]} else {}
      ensures codec.fsToRoute(name) !in cache ==> r == Failure(NewError(NoTemplateError, name))
      ensures codec.fsToRoute(name) in cache ==>
        var tc := cache[codec.fsToRoute(name)];
        && tc.globals == old(tc.globals) && tc.locals == old(tc.locals)
        && (old(tc.cache) != null ==> tc.cache == old(tc.cache) && r == RootOf(tc.cache, name))
        && (old(tc.cache) == null ==>
              && (tc.cache != null <==> Compiles(layoutsFS, tc.globals, tc.locals))
              && (tc.cache != null ==>
                    fresh(tc.cache) && tc.cache.name == tc.Path && tc.cache.trees == Compiled(layoutsFS, tc.globals, tc.locals)
                    && r == RootOf(tc.cache, name))
              && (tc.cache == null ==> r.Failure? && CompileError(layoutsFS, tc.globals, tc.locals, r.error)))
    {
      var url := codec.fsToRoute(name);
      if url !in cache {
        return Failure(NewError(NoTemplateError, name));
      }
      var tc := cache[url];
      var availables := tc.Get(layoutsFS);
      if availables.Failure? {
        return Failure(availables.error);
      }
      r := RootOf(availables.value, name);
    }
  }

  /**
   * Both layout registries build the same contexts from the same root entries;
   * they differ in the key: this one stores a layout under its route path.
   */
  lemma RoutedLayoutKeys(fsys: FileSystem, codec: PathCodec, known: map<string, ContextState>, k: string)
    requires ParseRoutedLayouts(fsys, codec, known).err.None?
    ensures k in ParseRoutedLayouts(fsys, codec, known).layouts <==>
      k in known || exists i | 0 <= i < |fsys.dirs["."]| :: IsLayoutDir(fsys.dirs["."][i]) && codec.fsToRoute(fsys.dirs["."][i].name) == k
  {
    var root := ParseOutcome(fsys, codec, Empty("."));
    LayoutKeys(fsys, codec, root.state.globals, fsys.dirs["."], codec.fsToRoute, known, k);
  }

  /** A root directory that cannot be indexed still lends its partial globals: only an unreadable "." is an error. */
  lemma RootErrorIgnored(fsys: FileSystem, codec: PathCodec, known: map<string, ContextState>)
    ensures ParseRoutedLayouts(fsys, codec, known).err.Some? <==> "." !in fsys.dirs
    ensures ParseRoutedLayouts(fsys, codec, known).err.Some? ==>
      ParseRoutedLayouts(fsys, codec, known) == LayoutsParse(Some(NewError(FileAccessError, ".")), known)
  {
  }
}
