/**
 * The layout registry of templatingv2/templating/layout_registry.go.
 *
 * A layout is a top-level directory of the layouts file system (other than
 * `components`). `Parse` indexes the root directory, then gives every layout
 * directory the root's globals before it parses its own files, and stores the
 * result by value under the directory's bare name. `Get` compiles a layout on
 * first use and caches the namespace; a miss on an unparsed registry parses it
 * once and retries.
 */
module Layouts {
  import opened Wrappers
  import opened Errors
  import opened Externals
  import opened Context

  /** The key a layout is stored under in this registry: the directory name as it is. */
  function Bare(name: string): string
  {
    name
  }

  /** Whether a root entry is a layout directory. */
  predicate IsLayoutDir(e: Entry)
  {
    e.isDir && e.name != TEMPLATE_COMPONENT_DIRECTORY
  }

  /** The context of layout directory `name`: the root globals installed first, then its own files parsed. */
  function LayoutContext(fsys: FileSystem, codec: PathCodec, globals: map<string, string>, name: string): ContextState
  {
    ParseOutcome(fsys, codec, Empty(codec.fsToRoute(name)).(globals := map[] + globals)).state
  }

  /** A fresh context for layout directory `name`, built as LayoutContext says. */
  method NewLayout(fsys: FileSystem, codec: PathCodec, globals: map<string, string>, name: string) returns (context: TemplateContext)
    ensures fresh(context)
    ensures context.State() == LayoutContext(fsys, codec, globals, name)
  {
    context := new TemplateContext(codec.fsToRoute(name));
    var _ := context.SetGlobals(globals);
    var _ := context.Parse(fsys, codec);
  }

  /** The layouts after the loop over the root entries has run, each stored under `key` of its name. */
  function IndexLayouts(fsys: FileSystem, codec: PathCodec, globals: map<string, string>, entries: seq<Entry>,
                        key: string -> string, known: map<string, ContextState>): map<string, ContextState>
  {
    if entries == [] then known
    else
      var prev := IndexLayouts(fsys, codec, globals, entries[..|entries| - 1], key, known);
      var e := entries[|entries| - 1];
      if IsLayoutDir(e) then prev[key(e.name) := LayoutContext(fsys, codec, globals, e.name)] else prev
  }

  datatype LayoutsParse = LayoutsParse(err: Option<Error>, layouts: map<string, ContextState>)

  /** What `Parse` returns and the layouts it leaves, starting from `known`. */
  function ParseLayouts(fsys: FileSystem, codec: PathCodec, known: map<string, ContextState>): LayoutsParse
  {
    var root := ParseOutcome(fsys, codec, Empty("."));
    if root.err.Some? then LayoutsParse(root.err, known)
    else
      match ReadDir(fsys, ".")
      case None => LayoutsParse(Some(NewError(FileAccessError, ".")), known)
      case Some(entries) => LayoutsParse(None, IndexLayouts(fsys, codec, root.state.globals, entries, Bare, known))
  }

  class LayoutRegistry {
    var layoutsFS: FileSystem
    var parsed: bool
    /** Layout contexts by directory name, stored by value. */
    var layouts: map<string, ContextState>
    /** Compiled namespaces by directory name; an absent key reads as nil. */
    var cache: map<string, Namespace>
    var funcs: map<string, Func>

    /** An unparsed registry is empty; only known layouts are cached; stored contexts are uncompiled. */
    ghost predicate Valid()
      reads this
    {
      && (!parsed ==> layouts == map[] && cache == map[])
      && cache.Keys <= layouts.Keys
      && (forall k | k in layouts :: layouts[k].cache == null)
    }

    /** NewLayoutRegistry(routes) */
    constructor (routes: FileSystem)
      ensures Valid()
      ensures layoutsFS == routes && !parsed && layouts == map[] && cache == map[] && funcs == DefaultFuncs
    {
      layoutsFS, parsed, layouts, cache, funcs := routes, false, map[], map[], DefaultFuncs;
    }

    /** A new registry over the merged file system; the receiver is left as it is. */
    method Register(fsys: FileSystem, merge: (FileSystem, FileSystem) -> FileSystem) returns (r: LayoutRegistry)
      ensures fresh(r) && r.Valid()
      ensures r.layoutsFS == merge(fsys, layoutsFS) && !r.parsed && r.layouts == map[] && r.cache == map[]
      ensures r.funcs == DefaultFuncs
    {
      r := new LayoutRegistry(merge(fsys, layoutsFS));
    }

    /** Adds helper functions; supplied names take the new value, no name is removed. */
    method RegisterFuncs(fs: map<string, Func>)
      modifies this`funcs
      ensures funcs == old(funcs) + fs
    {
      funcs := AddFuncs(funcs, fs);
    }

    /** Marks the registry parsed, indexes the root, then stores one context per layout directory. */
    method Parse(codec: PathCodec) returns (err: Option<Error>)
      requires Valid()
      modifies this`parsed, this`layouts
      ensures Valid() && parsed
      ensures LayoutsParse(err, layouts) == ParseLayouts(layoutsFS, codec, old(layouts))
    {
      parsed := true;
      var rootcontext := new TemplateContext(".");
      err := rootcontext.Parse(layoutsFS, codec);
      if err.Some? {
        return;
      }
      var globals := rootcontext.GetGlobals();
      var listing := ReadDir(layoutsFS, ".");
      if listing.None? {
        return Some(NewError(FileAccessError, "."));
      }
      var entries := listing.value;
      ghost var known := layouts;
      var i := 0;
      while i < |entries|
        invariant 0 <= i <= |entries|
        invariant parsed
        invariant layouts == IndexLayouts(layoutsFS, codec, globals, entries[..i], Bare, known)
      {
        assert entries[..i + 1][..i] == entries[..i];
        var e := entries[i];
        if IsLayoutDir(e) {
          var context := NewLayout(layoutsFS, codec, globals, e.name);
          layouts := layouts[e.name := context.State()];
        }
        i := i + 1;
      }
      assert entries[..i] == entries;
      IndexLayoutsGrows(layoutsFS, codec, globals, entries, Bare, known);
    }

    /**
     * The compiled namespace of layout `name`: the cached one, or a compile of
     * its context that is then cached; an unparsed registry is parsed once first.
     */
    method Get(name: string, codec: PathCodec) returns (r: Result<Namespace, Error>)
      requires Valid()
      modifies this`parsed, this`layouts, this`cache
      decreases if parsed then 0 else 1
      ensures Valid()
      ensures layoutsFS == old(layoutsFS) && funcs == old(funcs)
      ensures parsed == (old(parsed) || old(name !in layouts))
      ensures layouts == if old(name in layouts) || old(parsed) then old(layouts) else ParseLayouts(layoutsFS, codec, old(layouts)).layouts
      ensures old(name in cache) ==> r == Success(old(cache[name])) && cache == old(cache)
      ensures old(name !in layouts) && !old(parsed) && ParseLayouts(layoutsFS, codec, old(layouts)).err.Some? ==>
        r == Failure(ParseLayouts(layoutsFS, codec, old(layouts)).err.value) && cache == old(cache)
      ensures name !in layouts && (old(parsed) || ParseLayouts(layoutsFS, codec, old(layouts)).err.None?) ==>
        r == Failure(NewError(NoTemplateError, name)) && cache == old(cache)
      ensures old(name !in cache) && name in layouts ==>
        var s := layouts[name];
        && (r.Success? <==> Compiles(layoutsFS, s.globals, s.locals))
        && (r.Success? ==>
              && fresh(r.value) && r.value.name == s.Path
              && r.value.trees == Compiled(layoutsFS, s.globals, s.locals)
              && cache == old(cache)[name := r.value])
        && (r.Failure? ==> cache == old(cache) && CompileError(layoutsFS, s.globals, s.locals, r.error))
    {
      if name in cache {
        return Success(cache[name]);
      }
      if name !in layouts {
        if !parsed {
          var err := Parse(codec);
          if err.Some? {
            return Failure(err.value);
          }
          r := Get(name, codec);
          return;
        }
        return Failure(NewError(NoTemplateError, name));
      }
      var context := new TemplateContext.Copy(layouts[name]);
      var t := context.Get(layoutsFS);
      if t.Failure? {
        return Failure(t.error);
      }
      cache := cache[name := t.value];
      r := context.Get(layoutsFS);
    }
  }

  // ---------------------------------------------------------------------------
  // Properties of the layout index

  /** The loop only adds or replaces layouts, and stores every context uncompiled. */
  lemma {:induction false} IndexLayoutsGrows(fsys: FileSystem, codec: PathCodec, globals: map<string, string>, entries: seq<Entry>,
                                              key: string -> string, known: map<string, ContextState>)
    requires forall k | k in known :: known[k].cache == null
    ensures known.Keys <= IndexLayouts(fsys, codec, globals, entries, key, known).Keys
    ensures forall k | k in IndexLayouts(fsys, codec, globals, entries, key, known) ::
      IndexLayouts(fsys, codec, globals, entries, key, known)[k].cache == null
  {
    if entries != [] {
      var e := entries[|entries| - 1];
      IndexLayoutsGrows(fsys, codec, globals, entries[..|entries| - 1], key, known);
      if IsLayoutDir(e) {
        LayoutInheritsRoot(fsys, codec, globals, e.name);
      }
    }
  }

  /** A key is stored exactly when it was known or is the key of some layout directory; `components` never is. */
  lemma {:induction false} LayoutKeys(fsys: FileSystem, codec: PathCodec, globals: map<string, string>, entries: seq<Entry>,
                                      key: string -> string, known: map<string, ContextState>, k: string)
    ensures k in IndexLayouts(fsys, codec, globals, entries, key, known) <==>
      k in known || exists i | 0 <= i < |entries| :: IsLayoutDir(entries[i]) && key(entries[i].name) == k
  {
    if entries != [] {
      var n := |entries| - 1;
      LayoutKeys(fsys, codec, globals, entries[..n], key, known, k);
      if exists i | 0 <= i < n :: IsLayoutDir(entries[..n][i]) && key(entries[..n][i].name) == k {
        var i :| 0 <= i < n && IsLayoutDir(entries[..n][i]) && key(entries[..n][i].name) == k;
        assert entries[i] == entries[..n][i];
      }
      if exists i | 0 <= i < |entries| :: IsLayoutDir(entries[i]) && key(entries[i].name) == k {
        var i :| 0 <= i < |entries| && IsLayoutDir(entries[i]) && key(entries[i].name) == k;
        if i < n { assert entries[..n][i] == entries[i]; }
      }
    }
  }

  /** The last layout directory with a key decides what is stored under it. */
  lemma {:induction false} LayoutLastEntryWins(fsys: FileSystem, codec: PathCodec, globals: map<string, string>, entries: seq<Entry>,
                                               key: string -> string, known: map<string, ContextState>, i: nat)
    requires i < |entries| && IsLayoutDir(entries[i])
    requires forall j | i < j < |entries| :: !(IsLayoutDir(entries[j]) && key(entries[j].name) == key(entries[i].name))
    ensures key(entries[i].name) in IndexLayouts(fsys, codec, globals, entries, key, known)
    ensures IndexLayouts(fsys, codec, globals, entries, key, known)[key(entries[i].name)] == LayoutContext(fsys, codec, globals, entries[i].name)
  {
    var n := |entries| - 1;
    if i < n {
      assert entries[..n][i] == entries[i];
      LayoutLastEntryWins(fsys, codec, globals, entries[..n], key, known, i);
    }
  }

  /**
   * A layout keeps the root's globals except where its own `_` files define the
   * same name; its locals are only its own; it is stored uncompiled under its route path.
   */
  lemma LayoutInheritsRoot(fsys: FileSystem, codec: PathCodec, globals: map<string, string>, name: string)
    ensures var url := codec.fsToRoute(name);
      var own := ParseOutcome(fsys, codec, Empty(url)).state;
      var stored := LayoutContext(fsys, codec, globals, name);
      && stored.Path == url && stored.cache == null
      && stored.globals == globals + own.globals
      && stored.locals == own.locals
  {
    var url := codec.fsToRoute(name);
    var start := Empty(url).(globals := map[] + globals);
    ParseOverridesInstalled(fsys, codec, start);
    ParseKeepsIdentity(fsys, codec, start);
    assert map[] + globals == globals;
    assert map[] + ParseOutcome(fsys, codec, Empty(url)).state.locals == ParseOutcome(fsys, codec, Empty(url)).state.locals;
  }
}
