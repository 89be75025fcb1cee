# Template index and registries, modelled in Dafny

This project models the template-index and registry core of a Go web
templating package. The package has three drafts, and each gets its own
Dafny module.

- **templatingv2** (`Context`, `TRegistry`, `Layouts`, `LRegistry`, `Errors`):
  - A `TemplateContext` indexes one directory of the template file system. It puts
    each file whose extension is a template format into one of two maps:
    `globals` for names starting with `_`, `locals` for the rest. It looks one level
    into `components/`.
  - A context compiles its files into one namespace on first use, globals first and
    then locals, and caches the namespace.
  - The route registry walks the file system. It stores one context value per
    directory under its route path. A directory receives its parent's globals
    before it parses its own files.
  - `Add` grafts a route's compiled namespace into a namespace that the caller
    supplies.
  - There are two layout registries:
    - layout_registry.go keys layouts by bare directory name and parses lazily
      behind a `parsed` flag;
    - lregistry.go keys them by route path, stores pointers, and answers with the
      layout's `root` template.
  - Every failure is wrapped in `FSError`, which carries the file it concerns.
- **templating** (`GlobContext`): the glob-based draft of the context. It classifies
  files with twelve glob patterns and stores parsed templates. `GetRoot`, `GetBody`
  and `GetHead` graft every global and then every local into the named template and
  memoise the result.
- **templating_test** (`TestRoutes`, `TestLayouts`): registries built on the glob
  context. They store context pointers.
  - They copy the parent's (or the root's) globals after the child has parsed, so
    inherited globals win.
  - The route registry stores a directory only when its parent's key is present.

Supporting modules:
- `Wrappers`: Option and Result.
- `Paths`: `strings` and `path/filepath` helpers on `/`-separated paths.
- `Externals`: the file system as a value, parse trees, `Namespace` for
  `*template.Template`, the path codec, and helper functions.

How state is modelled:
- Go value semantics are kept: templatingv2's registries store `ContextState`
  values, and reading one out (`tc := r.templates[path]`) makes a copy
  (`TemplateContext.Copy`).
- Pointer-holding registries hold class references, and their contracts speak of a
  ghost `States()` view.
- Every walk, scan and glob loop is proved against a snoc-recursive specification
  function (`Walk`, `ScanEntries`, `IndexGlobs`, `WalkRoutes`, `WalkLayouts`, …).
  Lemmas then state what the source promises about that function.
- The model follows the code as written, including where the drafts behave surprisingly:
  - `TRegistry` stores a directory even when its own parse fails, and even when its
    parent route is absent. The directory then simply inherits nothing.
  - `TRegistry.Register` returns a new registry and leaves the receiver unchanged.
  - The templating_test registries let inherited globals override a directory's
    own.
  - `TRegistry.Get` is a stub that always succeeds.
  - In templatingv2, files are read only when compiling, so a missing file fails
    the compile. The glob draft skips unreadable files while parsing.
  - The templating_test route registry stores the walk's "." under "/.".
  - In the glob draft, `GetRoot` and `GetBody` share one memo slot.
  - The templating_test layout guard does not restrict layouts to the top level
    (see Findings).

## Model

| member | source | states |
|---|---|---|
| Errors.NewError | templatingv2/templating/errors.go:8-10 | the wrapped error keeps the cause and the file exactly as given |
| Errors.FSErrorMessageShape | templatingv2/templating/errors.go:12-14 | `Message`, which models `FSError.Error()`: the message is the cause's message, then ": ", then the file; its length is the sum of the parts plus 2 |
| Errors.FSErrorMessageDeterminesFile | templatingv2/templating/errors.go:12-14 | for a fixed cause, the message determines the file |
| Externals.AddFuncs | templatingv2/templating/tregistry.go:46-50 | the helper table afterwards is the old table overridden by the supplied one: no name is removed, supplied names take the new value |
| Externals.Namespace.constructor | templatingv2/templating/context.go:158 | template.New gives an empty namespace carrying the given name |
| Externals.Namespace.AddParseTree | templatingv2/templating/context.go:186 | defines or redefines exactly one name and leaves every other name alone |
| Paths.ParentOfNested | templatingv2/templating/tregistry.go:65-66 | splitting `dir/name` at '/', dropping the last element and joining again gives back `dir` |
| Paths.ParentOfTopLevel | templatingv2/templating/tregistry.go:65-66 | a top-level directory's parent path is the empty string |
| Paths.SplitListMany | templating_test/templating/layouts.go:62-66 | filepath.SplitList yields more than one element exactly when the path contains ':' |
| Context.Load | templatingv2/templating/context.go:176-184 | an unreadable file fails with FileAccessError carrying its path; a readable file loads exactly when it parses |
| Context.ReadTemplates | templatingv2/templating/context.go:174-193 | succeeds exactly when every indexed file loads; on success the namespace gains exactly the indexed names, each with its own tree; on failure the error is the load error of some indexed file |
| Context.TemplateContext.constructor | templatingv2/templating/context.go:38-45 | a new context has the given path, empty maps and no cache |
| Context.TemplateContext.Copy | templatingv2/templating/tregistry.go:88 | the copy Go makes when a context value is read out of a map equals the stored value |
| Context.TemplateContext.Parse | templatingv2/templating/context.go:47-96 | the error and the new maps are those of the full scan: an unreadable directory gives InvalidPathError with the route path and leaves the maps; a failed `components` listing stops the scan and keeps the entries added before it |
| Context.TemplateContext.IndexEntry | templatingv2/templating/context.go:55-93 | one entry of the loop: a `components` directory is listed one level deep (a failed listing reports FileAccessError with the joined path); any other entry is judged by its extension |
| Context.TemplateContext.IndexFile | templatingv2/templating/context.go:81-92 | a file with a template extension is recorded under its name without the extension, in globals when it starts with `_`, else in locals; other files change nothing |
| Context.TemplateContext.IndexComponents | templatingv2/templating/context.go:63-76 | the component loop records every component file in listing order, each under the joined `components/` path |
| Context.TemplateContext.SetGlobals | templatingv2/templating/context.go:98-104 | every supplied key takes the supplied value, every other global stays, and the result is nil |
| Context.TemplateContext.GetGlobals | templatingv2/templating/context.go:106-108 | returns the context's own globals map |
| Context.TemplateContext.Add | templatingv2/templating/context.go:110-127 | on a cache hit, returns the cache and ignores `t`; on a miss, succeeds exactly when all files compile, then fills the caller's `t` (globals, then locals over them) and caches that same `t`; on failure nothing is cached and the error is the first pass's failure |
| Context.TemplateContext.Compile | templatingv2/templating/context.go:115-126 | the two readTemplates passes: success exactly when every global and every local loads; the namespace gains the globals overridden by the locals; a global's failure is reported before any local is read |
| Context.TemplateContext.GetByName | templatingv2/templating/context.go:129-148 | same as Get: the fresh namespace is named after the context path, holds exactly the compiled trees, and is cached only on success |
| Context.TemplateContext.Get | templatingv2/templating/context.go:153-172 | a cache hit returns the cache unchanged; a miss compiles into a fresh namespace named after Path and caches it only on success; a failure leaves the cache nil |
| Context.OverlayKeys | templatingv2/templating/context.go:88-92 | a name is indexed exactly when it was installed before or some scanned file of that kind has it |
| Context.OverlayLastWins | templatingv2/templating/context.go:88-92 | the last scanned file of a name decides its entry |
| Context.OverlayOnTop | templatingv2/templating/context.go:88-92 | the directory's own files sit on top of whatever was installed before parsing |
| Context.FileCandidateShape | templatingv2/templating/context.go:81-92 | a recorded file's key plus its extension is the file name; it is global exactly when the key starts with `_`; its path is the directory joined with the name |
| Context.ComponentCandidatesShape | templatingv2/templating/context.go:63-75 | every component file is keyed and classified by the same rule, under the `components` directory |
| Context.ScanShape | templatingv2/templating/context.go:55-93 | every indexed file has a template extension, is keyed by its name without it, is global exactly when the key starts with `_`, and lies in the directory or in its `components` sub-directory |
| Context.ScanFindsFiles | templatingv2/templating/context.go:81-92 | after a successful scan, every top-level file with a template extension is among the recorded files, under its trimmed name |
| Context.ScanErrorSticks | templatingv2/templating/context.go:59-61 | once the scan fails, later entries change nothing |
| Context.ScanErrorIsComponents | templatingv2/templating/context.go:57-61 | a failed scan is always an unlistable `components` directory, reported as FileAccessError with its joined path |
| Context.ParseOverridesInstalled | templatingv2/templating/context.go:55-93 | parsing over installed globals equals the installed globals overridden by the directory's own; the error does not depend on what was installed |
| Context.ParseKeepsIdentity | templatingv2/templating/context.go:47-96 | parsing changes neither the route path nor the cache |
| Context.ParsedKeysByPrefix | templatingv2/templating/context.go:88-92 | from a fresh context, every global key starts with `_` and no local key does |
| Context.LocalShadowsGlobal | templatingv2/templating/context.go:160-168 | in the compiled namespace, a local name always shows its own file's tree, whatever global shares the name |
| TRegistry.Graft | templatingv2/templating/tregistry.go:111-116 | `t` gains every template of the route namespace, overwriting same-named ones and keeping all others, even when both are the same namespace |
| TRegistry.TemplateRegistry.constructor | templatingv2/templating/tregistry.go:26-38 | a new registry is unparsed, with empty maps and only the `safe` helper |
| TRegistry.TemplateRegistry.Register | templatingv2/templating/tregistry.go:42-44 | returns a fresh, unparsed, empty registry over the merged file system; the receiver is unchanged |
| TRegistry.TemplateRegistry.RegisterFuncs | templatingv2/templating/tregistry.go:46-50 | the helper table is the old one overridden by the supplied one |
| TRegistry.TemplateRegistry.Parse | templatingv2/templating/tregistry.go:52-81 | sets `parsed`, then leaves exactly the contexts the walk stores, in visit order |
| TRegistry.TemplateRegistry.IndexDir | templatingv2/templating/tregistry.go:61-77 | one directory is stored under its route: the parent's globals are installed if the parent route is known, then its own files are parsed, and any parse error is ignored |
| TRegistry.TemplateRegistry.Add | templatingv2/templating/tregistry.go:85-119 | a cached route is grafted as is; an unknown route on an unparsed registry parses once and retries, and on a parsed one gives NoTemplateError with the path; otherwise the route compiles exactly when its files load, is cached under the path, and is grafted into `t`; a compile error caches nothing and leaves `t` alone |
| TRegistry.TemplateRegistry.Get | templatingv2/templating/tregistry.go:122-124 | always succeeds |
| TRegistry.WalkGrows | templatingv2/templating/tregistry.go:56-80 | the walk only adds or replaces routes and stores every context uncompiled |
| TRegistry.WalkKeys | templatingv2/templating/tregistry.go:56-80 | a route is stored exactly when it was known before or some visited directory maps to it; a directory is stored even when its own parse fails |
| TRegistry.WalkLastVisitWins | templatingv2/templating/tregistry.go:77 | the last directory mapped to a route decides what is stored there |
| TRegistry.DirContextInherits | templatingv2/templating/tregistry.go:64-75 | a non-root directory whose parent route is known has the parent's globals overridden by its own `_` files, and only its own locals; any other directory has only its own files |
| TRegistry.NestedParentRoute | templatingv2/templating/tregistry.go:65-67 | a nested directory looks its parent up under the route of its enclosing directory |
| TRegistry.TopLevelParentRoute | templatingv2/templating/tregistry.go:65-69 | a top-level directory looks its parent up under the root's route exactly when the codec maps "" like "." |
| Layouts.NewLayout | templatingv2/templating/layout_registry.go:71-74 | a fresh context for a layout directory: the root's globals are installed, then its own files are parsed |
| Layouts.LayoutRegistry.constructor | templatingv2/templating/layout_registry.go:23-35 | a new registry is unparsed, with empty maps and only the `safe` helper |
| Layouts.LayoutRegistry.Register | templatingv2/templating/layout_registry.go:38-40 | returns a fresh, unparsed, empty registry over the merged file system; the receiver is unchanged |
| Layouts.LayoutRegistry.RegisterFuncs | templatingv2/templating/layout_registry.go:43-47 | the helper table is the old one overridden by the supplied one |
| Layouts.LayoutRegistry.Parse | templatingv2/templating/layout_registry.go:49-80 | sets `parsed` first; a root parse error is returned with no layouts added; an unreadable root gives FileAccessError for "."; otherwise every layout directory is stored by value under its bare name |
| Layouts.LayoutRegistry.Get | templatingv2/templating/layout_registry.go:84-114 | a cache hit returns the cached namespace without consulting `layouts`; an unknown name parses once on an unparsed registry and retries, propagating a parse error, and otherwise gives NoTemplateError with the name; a known name compiles exactly when its files load, is cached under the name, and the same namespace is returned |
| Layouts.IndexLayoutsGrows | templatingv2/templating/layout_registry.go:66-77 | the loop only adds or replaces layouts, all uncompiled |
| Layouts.LayoutKeys | templatingv2/templating/layout_registry.go:66-77 | a key is stored exactly when it was known or is the key of a directory entry other than `components` |
| Layouts.LayoutLastEntryWins | templatingv2/templating/layout_registry.go:76 | the last layout directory with a key decides what is stored under it |
| Layouts.LayoutInheritsRoot | templatingv2/templating/layout_registry.go:72-74 | a layout has the root's globals overridden by its own `_` files, only its own locals, and its route as path |
| LRegistry.RootOf | templatingv2/templating/lregistry.go:85-88 | looking up `root` succeeds exactly when a file defined it or the namespace itself is named `root`; otherwise NoTemplateError with the layout name |
| LRegistry.LayoutRegistry.constructor | templatingv2/templating/lregistry.go:24-34 | a new registry has an empty cache and only the `safe` helper |
| LRegistry.LayoutRegistry.Register | templatingv2/templating/lregistry.go:36-39 | the receiver's file system becomes the merged one and its cache is emptied |
| LRegistry.LayoutRegistry.RegisterFuncs | templatingv2/templating/lregistry.go:41-45 | the helper table is the old one overridden by the supplied one |
| LRegistry.LayoutRegistry.Parse | templatingv2/templating/lregistry.go:47-71 | the root's parse error is ignored; an unreadable root gives FileAccessError for "."; every layout directory's context is stored under its route path |
| LRegistry.LayoutRegistry.StoreLayout | templatingv2/templating/lregistry.go:62-67 | one layout: the root's globals, then its own files, stored by reference under its route |
| LRegistry.LayoutRegistry.Get | templatingv2/templating/lregistry.go:73-92 | no stored context gives NoTemplateError with the name; otherwise the stored context compiles (or answers from its own cache), a compile error propagates, and the answer is the `root` lookup of the namespace |
| LRegistry.RoutedLayoutKeys | templatingv2/templating/lregistry.go:57-68 | a route is stored exactly when it was known or is the route of a layout directory |
| LRegistry.RootErrorIgnored | templatingv2/templating/lregistry.go:48-55 | Parse fails exactly when the root cannot be listed, and then adds nothing |
| GlobContext.Globs | templating/templating/context.go:192-201 | the patterns built in the loop are those of the format list, three per format |
| GlobContext.GlobsOrder | templating/templating/context.go:192-201 | for each format in order: `_components/*.f`, `components/*.f`, `*.f` |
| GlobContext.GlobsLength | templating/templating/context.go:192-201 | three patterns per format, twelve in all |
| GlobContext.GlobalPattern | templating/templating/context.go:83-87 | a pattern yields globals exactly when it lists `_components`, so a top-level `_x.html` is local |
| GlobContext.Matching | templating/templating/context.go:49 | the matches of `*.ext` are exactly the listed entries whose name ends in `.ext` |
| GlobContext.LoadMatch | templating/templating/context.go:58-81 | a match yields a template exactly when it is not a directory and its file is readable and parses; the template carries that file's tree, is named after the file without its extension, and defines only itself |
| GlobContext.IndexMatchesKeys | templating/templating/context.go:57-88 | one pattern's matches leave the other map alone and record a name exactly when it was there before or some loading match yields it; skipped matches record nothing |
| GlobContext.IndexMatchesLastWins | templating/templating/context.go:84-88 | the last match yielding a name decides the template recorded under it |
| GlobContext.TemplateContext.constructor | templating/templating/context.go:33-39 | a new context has the given path, empty maps and empty memo slots |
| GlobContext.TemplateContext.Parse | templating/templating/context.go:41-92 | an invalid directory path gives InvalidPathError and changes nothing; otherwise every pattern's matches are recorded in order, and the result is nil |
| GlobContext.TemplateContext.IndexAll | templating/templating/context.go:48-89 | the pattern loop records the matches of every pattern in order |
| GlobContext.TemplateContext.IndexPattern | templating/templating/context.go:49-88 | one pattern records its matches as globals exactly when the pattern starts with `_` |
| GlobContext.TemplateContext.IndexMatchList | templating/templating/context.go:57-88 | the match loop records the matches in order, a later one replacing a same-named earlier one |
| GlobContext.TemplateContext.RecordMatch | templating/templating/context.go:58-87 | one match's template, if any, is recorded under its name in the map of its kind |
| GlobContext.TemplateContext.SetGlobals | templating/templating/context.go:94-99 | every supplied key takes the supplied template, other globals stay, and the result is nil |
| GlobContext.TemplateContext.GetGlobals | templating/templating/context.go:101-103 | returns the context's own globals map |
| GlobContext.TemplateContext.Graft | templating/templating/context.go:115-127 | the template gains every global and then every local under its name |
| GlobContext.TemplateContext.GetRoot | templating/templating/context.go:105-132 | a filled body slot is returned; no `root` local gives NoTemplateError; otherwise the grafted `root` local is stored in the body slot and in locals |
| GlobContext.TemplateContext.GetBody | templating/templating/context.go:134-161 | a filled body slot is returned, whichever of GetRoot or GetBody filled it; no `body` local gives NoTemplateError; otherwise the grafted `body` local is memoised in the body slot |
| GlobContext.TemplateContext.GetHead | templating/templating/context.go:163-190 | a filled head slot is returned; no `head` local gives NoTemplateError; otherwise the grafted `head` local is memoised in the head slot |
| GlobContext.NewParsed | templating_test/templating/contexts.go:59-60 | a fresh context after Parse holds the parsed value of its directory and reports Parse's error |
| GlobContext.IndexGlobsNamed | templating/templating/context.go:48-89 | parsing keeps every template under its own name |
| GlobContext.IndexMatchesNamed | templating/templating/context.go:74-86 | one pattern's matches are recorded under their own names |
| GlobContext.ComposedResolves | templating/templating/context.go:115-127 | after grafting, a name is defined exactly when the template, a global or a local has it; a local beats a global, and a global beats the template's own definition |
| GlobContext.ComposedKeepsIdentity | templating/templating/context.go:116 | grafting keeps the template's name and own tree |
| TestRoutes.Inherit | templating_test/templating/contexts.go:87 | the child's globals become its own overridden by the parent's |
| TestRoutes.TemplateRegistry.constructor | templating_test/templating/contexts.go:22-32 | a new registry has an empty cache and only the `safe` helper |
| TestRoutes.TemplateRegistry.Register | templating_test/templating/contexts.go:34-37 | the file system becomes the merged one and the cache is emptied |
| TestRoutes.TemplateRegistry.RegisterFuncs | templating_test/templating/contexts.go:39-43 | the helper table is the old one overridden by the supplied one |
| TestRoutes.TemplateRegistry.Parse | templating_test/templating/contexts.go:45-97 | the root is stored under "/" first, then the walk callback runs on every visit in order |
| TestRoutes.TemplateRegistry.StoreRoot | templating_test/templating/contexts.go:46-49 | the parsed root context is stored under "/" and its error is ignored |
| TestRoutes.TemplateRegistry.VisitDir | templating_test/templating/contexts.go:53-95 | a directory is stored under "/" + path exactly when it parses and its head key is present, with the parent's globals over its own |
| TestRoutes.TemplateRegistry.Prepare | templating_test/templating/contexts.go:59-91 | gives nil exactly when the directory fails to parse or its head key is missing; otherwise the parsed context with the parent's globals copied in |
| TestRoutes.TemplateRegistry.Store | templating_test/templating/contexts.go:93 | stores one context reference and changes no other key |
| TestRoutes.TemplateRegistry.Get | templating_test/templating/contexts.go:99-101 | a plain lookup: the stored context, or nothing when the key is absent |
| TestRoutes.TopLevelHead | templating_test/templating/contexts.go:67-76 | a top-level directory (and "." itself) looks its parent up under "/" |
| TestRoutes.NestedHead | templating_test/templating/contexts.go:67-76 | a nested directory's head key does not start with "/" |
| TestRoutes.TopLevelInheritsRoot | templating_test/templating/contexts.go:59-93 | once the root is stored, a top-level directory is stored with its own templates and the root's globals over its own |
| TestRoutes.NestedNeverStored | templating_test/templating/contexts.go:81-93 | every stored key starts with "/", so a nested directory never finds its parent; only known keys and top-level directories are stored |
| TestLayouts.NewLayout | templating_test/templating/layouts.go:68-70 | a fresh layout context: its own directory is parsed, then the root's globals are copied in |
| TestLayouts.LayoutRegistry.constructor | templating_test/templating/layouts.go:21-31 | a new registry has an empty cache and only the `safe` helper |
| TestLayouts.LayoutRegistry.Register | templating_test/templating/layouts.go:33-36 | the file system becomes the merged one and the cache is emptied |
| TestLayouts.LayoutRegistry.RegisterFuncs | templating_test/templating/layouts.go:38-42 | the helper table is the old one overridden by the supplied one |
| TestLayouts.LayoutRegistry.Parse | templating_test/templating/layouts.go:44-76 | the root's globals are taken (its error ignored); every visited directory other than "." that the guard passes is stored under its raw path |
| TestLayouts.LayoutRegistry.VisitLayout | templating_test/templating/layouts.go:68-72 | one layout is stored under its path: its own templates with the root's globals over them |
| TestLayouts.LayoutRegistry.Store | templating_test/templating/layouts.go:72 | stores one context reference and changes no other key |
| TestLayouts.LayoutRegistry.Get | templating_test/templating/layouts.go:78-80 | a plain lookup: the stored context, or nothing when the key is absent |
| TestLayouts.SkippedOnlyWithColon | templating_test/templating/layouts.go:62-66 | as written, the guard skips a directory exactly when its path contains ':' |
| TestLayouts.SubdirectoryStored | templating_test/templating/layouts.go:62-66 | as written, the walk [".", "a", "a/b"] stores the subdirectory "a/b" as a layout |
| TestLayouts.TopLayoutsFlat | templating_test/templating/layouts.go:62-66 | with the guard splitting at '/', every stored key was known or is a top-level directory without '/' |
| TestLayouts.RootGlobalsWin | templating_test/templating/layouts.go:68-70 | a layout holds every root global unchanged, over its own same-named ones, and only its own locals |

## Left out

- File-system access (`fs.ReadDir`, `ReadFile`, `Stat`, `Glob`, `Sub`, `WalkDir`) is I/O. The file system is a value instead:
  - a listing per readable directory;
  - the read-and-parse outcome of each readable file;
  - the sequence of visits `WalkDir` makes.
- A file that vanishes between `Stat` and `ReadFile` is not modelled: a file is either readable or not.
- `merged_fs.MergeMultiple` is passed to `Register` as an opaque `merge` function.
- `FSPathToPath` and `PathToFSPath` are not part of this model. They are a caller-supplied `PathCodec`, and any assumption about them is a `requires`, as in `TRegistry.TopLevelParentRoute`.
- html/template internals are not modelled:
  - parsing is the file's recorded outcome;
  - `AddParseTree` never fails in the model, so its error branches are left out;
  - `Clone`, `Execute`, escaping and `Templates()` enumeration order are not modelled.
- Helper functions (`template.FuncMap`, e.g. `safe`) are opaque tokens.
- `store.Store` is a plain map, and its mutex is not modelled. Concurrency is left out, including the unsynchronised `parsed` flag of layout_registry.go.
- Logging (`fmt.Println`) has no effect and is left out.
- The two `main.go` files (HTTP handlers and start-up) are not part of this model.
- Go map iteration order is modelled as an arbitrary choice. This is why a failing compile reports the error of some failing file, and not of a specific one.
- `Paths.Join` covers only the operands this code passes: a clean directory or "." and one or two plain elements. It does not clean `..`.
- The glob draft's bad-pattern error branch cannot be reached, because the twelve patterns are fixed and well formed. A glob error is not modelled.
- The WalkDir callbacks of tregistry.go and contexts.go call `d.IsDir()` without checking the walk error. `fs.WalkDir` passes a nil `d` only when the root "." cannot be opened, and that panic is left out; layouts.go returns on "." before touching `d`. An unreadable subdirectory causes no panic: the callback sees it a second time with the error, so it is visited (and in tregistry.go stored) twice. The model takes the walk as a given sequence of visits, which may repeat a directory in this way.
- The unused declarations are left out: `Headers`, `TEMPLATE_HEADERS`, the `*_CONTEXT_NAME` constants, `InvalidTemplateError`, and the `Template` type alias.
- layout_registry.go and lregistry.go both declare `LayoutRegistry` in one Go package, so they cannot compile together. They are modelled as two independent modules, `Layouts` and `LRegistry`.
- Cross-context aliasing of template pointers in the glob draft is not modelled:
  - `SetGlobals` copies pointers, and `GetRoot`/`GetBody`/`GetHead` mutate the looked-up local in place;
  - templates are values, and the mutated local is written back into `locals`, which is what the context itself observes.
- GlobContext.TemplateContext.SetGlobals: requires its argument to store every template under its own name (as every map the code passes does), because the grafting contracts rely on it.

## Findings

| source | as written | input that shows it | evidently intended | confidence | as-written member | corrected member |
|---|---|---|---|---|---|---|
| templating_test/templating/layouts.go:62-66 | the "no subdirectories" guard splits the walk path with `filepath.SplitList`, which splits at the list separator ':' | a layouts tree with a directory `a/b`: the walk visits ".", "a", "a/b"; `SplitList("a/b")` has one element, so "a/b" is stored as a layout | split the path at '/', so that only top-level directories become layouts | not executed | TestLayouts.SubdirectoryStored | TestLayouts.TopLayoutsFlat |
