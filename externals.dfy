/**
 * The collaborators the templating code calls but does not define, reduced to
 * what the code observes of them: the virtual file system (io/fs), the parse
 * trees and namespaces of html/template, the path codec FSPathToPath /
 * PathToFSPath, and the FuncMap helper table.
 */
module Externals {
  import opened Wrappers

  /** A parsed template body (html/template's *parse.Tree); its contents are opaque. */
  datatype Tree = Tree(source: string)

  /** One entry of a directory listing (fs.DirEntry). */
  datatype Entry = Entry(name: string, isDir: bool)

  /** One call of an fs.WalkDir callback: the path and whether its entry is a directory. */
  datatype Visit = Visit(path: string, isDir: bool)

  /** What reading and parsing one file yields: a tree, or a template syntax error. */
  datatype Source = Parsed(tree: Tree) | Malformed(reason: string)

  /**
   * A file system as the code observes it: the listing of each readable directory,
   * the outcome of reading and parsing each readable file, and the sequence of
   * visits fs.WalkDir makes from "." (pre-order, lexical).
   */
  datatype FileSystem = FileSystem(
    dirs: map<string, seq<Entry>>,
    files: map<string, Source>,
    walk: seq<Visit>)

  /** fs.ReadDir: the listing, or None when the directory cannot be read. */
  function ReadDir(fsys: FileSystem, path: string): (r: Option<seq<Entry>>)
    ensures r.Some? <==> path in fsys.dirs
  {
    if path in fsys.dirs then Some(fsys.dirs[path]) else None
  }

  /**
   * FSPathToPath and PathToFSPath: used by the code but defined elsewhere, so they
   * are kept uninterpreted and supplied by the caller.
   */
  datatype PathCodec = PathCodec(fsToRoute: string -> string, routeToFS: string -> string)

  /** A template helper function (template.FuncMap value); opaque. */
  datatype Func = Func(id: string)

  /** The helper table every registry starts with: "safe" marks a string as trusted HTML. */
  const DefaultFuncs: map<string, Func> := map["safe" := Func("safe")]

  /** The copy loop of every RegisterFuncs: supplied names take the new value, no name is removed. */
  method AddFuncs(funcs: map<string, Func>, add: map<string, Func>) returns (r: map<string, Func>)
    ensures r == funcs + add
  {
    r := funcs;
    var rest := add.Keys;
    while rest != {}
      invariant rest <= add.Keys
      invariant r == funcs + map k | k in add.Keys - rest :: add[k]
      decreases rest
    {
      var k :| k in rest;
      r := r[k := add[k]];
      rest := rest - {k};
    }
  }

  /**
   * A *template.Template of templatingv2: a named namespace of parse trees that
   * AddParseTree updates in place and that is shared by reference.
   */
  class Namespace {
    const name: string
    var trees: map<string, Tree>

    /** template.New(name): an empty namespace. */
    constructor (name: string)
      ensures this.name == name && trees == map[]
    {
      this.name := name;
      trees := map[];
    }

    /** AddParseTree(n, tree): defines or redefines `n` in this namespace. */
    method AddParseTree(n: string, tree: Tree)
      modifies this
      ensures trees == old(trees)[n := tree]
    {
      trees := trees[n := tree];
    }
  }
}
