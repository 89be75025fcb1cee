/**
 * Errors of the `templating` packages.
 *
 * Go's `error` interface is modelled by one datatype: a sentinel made by
 * `errors.New`, the generic wrapper `FSError` (templatingv2/templating/errors.go)
 * that pairs a file or route with its cause, and the opaque message of a
 * template-engine parse failure.
 */
module Errors {

  datatype Error =
    | Sentinel(msg: string)
    | FSError(File: string, Err: Error)
    | TemplateSyntax(msg: string)

  // Sentinels of templatingv2/templating (context.go and lregistry.go).
  const InvalidPathError: Error := Sentinel("Invalid path. Must be a directory.")
  const FileAccessError: Error := Sentinel("could not stat file or directory")
  const NoTemplateError: Error := Sentinel("No template found for this path")

  // Sentinels of templating/templating/context.go (the glob-based draft).
  const DraftNoTemplateError: Error := Sentinel("no template found for this path")
  const DraftInvalidPathError: Error := Sentinel("invalid path. Could not create a sub.FS")

  /** `NewError(t, file)`: wraps the cause `t` with the file it concerns, both kept as given. */
  function NewError(t: Error, file: string): (e: Error)
    ensures e.FSError? && e.Err == t && e.File == file
  {
    FSError(file, t)
  }

  /** The text `Error()` yields. */
  function Message(e: Error): string
  {
    match e
    case Sentinel(m) => m
    case FSError(file, inner) => Message(inner) + ": " + file
    case TemplateSyntax(m) => m
  }

  /** The message of a wrapped error starts with the cause's message, ends with the file,
      and is exactly two characters (the ": " separator) longer than the two together. */
  lemma FSErrorMessageShape(t: Error, file: string)
    ensures var s := Message(NewError(t, file));
      && |s| == |Message(t)| + 2 + |file|
      && s[..|Message(t)|] == Message(t)
      && s[|Message(t)|..|Message(t)| + 2] == ": "
      && s[|s| - |file|..] == file
  {
    var s := Message(NewError(t, file));
    assert s == Message(t) + ": " + file;
  }

  /** Wrapping is injective: two wrapped errors with the same cause print the same text
      only when they carry the same file. */
  lemma FSErrorMessageDeterminesFile(t: Error, f1: string, f2: string)
    requires Message(NewError(t, f1)) == Message(NewError(t, f2))
    ensures f1 == f2
  {
    var s1, s2 := Message(NewError(t, f1)), Message(NewError(t, f2));
    assert s1 == Message(t) + ": " + f1;
    assert s2 == Message(t) + ": " + f2;
    assert f1 == s1[|Message(t)| + 2..];
    assert f2 == s2[|Message(t)| + 2..];
  }
}
