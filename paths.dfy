/**
 * Ruby's `File.join` for two parts, with the separator handling of the
 * Ruby runtime, and the last segment of a path, which is what the
 * simulator's file names become.
 */
module Paths {

  const Separator := '/'

  /** `s` with every trailing separator removed. */
  function TrimTrailingSeparators(s: string): (r: string)
    ensures |r| <= |s| && r == s[..|r|]
    ensures |r| > 0 ==> r[|r| - 1] != Separator
    ensures forall i :: |r| <= i < |s| ==> s[i] == Separator
  {
    if |s| > 0 && s[|s| - 1] == Separator then TrimTrailingSeparators(s[..|s| - 1]) else s
  }

  /**
   * `File.join(dir, name)`. When `name` starts with a separator, the
   * trailing separators of `dir` are dropped; otherwise one separator is
   * inserted unless `dir` already ends with one (an empty `dir` gives an
   * absolute path).
   */
  function JoinPath(dir: string, name: string): string {
    if |name| > 0 && name[0] == Separator then TrimTrailingSeparators(dir) + name
    else if |dir| > 0 && dir[|dir| - 1] == Separator then dir + name
    else dir + [Separator] + name
  }

  /** The part of `p` after its last separator (all of `p` when it has none). */
  function LastSegment(p: string): string {
    if |p| == 0 || p[|p| - 1] == Separator then ""
    else LastSegment(p[..|p| - 1]) + [p[|p| - 1]]
  }

  lemma {:induction false} LastSegmentAfterSeparator(prefix: string, name: string)
    requires |prefix| > 0 && prefix[|prefix| - 1] == Separator
    requires Separator !in name
    ensures LastSegment(prefix + name) == name
  {
    if |name| > 0 {
      var p := prefix + name;
      assert p[..|p| - 1] == prefix + name[..|name| - 1];
      LastSegmentAfterSeparator(prefix, name[..|name| - 1]);
    }
  }

  /**
   * Joining a directory and a name that does not start with a separator
   * keeps the directory as written at the front and ends with the name.
   */
  lemma JoinPathRelative(dir: string, name: string)
    requires |name| > 0 && name[0] != Separator
    ensures |dir| < |JoinPath(dir, name)|
    ensures JoinPath(dir, name)[..|dir|] == dir
    ensures JoinPath(dir, name)[|JoinPath(dir, name)| - |name|..] == name
  {
  }

  /**
   * Joining a directory and a name that has no separator in it and does
   * not start with one: the directory is kept as written, the result ends
   * with the name, and the name is the path's last segment.
   */
  lemma JoinPathShape(dir: string, name: string)
    requires |name| > 0 && Separator !in name
    ensures |dir| < |JoinPath(dir, name)|
    ensures JoinPath(dir, name)[..|dir|] == dir
    ensures JoinPath(dir, name)[|JoinPath(dir, name)| - |name|..] == name
    ensures LastSegment(JoinPath(dir, name)) == name
  {
    if |dir| > 0 && dir[|dir| - 1] == Separator {
      LastSegmentAfterSeparator(dir, name);
    } else {
      LastSegmentAfterSeparator(dir + [Separator], name);
    }
  }
}
