/**
 * System.IO.Path.Combine of two parts, as .NET (Core) defines it, on either platform:
 * a rooted second part replaces the first; otherwise the parts are joined with the
 * platform's separator unless one is already there.
 */
module Paths {
  import opened Strings

  datatype Platform = Windows | Unix

  function DirectorySeparator(p: Platform): char {
    if p == Windows then '\\' else '/'
  }

  /** '/' separates on both platforms; '\' only on Windows. */
  predicate IsSeparator(p: Platform, c: char) {
    c == '/' || (p == Windows && c == '\\')
  }

  /** Path.IsPathRooted: a leading separator, or on Windows a drive such as "C:". */
  predicate IsPathRooted(p: Platform, path: string) {
    || (|path| >= 1 && IsSeparator(p, path[0]))
    || (p == Windows && |path| >= 2 && IsAsciiLetter(path[0]) && path[1] == ':')
  }

  function Combine(p: Platform, a: string, b: string): string {
    if |b| == 0 then a
    else if |a| == 0 then b
    else if IsPathRooted(p, b) then b
    else if IsSeparator(p, a[|a| - 1]) || IsSeparator(p, b[0]) then a + b
    else a + [DirectorySeparator(p)] + b
  }

  /** The combined path always ends with the second part, and starts with the first unless the second is rooted. */
  lemma CombineKeepsParts(p: Platform, a: string, b: string)
    ensures EndsWith(Combine(p, a, b), b)
    ensures !IsPathRooted(p, b) ==> StartsWith(Combine(p, a, b), a)
  {
    var r := Combine(p, a, b);
    if |b| > 0 && |a| > 0 && !IsPathRooted(p, b) {
      assert r[..|a|] == a;
    }
    assert r[|r| - |b|..] == b;
  }
}
