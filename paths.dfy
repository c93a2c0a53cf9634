/** Path strings and the POSIX flavour of Python's os.path.join for one
    component, which the adapter uses to place a virtual path under its root. */
module Paths {

  type Path = string

  /** The path starts with the separator. */
  predicate IsAbsolute(p: Path) {
    p != [] && p[0] == '/'
  }

  /** The path ends with the separator. */
  predicate EndsWithSep(p: Path) {
    p != [] && p[|p| - 1] == '/'
  }

  /** r is a followed by the relative path b, with exactly one separator
      between them when a is not empty (a's own trailing separator counts),
      and nothing between them when a is empty. */
  predicate JoinedUnder(r: Path, a: Path, b: Path) {
    && |a| + |b| <= |r| <= |a| + |b| + 1
    && a <= r
    && r[|r| - |b|..] == b
    && (a != [] ==> EndsWithSep(r[..|r| - |b|]))
    && (|r| == |a| + |b| + 1 ==> a != [] && !EndsWithSep(a))
  }

  /** os.path.join(a, b) on POSIX. An absolute b replaces a. Otherwise b is
      appended to a, with one separator in between unless a is empty or
      already ends with one. */
  function Join(a: Path, b: Path): (r: Path)
    ensures IsAbsolute(b) ==> r == b
    ensures !IsAbsolute(b) ==> JoinedUnder(r, a, b)
  {
    if IsAbsolute(b) then b
    else if a == [] || EndsWithSep(a) then a + b
    else a + "/" + b
  }

  /** With an empty base the join is the component itself. */
  lemma JoinEmptyBase(b: Path)
    ensures Join([], b) == b
  {
  }
}
