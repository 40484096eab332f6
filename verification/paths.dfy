/** File paths as the sequence of their `/`-separated segments. */
module Paths {

  /** One component of a POSIX path. */
  type Segment = string

  /**
   * A path as `as_posix().split("/")` returns it: never empty, the last
   * segment being the file name (`Path.name`).
   */
  type Path = seq<Segment>

  /** The extension of every document of the corpus. */
  const Extension: string := ".md"

  /** Python's `str.endswith`. */
  predicate EndsWith(s: string, suffix: string)
  {
    |suffix| <= |s| && s[|s| - |suffix|..] == suffix
  }

  /** Python's `str.removesuffix`: drops `suffix` once when `s` ends with it. */
  function RemoveSuffix(s: string, suffix: string): (r: string)
    ensures EndsWith(s, suffix) ==> r + suffix == s
    ensures !EndsWith(s, suffix) ==> r == s
  {
    if EndsWith(s, suffix) then s[..|s| - |suffix|] else s
  }

  /** The file name, `Path.name`. */
  function Last(p: Path): Segment
    requires |p| > 0
  {
    p[|p| - 1]
  }

  /** The file name without its `.md` extension. */
  function Stem(p: Path): string
    requires |p| > 0
  {
    RemoveSuffix(Last(p), Extension)
  }
}
