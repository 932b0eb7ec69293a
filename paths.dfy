/** Filesystem paths, with `join` taken as plain concatenation around one separator. */
module Paths {

  type Path = string

  const Separator: char := '/'

  /** `path.join(dir, entry)` for a single-segment `entry`: the separator sits between the two parts. */
  function Join(dir: Path, entry: string): (p: Path)
    ensures |p| == |dir| + 1 + |entry|
    ensures p[..|dir|] == dir && p[|dir|] == Separator && p[|dir| + 1..] == entry
  {
    dir + [Separator] + entry
  }
}
