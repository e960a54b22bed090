/** Path validation. */
module Paths {

  /**
    filepath.IsAbs on a Unix host: the path has "/" as a prefix. In
    particular the empty path is relative, and an absolute path stays
    absolute whatever is appended to it.
   */
  predicate IsAbsolutePath(path: string): (abs: bool)
    ensures abs <==> "/" <= path
    ensures abs ==> forall suffix: string {:trigger path + suffix} :: "/" <= path + suffix
  {
    |path| > 0 && path[0] == '/'
  }
}
