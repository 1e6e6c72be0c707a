/** String helpers shared by the backend and the frontend models. */
module Strings {
  /** Python's `s.startswith(prefix)` and JavaScript's `s.startsWith(prefix)`. */
  predicate StartsWith(s: string, prefix: string) {
    |prefix| <= |s| && s[..|prefix|] == prefix
  }
}
