/** Option, the value-or-nothing datatype used throughout the model. */
module Wrappers {

  datatype Option<+T> = None | Some(value: T)

  /** True iff `p` is a prefix of `s` (JavaScript's `String.prototype.startsWith`). */
  predicate StartsWith(s: string, p: string) {
    |p| <= |s| && s[..|p|] == p
  }

  /** The middle piece of a concatenation is found where it was put. */
  lemma Middle(a: string, t: string, b: string)
    ensures (a + t + b)[|a|..|a| + |t|] == t
  {
  }
}
