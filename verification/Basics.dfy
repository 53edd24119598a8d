/** Definitions shared by every part of the model. */
module Basics {

  datatype Option<+T> = None | Some(value: T)

  /** What `strncpy(dst, s, n)` leaves in a zeroed buffer that has room for a terminator. */
  function Trunc(s: string, n: nat): (t: string)
    ensures t <= s && |t| == if |s| <= n then |s| else n
  {
    if |s| <= n then s else s[..n]
  }

  /** The macro `STRING_EMPTY`: a missing string counts as empty. */
  predicate Empty(s: Option<string>) {
    s.None? || s.value == ""
  }
}
