/** Bounded histories: a deque that drops its oldest element when it grows too long. */
module Deques {

  /** The last `n` elements, or all when there are fewer. */
  function LastN<T>(s: seq<T>, n: nat): seq<T> {
    if |s| <= n then s else s[|s| - n..]
  }

  /** Appending to the trimmed history and trimming again trims the whole history. */
  lemma LastNAppend<T>(s: seq<T>, n: nat, x: T)
    requires n > 0
    ensures LastN(LastN(s, n) + [x], n) == LastN(s + [x], n)
  {
  }
}
