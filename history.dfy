/**
 * The bounded, append-only histories the services keep
 * (`push` followed by `slice(-N)` when longer than N) and the
 * most-recent-first copies they hand out (`[...h].reverse()`).
 */
module History {

  /** `s.length > n ? s.slice(-n) : s`: the last `n` entries, in order. */
  function KeepLast<T>(s: seq<T>, n: nat): (r: seq<T>)
    ensures |r| <= n && |r| <= |s|
    ensures |r| == |s| || |r| == n
    ensures r == s[|s| - |r|..]
  {
    if |s| > n then s[|s| - n..] else s
  }

  /**
   * Appending to a history that is within its bound either just grows it, or
   * drops exactly the oldest entry: the new entry is always last.
   */
  lemma AppendBounded<T>(s: seq<T>, x: T, n: nat)
    requires 0 < n && |s| <= n
    ensures KeepLast(s + [x], n) == if |s| < n then s + [x] else s[1..] + [x]
    ensures KeepLast(s + [x], n)[|KeepLast(s + [x], n)| - 1] == x
  {
    if |s| == n {
      assert (s + [x])[1..] == s[1..] + [x];
    }
  }

  /** `[...s].reverse()`. */
  function Reversed<T>(s: seq<T>): (r: seq<T>)
    ensures |r| == |s|
  {
    seq(|s|, i requires 0 <= i < |s| => s[|s| - 1 - i])
  }

  /** The reversed copy lists the entries most recent first, and reversing it again gives the history back. */
  lemma ReversedProperties<T>(s: seq<T>)
    ensures forall k :: 0 <= k < |s| ==> Reversed(s)[k] == s[|s| - 1 - k]
    ensures Reversed(Reversed(s)) == s
    ensures s != [] ==> Reversed(s)[0] == s[|s| - 1]
  {
  }
}
