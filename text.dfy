/** String helpers behind `str::repeat`, `chars().take(n)`, `str::contains` and pushing lines in pairs. */
module Text {

  /** `c` repeated `n` times. */
  function Repeat(c: char, n: nat): (r: string)
    ensures |r| == n
    ensures forall i :: 0 <= i < n ==> r[i] == c
  {
    if n == 0 then [] else Repeat(c, n - 1) + [c]
  }

  /** The first `n` characters of `s`, or all of `s` when it is shorter. */
  function Take(s: string, n: nat): (r: string)
    ensures |r| == if n <= |s| then n else |s|
    ensures r <= s
  {
    if n <= |s| then s[..n] else s
  }

  /** `w` occurs in `s` starting at index `i`. */
  predicate OccursAt(s: string, w: string, i: int) {
    0 <= i <= |s| - |w| && s[i..i + |w|] == w
  }

  /** `w` occurs in `s` as a contiguous substring. */
  predicate Contains(s: string, w: string) {
    exists i :: 0 <= i <= |s| - |w| && OccursAt(s, w, i)
  }

  /** An occurrence of a non-empty word shows its first character somewhere in the text. */
  lemma ContainsFirstChar(s: string, w: string)
    requires |w| > 0 && Contains(s, w)
    ensures exists k :: 0 <= k < |s| && s[k] == w[0]
  {
    var i :| 0 <= i <= |s| - |w| && OccursAt(s, w, i);
    assert s[i..i + |w|][0] == w[0];
  }

  /**
    * For the first `k` items of `xs`, the line `first(x)` and then the line
    * `second(x)` of each item `x`, in order.
    */
  function Interleave<T>(xs: seq<T>, k: nat, first: T -> string, second: T -> string): (r: seq<string>)
    requires k <= |xs|
    ensures |r| == 2 * k
  {
    if k == 0 then [] else Interleave(xs, k - 1, first, second) + [first(xs[k - 1]), second(xs[k - 1])]
  }

  /** Line `2 * i` belongs to item `i` through `first`, line `2 * i + 1` through `second`. */
  lemma {:induction false} InterleaveAt<T>(xs: seq<T>, k: nat, first: T -> string, second: T -> string, i: nat)
    requires i < k <= |xs|
    ensures Interleave(xs, k, first, second)[2 * i] == first(xs[i])
    ensures Interleave(xs, k, first, second)[2 * i + 1] == second(xs[i])
  {
    if i < k - 1 {
      InterleaveAt(xs, k - 1, first, second, i);
    }
  }
}
