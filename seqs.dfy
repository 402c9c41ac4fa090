/** Sequence helpers: a list of equal entries and the concatenation of a list of lists. */
module Seqs {

  /** `n` copies of `x`, as `[x for _ in range(n)]` builds them. */
  function Repeat<T>(n: nat, x: T): (r: seq<T>)
    ensures |r| == n && forall i :: 0 <= i < n ==> r[i] == x
  {
    if n == 0 then [] else Repeat(n - 1, x) + [x]
  }

  lemma RepeatAdd<T>(m: nat, n: nat, x: T)
    ensures Repeat(m + n, x) == Repeat(m, x) + Repeat(n, x)
  {
    assert |Repeat(m + n, x)| == |Repeat(m, x) + Repeat(n, x)|;
  }

  /** The lists of `ss` one after the other. */
  function Flatten<T>(ss: seq<seq<T>>): seq<T>
  {
    if ss == [] then [] else Flatten(ss[..|ss| - 1]) + ss[|ss| - 1]
  }

  /** Flattening also peels from the front. */
  lemma {:induction false} FlattenCons<T>(x: seq<T>, ss: seq<seq<T>>)
    ensures Flatten([x] + ss) == x + Flatten(ss)
  {
    if ss != [] {
      var front := ss[..|ss| - 1];
      FlattenCons(x, front);
      assert ([x] + ss)[..|[x] + ss| - 1] == [x] + front;
    } else {
      assert ([x] + ss)[..0] == [];
    }
  }

  /** A Python slice bound: negative counts from the end, then clamped to the list. */
  function PyBound(i: int, len: nat): (b: nat)
    ensures b <= len
  {
    if i < 0 then (if i + len < 0 then 0 else i + len) else if i > len then len else i
  }

  /** `s[a:b]` with Python's bounds. */
  function PySlice<T>(s: seq<T>, a: int, b: int): seq<T>
  {
    var lo, hi := PyBound(a, |s|), PyBound(b, |s|);
    if lo < hi then s[lo..hi] else []
  }
}
