/**
 * `divide_volume` splits a volume larger than the tip into near-equal
 * transfers; `divide_destinations` cuts the destination wells into groups
 * one multi-dispense can serve.
 */
module Splitting {
  import opened Wrappers
  import opened Arith
  import opened Seqs

  function SumNat(xs: seq<nat>): nat
  {
    if xs == [] then 0 else SumNat(xs[..|xs| - 1]) + xs[|xs| - 1]
  }

  lemma {:induction false} SumNatAppend(xs: seq<nat>, ys: seq<nat>)
    ensures SumNat(xs + ys) == SumNat(xs) + SumNat(ys)
  {
    if ys != [] {
      SumNatAppend(xs, ys[..|ys| - 1]);
      assert (xs + ys)[..|xs + ys| - 1] == xs + ys[..|ys| - 1];
    } else {
      assert xs + ys == xs;
    }
  }

  lemma {:induction false} SumNatRepeat(n: nat, x: nat)
    ensures SumNat(Repeat(n, x)) == n * x
  {
    if n > 0 {
      SumNatRepeat(n - 1, x);
      assert Repeat(n, x)[..n - 1] == Repeat(n - 1, x);
    }
  }

  /**
   * `divide_volume(volume, max_vol)`: `n = ceil(volume / max_vol)`
   * transfers, the first `n - 1` of `ceil(volume / n)` and the last of what
   * is left.  A zero volume makes the second division divide by zero, which
   * is `None` here.
   */
  function DivideVolume(volume: nat, maxVol: nat): (parts: Option<seq<nat>>)
    requires maxVol > 0
    ensures parts.None? <==> volume == 0
    ensures parts.Some? ==> |parts.value| == CeilDiv(volume, maxVol) && SumNat(parts.value) == volume
    ensures parts.Some? ==> forall k :: 0 <= k < |parts.value| ==> 0 < parts.value[k] <= maxVol
    ensures parts.Some? ==> forall k :: 0 <= k < |parts.value| - 1 ==> parts.value[k] == CeilDiv(volume, |parts.value|)
    ensures parts.Some? ==> parts.value[|parts.value| - 1] <= parts.value[0]
  {
    if volume == 0 then None
    else
      var n := CeilDiv(volume, maxVol);
      var roundUp := CeilDiv(volume, n);
      DivideVolumeBounds(volume, maxVol);
      var last: nat := volume - roundUp * (n - 1);
      var split: seq<nat> := Repeat(n - 1, roundUp) + [last];
      SumNatAppend(Repeat(n - 1, roundUp), [last]);
      SumNatRepeat(n - 1, roundUp);
      assert (n - 1) * roundUp == roundUp * (n - 1);
      assert SumNat([last]) == last by {
        assert [last][..0] == [];
      }
      assert SumNat(split) == volume;
      Some(split)
  }

  /**
   * The remainder transfer is positive and no larger than the others, and
   * the others fit the tip: `ceil(v/n) * (n-1) <= max * (n-1) < v <= ceil(v/n) * n`.
   */
  lemma DivideVolumeBounds(volume: nat, maxVol: nat)
    requires volume > 0 && maxVol > 0
    ensures var n := CeilDiv(volume, maxVol);
      n >= 1 &&
      var roundUp := CeilDiv(volume, n);
      0 < roundUp <= maxVol && roundUp * (n - 1) < volume && volume - roundUp * (n - 1) <= roundUp
  {
    var n := CeilDiv(volume, maxVol);
    var roundUp := CeilDiv(volume, n);
    assert n * maxVol >= volume && (n - 1) * maxVol < volume;
    assert maxVol * n >= volume;
    CeilDivLeast(volume, n, maxVol);
    LemmaMulMono(roundUp, maxVol, n - 1);
    assert roundUp * n == roundUp * (n - 1) + roundUp;
  }

  /** The two splits the pathogen station's bulk steps rely on: 260 and 300 µL with a 180 µL tip. */
  lemma DivideVolumeExamples()
    ensures DivideVolume(260, 180) == Some([130, 130])
    ensures DivideVolume(300, 180) == Some([150, 150])
  {
    assert CeilDiv(260, 180) == 2 && CeilDiv(260, 2) == 130;
    assert Repeat(1, 130) == [130];
    assert DivideVolume(260, 180) == Some(Repeat(1, 130) + [260 - 130 * 1]);
    assert Repeat(1, 130) + [260 - 130 * 1] == [130, 130];
    assert CeilDiv(300, 180) == 2 && CeilDiv(300, 2) == 150;
    assert Repeat(1, 150) == [150];
    assert DivideVolume(300, 180) == Some(Repeat(1, 150) + [300 - 150 * 1]);
    assert Repeat(1, 150) + [300 - 150 * 1] == [150, 150];
  }

  /**
   * `divide_destinations(l, n)`: the slices `l[i:i + n]` for `i` in
   * `range(0, len(l), n)`; the generator copy yields the same slices.
   * `range` refuses a zero step, hence `n > 0`.
   */
  function Chunks<T>(l: seq<T>, n: nat): seq<seq<T>>
    requires n > 0
    decreases |l|
  {
    if l == [] then []
    else
      var k := if |l| < n then |l| else n;
      [l[..k]] + Chunks(l[k..], n)
  }

  /**
   * Concatenating the groups gives back the list; every group has `n`
   * entries except the last, which has between 1 and `n`; and there are
   * `ceil(len(l) / n)` groups.
   */
  lemma {:induction false} ChunksSpec<T>(l: seq<T>, n: nat)
    requires n > 0
    ensures var cs := Chunks(l, n);
      Flatten(cs) == l &&
      |cs| == CeilDiv(|l|, n) &&
      (forall k :: 0 <= k < |cs| - 1 ==> |cs[k]| == n) &&
      (cs != [] ==> 0 < |cs[|cs| - 1]| <= n)
    decreases |l|
  {
    if l != [] {
      var k := if |l| < n then |l| else n;
      var rest := Chunks(l[k..], n);
      ChunksSpec(l[k..], n);
      FlattenCons(l[..k], rest);
      assert l[..k] + l[k..] == l;
      if |l| <= n {
        assert rest == [];
        assert CeilDiv(|l|, n) == 1 by { CeilDivLeast(|l|, n, 1); }
      } else {
        CeilDivStep(|l| - n, n);
      }
    }
  }

  /** One more full group: `ceil((a + n) / n) == ceil(a / n) + 1`. */
  lemma CeilDivStep(a: nat, n: nat)
    requires n > 0
    ensures CeilDiv(a + n, n) == CeilDiv(a, n) + 1
  {
    var q := CeilDiv(a, n);
    CeilDivLeast(a + n, n, q + 1);
    var p := CeilDiv(a + n, n);
    assert p * n >= a + n;
    assert (p - 1) * n >= a;
    CeilDivLeast(a, n, p - 1);
  }
}
