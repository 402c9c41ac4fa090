/**
 * Step 1 of the qPCR scripts: making the master mix.  Each component is
 * transferred into the master-mix tube, split with `divide_volume` when the
 * volume and the air gap exceed the tip's allowed capacity; after each
 * component the tip is dropped, and after the last one the mix is mixed.
 */
module MasterMix {
  import opened Actions
  import opened Splitting
  import Qpcr

  /** How a copy of step 1 decides to drop the tip rather than mix: `i + 1 < len` or, as written in one copy, `i < len`. */
  datatype TipGuard = NextExists | IndexInRange

  /**
   * The list `MMIX_components` of reagent objects that the loop indexes with
   * the component's position and whose length the guard reads: cut to the
   * recipe's length, or a fixed list of `count` reagents.
   */
  datatype ReagentList = OnePerComponent | Fixed(count: nat)

  /** Step 1's settings: the air gap, the tip's allowed capacity, the drop-tip guard, the rounds of the final mix, the reagent list. */
  datatype MakeSettings = MakeSettings(airGap: nat, capacity: nat, guard: TipGuard, mixRounds: nat, reagents: ReagentList)

  /** KingFisher_viral/KC_qPCR_singledispense.py */
  const SingleMake := MakeSettings(20, 180, NextExists, 5, OnePerComponent)
  /** KingFisher/KC_qPCR_multidispense.py, as written: three reagent objects and the guard `i < len` */
  const MultiMakeAsWritten := MakeSettings(30, 170, IndexInRange, 3, Fixed(3))
  /** KingFisher/KC_qPCR_multidispense.py, with the reagent list and the guard of the single-dispense copy */
  const MultiMake := MakeSettings(30, 170, NextExists, 3, OnePerComponent)

  /** `len(MMIX_components)` for a recipe of `n` components. */
  function ReagentCount(m: MakeSettings, n: nat): nat
  {
    match m.reagents
    case OnePerComponent => n
    case Fixed(c) => c
  }

  /** How many components the loop handles before it finishes or indexes past the reagent list. */
  function Reached(m: MakeSettings, n: nat): (k: nat)
    ensures k <= n && k <= ReagentCount(m, n)
  {
    if n <= ReagentCount(m, n) then n else ReagentCount(m, n)
  }

  /** A split is only ever asked for a positive volume. */
  predicate Sound(m: MakeSettings)
  {
    0 < m.capacity && m.airGap <= m.capacity
  }

  function Keeps(g: TipGuard, i: nat, n: nat): bool
  {
    match g
    case NextExists => i + 1 < n
    case IndexInRange => i < n
  }

  /** What step 1 does, in order: transfers of a component, the final mix, tip drops. */
  datatype MakeEvent = Move(source: WellId, vol: nat) | FinalMix(rounds: nat) | DropTip

  /** The transfers of one component: `divide_volume` when volume and air gap exceed the capacity. */
  function Portions(m: MakeSettings, vol: nat): (parts: seq<nat>)
    requires Sound(m)
    ensures SumNat(parts) == vol && |parts| >= 1
    ensures forall k :: 0 <= k < |parts| ==> parts[k] <= m.capacity
    ensures |parts| > 1 ==> vol + m.airGap > m.capacity
  {
    if vol + m.airGap > m.capacity then DivideVolume(vol, m.capacity).value
    else assert [vol][..0] == []; [vol]
  }

  function MovesOf(source: WellId, parts: seq<nat>): seq<MakeEvent>
  {
    if parts == [] then [] else MovesOf(source, parts[..|parts| - 1]) + [Move(source, parts[|parts| - 1])]
  }

  /** Component `i` of `n`: its transfers, then a tip drop, or the final mix and a tip drop. */
  function ComponentEvents(m: MakeSettings, i: nat, n: nat, source: WellId, vol: nat): seq<MakeEvent>
    requires Sound(m)
  {
    MovesOf(source, Portions(m, vol)) + (if Keeps(m.guard, i, n) then [DropTip] else [FinalMix(m.mixRounds), DropTip])
  }

  /** The events of the first `i` components, the guard comparing with `n`. */
  function Plan(m: MakeSettings, comps: seq<(WellId, nat)>, n: nat, i: nat): seq<MakeEvent>
    requires Sound(m) && i <= |comps|
  {
    if i == 0 then []
    else Plan(m, comps, n, i - 1) + ComponentEvents(m, i - 1, n, comps[i - 1].0, comps[i - 1].1)
  }

  /** The events of the first `i` components; the guard compares with the reagent list's length. */
  function MakePlan(m: MakeSettings, comps: seq<(WellId, nat)>, i: nat): seq<MakeEvent>
    requires Sound(m) && i <= |comps|
  {
    Plan(m, comps, ReagentCount(m, |comps|), i)
  }

  /**
   * Step 1: for every component, its transfers into the master-mix tube,
   * then the tip drop or the final mix; one tip counted per component.
   * A component without a reagent object at its position stops the step
   * (`ok` false) before its first transfer, its tip picked up but not
   * counted; the components before it are done.
   */
  method MakeMasterMix(m: MakeSettings, comps: seq<(WellId, nat)>) returns (events: seq<MakeEvent>, tips: nat, ok: bool)
    requires Sound(m)
    ensures ok <==> |comps| <= ReagentCount(m, |comps|)
    ensures events == MakePlan(m, comps, Reached(m, |comps|))
    ensures tips == Reached(m, |comps|)
  {
    var k := Reached(m, |comps|);
    events := HandleComponents(m, comps[..k], ReagentCount(m, |comps|));
    PlanAgrees(m, comps[..k], comps, ReagentCount(m, |comps|), k);
    tips := k;
    ok := k == |comps|;
  }

  /** The loop over components that all have their reagent object, the guard comparing with `n`. */
  method HandleComponents(m: MakeSettings, comps: seq<(WellId, nat)>, n: nat) returns (events: seq<MakeEvent>)
    requires Sound(m)
    ensures events == Plan(m, comps, n, |comps|)
  {
    events := [];
    var i: nat := 0;
    while i < |comps|
      invariant i <= |comps| && events == Plan(m, comps, n, i)
    {
      var es := HandleComponent(m, i, n, comps[i].0, comps[i].1);
      events := events + es;
      i := i + 1;
    }
  }

  /** The plan of the first `j` components depends on those components only. */
  lemma {:induction false} PlanAgrees(m: MakeSettings, a: seq<(WellId, nat)>, b: seq<(WellId, nat)>, n: nat, j: nat)
    requires Sound(m) && j <= |a| && j <= |b| && a[..j] == b[..j]
    ensures Plan(m, a, n, j) == Plan(m, b, n, j)
  {
    if j > 0 {
      assert a[j - 1] == a[..j][j - 1] == b[..j][j - 1] == b[j - 1];
      assert a[..j - 1] == a[..j][..j - 1] == b[..j][..j - 1] == b[..j - 1];
      PlanAgrees(m, a, b, n, j - 1);
    }
  }

  /** One component: its transfers, then the tip drop or the final mix and the tip drop. */
  method HandleComponent(m: MakeSettings, i: nat, n: nat, source: WellId, vol: nat) returns (es: seq<MakeEvent>)
    requires Sound(m)
    ensures es == ComponentEvents(m, i, n, source, vol)
  {
    es := TransferComponent(m, source, vol);
    if (m.guard.NextExists? && i + 1 < n) || (m.guard.IndexInRange? && i < n) {
      es := es + [DropTip];
    } else {
      es := es + [FinalMix(m.mixRounds), DropTip];
    }
  }

  /** The transfers of one component, split by `divide_volume` when they would not fit. */
  method TransferComponent(m: MakeSettings, source: WellId, vol: nat) returns (moves: seq<MakeEvent>)
    requires Sound(m)
    ensures moves == MovesOf(source, Portions(m, vol))
  {
    if vol + m.airGap > m.capacity {
      var parts := DivideVolume(vol, m.capacity).value;
      moves := [];
      var k := 0;
      while k < |parts|
        invariant k <= |parts| && moves == MovesOf(source, parts[..k])
      {
        assert parts[..k + 1][..k] == parts[..k];
        moves := moves + [Move(source, parts[k])];
        k := k + 1;
      }
      assert parts[..k] == parts;
    } else {
      moves := [Move(source, vol)];
    }
  }

  function Mixes(es: seq<MakeEvent>): nat
  {
    if es == [] then 0 else Mixes(es[..|es| - 1]) + (if es[|es| - 1].FinalMix? then 1 else 0)
  }

  function Drops(es: seq<MakeEvent>): nat
  {
    if es == [] then 0 else Drops(es[..|es| - 1]) + (if es[|es| - 1].DropTip? then 1 else 0)
  }

  function Moved(es: seq<MakeEvent>): nat
  {
    if es == [] then 0 else Moved(es[..|es| - 1]) + (if es[|es| - 1].Move? then es[|es| - 1].vol else 0)
  }

  lemma {:induction false} CountsConcat(a: seq<MakeEvent>, b: seq<MakeEvent>)
    ensures Mixes(a + b) == Mixes(a) + Mixes(b) && Drops(a + b) == Drops(a) + Drops(b) && Moved(a + b) == Moved(a) + Moved(b)
  {
    if b == [] {
      assert a + b == a;
    } else {
      CountsConcat(a, b[..|b| - 1]);
      assert (a + b)[..|a + b| - 1] == a + b[..|b| - 1];
    }
  }

  /** The transfers of a component carry its whole volume and neither mix nor drop. */
  lemma {:induction false} MovesCounts(source: WellId, parts: seq<nat>)
    ensures var ms := MovesOf(source, parts); Mixes(ms) == 0 && Drops(ms) == 0 && Moved(ms) == SumNat(parts)
  {
    if parts != [] {
      var init := parts[..|parts| - 1];
      MovesCounts(source, init);
      CountsConcat(MovesOf(source, init), [Move(source, parts[|parts| - 1])]);
      assert [Move(source, parts[|parts| - 1])][..0] == [];
    }
  }

  /** One component: its volume moved, one tip dropped, a mix exactly when the guard lets go. */
  lemma ComponentCounts(m: MakeSettings, i: nat, n: nat, source: WellId, vol: nat)
    requires Sound(m)
    ensures var es := ComponentEvents(m, i, n, source, vol);
      Moved(es) == vol && Drops(es) == 1 && Mixes(es) == (if Keeps(m.guard, i, n) then 0 else 1)
  {
    var ms := MovesOf(source, Portions(m, vol));
    var tail := if Keeps(m.guard, i, n) then [DropTip] else [FinalMix(m.mixRounds), DropTip];
    assert ComponentEvents(m, i, n, source, vol) == ms + tail;
    MovesCounts(source, Portions(m, vol));
    CountsConcat(ms, tail);
    TailCounts(m.mixRounds);
  }

  /** The two ways a component ends: a drop, or the final mix and a drop. */
  lemma TailCounts(rounds: nat)
    ensures Moved([DropTip]) == 0 && Drops([DropTip]) == 1 && Mixes([DropTip]) == 0
    ensures Moved([FinalMix(rounds), DropTip]) == 0 && Drops([FinalMix(rounds), DropTip]) == 1
    ensures Mixes([FinalMix(rounds), DropTip]) == 1
  {
    assert [DropTip][..0] == [];
    assert [FinalMix(rounds), DropTip][..1] == [FinalMix(rounds)];
    assert [FinalMix(rounds)][..0] == [];
  }

  /** The volume of the first `i` components. */
  function TotalVolume(comps: seq<(WellId, nat)>, i: nat): nat
    requires i <= |comps|
  {
    if i == 0 then 0 else TotalVolume(comps, i - 1) + comps[i - 1].1
  }

  /** The plan's events over `i` components: everything before component `i - 1`, then that component's own. */
  lemma PlanSplit(m: MakeSettings, comps: seq<(WellId, nat)>, i: nat)
    requires Sound(m) && 0 < i <= Reached(m, |comps|)
    ensures var prev := MakePlan(m, comps, i - 1);
      && Moved(MakePlan(m, comps, i)) == Moved(prev) + comps[i - 1].1
      && Drops(MakePlan(m, comps, i)) == Drops(prev) + 1
      && Mixes(MakePlan(m, comps, i)) == Mixes(prev) + (if m.guard.NextExists? && i == ReagentCount(m, |comps|) then 1 else 0)
  {
    var n := ReagentCount(m, |comps|);
    assert Keeps(m.guard, i - 1, n) <==> !(m.guard.NextExists? && i == n);
    var prev := MakePlan(m, comps, i - 1);
    var last := ComponentEvents(m, i - 1, n, comps[i - 1].0, comps[i - 1].1);
    CountsConcat(prev, last);
    ComponentCounts(m, i - 1, n, comps[i - 1].0, comps[i - 1].1);
  }

  /**
   * Over the first `i` components the plan moves their total volume, drops
   * one tip each and mixes once for every component the guard lets go.
   */
  lemma {:induction false} PlanCounts(m: MakeSettings, comps: seq<(WellId, nat)>, i: nat)
    requires Sound(m) && i <= Reached(m, |comps|)
    ensures Moved(MakePlan(m, comps, i)) == TotalVolume(comps, i)
    ensures Drops(MakePlan(m, comps, i)) == i
    ensures Mixes(MakePlan(m, comps, i)) == if m.guard.NextExists? && i == ReagentCount(m, |comps|) && i > 0 then 1 else 0
  {
    if i > 0 {
      assert i - 1 < ReagentCount(m, |comps|);
      PlanCounts(m, comps, i - 1);
      PlanSplit(m, comps, i);
    }
  }

  /** With the guard `i + 1 < len` the final mix happens once, after the last component's transfers, before its tip drop. */
  lemma MixesAfterLast(m: MakeSettings, comps: seq<(WellId, nat)>)
    requires Sound(m) && m.guard.NextExists? && m.reagents.OnePerComponent? && |comps| > 0
    ensures var plan := MakePlan(m, comps, |comps|);
      Mixes(plan) == 1 && |plan| >= 2 && plan[|plan| - 2] == FinalMix(m.mixRounds) && plan[|plan| - 1] == DropTip
  {
    PlanCounts(m, comps, |comps|);
  }

  /**
   * The multi-dispense copy as written: `MMIX_components` holds three
   * reagents, so `i < len` holds for every component the loop reaches and
   * the master mix is never mixed; a recipe of more than three components
   * stops at the fourth, three components done.
   */
  lemma MultiAsWrittenNeverMixes(comps: seq<(WellId, nat)>)
    ensures Reached(MultiMakeAsWritten, |comps|) == if |comps| <= 3 then |comps| else 3
    ensures Mixes(MakePlan(MultiMakeAsWritten, comps, Reached(MultiMakeAsWritten, |comps|))) == 0
    ensures Drops(MakePlan(MultiMakeAsWritten, comps, Reached(MultiMakeAsWritten, |comps|))) == Reached(MultiMakeAsWritten, |comps|)
  {
    PlanCounts(MultiMakeAsWritten, comps, Reached(MultiMakeAsWritten, |comps|));
  }

  /**
   * By selection, the multi-dispense copy as written: selections 4 and 5
   * (one and three components) finish without the final mix, selections 1
   * to 3 (four, seven and five components) stop after three components.
   */
  lemma MultiAsWrittenSelections(sel: nat)
    requires Qpcr.MmixRecipe(sel).Some?
    ensures var n := |Qpcr.MmixRecipe(sel).value|;
      && (n <= ReagentCount(MultiMakeAsWritten, n) <==> sel == 4 || sel == 5)
      && Reached(MultiMakeAsWritten, n) == (if sel == 4 then 1 else 3)
  {
  }

  /** With the single-dispense copy's reagent list and guard, every selection completes and ends with one final mix. */
  lemma MultiCorrectedSelections(sel: nat, comps: seq<(WellId, nat)>)
    requires Qpcr.MmixRecipe(sel).Some? && |comps| == |Qpcr.MmixRecipe(sel).value|
    ensures Reached(MultiMake, |comps|) == |comps|
    ensures Mixes(MakePlan(MultiMake, comps, |comps|)) == 1
  {
    MixesAfterLast(MultiMake, comps);
  }

}
