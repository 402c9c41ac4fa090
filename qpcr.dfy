/**
 * The qPCR set-up scripts: the master-mix tables, the making of the master
 * mix from its components (step 1), the choice of how many wells one
 * multi-dispense serves, the control wells, and the multi-dispense of the
 * master mix (step 2 of the multi-dispense script).
 */
module Qpcr {
  import opened Wrappers
  import opened Arith
  import opened Actions
  import opened Reservoir
  import opened Transfers
  import opened Splitting
  import opened Seqs

  // --------------------------------------------------------------- tables

  /** `MMIX_vol` of the single-dispense script: per-sample volume and wells, by selection. */
  function SingleMmixVol(sel: nat): Option<(nat, nat)>
  {
    if sel == 1 then Some((17, 1)) else if sel == 2 then Some((20, 1)) else if sel == 3 then Some((20, 1))
    else if sel == 4 then Some((40, 2)) else if sel == 5 then Some((20, 1)) else None
  }

  /** `MMIX_vol` of the multi-dispense script: the same but selection 5 uses two wells. */
  function MultiMmixVol(sel: nat): Option<(nat, nat)>
  {
    if sel == 5 then Some((20, 2)) else SingleMmixVol(sel)
  }

  /** `MMIX_recipe`: the components' volumes per sample, by selection. */
  function MmixRecipe(sel: nat): Option<seq<real>>
  {
    if sel == 1 then Some([5.0, 5.0, 5.0, 2.0])
    else if sel == 2 then Some([8.0, 5.0, 1.0, 2.0, 2.0, 1.0, 1.0])
    else if sel == 3 then Some([12.0, 5.0, 1.0, 1.0, 1.0])
    else if sel == 4 then Some([1.0])
    else if sel == 5 then Some([6.25, 1.25, 12.5])
    else None
  }

  /**
   * Both tables know the same selections, and a recipe adds up to its
   * per-sample volume for every selection except 4, whose single component
   * of 1 stands for 40.
   */
  lemma RecipeMatchesVolume(sel: nat)
    ensures MmixRecipe(sel).Some? <==> SingleMmixVol(sel).Some?
    ensures MmixRecipe(sel).Some? <==> MultiMmixVol(sel).Some?
    ensures MmixRecipe(sel).Some? ==> (Sum(MmixRecipe(sel).value) == SingleMmixVol(sel).value.0 as real <==> sel != 4)
    ensures sel == 4 ==> Sum(MmixRecipe(sel).value) == 1.0 && SingleMmixVol(sel).value.0 == 40
  {
    if MmixRecipe(sel).Some? {
      var xs := MmixRecipe(sel).value;
      assert xs[..0] == [] && xs[..|xs|] == xs;
      SumStep(xs, 0);
      if 1 < |xs| { SumStep(xs, 1); }
      if 2 < |xs| { SumStep(xs, 2); }
      if 3 < |xs| { SumStep(xs, 3); }
      if 4 < |xs| { SumStep(xs, 4); }
      if 5 < |xs| { SumStep(xs, 5); }
      if 6 < |xs| { SumStep(xs, 6); }
    }
  }

  lemma SumStep(xs: seq<real>, i: nat)
    requires i < |xs|
    ensures Sum(xs[..i + 1]) == Sum(xs[..i]) + xs[i]
  {
    assert xs[..i + 1][..i] == xs[..i];
  }

  /** Every entry of `xs` times `f`. */
  function Scale(xs: seq<real>, f: real): (ys: seq<real>)
    ensures |ys| == |xs| && forall k :: 0 <= k < |xs| ==> ys[k] == xs[k] * f
  {
    seq(|xs|, k requires 0 <= k < |xs| => xs[k] * f)
  }

  /** Scaling every entry scales the total. */
  lemma {:induction false} ScaleSum(xs: seq<real>, f: real)
    ensures Sum(Scale(xs, f)) == Sum(xs) * f
  {
    if xs != [] {
      var init := xs[..|xs| - 1];
      ScaleSum(init, f);
      assert Scale(xs, f)[..|xs| - 1] == Scale(init, f) by {
        forall k | 0 <= k < |init| ensures Scale(xs, f)[k] == Scale(init, f)[k] {
          assert init[k] == xs[k];
        }
      }
    }
  }

  /**
   * `MMIX_make`: for every recipe, in key order, each component's volume
   * times `NUM_SAMPLES * 1.1`.
   */
  method MmixMake(recipes: seq<seq<real>>, numSamples: nat) returns (make: seq<seq<real>>)
    ensures |make| == |recipes|
    ensures forall t :: 0 <= t < |recipes| ==> make[t] == Scale(recipes[t], numSamples as real * 1.1)
  {
    make := [];
    var t := 0;
    while t < |recipes|
      invariant t <= |recipes| && |make| == t
      invariant forall u :: 0 <= u < t ==> make[u] == Scale(recipes[u], numSamples as real * 1.1)
    {
      var row: seq<real> := [];
      var k := 0;
      while k < |recipes[t]|
        invariant k <= |recipes[t]| && |row| == k
        invariant forall v :: 0 <= v < k ==> row[v] == recipes[t][v] * (numSamples as real * 1.1)
      {
        row := row + [recipes[t][k] * (numSamples as real * 1.1)];
        k := k + 1;
      }
      assert row == Scale(recipes[t], numSamples as real * 1.1);
      make := make + [row];
      t := t + 1;
    }
  }

  /**
   * What step 1 mixes for a recipe that matches its per-sample volume is
   * exactly `volume_mmix_available = NUM_SAMPLES * 1.1 * volume_mmix`.
   */
  lemma MakeMatchesAvailable(recipe: seq<real>, perSample: real, numSamples: nat)
    requires Sum(recipe) == perSample
    ensures Sum(Scale(recipe, numSamples as real * 1.1)) == numSamples as real * 1.1 * perSample
  {
    ScaleSum(recipe, numSamples as real * 1.1);
  }

  /**
   * `size_transfer = floor(pipette_allowed_capacity / volume_mmix)`: as many
   * wells as one draw can serve within the tip's allowed capacity.
   */
  lemma SizeTransferFits(capacity: nat, perSample: nat)
    requires perSample > 0
    ensures FloorDiv(capacity, perSample) * perSample <= capacity
    ensures capacity < (FloorDiv(capacity, perSample) + 1) * perSample
    ensures capacity == 180 && perSample == 20 ==> FloorDiv(capacity, perSample) == 9
    ensures capacity == 170 && perSample == 20 ==> FloorDiv(capacity, perSample) == 8
  {
  }

  // -------------------------------------------------------- control wells

  /**
   * `pc_well = wells()[(N-2):(N-1)][0]` and `nc_well = wells()[(N-1):N][0]`;
   * `None` where Python would fail on an empty slice.
   */
  function ControlWells(plate: seq<WellId>, n: nat): Option<(WellId, WellId)>
  {
    var pc, nc := PySlice(plate, n - 2, n - 1), PySlice(plate, n - 1, n);
    if pc == [] || nc == [] then None else Some((pc[0], nc[0]))
  }

  /** With at least two samples the controls are the last two of the `N` PCR wells `wells()[:N]`; a single sample fails. */
  lemma ControlWellsAreLast(plate: seq<WellId>, n: nat)
    requires n <= |plate|
    ensures 2 <= n ==> ControlWells(plate, n) == Some((plate[..n][n - 2], plate[..n][n - 1]))
    ensures n == 1 ==> ControlWells(plate, n).None?
  {
  }

  // ------------------------------------------- multi-dispense of the mix

  /** The draw charged to `calc_height` for each group: `volume_mmix * len(dest) + extra_dispensal`. */
  function GroupDraw(dest: seq<WellId>, volume: real, extra: real): real
  {
    volume * |dest| as real + extra
  }

  function GroupDraws(groups: seq<seq<WellId>>, volume: real, extra: real): (ds: seq<real>)
    ensures |ds| == |groups| && forall k :: 0 <= k < |groups| ==> ds[k] == GroupDraw(groups[k], volume, extra)
  {
    seq(|groups|, k requires 0 <= k < |groups| => GroupDraw(groups[k], volume, extra))
  }

  /**
   * Step 2 of the multi-dispense script: for each group of destinations,
   * `calc_height` (floor 0.5, reserve 50) charges the group's draw and
   * `distribute_custom` serves the group from the current column.  The tube
   * ends where the groups' draws put it, and each distribute aspirates
   * exactly what `calc_height` was charged and delivers it less the extra.
   */
  method DistributeMasterMix(r: Reagent, groups: seq<seq<WellId>>, volume: real, extra: real, area: real)
    returns (used: seq<real>, plans: seq<seq<Action>>)
    requires area > 0.0
    requires Run(r.State(), r.volWellOriginal, GroupDraws(groups, volume, extra), 50.0).col < |r.reservoir|
    modifies r
    ensures r.reservoir == old(r.reservoir)
    ensures r.State() == Run(old(r.State()), r.volWellOriginal, GroupDraws(groups, volume, extra), 50.0)
    ensures |used| == |groups| && |plans| == |groups|
    ensures forall k :: 0 <= k < |groups| ==>
      Serves(plans[k], used[k], GroupDraws(groups, volume, extra)[k], extra, |groups[k]|, r.reservoir)
  {
    ghost var t0 := r.State();
    ghost var wells := r.reservoir;
    var draws := GroupDraws(groups, volume, extra);
    used, plans := [], [];
    var i := 0;
    while i < |groups|
      invariant i <= |groups| && |used| == i && |plans| == i && r.reservoir == wells
      invariant r.State() == Run(t0, r.volWellOriginal, draws[..i], 50.0)
      invariant forall k :: 0 <= k < i ==> Serves(plans[k], used[k], draws[k], extra, |groups[k]|, wells)
    {
      ghost var next := Draw(r.State(), r.volWellOriginal, draws[i], 50.0);
      assert Run(t0, r.volWellOriginal, draws[..i + 1], 50.0) == next by {
        assert draws[..i + 1][..i] == draws[..i];
      }
      RunPrefixColumns(t0, r.volWellOriginal, draws, i + 1, 50.0);
      var acts, delivered := ServeGroup(r, groups[i], volume, extra, area);
      used := used + [delivered];
      plans := plans + [acts];
      i := i + 1;
    }
    assert draws[..i] == draws;
  }

  /**
   * One group's distribute: it aspirates exactly the draw, at the bottom of
   * a reservoir column, and delivers the draw less the extra.
   */
  predicate Serves(acts: seq<Action>, delivered: real, draw: real, extra: real, n: nat, reservoir: seq<WellId>)
  {
    && acts != [] && acts[0].Aspirate? && acts[0].vol == draw
    && acts[0].at.Bottom? && acts[0].at.well in reservoir
    && delivered + extra == draw
    && delivered == Dispensed(acts) - Times(n, GapVolume(QpcrCopy))
  }

  /** `calc_height` for the group's draw, then `distribute_custom` from the column it picked. */
  method ServeGroup(r: Reagent, dest: seq<WellId>, volume: real, extra: real, area: real)
    returns (acts: seq<Action>, delivered: real)
    requires area > 0.0
    requires Draw(r.State(), r.volWellOriginal, GroupDraw(dest, volume, extra), 50.0).col < |r.reservoir|
    modifies r
    ensures r.reservoir == old(r.reservoir)
    ensures r.State() == Draw(old(r.State()), r.volWellOriginal, GroupDraw(dest, volume, extra), 50.0)
    ensures Serves(acts, delivered, GroupDraw(dest, volume, extra), extra, |dest|, r.reservoir)
  {
    var aspirate := GroupDraw(dest, volume, extra);
    var height, _ := r.CalcHeight(area, aspirate, 0.5, 50.0);
    var src := r.reservoir[r.col];
    acts, delivered := DistributeCustom(QpcrCopy, r, volume, src, dest, src, height, extra, 0.0);
    DistributeBalanced(QpcrCopy, r, volume, src, dest, src, height, extra, 0.0);
    TimesIsProduct(|dest|, volume);
  }
}
