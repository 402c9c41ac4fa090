/**
 * The reagent step loops of the protocol files, each written as the
 * `StepSpec` its arguments make, the reagents they draw from, and what the
 * files' own constants make of a run: how many columns are opened, what is
 * left behind, and which transfers rinse or remix.
 *
 * Destination and reservoir columns are labware positions, so they are
 * parameters here; only their number matters to the bookkeeping.
 */
module Protocols {
  import opened Wrappers
  import opened Actions
  import opened Seqs
  import opened Arith
  import opened Reservoir
  import opened Transfers
  import opened Steps

  /** Cross section of a 12-column reservoir, `8.2 * 71.2`. */
  const RackArea: real := 8.2 * 71.2

  /** The volume of one full reservoir column: `reagent_reservoir_volume / num_wells`. */
  function ColumnVolume(spec: ReagentSpec): real
    requires spec.numWells > 0
  {
    spec.reservoirVolume / spec.numWells as real
  }

  /** The reagent just after the scripts set `vol_well = vol_well_original`: first column full, nothing abandoned. */
  function Full(spec: ReagentSpec): Tank
    requires spec.numWells > 0
  {
    Tank(ColumnVolume(spec), 0, [])
  }

  /** Every entry of the loop's volume list charges `calc_height` the same draw `d`. */
  predicate EqualDraws(s: StepSpec, d: real)
  {
    forall k :: 0 <= k < |s.vols| ==> DrawOf(s, k) == d
  }

  /**
   * A reagent is built, filled and placed the way the scripts do it, then
   * one step loop runs on it: the reagent ends where the loop's draws put
   * it, and the calls and actions are the loop's.
   */
  method FreshRun(d: Dialect, spec: ReagentSpec, wells: seq<WellId>, s: StepSpec)
    returns (r: Reagent, calls: seq<StepCall>, acts: seq<Action>)
    requires spec.numWells > 0 && s.area > 0.0
    requires InRange(s, ColumnVolume(spec), wells, Full(spec))
    ensures r.rinse == spec.rinse && r.rinseLoops == spec.rinseLoops && r.vCono == spec.vFondo
    ensures r.volWellOriginal == ColumnVolume(spec) && r.reservoir == wells
    ensures r.State() == Before(s, ColumnVolume(spec), Full(spec), |s.dests|, 0)
    ensures calls == Calls(s, r, wells, Full(spec), |s.dests|, 0)
    ensures acts == TraceUpTo(d, s, r, wells, Full(spec), |s.dests|, 0)
  {
    r := new Reagent(spec);
    r.Fill();
    r.PlaceIn(wells);
    calls, acts := RunStep(d, r, s);
  }

  /**
   * `FreshRun` summed up for a loop whose end state is known: the reagent
   * stands at `end`, one call was made per destination column and volume,
   * and each call follows the loop's settings.
   */
  method RunToEnd(d: Dialect, spec: ReagentSpec, wells: seq<WellId>, s: StepSpec, end: Tank)
    returns (r: Reagent, calls: seq<StepCall>)
    requires spec.numWells > 0 && s.area > 0.0
    requires InRange(s, ColumnVolume(spec), wells, Full(spec))
    requires Before(s, ColumnVolume(spec), Full(spec), |s.dests|, 0) == end
    ensures r.State() == end && r.rinse == spec.rinse && r.reservoir == wells
    ensures |calls| == |s.dests| * |s.vols|
    ensures forall c :: c in calls ==> FollowsSettings(s, spec.rinse, wells, c)
  {
    var acts;
    r, calls, acts := FreshRun(d, spec, wells, s);
    CallsInOrder(s, r, wells, Full(spec), |s.dests|, 0);
    CallsFollowSettings(s, r, wells, Full(spec));
  }

  /** A loop whose `n` equal draws all fit in the first column stays in it and leaves what they did not take. */
  lemma StepWithinColumn(s: StepSpec, original: real, n: nat, d: real)
    requires EqualDraws(s, d) && d >= 0.0 && n == |s.dests| * |s.vols|
    requires n == 0 || original - Times(n - 1, d) >= d + s.extra
    ensures Before(s, original, Tank(original, 0, []), |s.dests|, 0) == Tank(original - Times(n, d), 0, [])
  {
    BeforeIsDrain(s, original, Tank(original, 0, []), |s.dests|, 0, d);
    DrainWithinColumn(Tank(original, 0, []), original, n, d, s.extra);
  }

  /**
   * A loop of `k * q` equal draws where a column gives exactly `q` of them
   * ends in column `k - 1`, having abandoned the same remainder in each
   * column before it.
   */
  lemma StepCycles(s: StepSpec, original: real, q: nat, k: nat, d: real)
    requires EqualDraws(s, d) && d >= 0.0 && q >= 1 && k >= 1 && |s.dests| * |s.vols| == k * q
    requires original - Times(q - 1, d) >= d + s.extra
    requires original - Times(q, d) < d + s.extra
    ensures var left := original - Times(q, d);
      Before(s, original, Tank(original, 0, []), |s.dests|, 0) == Tank(left, k - 1, Repeat(k - 1, left))
  {
    var left := original - Times(q, d);
    BeforeIsDrain(s, original, Tank(original, 0, []), |s.dests|, 0, d);
    DrainCycles(0, [], original, q, k, d, s.extra);
    assert [] + Repeat(k - 1, left) == Repeat(k - 1, left);
  }

  /** `k` rounds of `q` equal draws and then `n` more: the loop ends in column `k`, `n` draws into it. */
  lemma StepCyclesThen(s: StepSpec, original: real, q: nat, k: nat, n: nat, d: real)
    requires EqualDraws(s, d) && d >= 0.0 && q >= 1 && k >= 1 && n >= 1 && |s.dests| * |s.vols| == k * q + n
    requires original - Times(q - 1, d) >= d + s.extra
    requires original - Times(q, d) < d + s.extra
    requires original - Times(n - 1, d) >= d + s.extra
    ensures var left := original - Times(q, d);
      Before(s, original, Tank(original, 0, []), |s.dests|, 0) == Tank(original - Times(n, d), k, Repeat(k, left))
  {
    var left := original - Times(q, d);
    BeforeIsDrain(s, original, Tank(original, 0, []), |s.dests|, 0, d);
    DrainCyclesThen(0, [], original, q, k, n, d, s.extra);
    assert [] + Repeat(k, left) == Repeat(k, left);
  }

  // ------------------------------------------- KingFisher_pathogen_core/Deprecated/KB_IC_beads.py

  const BeadsIcLysis := ReagentSpec("Lysis Buffer", 0.75, 0.5, 2.0, 2.0, false, 27000.0, 2.0, 3, 1.95, 695.0, 3)
  const BeadsIcBeads := ReagentSpec("Magnetic beads", 0.5, 0.5, 4.0, 4.0, true, 25500.0, 2.0, 3, 1.95, 695.0, 3)

  /** Step 2: lysis buffer in two transfers of 130 per column, rinsing on the first column and on every new reservoir column. */
  function BeadsIcLysisStep(dests: seq<WellId>): StepSpec
  {
    StepSpec(dests, [130.0, 130.0], 8.0, RackArea, 0.3, 50.0, Computed, ChangeOrFirstColumn, ByColumn, None,
      10.0, FixedOffsets(0.0, 0.0), -2.0, true, false, true, None, false, None, false)
  }

  /** Step 4: beads in two transfers of 130 per column, a new reservoir column remixed before it is drawn from. */
  function BeadsIcBeadsStep(dests: seq<WellId>): StepSpec
  {
    StepSpec(dests, [130.0, 130.0], 8.0, RackArea, 0.3, 50.0, Computed, FirstOnly, ByColumn,
      Some(MixArgs(0, 120.0, 10, true, 15.0, 2.0, true, 10.0, true, 20.0, 0.0, 0.0)),
      10.0, FixedOffsets(0.0, 0.0), -2.0, true, false, true, None, false, None, false)
  }

  /** Twelve columns of `[130, 130]` from 9000 per reservoir column: eight draws of 1040 per column, 680 abandoned twice. */
  lemma BeadsIcLysisEnd(dests: seq<WellId>, wells: seq<WellId>)
    requires |dests| == 12 && |wells| == 3
    ensures ColumnVolume(BeadsIcLysis) == 9000.0
    ensures Before(BeadsIcLysisStep(dests), 9000.0, Full(BeadsIcLysis), 12, 0) == Tank(680.0, 2, [680.0, 680.0])
    ensures InRange(BeadsIcLysisStep(dests), 9000.0, wells, Full(BeadsIcLysis))
  {
    var s := BeadsIcLysisStep(dests);
    assert EqualDraws(s, 1040.0);
    TimesIsProduct(7, 1040.0);
    TimesIsProduct(8, 1040.0);
    StepCycles(s, 9000.0, 8, 3, 1040.0);
  }

  /** The same draws from 8500 per reservoir column: 180 abandoned twice. */
  lemma BeadsIcBeadsEnd(dests: seq<WellId>, wells: seq<WellId>)
    requires |dests| == 12 && |wells| == 3
    ensures ColumnVolume(BeadsIcBeads) == 8500.0
    ensures Before(BeadsIcBeadsStep(dests), 8500.0, Full(BeadsIcBeads), 12, 0) == Tank(180.0, 2, [180.0, 180.0])
    ensures InRange(BeadsIcBeadsStep(dests), 8500.0, wells, Full(BeadsIcBeads))
  {
    var s := BeadsIcBeadsStep(dests);
    assert EqualDraws(s, 1040.0);
    TimesIsProduct(7, 1040.0);
    TimesIsProduct(8, 1040.0);
    StepCycles(s, 8500.0, 8, 3, 1040.0);
  }

  /**
   * The lysis loop run on its reagent: three reservoir columns in use, and a
   * transfer rinses exactly when its column is new or it serves the first
   * destination column.
   */
  method BeadsIcLysisRun(dests: seq<WellId>, wells: seq<WellId>) returns (r: Reagent, calls: seq<StepCall>)
    requires |dests| == 12 && |wells| == 3
    ensures r.col == 2 && r.unused == [680.0, 680.0] && r.volWell == 680.0
    ensures |calls| == 24
    ensures forall c :: c in calls ==> c.move.source in wells && c.move.vol == 130.0
    ensures forall c :: c in calls ==> (c.move.rinse <==> c.changed || c.slot.i == 0)
  {
    BeadsIcLysisEnd(dests, wells);
    r, calls := RunToEnd(PathogenBeads, BeadsIcLysis, wells, BeadsIcLysisStep(dests), Tank(680.0, 2, [680.0, 680.0]));
  }

  /**
   * The beads loop run on its reagent: a transfer is preceded by a remix of
   * its own source exactly when that source is a newly opened column, and
   * only the very first transfer rinses.
   */
  method BeadsIcBeadsRun(dests: seq<WellId>, wells: seq<WellId>) returns (r: Reagent, calls: seq<StepCall>)
    requires |dests| == 12 && |wells| == 3
    ensures r.col == 2 && r.unused == [180.0, 180.0] && r.volWell == 180.0
    ensures |calls| == 24
    ensures forall c :: c in calls ==> (c.remix.Some? <==> c.changed)
    ensures forall c :: c in calls && c.remix.Some? ==> c.remix.value.location == c.move.source
    ensures forall c :: c in calls ==> (c.move.rinse <==> c.slot == Slot(0, 0))
  {
    BeadsIcBeadsEnd(dests, wells);
    r, calls := RunToEnd(PathogenBeads, BeadsIcBeads, wells, BeadsIcBeadsStep(dests), Tank(180.0, 2, [180.0, 180.0]));
  }

  // ---------------------------------------------------------- Homebrew_viral_protocol/B_station.py

  const BStationBeads := ReagentSpec("Magnetic beads and Lysis", 0.5, 0.5, 4.0, 6.0, true, 1600.0, 2.0, 1, 1.95, 695.0, 4)
  const BStationWash1 := ReagentSpec("Wash Buffer 1", 0.75, 1.0, 3.0, 3.0, true, 3500.0, 2.0, 1, 1.95, 695.0, 3)
  const BStationWash2 := ReagentSpec("Wash Buffer 2", 0.75, 1.0, 3.0, 3.0, true, 3500.0, 2.0, 1, 1.95, 695.0, 3)
  const BStationElution := ReagentSpec("Elution Buffer", 1.0, 1.0, 3.0, 3.0, false, 1600.0, 0.0, 1, 1.95, 695.0, 3)

  /**
   * Step 4: 20 of beads per column (`min_height` 0.3, `extra_volume` 10), a
   * new column remixed, and every destination mixed after its transfer.
   */
  function BStationBeadsStep(dests: seq<WellId>): StepSpec
  {
    StepSpec(dests, [20.0], 8.0, RackArea, 0.3, 10.0, Computed, FirstOnly, ByColumn,
      Some(MixArgs(0, 120.0, 10, true, 1.0, 3.0, true, 10.0, true, 20.0, 0.0, 0.0)),
      10.0, FixedOffsets(0.0, 0.0), -8.0, true, false, true,
      Some(MixArgs(0, 120.0, 10, true, 15.0, 0.8, true, 10.0, true, 20.0, 0.0, 0.0)), false, None, false)
  }

  /**
   * Steps 8 and 11: 100 of wash buffer per column, offset toward the side
   * away from the magnet, mixed twice and touched off after the column; step
   * 11 also touches off after every transfer.  `rule` is the rinse guard.
   */
  function BStationWashStep(dests: seq<WellId>, rule: RinseRule, touchAfter: bool): StepSpec
  {
    StepSpec(dests, [100.0], 8.0, RackArea, 0.3, 50.0, Computed, rule, ByColumn, None,
      10.0, SideOffsets(0.0, -2.0), -4.0, true, false, true, None, touchAfter,
      Some(MixArgs(0, 100.0, 2, true, 15.0, 3.0, true, 10.0, false, 20.0, 0.0, 0.0)), true)
  }

  /** Step 15: 50 of elution buffer per column, offset by the side times -1.1, then a ten-round mix. */
  function BStationElutionStep(dests: seq<WellId>): StepSpec
  {
    StepSpec(dests, [50.0], 8.0, RackArea, 0.3, 50.0, Computed, NoRinse, ByColumn, None,
      10.0, SideOffsets(0.0, -1.1), -25.0, true, false, true, None, false,
      Some(MixArgs(0, 60.0, 10, true, 155.0, 0.4, true, 10.0, false, 20.0, 0.0, 0.0)), false)
  }

  /** Three columns of beads (three draws of 160 from 1600, reserve 10) stay in the one reservoir column. */
  lemma BStationBeadsEnd(dests: seq<WellId>, wells: seq<WellId>)
    requires |dests| == 3 && |wells| == 1
    ensures ColumnVolume(BStationBeads) == 1600.0
    ensures Before(BStationBeadsStep(dests), 1600.0, Full(BStationBeads), 3, 0) == Tank(1120.0, 0, [])
    ensures InRange(BStationBeadsStep(dests), 1600.0, wells, Full(BStationBeads))
  {
    assert EqualDraws(BStationBeadsStep(dests), 160.0);
    TimesIsProduct(2, 160.0);
    TimesIsProduct(3, 160.0);
    StepWithinColumn(BStationBeadsStep(dests), 1600.0, 3, 160.0);
  }

  /** Three columns of wash buffer (three draws of 800 from 3500) stay in the one reservoir column. */
  lemma BStationWashEnd(dests: seq<WellId>, wells: seq<WellId>, rule: RinseRule, touchAfter: bool)
    requires |dests| == 3 && |wells| == 1
    ensures ColumnVolume(BStationWash1) == 3500.0 && ColumnVolume(BStationWash2) == 3500.0
    ensures Before(BStationWashStep(dests, rule, touchAfter), 3500.0, Tank(3500.0, 0, []), 3, 0) == Tank(1100.0, 0, [])
    ensures InRange(BStationWashStep(dests, rule, touchAfter), 3500.0, wells, Tank(3500.0, 0, []))
  {
    var s := BStationWashStep(dests, rule, touchAfter);
    assert EqualDraws(s, 800.0);
    TimesIsProduct(2, 800.0);
    TimesIsProduct(3, 800.0);
    StepWithinColumn(s, 3500.0, 3, 800.0);
  }

  /** Three columns of elution buffer (three draws of 400 from 1600) stay in the one reservoir column. */
  lemma BStationElutionEnd(dests: seq<WellId>, wells: seq<WellId>)
    requires |dests| == 3 && |wells| == 1
    ensures ColumnVolume(BStationElution) == 1600.0
    ensures Before(BStationElutionStep(dests), 1600.0, Full(BStationElution), 3, 0) == Tank(400.0, 0, [])
    ensures InRange(BStationElutionStep(dests), 1600.0, wells, Full(BStationElution))
  {
    assert EqualDraws(BStationElutionStep(dests), 400.0);
    TimesIsProduct(2, 400.0);
    TimesIsProduct(3, 400.0);
    StepWithinColumn(BStationElutionStep(dests), 1600.0, 3, 400.0);
  }

  /**
   * The wash loop as written, with its guard `if i != 0 and j != 0`: on a
   * one-entry volume list the guard never fires, so every column's
   * transfer rinses.
   */
  method BStationWashAsWritten(dests: seq<WellId>, wells: seq<WellId>) returns (r: Reagent, calls: seq<StepCall>)
    requires |dests| == 3 && |wells| == 1
    ensures r.col == 0 && r.volWell == 1100.0
    ensures |calls| == 3
    ensures forall c :: c in calls ==> c.move.rinse
  {
    BStationWashEnd(dests, wells, FlagUntilCleared, false);
    r, calls := RunToEnd(BStation, BStationWash1, wells, BStationWashStep(dests, FlagUntilCleared, false), Tank(1100.0, 0, []));
  }

  /**
   * The wash loop with the guard the comment `# Only first time` asks for:
   * only the first transfer rinses.  `second` selects step 11 (wash buffer
   * 2, touched off after every transfer) over step 8 (wash buffer 1).
   */
  method BStationWash(dests: seq<WellId>, wells: seq<WellId>, second: bool) returns (r: Reagent, calls: seq<StepCall>)
    requires |dests| == 3 && |wells| == 1
    ensures r.col == 0 && r.volWell == 1100.0
    ensures |calls| == 3
    ensures forall c :: c in calls ==> (c.move.rinse <==> c.slot == Slot(0, 0))
    ensures forall c :: c in calls ==> c.move.source == wells[0] && c.touch == second
  {
    var wash := if second then BStationWash2 else BStationWash1;
    BStationWashEnd(dests, wells, FlagFirstOnly, second);
    r, calls := RunToEnd(BStation, wash, wells, BStationWashStep(dests, FlagFirstOnly, second), Tank(1100.0, 0, []));
  }

  // ------------------------------------------------------------ KingFisher_viral/KB_plates_prep.py

  const PlatesElution := ReagentSpec("Elution Buffer", 1.0, 1.0, 1.0, 1.0, false, 50.0 * 48.0 * 1.1, 0.0, 1, 1.95, 695.0, 2)

  /** Step 4: 50 of elution buffer into each of the columns. */
  function PlatesElutionStep(dests: seq<WellId>): StepSpec
  {
    StepSpec(dests, [50.0], 8.0, RackArea, 0.3, 50.0, Computed, NoRinse, ByColumn, None,
      10.0, FixedOffsets(0.0, 0.0), -2.0, true, false, true, None, false, None, false)
  }

  /** 48 samples: six draws of 400 from 2640 never change column and leave 240. */
  lemma PlatesElutionEnd(dests: seq<WellId>, wells: seq<WellId>)
    requires |dests| == 6 && |wells| == 1
    ensures ColumnVolume(PlatesElution) == 2640.0
    ensures Before(PlatesElutionStep(dests), 2640.0, Full(PlatesElution), 6, 0) == Tank(240.0, 0, [])
    ensures InRange(PlatesElutionStep(dests), 2640.0, wells, Full(PlatesElution))
  {
    assert EqualDraws(PlatesElutionStep(dests), 400.0);
    TimesIsProduct(5, 400.0);
    TimesIsProduct(6, 400.0);
    StepWithinColumn(PlatesElutionStep(dests), 2640.0, 6, 400.0);
  }

  // ---------------------------------------------------------- KingFisher_viral/deprecated/KB_IC.py

  const ViralICControl := ReagentSpec("Magnetic beads and Lysis", 1.0, 3.0, 1.0, 1.0, true, 1050.0, 2.0, 1, 1.95, 695.0, 2)

  /**
   * The IC step: 10 per column from the single reservoir well, at the fixed
   * height 0.2; the loop's `rinse = False` overrides the reagent's flag.
   */
  function ViralICStep(dests: seq<WellId>, well: WellId): StepSpec
  {
    StepSpec(dests, [10.0], 8.0, RackArea, 0.2, 5.0, FixedHeight(0.2), NoRinse, SingleWell(well), None,
      5.0, FixedOffsets(0.0, 0.0), -40.7, true, false, true, None, false, None, false)
  }

  /**
   * 48 samples: six draws of 80 from 1050 (reserve 5) never change column;
   * every transfer draws from the one well at height 0.2 and none rinses,
   * whatever the column count says.
   */
  method ViralICRun(dests: seq<WellId>, well: WellId) returns (r: Reagent, calls: seq<StepCall>)
    requires |dests| == 6
    ensures r.col == 0 && r.volWell == 570.0 && r.unused == []
    ensures |calls| == 6
    ensures forall c :: c in calls ==> c.move.source == well && c.move.pickupHeight == 0.2 && !c.move.rinse
  {
    var s := ViralICStep(dests, well);
    assert EqualDraws(s, 80.0);
    TimesIsProduct(5, 80.0);
    TimesIsProduct(6, 80.0);
    StepWithinColumn(s, 1050.0, 6, 80.0);
    r, calls := RunToEnd(ViralIC, ViralICControl, [], s, Tank(570.0, 0, []));
  }

  // ------------------------------------------------------ KingFisher_viral/KC_qPCR_singledispense.py

  /** The master mix tube; its cone height is computed from the screwcap's geometry. */
  function QpcrMasterMix(hCone: real): ReagentSpec
  {
    ReagentSpec("Master Mix", 1.0, 1.0, 1.0, 1.0, false, 1000.0, 0.0, 1, hCone, 50.0, 2)
  }

  /**
   * Steps 2 and 3, of which the script runs one: 20 of master mix into every
   * PCR well, one well at a time, from the screwcap; with the P300 (step 2)
   * behind an air gap of 5 and without touch tip, with the P20 (step 3)
   * without air gap and with touch tip.
   */
  function QpcrMasterMixStep(pcrWells: seq<WellId>, area: real, p300: bool): StepSpec
  {
    StepSpec(pcrWells, [20.0], 1.0, area, 0.5, 30.0, Computed, NoRinse, ByColumn, None,
      if p300 then 5.0 else 0.0, FixedOffsets(0.0, 0.0), -10.0, true, !p300, false, None, false, None, false)
  }

  /** 48 draws of 20 from 1000 (reserve 30) stay in the one tube and leave 40. */
  lemma QpcrMasterMixEnd(pcrWells: seq<WellId>, area: real, p300: bool, wells: seq<WellId>, hCone: real)
    requires |pcrWells| == 48 && |wells| == 1
    ensures ColumnVolume(QpcrMasterMix(hCone)) == 1000.0
    ensures Before(QpcrMasterMixStep(pcrWells, area, p300), 1000.0, Full(QpcrMasterMix(hCone)), 48, 0) == Tank(40.0, 0, [])
    ensures InRange(QpcrMasterMixStep(pcrWells, area, p300), 1000.0, wells, Full(QpcrMasterMix(hCone)))
  {
    var s := QpcrMasterMixStep(pcrWells, area, p300);
    assert EqualDraws(s, 20.0);
    TimesIsProduct(47, 20.0);
    TimesIsProduct(48, 20.0);
    StepWithinColumn(s, 1000.0, 48, 20.0);
  }

  // ----------------------------------------- Automation/base_scripts/Viral_KF/KB_station_viral_template.py

  /** The beads step: 20 per column; `calc_height` only keeps the books, the transfer goes in at 0.2. */
  function TemplateBeadsStep(dests: seq<WellId>): StepSpec
  {
    StepSpec(dests, [20.0], 8.0, RackArea, 0.3, 10.0, FixedHeight(0.2), FirstOnly, ByColumn,
      Some(MixArgs(0, 120.0, 10, true, 1.0, 3.0, true, 10.0, true, 20.0, 0.0, 0.0)),
      10.0, FixedOffsets(0.0, 0.0), -8.0, true, false, true, None, false, None, false)
  }

  /**
   * The second beads step: single-channel draws charged against area 15
   * with no reserve and floor 0.7; the transfer always goes in at 0.7 and a
   * new column is remixed at mix height 0.7 first.
   */
  function TemplateBeadsTwoStep(dests: seq<WellId>): StepSpec
  {
    StepSpec(dests, [20.0], 1.0, 15.0, 0.7, 0.0, FixedHeight(0.7), FirstOnly, ByColumn,
      Some(MixArgs(0, 100.0, 10, true, 0.7, 3.0, true, 10.0, true, 20.0, 0.0, 0.0)),
      10.0, FixedOffsets(0.0, 0.0), -8.0, true, false, true, None, false, None, false)
  }

  /** Whatever the reagent and its starting state, the beads transfers use height 0.2 and never remix a column that did not change. */
  lemma TemplateBeadsFixedHeight(dests: seq<WellId>, r: Reagent, wells: seq<WellId>, t0: Tank)
    requires InRange(TemplateBeadsStep(dests), r.volWellOriginal, wells, t0)
    ensures forall c :: c in Calls(TemplateBeadsStep(dests), r, wells, t0, |dests|, 0) ==>
      c.move.pickupHeight == 0.2 && c.height >= 0.3 && (c.remix.Some? <==> c.changed) && c.move.source in wells
  {
    CallsFollowSettings(TemplateBeadsStep(dests), r, wells, t0);
  }

  /** The second beads step transfers at 0.7 and remixes exactly the newly opened columns, at their own well. */
  lemma TemplateBeadsTwoRemix(dests: seq<WellId>, r: Reagent, wells: seq<WellId>, t0: Tank)
    requires InRange(TemplateBeadsTwoStep(dests), r.volWellOriginal, wells, t0)
    ensures forall c :: c in Calls(TemplateBeadsTwoStep(dests), r, wells, t0, |dests|, 0) ==>
      && c.move.pickupHeight == 0.7
      && (c.remix.Some? <==> c.changed)
      && (c.remix.Some? ==> c.remix.value.location == c.move.source && c.remix.value.mixHeight == 0.7)
  {
    CallsFollowSettings(TemplateBeadsTwoStep(dests), r, wells, t0);
  }

  // ---------------------------------------------------------- KingFisher_pathogen_core/KB_station.py

  /** `reagent_reservoir_volume` and `num_wells` of the bulk reagents, 96 samples, 13500 per column. */
  const StationLysis := ReagentSpec("Lysis Buffer", 0.75, 0.5, 0.75, 0.5, false, 260.0 * 1.1 * 96.0, 2.0, 2, 1.95, 695.0, 2)
  const StationBeads := ReagentSpec("Magnetic beads", 0.5, 0.5, 0.5, 0.5, true, 260.0 * 1.15 * 96.0, 2.0, 2, 1.95, 695.0, 2)
  const StationWash1 := ReagentSpec("Wash Buffer 1", 0.75, 1.0, 0.75, 1.0, true, 300.0 * 96.0 * 1.1, 2.0, 3, 1.95, 695.0, 2)
  const StationWash2 := ReagentSpec("Wash Buffer 2", 0.75, 1.0, 0.75, 1.0, true, 300.0 * 1.1 * 96.0, 2.0, 3, 1.95, 695.0, 2)

  /** Step 2: two transfers of 130 per column at the fixed height 1, rinsing as the reagent says. */
  function StationLysisStep(dests: seq<WellId>): StepSpec
  {
    StepSpec(dests, [130.0, 130.0], 8.0, RackArea, 0.3, 50.0, FixedHeight(1.0), ReagentFlag, ByColumn, None,
      10.0, FixedOffsets(0.0, 0.0), -2.0, true, false, true, None, false, None, false)
  }

  /** Step 4: two transfers of 130 of beads per column at the computed height. */
  function StationBeadsStep(dests: seq<WellId>): StepSpec
  {
    StepSpec(dests, [130.0, 130.0], 8.0, RackArea, 0.3, 50.0, Computed, FirstOnly, ByColumn, None,
      10.0, FixedOffsets(0.0, 0.0), -2.0, true, false, true, None, false, None, false)
  }

  /** Steps 5 and 6: two transfers of 150 of wash buffer per column at the fixed height 1. */
  function StationWashStep(dests: seq<WellId>): StepSpec
  {
    StepSpec(dests, [150.0, 150.0], 8.0, RackArea, 0.3, 50.0, FixedHeight(1.0), FirstOnly, ByColumn, None,
      10.0, FixedOffsets(0.0, 0.0), -2.0, true, false, true, None, false, None, false)
  }

  /** 13728 per lysis column gives thirteen draws of 1040, so 24 draws end eleven into the second column. */
  lemma StationLysisEnd(dests: seq<WellId>, wells: seq<WellId>)
    requires |dests| == 12 && |wells| == 2
    ensures ColumnVolume(StationLysis) == 13728.0
    ensures Before(StationLysisStep(dests), 13728.0, Full(StationLysis), 12, 0) == Tank(2288.0, 1, [208.0])
    ensures InRange(StationLysisStep(dests), 13728.0, wells, Full(StationLysis))
  {
    var s := StationLysisStep(dests);
    assert EqualDraws(s, 1040.0);
    TimesIsProduct(12, 1040.0);
    TimesIsProduct(13, 1040.0);
    TimesIsProduct(10, 1040.0);
    TimesIsProduct(11, 1040.0);
    StepCyclesThen(s, 13728.0, 13, 1, 11, 1040.0);
  }

  /** 14352 per beads column: thirteen draws, then eleven from the second column. */
  lemma StationBeadsEnd(dests: seq<WellId>, wells: seq<WellId>)
    requires |dests| == 12 && |wells| == 2
    ensures ColumnVolume(StationBeads) == 14352.0
    ensures Before(StationBeadsStep(dests), 14352.0, Full(StationBeads), 12, 0) == Tank(2912.0, 1, [832.0])
    ensures InRange(StationBeadsStep(dests), 14352.0, wells, Full(StationBeads))
  {
    var s := StationBeadsStep(dests);
    assert EqualDraws(s, 1040.0);
    TimesIsProduct(12, 1040.0);
    TimesIsProduct(13, 1040.0);
    TimesIsProduct(10, 1040.0);
    TimesIsProduct(11, 1040.0);
    StepCyclesThen(s, 14352.0, 13, 1, 11, 1040.0);
  }

  /** 10560 per wash column gives eight draws of 1200: three columns, 960 abandoned in the first two. */
  lemma StationWashEnd(dests: seq<WellId>, wells: seq<WellId>, wash: ReagentSpec)
    requires |dests| == 12 && |wells| == 3 && wash in {StationWash1, StationWash2}
    ensures ColumnVolume(wash) == 10560.0
    ensures Before(StationWashStep(dests), 10560.0, Full(wash), 12, 0) == Tank(960.0, 2, [960.0, 960.0])
    ensures InRange(StationWashStep(dests), 10560.0, wells, Full(wash))
  {
    var s := StationWashStep(dests);
    assert EqualDraws(s, 1200.0);
    TimesIsProduct(7, 1200.0);
    TimesIsProduct(8, 1200.0);
    StepCycles(s, 10560.0, 8, 3, 1200.0);
  }

  /**
   * In steps 2, 5 and 6 `calc_height` decides the column, so the source is
   * a reservoir column, but the transfer goes in at height 1 whatever it
   * computed.
   */
  lemma StationFixedPickup(dests: seq<WellId>, r: Reagent, wells: seq<WellId>, t0: Tank)
    requires InRange(StationLysisStep(dests), r.volWellOriginal, wells, t0)
    requires InRange(StationWashStep(dests), r.volWellOriginal, wells, t0)
    ensures forall c :: c in Calls(StationLysisStep(dests), r, wells, t0, |dests|, 0) ==>
      c.move.pickupHeight == 1.0 && c.move.source in wells && c.move.rinse == r.rinse
    ensures forall c :: c in Calls(StationWashStep(dests), r, wells, t0, |dests|, 0) ==>
      c.move.pickupHeight == 1.0 && c.move.source in wells && (c.move.rinse <==> c.slot == Slot(0, 0))
  {
    CallsFollowSettings(StationLysisStep(dests), r, wells, t0);
    CallsFollowSettings(StationWashStep(dests), r, wells, t0);
  }
}
