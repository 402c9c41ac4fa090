/**
 * Labware layout arithmetic of the scripts: how many reservoir columns a
 * bulk reagent gets and which columns, the sample source table and its
 * racks, the pairing of samples with destination wells, the tip counter
 * behind `pick_up`, the wait that follows the lysis step, and the volume
 * list of a transfer step.
 */
module Layout {
  import opened Wrappers
  import opened Arith
  import opened Seqs
  import opened Actions
  import opened Splitting

  // ------------------------------------------------------ reservoir columns

  /** The capacity-derived `num_wells = ceil((NUM_SAMPLES + 5) * vol / max_multiwell_volume)`, with 13500 per column. */
  function KbStationWells(numSamples: nat, vol: nat): (w: nat)
    ensures w * 13500 >= (numSamples + 5) * vol
    ensures w == 0 || (w - 1) * 13500 < (numSamples + 5) * vol
  {
    CeilDiv((numSamples + 5) * vol, 13500)
  }

  /** For 96 samples: 3 columns of wash buffer (300 each), 2 of lysis or beads (260), 1 of elution buffer (90). */
  lemma KbStationWellCounts()
    ensures KbStationWells(96, 300) == 3
    ensures KbStationWells(96, 260) == 2
    ensures KbStationWells(96, 90) == 1
  {
    CeilDivIs(101 * 300, 13500, 3);
    CeilDivIs(101 * 260, 13500, 2);
    CeilDivIs(101 * 90, 13500, 1);
  }

  /** Column `k` gets the next `counts[k]` columns of the row, after those of the reagents before it. */
  function ReservoirSlices(row: seq<WellId>, counts: seq<nat>): (slices: seq<seq<WellId>>)
    ensures |slices| == |counts|
  {
    if counts == [] then []
    else
      var init := counts[..|counts| - 1];
      ReservoirSlices(row, init) + [PySlice(row, SumNat(init), SumNat(counts))]
  }

  /**
   * When the row has room for all of them, the reagents' columns are
   * contiguous, in order and disjoint: each reagent gets exactly its count,
   * and together they are the first columns of the row.
   */
  lemma {:induction false} SlicesContiguous(row: seq<WellId>, counts: seq<nat>)
    requires SumNat(counts) <= |row|
    ensures var slices := ReservoirSlices(row, counts);
      && (forall k :: 0 <= k < |counts| ==> |slices[k]| == counts[k])
      && Flatten(slices) == row[..SumNat(counts)]
  {
    if counts != [] {
      var init := counts[..|counts| - 1];
      var last := counts[|counts| - 1];
      assert counts == init + [last];
      SumNatAppend(init, [last]);
      assert [last][..0] == [];
      SlicesContiguous(row, init);
      var slices := ReservoirSlices(row, counts);
      assert slices[..|slices| - 1] == ReservoirSlices(row, init);
      assert row[..SumNat(init)] + row[SumNat(init)..SumNat(counts)] == row[..SumNat(counts)];
    }
  }

  /** One more reagent after the others gets the columns right after theirs. */
  lemma ReservoirSlicesSnoc(row: seq<WellId>, counts: seq<nat>, c: nat)
    ensures SumNat(counts + [c]) == SumNat(counts) + c
    ensures ReservoirSlices(row, counts + [c]) == ReservoirSlices(row, counts) + [PySlice(row, SumNat(counts), SumNat(counts) + c)]
  {
    assert (counts + [c])[..|counts|] == counts;
    SumNatAppend(counts, [c]);
    assert [c][..0] == [];
  }

  /**
   * The plates-prep layout: wash buffer 1, wash buffer 2, elution buffer and
   * lysis buffer take `num_wells` columns each, in that order.
   */
  function PlatesPrepSlices(row: seq<WellId>, wb1: nat, wb2: nat, elution: nat, lysis: nat): seq<seq<WellId>>
  {
    [PySlice(row, 0, wb1),
     PySlice(row, wb1, wb1 + wb2),
     PySlice(row, wb1 + wb2, wb1 + wb2 + elution),
     PySlice(row, wb1 + wb2 + elution, wb1 + wb2 + elution + lysis)]
  }

  /** The plates-prep slices are the cumulative layout, so they are contiguous and each has its reagent's count. */
  lemma PlatesPrepContiguous(row: seq<WellId>, wb1: nat, wb2: nat, elution: nat, lysis: nat)
    requires wb1 + wb2 + elution + lysis <= |row|
    ensures var slices := PlatesPrepSlices(row, wb1, wb2, elution, lysis);
      && |slices[0]| == wb1 && |slices[1]| == wb2 && |slices[2]| == elution && |slices[3]| == lysis
      && Flatten(slices) == row[..wb1 + wb2 + elution + lysis]
  {
    assert [wb1] == [] + [wb1];
    ReservoirSlicesSnoc(row, [], wb1);
    assert [wb1, wb2] == [wb1] + [wb2];
    ReservoirSlicesSnoc(row, [wb1], wb2);
    assert [wb1, wb2, elution] == [wb1, wb2] + [elution];
    ReservoirSlicesSnoc(row, [wb1, wb2], elution);
    assert [wb1, wb2, elution, lysis] == [wb1, wb2, elution] + [lysis];
    ReservoirSlicesSnoc(row, [wb1, wb2, elution], lysis);
    assert SumNat([wb1, wb2, elution, lysis]) == wb1 + wb2 + elution + lysis;
    assert ReservoirSlices(row, [wb1, wb2, elution, lysis]) == PlatesPrepSlices(row, wb1, wb2, elution, lysis);
    SlicesContiguous(row, [wb1, wb2, elution, lysis]);
  }

  /** The KB_station layout on the 12-column reservoir: `[:3]`, `[3:7]`, `[7:9]`, `[9:11]` and `[11:]`. */
  function KbStationSlices(row: seq<WellId>): seq<seq<WellId>>
  {
    [PySlice(row, 0, 3), PySlice(row, 3, 7), PySlice(row, 7, 9), PySlice(row, 9, 11), PySlice(row, 11, |row|)]
  }

  /**
   * On the 12-column reservoir the slices hold 3, 4, 2, 2 and 1 columns,
   * at least the 3, 3, 2, 2 and 1 that wash buffer 1, wash buffer 2, lysis,
   * beads and elution buffer need for 96 samples, and they share no column.
   */
  lemma KbStationSlicesFit(row: seq<WellId>)
    requires |row| == 12
    ensures var slices := KbStationSlices(row);
      && |slices[0]| == 3 && |slices[1]| == 4 && |slices[2]| == 2 && |slices[3]| == 2 && |slices[4]| == 1
      && KbStationWells(96, 300) <= |slices[0]| && KbStationWells(96, 300) <= |slices[1]|
      && KbStationWells(96, 260) <= |slices[2]| && KbStationWells(96, 260) <= |slices[3]|
      && KbStationWells(96, 90) <= |slices[4]|
      && Flatten(slices) == row
  {
    KbStationWellCounts();
    assert [3] == [] + [3];
    ReservoirSlicesSnoc(row, [], 3);
    assert [3, 4] == [3] + [4];
    ReservoirSlicesSnoc(row, [3], 4);
    assert [3, 4, 2] == [3, 4] + [2];
    ReservoirSlicesSnoc(row, [3, 4], 2);
    assert [3, 4, 2, 2] == [3, 4, 2] + [2];
    ReservoirSlicesSnoc(row, [3, 4, 2], 2);
    assert [3, 4, 2, 2, 1] == [3, 4, 2, 2] + [1];
    ReservoirSlicesSnoc(row, [3, 4, 2, 2], 1);
    assert SumNat([3, 4, 2, 2, 1]) == 12;
    assert ReservoirSlices(row, [3, 4, 2, 2, 1]) == KbStationSlices(row);
    SlicesContiguous(row, [3, 4, 2, 2, 1]);
    assert row[..12] == row;
  }

  // -------------------------------------------------------- sample sources

  /**
   * `generate_source_table`: the wells of the racks one rack after the
   * other; `None` for no racks, where the script would read `s` unbound.
   */
  method GenerateSourceTable(racks: seq<seq<WellId>>) returns (table: Option<seq<WellId>>)
    ensures table.None? <==> racks == []
    ensures table.Some? ==> table.value == Flatten(racks)
  {
    if racks == [] {
      return None;
    }
    var s: seq<WellId> := [];
    var k := 0;
    while k < |racks|
      invariant k <= |racks| && s == Flatten(racks[..k])
    {
      assert racks[..k + 1][..k] == racks[..k];
      if k == 0 {
        s := racks[0];
      } else {
        s := s + racks[k];
      }
      k := k + 1;
    }
    assert racks[..k] == racks;
    table := Some(s);
  }

  /** Racks of equal size make a table of that many times the size. */
  lemma {:induction false} FlattenRacksLength(racks: seq<seq<WellId>>, size: nat)
    requires forall r :: 0 <= r < |racks| ==> |racks[r]| == size
    ensures |Flatten(racks)| == |racks| * size
  {
    if racks != [] {
      FlattenRacksLength(racks[..|racks| - 1], size);
    }
  }

  /** With racks of equal size, well `j` of rack `r` sits at position `r * size + j` of the table. */
  lemma {:induction false} FlattenRacksAt(racks: seq<seq<WellId>>, size: nat, r: nat, j: nat)
    requires forall q :: 0 <= q < |racks| ==> |racks[q]| == size
    requires r < |racks| && j < size
    ensures r * size + j < |Flatten(racks)| && Flatten(racks)[r * size + j] == racks[r][j]
  {
    var init := racks[..|racks| - 1];
    FlattenRacksLength(init, size);
    FlattenRacksLength(racks, size);
    if r < |racks| - 1 {
      FlattenRacksAt(init, size, r, j);
      LemmaMulMono(r + 1, |racks| - 1, size);
    }
  }

  /** The number of sample racks: `ceil(NUM_SAMPLES / 24)` below 96 samples, else 4. */
  function RackNum(numSamples: nat): nat
  {
    if numSamples < 96 then CeilDiv(numSamples, 24) else 4
  }

  /** Between 1 and 96 samples, 1 to 4 racks of 24 tubes hold them all, with no rack left empty. */
  lemma RackNumCovers(numSamples: nat)
    requires 1 <= numSamples <= 96
    ensures 1 <= RackNum(numSamples) <= 4
    ensures 24 * RackNum(numSamples) >= numSamples
    ensures 24 * (RackNum(numSamples) - 1) < numSamples
  {
    if numSamples < 96 {
      CeilDivLeast(numSamples, 24, 4);
    }
  }

  /** The deck slots of the racks: the first `rack_num` of 4, 1, 6 and 3. */
  function RackSlots(numSamples: nat): seq<string>
  {
    PySlice(["4", "1", "6", "3"], 0, RackNum(numSamples))
  }

  /** Up to 96 samples the racks take the first `rack_num` slots, in that order. */
  lemma RackSlotsPrefix(numSamples: nat)
    requires 1 <= numSamples <= 96
    ensures |RackSlots(numSamples)| == RackNum(numSamples)
    ensures RackSlots(numSamples) == ["4", "1", "6", "3"][..RackNum(numSamples)]
  {
    RackNumCovers(numSamples);
  }

  function Zip<A, B>(xs: seq<A>, ys: seq<B>): (ps: seq<(A, B)>)
    ensures |ps| == if |xs| < |ys| then |xs| else |ys|
  {
    var n := if |xs| < |ys| then |xs| else |ys|;
    seq(n, i requires 0 <= i < n => (xs[i], ys[i]))
  }

  /** `zip(sample_sources_full[:NUM_SAMPLES], dest_plate.wells()[:NUM_SAMPLES])`. */
  function SamplePairs(table: seq<WellId>, plate: seq<WellId>, numSamples: nat): seq<(WellId, WellId)>
  {
    Zip(PySlice(table, 0, numSamples), PySlice(plate, 0, numSamples))
  }

  /**
   * With `rack_num` racks of 24 tubes and a plate of at least `NUM_SAMPLES`
   * wells, every sample is paired: sample `i`, tube `i % 24` of rack
   * `i / 24`, goes to destination well `i`.
   */
  lemma SamplePairing(racks: seq<seq<WellId>>, plate: seq<WellId>, numSamples: nat)
    requires 1 <= numSamples <= 96 && |racks| == RackNum(numSamples) && numSamples <= |plate|
    requires forall r :: 0 <= r < |racks| ==> |racks[r]| == 24
    ensures var pairs := SamplePairs(Flatten(racks), plate, numSamples);
      && |pairs| == numSamples
      && forall i :: 0 <= i < numSamples ==> pairs[i] == (racks[i / 24][i % 24], plate[i])
  {
    RackNumCovers(numSamples);
    FlattenRacksLength(racks, 24);
    var table := Flatten(racks);
    forall i | 0 <= i < numSamples
      ensures table[i] == racks[i / 24][i % 24]
    {
      assert i == (i / 24) * 24 + i % 24;
      FlattenRacksAt(racks, 24, i / 24, i % 24);
    }
  }

  // -------------------------------------------------------------- tip count

  /**
   * The tip counter of one pipette (`tip_track['counts'][pip]` against
   * `tip_track['maxes'][pip]`), together with the tips actually taken from
   * the loaded racks since they were last replaced.
   */
  class TipTrack {
    const max: nat
    const simulating: bool
    var count: nat
    var taken: nat
    var hasTip: bool

    /** Between transfers the counter agrees with the racks and the racks were never overdrawn. */
    predicate Synced()
      reads this
    {
      !hasTip && count == taken && taken <= max
    }

    constructor (max: nat, simulating: bool)
      ensures this.max == max && this.simulating == simulating
      ensures count == 0 && taken == 0 && !hasTip
    {
      this.max := max;
      this.simulating := simulating;
      count := 0;
      taken := 0;
      hasTip := false;
    }

    /**
     * `pick_up`: on the robot, a counter at its maximum means the racks are
     * replaced and the counter restarts at 0; then a tip is taken.
     */
    method PickUp() returns (replaced: bool)
      modifies this
      ensures replaced <==> !simulating && old(count) == max
      ensures count == if replaced then 0 else old(count)
      ensures taken == (if replaced then 0 else old(taken)) + 1
      ensures hasTip
    {
      replaced := false;
      if !simulating {
        if count == max {
          taken := 0;
          count := 0;
          replaced := true;
        }
      }
      taken := taken + 1;
      hasTip := true;
    }

    method DropTip()
      modifies this
      ensures !hasTip && count == old(count) && taken == old(taken)
    {
      hasTip := false;
    }

    /** `tip_track['counts'][pip] += 1` */
    method Count()
      modifies this
      ensures count == old(count) + 1 && taken == old(taken) && hasTip == old(hasTip)
    {
      count := count + 1;
    }
  }

  /**
   * A step that takes a tip for every transfer and counts it after the drop
   * (steps 1 and 2 of the sample-prep template): on the robot, the counter
   * stays in agreement with the racks, and every transfer took one tip.
   */
  method TipPerTransfer(t: TipTrack, n: nat) returns (replacements: nat)
    requires t.Synced() && !t.simulating && t.max > 0
    modifies t
    ensures t.Synced()
    ensures t.taken + replacements * t.max == old(t.taken) + n
  {
    replacements := 0;
    var k := 0;
    while k < n
      invariant k <= n && t.Synced()
      invariant t.taken + replacements * t.max == old(t.taken) + k
    {
      if !t.hasTip {
        var replaced := t.PickUp();
        if replaced {
          replacements := replacements + 1;
        }
      }
      t.DropTip();
      t.Count();
      k := k + 1;
    }
  }

  /**
   * Step 3 of the sample-prep template as written: a tip is taken and
   * dropped for every destination, but the counter moves once, after the
   * loop.  Without a rack change on the way, `n` tips leave the racks and
   * the counter grows by 1, so from two destinations on the counter no
   * longer agrees with the racks.
   */
  method TipPerDestinationCountedOnce(t: TipTrack, n: nat)
    requires t.Synced() && !t.simulating && 1 <= n && t.count + n <= t.max
    modifies t
    ensures t.taken == old(t.taken) + n
    ensures t.count == old(t.count) + 1
    ensures !t.hasTip
    ensures t.Synced() <==> n == 1
  {
    var k := 0;
    while k < n
      invariant k <= n && !t.hasTip && t.count == old(t.count) && t.taken == old(t.taken) + k
    {
      if !t.hasTip {
        var _ := t.PickUp();
      }
      t.DropTip();
      k := k + 1;
    }
    t.Count();
  }

  /**
   * Step 3 as its "same tip" comment reads: the tip taken for the first
   * destination serves them all and is dropped after the loop, so counting
   * it once keeps the counter in agreement with the racks.
   */
  method TipSharedByDestinations(t: TipTrack, n: nat) returns (replacements: nat)
    requires t.Synced() && !t.simulating && t.max > 0 && 1 <= n
    modifies t
    ensures t.Synced()
    ensures replacements <= 1
    ensures t.taken + replacements * t.max == old(t.taken) + 1
  {
    replacements := 0;
    var k := 0;
    while k < n
      invariant k <= n && replacements <= 1 && t.count + replacements * t.max == old(t.count)
      invariant k == 0 ==> t.Synced() && replacements == 0
      invariant k > 0 ==> t.hasTip && t.taken == t.count + 1 && t.count < t.max
      invariant k > 0 ==> t.taken + replacements * t.max == old(t.taken) + 1
    {
      if !t.hasTip {
        var replaced := t.PickUp();
        if replaced {
          replacements := replacements + 1;
        }
      }
      k := k + 1;
    }
    t.DropTip();
    t.Count();
  }

  /** Step 3 counting each tip after its drop, as steps 1 and 2 do: the counter keeps agreeing with the racks. */
  method TipPerDestination(t: TipTrack, n: nat) returns (replacements: nat)
    requires t.Synced() && !t.simulating && t.max > 0
    modifies t
    ensures t.Synced()
    ensures t.taken + replacements * t.max == old(t.taken) + n
  {
    replacements := TipPerTransfer(t, n);
  }

  // ----------------------------------------------------------- lysis wait

  /** The lysis step's duration, capped at 600 seconds. */
  function LysisTakenTime(elapsed: real): (t: real)
    ensures t <= 600.0
    ensures t == elapsed || (t == 600.0 && elapsed > 600.0)
  {
    if elapsed > 600.0 then 600.0 else elapsed
  }

  /** The wait of step 3: its `wait_time` less what the lysis step already took. */
  function WaitDelay(waitTime: real, elapsed: real): (d: real)
    ensures elapsed >= 0.0 ==> d <= waitTime
    ensures waitTime >= 600.0 ==> d >= 0.0
    ensures elapsed <= 600.0 ==> d == waitTime - elapsed
  {
    waitTime - LysisTakenTime(elapsed)
  }

  // ------------------------------------------------------------ volume list

  /**
   * The volume list of a KB_station transfer step: split by
   * `divide_volume` when the volume and the air gap exceed the allowed
   * capacity; otherwise the list of the previous step stays in force, or
   * none at all.
   */
  function StepVolList(prev: Option<seq<nat>>, vol: nat, airGap: nat, capacity: nat): Option<seq<nat>>
    requires capacity > 0
  {
    if vol + airGap > capacity then DivideVolume(vol, capacity) else prev
  }

  /**
   * With air gap 10 and capacity 180, every KB_station step (lysis and
   * beads 260, both washes 300) takes the splitting branch, so each has its
   * own volume list whatever came before.
   */
  lemma KbStationVolLists(prev: Option<seq<nat>>)
    ensures StepVolList(prev, 260, 10, 180) == Some([130, 130])
    ensures StepVolList(prev, 300, 10, 180) == Some([150, 150])
    ensures StepVolList(prev, 170, 10, 180) == prev
  {
    DivideVolumeExamples();
  }
}
