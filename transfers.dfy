/**
 * Transfer sequencing: `custom_mix`, `move_vol_multichannel` and
 * `distribute_custom`, which turn one transfer request into the calls made
 * on the pipette.  The scripts paste these functions into every protocol
 * with small differences; a `Dialect` records the differences of one file.
 */
module Transfers {
  import opened Actions
  import opened Arith
  import opened Reservoir
  import opened Seqs

  /** How one protocol file's copy of `custom_mix` and `move_vol_multichannel` behaves. */
  datatype Dialect = Dialect(
    // custom_mix
    mixGuardNonPositive: bool,     // `mix_height <= 0` (true) or `mix_height == 0` (false) selects the default
    mixHeightDefault: real,        // the height that replaces it
    mixUsesMixRates: bool,         // mixing rates (true) or the reagent's transfer rates (false)
    mixSourceHeightDefault: real,  // default `source_height`
    mixPostAtTop: bool,            // post steps at `top(z)` (true) or at the current position (false)
    mixPostAirgapAspirates: bool,  // the mix's post air gap is an aspirate (true) or a dispense (false)
    // move_vol_multichannel
    rinseRoundsFromReagent: bool,  // rinse for `reagent.rinse_loops` rounds (true) or for 2 (false)
    rinsePostAirgap: bool,         // `post_airgap` of the rinse mix
    blowOutZ: real,                // blow-out height over the destination's top
    postAirgapEarly: bool,         // post air gap right after the blow-out (true) or last (false)
    postAirgapAspirates: bool,     // the transfer's post air gap is an aspirate (true) or a dispense (false)
    postAirgapZ: real,             // its height over the destination's top
    postAirgapRate: real)          // its rate

  /** Homebrew_viral_protocol/B_station.py */
  const BStation := Dialect(false, 3.0, true, 3.0, true, false, true, true, -2.0, true, false, -2.0, DefaultRate)
  /** Automation/base_scripts/Viral_KF/KB_station_viral_template.py */
  const ViralTemplate := Dialect(false, 3.0, true, 3.0, true, true, true, false, -5.0, true, true, -2.0, DefaultRate)
  /** KingFisher_viral/KC_qPCR_singledispense.py */
  const QpcrSingle := Dialect(false, 3.0, false, 3.0, true, false, false, false, -2.0, false, true, 5.0, 2.0)
  /** KingFisher_pathogen_core/KB_station.py */
  const PathogenStation := Dialect(false, 3.0, false, 3.0, true, false, true, true, -2.0, true, false, -2.0, DefaultRate)
  /** KingFisher/KC_qPCR_multidispense.py */
  const QpcrMulti := Dialect(false, 3.0, false, 3.0, true, false, false, false, -2.0, false, false, 5.0, 2.0)
  /** KingFisher_viral/KB_plates_prep.py */
  const PlatesPrep := Dialect(false, 3.0, false, 3.0, true, false, false, true, -2.0, false, false, 5.0, DefaultRate)
  /** KingFisher_pathogen_core/Deprecated/KB_IC_beads.py */
  const PathogenBeads := Dialect(true, 3.0, true, 2.0, true, false, true, true, -2.0, true, false, -2.0, DefaultRate)
  /** Automation/base_scripts/Viral_KF/KA_sample_prep_template.py */
  const SamplePrep := Dialect(false, 3.0, false, 3.0, true, false, false, false, -2.0, false, true, 5.0, DefaultRate)
  /** KingFisher_viral/deprecated/KB_IC.py (its single `flow_rate_mix` is both mixing rates) */
  const ViralIC := Dialect(true, 0.5, true, 0.3, false, false, false, false, -2.0, false, true, -2.0, DefaultRate)

  // ---------------------------------------------------------------- custom_mix

  /** The arguments of one `custom_mix` call; `x0`/`x1` are the source and destination x offsets. */
  datatype MixArgs = MixArgs(
    location: WellId, vol: real, rounds: nat, blowOut: bool, mixHeight: real, sourceHeight: real,
    postAirgap: bool, postAirgapVol: real, postDispense: bool, postDispenseVol: real, x0: real, x1: real)

  /** The volume aspirated before the rounds and dispensed after them. */
  const TrapVolume: real := 1.0

  /** The dispense height actually used for a requested `mix_height`. */
  function MixHeight(d: Dialect, h: real): real
  {
    if (if d.mixGuardNonPositive then h <= 0.0 else h == 0.0) then d.mixHeightDefault else h
  }

  /** The copy whose guard is `<= 0` never dispenses at or below the bottom; the `== 0` copies pass a negative height through. */
  lemma MixHeightGuard(d: Dialect, h: real)
    ensures d.mixGuardNonPositive && d.mixHeightDefault > 0.0 ==> MixHeight(d, h) > 0.0
    ensures !d.mixGuardNonPositive ==> (MixHeight(d, h) == d.mixHeightDefault <==> h == 0.0 || h == d.mixHeightDefault)
    ensures h > 0.0 ==> MixHeight(d, h) == h
  {}

  function MixAspirateRate(d: Dialect, r: Reagent): real
  {
    if d.mixUsesMixRates then r.flowRateAspirateMix else r.flowRateAspirate
  }

  function MixDispenseRate(d: Dialect, r: Reagent): real
  {
    if d.mixUsesMixRates then r.flowRateDispenseMix else r.flowRateDispense
  }

  function MixSource(a: MixArgs): Place { Bottom(a.location, a.sourceHeight, a.x0) }

  function MixTarget(d: Dialect, a: MixArgs): Place { Bottom(a.location, MixHeight(d, a.mixHeight), a.x1) }

  /** `n` rounds of drawing `vol` at `src` and pushing it back at `dst`. */
  function Rounds(vol: real, src: Place, dst: Place, ra: real, rd: real, n: nat): seq<Action>
  {
    if n == 0 then [] else Rounds(vol, src, dst, ra, rd, n - 1) + [Aspirate(vol, src, ra), Dispense(vol, dst, rd)]
  }

  /** The mixing phase: the trap volume in, the rounds, the trap volume out. */
  function MixPhase(d: Dialect, r: Reagent, a: MixArgs): seq<Action>
  {
    [Aspirate(TrapVolume, MixSource(a), MixAspirateRate(d, r))]
      + Rounds(a.vol, MixSource(a), MixTarget(d, a), MixAspirateRate(d, r), MixDispenseRate(d, r), a.rounds)
      + [Dispense(TrapVolume, MixTarget(d, a), MixDispenseRate(d, r))]
  }

  /** Where the mix's post steps go. */
  function MixPostPlace(d: Dialect, a: MixArgs, z: real): Place
  {
    if d.mixPostAtTop then Top(a.location, z, 0.0) else Here
  }

  /** What follows the mixing phase: blow-out, post dispense, post air gap, each only when asked for. */
  function MixTail(d: Dialect, a: MixArgs): seq<Action>
  {
    (if a.blowOut then [BlowOut(Top(a.location, -2.0, 0.0))] else [])
      + (if a.postDispense then [Dispense(a.postDispenseVol, MixPostPlace(d, a, -2.0), DefaultRate)] else [])
      + (if a.postAirgap then
           [if d.mixPostAirgapAspirates then Aspirate(a.postAirgapVol, MixPostPlace(d, a, 5.0), DefaultRate)
            else Dispense(a.postAirgapVol, MixPostPlace(d, a, 5.0), DefaultRate)]
         else [])
  }

  /** Everything one `custom_mix` call does. */
  function MixTrace(d: Dialect, r: Reagent, a: MixArgs): seq<Action>
  {
    MixPhase(d, r, a) + MixTail(d, a)
  }

  /** `custom_mix`: issues the calls one by one, the rounds in a loop. */
  method CustomMix(d: Dialect, r: Reagent, a: MixArgs) returns (acts: seq<Action>)
    ensures acts == MixTrace(d, r, a)
    ensures |acts| >= 2 * a.rounds + 2
    ensures acts[0] == Aspirate(TrapVolume, Bottom(a.location, a.sourceHeight, a.x0), MixAspirateRate(d, r))
  {
    acts := MixCalls(d, r, a);
    var tail := MixTailCalls(d, a);
    RoundsShape(a.vol, MixSource(a), MixTarget(d, a), MixAspirateRate(d, r), MixDispenseRate(d, r), a.rounds);
    acts := acts + tail;
  }

  /** The mixing phase of `custom_mix`: the height default, the rates, the trap volume and the loop of rounds. */
  method MixCalls(d: Dialect, r: Reagent, a: MixArgs) returns (acts: seq<Action>)
    ensures acts == MixPhase(d, r, a)
  {
    var mixHeight := a.mixHeight;
    if (if d.mixGuardNonPositive then mixHeight <= 0.0 else mixHeight == 0.0) {
      mixHeight := d.mixHeightDefault;
    }
    var ra := if d.mixUsesMixRates then r.flowRateAspirateMix else r.flowRateAspirate;
    var rd := if d.mixUsesMixRates then r.flowRateDispenseMix else r.flowRateDispense;
    var src := Bottom(a.location, a.sourceHeight, a.x0);
    var dst := Bottom(a.location, mixHeight, a.x1);
    acts := [Aspirate(TrapVolume, src, ra)];
    var i := 0;
    while i < a.rounds
      invariant i <= a.rounds
      invariant acts == [Aspirate(TrapVolume, src, ra)] + Rounds(a.vol, src, dst, ra, rd, i)
    {
      acts := acts + [Aspirate(a.vol, src, ra), Dispense(a.vol, dst, rd)];
      i := i + 1;
    }
    acts := acts + [Dispense(TrapVolume, dst, rd)];
  }

  /** The post steps of `custom_mix`, each guarded by its flag. */
  method MixTailCalls(d: Dialect, a: MixArgs) returns (tail: seq<Action>)
    ensures tail == MixTail(d, a)
  {
    tail := [];
    if a.blowOut {
      tail := tail + [BlowOut(Top(a.location, -2.0, 0.0))];
    }
    var post := if d.mixPostAtTop then Top(a.location, -2.0, 0.0) else Here;
    if a.postDispense {
      tail := tail + [Dispense(a.postDispenseVol, post, DefaultRate)];
    }
    var gap := if d.mixPostAtTop then Top(a.location, 5.0, 0.0) else Here;
    if a.postAirgap {
      if d.mixPostAirgapAspirates {
        tail := tail + [Aspirate(a.postAirgapVol, gap, DefaultRate)];
      } else {
        tail := tail + [Dispense(a.postAirgapVol, gap, DefaultRate)];
      }
    }
  }

  /** Each round is an aspirate at the source height followed by a dispense of the same volume at the mix height. */
  lemma {:induction false} RoundsShape(vol: real, src: Place, dst: Place, ra: real, rd: real, n: nat)
    ensures var rs := Rounds(vol, src, dst, ra, rd, n);
      |rs| == 2 * n &&
      (forall k :: 0 <= k < n ==> rs[2 * k] == Aspirate(vol, src, ra) && rs[2 * k + 1] == Dispense(vol, dst, rd))
  {
    if n > 0 {
      RoundsShape(vol, src, dst, ra, rd, n - 1);
    }
  }

  /** The rounds move `n` times `vol` each way in `n` aspirates and `n` dispenses. */
  lemma {:induction false} RoundsBalanced(vol: real, src: Place, dst: Place, ra: real, rd: real, n: nat)
    ensures var rs := Rounds(vol, src, dst, ra, rd, n);
      Aspirated(rs) == Times(n, vol) && Dispensed(rs) == Times(n, vol) &&
      Aspirates(rs) == n && Dispenses(rs) == n
  {
    if n > 0 {
      var rest := Rounds(vol, src, dst, ra, rd, n - 1);
      RoundsBalanced(vol, src, dst, ra, rd, n - 1);
      TotalsConcat(rest, [Aspirate(vol, src, ra), Dispense(vol, dst, rd)]);
      var pair := [Aspirate(vol, src, ra), Dispense(vol, dst, rd)];
      assert pair[..1] == [Aspirate(vol, src, ra)];
      TotalsSingle(Aspirate(vol, src, ra));
    }
  }

  /**
   * The mixing phase is volume-balanced: `rounds + 1` aspirates and
   * `rounds + 1` dispenses, each side moving the trap volume plus
   * `rounds` times `vol`.
   */
  lemma MixPhaseBalanced(d: Dialect, r: Reagent, a: MixArgs)
    ensures var m := MixPhase(d, r, a);
      Aspirated(m) == TrapVolume + Times(a.rounds, a.vol) && Dispensed(m) == Aspirated(m) &&
      Aspirates(m) == a.rounds + 1 && Dispenses(m) == a.rounds + 1
  {
    var ra, rd := MixAspirateRate(d, r), MixDispenseRate(d, r);
    var first := [Aspirate(TrapVolume, MixSource(a), ra)];
    var rs := Rounds(a.vol, MixSource(a), MixTarget(d, a), ra, rd, a.rounds);
    var last := [Dispense(TrapVolume, MixTarget(d, a), rd)];
    RoundsBalanced(a.vol, MixSource(a), MixTarget(d, a), ra, rd, a.rounds);
    TotalsConcat(first, rs);
    TotalsConcat(first + rs, last);
    TotalsSingle(first[0]);
    TotalsSingle(last[0]);
  }

  /** Every call of the mixing phase works in the mixed well: draws at the source height, pushes back at the mix height. */
  lemma MixPhasePlaces(d: Dialect, r: Reagent, a: MixArgs)
    ensures var m := MixPhase(d, r, a);
      forall k :: 0 <= k < |m| ==>
        (m[k].Aspirate? && m[k].at == Bottom(a.location, a.sourceHeight, a.x0)) ||
        (m[k].Dispense? && m[k].at == Bottom(a.location, MixHeight(d, a.mixHeight), a.x1))
  {
    RoundsShape(a.vol, MixSource(a), MixTarget(d, a), MixAspirateRate(d, r), MixDispenseRate(d, r), a.rounds);
    var m := MixPhase(d, r, a);
    forall k | 0 <= k < |m|
      ensures (m[k].Aspirate? && m[k].at == Bottom(a.location, a.sourceHeight, a.x0)) ||
        (m[k].Dispense? && m[k].at == Bottom(a.location, MixHeight(d, a.mixHeight), a.x1))
    {
      if 0 < k < |m| - 1 {
        var j := (k - 1) / 2;
        assert k - 1 == 2 * j || k - 1 == 2 * j + 1;
      }
    }
  }

  // ----------------------------------------------------- move_vol_multichannel

  /** The arguments of one `move_vol_multichannel` call. */
  datatype MoveArgs = MoveArgs(
    source: WellId, dest: WellId, vol: real, airGapVol: real, x0: real, x1: real,
    pickupHeight: real, rinse: bool, dispHeight: real, blowOut: bool, touchTip: bool,
    postDispense: bool, postDispenseVol: real, postAirgap: bool, postAirgapVol: real)

  /** The mix a rinse performs in the source before the transfer. */
  function RinseArgs(d: Dialect, r: Reagent, m: MoveArgs): MixArgs
  {
    MixArgs(m.source, m.vol, if d.rinseRoundsFromReagent then r.rinseLoops else 2, true, 0.0,
      d.mixSourceHeightDefault, d.rinsePostAirgap, 10.0, false, 20.0, m.x0, m.x1)
  }

  function RinsePart(d: Dialect, r: Reagent, m: MoveArgs): seq<Action>
  {
    if m.rinse then MixTrace(d, r, RinseArgs(d, r, m)) else []
  }

  /** The transfer proper: liquid, optional air gap, one dispense of both, the reagent's pause. */
  function TransferCore(r: Reagent, m: MoveArgs): seq<Action>
  {
    [Aspirate(m.vol, Bottom(m.source, m.pickupHeight, m.x0), r.flowRateAspirate)]
      + (if m.airGapVol != 0.0 then [Aspirate(m.airGapVol, Top(m.source, -2.0, 0.0), r.flowRateAspirate)] else [])
      + [Dispense(m.vol + m.airGapVol, Top(m.dest, m.dispHeight, m.x1), r.flowRateDispense), Delay(r.delay)]
  }

  function PostAirgapCall(d: Dialect, m: MoveArgs): Action
  {
    if d.postAirgapAspirates then Aspirate(m.postAirgapVol, Top(m.dest, d.postAirgapZ, 0.0), d.postAirgapRate)
    else Dispense(m.postAirgapVol, Top(m.dest, d.postAirgapZ, 0.0), d.postAirgapRate)
  }

  /** Everything after the pause, in the file's order. */
  function PostSteps(d: Dialect, m: MoveArgs): seq<Action>
  {
    var blow := if m.blowOut then [BlowOut(Top(m.dest, d.blowOutZ, 0.0))] else [];
    var gap := if m.postAirgap then [PostAirgapCall(d, m)] else [];
    var extra := if m.postDispense then [Dispense(m.postDispenseVol, Top(m.dest, -2.0, 0.0), DefaultRate)] else [];
    var touch := if m.touchTip then [TouchTip(20.0, -5.0, 0.9)] else [];
    if d.postAirgapEarly then blow + gap + extra + touch else blow + extra + touch + gap
  }

  /** Everything one `move_vol_multichannel` call does: optional rinse, the transfer, the post steps. */
  function MoveTrace(d: Dialect, r: Reagent, m: MoveArgs): seq<Action>
  {
    RinsePart(d, r, m) + TransferCore(r, m) + PostSteps(d, m)
  }

  /** `move_vol_multichannel`. */
  method MoveVol(d: Dialect, r: Reagent, m: MoveArgs) returns (acts: seq<Action>)
    ensures acts == MoveTrace(d, r, m)
    ensures acts[|RinsePart(d, r, m)|] == Aspirate(m.vol, Bottom(m.source, m.pickupHeight, m.x0), r.flowRateAspirate)
  {
    acts := [];
    if m.rinse {
      acts := CustomMix(d, r, RinseArgs(d, r, m));
    }
    acts := acts + [Aspirate(m.vol, Bottom(m.source, m.pickupHeight, m.x0), r.flowRateAspirate)];
    if m.airGapVol != 0.0 {
      acts := acts + [Aspirate(m.airGapVol, Top(m.source, -2.0, 0.0), r.flowRateAspirate)];
    }
    acts := acts + [Dispense(m.vol + m.airGapVol, Top(m.dest, m.dispHeight, m.x1), r.flowRateDispense)];
    acts := acts + [Delay(r.delay)];
    assert acts == RinsePart(d, r, m) + TransferCore(r, m);
    var post := AfterPause(d, m);
    acts := acts + post;
  }

  /** The calls after the pause of `move_vol_multichannel`, each guarded by its flag, in the file's order. */
  method AfterPause(d: Dialect, m: MoveArgs) returns (post: seq<Action>)
    ensures post == PostSteps(d, m)
  {
    post := [];
    ghost var blow := if m.blowOut then [BlowOut(Top(m.dest, d.blowOutZ, 0.0))] else [];
    ghost var gap := if m.postAirgap then [PostAirgapCall(d, m)] else [];
    ghost var extra := if m.postDispense then [Dispense(m.postDispenseVol, Top(m.dest, -2.0, 0.0), DefaultRate)] else [];
    ghost var touch := if m.touchTip then [TouchTip(20.0, -5.0, 0.9)] else [];
    if m.blowOut { post := post + [BlowOut(Top(m.dest, d.blowOutZ, 0.0))]; }
    assert post == blow;
    if d.postAirgapEarly {
      if m.postAirgap { post := post + [PostAirgapCall(d, m)]; }
      assert post == blow + gap;
      if m.postDispense { post := post + [Dispense(m.postDispenseVol, Top(m.dest, -2.0, 0.0), DefaultRate)]; }
      assert post == blow + gap + extra;
      if m.touchTip { post := post + [TouchTip(20.0, -5.0, 0.9)]; }
    } else {
      if m.postDispense { post := post + [Dispense(m.postDispenseVol, Top(m.dest, -2.0, 0.0), DefaultRate)]; }
      assert post == blow + extra;
      if m.touchTip { post := post + [TouchTip(20.0, -5.0, 0.9)]; }
      assert post == blow + extra + touch;
      if m.postAirgap { post := post + [PostAirgapCall(d, m)]; }
    }
  }

  /**
   * With every post step asked for, the calls after the pause come in the
   * file's order: the post air gap second (an aspirate in the viral
   * template, a dispense in B_station and the pathogen stations) or last
   * (a dispense in the multi-dispense qPCR script and the plates script, an
   * aspirate in the single-dispense qPCR script, the sample-prep template
   * and the internal-control script).
   */
  lemma PostStepsOrder(d: Dialect, m: MoveArgs)
    requires m.blowOut && m.postAirgap && m.postDispense && m.touchTip
    ensures var g := if d.postAirgapAspirates then KAspirate else KDispense;
      Kinds(PostSteps(d, m)) == if d.postAirgapEarly then [KBlowOut, g, KDispense, KTouchTip] else [KBlowOut, KDispense, KTouchTip, g]
    ensures d in {BStation, PathogenStation, PathogenBeads} ==> Kinds(PostSteps(d, m)) == [KBlowOut, KDispense, KDispense, KTouchTip]
    ensures d == ViralTemplate ==> Kinds(PostSteps(d, m)) == [KBlowOut, KAspirate, KDispense, KTouchTip]
    ensures d in {QpcrMulti, PlatesPrep} ==> Kinds(PostSteps(d, m)) == [KBlowOut, KDispense, KTouchTip, KDispense]
    ensures d in {QpcrSingle, SamplePrep, ViralIC} ==> Kinds(PostSteps(d, m)) == [KBlowOut, KDispense, KTouchTip, KAspirate]
  {
    var k := Kinds(PostSteps(d, m));
    assert |k| == 4;
  }

  /**
   * The transfer proper carries exactly the liquid plus the air gap from
   * the source to the destination, with an air-gap aspirate only when the
   * air gap is not zero.
   */
  lemma TransferBalanced(r: Reagent, m: MoveArgs)
    ensures var c := TransferCore(r, m);
      Aspirated(c) == m.vol + m.airGapVol && Dispensed(c) == m.vol + m.airGapVol &&
      Aspirates(c) == (if m.airGapVol != 0.0 then 2 else 1) && Dispenses(c) == 1
  {
    var a := [Aspirate(m.vol, Bottom(m.source, m.pickupHeight, m.x0), r.flowRateAspirate)];
    var g := if m.airGapVol != 0.0 then [Aspirate(m.airGapVol, Top(m.source, -2.0, 0.0), r.flowRateAspirate)] else [];
    var e := [Dispense(m.vol + m.airGapVol, Top(m.dest, m.dispHeight, m.x1), r.flowRateDispense), Delay(r.delay)];
    TotalsConcat(a, g);
    TotalsConcat(a + g, e);
    TotalsSingle(a[0]);
    if g != [] { TotalsSingle(g[0]); }
    assert e[..1] == [e[0]];
    TotalsConcat([e[0]], [e[1]]);
    TotalsSingle(e[0]);
    TotalsSingle(e[1]);
  }

  /**
   * A rinse is the file's mix in the source, for the file's number of
   * rounds, dispensing at the default height, and it comes before the main
   * aspirate.
   */
  lemma RinseBeforeTransfer(d: Dialect, r: Reagent, m: MoveArgs)
    requires m.rinse
    ensures var rounds := if d.rinseRoundsFromReagent then r.rinseLoops else 2;
      var p := RinsePart(d, r, m);
      |p| >= 2 * rounds + 2 &&
      Aspirates(MixPhase(d, r, RinseArgs(d, r, m))) == rounds + 1 &&
      p[1 + 2 * rounds] == Dispense(TrapVolume, Bottom(m.source, MixHeight(d, 0.0), m.x1), MixDispenseRate(d, r))
  {
    var a := RinseArgs(d, r, m);
    MixPhaseBalanced(d, r, a);
    RoundsShape(a.vol, MixSource(a), MixTarget(d, a), MixAspirateRate(d, r), MixDispenseRate(d, r), a.rounds);
  }

  // --------------------------------------------------------- distribute_custom

  /**
   * The two copies of `distribute_custom`: the qPCR copy (air gap 10, the
   * reagent's rates, a pause per destination, one blow-out into the waste at
   * the end) and the internal-control copy (air gap 20, the pipette's own
   * rates, no pause, two blow-outs into the waste after every destination).
   */
  datatype DistributeCopy = QpcrCopy | ControlCopy

  function GapVolume(c: DistributeCopy): real { if c.QpcrCopy? then 10.0 else 20.0 }

  function DistAspirateRate(c: DistributeCopy, r: Reagent): real
  {
    if c.QpcrCopy? then r.flowRateAspirate else DefaultRate
  }

  function DistDispenseRate(c: DistributeCopy, r: Reagent): real
  {
    if c.QpcrCopy? then r.flowRateDispense else DefaultRate
  }

  /** The calls made for one destination. */
  function Visit(c: DistributeCopy, r: Reagent, volume: real, d: WellId, dispHeight: real, waste: WellId, pickup: real): seq<Action>
  {
    var gap := GapVolume(c);
    var ra, rd := DistAspirateRate(c, r), DistDispenseRate(c, r);
    if c.QpcrCopy? then
      [Dispense(gap, Top(d, 0.0, 0.0), rd), Dispense(volume, Top(d, dispHeight, 0.0), rd), Delay(r.delay),
       MoveTo(Top(d, 5.0, 0.0)), Aspirate(gap, Top(d, 5.0, 0.0), ra)]
    else
      [Dispense(gap, Top(d, 0.0, 0.0), rd), Dispense(volume, Top(d, dispHeight, 0.0), rd),
       MoveTo(Top(d, 5.0, 0.0)), Aspirate(gap, Here, ra),
       BlowOut(Bottom(waste, pickup + 3.0, 0.0)), BlowOut(Bottom(waste, pickup + 3.0, 0.0))]
  }

  function VisitLength(c: DistributeCopy): nat { if c.QpcrCopy? then 5 else 6 }

  /** The visits of the destinations, in order. */
  function Visits(c: DistributeCopy, r: Reagent, volume: real, ds: seq<WellId>, dispHeight: real, waste: WellId, pickup: real): seq<Action>
  {
    if ds == [] then []
    else Visits(c, r, volume, ds[..|ds| - 1], dispHeight, waste, pickup) + Visit(c, r, volume, ds[|ds| - 1], dispHeight, waste, pickup)
  }

  /**
   * One draw for every destination plus the extra, a touch, and the first
   * air gap.  `len(dest) * volume` is written as repeated addition,
   * `Times`, which `Arith.TimesIsProduct` shows is the product.
   */
  function DistHead(c: DistributeCopy, r: Reagent, volume: real, n: nat, src: WellId, pickup: real, extra: real): seq<Action>
  {
    [Aspirate(Times(n, volume) + extra, Bottom(src, pickup, 0.0), DistAspirateRate(c, r)),
     TouchTip(20.0, -5.0, DefaultRadius), MoveTo(Top(src, 5.0, 0.0)), Aspirate(GapVolume(c), Here, DistAspirateRate(c, r))]
  }

  function DistEnd(c: DistributeCopy, waste: WellId, pickup: real): seq<Action>
  {
    if c.QpcrCopy? then [BlowOut(Bottom(waste, pickup + 3.0, 0.0))] else []
  }

  /** The whole trace of one `distribute_custom` call. */
  function DistributePlan(c: DistributeCopy, r: Reagent, volume: real, src: WellId, dest: seq<WellId>,
                          waste: WellId, pickup: real, extra: real, dispHeight: real): seq<Action>
  {
    DistHead(c, r, volume, |dest|, src, pickup, extra) + Visits(c, r, volume, dest, dispHeight, waste, pickup) + DistEnd(c, waste, pickup)
  }

  /**
   * `distribute_custom`: one draw, then a loop over the destinations.  The
   * returned volume is the liquid delivered, i.e. everything dispensed but
   * the air gaps, and the draw is that plus the extra.  The returned
   * `len(dest) * volume` is `Times(|dest|, volume)`.
   */
  method DistributeCustom(c: DistributeCopy, r: Reagent, volume: real, src: WellId, dest: seq<WellId>,
                          waste: WellId, pickup: real, extra: real, dispHeight: real)
    returns (acts: seq<Action>, delivered: real)
    ensures acts == DistributePlan(c, r, volume, src, dest, waste, pickup, extra, dispHeight)
    ensures delivered == Dispensed(acts) - Times(|dest|, GapVolume(c))
    ensures Aspirated(acts) == delivered + extra + Times(|dest| + 1, GapVolume(c))
    ensures acts[0] == Aspirate(delivered + extra, Bottom(src, pickup, 0.0), DistAspirateRate(c, r))
  {
    var gap := if c.QpcrCopy? then 10.0 else 20.0;
    var ra := if c.QpcrCopy? then r.flowRateAspirate else DefaultRate;
    var rd := if c.QpcrCopy? then r.flowRateDispense else DefaultRate;
    acts := [Aspirate(Times(|dest|, volume) + extra, Bottom(src, pickup, 0.0), ra)];
    acts := acts + [TouchTip(20.0, -5.0, DefaultRadius), MoveTo(Top(src, 5.0, 0.0))];
    acts := acts + [Aspirate(gap, Here, ra)];
    assert acts == DistHead(c, r, volume, |dest|, src, pickup, extra);
    var visits := VisitAll(c, r, volume, dest, dispHeight, waste, pickup);
    acts := acts + visits;
    if c.QpcrCopy? {
      acts := acts + [BlowOut(Bottom(waste, pickup + 3.0, 0.0))];
    }
    delivered := Times(|dest|, volume);
    DistributeBalanced(c, r, volume, src, dest, waste, pickup, extra, dispHeight);
  }

  /** The loop of `distribute_custom` over the destinations. */
  method VisitAll(c: DistributeCopy, r: Reagent, volume: real, dest: seq<WellId>, dispHeight: real, waste: WellId, pickup: real)
    returns (acts: seq<Action>)
    ensures acts == Visits(c, r, volume, dest, dispHeight, waste, pickup)
  {
    acts := [];
    var i := 0;
    while i < |dest|
      invariant i <= |dest|
      invariant acts == Visits(c, r, volume, dest[..i], dispHeight, waste, pickup)
    {
      var visit := VisitCalls(c, r, volume, dest[i], dispHeight, waste, pickup);
      assert dest[..i + 1][..i] == dest[..i];
      acts := acts + visit;
      i := i + 1;
    }
    assert dest[..i] == dest;
  }

  /** The calls of one loop iteration of `distribute_custom`. */
  method VisitCalls(c: DistributeCopy, r: Reagent, volume: real, d: WellId, dispHeight: real, waste: WellId, pickup: real)
    returns (visit: seq<Action>)
    ensures visit == Visit(c, r, volume, d, dispHeight, waste, pickup)
  {
    var gap := if c.QpcrCopy? then 10.0 else 20.0;
    var ra := if c.QpcrCopy? then r.flowRateAspirate else DefaultRate;
    var rd := if c.QpcrCopy? then r.flowRateDispense else DefaultRate;
    visit := [Dispense(gap, Top(d, 0.0, 0.0), rd), Dispense(volume, Top(d, dispHeight, 0.0), rd)];
    if c.QpcrCopy? {
      visit := visit + [Delay(r.delay), MoveTo(Top(d, 5.0, 0.0)), Aspirate(gap, Top(d, 5.0, 0.0), ra)];
    } else {
      visit := visit + [MoveTo(Top(d, 5.0, 0.0)), Aspirate(gap, Here, ra)];
      visit := visit + [BlowOut(Bottom(waste, pickup + 3.0, 0.0)), BlowOut(Bottom(waste, pickup + 3.0, 0.0))];
    }
  }

  /** Each visit dispenses the air gap and the volume, and takes a new air gap. */
  lemma {:induction false} VisitsBalanced(c: DistributeCopy, r: Reagent, volume: real, ds: seq<WellId>, dispHeight: real, waste: WellId, pickup: real)
    ensures var vs := Visits(c, r, volume, ds, dispHeight, waste, pickup);
      Aspirated(vs) == Times(|ds|, GapVolume(c)) &&
      Dispensed(vs) == Times(|ds|, volume) + Times(|ds|, GapVolume(c)) &&
      Aspirates(vs) == |ds| && Dispenses(vs) == 2 * |ds| &&
      |vs| == VisitLength(c) * |ds|
  {
    if ds != [] {
      var front := ds[..|ds| - 1];
      var v := Visit(c, r, volume, ds[|ds| - 1], dispHeight, waste, pickup);
      VisitsBalanced(c, r, volume, front, dispHeight, waste, pickup);
      TotalsConcat(Visits(c, r, volume, front, dispHeight, waste, pickup), v);
      VisitTotals(c, r, volume, ds[|ds| - 1], dispHeight, waste, pickup);
    }
  }

  lemma VisitTotals(c: DistributeCopy, r: Reagent, volume: real, d: WellId, dispHeight: real, waste: WellId, pickup: real)
    ensures var v := Visit(c, r, volume, d, dispHeight, waste, pickup);
      Aspirated(v) == GapVolume(c) && Dispensed(v) == volume + GapVolume(c) &&
      Aspirates(v) == 1 && Dispenses(v) == 2 && |v| == VisitLength(c)
  {
    var v := Visit(c, r, volume, d, dispHeight, waste, pickup);
    var at: nat := if c.QpcrCopy? then 4 else 3;
    var k := 0;
    while k < |v|
      invariant k <= |v|
      invariant Aspirated(v[..k]) == (if k > at then GapVolume(c) else 0.0)
      invariant Dispensed(v[..k]) == (if k >= 2 then volume + GapVolume(c) else if k == 1 then GapVolume(c) else 0.0)
      invariant Aspirates(v[..k]) == (if k > at then 1 else 0)
      invariant Dispenses(v[..k]) == (if k >= 2 then 2 else k)
    {
      assert v[..k + 1][..k] == v[..k];
      k := k + 1;
    }
    assert v[..k] == v;
  }

  /** The opening draw takes every destination's volume, the extra, and the first air gap. */
  lemma HeadTotals(c: DistributeCopy, r: Reagent, volume: real, n: nat, src: WellId, pickup: real, extra: real)
    ensures var h := DistHead(c, r, volume, n, src, pickup, extra);
      Aspirated(h) == Times(n, volume) + extra + GapVolume(c) && Dispensed(h) == 0.0 &&
      Aspirates(h) == 2 && Dispenses(h) == 0
  {
    var h := DistHead(c, r, volume, n, src, pickup, extra);
    var k := 0;
    while k < |h|
      invariant k <= |h|
      invariant Aspirated(h[..k]) == (if k == 0 then 0.0 else if k < 4 then Times(n, volume) + extra else Times(n, volume) + extra + GapVolume(c))
      invariant Dispensed(h[..k]) == 0.0 && Dispenses(h[..k]) == 0
      invariant Aspirates(h[..k]) == (if k == 0 then 0 else if k < 4 then 1 else 2)
    {
      assert h[..k + 1][..k] == h[..k];
      k := k + 1;
    }
    assert h[..k] == h;
  }

  /**
   * `distribute_custom` balance: it draws every destination's volume plus
   * the extra plus one air gap more than there are destinations, and
   * delivers each destination's volume behind its air gap.
   */
  lemma DistributeBalanced(c: DistributeCopy, r: Reagent, volume: real, src: WellId, dest: seq<WellId>,
                           waste: WellId, pickup: real, extra: real, dispHeight: real)
    ensures var p := DistributePlan(c, r, volume, src, dest, waste, pickup, extra, dispHeight);
      Aspirated(p) == Times(|dest|, volume) + extra + Times(|dest| + 1, GapVolume(c)) &&
      Dispensed(p) == Times(|dest|, volume) + Times(|dest|, GapVolume(c)) &&
      Aspirates(p) == |dest| + 2 && Dispenses(p) == 2 * |dest|
  {
    var h := DistHead(c, r, volume, |dest|, src, pickup, extra);
    var vs := Visits(c, r, volume, dest, dispHeight, waste, pickup);
    var e := DistEnd(c, waste, pickup);
    VisitsBalanced(c, r, volume, dest, dispHeight, waste, pickup);
    HeadTotals(c, r, volume, |dest|, src, pickup, extra);
    TotalsConcat(h, vs);
    TotalsConcat(h + vs, e);
    if e != [] { TotalsSingle(e[0]); }
    var g := GapVolume(c);
    assert Aspirated(e) == 0.0;
    assert Times(|dest| + 1, g) == Times(|dest|, g) + g;
  }

  /** The visits are the destinations' visits, in the destinations' order, each once. */
  lemma {:induction false} VisitsInOrder(c: DistributeCopy, r: Reagent, volume: real, ds: seq<WellId>, dispHeight: real, waste: WellId, pickup: real)
    ensures Visits(c, r, volume, ds, dispHeight, waste, pickup)
      == Flatten(seq(|ds|, k requires 0 <= k < |ds| => Visit(c, r, volume, ds[k], dispHeight, waste, pickup)))
  {
    if ds != [] {
      var front := ds[..|ds| - 1];
      var m := seq(|ds|, k requires 0 <= k < |ds| => Visit(c, r, volume, ds[k], dispHeight, waste, pickup));
      VisitsInOrder(c, r, volume, front, dispHeight, waste, pickup);
      assert m[..|m| - 1] == seq(|front|, k requires 0 <= k < |front| => Visit(c, r, volume, front[k], dispHeight, waste, pickup));
    }
  }
}
