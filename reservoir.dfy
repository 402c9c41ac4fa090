/**
 * Reservoir bookkeeping of a reagent: which reservoir column is in use, how
 * much liquid is left in it and which volumes were abandoned when the
 * scripts moved on to the next column (`Reagent` and `calc_height`).
 */
module Reservoir {
  import opened Actions
  import opened Arith
  import opened Seqs

  /** The mutable part of a reagent, as a value: remaining volume, column index, abandoned volumes. */
  datatype Tank = Tank(volWell: real, col: nat, unused: seq<real>)

  /** A column change happens when the column cannot give the draw plus the kept reserve. */
  predicate Changes(t: Tank, aspirate: real, extra: real)
  {
    t.volWell < aspirate + extra
  }

  /** The bookkeeping effect of one `calc_height` call drawing `aspirate` with reserve `extra`. */
  function Draw(t: Tank, original: real, aspirate: real, extra: real): Tank
  {
    if Changes(t, aspirate, extra) then Tank(original - aspirate, t.col + 1, t.unused + [t.volWell])
    else Tank(t.volWell - aspirate, t.col, t.unused)
  }

  /** A sequence of draws, applied in order. */
  function Run(t: Tank, original: real, draws: seq<real>, extra: real): Tank
  {
    if draws == [] then t
    else Draw(Run(t, original, draws[..|draws| - 1], extra), original, draws[|draws| - 1], extra)
  }

  function Sum(xs: seq<real>): real
  {
    if xs == [] then 0.0 else Sum(xs[..|xs| - 1]) + xs[|xs| - 1]
  }

  /** The pickup height for `remaining` liquid above a cone of volume `vCono`, floored at `minHeight`. */
  function PickupHeight(remaining: real, vCono: real, area: real, minHeight: real): (h: real)
    requires area > 0.0
    ensures h >= minHeight
    ensures h == minHeight || h * area + vCono == remaining
    ensures h > minHeight ==> h * area + vCono == remaining
  {
    var raw := (remaining - vCono) / area;
    if raw < minHeight then minHeight else raw
  }

  /** Less liquid never gives a higher pickup point. */
  lemma PickupHeightMonotone(v1: real, v2: real, vCono: real, area: real, minHeight: real)
    requires area > 0.0 && v1 <= v2
    ensures PickupHeight(v1, vCono, area, minHeight) <= PickupHeight(v2, vCono, area, minHeight)
  {
    var r1 := (v1 - vCono) / area;
    var r2 := (v2 - vCono) / area;
    assert r2 - r1 == (v2 - v1) / area;
  }

  /**
   * A draw that stays in its column leaves at least the reserve behind, and
   * a draw that moves on charges the fresh column, not the old one.
   */
  lemma DrawKeepsReserve(t: Tank, original: real, aspirate: real, extra: real)
    ensures !Changes(t, aspirate, extra) ==> Draw(t, original, aspirate, extra).volWell >= extra
    ensures Changes(t, aspirate, extra) ==> Draw(t, original, aspirate, extra).unused[|t.unused|] == t.volWell
  {}

  /** Running a concatenation is running one part after the other. */
  lemma {:induction false} RunAppend(t: Tank, original: real, a: seq<real>, b: seq<real>, extra: real)
    ensures Run(t, original, a + b, extra) == Run(Run(t, original, a, extra), original, b, extra)
  {
    if b == [] {
      assert a + b == a;
    } else {
      RunAppend(t, original, a, b[..|b| - 1], extra);
      assert (a + b)[..|a + b| - 1] == a + b[..|b| - 1];
    }
  }

  /**
   * Columns only move forward, one per abandoned volume, and what was
   * abandoned before is never changed.
   */
  lemma {:induction false} RunColumns(t: Tank, original: real, draws: seq<real>, extra: real)
    ensures var u := Run(t, original, draws, extra);
      u.col - t.col == |u.unused| - |t.unused| >= 0 && u.unused[..|t.unused|] == t.unused
  {
    if draws != [] {
      RunColumns(t, original, draws[..|draws| - 1], extra);
    }
  }

  /** A prefix of the draws never reaches a later column than all of them. */
  lemma RunPrefixColumns(t: Tank, original: real, draws: seq<real>, i: nat, extra: real)
    requires i <= |draws|
    ensures Run(t, original, draws[..i], extra).col <= Run(t, original, draws, extra).col
  {
    assert draws[..i] + draws[i..] == draws;
    RunAppend(t, original, draws[..i], draws[i..], extra);
    RunColumns(Run(t, original, draws[..i], extra), original, draws[i..], extra);
  }

  /**
   * Conservation of liquid: what the columns held (the starting volume plus
   * one full column per change) is what was drawn plus what is left, in the
   * current column and in the abandoned ones.
   */
  lemma {:induction false} RunConserves(t: Tank, original: real, draws: seq<real>, extra: real)
    ensures var u := Run(t, original, draws, extra);
      u.col >= t.col &&
      t.volWell + Times(u.col - t.col, original) + Sum(t.unused)
        == u.volWell + Sum(draws) + Sum(u.unused)
  {
    if draws != [] {
      var init := draws[..|draws| - 1];
      var p := Run(t, original, init, extra);
      var d := draws[|draws| - 1];
      RunConserves(t, original, init, extra);
      if Changes(p, d, extra) {
        assert (p.unused + [p.volWell])[..|p.unused|] == p.unused;
      }
    }
  }

  /** `n` equal draws of `d`, one after the other. */
  function Drain(t: Tank, original: real, n: nat, d: real, extra: real): Tank
  {
    if n == 0 then t else Draw(Drain(t, original, n - 1, d, extra), original, d, extra)
  }

  /** Equal draws are a `Run` over a constant list. */
  lemma {:induction false} DrainIsRun(t: Tank, original: real, n: nat, d: real, extra: real)
    ensures Drain(t, original, n, d, extra) == Run(t, original, Repeat(n, d), extra)
  {
    if n > 0 {
      DrainIsRun(t, original, n - 1, d, extra);
      assert Repeat(n, d)[..n - 1] == Repeat(n - 1, d);
    }
  }

  /** `m + n` equal draws are `m` of them followed by `n` more. */
  lemma {:induction false} DrainAppend(t: Tank, original: real, m: nat, n: nat, d: real, extra: real)
    ensures Drain(t, original, m + n, d, extra) == Drain(Drain(t, original, m, d, extra), original, n, d, extra)
  {
    if n > 0 {
      DrainAppend(t, original, m, n - 1, d, extra);
    }
  }

  /**
   * While the column can still give the draw plus the reserve on the last of
   * `n` equal draws, none of them changes column.
   */
  lemma {:induction false} DrainWithinColumn(t: Tank, original: real, n: nat, d: real, extra: real)
    requires d >= 0.0
    requires n == 0 || t.volWell - Times(n - 1, d) >= d + extra
    ensures Drain(t, original, n, d, extra) == Tank(t.volWell - Times(n, d), t.col, t.unused)
  {
    if n > 0 {
      if n > 1 {
        assert t.volWell - Times(n - 2, d) >= d + extra;
      }
      DrainWithinColumn(t, original, n - 1, d, extra);
    }
  }

  /**
   * From a column that cannot give the next draw plus the reserve, `n`
   * equal draws open the next column and all come from it, as long as it can
   * give the last of them plus the reserve.
   */
  lemma DrainReopen(t: Tank, original: real, n: nat, d: real, extra: real)
    requires d >= 0.0 && n >= 1
    requires original - Times(n - 1, d) >= d + extra
    requires t.volWell < d + extra
    ensures Drain(t, original, n, d, extra) == Tank(original - Times(n, d), t.col + 1, t.unused + [t.volWell])
  {
    var reopened := Tank(original - d, t.col + 1, t.unused + [t.volWell]);
    assert Drain(t, original, n, d, extra) == Drain(reopened, original, n - 1, d, extra) by {
      assert Drain(t, original, 1, d, extra) == reopened;
      DrainAppend(t, original, 1, n - 1, d, extra);
    }
    assert Drain(reopened, original, n - 1, d, extra) == Tank(original - Times(n, d), t.col + 1, t.unused + [t.volWell]) by {
      TimesAdd(1, n - 1, d);
      if n > 1 {
        TimesAdd(1, n - 2, d);
      }
      DrainWithinColumn(reopened, original, n - 1, d, extra);
    }
  }

  /**
   * Equal draws from full columns: when `q` draws fit in a column and a
   * further one would not, `k` rounds of `q` draws use `k` columns and
   * abandon the same remainder in each of the first `k - 1`.
   */
  lemma {:induction false} DrainCycles(c: nat, u: seq<real>, original: real, q: nat, k: nat, d: real, extra: real)
    requires d >= 0.0 && q >= 1 && k >= 1
    requires original - Times(q - 1, d) >= d + extra
    requires original - Times(q, d) < d + extra
    ensures var left := original - Times(q, d);
      Drain(Tank(original, c, u), original, k * q, d, extra) == Tank(left, c + k - 1, u + Repeat(k - 1, left))
  {
    var left := original - Times(q, d);
    if k == 1 {
      DrainWithinColumn(Tank(original, c, u), original, q, d, extra);
      assert u + Repeat(0, left) == u;
    } else {
      DrainCycles(c, u, original, q, k - 1, d, extra);
      assert k * q == (k - 1) * q + q;
      DrainAppend(Tank(original, c, u), original, (k - 1) * q, q, d, extra);
      var mid := Tank(left, c + k - 2, u + Repeat(k - 2, left));
      DrainReopen(mid, original, q, d, extra);
      assert u + Repeat(k - 1, left) == mid.unused + [left];
    }
  }

  /**
   * `k` full rounds of `q` draws and then `n` more: the `n` come from a
   * fresh column, `k` remainders having been abandoned.
   */
  lemma DrainCyclesThen(c: nat, u: seq<real>, original: real, q: nat, k: nat, n: nat, d: real, extra: real)
    requires d >= 0.0 && q >= 1 && k >= 1 && n >= 1
    requires original - Times(q - 1, d) >= d + extra
    requires original - Times(q, d) < d + extra
    requires original - Times(n - 1, d) >= d + extra
    ensures var left := original - Times(q, d);
      Drain(Tank(original, c, u), original, k * q + n, d, extra) == Tank(original - Times(n, d), c + k, u + Repeat(k, left))
  {
    var left := original - Times(q, d);
    DrainCycles(c, u, original, q, k, d, extra);
    DrainAppend(Tank(original, c, u), original, k * q, n, d, extra);
    DrainReopen(Tank(left, c + k - 1, u + Repeat(k - 1, left)), original, n, d, extra);
  }

  /** Returns the stored well for column `col`: the caller's list index, defined only inside the reservoir. */
  function SourceWell(reservoir: seq<WellId>, col: nat): (w: WellId)
    requires col < |reservoir|
    ensures w in reservoir
  {
    reservoir[col]
  }

  /** The fixed properties of a reagent, as passed to the constructor. */
  datatype ReagentSpec = ReagentSpec(
    name: string,
    flowRateAspirate: real,
    flowRateDispense: real,
    flowRateAspirateMix: real,
    flowRateDispenseMix: real,
    rinse: bool,
    reservoirVolume: real,
    delay: real,
    numWells: nat,
    hCono: real,
    vFondo: real,
    rinseLoops: nat)

  class Reagent {
    const name: string
    const flowRateAspirate: real
    const flowRateDispense: real
    const flowRateAspirateMix: real
    const flowRateDispenseMix: real
    const rinse: bool
    const reservoirVolume: real
    const delay: real
    const numWells: nat
    const hCono: real
    const vCono: real
    const rinseLoops: nat
    /** Volume of one reservoir column when full; set once, never reassigned. */
    const volWellOriginal: real

    var col: nat
    var volWell: real
    var unused: seq<real>
    /** The reservoir columns assigned to the reagent once the labware is loaded. */
    var reservoir: seq<WellId>

    ghost predicate Valid()
      reads this
    {
      |unused| == col
    }

    function State(): Tank
      reads this
    {
      Tank(volWell, col, unused)
    }

    constructor (spec: ReagentSpec)
      requires spec.numWells > 0
      ensures Valid()
      ensures name == spec.name && rinse == spec.rinse && rinseLoops == spec.rinseLoops
      ensures flowRateAspirate == spec.flowRateAspirate && flowRateDispense == spec.flowRateDispense
      ensures flowRateAspirateMix == spec.flowRateAspirateMix && flowRateDispenseMix == spec.flowRateDispenseMix
      ensures reservoirVolume == spec.reservoirVolume && delay == spec.delay && numWells == spec.numWells
      ensures hCono == spec.hCono && vCono == spec.vFondo
      ensures volWellOriginal == spec.reservoirVolume / spec.numWells as real
      ensures col == 0 && volWell == 0.0 && unused == [] && reservoir == []
    {
      name := spec.name;
      flowRateAspirate := spec.flowRateAspirate;
      flowRateDispense := spec.flowRateDispense;
      flowRateAspirateMix := spec.flowRateAspirateMix;
      flowRateDispenseMix := spec.flowRateDispenseMix;
      rinse := spec.rinse;
      reservoirVolume := spec.reservoirVolume;
      delay := spec.delay;
      numWells := spec.numWells;
      col := 0;
      volWell := 0.0;
      hCono := spec.hCono;
      vCono := spec.vFondo;
      unused := [];
      volWellOriginal := spec.reservoirVolume / spec.numWells as real;
      rinseLoops := spec.rinseLoops;
      reservoir := [];
    }

    /** The scripts fill the first column right after construction. */
    method Fill()
      modifies this
      ensures volWell == volWellOriginal
      ensures col == old(col) && unused == old(unused) && reservoir == old(reservoir)
    {
      volWell := volWellOriginal;
    }

    /** Assigns the reservoir columns once the labware is loaded. */
    method PlaceIn(wells: seq<WellId>)
      modifies this
      ensures reservoir == wells
      ensures State() == old(State())
    {
      reservoir := wells;
    }

    /**
     * `calc_height`: moves to the next column when the current one holds
     * less than the draw plus the reserve, charges the draw, and returns the
     * pickup height for what is left, floored at `minHeight`.
     */
    method CalcHeight(crossSectionArea: real, aspirateVolume: real, minHeight: real, extraVolume: real)
      returns (height: real, colChange: bool)
      requires crossSectionArea > 0.0
      modifies this
      ensures colChange <==> old(volWell) < aspirateVolume + extraVolume
      ensures col == old(col) + (if colChange then 1 else 0)
      ensures unused == if colChange then old(unused) + [old(volWell)] else old(unused)
      ensures volWell == (if colChange then volWellOriginal else old(volWell)) - aspirateVolume
      ensures reservoir == old(reservoir)
      ensures height == PickupHeight(volWell, vCono, crossSectionArea, minHeight)
      ensures State() == Draw(old(State()), volWellOriginal, aspirateVolume, extraVolume)
      ensures old(Valid()) ==> Valid()
    {
      if volWell < aspirateVolume + extraVolume {
        unused := unused + [volWell];
        col := col + 1;
        volWell := volWellOriginal;
        height := (volWell - aspirateVolume - vCono) / crossSectionArea;
        volWell := volWell - aspirateVolume;
        if height < minHeight {
          height := minHeight;
        }
        colChange := true;
      } else {
        height := (volWell - aspirateVolume - vCono) / crossSectionArea;
        volWell := volWell - aspirateVolume;
        if height < minHeight {
          height := minHeight;
        }
        colChange := false;
      }
    }
  }
}
