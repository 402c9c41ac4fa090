/**
 * The reagent step loops: for every destination column `i` and every volume
 * `j` of the step's volume list, `calc_height` charges the draw to the
 * reagent, a new reservoir column is optionally remixed, and
 * `move_vol_multichannel` makes the transfer.  The loops of the protocol
 * files differ only in the settings a `StepSpec` records.
 */
module Steps {
  import opened Wrappers
  import opened Actions
  import opened Seqs
  import opened Reservoir
  import opened Transfers
  import opened Arith

  /** `find_side`: the magnet is on the left (-1) of even columns and on the right (+1) of odd ones. */
  function FindSide(col: nat): (side: int)
    ensures side == -1 || side == 1
    ensures side == -1 <==> col % 2 == 0
  {
    if col % 2 == 0 then -1 else 1
  }

  /** One iteration of a step loop: destination column `i`, volume-list index `j`. */
  datatype Slot = Slot(i: nat, j: nat)

  /** Where the pickup height passed to `move_vol_multichannel` comes from. */
  datatype HeightRule = Computed | FixedHeight(h: real)

  /** How a loop sets `rinse` before each transfer. */
  datatype RinseRule =
    | NoRinse                // `rinse=False`
    | ReagentFlag            // `rinse=reagent.rinse`
    | FirstOnly              // `rinse = (i == 0 and j == 0)`
    | ChangeOrFirstColumn    // `rinse = col_change or i == 0`
    | FlagUntilCleared       // starts at `reagent.rinse`; `if i != 0 and j != 0: rinse = False`
    | FlagFirstOnly          // `reagent.rinse` on the first transfer only: what `if i != 0 or j != 0: rinse = False` leaves

  /** Where the transfer draws from. */
  datatype SourceRule = ByColumn | SingleWell(well: WellId)

  /** The `x_offset` pair: constant, or a destination offset scaled by `find_side(i)`. */
  datatype Offsets = FixedOffsets(x0: real, x1: real) | SideOffsets(x0: real, scale: real)

  /** The settings of one step loop. */
  datatype StepSpec = StepSpec(
    dests: seq<WellId>,         // destination per outer iteration
    vols: seq<real>,            // the volume list of the inner loop
    channels: real,             // `calc_height` is charged `transfer_vol * channels`
    area: real, minHeight: real, extra: real,
    height: HeightRule, rinse: RinseRule, source: SourceRule,
    remix: Option<MixArgs>,     // the mix of a freshly opened column, when the loop has one
    airGap: real, offsets: Offsets, dispHeight: real,
    blowOut: bool, touchTip: bool, postAirgap: bool,
    destMix: Option<MixArgs>,   // a mix in the destination after every transfer
    touchAfter: bool,           // a `touch_tip(speed=20, v_offset=-5)` after every transfer
    columnMix: Option<MixArgs>, // a mix in the destination once its column's transfers are done
    columnTouch: bool)          // a `touch_tip(speed=20, v_offset=-5)` after that mix

  /**
   * What one iteration did: whether the column changed, the computed height,
   * the remix of the source, the transfer's arguments, the mix of the
   * destination and whether a touch tip follows.
   */
  datatype StepCall = StepCall(slot: Slot, changed: bool, height: real, remix: Option<MixArgs>, move: MoveArgs,
                               destMix: Option<MixArgs>, touch: bool)

  /** The touch tip the step loops issue by hand, outside `move_vol_multichannel`. */
  const LoopTouch: Action := TouchTip(20.0, -5.0, DefaultRadius)

  /** A mix of the loop's settings, moved to destination column `i` with that column's offsets. */
  function AtDest(s: StepSpec, a: MixArgs, i: nat): MixArgs
    requires i < |s.dests|
  {
    var (x0, x1) := OffsetPair(s.offsets, i);
    a.(location := s.dests[i], x0 := x0, x1 := x1)
  }

  /** The volume `calc_height` is charged for entry `j` of the volume list: `vol * channels`. */
  function DrawOf(s: StepSpec, j: nat): real
    requires j < |s.vols|
  {
    s.vols[j] * s.channels
  }

  /**
   * The reagent's state just before iteration `(i, j)` of a loop that began
   * at `t0`; `(i, |vols|)` and `(i + 1, 0)` name the same moment.
   */
  function Before(s: StepSpec, original: real, t0: Tank, i: nat, j: nat): Tank
    requires j <= |s.vols|
    decreases i, j
  {
    if j > 0 then Draw(Before(s, original, t0, i, j - 1), original, DrawOf(s, j - 1), s.extra)
    else if i > 0 then Before(s, original, t0, i - 1, |s.vols|)
    else t0
  }

  /** A transfer at or before `(i, j)` had `i != 0 and j != 0`. */
  predicate Cleared(i: nat, j: nat, m: nat)
  {
    (i >= 1 && j >= 1) || (i >= 2 && m >= 2)
  }

  /** A transfer strictly before `(i, j)` had `i != 0 and j != 0`. */
  predicate ClearedBefore(i: nat, j: nat, m: nat)
  {
    (i >= 1 && j >= 2) || (i >= 2 && m >= 2)
  }

  /** The `rinse` argument of the transfer at `(i, j)` of a loop over `m` volumes. */
  function RinseAt(rule: RinseRule, flag: bool, sl: Slot, m: nat, changed: bool): bool
  {
    match rule
    case NoRinse => false
    case ReagentFlag => flag
    case FirstOnly => sl.i == 0 && sl.j == 0
    case ChangeOrFirstColumn => changed || sl.i == 0
    case FlagUntilCleared => flag && !Cleared(sl.i, sl.j, m)
    case FlagFirstOnly => flag && sl.i == 0 && sl.j == 0
  }

  /** The value a loop's `rinse` variable holds at moment `(i, j)`, for the rules that carry it across iterations. */
  predicate RinseCarried(rule: RinseRule, flag: bool, i: nat, j: nat, m: nat, rinse: bool)
  {
    match rule
    case FlagUntilCleared => rinse == (flag && !ClearedBefore(i, j, m))
    case _ => true
  }

  function OffsetPair(o: Offsets, i: nat): (real, real)
  {
    match o
    case FixedOffsets(x0, x1) => (x0, x1)
    case SideOffsets(x0, scale) => (x0, FindSide(i) as real * scale)
  }

  /** The source looked up after `calc_height`: `reagent_reservoir[reagent.col]`, or the reagent's single well. */
  predicate SourceOk(s: StepSpec, reservoir: seq<WellId>, after: Tank)
  {
    s.source.ByColumn? ==> after.col < |reservoir|
  }

  function SourceOf(s: StepSpec, reservoir: seq<WellId>, after: Tank): WellId
    requires SourceOk(s, reservoir, after)
  {
    if s.source.ByColumn? then reservoir[after.col] else s.source.well
  }

  /** The iteration at `sl` when the reagent stands at `before`. */
  function CallAt(s: StepSpec, r: Reagent, reservoir: seq<WellId>, before: Tank, sl: Slot): StepCall
    requires sl.i < |s.dests| && sl.j < |s.vols| && s.area > 0.0
    requires SourceOk(s, reservoir, Draw(before, r.volWellOriginal, DrawOf(s, sl.j), s.extra))
  {
    var after := Draw(before, r.volWellOriginal, DrawOf(s, sl.j), s.extra);
    var changed := Changes(before, DrawOf(s, sl.j), s.extra);
    var height := PickupHeight(after.volWell, r.vCono, s.area, s.minHeight);
    var src := SourceOf(s, reservoir, after);
    var (x0, x1) := OffsetPair(s.offsets, sl.i);
    StepCall(sl, changed, height,
      if s.remix.Some? && changed then Some(s.remix.value.(location := src)) else None,
      MoveArgs(src, s.dests[sl.i], s.vols[sl.j], s.airGap, x0, x1,
        if s.height.Computed? then height else s.height.h,
        RinseAt(s.rinse, r.rinse, sl, |s.vols|, changed),
        s.dispHeight, s.blowOut, s.touchTip, false, 20.0, s.postAirgap, 10.0),
      if s.destMix.Some? then Some(AtDest(s, s.destMix.value, sl.i)) else None,
      s.touchAfter)
  }

  /** Every source lookup of the loop is in range: the column reached at the end is a reservoir column. */
  predicate InRange(s: StepSpec, original: real, reservoir: seq<WellId>, t0: Tank)
  {
    s.source.ByColumn? && |s.dests| > 0 && |s.vols| > 0 ==> Before(s, original, t0, |s.dests|, 0).col < |reservoir|
  }

  /** A moment of the loop, from `(0, 0)` up to its end `(|dests|, 0)`. */
  predicate Moment(s: StepSpec, i: nat, j: nat)
  {
    (i < |s.dests| && j <= |s.vols|) || (i == |s.dests| && j == 0)
  }

  /** Columns are only ever opened, never given back: no moment of the loop is past its end's column. */
  lemma {:induction false} BeforeColumns(s: StepSpec, original: real, t0: Tank, i: nat, j: nat)
    requires Moment(s, i, j)
    ensures Before(s, original, t0, i, j).col <= Before(s, original, t0, |s.dests|, 0).col
    decreases |s.dests| - i, |s.vols| - j
  {
    if i == |s.dests| {
    } else if j < |s.vols| {
      BeforeColumns(s, original, t0, i, j + 1);
    } else if i + 1 < |s.dests| {
      BeforeColumns(s, original, t0, i + 1, 0);
    }
  }

  /** The call iteration `(i, j)` makes. */
  function CallOf(s: StepSpec, r: Reagent, reservoir: seq<WellId>, t0: Tank, i: nat, j: nat): StepCall
    requires s.area > 0.0 && i < |s.dests| && j < |s.vols| && InRange(s, r.volWellOriginal, reservoir, t0)
  {
    BeforeColumns(s, r.volWellOriginal, t0, i, j + 1);
    CallAt(s, r, reservoir, Before(s, r.volWellOriginal, t0, i, j), Slot(i, j))
  }

  /** The calls made before moment `(i, j)`, each seeing the reagent as the earlier ones left it. */
  function Calls(s: StepSpec, r: Reagent, reservoir: seq<WellId>, t0: Tank, i: nat, j: nat): seq<StepCall>
    requires s.area > 0.0 && Moment(s, i, j) && InRange(s, r.volWellOriginal, reservoir, t0)
    decreases i, j
  {
    if j > 0 then Calls(s, r, reservoir, t0, i, j - 1) + [CallOf(s, r, reservoir, t0, i, j - 1)]
    else if i > 0 then Calls(s, r, reservoir, t0, i - 1, |s.vols|)
    else []
  }

  /** What one iteration does to the pipette: the remix, the transfer, the destination mix, the touch tip. */
  function CallTrace(d: Dialect, r: Reagent, c: StepCall): seq<Action>
  {
    (if c.remix.Some? then MixTrace(d, r, c.remix.value) else []) + MoveTrace(d, r, c.move)
      + (if c.destMix.Some? then MixTrace(d, r, c.destMix.value) else [])
      + (if c.touch then [LoopTouch] else [])
  }

  /** What the loop does after the inner loop of destination column `i`. */
  function ColumnTail(d: Dialect, r: Reagent, s: StepSpec, i: nat): seq<Action>
    requires i < |s.dests|
  {
    (if s.columnMix.Some? then MixTrace(d, r, AtDest(s, s.columnMix.value, i)) else [])
      + (if s.columnTouch then [LoopTouch] else [])
  }

  /** The pipette's actions before moment `(i, j)`: each call's actions, and each finished column's tail. */
  function TraceUpTo(d: Dialect, s: StepSpec, r: Reagent, reservoir: seq<WellId>, t0: Tank, i: nat, j: nat): seq<Action>
    requires s.area > 0.0 && Moment(s, i, j) && InRange(s, r.volWellOriginal, reservoir, t0)
    decreases i, j
  {
    if j > 0 then TraceUpTo(d, s, r, reservoir, t0, i, j - 1) + CallTrace(d, r, CallOf(s, r, reservoir, t0, i, j - 1))
    else if i > 0 then TraceUpTo(d, s, r, reservoir, t0, i - 1, |s.vols|) + ColumnTail(d, r, s, i - 1)
    else []
  }

  /** The `rinse` update at the head of an iteration, `col_change` known. */
  method NextRinse(rule: RinseRule, flag: bool, sl: Slot, m: nat, changed: bool, rinseBefore: bool) returns (rinse: bool)
    requires RinseCarried(rule, flag, sl.i, sl.j, m, rinseBefore)
    ensures rinse == RinseAt(rule, flag, sl, m, changed)
  {
    rinse := rinseBefore;
    match rule {
      case NoRinse => rinse := false;
      case ReagentFlag => rinse := flag;
      case FirstOnly => rinse := sl.i == 0 && sl.j == 0;
      case ChangeOrFirstColumn => rinse := changed || sl.i == 0;
      case FlagUntilCleared =>
        if sl.i != 0 && sl.j != 0 {
          rinse := false;
        }
      case FlagFirstOnly => rinse := flag && sl.i == 0 && sl.j == 0;
    }
  }

  /** The pipette work of an iteration: the remix when the call has one, the transfer, the destination mix and touch. */
  method Perform(d: Dialect, r: Reagent, c: StepCall) returns (trace: seq<Action>)
    ensures trace == CallTrace(d, r, c)
  {
    trace := [];
    if c.remix.Some? {
      trace := CustomMix(d, r, c.remix.value);
    }
    var moved := MoveVol(d, r, c.move);
    trace := trace + moved;
    if c.destMix.Some? {
      var mixed := CustomMix(d, r, c.destMix.value);
      trace := trace + mixed;
    }
    if c.touch {
      trace := trace + [LoopTouch];
    }
  }

  /** The end of a column's pass: the column mix and touch tip the loop has. */
  method FinishColumn(d: Dialect, r: Reagent, s: StepSpec, i: nat) returns (tail: seq<Action>)
    requires i < |s.dests|
    ensures tail == ColumnTail(d, r, s, i)
  {
    tail := [];
    if s.columnMix.Some? {
      tail := CustomMix(d, r, AtDest(s, s.columnMix.value, i));
    }
    if s.columnTouch {
      tail := tail + [LoopTouch];
    }
  }

  /** The arguments of an iteration's calls, from what `calc_height` returned and the column it left the reagent at. */
  method MakeCall(s: StepSpec, r: Reagent, reservoir: seq<WellId>, ghost before: Tank, sl: Slot,
                  col: nat, height: real, changed: bool, rinse: bool) returns (call: StepCall)
    requires sl.i < |s.dests| && sl.j < |s.vols| && s.area > 0.0
    requires SourceOk(s, reservoir, Draw(before, r.volWellOriginal, DrawOf(s, sl.j), s.extra))
    requires col == Draw(before, r.volWellOriginal, DrawOf(s, sl.j), s.extra).col
    requires changed == Changes(before, DrawOf(s, sl.j), s.extra)
    requires height == PickupHeight(Draw(before, r.volWellOriginal, DrawOf(s, sl.j), s.extra).volWell, r.vCono, s.area, s.minHeight)
    requires rinse == RinseAt(s.rinse, r.rinse, sl, |s.vols|, changed)
    ensures call == CallAt(s, r, reservoir, before, sl)
  {
    var src := if s.source.ByColumn? then reservoir[col] else s.source.well;
    var remix: Option<MixArgs> := if s.remix.Some? && changed then Some(s.remix.value.(location := src)) else None;
    var pickup := if s.height.Computed? then height else s.height.h;
    var (x0, x1) := OffsetPair(s.offsets, sl.i);
    var m := MoveArgs(src, s.dests[sl.i], s.vols[sl.j], s.airGap, x0, x1, pickup, rinse,
      s.dispHeight, s.blowOut, s.touchTip, false, 20.0, s.postAirgap, 10.0);
    var after: Option<MixArgs> := if s.destMix.Some? then Some(AtDest(s, s.destMix.value, sl.i)) else None;
    call := StepCall(sl, changed, height, remix, m, after, s.touchAfter);
  }

  /** One iteration of a step loop: `calc_height`, the remix of a new column, `move_vol_multichannel`. */
  method Iteration(r: Reagent, s: StepSpec, sl: Slot, rinseBefore: bool)
    returns (call: StepCall, rinse: bool)
    requires sl.i < |s.dests| && sl.j < |s.vols| && s.area > 0.0
    requires SourceOk(s, r.reservoir, Draw(r.State(), r.volWellOriginal, DrawOf(s, sl.j), s.extra))
    requires RinseCarried(s.rinse, r.rinse, sl.i, sl.j, |s.vols|, rinseBefore)
    modifies r
    ensures r.reservoir == old(r.reservoir)
    ensures call == CallAt(s, r, r.reservoir, old(r.State()), sl)
    ensures r.State() == Draw(old(r.State()), r.volWellOriginal, DrawOf(s, sl.j), s.extra)
    ensures rinse == call.move.rinse
  {
    ghost var before := r.State();
    var height, changed := r.CalcHeight(s.area, s.vols[sl.j] * s.channels, s.minHeight, s.extra);
    ghost var after := Draw(before, r.volWellOriginal, DrawOf(s, sl.j), s.extra);
    assert r.State() == after;
    assert height == PickupHeight(after.volWell, r.vCono, s.area, s.minHeight);
    rinse := NextRinse(s.rinse, r.rinse, sl, |s.vols|, changed, rinseBefore);
    call := MakeCall(s, r, r.reservoir, before, sl, r.col, height, changed, rinse);
  }

  /** At moment `(i, j)` of a loop begun at `t0`: the calls made, the reagent's state, the pipette's actions. */
  ghost predicate Progress(d: Dialect, s: StepSpec, r: Reagent, reservoir: seq<WellId>, t0: Tank, i: nat, j: nat,
                           now: Tank, calls: seq<StepCall>, acts: seq<Action>)
  {
    s.area > 0.0 && Moment(s, i, j) && InRange(s, r.volWellOriginal, reservoir, t0)
    && (calls, now, acts) == Outcome(d, s, r, reservoir, t0, i, j)
  }

  ghost function Outcome(d: Dialect, s: StepSpec, r: Reagent, reservoir: seq<WellId>, t0: Tank, i: nat, j: nat)
    : (seq<StepCall>, Tank, seq<Action>)
    requires s.area > 0.0 && Moment(s, i, j) && InRange(s, r.volWellOriginal, reservoir, t0)
  {
    var calls := Calls(s, r, reservoir, t0, i, j);
    (calls, Before(s, r.volWellOriginal, t0, i, j), TraceUpTo(d, s, r, reservoir, t0, i, j))
  }

  /**
   * A step loop `for i in range(len(dests)): for j, vol in enumerate(vols)`,
   * proved against `Calls`: the reagent ends where the chained draws put it,
   * and the pipette sees each iteration's work and each column's tail in order.
   */
  method RunStep(d: Dialect, r: Reagent, s: StepSpec) returns (calls: seq<StepCall>, acts: seq<Action>)
    requires s.area > 0.0
    requires InRange(s, r.volWellOriginal, r.reservoir, r.State())
    modifies r
    ensures r.reservoir == old(r.reservoir)
    ensures calls == Calls(s, r, r.reservoir, old(r.State()), |s.dests|, 0)
    ensures r.State() == Before(s, r.volWellOriginal, old(r.State()), |s.dests|, 0)
    ensures acts == TraceUpTo(d, s, r, r.reservoir, old(r.State()), |s.dests|, 0)
  {
    ghost var t0 := r.State();
    calls, acts := [], [];
    var rinse := r.rinse;
    var i := 0;
    while i < |s.dests|
      invariant i <= |s.dests| && r.reservoir == old(r.reservoir)
      invariant Progress(d, s, r, r.reservoir, t0, i, 0, r.State(), calls, acts)
      invariant RinseCarried(s.rinse, r.rinse, i, 0, |s.vols|, rinse)
    {
      calls, acts, rinse := RunColumn(d, r, s, i, t0, calls, acts, rinse);
      i := i + 1;
    }
  }

  /** Destination column `i` of `RunStep`: the inner loop, then the column's tail. */
  method RunColumn(d: Dialect, r: Reagent, s: StepSpec, i: nat, ghost t0: Tank,
                   calls0: seq<StepCall>, acts0: seq<Action>, rinse0: bool)
    returns (calls: seq<StepCall>, acts: seq<Action>, rinse: bool)
    requires i < |s.dests|
    requires Progress(d, s, r, r.reservoir, t0, i, 0, r.State(), calls0, acts0)
    requires RinseCarried(s.rinse, r.rinse, i, 0, |s.vols|, rinse0)
    modifies r
    ensures r.reservoir == old(r.reservoir)
    ensures Progress(d, s, r, r.reservoir, t0, i + 1, 0, r.State(), calls, acts)
    ensures RinseCarried(s.rinse, r.rinse, i + 1, 0, |s.vols|, rinse)
  {
    calls, acts, rinse := RunVols(d, r, s, i, t0, calls0, acts0, rinse0);
    var tail := FinishColumn(d, r, s, i);
    acts := acts + tail;
  }

  /** The inner loop `for j, vol in enumerate(vols)` for destination column `i`. */
  method RunVols(d: Dialect, r: Reagent, s: StepSpec, i: nat, ghost t0: Tank,
                 calls0: seq<StepCall>, acts0: seq<Action>, rinse0: bool)
    returns (calls: seq<StepCall>, acts: seq<Action>, rinse: bool)
    requires i < |s.dests|
    requires Progress(d, s, r, r.reservoir, t0, i, 0, r.State(), calls0, acts0)
    requires RinseCarried(s.rinse, r.rinse, i, 0, |s.vols|, rinse0)
    modifies r
    ensures r.reservoir == old(r.reservoir)
    ensures Progress(d, s, r, r.reservoir, t0, i, |s.vols|, r.State(), calls, acts)
    ensures RinseCarried(s.rinse, r.rinse, i, |s.vols|, |s.vols|, rinse)
  {
    calls, acts, rinse := calls0, acts0, rinse0;
    var j := 0;
    while j < |s.vols|
      invariant j <= |s.vols| && r.reservoir == old(r.reservoir)
      invariant Progress(d, s, r, r.reservoir, t0, i, j, r.State(), calls, acts)
      invariant RinseCarried(s.rinse, r.rinse, i, j, |s.vols|, rinse)
    {
      ghost var now := r.State();
      ghost var calls0, acts0 := calls, acts;
      calls, rinse := Advance(r, s, i, j, t0, calls, rinse);
      var trace := Perform(d, r, calls[|calls| - 1]);
      acts := acts + trace;
      ProgressStep(d, s, r, r.reservoir, t0, i, j, now, calls0, acts0);
      j := j + 1;
    }
  }

  /** One pass of the inner loop: iteration `(i, j)` charges the reagent and appends its call. */
  method Advance(r: Reagent, s: StepSpec, i: nat, j: nat, ghost t0: Tank, calls0: seq<StepCall>, rinse0: bool)
    returns (calls: seq<StepCall>, rinse: bool)
    requires i < |s.dests| && j < |s.vols| && s.area > 0.0
    requires InRange(s, r.volWellOriginal, r.reservoir, t0) && r.State() == Before(s, r.volWellOriginal, t0, i, j)
    requires RinseCarried(s.rinse, r.rinse, i, j, |s.vols|, rinse0)
    modifies r
    ensures r.reservoir == old(r.reservoir)
    ensures r.State() == Before(s, r.volWellOriginal, t0, i, j + 1)
    ensures SourceOk(s, r.reservoir, r.State())
    ensures calls == calls0 + [CallAt(s, r, r.reservoir, old(r.State()), Slot(i, j))]
    ensures RinseCarried(s.rinse, r.rinse, i, j + 1, |s.vols|, rinse)
  {
    BeforeColumns(s, r.volWellOriginal, t0, i, j + 1);
    var call;
    call, rinse := Iteration(r, s, Slot(i, j), rinse0);
    calls := calls0 + [call];
  }

  /** Iteration `(i, j)` takes the progress at `(i, j)` to the progress at `(i, j + 1)`. */
  lemma ProgressStep(d: Dialect, s: StepSpec, r: Reagent, reservoir: seq<WellId>, t0: Tank, i: nat, j: nat,
                     now: Tank, calls: seq<StepCall>, acts: seq<Action>)
    requires i < |s.dests| && j < |s.vols|
    requires Progress(d, s, r, reservoir, t0, i, j, now, calls, acts)
    requires SourceOk(s, reservoir, Draw(now, r.volWellOriginal, DrawOf(s, j), s.extra))
    ensures var c := CallAt(s, r, reservoir, now, Slot(i, j));
      Progress(d, s, r, reservoir, t0, i, j + 1, Draw(now, r.volWellOriginal, DrawOf(s, j), s.extra),
               calls + [c], acts + CallTrace(d, r, c))
  {
    BeforeColumns(s, r.volWellOriginal, t0, i, j + 1);
  }

  /** The iteration after `sl` in a loop over `m` volumes. */
  function NextSlot(sl: Slot, m: nat): Slot
  {
    if sl.j + 1 < m then Slot(sl.i, sl.j + 1) else Slot(sl.i + 1, 0)
  }

  /**
   * The loop's iterations in order: `|vols|` per destination column,
   * starting at `(0, 0)`, each one the next after the one before.
   */
  lemma {:induction false} CallsInOrder(s: StepSpec, r: Reagent, reservoir: seq<WellId>, t0: Tank, i: nat, j: nat)
    requires s.area > 0.0 && Moment(s, i, j) && InRange(s, r.volWellOriginal, reservoir, t0)
    ensures var calls := Calls(s, r, reservoir, t0, i, j);
      && |calls| == i * |s.vols| + j
      && (|calls| > 0 ==> calls[0].slot == Slot(0, 0))
      && (|calls| > 0 ==> calls[|calls| - 1].slot == if j > 0 then Slot(i, j - 1) else Slot(i - 1, |s.vols| - 1))
      && (forall k :: 0 < k < |calls| ==> calls[k].slot == NextSlot(calls[k - 1].slot, |s.vols|))
    decreases i, j
  {
    var m := |s.vols|;
    if j > 0 {
      CallsInOrder(s, r, reservoir, t0, i, j - 1);
    } else if i > 0 {
      CallsInOrder(s, r, reservoir, t0, i - 1, m);
      assert (i - 1) * m + m == i * m;
    }
  }

  /** Every call of the loop is the call of its own iteration, made on the reagent as the earlier ones left it. */
  lemma {:induction false} CallsAreIterations(s: StepSpec, r: Reagent, reservoir: seq<WellId>, t0: Tank, i: nat, j: nat)
    requires s.area > 0.0 && Moment(s, i, j) && InRange(s, r.volWellOriginal, reservoir, t0)
    ensures var calls := Calls(s, r, reservoir, t0, i, j);
      forall k :: 0 <= k < |calls| ==>
        (calls[k].slot.i < |s.dests| && calls[k].slot.j < |s.vols|
         && calls[k] == CallOf(s, r, reservoir, t0, calls[k].slot.i, calls[k].slot.j))
    decreases i, j
  {
    if j > 0 {
      CallsAreIterations(s, r, reservoir, t0, i, j - 1);
      var last := CallOf(s, r, reservoir, t0, i, j - 1);
      assert last.slot == Slot(i, j - 1);
      assert Calls(s, r, reservoir, t0, i, j) == Calls(s, r, reservoir, t0, i, j - 1) + [last];
    } else if i > 0 {
      CallsAreIterations(s, r, reservoir, t0, i - 1, |s.vols|);
      assert Calls(s, r, reservoir, t0, i, j) == Calls(s, r, reservoir, t0, i - 1, |s.vols|);
    }
  }

  /**
   * What iteration `(i, j)` passes on: its destination and volume, the
   * source the reagent's column selects, a pickup height never below the
   * floor, a remix exactly when the column changed, and the loop's rinse.
   */
  lemma CallShape(s: StepSpec, r: Reagent, reservoir: seq<WellId>, t0: Tank, i: nat, j: nat)
    requires s.area > 0.0 && i < |s.dests| && j < |s.vols| && InRange(s, r.volWellOriginal, reservoir, t0)
    ensures var c := CallOf(s, r, reservoir, t0, i, j);
      var before := Before(s, r.volWellOriginal, t0, i, j);
      c.slot == Slot(i, j) && c.move.dest == s.dests[i] && c.move.vol == s.vols[j]
      && (c.changed <==> Changes(before, DrawOf(s, j), s.extra))
      && c.height >= s.minHeight
      && c.move.pickupHeight == (if s.height.Computed? then c.height else s.height.h)
      && (s.source.ByColumn? ==> c.move.source in reservoir)
      && (s.source.SingleWell? ==> c.move.source == s.source.well)
      && (c.remix.Some? <==> s.remix.Some? && c.changed)
      && (c.remix.Some? ==> c.remix.value == s.remix.value.(location := c.move.source))
      && c.touch == s.touchAfter
      && (c.destMix.Some? ==> c.destMix.value.location == s.dests[i])
      && c.move.rinse == RinseAt(s.rinse, r.rinse, Slot(i, j), |s.vols|, c.changed)
  {
    BeforeColumns(s, r.volWellOriginal, t0, i, j + 1);
  }

  /** A call passes on what the loop's settings and its own column change dictate. */
  predicate FollowsSettings(s: StepSpec, flag: bool, reservoir: seq<WellId>, c: StepCall)
  {
    && c.slot.i < |s.dests| && c.slot.j < |s.vols|
    && c.move.dest == s.dests[c.slot.i] && c.move.vol == s.vols[c.slot.j]
    && c.height >= s.minHeight
    && c.move.pickupHeight == (if s.height.Computed? then c.height else s.height.h)
    && (s.source.ByColumn? ==> c.move.source in reservoir)
    && (s.source.SingleWell? ==> c.move.source == s.source.well)
    && (c.remix.Some? <==> s.remix.Some? && c.changed)
    && (c.remix.Some? ==> c.remix.value == s.remix.value.(location := c.move.source))
    && c.touch == s.touchAfter
    && c.move.rinse == RinseAt(s.rinse, flag, c.slot, |s.vols|, c.changed)
  }

  /** What `CallShape` says of one iteration holds for every call of a finished loop. */
  lemma CallsFollowSettings(s: StepSpec, r: Reagent, reservoir: seq<WellId>, t0: Tank)
    requires s.area > 0.0 && InRange(s, r.volWellOriginal, reservoir, t0)
    ensures forall c :: c in Calls(s, r, reservoir, t0, |s.dests|, 0) ==> FollowsSettings(s, r.rinse, reservoir, c)
  {
    var calls := Calls(s, r, reservoir, t0, |s.dests|, 0);
    CallsAreIterations(s, r, reservoir, t0, |s.dests|, 0);
    forall k | 0 <= k < |calls|
      ensures FollowsSettings(s, r.rinse, reservoir, calls[k])
    {
      assert calls == Calls(s, r, reservoir, t0, |s.dests|, 0);
      assert calls[k].slot.i < |s.dests| && calls[k].slot.j < |s.vols|;
      CallShape(s, r, reservoir, t0, calls[k].slot.i, calls[k].slot.j);
    }
  }

  /**
   * The rinse guard of the wash loops as written (`if i != 0 and j != 0`)
   * never fires on a one-entry volume list: with a rinsing reagent every
   * column's transfer rinses.
   */
  lemma UntilClearedRinsesEveryColumn(s: StepSpec, r: Reagent, reservoir: seq<WellId>, t0: Tank, i: nat)
    requires s.area > 0.0 && i < |s.dests| && |s.vols| == 1 && InRange(s, r.volWellOriginal, reservoir, t0)
    requires s.rinse.FlagUntilCleared? && r.rinse
    ensures CallOf(s, r, reservoir, t0, i, 0).move.rinse
  {
    CallShape(s, r, reservoir, t0, i, 0);
  }

  /** With the guard `if i != 0 or j != 0` the reagent is rinsed on the first transfer only. */
  lemma FirstOnlyRinsesOnce(s: StepSpec, r: Reagent, reservoir: seq<WellId>, t0: Tank, i: nat, j: nat)
    requires s.area > 0.0 && i < |s.dests| && j < |s.vols| && InRange(s, r.volWellOriginal, reservoir, t0)
    requires s.rinse.FlagFirstOnly?
    ensures CallOf(s, r, reservoir, t0, i, j).move.rinse <==> r.rinse && i == 0 && j == 0
  {
    CallShape(s, r, reservoir, t0, i, j);
  }

  /** `Before` is the reservoir's `Drain` over the draws made so far, when every draw is the same. */
  lemma {:induction false} BeforeIsDrain(s: StepSpec, original: real, t0: Tank, i: nat, j: nat, draw: real)
    requires j <= |s.vols|
    requires forall k :: 0 <= k < |s.vols| ==> DrawOf(s, k) == draw
    ensures Before(s, original, t0, i, j) == Drain(t0, original, i * |s.vols| + j, draw, s.extra)
    decreases i, j
  {
    var m := |s.vols|;
    if j > 0 {
      BeforeIsDrain(s, original, t0, i, j - 1, draw);
    } else if i > 0 {
      BeforeIsDrain(s, original, t0, i - 1, m, draw);
      assert (i - 1) * m + m == i * m;
    }
  }
}
