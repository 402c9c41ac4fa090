/**
 * The robot's liquid-handling calls, recorded as a trace.  Wells are abstract
 * identifiers; a place is a height measured from a well's bottom or top,
 * shifted sideways by `x`, or the pipette's current position.
 */
module Actions {

  type WellId = nat

  datatype Place =
    | Bottom(well: WellId, z: real, x: real)
    | Top(well: WellId, z: real, x: real)
    | Here

  datatype Action =
    | Aspirate(vol: real, at: Place, rate: real)
    | Dispense(vol: real, at: Place, rate: real)
    | BlowOut(at: Place)
    | TouchTip(speed: real, vOffset: real, radius: real)
    | Delay(seconds: real)
    | MoveTo(at: Place)

  /** The pipette's own flow rate, used when a call gives none. */
  const DefaultRate: real := 1.0

  /** Touch-tip radius when a call gives none. */
  const DefaultRadius: real := 1.0

  datatype Kind = KAspirate | KDispense | KBlowOut | KTouchTip | KDelay | KMoveTo

  function KindOf(a: Action): Kind
  {
    match a
    case Aspirate(_, _, _) => KAspirate
    case Dispense(_, _, _) => KDispense
    case BlowOut(_) => KBlowOut
    case TouchTip(_, _, _) => KTouchTip
    case Delay(_) => KDelay
    case MoveTo(_) => KMoveTo
  }

  /** The kinds of a trace, in order. */
  function Kinds(acts: seq<Action>): (ks: seq<Kind>)
    ensures |ks| == |acts|
    ensures forall i :: 0 <= i < |acts| ==> ks[i] == KindOf(acts[i])
  {
    if acts == [] then [] else Kinds(acts[..|acts| - 1]) + [KindOf(acts[|acts| - 1])]
  }

  function AspiratedBy(a: Action): real { if a.Aspirate? then a.vol else 0.0 }
  function DispensedBy(a: Action): real { if a.Dispense? then a.vol else 0.0 }

  /** Total volume drawn into the tip by a trace. */
  function Aspirated(acts: seq<Action>): real
  {
    if acts == [] then 0.0 else Aspirated(acts[..|acts| - 1]) + AspiratedBy(acts[|acts| - 1])
  }

  /** Total volume pushed out of the tip by a trace's dispenses. */
  function Dispensed(acts: seq<Action>): real
  {
    if acts == [] then 0.0 else Dispensed(acts[..|acts| - 1]) + DispensedBy(acts[|acts| - 1])
  }

  /** Number of aspirate calls in a trace. */
  function Aspirates(acts: seq<Action>): nat
  {
    if acts == [] then 0 else Aspirates(acts[..|acts| - 1]) + (if acts[|acts| - 1].Aspirate? then 1 else 0)
  }

  /** Number of dispense calls in a trace. */
  function Dispenses(acts: seq<Action>): nat
  {
    if acts == [] then 0 else Dispenses(acts[..|acts| - 1]) + (if acts[|acts| - 1].Dispense? then 1 else 0)
  }

  /** Volumes and call counts add up over the concatenation of two traces. */
  lemma {:induction false} TotalsConcat(a: seq<Action>, b: seq<Action>)
    ensures Aspirated(a + b) == Aspirated(a) + Aspirated(b)
    ensures Dispensed(a + b) == Dispensed(a) + Dispensed(b)
    ensures Aspirates(a + b) == Aspirates(a) + Aspirates(b)
    ensures Dispenses(a + b) == Dispenses(a) + Dispenses(b)
  {
    if b == [] {
      assert a + b == a;
    } else {
      var b' := b[..|b| - 1];
      TotalsConcat(a, b');
      assert (a + b)[..|a + b| - 1] == a + b';
      assert (a + b)[|a + b| - 1] == b[|b| - 1];
    }
  }

  /** Totals of a short literal trace, one call at a time. */
  lemma TotalsSingle(x: Action)
    ensures Aspirated([x]) == AspiratedBy(x) && Dispensed([x]) == DispensedBy(x)
    ensures Aspirates([x]) == (if x.Aspirate? then 1 else 0)
    ensures Dispenses([x]) == (if x.Dispense? then 1 else 0)
  {
    assert [x][..0] == [];
  }
}
