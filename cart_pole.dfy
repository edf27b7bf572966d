/**
  Cart-pole cascades of PCU units. `ControlCartPoleAtAngle` chains four units
  (pole angle, pole speed, cart position, cart speed), each taking the
  previous unit's output as its reference, and turns the last output into the
  push direction 1 (right) or 0 (left). `MoveCartToPosition` puts a
  cart-position unit on top whose output becomes the pole-angle reference.
  The observation is (cart position, cart speed, pole angle, pole speed).
*/
module CartPole {
  import opened Wrappers
  import opened ControlUnit

  /** The four debug flags: a list with fewer than four entries switches every unit's debug off. */
  function DebugFlags(debugUnits: seq<bool>): (flags: seq<bool>)
    ensures |debugUnits| >= 4 ==> flags == debugUnits
    ensures |flags| >= 4 && forall i :: 0 <= i < 4 ==> (flags[i] <==> |debugUnits| >= 4 && debugUnits[i])
  {
    if |debugUnits| >= 4 then debugUnits else [false, false, false, false]
  }

  /** The push direction: 1 exactly when the last output is positive. */
  function Push(output: real): (action: int)
    ensures action == 0 || action == 1
    ensures action == 1 <==> output > 0.0
  {
    if output > 0.0 then 1 else 0
  }

  class ControlCartPoleAtAngle {
    const k1: seq<real>
    const k2: seq<real>
    const k3: seq<real>
    const k4: seq<real>
    var poleAngleReference: real
    const unit1: PCUControlUnit
    const unit2: PCUControlUnit
    const unit3: PCUControlUnit
    const unit4: PCUControlUnit

    /** The four units are distinct objects. */
    ghost predicate Valid()
    {
      unit1 != unit2 && unit1 != unit3 && unit1 != unit4 && unit2 != unit3 && unit2 != unit4 && unit3 != unit4
    }

    /** One gain list per unit, in chain order; exactly four are unpacked. */
    constructor (controlGains: seq<seq<real>>, debugUnits: seq<bool>, poleAngleReference: real := 0.0)
      requires |controlGains| == 4
      requires forall i :: 0 <= i < 4 ==> controlGains[i] != []
      ensures Valid() && fresh(unit1) && fresh(unit2) && fresh(unit3) && fresh(unit4)
      ensures [k1, k2, k3, k4] == controlGains && this.poleAngleReference == poleAngleReference
      ensures PcuGains(controlGains[0]) == Some((unit1.kg, unit1.ks)) && unit1.name == "pole angle"
      ensures PcuGains(controlGains[1]) == Some((unit2.kg, unit2.ks)) && unit2.name == "pole speed"
      ensures PcuGains(controlGains[2]) == Some((unit3.kg, unit3.ks)) && unit3.name == "cart pos"
      ensures PcuGains(controlGains[3]) == Some((unit4.kg, unit4.ks)) && unit4.name == "cart speed"
      ensures [unit1.debug, unit2.debug, unit3.debug, unit4.debug] == DebugFlags(debugUnits)[..4]
      ensures unit1.o == 0.0 && unit2.o == 0.0 && unit3.o == 0.0 && unit4.o == 0.0
    {
      k1, k2, k3, k4 := controlGains[0], controlGains[1], controlGains[2], controlGains[3];
      var debugFlag := DebugFlags(debugUnits);
      this.poleAngleReference := poleAngleReference;
      unit1 := new PCUControlUnit("pole angle", controlGains[0], debugFlag[0]);
      unit2 := new PCUControlUnit("pole speed", controlGains[1], debugFlag[1]);
      unit3 := new PCUControlUnit("cart pos", controlGains[2], debugFlag[2]);
      unit4 := new PCUControlUnit("cart speed", controlGains[3], debugFlag[3]);
    }

    method ChangePoleAngleReference(newPoleAngleReference: real)
      modifies this
      ensures poleAngleReference == newPoleAngleReference
    {
      poleAngleReference := newPoleAngleReference;
    }

    /**
      One step: pole angle against the reference, then pole speed, cart
      position and cart speed, each against the previous unit's new output;
      the action is the direction of the last output.
    */
    method GetAction(observation: seq<real>) returns (action: int)
      requires Valid() && |observation| == 4
      requires unit1.ks != 0.0 && unit2.ks != 0.0 && unit3.ks != 0.0 && unit4.ks != 0.0
      modifies unit1, unit2, unit3, unit4
      ensures unit1.e == poleAngleReference - observation[2] && unit1.o == PcuStep(old(unit1.o), unit1.kg, unit1.ks, unit1.e)
      ensures unit2.e == unit1.o - observation[3] && unit2.o == PcuStep(old(unit2.o), unit2.kg, unit2.ks, unit2.e)
      ensures unit3.e == unit2.o - observation[0] && unit3.o == PcuStep(old(unit3.o), unit3.kg, unit3.ks, unit3.e)
      ensures unit4.e == unit3.o - observation[1] && unit4.o == PcuStep(old(unit4.o), unit4.kg, unit4.ks, unit4.e)
      ensures action == Push(unit4.o)
    {
      var cartPosition, cartSpeed, poleAngle, poleSpeed := observation[0], observation[1], observation[2], observation[3];
      var poleSpeedRef := unit1.GetOutput(poleAngleReference, poleAngle);
      var cartPosRef := unit2.GetOutput(poleSpeedRef, poleSpeed);
      var cartSpeedRef := unit3.GetOutput(cartPosRef, cartPosition);
      var action1 := unit4.GetOutput(cartSpeedRef, cartSpeed);
      action := if action1 > 0.0 then 1 else 0;
    }
  }

  class MoveCartToPosition {
    const unit1: PCUControlUnit
    const downControl: ControlCartPoleAtAngle
    var cartPosReference: real

    /** The position unit is not one of the angle controller's units, and those are distinct. */
    ghost predicate Valid()
    {
      downControl.Valid() && unit1 != downControl.unit1 && unit1 != downControl.unit2 &&
      unit1 != downControl.unit3 && unit1 != downControl.unit4
    }

    /** `gains[0]` drives the position unit (debug on); the rest go to the angle controller, whose first unit alone prints. */
    constructor (gains: seq<seq<real>>, cartPosReference: real := 0.0)
      requires |gains| == 5
      requires forall i :: 0 <= i < 5 ==> gains[i] != []
      ensures Valid() && fresh(unit1) && fresh(downControl)
      ensures PcuGains(gains[0]) == Some((unit1.kg, unit1.ks)) && unit1.name == "cart position" && unit1.debug
      ensures [downControl.k1, downControl.k2, downControl.k3, downControl.k4] == gains[1..]
      ensures downControl.unit1.debug && !downControl.unit2.debug && !downControl.unit3.debug && !downControl.unit4.debug
      ensures downControl.poleAngleReference == 0.0 && this.cartPosReference == cartPosReference
    {
      unit1 := new PCUControlUnit("cart position", gains[0], true);
      var lastGains := gains[1..];
      var debugUnits := [true, false, false, false];
      assert DebugFlags(debugUnits)[..4] == debugUnits;
      downControl := new ControlCartPoleAtAngle(lastGains, debugUnits);
      this.cartPosReference := cartPosReference;
    }

    method ChangeCartPosReference(newCartPosReference: real)
      modifies this
      ensures cartPosReference == newCartPosReference
    {
      cartPosReference := newCartPosReference;
    }

    /**
      One step: the position unit's output on the cart position becomes the
      angle controller's reference before that controller computes the action.
    */
    method GetAction(observation: seq<real>) returns (action: int)
      requires Valid() && |observation| == 4
      requires unit1.ks != 0.0
      requires downControl.unit1.ks != 0.0 && downControl.unit2.ks != 0.0
      requires downControl.unit3.ks != 0.0 && downControl.unit4.ks != 0.0
      modifies unit1, downControl, downControl.unit1, downControl.unit2, downControl.unit3, downControl.unit4
      ensures unit1.e == cartPosReference - observation[0] && unit1.o == PcuStep(old(unit1.o), unit1.kg, unit1.ks, unit1.e)
      ensures downControl.poleAngleReference == unit1.o
      ensures downControl.unit1.e == unit1.o - observation[2]
      ensures downControl.unit1.o == PcuStep(old(downControl.unit1.o), downControl.unit1.kg, downControl.unit1.ks, downControl.unit1.e)
      ensures downControl.unit2.e == downControl.unit1.o - observation[3]
      ensures downControl.unit2.o == PcuStep(old(downControl.unit2.o), downControl.unit2.kg, downControl.unit2.ks, downControl.unit2.e)
      ensures downControl.unit3.e == downControl.unit2.o - observation[0]
      ensures downControl.unit3.o == PcuStep(old(downControl.unit3.o), downControl.unit3.kg, downControl.unit3.ks, downControl.unit3.e)
      ensures downControl.unit4.e == downControl.unit3.o - observation[1]
      ensures downControl.unit4.o == PcuStep(old(downControl.unit4.o), downControl.unit4.kg, downControl.unit4.ks, downControl.unit4.e)
      ensures action == Push(downControl.unit4.o)
    {
      var cartPosition := observation[0];
      var poleAngleReference := unit1.GetOutput(cartPosReference, cartPosition);
      downControl.ChangePoleAngleReference(poleAngleReference);
      action := downControl.GetAction(observation);
    }
  }
}
