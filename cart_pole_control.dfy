/**
  The cart-pole pole-angle control as a hierarchical control: one main unit
  perceiving the pole angle, no low levels, the default `{'action': output}`
  map, and an overshoot gain of 10 by default.
*/
module CartPoleControl {
  import opened Wrappers
  import opened Reals
  import opened Dicts
  import opened ControlUnit
  import opened Hierarchical

  /** The observation is (cart position, cart speed, pole angle, pole speed). */
  const PoleAngleIndex: nat := 2

  /** `CartPoleControl(def, pole_angle_reference=0.0, overshoot_gain=10.0)`. */
  method NewCartPoleControl(poleAngleControl: GenericControlUnit, poleAngleReference: real := 0.0, overshootGain: real := 10.0)
    returns (c: HierarchicalControl)
    modifies poleAngleControl
    ensures fresh(c) && c.Valid()
    ensures c.mainControl == poleAngleControl && c.lowLevels == [] && c.overshootGain == overshootGain
    ensures c.obsIndex == PoleAngleIndex && c.actionName == "action"
    ensures forall output :: c.actionsFromOutput(output) == SingleAction("action", output)
    ensures c.reference == poleAngleReference && c.totalError == 0.0
    ensures poleAngleControl.reference == poleAngleReference && poleAngleControl.parameters == old(poleAngleControl.parameters)
  {
    c := new HierarchicalControl(poleAngleControl, [], poleAngleReference, overshootGain, obsIndex := PoleAngleIndex);
  }

  /**
    `get_action(ref, observation)`: sets the reference (clearing the
    overshoot and the current error), then one step of `get_actions`. With
    the default actions this is the one-entry map from "action" to the main
    unit's new output, and the cost grows by that unit's new error.
  */
  method GetAction(c: HierarchicalControl, poleAngleReference: real, observation: seq<real>) returns (action: ActionMap)
    requires c.Valid() && c.need <= |observation|
    requires c.obsIndex == PoleAngleIndex && c.lowLevels == [] && c.actionName == "action"
    requires forall output :: c.actionsFromOutput(output) == SingleAction("action", output)
    modifies c, c.Repr
    ensures c.reference == poleAngleReference && c.initialErrSign == Sign(poleAngleReference)
    ensures (c.mainControl.e, c.mainControl.o) ==
            c.mainControl.law(c.mainControl.parameters, old(c.mainControl.o), poleAngleReference, observation[PoleAngleIndex])
    ensures Lookup(action, "action") == Some(c.mainControl.o) && |action| == 1
    ensures c.GetCost() == AddCost(Cost(old(c.totalError), 0.0, 0.0), c.overshootGain, Sign(poleAngleReference), c.mainControl.e)
    ensures c.mainControl.parameters == old(c.mainControl.parameters)
  {
    c.SetReference(poleAngleReference);
    action := c.GetActions(observation);
    assert action == c.actionsFromOutput(c.mainControl.o) == SingleAction("action", c.mainControl.o);
  }
}
