/**
  Car controls. Speed control by the pedals (a hierarchical control with no
  low levels that perceives the speed and splits its output into accelerator
  and brake), acceleration control, a position-to-speed cascade of two units,
  and the tuning of the speed control's parameters by twiddle over episodes.
*/
module CarControl {
  import opened Wrappers
  import opened Reals
  import opened Dicts
  import opened Parameters
  import opened ControlUnit
  import opened Hierarchical
  import opened AutoTune

  /** The car observation is (position, speed, acceleration). */
  const SpeedIndex: nat := 1
  const AccelerationIndex: nat := 2

  /**
    `CarSpeedControl.get_actions_from_output`: a positive output presses the
    accelerator, a negative one the brake; the other pedal stays at 0.
  */
  function PedalActions(acceleration: real): (r: ActionMap)
    ensures |r| == 2 && r[0].0 == "acc" && r[1].0 == "brake"
    ensures r[0].1 >= 0.0 && r[1].1 >= 0.0
    ensures r[0].1 == 0.0 || r[1].1 == 0.0
    ensures r[0].1 - r[1].1 == acceleration
  {
    var acc := if acceleration > 0.0 then acceleration else 0.0;
    var brake := if acceleration < 0.0 then -acceleration else 0.0;
    [("acc", acc), ("brake", brake)]
  }

  /** Read through the dict: `acc` is max(a, 0) and `brake` is max(-a, 0). */
  lemma PedalLookup(a: real)
    ensures Lookup(PedalActions(a), "acc") == Some(Max(a, 0.0))
    ensures Lookup(PedalActions(a), "brake") == Some(Max(-a, 0.0))
  {
    var r := PedalActions(a);
    assert r[0].0 == "acc";
    assert r[1..][0].0 == "brake" != "acc";
  }

  /** `CarSpeedControl(speed_reference, def)`: no low levels, overshoot gain 10 by default, perceives the speed. */
  method NewCarSpeedControl(speedReference: real, speedControl: GenericControlUnit, overshootGain: real := 10.0)
    returns (c: HierarchicalControl)
    modifies speedControl
    ensures fresh(c) && c.Valid()
    ensures c.mainControl == speedControl && c.lowLevels == [] && c.overshootGain == overshootGain
    ensures c.obsIndex == SpeedIndex && c.actionsFromOutput == PedalActions
    ensures c.reference == speedReference && c.initialErrSign == Sign(speedReference) && c.totalError == 0.0
    ensures speedControl.reference == speedReference && speedControl.parameters == old(speedControl.parameters)
  {
    c := new HierarchicalControl(speedControl, [], speedReference, overshootGain,
                                 obsIndex := SpeedIndex, actionsFromOutput := PedalActions);
  }

  /** `CarAccPedalControl(def)`: reference 0, overshoot gain 1 by default, perceives the acceleration. */
  method NewCarAccPedalControl(accControl: GenericControlUnit, overshootGain: real := 1.0)
    returns (c: HierarchicalControl)
    modifies accControl
    ensures fresh(c) && c.Valid()
    ensures c.mainControl == accControl && c.lowLevels == [] && c.overshootGain == overshootGain
    ensures c.obsIndex == AccelerationIndex && c.actionName == "action"
    ensures forall output :: c.actionsFromOutput(output) == SingleAction("action", output)
    ensures c.reference == 0.0 && c.initialErrSign == 0 && c.totalError == 0.0
    ensures accControl.reference == 0.0 && accControl.parameters == old(accControl.parameters)
  {
    c := new HierarchicalControl(accControl, [], 0.0, overshootGain, obsIndex := AccelerationIndex);
  }

  /** A position unit whose output is the reference of a speed unit. */
  class CarPositionalControl {
    const controlPosition: GenericControlUnit
    const controlSpeed: GenericControlUnit
    const positionReference: real
    /** Named after squares, but it accumulates absolute position errors. */
    var sqrErrors: real

    /** The two units are distinct objects. */
    ghost predicate Valid()
    {
      controlPosition != controlSpeed
    }

    constructor (positionReference: real, controlPosition: GenericControlUnit, controlSpeed: GenericControlUnit)
      requires controlPosition != controlSpeed
      ensures Valid()
      ensures this.positionReference == positionReference && sqrErrors == 0.0
      ensures this.controlPosition == controlPosition && this.controlSpeed == controlSpeed
    {
      this.controlPosition := controlPosition;
      this.controlSpeed := controlSpeed;
      this.positionReference := positionReference;
      this.sqrErrors := 0.0;
    }

    /**
      One step on (position, speed, acceleration): the position error is
      accumulated first, then the position unit runs on the position, and the
      speed unit follows its output on the speed. The result is the speed
      unit's output, the acceleration reference.
    */
    method GetAction(observation: seq<real>) returns (accReference: real)
      requires Valid() && |observation| == 3
      modifies this, controlPosition, controlSpeed
      ensures sqrErrors == old(sqrErrors) + Abs(positionReference - observation[0])
      ensures (controlPosition.e, controlPosition.o) ==
              controlPosition.law(controlPosition.parameters, old(controlPosition.o), positionReference, observation[0])
      ensures (controlSpeed.e, controlSpeed.o) ==
              controlSpeed.law(controlSpeed.parameters, old(controlSpeed.o), controlPosition.o, observation[1])
      ensures accReference == controlSpeed.o
      ensures controlPosition.reference == positionReference && controlSpeed.reference == controlPosition.o
      ensures controlPosition.parameters == old(controlPosition.parameters)
      ensures controlSpeed.parameters == old(controlSpeed.parameters)
    {
      var currentPosition, currentSpeed := observation[0], observation[1];
      sqrErrors := sqrErrors + Abs(positionReference - currentPosition);
      var speedReference := controlPosition.GetOutput(positionReference, currentPosition);
      accReference := controlSpeed.GetOutput(speedReference, currentSpeed);
    }
  }

  /**
    Tunes the parameters of a speed control. `episode` stands for a run of the
    car environment with the control: the cost it returns for the parameters
    the control holds. This tuner's `run_function_with_parameters` does not
    count calls, so its counter stays 0.
  */
  class AutoTuneCarSpeed {
    const control: HierarchicalControl
    const episode: Params -> real
    const maxIter: int

    constructor (control: HierarchicalControl, episode: Params -> real, maxIter: int := 500)
      ensures this.control == control && this.episode == episode && this.maxIter == maxIter
    {
      this.control := control;
      this.episode := episode;
      this.maxIter := maxIter;
    }

    function GetParameters(): Params
      reads control.mainControl
    {
      control.GetParameters()
    }

    method SetParameters(parameters: Params)
      modifies control.mainControl
      ensures GetParameters() == parameters
      ensures control.mainControl.resets == old(control.mainControl.resets)
    {
      control.SetParameters(parameters);
    }

    /** `set_parameters` then `reset`: the state an episode starts from. */
    method SetAndReset(parameters: Params)
      requires control.Valid()
      modifies control, control.Repr
      ensures GetParameters() == parameters
      ensures ResetTree(control, old(StateOf(control)).(unitPs := parameters))
    {
      control.ChildrenApart();
      control.SetParameters(parameters);
      assert StateOf(control) == old(StateOf(control)).(unitPs := parameters);
      control.Reset();
    }

    /** Installs the parameters and resets the control, then runs the episode and returns its cost. */
    method RunOneEpisode(parameters: Params) returns (cost: real)
      requires control.Valid()
      modifies control, control.Repr
      ensures GetParameters() == parameters
      ensures control.mainControl.resets == old(control.mainControl.resets) + 1
      ensures cost == episode(parameters)
    {
      SetAndReset(parameters);
      cost := episode(GetParameters());
    }

    method RunFunctionWithParameters(parameters: Params) returns (cost: real)
      requires control.Valid()
      modifies control, control.Repr
      ensures GetParameters() == parameters
      ensures control.mainControl.resets == old(control.mainControl.resets) + 1
      ensures cost == episode(parameters)
    {
      cost := RunOneEpisode(parameters);
    }

    /**
      Twiddle from the control's current parameters with the base class's
      settings (threshold 0.01, change 10, bad_inc 2, mid_inc 1.05, 1000
      iterations) and episode costs; returns the best parameters found.
    */
    method AutoTune() returns (bestP: Params)
      ensures var r := TwiddleResult(episode, GetParameters(), Settings(0.01, 10.0, 1000, 1.1, 2.0, 1.05, 0.95));
              bestP == r.0.p && |bestP| == |GetParameters()| && Abs(r.0.best) <= Abs(episode(GetParameters()))
    {
      var tuner := new AutoTuneFunction(maxIter, parameters := GetParameters(), cost := episode, countsCalls := false);
      bestP := tuner.AutoTune();
    }
  }
}
