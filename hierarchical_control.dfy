/**
  Hierarchical (cascade) control. The main unit's output becomes the
  reference of every low-level control, whose action maps are merged; every
  step adds the main unit's error to a cost that weighs errors of the wrong
  sign by the overshoot gain. What a subclass overrides (which observation
  the main unit perceives, how its output becomes actions) is held in the two
  constants `obsIndex` and `actionsFromOutput`.
*/
module Hierarchical {
  import opened Wrappers
  import opened Reals
  import opened Dicts
  import opened Parameters
  import opened ControlUnit

  type ActionMap = Dict<real>

  /** The cost bookkeeping of one control: the accumulated cost, the largest overshoot, the latest error. */
  datatype Cost = Cost(totalError: real, maxOvershoot: real, currentE: real)

  /** `add_to_cost`: an error whose sign differs from the reference's counts `gain` times, and raises the overshoot. */
  function AddCost(c: Cost, gain: real, initialSign: int, e: real): (r: Cost)
    ensures r.currentE == e
  {
    var absError := Abs(e);
    if Sign(e) != initialSign then
      Cost(c.totalError + gain * absError, if absError > c.maxOvershoot then absError else c.maxOvershoot, e)
    else
      Cost(c.totalError + absError, c.maxOvershoot, e)
  }

  /** With a non-negative overshoot gain the cost never decreases, and neither does the overshoot. */
  lemma AddCostNeverDecreases(c: Cost, gain: real, initialSign: int, e: real)
    requires gain >= 0.0
    ensures AddCost(c, gain, initialSign, e).totalError >= c.totalError
    ensures AddCost(c, gain, initialSign, e).maxOvershoot >= c.maxOvershoot
  {
    var r := AddCost(c, gain, initialSign, e);
    if Sign(e) != initialSign {
      assert r.totalError == c.totalError + gain * Abs(e);
      assert gain * Abs(e) >= 0.0;
    }
  }

  /** The errors of `es` passed to `add_to_cost` one after the other. */
  function AddCosts(c: Cost, gain: real, initialSign: int, es: seq<real>): Cost
  {
    if es == [] then c else AddCost(AddCosts(c, gain, initialSign, es[..|es| - 1]), gain, initialSign, es[|es| - 1])
  }

  /** The largest |e| over the errors of `es` whose sign differs from `initialSign`; 0 when there is none. */
  function MisSignedMax(es: seq<real>, initialSign: int): (m: real)
    ensures m >= 0.0
    ensures forall i :: 0 <= i < |es| && Sign(es[i]) != initialSign ==> Abs(es[i]) <= m
    ensures m == 0.0 || exists i :: 0 <= i < |es| && Sign(es[i]) != initialSign && Abs(es[i]) == m
  {
    if es == [] then 0.0
    else
      var m := MisSignedMax(es[..|es| - 1], initialSign);
      var e := es[|es| - 1];
      assert forall i :: 0 <= i < |es| - 1 ==> es[..|es| - 1][i] == es[i];
      if Sign(e) != initialSign then Max(m, Abs(e)) else m
  }

  /**
    From a `set_reference` (overshoot 0) on, the overshoot is the largest |e|
    among the errors of the wrong sign, and the current error is the last one.
  */
  lemma {:induction false} OvershootIsLargestMisSignedError(c: Cost, gain: real, initialSign: int, es: seq<real>)
    requires c.maxOvershoot == 0.0
    ensures AddCosts(c, gain, initialSign, es).maxOvershoot == MisSignedMax(es, initialSign)
    ensures es != [] ==> AddCosts(c, gain, initialSign, es).currentE == es[|es| - 1]
  {
    if es != [] {
      OvershootIsLargestMisSignedError(c, gain, initialSign, es[..|es| - 1]);
    }
  }

  /** The sum of |e| over the errors of `es`. */
  function AbsSum(es: seq<real>): real
  {
    if es == [] then 0.0 else AbsSum(es[..|es| - 1]) + Abs(es[|es| - 1])
  }

  /** With overshoot gain 1 the cost is the plain sum of absolute errors. */
  lemma {:induction false} UnitGainCostIsAbsSum(c: Cost, initialSign: int, es: seq<real>)
    ensures AddCosts(c, 1.0, initialSign, es).totalError == c.totalError + AbsSum(es)
  {
    if es != [] {
      UnitGainCostIsAbsSum(c, initialSign, es[..|es| - 1]);
    }
  }

  /** Errors that all have the reference's sign add their plain sum, whatever the gain, and raise no overshoot. */
  lemma {:induction false} SameSignCostIsAbsSum(c: Cost, gain: real, initialSign: int, es: seq<real>)
    requires forall i :: 0 <= i < |es| ==> Sign(es[i]) == initialSign
    ensures AddCosts(c, gain, initialSign, es).totalError == c.totalError + AbsSum(es)
    ensures AddCosts(c, gain, initialSign, es).maxOvershoot == c.maxOvershoot
  {
    if es != [] {
      var n := |es| - 1;
      assert forall i :: 0 <= i < n ==> es[..n][i] == es[i];
      SameSignCostIsAbsSum(c, gain, initialSign, es[..n]);
    }
  }

  /** With a gain of at least 1 the cost grows by at least the sum of absolute errors. */
  lemma {:induction false} CostAtLeastAbsSum(c: Cost, gain: real, initialSign: int, es: seq<real>)
    requires gain >= 1.0
    ensures c.totalError + AbsSum(es) <= AddCosts(c, gain, initialSign, es).totalError
  {
    if es != [] {
      var n := |es| - 1;
      CostAtLeastAbsSum(c, gain, initialSign, es[..n]);
      AddCostStepLowerBound(AddCosts(c, gain, initialSign, es[..n]), gain, initialSign, es[n]);
    }
  }

  /** With a gain of at least 1 every error adds at least its |e|. */
  lemma AddCostStepLowerBound(c: Cost, gain: real, initialSign: int, e: real)
    requires gain >= 1.0
    ensures c.totalError + Abs(e) <= AddCost(c, gain, initialSign, e).totalError
  {
    assert gain * Abs(e) >= Abs(e) by {
      assert (gain - 1.0) * Abs(e) >= 0.0;
    }
  }

  /** The observation the main unit perceives. */
  function MainObservation(obsIndex: nat, observation: seq<real>): real
    requires obsIndex < |observation|
  {
    observation[obsIndex]
  }

  /** `{action_name: output}`: the default way an output becomes actions. */
  function SingleAction(actionName: string, output: real): (r: ActionMap)
    ensures Lookup(r, actionName) == Some(output) && |r| == 1
  {
    [(actionName, output)]
  }

  /** The footprints (object and everything below it) of a list of controls. */
  ghost function Footprints(cs: seq<HierarchicalControl>): set<object>
  {
    if cs == [] then {} else Footprints(cs[..|cs| - 1]) + {cs[|cs| - 1]} + cs[|cs| - 1].Repr
  }

  lemma {:induction false} FootprintsContain(cs: seq<HierarchicalControl>, i: nat)
    requires i < |cs|
    ensures cs[i] in Footprints(cs) && cs[i].Repr <= Footprints(cs)
  {
    if i < |cs| - 1 {
      FootprintsContain(cs[..|cs| - 1], i);
    }
  }

  lemma {:induction false} FootprintsMember(cs: seq<HierarchicalControl>, o: object)
    requires o in Footprints(cs)
    ensures exists i :: 0 <= i < |cs| && (o == cs[i] || o in cs[i].Repr)
  {
    var n := |cs| - 1;
    if o != cs[n] && o !in cs[n].Repr {
      FootprintsMember(cs[..n], o);
      var i :| 0 <= i < n && (o == cs[..n][i] || o in cs[..n][i].Repr);
      assert cs[..n][i] == cs[i];
    }
  }

  /** The longest observation prefix a tree of controls reads. */
  ghost function NeedOf(obsIndex: nat, cs: seq<HierarchicalControl>): (n: nat)
    ensures n > obsIndex && forall i :: 0 <= i < |cs| ==> cs[i].need <= n
  {
    if cs == [] then obsIndex + 1
    else
      var n := NeedOf(obsIndex, cs[..|cs| - 1]);
      assert forall i :: 0 <= i < |cs| - 1 ==> cs[..|cs| - 1][i] == cs[i];
      if cs[|cs| - 1].need > n then cs[|cs| - 1].need else n
  }

  /**
    The state of a tree of controls that `reset` and a step start from: the
    cost, the reference and its sign, the main unit's output, reference,
    parameters and reset count, and the same for every low level in order.
  */
  datatype TreeState = TreeState(cost: Cost, reference: real, sign: int, unitO: real, unitRef: real,
                                 unitPs: Params, unitResets: nat, below: seq<TreeState>)

  ghost function StateOf(c: HierarchicalControl): (s: TreeState)
    requires c.Valid()
    reads c, c.Repr
    decreases c.Repr, 1
    ensures |s.below| == |c.lowLevels|
  {
    TreeState(c.GetCost(), c.reference, c.initialErrSign, c.mainControl.o, c.mainControl.reference,
              c.mainControl.parameters, c.mainControl.resets, StatesOf(c, |c.lowLevels|))
  }

  /** The states of the first `k` low levels of `c`. */
  ghost function StatesOf(c: HierarchicalControl, k: nat): (ss: seq<TreeState>)
    requires c.Valid() && k <= |c.lowLevels|
    reads c, c.Repr
    decreases c.Repr, 0, k
    ensures |ss| == k && forall j :: 0 <= j < k ==> ss[j] == StateOf(c.lowLevels[j])
  {
    if k == 0 then [] else StatesOf(c, k - 1) + [StateOf(c.lowLevels[k - 1])]
  }

  /**
    What `reset` leaves in a tree that was in state `s`: at every level the
    total error is 0 and the main unit's output and error are 0 with its
    reset counted, while references, signs, overshoots, current errors and
    parameters are kept.
  */
  ghost predicate ResetTree(c: HierarchicalControl, s: TreeState)
    requires c.Valid()
    reads c, c.Repr
    decreases c.Repr
  {
    c.totalError == 0.0 && c.maxOvershoot == s.cost.maxOvershoot && c.currentE == s.cost.currentE &&
    c.reference == s.reference && c.initialErrSign == s.sign &&
    c.mainControl.o == 0.0 && c.mainControl.e == 0.0 && c.mainControl.resets == s.unitResets + 1 &&
    c.mainControl.reference == s.unitRef && c.mainControl.parameters == s.unitPs &&
    |s.below| == |c.lowLevels| &&
    forall i :: 0 <= i < |c.lowLevels| ==> ResetTree(c.lowLevels[i], s.below[i])
  }

  /**
    The action map a tree of controls yields from its current outputs: a
    control without low levels maps its main output to actions, any other
    merges the maps of its low levels in list order.
  */
  ghost function ActionsOf(c: HierarchicalControl): ActionMap
    requires c.Valid()
    reads c.Repr
    decreases c.Repr, 1
  {
    if c.lowLevels == [] then c.actionsFromOutput(c.mainControl.o) else MergedActions(c, |c.lowLevels|)
  }

  /** The maps of the first `k` low levels of `c`, merged in order. */
  ghost function MergedActions(c: HierarchicalControl, k: nat): ActionMap
    requires c.Valid() && k <= |c.lowLevels|
    reads c.Repr
    decreases c.Repr, 0, k
  {
    if k == 0 then [] else Update(MergedActions(c, k - 1), ActionsOf(c.lowLevels[k - 1]))
  }

  lemma {:induction false} MergeAllIsMerged(c: HierarchicalControl, ds: seq<ActionMap>, k: nat)
    requires c.Valid() && k <= |c.lowLevels| && |ds| == k
    requires forall j :: 0 <= j < k ==> ds[j] == ActionsOf(c.lowLevels[j])
    ensures MergeAll(ds) == MergedActions(c, k)
  {
    if k > 0 {
      MergeAllIsMerged(c, ds[..k - 1], k - 1);
    }
  }

  /**
    What `set_reference(r)` followed by `get_actions(observation)` leaves in
    a tree that was in state `s`: the control takes `r` and its sign, its
    main unit takes `r` and runs once on the control's observation, and its
    cost restarts its overshoot tracking from `r`'s sign and adds that
    unit's new error to the old total; every low level, at every depth,
    does the same with its parent's new main output as reference.
  */
  ghost predicate SteppedTree(c: HierarchicalControl, r: real, observation: seq<real>, s: TreeState)
    requires c.Valid()
    reads c, c.Repr
    decreases c.Repr
  {
    c.reference == r && c.initialErrSign == Sign(r) && c.mainControl.reference == r &&
    c.obsIndex < |observation| &&
    (c.mainControl.e, c.mainControl.o) == c.mainControl.law(s.unitPs, s.unitO, r, observation[c.obsIndex]) &&
    c.mainControl.parameters == s.unitPs && c.mainControl.resets == s.unitResets &&
    c.GetCost() == AddCost(Cost(s.cost.totalError, 0.0, 0.0), c.overshootGain, Sign(r), c.mainControl.e) &&
    |s.below| == |c.lowLevels| &&
    forall i :: 0 <= i < |c.lowLevels| ==> SteppedTree(c.lowLevels[i], c.mainControl.o, observation, s.below[i])
  }

  class HierarchicalControl {
    const actionName: string
    const mainControl: GenericControlUnit
    const lowLevels: seq<HierarchicalControl>
    const overshootGain: real
    /** `get_main_observation` reads `observation[obsIndex]`. */
    const obsIndex: nat
    /** `get_actions_from_output`. */
    const actionsFromOutput: real -> ActionMap
    var totalError: real
    var reference: real
    var maxOvershoot: real
    var currentE: real
    var initialErrSign: int
    /** Every object below this one: the main unit and the footprints of the low levels. */
    ghost const Repr: set<object>
    ghost const need: nat

    ghost predicate Valid()
      decreases Repr
    {
      this !in Repr && mainControl in Repr && need > obsIndex &&
      (forall i :: 0 <= i < |lowLevels| ==>
         lowLevels[i] in Repr && lowLevels[i].Repr < Repr && lowLevels[i].need <= need &&
         mainControl !in lowLevels[i].Repr) &&
      (forall i, j :: 0 <= i < j < |lowLevels| ==>
         lowLevels[i] != lowLevels[j] && lowLevels[i] !in lowLevels[j].Repr && lowLevels[j] !in lowLevels[i].Repr &&
         lowLevels[i].Repr !! lowLevels[j].Repr) &&
      (forall i :: 0 <= i < |lowLevels| ==> lowLevels[i].Valid())
    }

    function GetCost(): Cost
      reads this
    {
      Cost(totalError, maxOvershoot, currentE)
    }

    /** No low level contains this control or its main unit. */
    lemma ChildrenApart()
      requires Valid()
      ensures forall j :: 0 <= j < |lowLevels| ==>
                lowLevels[j] != this && this !in lowLevels[j].Repr && mainControl !in lowLevels[j].Repr
    {
    }

    /** Low level `i` and everything below it lie apart from this control, its main unit and the other low levels. */
    lemma ChildFrame(i: nat)
      requires Valid() && i < |lowLevels|
      ensures lowLevels[i] != this && lowLevels[i].mainControl in lowLevels[i].Repr
      ensures mainControl !in lowLevels[i].Repr && this !in lowLevels[i].Repr
      ensures forall j :: 0 <= j < |lowLevels| && j != i ==>
                lowLevels[j] != lowLevels[i] && lowLevels[j] !in lowLevels[i].Repr &&
                lowLevels[j].mainControl !in lowLevels[i].Repr && lowLevels[j].Repr !! lowLevels[i].Repr &&
                lowLevels[i] !in lowLevels[j].Repr
    {
      forall j | 0 <= j < |lowLevels| && j != i
        ensures lowLevels[j].mainControl in lowLevels[j].Repr
      {
        assert lowLevels[j].Valid();
      }
    }

    constructor (mainControl: GenericControlUnit, lowLevels: seq<HierarchicalControl> := [], reference: real := 0.0,
                 overshootGain: real := 1.0, actionName: string := "action",
                 obsIndex: nat := 0, actionsFromOutput: real -> ActionMap := (output: real) => SingleAction(actionName, output))
      requires forall i :: 0 <= i < |lowLevels| ==> lowLevels[i].Valid() && mainControl !in lowLevels[i].Repr
      requires forall i, j :: 0 <= i < j < |lowLevels| ==>
                 lowLevels[i] != lowLevels[j] && lowLevels[i] !in lowLevels[j].Repr && lowLevels[j] !in lowLevels[i].Repr &&
                 lowLevels[i].Repr !! lowLevels[j].Repr
      modifies mainControl
      ensures Valid()
      ensures this.mainControl == mainControl && this.lowLevels == lowLevels && this.overshootGain == overshootGain
      ensures this.actionName == actionName && this.obsIndex == obsIndex && this.actionsFromOutput == actionsFromOutput
      ensures totalError == 0.0 && this.reference == reference && initialErrSign == Sign(reference)
      ensures maxOvershoot == 0.0 && currentE == 0.0
      ensures mainControl.reference == reference && mainControl.parameters == old(mainControl.parameters)
    {
      this.actionName := actionName;
      this.mainControl := mainControl;
      this.lowLevels := lowLevels;
      this.overshootGain := overshootGain;
      this.obsIndex := obsIndex;
      this.actionsFromOutput := actionsFromOutput;
      this.totalError := 0.0;
      this.reference := 0.0;
      this.maxOvershoot := 0.0;
      this.currentE := 0.0;
      this.initialErrSign := 0;
      this.Repr := {mainControl} + Footprints(lowLevels);
      this.need := NeedOf(obsIndex, lowLevels);
      new;
      forall o | o in Footprints(lowLevels)
        ensures o != this
      {
        FootprintsMember(lowLevels, o);
      }
      forall i | 0 <= i < |lowLevels|
        ensures lowLevels[i] in Repr && lowLevels[i].Repr < Repr
      {
        FootprintsContain(lowLevels, i);
      }
      SetReference(reference);
    }

    /** Stores the reference, takes its sign as the expected error sign, clears the overshoot and the current error, and passes it on to the main unit. */
    method SetReference(newReference: real)
      modifies this, mainControl
      ensures reference == newReference && initialErrSign == Sign(newReference)
      ensures maxOvershoot == 0.0 && currentE == 0.0 && totalError == old(totalError)
      ensures mainControl.reference == newReference
      ensures mainControl.parameters == old(mainControl.parameters) && mainControl.o == old(mainControl.o)
      ensures mainControl.e == old(mainControl.e) && mainControl.resets == old(mainControl.resets)
    {
      reference := newReference;
      initialErrSign := Sign(reference);
      maxOvershoot := 0.0;
      currentE := 0.0;
      mainControl.SetReference(reference);
    }

    method AddToCost(newError: real)
      modifies this
      ensures GetCost() == AddCost(old(GetCost()), overshootGain, initialErrSign, newError)
      ensures reference == old(reference) && initialErrSign == old(initialErrSign)
    {
      var absError := Abs(newError);
      var gain: real;
      if Sign(newError) != initialErrSign {
        gain := overshootGain;
        if absError > maxOvershoot {
          maxOvershoot := absError;
        }
      } else {
        gain := 1.0;
      }
      totalError := totalError + gain * absError;
      currentE := newError;
    }

    function GetTotalCost(): real
      reads this
    {
      totalError
    }

    /**
      Zeroes the cost and resets the main unit and every low level (each of
      which does the same below it); references, signs, overshoots, current
      errors and parameters stay.
    */
    method Reset()
      requires Valid()
      modifies this, Repr
      decreases Repr, 1
      ensures ResetTree(this, old(StateOf(this)))
      ensures totalError == 0.0 && reference == old(reference) && initialErrSign == old(initialErrSign)
      ensures maxOvershoot == old(maxOvershoot) && currentE == old(currentE)
      ensures mainControl.o == 0.0 && mainControl.e == 0.0 && mainControl.resets == old(mainControl.resets) + 1
      ensures mainControl.parameters == old(mainControl.parameters) && mainControl.reference == old(mainControl.reference)
    {
      ghost var s := StateOf(this);
      ChildrenApart();
      totalError := 0.0;
      mainControl.Reset();
      var i := 0;
      while i < |lowLevels|
        invariant 0 <= i <= |lowLevels|
        invariant totalError == 0.0 && reference == s.reference && initialErrSign == s.sign
        invariant maxOvershoot == s.cost.maxOvershoot && currentE == s.cost.currentE
        invariant mainControl.o == 0.0 && mainControl.e == 0.0 && mainControl.resets == s.unitResets + 1
        invariant mainControl.parameters == s.unitPs && mainControl.reference == s.unitRef
        invariant ResetProgress(i, s.below)
      {
        ResetNext(i, s.below);
        i := i + 1;
      }
    }

    /** The first `i` low levels are reset from the states in `below`; the others are still in them. */
    ghost predicate ResetProgress(i: nat, below: seq<TreeState>)
      requires Valid()
      reads Repr
    {
      i <= |lowLevels| && |below| == |lowLevels| &&
      (forall j :: 0 <= j < i ==> ResetTree(lowLevels[j], below[j])) &&
      (forall j :: i <= j < |lowLevels| ==> StateOf(lowLevels[j]) == below[j])
    }

    /** Resets low level `i` and its subtree, leaving the other low levels alone. */
    method ResetNext(i: nat, ghost below: seq<TreeState>)
      requires Valid() && i < |lowLevels| && ResetProgress(i, below)
      modifies lowLevels[i], lowLevels[i].Repr
      decreases Repr, 0
      ensures ResetProgress(i + 1, below)
    {
      ChildFrame(i);
      lowLevels[i].Reset();
    }

    /** The main unit's update on the observation it perceives; its output is the second-level reference. */
    method GetSecondReference(observation: seq<real>) returns (secondReference: real)
      requires obsIndex < |observation|
      modifies mainControl
      ensures (mainControl.e, mainControl.o) ==
              mainControl.law(mainControl.parameters, old(mainControl.o), reference, MainObservation(obsIndex, observation))
      ensures secondReference == mainControl.o
      ensures mainControl.parameters == old(mainControl.parameters) && mainControl.reference == reference
      ensures mainControl.resets == old(mainControl.resets)
    {
      var mainObservation := MainObservation(obsIndex, observation);
      secondReference := mainControl.GetOutput(reference, mainObservation);
    }

    /**
      One control step. Without low levels the actions come from the main
      output; otherwise every low level gets the main output as reference,
      takes its own step, and their action maps are merged in order. The
      main unit's new error is added to the cost exactly once. The cost is
      updated as soon as the main unit has run rather than after the low
      levels: it reads only that unit's error and writes only this control's
      cost, neither of which a low level reads or writes, so the final state
      is the same.
    */
    method GetActions(observation: seq<real>) returns (actions: ActionMap)
      requires Valid() && need <= |observation|
      modifies this, Repr
      decreases Repr, 3
      ensures mainControl.reference == reference
      ensures (mainControl.e, mainControl.o) ==
              mainControl.law(mainControl.parameters, old(mainControl.o), reference, MainObservation(obsIndex, observation))
      ensures mainControl.parameters == old(mainControl.parameters) && mainControl.resets == old(mainControl.resets)
      ensures actions == ActionsOf(this)
      ensures lowLevels == [] ==> actions == actionsFromOutput(mainControl.o)
      ensures forall i :: 0 <= i < |lowLevels| ==>
                SteppedTree(lowLevels[i], mainControl.o, observation, old(StateOf(lowLevels[i])))
      ensures GetCost() == AddCost(old(GetCost()), overshootGain, initialErrSign, mainControl.e)
      ensures reference == old(reference) && initialErrSign == old(initialErrSign)
    {
      ChildrenApart();
      var secondReference := GetSecondReference(observation);
      AddToCost(mainControl.e);
      assert forall j :: 0 <= j < |lowLevels| ==> StateOf(lowLevels[j]) == old(StateOf(lowLevels[j]));
      if |lowLevels| == 0 {
        actions := actionsFromOutput(secondReference);
      } else {
        actions := StepLowLevels(secondReference, observation);
      }
    }

    /** Every low level in turn takes `r` as reference and steps; their maps are merged in order. */
    method StepLowLevels(r: real, observation: seq<real>) returns (actions: ActionMap)
      requires Valid() && need <= |observation|
      modifies Repr - {mainControl}
      decreases Repr, 2
      ensures actions == MergedActions(this, |lowLevels|)
      ensures forall i :: 0 <= i < |lowLevels| ==> SteppedTree(lowLevels[i], r, observation, old(StateOf(lowLevels[i])))
    {
      ghost var before := StatesOf(this, |lowLevels|);
      actions := [];
      ghost var childActions: seq<ActionMap> := [];
      var i := 0;
      while i < |lowLevels|
        invariant 0 <= i <= |lowLevels|
        invariant Progress(i, r, observation, before, actions, childActions)
      {
        actions, childActions := StepNext(i, r, observation, before, actions, childActions);
        i := i + 1;
      }
      MergeAllIsMerged(this, childActions, |lowLevels|);
    }

    /**
      After `i` low levels have stepped: each of them has taken its step from
      the state recorded in `before`, its map is in `childActions`, `actions`
      merges those maps, and the low levels not yet reached are as recorded.
    */
    ghost predicate Progress(i: nat, r: real, observation: seq<real>, before: seq<TreeState>,
                             actions: ActionMap, childActions: seq<ActionMap>)
      requires Valid()
      reads Repr
    {
      i <= |lowLevels| && |before| == |lowLevels| && |childActions| == i && actions == MergeAll(childActions) &&
      (forall j :: 0 <= j < i ==>
         childActions[j] == ActionsOf(lowLevels[j]) && SteppedTree(lowLevels[j], r, observation, before[j])) &&
      (forall j :: i <= j < |lowLevels| ==> StateOf(lowLevels[j]) == before[j])
    }

    /** Steps low level `i` and merges its map into `actions`. */
    method StepNext(i: nat, r: real, observation: seq<real>, ghost before: seq<TreeState>,
                    actions: ActionMap, ghost childActions: seq<ActionMap>)
      returns (actions': ActionMap, ghost childActions': seq<ActionMap>)
      requires Valid() && need <= |observation| && i < |lowLevels|
      requires Progress(i, r, observation, before, actions, childActions)
      modifies lowLevels[i], lowLevels[i].Repr
      decreases Repr, 1
      ensures Progress(i + 1, r, observation, before, actions', childActions')
    {
      var controlActions := StepChild(i, r, observation);
      actions' := Update(actions, controlActions);
      childActions' := childActions + [controlActions];
      assert childActions'[..i] == childActions;
    }

    /** `set_reference(r)` then `get_actions(observation)` on low level `i`; the other low levels are left alone. */
    method StepChild(i: nat, r: real, observation: seq<real>) returns (controlActions: ActionMap)
      requires Valid() && i < |lowLevels| && need <= |observation|
      modifies lowLevels[i], lowLevels[i].Repr
      decreases Repr, 0
      ensures controlActions == ActionsOf(lowLevels[i])
      ensures SteppedTree(lowLevels[i], r, observation, old(StateOf(lowLevels[i])))
      ensures forall j :: 0 <= j < |lowLevels| && j != i ==> unchanged({lowLevels[j]} + lowLevels[j].Repr)
    {
      ChildFrame(i);
      var control := lowLevels[i];
      ghost var s := StateOf(control);
      control.ChildrenApart();
      control.SetReference(r);
      assert forall k :: 0 <= k < |control.lowLevels| ==> StateOf(control.lowLevels[k]) == s.below[k];
      controlActions := control.GetActions(observation);
    }

    function GetParameters(): Params
      reads mainControl
    {
      mainControl.parameters
    }

    method SetParameters(parameters: Params)
      modifies mainControl
      ensures GetParameters() == parameters
      ensures mainControl.reference == old(mainControl.reference) && mainControl.resets == old(mainControl.resets)
      ensures mainControl.o == old(mainControl.o) && mainControl.e == old(mainControl.e)
    {
      mainControl.SetParameters(parameters);
    }
  }
}
