/**
  Control units. `PCUControlUnit` is the Perceptual Control Theory unit
  `o := o + (kg·e - o)/ks` with `e = r - p`. `GenericControlUnit` stands for
  the units built elsewhere from a definition record: what they compute is a
  law given to them, and the hierarchical layer only uses their error, their
  output, their reference, their reset and their parameters.
*/
module ControlUnit {
  import opened Wrappers
  import opened Parameters

  /** The PCU update for the previous output `o` and the error `e`. */
  function PcuStep(o: real, kg: real, ks: real, e: real): real
    requires ks != 0.0
  {
    o + (kg * e - o) / ks
  }

  /** With ks = 1 the output is exactly kg·e, whatever the previous output was. */
  lemma PcuNoSmoothing(o: real, kg: real, e: real)
    ensures PcuStep(o, kg, 1.0, e) == kg * e
  {
  }

  /** kg·e is a fixed point: an output already there stays there. */
  lemma PcuFixedPoint(o: real, kg: real, ks: real, e: real)
    requires ks != 0.0 && o == kg * e
    ensures PcuStep(o, kg, ks, e) == o
  {
  }

  /** The distance to the target kg·e shrinks by the factor 1 - 1/ks at each step. */
  lemma PcuApproach(o: real, kg: real, ks: real, e: real)
    requires ks != 0.0
    ensures PcuStep(o, kg, ks, e) - kg * e == (1.0 - 1.0 / ks) * (o - kg * e)
  {
    var t := kg * e;
    calc {
      PcuStep(o, kg, ks, e) - t;
      o + (t - o) / ks - t;
      (o - t) - (o - t) / ks;
      { assert (o - t) / ks == (1.0 / ks) * (o - t); }
      (1.0 - 1.0 / ks) * (o - t);
    }
  }

  /** The gains a PCU reads from its gain list: kg first, ks second or 1.0; an empty list has no kg. */
  function PcuGains(gains: seq<real>): (r: Option<(real, real)>)
    ensures r.None? <==> gains == []
    ensures r.Some? ==> r.value.0 == gains[0]
    ensures r.Some? && |gains| == 1 ==> r.value.1 == 1.0
    ensures r.Some? && |gains| >= 2 ==> r.value.1 == gains[1]
  {
    if gains == [] then None
    else if |gains| > 1 then Some((gains[0], gains[1]))
    else Some((gains[0], 1.0))
  }

  class PCUControlUnit {
    const name: string
    const kg: real
    const ks: real
    const debug: bool
    var o: real
    var e: real

    /** Output and error start at 0; ks defaults to 1.0 when the list holds kg only. */
    constructor (name: string, gains: seq<real>, debug: bool := false)
      requires gains != []
      ensures this.name == name && this.debug == debug
      ensures PcuGains(gains) == Some((kg, ks))
      ensures o == 0.0 && e == 0.0
    {
      this.name := name;
      this.kg := gains[0];
      this.ks := if |gains| > 1 then gains[1] else 1.0;
      this.debug := debug;
      this.o := 0.0;
      this.e := 0.0;
    }

    /** Stores the error r - p and returns the updated output. */
    method GetOutput(reference: real, perception: real) returns (output: real)
      requires ks != 0.0
      modifies this
      ensures e == reference - perception
      ensures o == PcuStep(old(o), kg, ks, e)
      ensures output == o
    {
      e := reference - perception;
      o := o + (kg * e - o) / ks;
      output := o;
    }
  }

  /**
    A control unit built from a definition: `law` maps its parameters, its
    previous output, the reference and the perception to the new error and
    output. `resets` counts the calls of `reset`.
  */
  class GenericControlUnit {
    const law: (Params, real, real, real) -> (real, real)
    var parameters: Params
    var reference: real
    var o: real
    var e: real
    ghost var resets: nat

    constructor (law: (Params, real, real, real) -> (real, real), parameters: Params)
      ensures this.law == law && this.parameters == parameters
      ensures reference == 0.0 && o == 0.0 && e == 0.0 && resets == 0
    {
      this.law := law;
      this.parameters := parameters;
      this.reference := 0.0;
      this.o := 0.0;
      this.e := 0.0;
      this.resets := 0;
    }

    /** Takes `reference` as the unit's reference, then applies the law to it and the perception. */
    method GetOutput(reference: real, perception: real) returns (output: real)
      modifies this
      ensures this.reference == reference
      ensures (e, o) == law(parameters, old(o), reference, perception)
      ensures output == o
      ensures parameters == old(parameters) && resets == old(resets)
    {
      this.reference := reference;
      var r := law(parameters, o, reference, perception);
      e, o := r.0, r.1;
      output := o;
    }

    method SetReference(r: real)
      modifies this
      ensures reference == r
      ensures parameters == old(parameters) && o == old(o) && e == old(e) && resets == old(resets)
    {
      reference := r;
    }

    /** Clears output and error; parameters and reference stay. */
    method Reset()
      modifies this
      ensures resets == old(resets) + 1 && o == 0.0 && e == 0.0
      ensures parameters == old(parameters) && reference == old(reference)
    {
      resets := resets + 1;
      o, e := 0.0, 0.0;
    }

    function GetParameters(): Params
      reads this
    {
      parameters
    }

    method SetParameters(ps: Params)
      modifies this
      ensures parameters == ps
      ensures reference == old(reference) && o == old(o) && e == old(e) && resets == old(resets)
    {
      parameters := ps;
    }
  }
}
