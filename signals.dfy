/**
  Signal history and delay line: a bounded FIFO of samples (a deque whose
  `maxlen` is one more than the requested length) and the N-cycle transport
  delay built on it.
*/
module Signals {
  import opened Wrappers
  import opened Reals

  /** Threshold on first and second differences used by the two scans. */
  const Tolerance: real := 0.1

  /** What a deque with `maxlen == cap` holds after all of `s` was appended to it: the last `cap` samples. */
  function Window(s: seq<real>, cap: nat): (w: seq<real>)
    ensures |w| == if |s| <= cap then |s| else cap
    ensures w == s[|s| - |w|..]
  {
    if |s| <= cap then s else s[|s| - cap..]
  }

  /** Appending to a bounded buffer is the same as appending to the unbounded history and keeping the window. */
  lemma {:induction false} WindowAppend(s: seq<real>, cap: nat, v: real)
    requires cap >= 1
    ensures Window(Window(s, cap) + [v], cap) == Window(s + [v], cap)
  {
    var w := Window(s, cap);
    if |s| + 1 > cap {
      assert |w| == cap;
      assert (w + [v])[1..] == (s + [v])[|s| + 1 - cap..];
    }
  }

  /** Appending the next sample of `s` to the window of its first `i` samples gives the window of its first `i + 1`. */
  lemma WindowStep(s: seq<real>, i: nat, cap: nat)
    requires i < |s| && cap >= 1
    ensures Window(Window(s[..i], cap) + [s[i]], cap) == Window(s[..i + 1], cap)
  {
    WindowAppend(s[..i], cap, s[i]);
    assert s[..i + 1] == s[..i] + [s[i]];
  }

  /** On a full buffer, appending evicts exactly the oldest sample. */
  lemma AppendEvictsOldest(s: seq<real>, cap: nat, v: real)
    requires |s| == cap >= 1
    ensures Window(s + [v], cap) == s[1..] + [v]
  {
    assert (s + [v])[1..] == s[1..] + [v];
  }

  /** Change of slope at sample `i`: (v[i] - v[i-1]) - (v[i-1] - v[i-2]). */
  function SecondDiff(vs: seq<real>, i: nat): real
    requires 2 <= i < |vs|
  {
    (vs[i] - vs[i - 1]) - (vs[i - 1] - vs[i - 2])
  }

  /** A turning point reported by `local_optimum_points`: the sample index that closes it, the value at the turn and +1 (max) or -1 (min). */
  datatype Point = Point(index: nat, value: real, kind: int)

  /** The point the scan records at index `i`, if any. A maximum needs a rise then a fall; a minimum only needs a fall followed by anything that is not itself a fall. */
  function OptimumAt(vs: seq<real>, i: nat): Option<Point>
    requires 2 <= i < |vs|
  {
    var d1 := vs[i - 1] - vs[i - 2];
    var d2 := vs[i] - vs[i - 1];
    if d2 < -Tolerance then
      if d1 > Tolerance then Some(Point(i, vs[i - 1], 1)) else None
    else
      if d1 < -Tolerance then Some(Point(i, vs[i - 1], -1)) else None
  }

  /** The points recorded for indices 2 .. n-1, in index order. */
  function OptimaBelow(vs: seq<real>, n: nat): seq<Point>
    requires n <= |vs|
  {
    if n <= 2 then []
    else OptimaBelow(vs, n - 1) + (match OptimumAt(vs, n - 1) case Some(p) => [p] case None => [])
  }

  /** Every recorded point comes from an index below `n` that yields it, and the points are in strictly increasing index order. */
  lemma {:induction false} OptimaBelowSound(vs: seq<real>, n: nat)
    requires n <= |vs|
    ensures forall a :: 0 <= a < |OptimaBelow(vs, n)| ==>
              2 <= OptimaBelow(vs, n)[a].index < n && OptimumAt(vs, OptimaBelow(vs, n)[a].index) == Some(OptimaBelow(vs, n)[a])
    ensures forall a, b :: 0 <= a < b < |OptimaBelow(vs, n)| ==> OptimaBelow(vs, n)[a].index < OptimaBelow(vs, n)[b].index
  {
    if n > 2 {
      OptimaBelowSound(vs, n - 1);
    }
  }

  /** Every index below `n` that yields a point has that point recorded. */
  lemma {:induction false} OptimaBelowComplete(vs: seq<real>, n: nat, i: nat)
    requires n <= |vs| && 2 <= i < n
    requires OptimumAt(vs, i).Some?
    ensures OptimumAt(vs, i).value in OptimaBelow(vs, n)
  {
    if i < n - 1 {
      OptimaBelowComplete(vs, n - 1, i);
    }
  }

  /** What a recorded point says about the three samples around it. */
  lemma OptimumAtMeaning(vs: seq<real>, i: nat)
    requires 2 <= i < |vs|
    ensures OptimumAt(vs, i).Some? && OptimumAt(vs, i).value.kind == 1 <==>
              vs[i - 1] > vs[i - 2] + Tolerance && vs[i - 1] > vs[i] + Tolerance
    ensures OptimumAt(vs, i).Some? && OptimumAt(vs, i).value.kind == -1 <==>
              vs[i - 1] < vs[i - 2] - Tolerance && vs[i] >= vs[i - 1] - Tolerance
    ensures OptimumAt(vs, i).Some? ==> OptimumAt(vs, i).value.index == i && OptimumAt(vs, i).value.value == vs[i - 1]
  {
  }

  datatype AggregateError = EmptyHistory | UnknownAggregate(kind: string)

  /** Last N+1 samples of a signal; `length` is the deque's capacity, one more than the length asked for. */
  class SignalHistory {
    var length: nat
    var values: seq<real>

    ghost predicate Valid()
      reads this
    {
      length >= 1 && |values| <= length
    }

    constructor (n: nat := 10)
      ensures Valid() && length == n + 1 && values == []
    {
      length := n + 1;
      values := [];
    }

    method Reset()
      requires Valid()
      modifies this
      ensures Valid() && length == old(length) && values == []
    {
      values := [];
    }

    /** Changes the capacity to n+1; the stored samples are discarded. */
    method SetLen(n: nat)
      modifies this
      ensures Valid() && length == n + 1 && values == []
    {
      length := n + 1;
      values := [];
    }

    method Append(v: real)
      requires Valid()
      modifies this
      ensures Valid() && length == old(length)
      ensures values == Window(old(values) + [v], length)
    {
      if |values| == length {
        values := values[1..] + [v];
      } else {
        values := values + [v];
      }
    }

    /** Replaces the newest sample; on an empty history `pop` fails, reported here as `ok == false` with nothing changed. */
    method Update(v: real) returns (ok: bool)
      requires Valid()
      modifies this
      ensures Valid() && length == old(length)
      ensures ok <==> old(values) != []
      ensures ok ==> |values| == |old(values)| && values == old(values)[..|old(values)| - 1] + [v]
      ensures !ok ==> values == old(values)
    {
      if values == [] {
        return false;
      }
      values := values[..|values| - 1];
      values := values + [v];
      ok := true;
    }

    /** Clears the history, then appends every element of `vs` in order. */
    method Load(vs: seq<real>)
      requires Valid()
      modifies this
      ensures Valid() && length == old(length)
      ensures values == Window(vs, length)
    {
      Reset();
      var i := 0;
      while i < |vs|
        invariant 0 <= i <= |vs|
        invariant Valid() && length == old(length)
        invariant values == Window(vs[..i], length)
      {
        WindowStep(vs, i, length);
        Append(vs[i]);
        i := i + 1;
      }
      assert vs[..i] == vs;
    }

    function IsFull(): (r: bool)
      requires Valid()
      reads this
      ensures r <==> |values| == length
    {
      |values| >= length
    }

    method Last() returns (r: Result<real, AggregateError>)
      ensures values == [] ==> r == Failure(EmptyHistory)
      ensures values != [] ==> r == Success(values[|values| - 1])
    {
      if values == [] {
        return Failure(EmptyHistory);
      }
      r := Success(values[|values| - 1]);
    }

    method Sum() returns (s: real)
      ensures s == SumOf(values)
    {
      s := 0.0;
      var i := 0;
      while i < |values|
        invariant 0 <= i <= |values|
        invariant s == SumOf(values[..i])
      {
        SumOfPrefix(values, i);
        s := s + values[i];
        i := i + 1;
      }
      assert values[..i] == values;
    }

    /** Mean of the samples; 0 for an empty history. */
    method Average() returns (a: real)
      ensures values == [] ==> a == 0.0
      ensures values != [] ==> a * |values| as real == SumOf(values)
    {
      var sumV := Sum();
      var countV := |values|;
      if countV > 0 {
        a := sumV / countV as real;
      } else {
        a := 0.0;
      }
    }

    method Min() returns (r: Result<real, AggregateError>)
      ensures r.Success? <==> values != []
      ensures r.Failure? ==> r.error == EmptyHistory
      ensures r.Success? ==> r.value in values && forall k :: 0 <= k < |values| ==> r.value <= values[k]
    {
      if values == [] {
        return Failure(EmptyHistory);
      }
      var m := values[0];
      var i := 1;
      while i < |values|
        invariant 1 <= i <= |values|
        invariant m in values[..i]
        invariant forall k :: 0 <= k < i ==> m <= values[k]
      {
        if values[i] < m {
          m := values[i];
        }
        i := i + 1;
      }
      assert values[..i] == values;
      r := Success(m);
    }

    method Max() returns (r: Result<real, AggregateError>)
      ensures r.Success? <==> values != []
      ensures r.Failure? ==> r.error == EmptyHistory
      ensures r.Success? ==> r.value in values && forall k :: 0 <= k < |values| ==> values[k] <= r.value
    {
      if values == [] {
        return Failure(EmptyHistory);
      }
      var m := values[0];
      var i := 1;
      while i < |values|
        invariant 1 <= i <= |values|
        invariant m in values[..i]
        invariant forall k :: 0 <= k < i ==> values[k] <= m
      {
        if values[i] > m {
          m := values[i];
        }
        i := i + 1;
      }
      assert values[..i] == values;
      r := Success(m);
    }

    /** One of the aggregates, chosen by name; an unknown name is an error. */
    method GetAggregate(kind: string) returns (r: Result<real, AggregateError>)
      ensures kind !in {"last", "average", "min", "max", "sum"} ==> r == Failure(UnknownAggregate(kind))
      ensures kind == "sum" ==> r == Success(SumOf(values))
      ensures kind == "average" ==> r.Success? && (values == [] ==> r.value == 0.0)
                                    && (values != [] ==> r.value * |values| as real == SumOf(values))
      ensures kind == "last" ==> (r.Success? <==> values != []) && (r.Success? ==> r.value == values[|values| - 1])
      ensures kind in {"min", "max"} ==> (r.Success? <==> values != []) && (r.Success? ==> r.value in values)
      ensures kind == "min" && r.Success? ==> forall k :: 0 <= k < |values| ==> r.value <= values[k]
      ensures kind == "max" && r.Success? ==> forall k :: 0 <= k < |values| ==> values[k] <= r.value
    {
      if kind == "last" {
        r := Last();
      } else if kind == "average" {
        var a := Average();
        r := Success(a);
      } else if kind == "min" {
        r := Min();
      } else if kind == "max" {
        r := Max();
      } else if kind == "sum" {
        var s := Sum();
        r := Success(s);
      } else {
        r := Failure(UnknownAggregate(kind));
      }
    }

    method LocalOptimumPoints() returns (points: seq<Point>)
      ensures points == OptimaBelow(values, |values|)
    {
      points := [];
      var i := 2;
      while i < |values|
        invariant 2 <= i && (i <= |values| || |values| < 2)
        invariant points == OptimaBelow(values, if i <= |values| then i else |values|)
      {
        var d1 := values[i - 1] - values[i - 2];
        var d2 := values[i] - values[i - 1];
        if d2 < -Tolerance {
          if d1 > Tolerance {
            points := points + [Point(i, values[i - 1], 1)];
          }
        } else {
          if d1 < -Tolerance {
            points := points + [Point(i, values[i - 1], -1)];
          }
        }
        i := i + 1;
      }
    }

    /** True iff the slope changes by more than the tolerance somewhere in the history. */
    method ChangedDerivative() returns (changed: bool)
      ensures changed <==> exists i :: 2 <= i < |values| && Abs(SecondDiff(values, i)) > Tolerance
    {
      var i := 2;
      while i < |values|
        invariant 2 <= i
        invariant forall k :: 2 <= k < i && k < |values| ==> Abs(SecondDiff(values, k)) <= Tolerance
      {
        var d1 := values[i - 1] - values[i - 2];
        var d2 := values[i] - values[i - 1];
        if Abs(d2 - d1) > Tolerance {
          assert SecondDiff(values, i) == d2 - d1;
          return true;
        }
        i := i + 1;
      }
      return false;
    }
  }

  /** A signal delayed by `delay` cycles: the oldest sample of a full (delay+1)-history. */
  class DelayedSignal {
    const history: SignalHistory

    ghost predicate Valid()
      reads history
    {
      history.Valid()
    }

    constructor (delay: nat := 1)
      ensures Valid() && fresh(history)
      ensures history.length == delay + 1 && history.values == []
    {
      history := new SignalHistory(delay);
    }

    /** Changing the delay discards all buffered samples. */
    method SetDelay(delay: nat)
      requires Valid()
      modifies history
      ensures Valid() && history.length == delay + 1 && history.values == []
    {
      history.SetLen(delay);
    }

    /** No value until the history is full, then the oldest sample. */
    function GetValue(): (r: Option<real>)
      requires Valid()
      reads history
      ensures r.Some? <==> |history.values| == history.length
      ensures r.Some? ==> r.value == history.values[0]
    {
      if history.values == [] then None
      else if |history.values| >= history.length then Some(history.values[0])
      else None
    }
  }

  /** Feeds `sequence` through a fresh delay line of `lag` cycles and reads it once. */
  method TestDelayedSignal(lag: nat, sequence: seq<real>) returns (value: Option<real>)
    ensures |sequence| <= lag ==> value == None
    ensures |sequence| > lag ==> value == Some(sequence[|sequence| - 1 - lag])
  {
    var delayed := new DelayedSignal(lag);
    var history := delayed.history;
    var i := 0;
    while i < |sequence|
      invariant 0 <= i <= |sequence|
      invariant history.Valid() && history.length == lag + 1
      invariant history.values == Window(sequence[..i], lag + 1)
    {
      WindowStep(sequence, i, lag + 1);
      history.Append(sequence[i]);
      i := i + 1;
    }
    assert sequence[..i] == sequence;
    value := delayed.GetValue();
    OldestOfWindow(sequence, lag);
  }

  /** The window of a delay line of `lag` cycles is full exactly when more than `lag` samples went in, and its oldest sample is then the one appended `lag` appends before the newest. */
  lemma OldestOfWindow(s: seq<real>, lag: nat)
    ensures |Window(s, lag + 1)| == lag + 1 <==> |s| > lag
    ensures |s| > lag ==> Window(s, lag + 1)[0] == s[|s| - 1 - lag]
  {
  }

  /** The mean of a non-empty history lies between its smallest and largest sample. */
  lemma AverageBetweenExtremes(vs: seq<real>, lo: real, hi: real, a: real)
    requires vs != []
    requires forall k :: 0 <= k < |vs| ==> lo <= vs[k] <= hi
    requires a * |vs| as real == SumOf(vs)
    ensures lo <= a <= hi
  {
    SumOfBounds(vs, lo, hi);
    var n := |vs| as real;
    assert (a - lo) * n == a * n - lo * n >= 0.0;
    assert (hi - a) * n == hi * n - a * n >= 0.0;
  }
}
