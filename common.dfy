/** Failure-compatible wrappers for the source's `None` results and raised exceptions. */
module Wrappers {

  datatype Option<+T> = None | Some(value: T)

  datatype Result<+T, +E> = Success(value: T) | Failure(error: E) {
    predicate IsFailure() { Failure? }

    function PropagateFailure<U>(): Result<U, E>
      requires Failure?
    {
      Failure(error)
    }

    function Extract(): T
      requires Success?
    {
      value
    }
  }
}

/** Real-valued helpers shared by the control layer. */
module Reals {

  function Abs(x: real): (r: real)
    ensures r >= 0.0 && (r == x || r == -x)
  {
    if x < 0.0 then -x else x
  }

  /** The `signum` the control code imports: -1, 0 or +1. */
  function Sign(x: real): (s: int)
    ensures -1 <= s <= 1
    ensures s == 0 <==> x == 0.0
    ensures s == 1 <==> x > 0.0
  {
    if x > 0.0 then 1 else if x < 0.0 then -1 else 0
  }

  function Max(a: real, b: real): (m: real)
    ensures m >= a && m >= b && (m == a || m == b)
  {
    if a >= b then a else b
  }

  function Min(a: real, b: real): (m: real)
    ensures m <= a && m <= b && (m == a || m == b)
  {
    if a <= b then a else b
  }

  /** Sum of a sequence, accumulated from the front as `sum(...)` does. */
  function SumOf(s: seq<real>): real
  {
    if s == [] then 0.0 else SumOf(s[..|s| - 1]) + s[|s| - 1]
  }

  /** Extending a prefix by one element adds that element to the sum. */
  lemma SumOfPrefix(s: seq<real>, i: nat)
    requires i < |s|
    ensures SumOf(s[..i + 1]) == SumOf(s[..i]) + s[i]
  {
    assert s[..i + 1][..i] == s[..i];
  }

  /** A sequence whose elements all lie in [lo, hi] has its sum in [|s|*lo, |s|*hi]. */
  lemma {:induction false} SumOfBounds(s: seq<real>, lo: real, hi: real)
    requires forall k :: 0 <= k < |s| ==> lo <= s[k] <= hi
    ensures |s| as real * lo <= SumOf(s) <= |s| as real * hi
  {
    if s != [] {
      var n := |s| - 1;
      SumOfBounds(s[..n], lo, hi);
      assert |s| as real * lo == n as real * lo + lo;
      assert |s| as real * hi == n as real * hi + hi;
    }
  }
}

/** Parameter dictionaries `{name: value}`, kept in insertion order as Python dicts are. */
module Parameters {

  datatype Entry = Entry(name: string, value: real)

  type Params = seq<Entry>

  /** `p[name] = v` for the `k`-th key: the key keeps its position, nothing else changes. */
  function SetValue(p: Params, k: nat, v: real): Params
    requires k < |p|
  {
    p[k := Entry(p[k].name, v)]
  }
}

/** Python dicts with string keys: pairs in insertion order, an assignment to an existing key keeps its position. */
module Dicts {
  import opened Wrappers

  type Dict<V> = seq<(string, V)>

  /** `d.get(k)`: the value of the first pair with key `k`. */
  function Lookup<V>(d: Dict<V>, k: string): Option<V>
  {
    if d == [] then None
    else if d[0].0 == k then Some(d[0].1)
    else Lookup(d[1..], k)
  }

  /** `d[k] = v`. */
  function Put<V>(d: Dict<V>, k: string, v: V): (r: Dict<V>)
    ensures |r| == if Lookup(d, k).Some? then |d| else |d| + 1
    ensures forall i :: 0 <= i < |d| ==> r[i].0 == d[i].0
  {
    if d == [] then [(k, v)]
    else if d[0].0 == k then [(k, v)] + d[1..]
    else [d[0]] + Put(d[1..], k, v)
  }

  /** After `d[k] = v`, key `k` reads `v` and every other key reads what it read before. */
  lemma {:induction false} PutLookup<V>(d: Dict<V>, k: string, v: V, j: string)
    ensures Lookup(Put(d, k, v), j) == if j == k then Some(v) else Lookup(d, j)
  {
    if d != [] && d[0].0 != k {
      PutLookup(d[1..], k, v, j);
      assert Put(d, k, v)[1..] == Put(d[1..], k, v);
    }
  }

  /** The value of the last pair with key `k`: the one a sequence of assignments leaves. */
  function LastLookup<V>(pairs: seq<(string, V)>, k: string): Option<V>
  {
    if pairs == [] then None
    else if pairs[|pairs| - 1].0 == k then Some(pairs[|pairs| - 1].1)
    else LastLookup(pairs[..|pairs| - 1], k)
  }

  /** `d.update(pairs)`: the assignments `d[k] = v` in order. */
  function Update<V>(d: Dict<V>, pairs: seq<(string, V)>): Dict<V>
  {
    if pairs == [] then d
    else Put(Update(d, pairs[..|pairs| - 1]), pairs[|pairs| - 1].0, pairs[|pairs| - 1].1)
  }

  /** After an update the last assignment to a key wins; keys not assigned keep their value. */
  lemma {:induction false} UpdateLookup<V>(d: Dict<V>, pairs: seq<(string, V)>, j: string)
    ensures Lookup(Update(d, pairs), j) == if LastLookup(pairs, j).Some? then LastLookup(pairs, j) else Lookup(d, j)
  {
    if pairs != [] {
      var n := |pairs| - 1;
      UpdateLookup(d, pairs[..n], j);
      PutLookup(Update(d, pairs[..n]), pairs[n].0, pairs[n].1, j);
    }
  }

  /** An empty dict updated with each of `ds` in turn. */
  function MergeAll<V>(ds: seq<Dict<V>>): Dict<V>
  {
    if ds == [] then [] else Update(MergeAll(ds[..|ds| - 1]), ds[|ds| - 1])
  }

  /** The value of `k` in the last of `ds` that assigns it. */
  function LastAssigned<V>(ds: seq<Dict<V>>, k: string): Option<V>
  {
    if ds == [] then None
    else if LastLookup(ds[|ds| - 1], k).Some? then LastLookup(ds[|ds| - 1], k)
    else LastAssigned(ds[..|ds| - 1], k)
  }

  /** In a merge, later dicts win: each key reads its value in the last dict that has it. */
  lemma {:induction false} MergeAllLookup<V>(ds: seq<Dict<V>>, k: string)
    ensures Lookup(MergeAll(ds), k) == LastAssigned(ds, k)
  {
    if ds != [] {
      var n := |ds| - 1;
      MergeAllLookup(ds[..n], k);
      UpdateLookup(MergeAll(ds[..n]), ds[n], k);
    }
  }
}
