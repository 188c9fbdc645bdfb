/**
 * The reductions the container and the Stan adapter apply to lists:
 * Python's `sum` over naturals and over reals, NumPy's `prod`, `all` over booleans,
 * and the newline join of `Variational.__str__` with its inverse.
 */
module Reductions {

  /** `sum(xs)` over a list of naturals, read from the left. */
  function Sum(xs: seq<nat>): nat
  {
    if |xs| == 0 then 0 else xs[0] + Sum(xs[1..])
  }

  /** Appending one element adds it to the sum: the step `add` takes. */
  lemma {:induction false} SumAppend(xs: seq<nat>, x: nat)
    ensures Sum(xs + [x]) == Sum(xs) + x
  {
    if |xs| > 0 {
      assert (xs + [x])[1..] == xs[1..] + [x];
      SumAppend(xs[1..], x);
    }
  }

  /** A list whose every element is at least 1 sums to at least its length. */
  lemma {:induction false} SumAtLeastLength(xs: seq<nat>)
    requires forall i :: 0 <= i < |xs| ==> xs[i] >= 1
    ensures Sum(xs) >= |xs|
  {
    if |xs| > 0 {
      SumAtLeastLength(xs[1..]);
    }
  }

  /** NumPy's `prod(xs)` over a list of naturals: the element count of an array of that shape. */
  function Product(xs: seq<nat>): nat
  {
    if |xs| == 0 then 1 else xs[0] * Product(xs[1..])
  }

  /** `sum(xs)` over a list of reals, starting from 0. */
  function Total(xs: seq<real>): real
  {
    if |xs| == 0 then 0.0 else xs[0] + Total(xs[1..])
  }

  /** Appending one term adds it to the total: the step of an accumulating loop. */
  lemma {:induction false} TotalAppend(xs: seq<real>, x: real)
    ensures Total(xs + [x]) == Total(xs) + x
  {
    if |xs| > 0 {
      assert (xs + [x])[1..] == xs[1..] + [x];
      TotalAppend(xs[1..], x);
    }
  }

  /** `all(bs)`: the AND of a list of booleans, true for the empty list. */
  function All(bs: seq<bool>): bool
  {
    if |bs| == 0 then true else bs[0] && All(bs[1..])
  }

  /** `all` holds exactly when every element holds, in both directions. */
  lemma {:induction false} AllMeansEvery(bs: seq<bool>)
    ensures All(bs) <==> forall i :: 0 <= i < |bs| ==> bs[i]
  {
    if |bs| > 0 {
      AllMeansEvery(bs[1..]);
      assert forall i :: 1 <= i < |bs| ==> bs[i] == bs[1..][i - 1];
    }
  }

  /** `all` of a concatenation is the AND of the two halves. */
  lemma {:induction false} AllConcat(bs: seq<bool>, cs: seq<bool>)
    ensures All(bs + cs) == (All(bs) && All(cs))
  {
    if |bs| > 0 {
      assert (bs + cs)[1..] == bs[1..] + cs;
      AllConcat(bs[1..], cs);
    } else {
      assert bs + cs == cs;
    }
  }

  /** The layer strings joined by a newline, with no leading or trailing separator. */
  function Join(parts: seq<string>): string
  {
    if |parts| == 0 then ""
    else if |parts| == 1 then parts[0]
    else parts[0] + "\n" + Join(parts[1..])
  }

  /** Joining one more part puts a single newline before it, unless it is the first. */
  lemma {:induction false} JoinAppend(parts: seq<string>, p: string)
    ensures Join(parts + [p]) == if |parts| == 0 then p else Join(parts) + "\n" + p
  {
    if |parts| > 1 {
      assert (parts + [p])[1..] == parts[1..] + [p];
      JoinAppend(parts[1..], p);
    } else if |parts| == 1 {
      assert (parts + [p])[1..] == [p];
    }
  }

  /** The index of the first newline of `s`. */
  function FirstNewline(s: string): (k: nat)
    requires '\n' in s
    ensures k < |s| && s[k] == '\n'
    ensures '\n' !in s[..k]
  {
    if s[0] == '\n' then 0
    else
      assert '\n' in s[1..] by {
        var i :| 0 <= i < |s| && s[i] == '\n';
        assert s[1..][i - 1] == '\n';
      }
      var k := 1 + FirstNewline(s[1..]);
      assert s[..k] == [s[0]] + s[1..][..k - 1];
      k
  }

  /** `s.split("\n")`: the pieces between newlines, in order. */
  function SplitLines(s: string): (r: seq<string>)
    ensures |r| >= 1
    decreases |s|
  {
    if '\n' in s then
      var k := FirstNewline(s);
      [s[..k]] + SplitLines(s[k + 1..])
    else [s]
  }

  /**
   * Splitting the join at newlines gives back the parts, when no part holds a
   * newline: the join adds exactly one separator between neighbours and none
   * at either end.
   */
  lemma {:induction false} SplitJoin(parts: seq<string>)
    requires |parts| > 0
    requires forall i :: 0 <= i < |parts| ==> '\n' !in parts[i]
    ensures SplitLines(Join(parts)) == parts
  {
    if |parts| > 1 {
      var p := parts[0];
      var rest := Join(parts[1..]);
      var s := p + "\n" + rest;
      assert s[|p|] == '\n';
      assert '\n' in s;
      var k := FirstNewline(s);
      assert s[..k] == p;
      assert s[k + 1..] == rest;
      SplitJoin(parts[1..]);
    }
  }
}
