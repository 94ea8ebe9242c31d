/**
 Sequence operations that the page handlers use through JavaScript's
 array methods: `find`, `reduce` to a sum, `splice(i, 1)` and
 `filter((_, i) => i !== index)`.
 */
module Lists {

  datatype Option<+T> = None | Some(value: T)

  /** `s.findIndex(p)` scanning from position `from`: the first position at
      or after `from` whose element satisfies `p`. */
  function FindIndexFrom<T>(s: seq<T>, p: T -> bool, from: nat): (r: Option<nat>)
    requires from <= |s|
    ensures r.Some? ==> from <= r.value < |s| && p(s[r.value])
    ensures r.Some? ==> forall j :: from <= j < r.value ==> !p(s[j])
    ensures r.None? <==> forall j :: from <= j < |s| ==> !p(s[j])
    decreases |s| - from
  {
    if from == |s| then None
    else if p(s[from]) then Some(from)
    else FindIndexFrom(s, p, from + 1)
  }

  /** `s.find(p)`: the first element satisfying `p`, or nothing. */
  function Find<T>(s: seq<T>, p: T -> bool): (r: Option<T>)
    ensures r.Some? ==> r.value in s && p(r.value)
    ensures r.Some? ==> exists i :: 0 <= i < |s| && s[i] == r.value && forall j :: 0 <= j < i ==> !p(s[j])
    ensures r.None? <==> forall x :: x in s ==> !p(x)
  {
    var i := FindIndexFrom(s, p, 0);
    if i.Some? then Some(s[i.value]) else None
  }

  /** `xs.map(f)`. */
  function Map<A, B>(xs: seq<A>, f: A -> B): (r: seq<B>)
    ensures |r| == |xs|
    ensures forall i :: 0 <= i < |xs| ==> r[i] == f(xs[i])
  {
    seq(|xs|, i requires 0 <= i < |xs| => f(xs[i]))
  }

  /** `xs.reduce((acc, x) => acc + x, 0)`: a left fold starting at zero. */
  function Sum(xs: seq<real>): real
  {
    if |xs| == 0 then 0.0 else Sum(xs[..|xs| - 1]) + xs[|xs| - 1]
  }

  lemma SumAppend(xs: seq<real>, x: real)
    ensures Sum(xs + [x]) == Sum(xs) + x
  {
    assert (xs + [x])[..|xs|] == xs;
  }

  lemma {:induction false} SumConcat(xs: seq<real>, ys: seq<real>)
    ensures Sum(xs + ys) == Sum(xs) + Sum(ys)
    decreases |ys|
  {
    if |ys| == 0 {
      assert xs + ys == xs;
    } else {
      var ys' := ys[..|ys| - 1];
      var y := ys[|ys| - 1];
      assert ys == ys' + [y];
      assert xs + ys == (xs + ys') + [y];
      SumAppend(xs + ys', y);
      SumConcat(xs, ys');
      SumAppend(ys', y);
    }
  }

  lemma {:induction false} SumNonNegative(xs: seq<real>)
    requires forall i :: 0 <= i < |xs| ==> xs[i] >= 0.0
    ensures Sum(xs) >= 0.0
    decreases |xs|
  {
    if |xs| > 0 {
      SumNonNegative(xs[..|xs| - 1]);
    }
  }

  /** The index `splice(start, 1)` actually deletes at, clamped as the
      ECMAScript algorithm does (a negative start counts from the end). */
  function SpliceStart(len: nat, start: int): (k: nat)
    ensures k <= len
    ensures 0 <= start <= len ==> k == start
    ensures start < 0 && len + start >= 0 ==> k == len + start
  {
    if start < 0 then (if len + start < 0 then 0 else len + start)
    else if start > len then len
    else start
  }

  /** A copy of `s` after `copy.splice(start, 1)`. */
  function SpliceOne<T>(s: seq<T>, start: int): (r: seq<T>)
    ensures var k := SpliceStart(|s|, start);
      if k < |s| then
        && |r| == |s| - 1
        && (forall j :: 0 <= j < k ==> r[j] == s[j])
        && (forall j :: k <= j < |r| ==> r[j] == s[j + 1])
      else r == s
  {
    var k := SpliceStart(|s|, start);
    if k < |s| then s[..k] + s[k + 1..] else s
  }

  /** `s.filter((_, i) => i !== index)`, filtering the positions one by one
      from the back; every position of a prefix is its position in `s`. */
  function WithoutIndex<T>(s: seq<T>, index: int): (r: seq<T>)
    ensures 0 <= index < |s| ==> r == s[..index] + s[index + 1..]
    ensures !(0 <= index < |s|) ==> r == s
    decreases |s|
  {
    if |s| == 0 then []
    else
      var front := WithoutIndex(s[..|s| - 1], index);
      if |s| - 1 != index then front + [s[|s| - 1]] else front
  }

  /** Both removals delete exactly the element at a valid index. */
  lemma SpliceAgreesWithFilter<T>(s: seq<T>, i: int)
    requires 0 <= i < |s|
    ensures SpliceOne(s, i) == WithoutIndex(s, i) == s[..i] + s[i + 1..]
    ensures |SpliceOne(s, i)| == |s| - 1
  {
    assert SpliceStart(|s|, i) == i;
  }

  /** Removing position `i` takes exactly one occurrence of `s[i]` away. */
  lemma RemovalDropsOneOccurrence<T>(s: seq<T>, i: int)
    requires 0 <= i < |s|
    ensures multiset(s[..i] + s[i + 1..]) + multiset{s[i]} == multiset(s)
  {
    assert s == s[..i] + [s[i]] + s[i + 1..];
  }

  /** On index -1 the two removals differ: splice drops the last element,
      filter keeps everything. */
  lemma SpliceAndFilterDifferOnMinusOne<T>(s: seq<T>)
    requires |s| > 0
    ensures SpliceOne(s, -1) == s[..|s| - 1]
    ensures WithoutIndex(s, -1) == s
  {
  }

  /** The sum of a list is the sum of a prefix plus the sum of the rest. */
  lemma {:induction false} SumSplit(xs: seq<real>, k: int)
    requires 0 <= k <= |xs|
    ensures Sum(xs) == Sum(xs[..k]) + Sum(xs[k..])
  {
    assert xs == xs[..k] + xs[k..];
    SumConcat(xs[..k], xs[k..]);
  }

  /** Extending a prefix by one element adds that element. */
  lemma {:induction false} SumPrefixStep(xs: seq<real>, i: int)
    requires 0 <= i < |xs|
    ensures Sum(xs[..i + 1]) == Sum(xs[..i]) + xs[i]
  {
    assert xs[..i + 1][..i] == xs[..i];
  }

  /** Removing a position removes exactly that summand. */
  lemma {:induction false} SumRemove(xs: seq<real>, i: int)
    requires 0 <= i < |xs|
    ensures Sum(xs[..i] + xs[i + 1..]) == Sum(xs) - xs[i]
  {
    SumConcat(xs[..i], xs[i + 1..]);
    SumSplit(xs, i + 1);
    SumPrefixStep(xs, i);
  }
}
