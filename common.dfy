/**
 * Small generic helpers shared by the catalog, the quotation form and the
 * invoice form: an option type for lookups that may miss, the `|| 0`
 * fallback for a missing or unparseable number, removal of one position
 * (`filter((_, i) => i !== index)`), and the left-to-right sum that
 * `reduce((sum, x) => sum + x, 0)` computes.
 */
module Common {

  /** A lookup that may miss: `undefined` / `null` in the source. */
  datatype Option<+T> = None | Some(value: T)

  /** `x || 0` on a number: `null`, `undefined` and NaN count as 0. */
  function OrZero(x: Option<real>): real {
    match x
    case None => 0.0
    case Some(v) => v
  }

  /** No element occurs twice. */
  predicate NoDuplicates<T(==)>(s: seq<T>) {
    forall i, j :: 0 <= i < j < |s| ==> s[i] != s[j]
  }

  /** `s` without position `i`; `s` itself when `i` is not a position of `s`. */
  function RemoveAt<T>(s: seq<T>, i: nat): (r: seq<T>)
    ensures i < |s| ==> |r| == |s| - 1
    ensures i < |s| ==> forall j :: 0 <= j < i ==> r[j] == s[j]
    ensures i < |s| ==> forall j :: i <= j < |r| ==> r[j] == s[j + 1]
    ensures i >= |s| ==> r == s
  {
    if i < |s| then s[..i] + s[i + 1..] else s
  }

  /** Every element of `s` that is not `x`, in the original order. */
  function RemoveAll<T(==,!new)>(s: seq<T>, x: T): (r: seq<T>)
    ensures forall y :: y in r <==> y in s && y != x
    ensures |r| <= |s|
    ensures x !in s ==> r == s
    ensures NoDuplicates(s) ==> NoDuplicates(r)
  {
    if |s| == 0 then []
    else
      assert s == [s[0]] + s[1..];
      if s[0] == x then RemoveAll(s[1..], x)
      else
        var rest := RemoveAll(s[1..], x);
        assert forall k :: 0 < k < |[s[0]] + rest| ==> ([s[0]] + rest)[k] == rest[k - 1];
        assert NoDuplicates(s) ==> s[0] !in rest;
        [s[0]] + rest
  }

  /** Removing every `x` takes out all its copies and keeps every other element with its multiplicity. */
  lemma {:induction false} RemoveAllMultiset<T(!new)>(s: seq<T>, x: T)
    ensures multiset(RemoveAll(s, x)) == multiset(s)[x := 0]
    decreases |s|
  {
    if |s| > 0 {
      assert s == [s[0]] + s[1..];
      assert multiset(s) == multiset{s[0]} + multiset(s[1..]);
      RemoveAllMultiset(s[1..], x);
      if s[0] != x {
        assert RemoveAll(s, x) == [s[0]] + RemoveAll(s[1..], x);
        assert multiset(RemoveAll(s, x)) == multiset{s[0]} + multiset(RemoveAll(s[1..], x));
      }
    }
  }

  /** Removing every `x` from a concatenation removes it from each part, keeping their order. */
  lemma {:induction false} RemoveAllConcat<T(!new)>(a: seq<T>, b: seq<T>, x: T)
    ensures RemoveAll(a + b, x) == RemoveAll(a, x) + RemoveAll(b, x)
    decreases |a|
  {
    if |a| == 0 {
      assert a + b == b;
    } else {
      assert (a + b)[0] == a[0];
      assert (a + b)[1..] == a[1..] + b;
      RemoveAllConcat(a[1..], b, x);
    }
  }

  /** Appending `x` and then removing every `x` is removing every `x`. */
  lemma {:induction false} RemoveAllAppend<T(!new)>(s: seq<T>, x: T)
    ensures RemoveAll(s + [x], x) == RemoveAll(s, x)
    decreases |s|
  {
    if |s| == 0 {
      assert RemoveAll([x], x) == RemoveAll([x][1..], x);
    } else {
      assert (s + [x])[0] == s[0];
      assert (s + [x])[1..] == s[1..] + [x];
      RemoveAllAppend(s[1..], x);
    }
  }

  /** Left-to-right sum, the value of `xs.reduce((sum, x) => sum + x, 0)`. */
  function Sum(xs: seq<real>): real
  {
    if |xs| == 0 then 0.0 else Sum(xs[..|xs| - 1]) + xs[|xs| - 1]
  }

  lemma SumAppend(xs: seq<real>, x: real)
    ensures Sum(xs + [x]) == Sum(xs) + x
  {
    assert (xs + [x])[..|xs|] == xs;
  }

  lemma {:induction false} SumConcat(xs: seq<real>, ys: seq<real>)
    ensures Sum(xs + ys) == Sum(xs) + Sum(ys)
    decreases |ys|
  {
    if |ys| == 0 {
      assert xs + ys == xs;
    } else {
      var init := ys[..|ys| - 1];
      assert xs + ys == (xs + init) + [ys[|ys| - 1]];
      SumAppend(xs + init, ys[|ys| - 1]);
      SumConcat(xs, init);
      assert ys == init + [ys[|ys| - 1]];
      SumAppend(init, ys[|ys| - 1]);
    }
  }

  /** Overwriting one position changes the sum by the difference. */
  lemma SumUpdate(xs: seq<real>, i: nat, x: real)
    requires i < |xs|
    ensures Sum(xs[i := x]) == Sum(xs) - xs[i] + x
  {
    assert xs == xs[..i] + [xs[i]] + xs[i + 1..];
    assert xs[i := x] == xs[..i] + [x] + xs[i + 1..];
    SumConcat(xs[..i] + [xs[i]], xs[i + 1..]);
    SumConcat(xs[..i] + [x], xs[i + 1..]);
    SumAppend(xs[..i], xs[i]);
    SumAppend(xs[..i], x);
  }

  /** Removing one position takes exactly that element out of the sum. */
  lemma SumRemoveAt(xs: seq<real>, i: nat)
    requires i < |xs|
    ensures Sum(RemoveAt(xs, i)) == Sum(xs) - xs[i]
  {
    SumSplit(xs, i);
    assert RemoveAt(xs, i) == xs[..i] + xs[i + 1..];
    SumConcat(xs[..i], xs[i + 1..]);
  }

  /** The sum around one position: what precedes it, the element, what follows it. */
  lemma SumSplit(xs: seq<real>, i: nat)
    requires i < |xs|
    ensures Sum(xs) == Sum(xs[..i]) + xs[i] + Sum(xs[i + 1..])
  {
    assert xs == (xs[..i] + [xs[i]]) + xs[i + 1..];
    SumConcat(xs[..i] + [xs[i]], xs[i + 1..]);
    SumAppend(xs[..i], xs[i]);
  }

  /** A sum of non-negative terms is non-negative. */
  lemma {:induction false} SumNonNegative(xs: seq<real>)
    requires forall i :: 0 <= i < |xs| ==> xs[i] >= 0.0
    ensures Sum(xs) >= 0.0
    decreases |xs|
  {
    if |xs| > 0 {
      SumNonNegative(xs[..|xs| - 1]);
    }
  }
}
