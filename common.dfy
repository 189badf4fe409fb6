/** Values and array primitives shared by both services: JavaScript's
    `undefined` as an option, handler outcomes, and the three
    Array.prototype methods the handlers use (find, filter, splice). */
module Common {

  /** A property that may be absent; `None` plays the part of `undefined`,
      so two absent values compare equal, as `undefined === undefined` does. */
  datatype Option<T> = None | Some(value: T)

  /** The outcome of a handler that answers with a value or an error. */
  datatype Result<T, E> = Ok(value: T) | Err(error: E)

  /** The outcome of a handler that only changes the store. */
  datatype Outcome<E> = Done | Fail(error: E)

  /** `Array.prototype.find`/`findIndex`: the index of the first element
      that satisfies `p`, or `None` when no element does. */
  function FindFirst<T>(s: seq<T>, p: T -> bool): (r: Option<nat>)
    ensures r.Some? ==> r.value < |s| && p(s[r.value])
    ensures r.Some? ==> forall j :: 0 <= j < r.value ==> !p(s[j])
    ensures r.None? <==> forall j :: 0 <= j < |s| ==> !p(s[j])
  {
    if |s| == 0 then None
    else if p(s[0]) then Some(0)
    else match FindFirst(s[1..], p)
      case None => None
      case Some(k) => Some(k + 1)
  }

  /** `Array.prototype.filter`: the elements that satisfy `p`, each as often
      as it occurs in `s`, and none other. */
  function Filter<T>(s: seq<T>, p: T -> bool): (r: seq<T>)
    ensures |r| <= |s|
    ensures forall i :: 0 <= i < |r| ==> p(r[i])
    ensures multiset(r) <= multiset(s)
    ensures forall i :: 0 <= i < |s| && p(s[i]) ==> multiset(r)[s[i]] == multiset(s)[s[i]]
  {
    if |s| == 0 then []
    else
      assert s == [s[0]] + s[1..];
      (if p(s[0]) then [s[0]] else []) + Filter(s[1..], p)
  }

  /** `r` can be obtained from `s` by deleting elements, keeping the order. */
  ghost predicate IsSubsequence<T>(r: seq<T>, s: seq<T>)
    decreases |s|
  {
    if |s| == 0 then r == []
    else IsSubsequence(r, s[1..]) || (r != [] && r[0] == s[0] && IsSubsequence(r[1..], s[1..]))
  }

  /** `filter` keeps the original order. */
  lemma {:induction false} FilterIsSubsequence<T>(s: seq<T>, p: T -> bool)
    ensures IsSubsequence(Filter(s, p), s)
  {
    if |s| > 0 {
      FilterIsSubsequence(s[1..], p);
      var r := Filter(s, p);
      if p(s[0]) {
        assert r[0] == s[0] && r[1..] == Filter(s[1..], p);
      } else {
        assert r == Filter(s[1..], p);
      }
    }
  }

  /** `filter` distributes over concatenation: filtering a longer array
      extends the earlier result without reordering it. */
  lemma {:induction false} FilterAppend<T>(a: seq<T>, b: seq<T>, p: T -> bool)
    ensures Filter(a + b, p) == Filter(a, p) + Filter(b, p)
  {
    if |a| == 0 {
      assert a + b == b;
    } else {
      var head := if p(a[0]) then [a[0]] else [];
      assert (a + b)[0] == a[0] && (a + b)[1..] == a[1..] + b;
      FilterAppend(a[1..], b, p);
      calc {
        Filter(a + b, p);
        head + Filter(a[1..] + b, p);
        head + (Filter(a[1..], p) + Filter(b, p));
        (head + Filter(a[1..], p)) + Filter(b, p);
        Filter(a, p) + Filter(b, p);
      }
    }
  }

  /** `filter` returns an empty array exactly when no element satisfies `p`. */
  lemma {:induction false} FilterEmpty<T>(s: seq<T>, p: T -> bool)
    ensures Filter(s, p) == [] <==> forall i :: 0 <= i < |s| ==> !p(s[i])
  {
    if |s| > 0 {
      FilterEmpty(s[1..], p);
      assert forall i :: 1 <= i < |s| ==> s[i] == s[1..][i - 1];
    }
  }

  /** When every element satisfies `p`, `filter` returns the whole array. */
  lemma {:induction false} FilterAll<T>(s: seq<T>, p: T -> bool)
    requires forall i :: 0 <= i < |s| ==> p(s[i])
    ensures Filter(s, p) == s
  {
    if |s| > 0 {
      FilterAll(s[1..], p);
    }
  }

  /** The index that `splice` starts at when handed an object: the object
      converts to the string "[object Object]", hence to NaN, and NaN
      converts to the integer 0. */
  const ObjectAsIndex: int := 0

  /** `Array.prototype.splice(start, 1)`, the removed element discarded: a
      negative start counts from the end (clamped at 0), and a start at or
      past the end removes nothing. */
  function SpliceOne<T>(s: seq<T>, start: int): (r: seq<T>)
    ensures start >= |s| ==> r == s
    ensures start < |s| && |s| > 0 ==> |r| == |s| - 1
    ensures 0 <= start < |s| ==> multiset(r) == multiset(s) - multiset{s[start]}
    ensures start < 0 && |s| + start >= 0 ==> multiset(r) == multiset(s) - multiset{s[|s| + start]}
    ensures start < 0 && |s| + start < 0 && |s| > 0 ==> multiset(r) == multiset(s) - multiset{s[0]}
  {
    var k := if start < 0 then (if |s| + start < 0 then 0 else |s| + start) else start;
    if k < |s| then
      assert s == s[..k] + [s[k]] + s[k + 1..];
      s[..k] + s[k + 1..]
    else s
  }

  /** Splicing at index `k` inside the array removes exactly the element at
      `k` and shifts the later ones down by one. */
  lemma SpliceOneRemovesAt<T>(s: seq<T>, k: nat)
    requires k < |s|
    ensures |SpliceOne(s, k)| == |s| - 1
    ensures forall i :: 0 <= i < k ==> SpliceOne(s, k)[i] == s[i]
    ensures forall i :: k <= i < |s| - 1 ==> SpliceOne(s, k)[i] == s[i + 1]
    ensures multiset(SpliceOne(s, k)) == multiset(s) - multiset{s[k]}
  {
    assert s == s[..k] + [s[k]] + s[k + 1..];
  }

  /** Splicing at the index an object coerces to drops the first element. */
  lemma SpliceObjectDropsFirst<T>(s: seq<T>)
    ensures |s| > 0 ==> SpliceOne(s, ObjectAsIndex) == s[1..]
    ensures |s| == 0 ==> SpliceOne(s, ObjectAsIndex) == []
  {
  }
}
