/** Order-preserving list transforms shared by the pages: `Array.prototype.filter`,
    `map` with a replacement, `slice(0, n)` and prepend. */
module Seqs {

  /** `a` can be obtained from `b` by deleting elements, keeping order. */
  predicate IsSubseq<T(==)>(a: seq<T>, b: seq<T>)
    decreases |b|
  {
    if a == [] then true
    else if b == [] then false
    else if a[0] == b[0] then IsSubseq(a[1..], b[1..])
    else IsSubseq(a, b[1..])
  }

  /** `xs.filter(p)`. */
  function Filter<T(==)>(xs: seq<T>, p: T -> bool): (r: seq<T>)
    ensures |r| <= |xs|
    ensures forall i :: 0 <= i < |r| ==> r[i] in xs && p(r[i])
    ensures forall i :: 0 <= i < |xs| && p(xs[i]) ==> xs[i] in r
    ensures IsSubseq(r, xs)
  {
    if xs == [] then []
    else
      var rest := Filter(xs[1..], p);
      assert xs == [xs[0]] + xs[1..];
      if p(xs[0]) then
        assert ([xs[0]] + rest)[1..] == rest;
        [xs[0]] + rest
      else
        assert rest != [] ==> rest[0] in rest;
        rest
  }

  /** Number of elements satisfying `p`. */
  function CountIf<T>(xs: seq<T>, p: T -> bool): (n: nat)
    ensures n <= |xs|
  {
    if xs == [] then 0 else (if p(xs[0]) then 1 else 0) + CountIf(xs[1..], p)
  }

  /** Filtering keeps exactly the elements that satisfy `p`. */
  lemma {:induction false} FilterLength<T>(xs: seq<T>, p: T -> bool)
    ensures |Filter(xs, p)| == CountIf(xs, p)
  {
    if xs != [] {
      FilterLength(xs[1..], p);
    }
  }

  /** Filtering keeps each element satisfying `p` as many times as it occurs, and drops
      every other element. */
  lemma {:induction false} FilterMultiset<T>(xs: seq<T>, p: T -> bool)
    ensures forall x :: multiset(Filter(xs, p))[x] == if p(x) then multiset(xs)[x] else 0
  {
    if xs != [] {
      FilterMultiset(xs[1..], p);
      assert xs == [xs[0]] + xs[1..];
      assert multiset(xs) == multiset([xs[0]]) + multiset(xs[1..]);
      if p(xs[0]) {
        var r := Filter(xs, p);
        assert r == [xs[0]] + Filter(xs[1..], p);
        assert multiset(r) == multiset([xs[0]]) + multiset(Filter(xs[1..], p));
      }
    }
  }

  /** Filtering with a predicate that every element satisfies changes nothing. */
  lemma {:induction false} FilterAll<T>(xs: seq<T>, p: T -> bool)
    requires forall i :: 0 <= i < |xs| ==> p(xs[i])
    ensures Filter(xs, p) == xs
  {
    if xs != [] {
      FilterAll(xs[1..], p);
    }
  }

  /** No element satisfies `p` exactly when the count is zero. */
  lemma {:induction false} CountIfZero<T>(xs: seq<T>, p: T -> bool)
    ensures CountIf(xs, p) == 0 <==> forall i :: 0 <= i < |xs| ==> !p(xs[i])
  {
    if xs != [] {
      CountIfZero(xs[1..], p);
      assert forall i :: 1 <= i < |xs| ==> xs[i] == xs[1..][i - 1];
    }
  }

  /** Every element that `matches` picks out replaced by `y`, the rest kept in place. */
  function ReplaceWhere<T>(xs: seq<T>, matches: T -> bool, y: T): (r: seq<T>)
    ensures |r| == |xs|
    ensures forall i :: 0 <= i < |xs| ==> r[i] == if matches(xs[i]) then y else xs[i]
  {
    seq(|xs|, i requires 0 <= i < |xs| => if matches(xs[i]) then y else xs[i])
  }

  /** `xs.slice(0, n)`. */
  function Take<T>(xs: seq<T>, n: nat): (r: seq<T>)
    ensures |r| == if |xs| < n then |xs| else n
    ensures forall i :: 0 <= i < |r| ==> r[i] == xs[i]
  {
    if |xs| < n then xs else xs[..n]
  }

  /** `xs.filter((_, i) => i !== index)`: every position except `index`. */
  function RemoveAt<T>(xs: seq<T>, index: int): (r: seq<T>)
    ensures 0 <= index < |xs| ==> |r| == |xs| - 1
    ensures 0 <= index < |xs| ==> forall i :: 0 <= i < |r| ==> r[i] == if i < index then xs[i] else xs[i + 1]
    ensures !(0 <= index < |xs|) ==> r == xs
  {
    if 0 <= index < |xs| then xs[..index] + xs[index + 1..] else xs
  }

  /** `xs.filter(x => key(x) !== id)`: drop every element with that key. */
  function RemoveKey<T(==,!new)>(xs: seq<T>, key: T -> string, id: string): (r: seq<T>)
    ensures |r| <= |xs|
    ensures forall i :: 0 <= i < |r| ==> key(r[i]) != id && r[i] in xs
    ensures forall i :: 0 <= i < |xs| && key(xs[i]) != id ==> xs[i] in r
    ensures IsSubseq(r, xs)
    ensures forall x :: multiset(r)[x] == if key(x) != id then multiset(xs)[x] else 0
  {
    var keep := (x: T) => key(x) != id;
    FilterMultiset(xs, keep);
    Filter(xs, keep)
  }

  /** Every element whose `key` equals `id` replaced by `y`, the rest kept in place; the
      pages use it as `xs.map(x => x._id === id ? y : x)`. */
  function ReplaceKey<T>(xs: seq<T>, key: T -> string, id: string, y: T): (r: seq<T>)
    ensures |r| == |xs|
    ensures forall i :: 0 <= i < |xs| && key(xs[i]) == id ==> r[i] == y
    ensures forall i :: 0 <= i < |xs| && key(xs[i]) != id ==> r[i] == xs[i]
  {
    ReplaceWhere(xs, x => key(x) == id, y)
  }

  /** Removing by the key of an element just put in front of a list where that key
      does not occur gives the list back. */
  lemma RemoveKeyUndoesPrepend<T(!new)>(x: T, xs: seq<T>, key: T -> string)
    requires forall i :: 0 <= i < |xs| ==> key(xs[i]) != key(x)
    ensures RemoveKey([x] + xs, key, key(x)) == xs
  {
    assert ([x] + xs)[1..] == xs;
    FilterAll(xs, y => key(y) != key(x));
  }

  /** Replacing the elements with a key by one carrying the same key, then removing
      that key, is the same as only removing it. */
  lemma {:induction false} RemoveKeyAfterReplace<T(!new)>(xs: seq<T>, key: T -> string, id: string, y: T)
    requires key(y) == id
    ensures RemoveKey(ReplaceKey(xs, key, id, y), key, id) == RemoveKey(xs, key, id)
  {
    if xs != [] {
      RemoveKeyAfterReplace(xs[1..], key, id, y);
      var r := ReplaceKey(xs, key, id, y);
      assert r[1..] == ReplaceKey(xs[1..], key, id, y);
    }
  }
}
