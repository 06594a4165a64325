/**
  * The array operations the components use on their lists: `filter` on a
  * predicate, `filter((_, i) => i !== index)` to drop one position, and
  * `map((x, i) => i === index ? edit(x) : x)` to rewrite one position.
  */
module Seqs {

  /** `s` occurs in `t` in the same order, possibly with other elements between. */
  predicate IsSubsequence<T(==)>(s: seq<T>, t: seq<T>)
    decreases |t|
  {
    if t == [] then s == []
    else (s != [] && s[0] == t[0] && IsSubsequence(s[1..], t[1..])) || IsSubsequence(s, t[1..])
  }

  /** No element occurs twice. */
  predicate Distinct<T(==)>(s: seq<T>) {
    forall i, j :: 0 <= i < j < |s| ==> s[i] != s[j]
  }

  /** `Array.prototype.filter`: the elements satisfying `p`, in their original order. */
  function Filter<T(==)>(s: seq<T>, p: T -> bool): (r: seq<T>)
    ensures |r| <= |s|
    ensures forall k :: 0 <= k < |r| ==> r[k] in s && p(r[k])
    ensures forall k :: 0 <= k < |s| && p(s[k]) ==> s[k] in r
    ensures IsSubsequence(r, s)
  {
    if s == [] then []
    else if p(s[0]) then [s[0]] + Filter(s[1..], p)
    else Filter(s[1..], p)
  }

  /** `filter` keeps each element satisfying `p` as often as it occurs, and no other element. */
  lemma {:induction false} FilterMultiplicity<T>(s: seq<T>, p: T -> bool)
    ensures forall x :: x in s ==> multiset(Filter(s, p))[x] == if p(x) then multiset(s)[x] else 0
  {
    if s != [] {
      FilterMultiplicity(s[1..], p);
      assert s == [s[0]] + s[1..];
      forall x | x in s ensures multiset(Filter(s, p))[x] == if p(x) then multiset(s)[x] else 0 {
        if x !in s[1..] {
          assert x !in Filter(s[1..], p);
        }
      }
    }
  }

  /** Filtering with a predicate every element satisfies keeps the whole list. */
  lemma {:induction false} FilterKeepsAll<T>(s: seq<T>, p: T -> bool)
    requires forall x :: x in s ==> p(x)
    ensures Filter(s, p) == s
  {
    if s != [] {
      assert s[0] in s;
      forall x | x in s[1..] ensures p(x) { assert x in s; }
      FilterKeepsAll(s[1..], p);
    }
  }

  /** Two filters with predicates no element satisfies together select at most `|s|` elements between them. */
  lemma {:induction false} FilterDisjointCount<T>(s: seq<T>, p: T -> bool, q: T -> bool)
    requires forall x :: !(p(x) && q(x))
    ensures |Filter(s, p)| + |Filter(s, q)| <= |s|
  {
    if s != [] {
      FilterDisjointCount(s[1..], p, q);
    }
  }

  /** Two filters whose predicates disagree on every element split the list exactly. */
  lemma {:induction false} FilterComplementCount<T>(s: seq<T>, p: T -> bool, q: T -> bool)
    requires forall k :: 0 <= k < |s| ==> q(s[k]) == !p(s[k])
    ensures |Filter(s, p)| + |Filter(s, q)| == |s|
  {
    if s != [] {
      assert q(s[0]) == !p(s[0]);
      forall k | 0 <= k < |s[1..]| ensures q(s[1..][k]) == !p(s[1..][k]) {
        assert s[1..][k] == s[k + 1];
      }
      FilterComplementCount(s[1..], p, q);
    }
  }

  /** `filter((_, i) => i !== index)`: drops position `index` when there is one. */
  function RemoveAt<T>(s: seq<T>, index: int): (r: seq<T>)
    ensures 0 <= index < |s| ==> |r| == |s| - 1
    ensures 0 <= index < |s| ==> forall j :: 0 <= j < index ==> r[j] == s[j]
    ensures 0 <= index < |s| ==> forall j :: index <= j < |r| ==> r[j] == s[j + 1]
    ensures !(0 <= index < |s|) ==> r == s
  {
    if s == [] then []
    else RemoveAt(s[..|s| - 1], index) + (if index == |s| - 1 then [] else [s[|s| - 1]])
  }

  /** Removing a position from a list without repetitions leaves a list without repetitions. */
  lemma RemoveAtDistinct<T>(s: seq<T>, index: int)
    requires Distinct(s)
    ensures Distinct(RemoveAt(s, index))
  {
    var r := RemoveAt(s, index);
    if 0 <= index < |s| {
      forall i, j | 0 <= i < j < |r| ensures r[i] != r[j] {
        var i' := if i < index then i else i + 1;
        var j' := if j < index then j else j + 1;
        assert r[i] == s[i'] && r[j] == s[j'] && i' < j';
      }
    }
  }

  /** `map((x, i) => i === index ? edit(x) : x)`: rewrites position `index` only. */
  function UpdateAt<T>(s: seq<T>, index: int, edit: T -> T): (r: seq<T>)
    ensures |r| == |s|
    ensures forall j :: 0 <= j < |s| ==> r[j] == if j == index then edit(s[j]) else s[j]
    ensures !(0 <= index < |s|) ==> r == s
  {
    if s == [] then []
    else UpdateAt(s[..|s| - 1], index, edit) + [if index == |s| - 1 then edit(s[|s| - 1]) else s[|s| - 1]]
  }

  /** The concatenation of a list of lists. */
  function Concat<T>(ss: seq<seq<T>>): (r: seq<T>)
  {
    if ss == [] then [] else ss[0] + Concat(ss[1..])
  }
}
