/** Order-preserving filtering and first-match search over sequences. */
module Seqs {
  import opened Wrappers

  /** The elements of `s` that satisfy `p`, in order, duplicates kept
      (a Python list comprehension `[x for x in s if p(x)]`). */
  function Filter<T>(s: seq<T>, p: T -> bool): (r: seq<T>)
    ensures |r| <= |s|
  {
    if s == [] then [] else (if p(s[0]) then [s[0]] else []) + Filter(s[1..], p)
  }

  /** Everything Filter keeps comes from `s` and satisfies `p`, and every such element is kept. */
  lemma {:induction false} FilterMember<T>(s: seq<T>, p: T -> bool, x: T)
    ensures x in Filter(s, p) <==> x in s && p(x)
  {
    if s != [] {
      FilterMember(s[1..], p, x);
      assert x in s <==> x == s[0] || x in s[1..];
    }
  }

  /** The positions, counted from `base`, of the elements of `s` that satisfy `p`. */
  function Positions<T>(s: seq<T>, p: T -> bool, base: nat): (r: seq<nat>)
    ensures |r| == |Filter(s, p)|
    ensures forall k :: 0 <= k < |r| ==> base <= r[k] < base + |s|
  {
    if s == [] then []
    else (if p(s[0]) then [base] else []) + Positions(s[1..], p, base + 1)
  }

  lemma {:induction false} PositionsPick<T>(s: seq<T>, p: T -> bool, base: nat)
    ensures forall k :: 0 <= k < |Positions(s, p, base)| ==>
      Filter(s, p)[k] == s[Positions(s, p, base)[k] - base] && p(s[Positions(s, p, base)[k] - base])
  {
    if s != [] {
      PositionsPick(s[1..], p, base + 1);
      var r', idx' := Filter(s[1..], p), Positions(s[1..], p, base + 1);
      var off := if p(s[0]) then 1 else 0;
      assert Filter(s, p) == (if p(s[0]) then [s[0]] else []) + r';
      assert Positions(s, p, base) == (if p(s[0]) then [base] else []) + idx';
      forall k | off <= k < |idx'| + off
        ensures Filter(s, p)[k] == s[Positions(s, p, base)[k] - base]
      {
        assert Filter(s, p)[k] == r'[k - off];
        assert Positions(s, p, base)[k] == idx'[k - off];
        assert r'[k - off] == s[1..][idx'[k - off] - (base + 1)];
        assert s[1..][idx'[k - off] - (base + 1)] == s[idx'[k - off] - base];
      }
    }
  }

  lemma {:induction false} PositionsIncrease<T>(s: seq<T>, p: T -> bool, base: nat)
    ensures forall k, l :: 0 <= k < l < |Positions(s, p, base)| ==>
      Positions(s, p, base)[k] < Positions(s, p, base)[l]
  {
    if s != [] {
      PositionsIncrease(s[1..], p, base + 1);
      var idx' := Positions(s[1..], p, base + 1);
      if p(s[0]) {
        assert Positions(s, p, base) == [base] + idx';
        forall k, l | 0 <= k < l < |idx'| + 1 ensures ([base] + idx')[k] < ([base] + idx')[l] {
          if k == 0 {
            assert idx'[l - 1] >= base + 1;
          } else {
            assert idx'[k - 1] < idx'[l - 1];
          }
        }
      } else {
        assert Positions(s, p, base) == idx';
      }
    }
  }

  lemma PositionsComplete<T>(s: seq<T>, p: T -> bool, base: nat)
    ensures forall i :: 0 <= i < |s| && p(s[i]) ==> base + i in Positions(s, p, base)
  {
    forall i | 0 <= i < |s| && p(s[i]) ensures base + i in Positions(s, p, base) {
      PositionAt(s, p, base, i);
    }
  }

  lemma {:induction false} PositionAt<T>(s: seq<T>, p: T -> bool, base: nat, i: nat)
    requires i < |s| && p(s[i])
    ensures base + i in Positions(s, p, base)
  {
    var rest := Positions(s[1..], p, base + 1);
    assert Positions(s, p, base) == (if p(s[0]) then [base] else []) + rest;
    if i > 0 {
      assert s[1..][i - 1] == s[i];
      PositionAt(s[1..], p, base + 1, i - 1);
      assert base + 1 + (i - 1) in rest;
    }
  }

  /** Filter keeps exactly the satisfying elements, as the in-order subsequence of
      `s` picked out by strictly increasing positions. */
  lemma FilterSelects<T>(s: seq<T>, p: T -> bool)
    ensures var r, idx := Filter(s, p), Positions(s, p, 0);
      (forall k :: 0 <= k < |idx| ==> idx[k] < |s| && r[k] == s[idx[k]] && p(s[idx[k]])) &&
      (forall k, l :: 0 <= k < l < |idx| ==> idx[k] < idx[l]) &&
      (forall i :: 0 <= i < |s| && p(s[i]) ==> i in idx)
  {
    PositionsPick(s, p, 0);
    PositionsIncrease(s, p, 0);
    PositionsComplete(s, p, 0);
  }

  lemma {:induction false} FilterConcat<T>(a: seq<T>, b: seq<T>, p: T -> bool)
    ensures Filter(a + b, p) == Filter(a, p) + Filter(b, p)
  {
    if a == [] {
      assert a + b == b;
    } else {
      var head := if p(a[0]) then [a[0]] else [];
      assert (a + b)[0] == a[0];
      assert (a + b)[1..] == a[1..] + b;
      assert Filter(a + b, p) == head + Filter(a[1..] + b, p);
      FilterConcat(a[1..], b, p);
      assert Filter(a, p) == head + Filter(a[1..], p);
    }
  }

  /** One more element at the end of a slice, as a loop over it sees it. */
  lemma FilterSnoc<T>(s: seq<T>, lo: nat, hi: nat, p: T -> bool)
    requires lo <= hi < |s|
    ensures Filter(s[lo..hi + 1], p) == Filter(s[lo..hi], p) + (if p(s[hi]) then [s[hi]] else [])
  {
    assert s[lo..hi + 1] == s[lo..hi] + [s[hi]];
    FilterConcat(s[lo..hi], [s[hi]], p);
  }

  /** The selected elements of `s[..i]` leaving out position `d`. */
  function FilterWithout<T>(s: seq<T>, d: nat, i: nat, p: T -> bool): seq<T>
    requires i <= |s|
  {
    if i <= d then Filter(s[..i], p) else Filter(s[..d], p) + Filter(s[d + 1..i], p)
  }

  lemma FilterWithoutStep<T>(s: seq<T>, d: nat, i: nat, p: T -> bool)
    requires i < |s|
    ensures FilterWithout(s, d, i + 1, p) ==
      FilterWithout(s, d, i, p) + (if i != d && p(s[i]) then [s[i]] else [])
  {
    if i < d {
      FilterSnoc(s, 0, i, p);
    } else if i == d {
      assert s[d + 1..i + 1] == [];
    } else {
      FilterSnoc(s, d + 1, i, p);
      var a, b := Filter(s[..d], p), Filter(s[d + 1..i], p);
      assert (a + b) + (if p(s[i]) then [s[i]] else []) == a + (b + (if p(s[i]) then [s[i]] else []));
    }
  }

  lemma FilterWithoutAll<T>(s: seq<T>, d: nat, p: T -> bool)
    ensures FilterWithout(s, d, |s|, p) ==
      if d < |s| then Filter(s[..d], p) + Filter(s[d + 1..], p) else Filter(s, p)
  {
    assert s[..|s|] == s;
    if d < |s| {
      assert s[d + 1..|s|] == s[d + 1..];
    }
  }

  /** One more element at the end of the sequence. */
  lemma FilterAppend<T>(s: seq<T>, x: T, p: T -> bool)
    ensures Filter(s + [x], p) == Filter(s, p) + (if p(x) then [x] else [])
  {
    FilterConcat(s, [x], p);
    assert Filter([x], p) == (if p(x) then [x] else []) + Filter([], p);
  }

  /** Filtering around one satisfying position: the element at `d` and the selections
      on either side make up the whole selection. */
  lemma FilterAround<T>(s: seq<T>, d: nat, p: T -> bool)
    requires d < |s| && p(s[d])
    ensures multiset(Filter(s, p)) == multiset(Filter(s[..d], p) + Filter(s[d + 1..], p)) + multiset{s[d]}
  {
    assert s == s[..d] + ([s[d]] + s[d + 1..]);
    FilterConcat(s[..d], [s[d]] + s[d + 1..], p);
    FilterConcat([s[d]], s[d + 1..], p);
    assert Filter([s[d]], p) == [s[d]];
  }

  /** Two exclusive tests that together make up a third split its selection in two. */
  lemma {:induction false} FilterUnion<T>(s: seq<T>, p: T -> bool, q: T -> bool, r: T -> bool)
    requires forall x :: r(x) <==> p(x) || q(x)
    requires forall x :: !(p(x) && q(x))
    ensures multiset(Filter(s, r)) == multiset(Filter(s, p)) + multiset(Filter(s, q))
  {
    if s != [] {
      FilterUnion(s[1..], p, q, r);
    }
  }

  /** Filtering with two tests that agree on the elements of `s` gives the same list. */
  lemma {:induction false} FilterAgree<T>(s: seq<T>, p: T -> bool, q: T -> bool)
    requires forall x :: x in s ==> p(x) == q(x)
    ensures Filter(s, p) == Filter(s, q)
  {
    if s != [] {
      FilterAgree(s[1..], p, q);
    }
  }

  /** The first position whose element satisfies `p` (Python's `next(x for x in s if p(x))`). */
  function FirstIndex<T>(s: seq<T>, p: T -> bool): (r: Option<nat>)
    ensures r.Some? ==> r.value < |s| && p(s[r.value]) && forall j :: 0 <= j < r.value ==> !p(s[j])
    ensures r.None? ==> forall j :: 0 <= j < |s| ==> !p(s[j])
  {
    if s == [] then None
    else if p(s[0]) then Some(0)
    else match FirstIndex(s[1..], p)
      case None => None
      case Some(k) => Some(k + 1)
  }

  /** Searching with two tests that agree on the elements of `s` finds the same position. */
  lemma FirstIndexAgree<T>(s: seq<T>, p: T -> bool, q: T -> bool)
    requires forall x :: x in s ==> p(x) == q(x)
    ensures FirstIndex(s, p) == FirstIndex(s, q)
  {
    var a, b := FirstIndex(s, p), FirstIndex(s, q);
    if a.Some? && b.Some? {
      assert !(a.value < b.value) && !(b.value < a.value);
    }
  }

  predicate Distinct<T(==)>(s: seq<T>) {
    forall i, j :: 0 <= i < j < |s| ==> s[i] != s[j]
  }

  lemma DistinctSnoc<T>(s: seq<T>, x: T)
    requires Distinct(s) && x !in s
    ensures Distinct(s + [x])
  {
    forall i, j | 0 <= i < j < |s| + 1 ensures (s + [x])[i] != (s + [x])[j] {
      assert (s + [x])[i] == s[i];
      if j < |s| {
        assert (s + [x])[j] == s[j];
      }
    }
  }

  lemma DistinctConcat<T>(a: seq<T>, b: seq<T>)
    requires Distinct(a) && Distinct(b) && forall x :: x in b ==> x !in a
    ensures Distinct(a + b)
  {
    forall i, j | 0 <= i < j < |a + b| ensures (a + b)[i] != (a + b)[j] {
      if j < |a| {
        assert (a + b)[i] == a[i] && (a + b)[j] == a[j];
      } else if i >= |a| {
        assert (a + b)[i] == b[i - |a|] && (a + b)[j] == b[j - |a|];
      } else {
        assert (a + b)[i] == a[i] && (a + b)[j] == b[j - |a|];
        assert b[j - |a|] in b;
      }
    }
  }
}
