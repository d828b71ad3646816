/** Array operations the source uses on its collections: `filter`, `splice(i, 1)`,
    and the subsequence relation that states order preservation. */
module Seqs {

  /** `s.filter(p)`: the elements satisfying `p`, in their original order. */
  function Filter<T>(s: seq<T>, p: T -> bool): (r: seq<T>)
    ensures |r| <= |s|
    decreases |s|
  {
    if s == [] then [] else (if p(s[0]) then [s[0]] else []) + Filter(s[1..], p)
  }

  /** The filter holds exactly the elements of `s` satisfying `p`. */
  lemma {:induction false} FilterContents<T>(s: seq<T>, p: T -> bool)
    ensures forall i :: 0 <= i < |Filter(s, p)| ==> Filter(s, p)[i] in s && p(Filter(s, p)[i])
    ensures forall i :: 0 <= i < |s| && p(s[i]) ==> s[i] in Filter(s, p)
    decreases |s|
  {
    if s != [] {
      FilterContents(s[1..], p);
      var head := if p(s[0]) then [s[0]] else [];
      assert Filter(s, p) == head + Filter(s[1..], p);
      forall i | 0 <= i < |s| && p(s[i])
        ensures s[i] in Filter(s, p)
      {
        if i > 0 {
          assert s[i] == s[1..][i - 1];
        }
      }
    }
  }

  /** Filtering a sequence with a first element decides that element, then filters the rest. */
  lemma FilterCons<T>(x: T, s: seq<T>, p: T -> bool)
    ensures Filter([x] + s, p) == (if p(x) then [x] else []) + Filter(s, p)
  {
    assert ([x] + s)[1..] == s;
  }

  /** Filtering `[x] + s` when `x` is dropped. */
  lemma FilterSkip<T>(x: T, s: seq<T>, p: T -> bool, r: seq<T>)
    requires !p(x) && Filter(s, p) == r
    ensures Filter([x] + s, p) == r
  {
    FilterCons(x, s, p);
  }

  /** Filtering `[x] + s` when `x` is kept. */
  lemma FilterKeep<T>(x: T, s: seq<T>, p: T -> bool, r: seq<T>)
    requires p(x) && Filter(s, p) == r
    ensures Filter([x] + s, p) == [x] + r
  {
    FilterCons(x, s, p);
  }

  /** A filter of five elements that keeps the first, third and fifth. */
  lemma FilterOfFive<T>(a: T, b: T, c: T, d: T, e: T, p: T -> bool)
    requires p(a) && !p(b) && p(c) && !p(d) && p(e)
    ensures Filter([a, b, c, d, e], p) == [a, c, e]
  {
    FilterKeep(e, [], p, []);
    FilterSkip(d, [e], p, [e]);
    FilterKeep(c, [d] + [e], p, [e]);
    FilterSkip(b, [c] + ([d] + [e]), p, [c] + [e]);
    FilterKeep(a, [b] + ([c] + ([d] + [e])), p, [c] + [e]);
    assert [a, b, c, d, e] == [a] + ([b] + ([c] + ([d] + [e])));
    assert [a, c, e] == [a] + ([c] + [e]);
  }

  /** `a` is `b` with some elements left out, the rest in the same order. */
  ghost predicate IsSubsequence<T>(a: seq<T>, b: seq<T>)
    decreases |b|
  {
    if a == [] then true
    else if b == [] then false
    else (a[0] == b[0] && IsSubsequence(a[1..], b[1..])) || IsSubsequence(a, b[1..])
  }

  lemma {:induction false} SubsequenceOfSelf<T>(s: seq<T>)
    ensures IsSubsequence(s, s)
    decreases |s|
  {
    if s != [] {
      SubsequenceOfSelf(s[1..]);
    }
  }

  /** A filter keeps its survivors in their original order. */
  lemma {:induction false} FilterIsSubsequence<T>(s: seq<T>, p: T -> bool)
    ensures IsSubsequence(Filter(s, p), s)
    decreases |s|
  {
    if s != [] {
      FilterIsSubsequence(s[1..], p);
      if p(s[0]) {
        assert Filter(s, p) == [s[0]] + Filter(s[1..], p);
        assert Filter(s, p)[1..] == Filter(s[1..], p);
      } else {
        assert Filter(s, p) == Filter(s[1..], p);
      }
    }
  }

  /** A filter whose predicate holds of every element returns the whole sequence. */
  lemma {:induction false} FilterKeepsAll<T>(s: seq<T>, p: T -> bool)
    requires forall i :: 0 <= i < |s| ==> p(s[i])
    ensures Filter(s, p) == s
    decreases |s|
  {
    if s != [] {
      FilterKeepsAll(s[1..], p);
    }
  }

  /** A filter whose predicate holds of no element returns nothing. */
  lemma {:induction false} FilterKeepsNone<T>(s: seq<T>, p: T -> bool)
    requires forall i :: 0 <= i < |s| ==> !p(s[i])
    ensures Filter(s, p) == []
    decreases |s|
  {
    if s != [] {
      FilterKeepsNone(s[1..], p);
    }
  }

  /** A weaker predicate keeps at least as many elements. */
  lemma {:induction false} FilterWeakerKeepsMore<T>(s: seq<T>, p: T -> bool, q: T -> bool)
    requires forall i :: 0 <= i < |s| ==> p(s[i]) ==> q(s[i])
    ensures |Filter(s, p)| <= |Filter(s, q)|
    decreases |s|
  {
    if s != [] {
      FilterWeakerKeepsMore(s[1..], p, q);
    }
  }

  /** Filters by two predicates that never both hold keep, between them, as many
      elements as the filter by their disjunction. */
  lemma {:induction false} FilterSplit<T>(s: seq<T>, p: T -> bool, q: T -> bool, r: T -> bool)
    requires forall i :: 0 <= i < |s| ==> (r(s[i]) <==> p(s[i]) || q(s[i]))
    requires forall i :: 0 <= i < |s| ==> !(p(s[i]) && q(s[i]))
    ensures |Filter(s, p)| + |Filter(s, q)| == |Filter(s, r)|
    decreases |s|
  {
    if s != [] {
      FilterSplit(s[1..], p, q, r);
    }
  }

  /** Filtering a concatenation filters each part. */
  lemma {:induction false} FilterAppend<T>(a: seq<T>, b: seq<T>, p: T -> bool)
    ensures Filter(a + b, p) == Filter(a, p) + Filter(b, p)
    decreases |a|
  {
    if a != [] {
      FilterAppend(a[1..], b, p);
      assert (a + b)[1..] == a[1..] + b;
    } else {
      assert a + b == b;
    }
  }

  /** `s.splice(i, 1)`: the element at `i` removed. */
  function RemoveAt<T>(s: seq<T>, i: nat): seq<T>
    requires i < |s|
  {
    s[..i] + s[i + 1..]
  }

  /** Removing one element keeps the others, in order: those before `i` in
      place, those after it shifted down by one. */
  lemma RemoveAtShifts<T>(s: seq<T>, i: nat)
    requires i < |s|
    ensures |RemoveAt(s, i)| == |s| - 1
    ensures forall j :: 0 <= j < i ==> RemoveAt(s, i)[j] == s[j]
    ensures forall j :: i <= j < |s| - 1 ==> RemoveAt(s, i)[j] == s[j + 1]
  {
  }

  /** Removing one element leaves a subsequence. */
  lemma {:induction false} RemoveAtIsSubsequence<T>(s: seq<T>, i: nat)
    requires i < |s|
    ensures IsSubsequence(RemoveAt(s, i), s)
    decreases i
  {
    if i == 0 {
      assert RemoveAt(s, 0) == s[1..];
      SubsequenceOfSelf(s[1..]);
      if s[1..] != [] {
        assert IsSubsequence(s[1..], s[1..]);
      }
    } else {
      RemoveAtIsSubsequence(s[1..], i - 1);
      assert RemoveAt(s, i)[0] == s[0];
      assert RemoveAt(s, i)[1..] == RemoveAt(s[1..], i - 1);
    }
  }

  /** When exactly one element fails `keep`, filtering by `keep` is the same as
      splicing that element out. */
  lemma FilterRemovesSingle<T>(s: seq<T>, keep: T -> bool, i: nat)
    requires i < |s|
    requires !keep(s[i])
    requires forall j :: 0 <= j < |s| && j != i ==> keep(s[j])
    ensures Filter(s, keep) == RemoveAt(s, i)
  {
    FilterIgnoresRemoved(s, keep, i);
    RemoveAtShifts(s, i);
    FilterKeepsAll(RemoveAt(s, i), keep);
  }

  /** Splicing out an element that fails `keep` does not change the filter by `keep`. */
  lemma FilterIgnoresRemoved<T>(s: seq<T>, keep: T -> bool, i: nat)
    requires i < |s| && !keep(s[i])
    ensures Filter(RemoveAt(s, i), keep) == Filter(s, keep)
  {
    var a, b := s[..i], s[i + 1..];
    var head := a + [s[i]];
    assert s == head + b;
    FilterAppend(head, b, keep);
    FilterDropsLast(a, s[i], keep);
    FilterAppend(a, b, keep);
  }

  /** An element that fails `keep` at the end adds nothing to the filter. */
  lemma FilterDropsLast<T>(a: seq<T>, x: T, keep: T -> bool)
    requires !keep(x)
    ensures Filter(a + [x], keep) == Filter(a, keep)
  {
    FilterAppend(a, [x], keep);
    assert Filter([x], keep) == [] by {
      assert [x][1..] == [];
    }
  }

  /** When two elements fail `keep`, filtering by `keep` drops at least two. */
  lemma {:induction false} FilterDropsBoth<T>(s: seq<T>, keep: T -> bool, i: nat, j: nat)
    requires i < j < |s|
    requires !keep(s[i]) && !keep(s[j])
    ensures |Filter(s, keep)| <= |s| - 2
    decreases |s|
  {
    if i == 0 {
      assert Filter(s, keep) == Filter(s[1..], keep);
      CountDropsOne(s[1..], keep, j - 1);
    } else {
      FilterDropsBoth(s[1..], keep, i - 1, j - 1);
    }
  }

  lemma {:induction false} CountDropsOne<T>(s: seq<T>, keep: T -> bool, j: nat)
    requires j < |s| && !keep(s[j])
    ensures |Filter(s, keep)| <= |s| - 1
    decreases |s|
  {
    if j == 0 {
      assert Filter(s, keep) == Filter(s[1..], keep);
    } else {
      CountDropsOne(s[1..], keep, j - 1);
    }
  }
}
