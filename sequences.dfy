/**
 * Order-preserving selection and first-seen grouping over sequences: the
 * shape shared by `Array.prototype.filter`, the grouping reduce of the menu
 * page and the append loops of the Python services. Everything recurses on
 * the LAST element, the way a left-to-right loop or reduce builds its result.
 */
module Sequences {

  /** `s.filter(p)`: the elements satisfying `p`, in their original order. */
  function Filter<T(!new)>(s: seq<T>, p: T -> bool): (r: seq<T>)
    ensures |r| <= |s|
    ensures forall x :: x in r <==> x in s && p(x)
    ensures forall i | 0 <= i < |r| :: p(r[i])
  {
    if s == [] then []
    else Filter(s[..|s| - 1], p) + (if p(s[|s| - 1]) then [s[|s| - 1]] else [])
  }

  /** `a` can be obtained from `b` by deleting elements (order kept). */
  predicate IsSubsequence<T(==)>(a: seq<T>, b: seq<T>)
  {
    a == [] ||
    (b != [] &&
      if a[|a| - 1] == b[|b| - 1] then IsSubsequence(a[..|a| - 1], b[..|b| - 1])
      else IsSubsequence(a, b[..|b| - 1]))
  }

  /** Every sequence is a subsequence of itself. */
  lemma {:induction false} SubsequenceReflexive<T>(s: seq<T>)
    ensures IsSubsequence(s, s)
  {
    if s != [] {
      SubsequenceReflexive(s[..|s| - 1]);
    }
  }

  /** Appending the same element to both sides keeps the relation. */
  lemma {:induction false} SubsequenceOfPrefix<T>(a: seq<T>, b: seq<T>, x: T)
    requires IsSubsequence(a, b)
    ensures IsSubsequence(a, b + [x])
    decreases |b|, 1
  {
    if a != [] {
      assert (b + [x])[..|b|] == b;
      if a[|a| - 1] == x {
        // greedy matching pairs the last elements; a[..|a|-1] embeds into b since a does
        SubsequenceDropLast(a, b);
      }
    }
  }

  /** Dropping the last element of the smaller side keeps the relation. */
  lemma {:induction false} SubsequenceDropLast<T>(a: seq<T>, b: seq<T>)
    requires a != [] && IsSubsequence(a, b)
    ensures IsSubsequence(a[..|a| - 1], b)
    decreases |b|, 0
  {
    var a' := a[..|a| - 1];
    if a' != [] {
      if a[|a| - 1] == b[|b| - 1] {
        SubsequenceOfPrefix(a', b[..|b| - 1], b[|b| - 1]);
        assert b[..|b| - 1] + [b[|b| - 1]] == b;
      } else {
        SubsequenceDropLast(a, b[..|b| - 1]);
        SubsequenceOfPrefix(a', b[..|b| - 1], b[|b| - 1]);
        assert b[..|b| - 1] + [b[|b| - 1]] == b;
      }
    }
  }

  /** Every prefix of a subsequence is a subsequence. */
  lemma {:induction false} SubsequencePrefix<T>(a: seq<T>, b: seq<T>, n: nat)
    requires IsSubsequence(a, b) && n <= |a|
    ensures IsSubsequence(a[..n], b)
    decreases |a| - n
  {
    if n < |a| {
      SubsequenceDropLast(a, b);
      SubsequencePrefix(a[..|a| - 1], b, n);
      assert a[..|a| - 1][..n] == a[..n];
    } else {
      assert a[..n] == a;
    }
  }

  /** A filter result is an order-preserving subsequence of its input. */
  lemma {:induction false} FilterIsSubsequence<T(!new)>(s: seq<T>, p: T -> bool)
    ensures IsSubsequence(Filter(s, p), s)
  {
    if s != [] {
      var init, last := s[..|s| - 1], s[|s| - 1];
      FilterIsSubsequence(init, p);
      assert init + [last] == s;
      if p(last) {
        assert Filter(s, p)[..|Filter(s, p)| - 1] == Filter(init, p);
      } else {
        assert Filter(s, p) == Filter(init, p);
        SubsequenceOfPrefix(Filter(init, p), init, last);
      }
    }
  }

  /** No element occurs twice. */
  predicate Distinct<T(==)>(s: seq<T>)
  {
    forall i, j | 0 <= i < j < |s| :: s[i] != s[j]
  }

  /** Filtering a sequence without repeats gives one without repeats. */
  lemma {:induction false} FilterDistinct<T(!new)>(s: seq<T>, p: T -> bool)
    requires Distinct(s)
    ensures Distinct(Filter(s, p))
  {
    if s != [] {
      var init, last := s[..|s| - 1], s[|s| - 1];
      FilterDistinct(init, p);
      var f := Filter(init, p);
      if p(last) {
        var r := f + [last];
        forall i, j | 0 <= i < j < |r| ensures r[i] != r[j] {
          if j == |f| {
            assert f[i] in init;
            var k :| 0 <= k < |init| && init[k] == f[i];
            assert s[k] == f[i];
          }
        }
      }
    }
  }

  /** Two predicates that agree on the input select the same elements. */
  lemma {:induction false} FilterAgreeing<T(!new)>(s: seq<T>, p: T -> bool, q: T -> bool)
    requires forall x | x in s :: p(x) == q(x)
    ensures Filter(s, p) == Filter(s, q)
  {
    if s != [] {
      assert forall x | x in s[..|s| - 1] :: x in s;
      FilterAgreeing(s[..|s| - 1], p, q);
    }
  }

  /** A filter whose predicate holds everywhere returns its input. */
  lemma {:induction false} FilterKeepsAll<T(!new)>(s: seq<T>, p: T -> bool)
    requires forall i | 0 <= i < |s| :: p(s[i])
    ensures Filter(s, p) == s
  {
    if s != [] {
      FilterKeepsAll(s[..|s| - 1], p);
    }
  }

  /** A filter whose predicate holds nowhere returns nothing. */
  lemma {:induction false} FilterNone<T(!new)>(s: seq<T>, p: T -> bool)
    requires forall x | x in s :: !p(x)
    ensures Filter(s, p) == []
  {
    if s != [] {
      assert forall x | x in s[..|s| - 1] :: x in s;
      FilterNone(s[..|s| - 1], p);
    }
  }

  /** Filtering a sequence extended by one element. */
  lemma FilterSnoc<T(!new)>(s: seq<T>, x: T, p: T -> bool)
    ensures Filter(s + [x], p) == Filter(s, p) + (if p(x) then [x] else [])
  {
    assert (s + [x])[..|s|] == s;
  }

  /** A prefix one longer is the prefix plus the next element. */
  lemma PrefixSnoc<T>(s: seq<T>, i: nat)
    requires i < |s|
    ensures s[..i + 1] == s[..i] + [s[i]]
  {
  }

  lemma ConcatAssociates<T>(a: seq<T>, b: seq<T>, c: seq<T>)
    ensures a + b + c == a + (b + c)
  {
  }

  /** Filtering distributes over a split of the input. */
  lemma {:induction false} FilterPrefixSplit<T(!new)>(s: seq<T>, k: nat, p: T -> bool)
    requires k <= |s|
    ensures Filter(s, p) == Filter(s[..k], p) + Filter(s[k..], p)
    decreases |s| - k
  {
    if k < |s| {
      var init, x := s[..|s| - 1], s[|s| - 1];
      var tail := if p(x) then [x] else [];
      assert s == init + [x] && init[..k] == s[..k] && s[k..] == init[k..] + [x];
      FilterSnoc(init, x, p);
      FilterPrefixSplit(init, k, p);
      FilterSnoc(init[k..], x, p);
      var front, middle := Filter(s[..k], p), Filter(init[k..], p);
      assert Filter(s, p) == front + middle + tail;
      assert Filter(s[k..], p) == middle + tail;
      ConcatAssociates(front, middle, tail);
    } else {
      assert s[..k] == s && s[k..] == [];
    }
  }

  /** When the first element passes, the filter starts with it. */
  lemma {:induction false} FilterFront<T(!new)>(s: seq<T>, p: T -> bool)
    requires s != [] && p(s[0])
    ensures Filter(s, p) == [s[0]] + Filter(s[1..], p)
  {
    FilterPrefixSplit(s, 1, p);
    assert s[..1] == [] + [s[0]];
    FilterSnoc([], s[0], p);
  }

  /** The filter starts with the first element that passes. */
  lemma {:induction false} FilterFirst<T(!new)>(s: seq<T>, p: T -> bool, k: nat)
    requires k < |s| && p(s[k])
    requires forall j | 0 <= j < k :: !p(s[j])
    ensures Filter(s, p) != [] && Filter(s, p)[0] == s[k]
  {
    assert forall x | x in s[..k] :: !p(x);
    FilterNone(s[..k], p);
    FilterPrefixSplit(s, k, p);
    FilterFront(s[k..], p);
  }

  /** The distinct keys of `s`, in the order their first element appears. */
  function FirstSeenKeys<T(!new), K(==,!new)>(s: seq<T>, key: T -> K): (ks: seq<K>)
    ensures forall i, j | 0 <= i < j < |ks| :: ks[i] != ks[j]
    ensures forall k :: k in ks <==> exists x | x in s :: key(x) == k
  {
    if s == [] then []
    else
      var ks := FirstSeenKeys(s[..|s| - 1], key);
      var last := s[|s| - 1];
      assert forall x :: x in s <==> x in s[..|s| - 1] || x == last;
      if key(last) in ks then ks else ks + [key(last)]
  }

  /** The keys of a sequence extended by one element: a new key goes last. */
  lemma FirstSeenKeysSnoc<T(!new), K(!new)>(s: seq<T>, key: T -> K, x: T)
    ensures FirstSeenKeys(s + [x], key) == FirstSeenKeys(s, key) + (if key(x) in FirstSeenKeys(s, key) then [] else [key(x)])
  {
    assert (s + [x])[..|s|] == s;
  }

  /** The group of key `k`: the elements whose key is `k`, in their original order. */
  function Members<T(!new), K(==,!new)>(s: seq<T>, key: T -> K, k: K): (g: seq<T>)
    ensures forall x :: x in g <==> x in s && key(x) == k
  {
    Filter(s, x => key(x) == k)
  }

  /** A group keeps the original order of its elements. */
  lemma MembersKeepOrder<T(!new), K(!new)>(s: seq<T>, key: T -> K, k: K)
    ensures IsSubsequence(Members(s, key, k), s)
  {
    FilterIsSubsequence(s, x => key(x) == k);
  }

  /** A group of a sequence extended by one element. */
  lemma MembersSnoc<T(!new), K(!new)>(s: seq<T>, key: T -> K, k: K, x: T)
    ensures Members(s + [x], key, k) == Members(s, key, k) + (if key(x) == k then [x] else [])
  {
    FilterSnoc(s, x, y => key(y) == k);
  }

  /** A key no element carries has an empty group. */
  lemma MembersOfUnseenKey<T(!new), K(!new)>(s: seq<T>, key: T -> K, k: K)
    requires k !in FirstSeenKeys(s, key)
    ensures Members(s, key, k) == []
  {
    FilterNone(s, x => key(x) == k);
  }

  /**
   * `groups` is the first-seen grouping of `s`: `ks` lists the keys in the
   * order their first element appears, and each key's group holds its
   * elements in their original order.
   */
  ghost predicate GroupedAs<T(!new), K(!new)>(s: seq<T>, key: T -> K, ks: seq<K>, groups: map<K, seq<T>>)
  {
    && ks == FirstSeenKeys(s, key)
    && (forall k :: k in groups <==> k in ks)
    && (forall k | k in groups :: groups[k] == Members(s, key, k))
  }

  /** A second update of the same key overwrites the first. */
  lemma UpdateTwice<K, V>(m: map<K, V>, k: K, a: V, b: V)
    ensures m[k := a][k := b] == m[k := b]
  {
  }

  /** One step of a grouping loop: append the element to its key's group, creating the group on first sight. */
  lemma GroupedAsSnoc<T(!new), K(!new)>(s: seq<T>, key: T -> K, ks: seq<K>, groups: map<K, seq<T>>, x: T)
    requires GroupedAs(s, key, ks, groups)
    ensures GroupedAs(s + [x], key,
      if key(x) in groups then ks else ks + [key(x)],
      groups[key(x) := (if key(x) in groups then groups[key(x)] else []) + [x]])
  {
    var k := key(x);
    FirstSeenKeysSnoc(s, key, x);
    if k !in groups {
      MembersOfUnseenKey(s, key, k);
    }
    var groups' := groups[k := (if k in groups then groups[k] else []) + [x]];
    forall c | c in groups'
      ensures groups'[c] == Members(s + [x], key, c)
    {
      MembersSnoc(s, key, c, x);
    }
  }

  /** The sum of the group sizes over the listed keys. */
  function GroupSizes<T(!new), K(==,!new)>(s: seq<T>, key: T -> K, ks: seq<K>): nat
  {
    if ks == [] then 0 else GroupSizes(s, key, ks[..|ks| - 1]) + |Members(s, key, ks[|ks| - 1])|
  }

  /** A key the listed keys do not mention adds nothing to their sizes when an element of it arrives. */
  lemma {:induction false} GroupSizesOther<T(!new), K(!new)>(s: seq<T>, key: T -> K, ks: seq<K>, x: T)
    requires key(x) !in ks
    ensures GroupSizes(s + [x], key, ks) == GroupSizes(s, key, ks)
  {
    if ks != [] {
      GroupSizesOther(s, key, ks[..|ks| - 1], x);
      FilterSnoc(s, x, y => key(y) == ks[|ks| - 1]);
    }
  }

  /** A key listed exactly once gains exactly one element when an element of it arrives. */
  lemma {:induction false} GroupSizesSame<T(!new), K(!new)>(s: seq<T>, key: T -> K, ks: seq<K>, x: T)
    requires key(x) in ks
    requires forall i, j | 0 <= i < j < |ks| :: ks[i] != ks[j]
    ensures GroupSizes(s + [x], key, ks) == GroupSizes(s, key, ks) + 1
  {
    var init, k := ks[..|ks| - 1], ks[|ks| - 1];
    FilterSnoc(s, x, y => key(y) == k);
    if key(x) == k {
      assert key(x) !in init by {
        forall i | 0 <= i < |init| ensures init[i] != k { assert ks[i] != ks[|ks| - 1]; }
      }
      GroupSizesOther(s, key, init, x);
    } else {
      assert key(x) in init;
      GroupSizesSame(s, key, init, x);
    }
  }

  /** Grouping loses and duplicates nothing: the groups' sizes add up to the input's length. */
  lemma {:induction false} GroupingPartitions<T(!new), K(!new)>(s: seq<T>, key: T -> K)
    ensures GroupSizes(s, key, FirstSeenKeys(s, key)) == |s|
  {
    if s != [] {
      var init, last := s[..|s| - 1], s[|s| - 1];
      var ks := FirstSeenKeys(init, key);
      GroupingPartitions(init, key);
      assert init + [last] == s;
      if key(last) in ks {
        GroupSizesSame(init, key, ks, last);
      } else {
        GroupSizesOther(init, key, ks, last);
        FilterSnoc(init, last, y => key(y) == key(last));
        FilterNone(init, y => key(y) == key(last));
      }
    }
  }
}
