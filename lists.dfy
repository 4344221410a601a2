/** Sequence helpers that give Python's list operations a meaning in Dafny. */
module Lists {

  /** No element occurs twice. */
  predicate NoDup<T(==)>(s: seq<T>)
  {
    forall i, j :: 0 <= i < j < |s| ==> s[i] != s[j]
  }

  /** `list.remove(x)`: drops the first occurrence of x; a list without x is returned as it is. */
  function RemoveFirst<T(==)>(s: seq<T>, x: T): (r: seq<T>)
    ensures x in s ==> |r| == |s| - 1
    ensures x !in s ==> r == s
  {
    if s == [] then []
    else if s[0] == x then s[1..]
    else [s[0]] + RemoveFirst(s[1..], x)
  }

  /** The elements of s that do not occur in gone, in their original order. */
  function Without<T(==)>(s: seq<T>, gone: seq<T>): (r: seq<T>)
    ensures forall x :: x in r ==> x in s && x !in gone
    ensures forall x :: x in s && x !in gone ==> x in r
    ensures |r| <= |s|
  {
    if s == [] then []
    else (if s[0] in gone then [] else [s[0]]) + Without(s[1..], gone)
  }

  /** s read from its last element to its first. */
  function Reverse<T>(s: seq<T>): (r: seq<T>)
  {
    if s == [] then [] else [s[|s| - 1]] + Reverse(s[..|s| - 1])
  }

  lemma ReverseSnoc<T>(s: seq<T>, x: T)
    ensures Reverse(s + [x]) == [x] + Reverse(s)
  {
    assert (s + [x])[..|s|] == s;
  }

  lemma {:induction false} ReverseAt<T>(s: seq<T>)
    ensures |Reverse(s)| == |s|
    ensures forall k :: 0 <= k < |s| ==> Reverse(s)[k] == s[|s| - 1 - k]
    ensures multiset(Reverse(s)) == multiset(s)
  {
    if s != [] {
      var front := s[..|s| - 1];
      ReverseAt(front);
      assert s == front + [s[|s| - 1]];
    }
  }

  /** Without keeps the order of what remains, so it keeps distinctness. */
  lemma {:induction false} NoDupWithout<T>(s: seq<T>, gone: seq<T>)
    requires NoDup(s)
    ensures NoDup(Without(s, gone))
  {
    if s != [] {
      NoDupWithout(s[1..], gone);
      assert s[0] !in s[1..] by {
        forall k | 0 <= k < |s[1..]| ensures s[1..][k] != s[0] { assert s[1..][k] == s[k + 1]; }
      }
    }
  }

  lemma {:induction false} RemoveFirstAbsentOrUnique<T>(s: seq<T>, x: T)
    requires NoDup(s)
    ensures RemoveFirst(s, x) == Without(s, [x])
  {
    if s != [] {
      assert s[0] !in s[1..] by {
        forall k | 0 <= k < |s[1..]| ensures s[1..][k] != s[0] { assert s[1..][k] == s[k + 1]; }
      }
      if s[0] == x {
        WithoutNothing(s[1..], [x]);
      } else {
        RemoveFirstAbsentOrUnique(s[1..], x);
      }
    }
  }

  lemma {:induction false} WithoutNothing<T>(s: seq<T>, gone: seq<T>)
    requires forall x :: x in s ==> x !in gone
    ensures Without(s, gone) == s
  {
    if s != [] {
      WithoutNothing(s[1..], gone);
      assert s == [s[0]] + s[1..];
    }
  }

  lemma {:induction false} WithoutWithout<T>(s: seq<T>, a: seq<T>, b: seq<T>)
    ensures Without(Without(s, a), b) == Without(s, a + b)
  {
    if s != [] {
      WithoutWithout(s[1..], a, b);
      var w := Without(s, a);
      if s[0] in a {
        assert w == Without(s[1..], a);
      } else {
        assert w == [s[0]] + Without(s[1..], a);
        assert w[1..] == Without(s[1..], a);
      }
    }
  }

  /**
   * One step of "if x in list: list.remove(x)" over a distinct list from which the elements
   * of gone were already removed: afterwards gone + [x] has been removed.
   */
  lemma {:induction false} RemoveStep<T>(s: seq<T>, gone: seq<T>, x: T)
    requires NoDup(s)
    ensures NoDup(Without(s, gone))
    ensures (if x in Without(s, gone) then RemoveFirst(Without(s, gone), x) else Without(s, gone))
            == Without(s, gone + [x])
  {
    NoDupWithout(s, gone);
    RemoveFirstAbsentOrUnique(Without(s, gone), x);
    WithoutWithout(s, gone, [x]);
  }

  /** `for x in xs: if x in s: s.remove(x)`: the first occurrence of each x, in the order of xs, removed in turn. */
  function RemoveEach<T(==)>(s: seq<T>, xs: seq<T>): (r: seq<T>)
    ensures |r| <= |s|
  {
    if xs == [] then s else RemoveFirst(RemoveEach(s, xs[..|xs| - 1]), xs[|xs| - 1])
  }

  /** Reversing a slice that grows by one index puts the new element in front. */
  lemma ReverseSliceStep<T>(c: seq<T>, k: nat, i: nat, rest: seq<T>)
    requires k <= i < |c|
    ensures [c[i]] + (Reverse(c[k..i]) + rest) == Reverse(c[k..i + 1]) + rest
  {
    assert c[k..i + 1] == c[k..i] + [c[i]];
    ReverseSnoc(c[k..i], c[i]);
  }

  /** Removing the elements of a slice that grows by one index removes one more occurrence. */
  lemma RemoveEachSliceStep<T>(s: seq<T>, c: seq<T>, k: nat, i: nat)
    requires k <= i < |c|
    ensures RemoveFirst(RemoveEach(s, c[k..i]), c[i]) == RemoveEach(s, c[k..i + 1])
  {
    assert c[k..i + 1] == c[k..i] + [c[i]];
    RemoveEachSnoc(s, c[k..i], c[i]);
  }

  /** Concatenation is associative; stated once, for the steps where the verifier needs it spelled out. */
  lemma AppendAssoc<T>(a: seq<T>, b: seq<T>, c: seq<T>)
    ensures (a + b) + c == a + (b + c)
  {
  }

  /** The last element of s, or d when s is empty. */
  function LastOr<T>(s: seq<T>, d: T): T
  {
    if s == [] then d else s[|s| - 1]
  }

  lemma RemoveEachSnoc<T>(s: seq<T>, xs: seq<T>, x: T)
    ensures RemoveEach(s, xs + [x]) == RemoveFirst(RemoveEach(s, xs), x)
  {
    assert (xs + [x])[..|xs|] == xs;
  }

  /** Removing one occurrence only ever takes elements away. */
  lemma {:induction false} RemoveFirstSub<T>(s: seq<T>, x: T)
    ensures multiset(RemoveFirst(s, x)) <= multiset(s)
  {
    if s != [] {
      RemoveFirstSub(s[1..], x);
      assert s == [s[0]] + s[1..];
    }
  }

  lemma {:induction false} RemoveEachSub<T>(s: seq<T>, xs: seq<T>)
    ensures multiset(RemoveEach(s, xs)) <= multiset(s)
  {
    if xs != [] {
      RemoveEachSub(s, xs[..|xs| - 1]);
      RemoveFirstSub(RemoveEach(s, xs[..|xs| - 1]), xs[|xs| - 1]);
    }
  }

  /** On a list without duplicates, removing each element in turn is filtering all of them out. */
  lemma {:induction false} RemoveEachIsWithout<T>(s: seq<T>, xs: seq<T>)
    requires NoDup(s)
    ensures RemoveEach(s, xs) == Without(s, xs)
  {
    if xs == [] {
      WithoutNothing(s, xs);
    } else {
      var n := |xs| - 1;
      RemoveEachIsWithout(s, xs[..n]);
      RemoveStep(s, xs[..n], xs[n]);
      assert xs[..n] + [xs[n]] == xs;
      RemoveFirstAbsentOrUnique(Without(s, xs[..n]), xs[n]);
    }
  }

  /** Removing an element that is not in the appended tail only touches the front part. */
  lemma {:induction false} RemoveFirstAppend<T>(a: seq<T>, b: seq<T>, x: T)
    requires x !in b
    ensures RemoveFirst(a + b, x) == RemoveFirst(a, x) + b
  {
    if a == [] {
      assert a + b == b;
    } else {
      assert (a + b)[1..] == a[1..] + b;
      RemoveFirstAppend(a[1..], b, x);
    }
  }

  /** A sequence is distinct exactly when every element occurs at most once in its multiset. */
  lemma {:induction false} NoDupMultiplicity<T>(s: seq<T>)
    ensures NoDup(s) <==> forall x :: multiset(s)[x] <= 1
  {
    if s != [] {
      var front, last := s[..|s| - 1], s[|s| - 1];
      assert s == front + [last];
      assert multiset(s) == multiset(front) + multiset{last};
      NoDupMultiplicity(front);
      if NoDup(s) {
        assert NoDup(front) by {
          forall i, j | 0 <= i < j < |front| ensures front[i] != front[j] { assert front[i] == s[i] && front[j] == s[j]; }
        }
        assert last !in front by {
          forall k | 0 <= k < |front| ensures front[k] != last { assert front[k] == s[k]; }
        }
      } else {
        var i, j :| 0 <= i < j < |s| && s[i] == s[j];
        if j < |s| - 1 {
          assert front[i] == front[j];
          assert !NoDup(front);
          var x :| multiset(front)[x] > 1;
          assert multiset(s)[x] > 1;
        } else {
          assert s[i] in front by { assert front[i] == s[i]; }
          assert multiset(s)[last] == multiset(front)[last] + 1;
        }
      }
    }
  }

  /** A part of a list without duplicates has none either. */
  lemma NoDupSubMultiset<T>(a: seq<T>, b: seq<T>)
    requires multiset(a) <= multiset(b)
    requires NoDup(b)
    ensures NoDup(a)
  {
    NoDupMultiplicity(a);
    NoDupMultiplicity(b);
    forall x ensures multiset(a)[x] <= 1 {
      assert multiset(a)[x] <= multiset(b)[x];
    }
  }

  /** The parts of a distinct concatenation are distinct and share no element. */
  lemma {:induction false} NoDupSplit<T>(a: seq<T>, b: seq<T>)
    requires NoDup(a + b)
    ensures NoDup(a) && NoDup(b)
    ensures forall x :: x in a ==> x !in b
  {
    forall i, j | 0 <= i < j < |a| ensures a[i] != a[j] { assert (a + b)[i] == a[i] && (a + b)[j] == a[j]; }
    forall i, j | 0 <= i < j < |b| ensures b[i] != b[j] { assert (a + b)[|a| + i] == b[i] && (a + b)[|a| + j] == b[j]; }
    forall x | x in a ensures x !in b {
      var i :| 0 <= i < |a| && a[i] == x;
      forall j | 0 <= j < |b| ensures b[j] != x {
        assert (a + b)[i] == a[i] && (a + b)[|a| + j] == b[j];
      }
    }
  }

  /** Two distinct sequences that share no element concatenate to a distinct sequence. */
  lemma {:induction false} NoDupConcat<T>(a: seq<T>, b: seq<T>)
    requires NoDup(a) && NoDup(b)
    requires forall x :: x in a ==> x !in b
    ensures NoDup(a + b)
  {
    forall i, j | 0 <= i < j < |a + b| ensures (a + b)[i] != (a + b)[j] {
      if j < |a| {
        assert (a + b)[i] == a[i] && (a + b)[j] == a[j];
      } else if i >= |a| {
        assert (a + b)[i] == b[i - |a|] && (a + b)[j] == b[j - |a|];
      } else {
        assert (a + b)[i] == a[i] && (a + b)[j] == b[j - |a|];
        assert a[i] in a;
      }
    }
  }

  /** The elements of s with their multiplicities, collected from the back. */
  ghost function Bag<T>(s: seq<T>): multiset<T>
  {
    if s == [] then multiset{} else Bag(s[..|s| - 1]) + multiset{s[|s| - 1]}
  }

  lemma {:induction false} BagIsMultiset<T>(s: seq<T>)
    ensures Bag(s) == multiset(s)
  {
    if s != [] {
      BagIsMultiset(s[..|s| - 1]);
      assert s == s[..|s| - 1] + [s[|s| - 1]];
    }
  }

  /** Adding the same elements to both sides of a multiset equation keeps it. */
  lemma UnionFront<T>(x: multiset<T>, a: multiset<T>, b: multiset<T>, c: multiset<T>, d: multiset<T>)
    requires a + b == c + d
    ensures (x + a) + b == c + (x + d)
    ensures (x + a) + b == (x + c) + d
  {
    assert (x + a) + b == x + (a + b);
  }

  /** Two multiset equations add up, in any grouping of the summands. */
  lemma UnionSplit<T>(a: multiset<T>, x: multiset<T>, b: multiset<T>, y: multiset<T>, c: multiset<T>, z: multiset<T>)
    requires a + b == c
    requires x + y == z
    ensures (a + x) + (b + y) == c + z
  {
    assert (a + x) + (b + y) == (a + b) + (x + y);
  }

  lemma MultisetFront<T>(s: seq<T>)
    requires s != []
    ensures multiset(s) == multiset{s[0]} + multiset(s[1..])
  {
    assert s == [s[0]] + s[1..];
  }
}
