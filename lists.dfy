/** The list logic the three stores share: counting, filtering with a list
    comprehension, finding the first match with next(...), and Python's
    list.remove. A test on records is a total function `T -> bool`. */
module Lists {
  import opened Outcomes

  /** The number of elements of `s` that pass `p`. */
  function Count<T>(s: seq<T>, p: T -> bool): (n: nat)
    ensures n <= |s|
    ensures n == 0 <==> forall j :: 0 <= j < |s| ==> !p(s[j])
  {
    if s == [] then 0
    else (if p(s[0]) then 1 else 0) + Count(s[1..], p)
  }

  /** `[x for x in s if not p(x)]`: the elements that fail `p`, in their original order. */
  function Without<T>(s: seq<T>, p: T -> bool): (r: seq<T>)
    ensures |r| == |s| - Count(s, p)
  {
    if s == [] then []
    else if p(s[0]) then Without(s[1..], p)
    else [s[0]] + Without(s[1..], p)
  }

  /** `i` is the position of the first element of `s` that passes `p`. */
  predicate IsFirst<T>(s: seq<T>, p: T -> bool, i: int) {
    0 <= i < |s| && p(s[i]) && forall k :: 0 <= k < i ==> !p(s[k])
  }

  /** `next((i for i, x in enumerate(s) if p(x)), None)`: where the first match is, if any. */
  function FirstMatch<T>(s: seq<T>, p: T -> bool): (r: Option<nat>)
    ensures r.Some? ==> IsFirst(s, p, r.value)
    ensures r.None? <==> forall j :: 0 <= j < |s| ==> !p(s[j])
  {
    if s == [] then None
    else if p(s[0]) then Some(0)
    else match FirstMatch(s[1..], p)
      case None => None
      case Some(i) => Some(i + 1)
  }

  /** `s.remove(x)`: drop the first element equal to `x`. Python raises
      ValueError when `x` is absent; every caller checks membership first. */
  function RemoveFirst<T(==)>(s: seq<T>, x: T): (r: seq<T>)
    requires x in s
    ensures |r| == |s| - 1
  {
    if s[0] == x then s[1..]
    else [s[0]] + RemoveFirst(s[1..], x)
  }

  /** The filter keeps exactly the elements that fail the test: nothing else, and every one of them. */
  lemma {:induction false} WithoutMembers<T>(s: seq<T>, p: T -> bool)
    ensures forall x :: x in Without(s, p) ==> x in s && !p(x)
    ensures forall j :: 0 <= j < |s| && !p(s[j]) ==> s[j] in Without(s, p)
  {
    if s != [] {
      WithoutMembers(s[1..], p);
      forall j | 0 <= j < |s| && !p(s[j])
        ensures s[j] in Without(s, p)
      {
        if j > 0 {
          assert s[j] == s[1..][j - 1];
        }
      }
    }
  }

  /** What a delete-by-name filter does: every matching element goes, duplicates included, every
      other element stays, the length drops by the number of matches, and the list is unchanged
      exactly when nothing matches. */
  lemma WithoutRemovesEveryMatch<T>(s: seq<T>, p: T -> bool)
    ensures forall x :: x in Without(s, p) ==> x in s && !p(x)
    ensures forall j :: 0 <= j < |s| && !p(s[j]) ==> s[j] in Without(s, p)
    ensures |Without(s, p)| == |s| - Count(s, p)
    ensures Without(s, p) == s <==> forall j :: 0 <= j < |s| ==> !p(s[j])
  {
    WithoutMembers(s, p);
    WithoutUnchanged(s, p);
  }

  /** list.remove takes out one copy of the element and leaves every other element. */
  lemma {:induction false} RemoveFirstMultiset<T>(s: seq<T>, x: T)
    requires x in s
    ensures multiset(RemoveFirst(s, x)) == multiset(s) - multiset{x}
  {
    assert s == [s[0]] + s[1..];
    if s[0] != x {
      RemoveFirstMultiset(s[1..], x);
    }
  }

  /** Filtering distributes over concatenation, so it keeps the relative order of what it keeps. */
  lemma {:induction false} WithoutConcat<T>(a: seq<T>, b: seq<T>, p: T -> bool)
    ensures Without(a + b, p) == Without(a, p) + Without(b, p)
  {
    if a == [] {
      assert a + b == b;
    } else {
      var ab := a + b;
      assert ab[0] == a[0];
      assert ab[1..] == a[1..] + b;
      WithoutConcat(a[1..], b, p);
      if p(a[0]) {
        calc {
          Without(ab, p);
          Without(a[1..] + b, p);
          Without(a[1..], p) + Without(b, p);
          Without(a, p) + Without(b, p);
        }
      } else {
        calc {
          Without(ab, p);
          [a[0]] + Without(a[1..] + b, p);
          [a[0]] + (Without(a[1..], p) + Without(b, p));
          ([a[0]] + Without(a[1..], p)) + Without(b, p);
          Without(a, p) + Without(b, p);
        }
      }
    }
  }

  /** Filtering leaves the list as it was exactly when nothing matches. */
  lemma {:induction false} WithoutUnchanged<T>(s: seq<T>, p: T -> bool)
    ensures Without(s, p) == s <==> Count(s, p) == 0
  {
    if s != [] && Count(s, p) == 0 {
      WithoutUnchanged(s[1..], p);
      assert s == [s[0]] + s[1..];
    }
  }

  /** There is only one first match, and FirstMatch finds it. */
  lemma FirstMatchIsFirst<T>(s: seq<T>, p: T -> bool, i: int)
    requires IsFirst(s, p, i)
    ensures FirstMatch(s, p) == Some(i)
  {
    var r := FirstMatch(s, p);
    assert r.Some?;
    assert !(r.value < i) && !(i < r.value);
  }

  /** list.remove takes out the first occurrence and nothing else. */
  lemma {:induction false} RemoveFirstAt<T>(s: seq<T>, x: T, i: nat)
    requires i < |s| && s[i] == x && x !in s[..i]
    ensures RemoveFirst(s, x) == s[..i] + s[i + 1..]
  {
    if i == 0 {
      assert s[..0] + s[1..] == s[1..];
    } else {
      assert s[..i][0] == s[0];
      assert s[0] != x;
      var t := s[1..];
      assert t[..i - 1] == s[1..i];
      assert x !in t[..i - 1];
      RemoveFirstAt(t, x, i - 1);
      assert t[i..] == s[i + 1..];
      calc {
        RemoveFirst(s, x);
        [s[0]] + RemoveFirst(t, x);
        [s[0]] + (s[1..i] + s[i + 1..]);
        ([s[0]] + s[1..i]) + s[i + 1..];
        { assert [s[0]] + s[1..i] == s[..i]; }
        s[..i] + s[i + 1..];
      }
    }
  }

  /** Appending an element that was not there and then removing it gives back the list. */
  lemma RemoveFirstAppended<T>(s: seq<T>, x: T)
    requires x !in s
    ensures RemoveFirst(s + [x], x) == s
  {
    assert (s + [x])[..|s|] == s;
    RemoveFirstAt(s + [x], x, |s|);
    assert (s + [x])[|s| + 1..] == [];
  }
}
