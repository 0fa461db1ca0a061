/** Code-point order on text, and sorting by a text key. */
module Ordering {
  /** a comes strictly before b. */
  predicate Less(a: string, b: string) {
    b != [] && (a == [] || a[0] < b[0] || (a[0] == b[0] && Less(a[1..], b[1..])))
  }

  lemma {:induction false} LessIsTotal(a: string, b: string)
    ensures Less(a, b) || Less(b, a) || a == b
    ensures !(Less(a, b) && Less(b, a)) && !Less(a, a)
  {
    if a != [] && b != [] && a[0] == b[0] {
      LessIsTotal(a[1..], b[1..]);
      assert a == [a[0]] + a[1..] && b == [b[0]] + b[1..];
    }
    if a != [] {
      LessIsTotal(a[1..], a[1..]);
    }
  }

  lemma {:induction false} LessIsTransitive(a: string, b: string, c: string)
    requires Less(a, b) && Less(b, c)
    ensures Less(a, c)
  {
    if a != [] && a[0] == b[0] == c[0] {
      LessIsTransitive(a[1..], b[1..], c[1..]);
    }
  }

  lemma Without<T>(xs: seq<T>, k: nat)
    requires k < |xs|
    ensures multiset(xs[..k] + xs[k + 1..]) == multiset(xs) - multiset{xs[k]}
  {
    assert xs == xs[..k] + [xs[k]] + xs[k + 1..];
  }

  lemma WithoutInner<T>(xs: seq<T>, k: nat)
    requires k < |xs| - 1
    ensures var rest, front := xs[..k] + xs[k + 1..], xs[..|xs| - 1];
            && |rest| == |front| && rest[..|rest| - 1] == front[..k] + front[k + 1..]
            && rest[|rest| - 1] == xs[|xs| - 1] && front[k] == xs[k]
  {
  }

  /** In a rearrangement the last element stands somewhere, and the rest is rearranged. */
  lemma LastElsewhere<T>(xs: seq<T>, ys: seq<T>) returns (k: nat)
    requires multiset(xs) == multiset(ys) && xs != []
    ensures k < |ys| == |xs| && ys[k] == xs[|xs| - 1]
    ensures multiset(xs[..|xs| - 1]) == multiset(ys[..k] + ys[k + 1..])
  {
    assert |xs| == |multiset(xs)| == |multiset(ys)| == |ys|;
    var last := xs[|xs| - 1];
    assert last in multiset(ys);
    k :| 0 <= k < |ys| && ys[k] == last;
    Without(ys, k);
    Without(xs, |xs| - 1);
    assert xs[..|xs| - 1] + xs[|xs|..] == xs[..|xs| - 1];
  }

  lemma SameMembers<T>(xs: seq<T>, ys: seq<T>)
    requires multiset(xs) == multiset(ys)
    ensures |xs| == |ys| && forall x :: x in xs ==> x in ys
  {
    assert |xs| == |multiset(xs)| == |ys|;
    assert forall x :: x in xs ==> x in multiset(ys);
  }

  /** Strictly increasing keys, so no key twice. */
  ghost predicate StrictlySorted<T(!new)>(xs: seq<T>, key: T -> string) {
    forall i, j :: 0 <= i < j < |xs| ==> Less(key(xs[i]), key(xs[j]))
  }

  ghost predicate DistinctKeys<T(!new)>(xs: seq<T>, key: T -> string) {
    forall i, j :: 0 <= i < j < |xs| ==> key(xs[i]) != key(xs[j])
  }

  function Insert<T>(x: T, xs: seq<T>, key: T -> string): (r: seq<T>)
    ensures |r| == |xs| + 1
  {
    if xs != [] && Less(key(xs[0]), key(x)) then [xs[0]] + Insert(x, xs[1..], key) else [x] + xs
  }

  /** Sorting, as the source's sorted(..., key=...) does for distinct keys. */
  function Sorted<T>(xs: seq<T>, key: T -> string): (r: seq<T>)
    ensures |r| == |xs|
  {
    if xs == [] then [] else Insert(xs[|xs| - 1], Sorted(xs[..|xs| - 1], key), key)
  }

  lemma {:induction false} InsertAdds<T(!new)>(x: T, xs: seq<T>, key: T -> string)
    ensures multiset(Insert(x, xs, key)) == multiset(xs) + multiset{x}
  {
    if xs != [] && Less(key(xs[0]), key(x)) {
      InsertAdds(x, xs[1..], key);
      assert xs == [xs[0]] + xs[1..];
    }
  }

  lemma PutFirst<T(!new)>(x: T, xs: seq<T>, key: T -> string)
    requires StrictlySorted(xs, key) && forall i :: 0 <= i < |xs| ==> Less(key(x), key(xs[i]))
    ensures StrictlySorted([x] + xs, key)
  {
  }

  lemma {:induction false} InsertKeeps<T(!new)>(x: T, xs: seq<T>, key: T -> string)
    requires StrictlySorted(xs, key) && forall i :: 0 <= i < |xs| ==> key(xs[i]) != key(x)
    ensures StrictlySorted(Insert(x, xs, key), key)
  {
    if xs != [] && Less(key(xs[0]), key(x)) {
      var r := Insert(x, xs[1..], key);
      InsertKeeps(x, xs[1..], key);
      InsertAdds(x, xs[1..], key);
      forall i | 0 <= i < |r| ensures Less(key(xs[0]), key(r[i])) {
        assert r[i] in multiset(r);
        if r[i] != x {
          assert r[i] in xs[1..];
        }
      }
      PutFirst(xs[0], r, key);
    } else if xs != [] {
      LessIsTotal(key(x), key(xs[0]));
      forall i | 0 <= i < |xs| ensures Less(key(x), key(xs[i])) {
        if i > 0 {
          LessIsTransitive(key(x), key(xs[0]), key(xs[i]));
        }
      }
      PutFirst(x, xs, key);
    }
  }

  /** Sorting loses nothing, adds nothing and orders strictly. */
  lemma {:induction false} SortedIsPermutation<T(!new)>(xs: seq<T>, key: T -> string)
    requires DistinctKeys(xs, key)
    ensures StrictlySorted(Sorted(xs, key), key) && multiset(Sorted(xs, key)) == multiset(xs)
  {
    if xs != [] {
      var front, x := xs[..|xs| - 1], xs[|xs| - 1];
      SortedIsPermutation(front, key);
      var s := Sorted(front, key);
      assert xs == front + [x];
      forall i | 0 <= i < |s| ensures key(s[i]) != key(x) {
        assert s[i] in multiset(front);
      }
      InsertKeeps(x, s, key);
      InsertAdds(x, s, key);
    }
  }

  lemma SmallestFirst<T(!new)>(xs: seq<T>, ys: seq<T>, key: T -> string)
    requires StrictlySorted(xs, key) && StrictlySorted(ys, key) && multiset(xs) == multiset(ys) && xs != [] && ys != []
    ensures xs[0] == ys[0]
  {
    assert xs[0] in multiset(ys) && ys[0] in multiset(xs);
    var i :| 0 <= i < |ys| && ys[i] == xs[0];
    var j :| 0 <= j < |xs| && xs[j] == ys[0];
    LessIsTotal(key(xs[0]), key(ys[0]));
  }

  lemma RestSorted<T(!new)>(xs: seq<T>, key: T -> string)
    requires StrictlySorted(xs, key) && xs != []
    ensures StrictlySorted(xs[1..], key)
  {
    hide Less;
    var ys := xs[1..];
    forall i, j | 0 <= i < j < |ys| ensures Less(key(ys[i]), key(ys[j])) {
      assert ys[i] == xs[i + 1] && ys[j] == xs[j + 1];
    }
  }

  lemma RestOfAll<T>(xs: seq<T>)
    requires xs != []
    ensures multiset(xs[1..]) == multiset(xs) - multiset{xs[0]}
  {
    Without(xs, 0);
    assert xs[..0] + xs[1..] == xs[1..];
  }

  /** A strictly sorted arrangement is the only one with its elements. */
  lemma {:induction false} OneArrangement<T(!new)>(xs: seq<T>, ys: seq<T>, key: T -> string)
    requires StrictlySorted(xs, key) && StrictlySorted(ys, key) && multiset(xs) == multiset(ys)
    ensures xs == ys
  {
    hide StrictlySorted;
    assert |xs| == |multiset(xs)| == |ys|;
    if xs != [] {
      SmallestFirst(xs, ys, key);
      RestSorted(xs, key);
      RestSorted(ys, key);
      RestOfAll(xs);
      RestOfAll(ys);
      OneArrangement(xs[1..], ys[1..], key);
      assert xs == [xs[0]] + xs[1..] && ys == [ys[0]] + ys[1..];
    }
  }
}
