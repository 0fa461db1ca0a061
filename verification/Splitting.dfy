/** Splitting text at a separator and joining it again. */
module Splitting {
  function Split(s: string, at: char): (parts: seq<string>)
    ensures parts != []
  {
    if s == [] then [""]
    else
      var rest := Split(s[1..], at);
      if s[0] == at then [""] + rest else [[s[0]] + rest[0]] + rest[1..]
  }

  function Join(parts: seq<string>, at: char): string
    requires parts != []
  {
    if |parts| == 1 then parts[0] else parts[0] + [at] + Join(parts[1..], at)
  }

  lemma {:induction false} SplitThenJoin(s: string, at: char)
    ensures Join(Split(s, at), at) == s
  {
    if s != [] {
      var rest := Split(s[1..], at);
      SplitThenJoin(s[1..], at);
      var parts := Split(s, at);
      if s[0] == at {
        assert parts[1..] == rest;
      } else if |rest| > 1 {
        assert parts[1..] == rest[1..];
      }
    }
  }

  lemma {:induction false} NoSeparatorInParts(s: string, at: char)
    ensures forall i :: 0 <= i < |Split(s, at)| ==> at !in Split(s, at)[i]
  {
    if s != [] {
      NoSeparatorInParts(s[1..], at);
    }
  }

  lemma {:induction false} SplitAtSeparator(a: string, b: string, at: char)
    ensures Split(a + [at] + b, at) == Split(a, at) + Split(b, at)
  {
    var whole, rest := a + [at] + b, Split(b, at);
    if a == [] {
      assert whole[1..] == b;
    } else {
      var front := Split(a[1..], at);
      assert whole[1..] == a[1..] + [at] + b && whole[0] == a[0];
      SplitAtSeparator(a[1..], b, at);
      Regroup(a[0], front, rest);
    }
  }

  lemma Regroup(c: char, front: seq<string>, rest: seq<string>)
    requires front != []
    ensures [""] + (front + rest) == ([""] + front) + rest
    ensures [[c] + (front + rest)[0]] + (front + rest)[1..] == ([[c] + front[0]] + front[1..]) + rest
  {
    assert (front + rest)[1..] == front[1..] + rest;
  }

  lemma {:induction false} NothingToSplit(s: string, at: char)
    requires at !in s
    ensures Split(s, at) == [s]
  {
    if s != [] {
      NothingToSplit(s[1..], at);
      assert [s[0]] + s[1..] == s && [s[1..]][1..] == [];
    }
  }

  /** Parts without the separator are found again. */
  lemma {:induction false} JoinThenSplit(parts: seq<string>, at: char)
    requires parts != [] && forall i :: 0 <= i < |parts| ==> at !in parts[i]
    ensures Split(Join(parts, at), at) == parts
  {
    NothingToSplit(parts[0], at);
    if |parts| > 1 {
      JoinThenSplit(parts[1..], at);
      SplitAtSeparator(parts[0], Join(parts[1..], at), at);
      assert parts == [parts[0]] + parts[1..];
    }
  }
}
