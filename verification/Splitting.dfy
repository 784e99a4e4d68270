/** Python's `str.split` on one character and `str.join`. */
module Splitting {
  /** Always at least one part. */
  function Split(s: string, d: char): (parts: seq<string>)
    ensures |parts| >= 1
  {
    if s == "" then [""]
    else if s[0] == d then [""] + Split(s[1..], d)
    else
      var rest := Split(s[1..], d);
      [[s[0]] + rest[0]] + rest[1..]
  }

  function Join(parts: seq<string>, d: char): string
    requires |parts| >= 1
  {
    if |parts| == 1 then parts[0] else parts[0] + [d] + Join(parts[1..], d)
  }

  /** One part more than there are separators, none of which is left in a part. */
  lemma {:induction false} SplitParts(s: string, d: char)
    ensures |Split(s, d)| == multiset(s)[d] + 1
    ensures forall i :: 0 <= i < |Split(s, d)| ==> d !in Split(s, d)[i]
  {
    if s != "" {
      SplitParts(s[1..], d);
      assert s == [s[0]] + s[1..];
    }
  }

  lemma {:induction false} JoinUndoesSplit(s: string, d: char)
    ensures Join(Split(s, d), d) == s
  {
    if s != "" {
      var rest := Split(s[1..], d);
      JoinUndoesSplit(s[1..], d);
      if s[0] == d {
        assert ([""] + rest)[1..] == rest;
      } else {
        assert ([[s[0]] + rest[0]] + rest[1..])[1..] == rest[1..];
      }
    }
  }

  lemma {:induction false} SplitWhole(s: string, d: char)
    requires d !in s
    ensures Split(s, d) == [s]
  {
    if s != "" {
      SplitWhole(s[1..], d);
      assert [s[0]] + s[1..] == s;
    }
  }

  lemma {:induction false} SplitFirst(s: string, d: char, rest: string)
    requires d !in s
    ensures Split(s + [d] + rest, d) == [s] + Split(rest, d)
  {
    var text := s + [d] + rest;
    if s == "" {
      assert text[1..] == rest;
    } else {
      SplitFirst(s[1..], d, rest);
      assert text[1..] == s[1..] + [d] + rest;
      assert [s[0]] + s[1..] == s;
      assert ([s[1..]] + Split(rest, d))[1..] == Split(rest, d);
    }
  }

  lemma {:induction false} SplitUndoesJoin(parts: seq<string>, d: char)
    requires |parts| >= 1 && forall i :: 0 <= i < |parts| ==> d !in parts[i]
    ensures Split(Join(parts, d), d) == parts
  {
    if |parts| == 1 {
      SplitWhole(parts[0], d);
    } else {
      SplitUndoesJoin(parts[1..], d);
      SplitFirst(parts[0], d, Join(parts[1..], d));
    }
  }
}
