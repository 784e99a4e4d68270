/** Lower case of ASCII text. */
module Ascii {
  function LowerChar(c: char): char {
    if 'A' <= c <= 'Z' then (c as int + 32) as char else c
  }

  function Lower(s: string): (r: string)
    ensures |r| == |s| && forall i :: 0 <= i < |r| ==> r[i] == LowerChar(s[i])
  {
    seq(|s|, i requires 0 <= i < |s| => LowerChar(s[i]))
  }

  const UPPER_CASE := "ABCDEFGHIJKLMNOPQRSTUVWXYZ"
  const LOWER_CASE := "abcdefghijklmnopqrstuvwxyz"

  /** One character, or the two cases of one ASCII letter. */
  predicate SameLetter(c: char, d: char) {
    || c == d
    || (exists k :: 0 <= k < 26 && UPPER_CASE[k] == c && LOWER_CASE[k] == d)
    || (exists k :: 0 <= k < 26 && LOWER_CASE[k] == c && UPPER_CASE[k] == d)
  }

  lemma LettersInOrder()
    ensures forall k :: 0 <= k < 26 ==>
      UPPER_CASE[k] == ('A' as int + k) as char && LOWER_CASE[k] == ('a' as int + k) as char
  {
  }

  lemma Letters(c: char)
    ensures 'A' <= c <= 'Z' <==> c in UPPER_CASE
    ensures 'a' <= c <= 'z' <==> c in LOWER_CASE
  {
    LettersInOrder();
    if 'A' <= c <= 'Z' { assert UPPER_CASE[c as int - 'A' as int] == c; }
    if 'a' <= c <= 'z' { assert LOWER_CASE[c as int - 'a' as int] == c; }
  }

  /** Lower case maps the upper-case letters, in their order, to the lower-case ones, and leaves the rest. */
  lemma LowerCharInOrder(c: char)
    ensures forall k :: 0 <= k < 26 && c == UPPER_CASE[k] ==> LowerChar(c) == LOWER_CASE[k]
    ensures c !in UPPER_CASE ==> LowerChar(c) == c
    ensures LowerChar(c) !in UPPER_CASE
  {
    LettersInOrder();
    Letters(c);
    Letters(LowerChar(c));
  }

  lemma LowerCharIsSameLetter(c: char)
    ensures SameLetter(LowerChar(c), c)
  {
    LowerCharInOrder(c);
    if c in UPPER_CASE {
      var k :| 0 <= k < 26 && UPPER_CASE[k] == c;
      assert LOWER_CASE[k] == LowerChar(c);
    }
  }

  lemma SameLetterHasOneLowerCase(c: char, d: char)
    requires SameLetter(c, d)
    ensures LowerChar(c) == LowerChar(d)
  {
    LowerCharInOrder(c);
    LowerCharInOrder(d);
    Letters(c);
    Letters(d);
  }

  lemma SameLetterIsSymmetric(c: char, d: char)
    ensures SameLetter(c, d) ==> SameLetter(d, c)
  {
  }

  lemma LowerCharFolds(c: char, d: char)
    ensures LowerChar(c) == LowerChar(d) <==> SameLetter(c, d)
  {
    if SameLetter(c, d) { SameLetterHasOneLowerCase(c, d); }
    if LowerChar(c) == LowerChar(d) && c != d {
      if 'A' <= c <= 'Z' {
        LowerCharIsSameLetter(c);
        SameLetterIsSymmetric(d, c);
      } else {
        LowerCharIsSameLetter(d);
      }
    }
  }

  /** Two texts have one lower case exactly when they differ at most in the case of ASCII letters. */
  lemma EqualInLowerCase(s: string, t: string)
    ensures Lower(s) == Lower(t) <==> |s| == |t| && forall i :: 0 <= i < |s| ==> SameLetter(s[i], t[i])
    ensures forall i :: 0 <= i < |s| ==> Lower(s)[i] !in UPPER_CASE && SameLetter(Lower(s)[i], s[i])
  {
    forall i | 0 <= i < |s| ensures Lower(s)[i] !in UPPER_CASE && SameLetter(Lower(s)[i], s[i]) {
      LowerCharInOrder(s[i]);
      LowerCharIsSameLetter(s[i]);
    }
    if |s| == |t| {
      forall i | 0 <= i < |s| ensures Lower(s)[i] == Lower(t)[i] <==> SameLetter(s[i], t[i]) {
        LowerCharFolds(s[i], t[i]);
      }
    }
  }

  lemma LowerTwice(s: string)
    ensures Lower(Lower(s)) == Lower(s)
  {
  }
}
