/** Base64 without padding (sections 4 and 5 of RFC 4648), and the canonical base64url codec of DPoP proofs. */
module Base64 {
  import opened Wrappers
  import Ascii
  import Decimal

  type Byte = x: nat | x < 256
  type Sextet = x: nat | x < 64

  /** The two alphabets differ only in their last two characters. */
  datatype Alphabet = Standard | Url

  function Symbol(alphabet: Alphabet, v: Sextet): (c: char)
    ensures InAlphabet(alphabet, c) && ValueOf(alphabet, c) == v
  {
    if v < 26 then ('A' as int + v) as char
    else if v < 52 then ('a' as int + v - 26) as char
    else if v < 62 then ('0' as int + v - 52) as char
    else if v == 62 then (if alphabet.Url? then '-' else '+')
    else if alphabet.Url? then '_'
    else '/'
  }

  predicate InAlphabet(alphabet: Alphabet, c: char) {
    || 'A' <= c <= 'Z' || 'a' <= c <= 'z' || '0' <= c <= '9'
    || (if alphabet.Url? then c == '-' || c == '_' else c == '+' || c == '/')
  }

  function ValueOf(alphabet: Alphabet, c: char): Sextet
    requires InAlphabet(alphabet, c)
  {
    if 'A' <= c <= 'Z' then c as int - 'A' as int
    else if 'a' <= c <= 'z' then c as int - 'a' as int + 26
    else if '0' <= c <= '9' then c as int - '0' as int + 52
    else if c == '-' || c == '+' then 62
    else 63
  }

  lemma SymbolOfValue(alphabet: Alphabet, c: char)
    requires InAlphabet(alphabet, c)
    ensures Symbol(alphabet, ValueOf(alphabet, c)) == c
  {
  }

  const LETTERS_AND_DIGITS := Ascii.UPPER_CASE + Ascii.LOWER_CASE + Decimal.DIGITS

  /** The alphabets are tables 1 and 2 of RFC 4648. */
  lemma SymbolsOfTheAlphabet(v: Sextet)
    ensures Symbol(Standard, v) == (LETTERS_AND_DIGITS + "+/")[v]
    ensures Symbol(Url, v) == (LETTERS_AND_DIGITS + "-_")[v]
  {
    Ascii.LettersInOrder();
    assert forall d :: 0 <= d < 10 ==> Decimal.DIGITS[d] == ('0' as int + d) as char;
    assert |LETTERS_AND_DIGITS| == 62;
    if v < 62 {
      assert LETTERS_AND_DIGITS[v] ==
        if v < 26 then Ascii.UPPER_CASE[v] else if v < 52 then Ascii.LOWER_CASE[v - 26] else Decimal.DIGITS[v - 52];
    }
  }

  // -- sextets ----------------------------------------------------------------------------------------

  function ToSextets(b: seq<Byte>): seq<Sextet> {
    if b == [] then []
    else if |b| == 1 then [b[0] / 4, b[0] % 4 * 16]
    else if |b| == 2 then [b[0] / 4, b[0] % 4 * 16 + b[1] / 16, b[1] % 16 * 4]
    else [b[0] / 4, b[0] % 4 * 16 + b[1] / 16, b[1] % 16 * 4 + b[2] / 64, b[2] % 64] + ToSextets(b[3..])
  }

  function FirstByte(u: Sextet, v: Sextet): Byte { u as int * 4 + v / 16 }

  function SecondByte(u: Sextet, v: Sextet): Byte { u as int % 16 * 16 + v / 4 }

  function ThirdByte(u: Sextet, v: Sextet): Byte { u as int % 4 * 64 + v }

  /** Drops the unused low bits of a final partial group, as the decoder of the standard library does. */
  function FromSextets(v: seq<Sextet>): seq<Byte>
    requires |v| % 4 != 1
  {
    if v == [] then []
    else if |v| == 2 then [FirstByte(v[0], v[1])]
    else if |v| == 3 then [FirstByte(v[0], v[1]), SecondByte(v[1], v[2])]
    else [FirstByte(v[0], v[1]), SecondByte(v[1], v[2]), ThirdByte(v[2], v[3])] + FromSextets(v[4..])
  }

  /** The unused low bits of a final partial group are zero. */
  predicate TrailingBitsZero(v: seq<Sextet>) {
    (|v| % 4 == 2 ==> v[|v| - 1] % 16 == 0) && (|v| % 4 == 3 ==> v[|v| - 1] % 4 == 0)
  }

  lemma {:induction false} SextetsOfBytes(b: seq<Byte>)
    ensures |ToSextets(b)| % 4 != 1 && FromSextets(ToSextets(b)) == b
    ensures |ToSextets(b)| == (4 * |b| + 2) / 3
  {
    if |b| >= 3 {
      SextetsOfBytes(b[3..]);
      assert ToSextets(b)[4..] == ToSextets(b[3..]);
    }
  }

  /** Re-encoding what was decoded gives the text back exactly when no unused bit was set. */
  lemma {:induction false} BytesOfSextets(v: seq<Sextet>)
    requires |v| % 4 != 1
    ensures ToSextets(FromSextets(v)) == v <==> TrailingBitsZero(v)
    ensures |v| == (4 * |FromSextets(v)| + 2) / 3
  {
    if |v| >= 4 {
      var rest := v[4..];
      BytesOfSextets(rest);
      FullGroup(v);
      LaterGroups(v);
      var b, c, d := DecodeGroup(v);
      SameTail([v[0], v[1], v[2], v[3]], ToSextets(FromSextets(rest)), rest);
      assert v == [v[0], v[1], v[2], v[3]] + rest;
    } else if |v| == 3 {
      PartialGroup(v[0], v[1], v[2]);
      assert v == [v[0], v[1], v[2]];
    } else if |v| == 2 {
      PartialGroup(v[0], v[1], 0);
      assert v == [v[0], v[1]];
    }
  }

  /** The final partial group with its unused low bits set to zero. */
  function Cleared(v: seq<Sextet>): (r: seq<Sextet>)
    ensures |r| == |v|
  {
    if |v| % 4 == 2 then v[..|v| - 1] + [v[|v| - 1] / 16 * 16]
    else if |v| % 4 == 3 then v[..|v| - 1] + [v[|v| - 1] / 4 * 4]
    else v
  }

  lemma ClearedLater(v: seq<Sextet>)
    requires |v| >= 4
    ensures Cleared(v) == v[..4] + Cleared(v[4..])
  {
    assert |v[4..]| % 4 == |v| % 4;
    assert v == v[..4] + v[4..];
    if |v| > 4 { assert v[..|v| - 1] == v[..4] + v[4..][..|v| - 5]; }
  }

  /** The lenient decoder ignores the unused bits, whatever they are, and no other. */
  lemma {:induction false} UnusedBitsAreDropped(v: seq<Sextet>)
    requires |v| % 4 != 1
    ensures ToSextets(FromSextets(v)) == Cleared(v)
  {
    if |v| >= 4 {
      UnusedBitsAreDropped(v[4..]);
      ClearedLater(v);
      FullGroup(v);
      assert v[..4] == [v[0], v[1], v[2], v[3]];
    } else if |v| == 3 {
      PartialCleared(v[0], v[1], v[2]);
      assert v[..2] == [v[0], v[1]];
    } else if |v| == 2 {
      PartialCleared(v[0], v[1], 0);
      assert v[..1] == [v[0]];
    }
  }

  lemma PartialCleared(u: Sextet, v: Sextet, w: Sextet)
    ensures var b, c := FirstByte(u, v), SecondByte(v, w);
      b / 4 == u && b % 4 * 16 + c / 16 == v && c % 16 * 4 == w / 4 * 4 && b % 4 * 16 == v / 16 * 16
  {
  }

  lemma SameTail(head: seq<Sextet>, s: seq<Sextet>, t: seq<Sextet>)
    ensures head + s == head + t <==> s == t
  {
    assert (head + s)[|head|..] == s && (head + t)[|head|..] == t;
  }

  lemma LaterGroups(v: seq<Sextet>)
    requires |v| >= 4
    ensures TrailingBitsZero(v) <==> TrailingBitsZero(v[4..])
  {
    var rest := v[4..];
    assert |rest| % 4 == |v| % 4;
    assert |rest| > 0 ==> rest[|rest| - 1] == v[|v| - 1];
  }

  lemma DecodeGroup(v: seq<Sextet>) returns (b: Byte, c: Byte, d: Byte)
    requires |v| >= 4 && |v| % 4 != 1
    ensures b == FirstByte(v[0], v[1]) && c == SecondByte(v[1], v[2]) && d == ThirdByte(v[2], v[3])
    ensures FromSextets(v) == [b, c, d] + FromSextets(v[4..])
  {
    b, c, d := FirstByte(v[0], v[1]), SecondByte(v[1], v[2]), ThirdByte(v[2], v[3]);
  }

  lemma FullGroup(v: seq<Sextet>)
    requires |v| >= 4 && |v| % 4 != 1
    ensures ToSextets(FromSextets(v)) == [v[0], v[1], v[2], v[3]] + ToSextets(FromSextets(v[4..]))
  {
    EncodeDecoded(v[0], v[1], v[2], v[3], FromSextets(v[4..]));
  }

  lemma EncodeDecoded(u: Sextet, v: Sextet, w: Sextet, x: Sextet, rest: seq<Byte>)
    ensures ToSextets([FirstByte(u, v), SecondByte(v, w), ThirdByte(w, x)] + rest) == [u, v, w, x] + ToSextets(rest)
  {
    FourSextets(u, v, w, x);
    EncodeGroup(FirstByte(u, v), SecondByte(v, w), ThirdByte(w, x), rest);
  }

  lemma EncodeGroup(b: Byte, c: Byte, d: Byte, rest: seq<Byte>)
    ensures ToSextets([b, c, d] + rest) ==
      [b / 4, b % 4 * 16 + c / 16, c % 16 * 4 + d / 64, d % 64] + ToSextets(rest)
  {
    assert ([b, c, d] + rest)[3..] == rest;
  }

  lemma FourSextets(u: Sextet, v: Sextet, w: Sextet, x: Sextet)
    ensures var b, c, d := FirstByte(u, v), SecondByte(v, w), ThirdByte(w, x);
      b / 4 == u && b % 4 * 16 + c / 16 == v && c % 16 * 4 + d / 64 == w && d % 64 == x
  {
  }

  lemma PartialGroup(u: Sextet, v: Sextet, w: Sextet)
    ensures var b, c := FirstByte(u, v), SecondByte(v, w);
      && b / 4 == u && b % 4 * 16 + c / 16 == v
      && (c % 16 * 4 == w <==> w % 4 == 0)
      && (b % 4 * 16 == v <==> v % 16 == 0)
  {
  }

  // -- bits -----------------------------------------------------------------------------------------------

  /** The low `width` bits of a number, most significant bit first. */
  function Bits(n: nat, width: nat): (bits: seq<bool>)
    ensures |bits| == width
  {
    if width == 0 then [] else Bits(n / 2, width - 1) + [n % 2 == 1]
  }

  function ByteBits(b: seq<Byte>): seq<bool> { if b == [] then [] else Bits(b[0], 8) + ByteBits(b[1..]) }

  function SextetBits(v: seq<Sextet>): seq<bool> { if v == [] then [] else Bits(v[0], 6) + SextetBits(v[1..]) }

  function Zeros(n: nat): seq<bool> { Bits(0, n) }

  lemma SplitTwo(n: nat, h: nat)
    ensures Bits(n, h + 2) == Bits(n / 4, h) + Bits(n % 4, 2)
  {
    assert Bits(n, h + 2) == Bits(n / 2, h + 1) + [n % 2 == 1];
    assert Bits(n / 2, h + 1) == Bits(n / 2 / 2, h) + [n / 2 % 2 == 1];
    assert Bits(n % 4, 2) == Bits(n % 4 / 2, 1) + [n % 4 % 2 == 1];
    assert Bits(n % 4 / 2, 1) == Bits(n % 4 / 2 / 2, 0) + [n % 4 / 2 % 2 == 1];
  }

  lemma SplitFour(n: nat, h: nat)
    ensures Bits(n, h + 4) == Bits(n / 16, h) + Bits(n % 16, 4)
  {
    SplitTwo(n, h + 2);
    SplitTwo(n / 4, h);
    SplitTwo(n % 16, 2);
    Quarters(n);
  }

  lemma Quarters(n: nat)
    ensures n / 4 / 4 == n / 16 && n % 16 / 4 == n / 4 % 4 && n % 16 % 4 == n % 4
  {
  }

  lemma SplitSix(n: nat, h: nat)
    ensures Bits(n, h + 6) == Bits(n / 64, h) + Bits(n % 64, 6)
  {
    SplitTwo(n, h + 4);
    SplitFour(n / 4, h);
    SplitTwo(n % 64, 4);
    assert n / 4 / 16 == n / 64 && n % 64 / 4 == n / 4 % 16 && n % 64 % 4 == n % 4;
  }

  /** The low two bits of one byte and the high four of the next. */
  lemma SecondBits(b: Byte, c: Byte)
    ensures Bits(b % 4 * 16 + c / 16, 6) == Bits(b % 4, 2) + Bits(c / 16, 4)
  {
    Sixteens(b % 4, c / 16);
    SplitFour(b % 4 * 16 + c / 16, 2);
  }

  lemma Sixteens(h: nat, l: nat)
    requires l < 16
    ensures (h * 16 + l) / 16 == h && (h * 16 + l) % 16 == l
  {
  }

  lemma ThirdBits(c: Byte, d: Byte)
    ensures Bits(c % 16 * 4 + d / 64, 6) == Bits(c % 16, 4) + Bits(d / 64, 2)
  {
    var n := c % 16 * 4 + d / 64;
    SplitTwo(n, 4);
    assert n / 4 == c % 16 && n % 4 == d / 64;
  }

  lemma Regroup(a: seq<bool>, b: seq<bool>, c: seq<bool>, d: seq<bool>, e: seq<bool>, f: seq<bool>)
    ensures a + (b + c) + (d + e) + f == (a + b) + (c + d) + (e + f)
  {
  }

  lemma ByteFirst(n: Byte, rest: seq<Byte>)
    ensures ByteBits([n] + rest) == Bits(n, 8) + ByteBits(rest)
  {
    assert ([n] + rest)[1..] == rest;
  }

  lemma SextetFirst(n: Sextet, rest: seq<Sextet>)
    ensures SextetBits([n] + rest) == Bits(n, 6) + SextetBits(rest)
  {
    assert ([n] + rest)[1..] == rest;
  }

  lemma FourInFront(u: Sextet, v: Sextet, w: Sextet, x: Sextet, rest: seq<Sextet>)
    ensures [u, v, w, x] + rest == [u] + ([v] + ([w] + ([x] + rest)))
  {
  }

  lemma FourBits(u: Sextet, v: Sextet, w: Sextet, x: Sextet, rest: seq<Sextet>)
    ensures SextetBits([u, v, w, x] + rest) == Bits(u, 6) + Bits(v, 6) + Bits(w, 6) + Bits(x, 6) + SextetBits(rest)
  {
    FourInFront(u, v, w, x, rest);
    SextetFirst(u, [v] + ([w] + ([x] + rest)));
    SextetFirst(v, [w] + ([x] + rest));
    SextetFirst(w, [x] + rest);
    SextetFirst(x, rest);
    FromTheLeft(Bits(u, 6), Bits(v, 6), Bits(w, 6), Bits(x, 6), SextetBits(rest));
  }

  lemma FromTheLeft(a: seq<bool>, b: seq<bool>, c: seq<bool>, d: seq<bool>, e: seq<bool>)
    ensures a + (b + (c + (d + e))) == a + b + c + d + e
  {
  }

  lemma ThreeBytes(b: Byte, c: Byte, d: Byte, rest: seq<Byte>)
    ensures ByteBits([b, c, d] + rest) == Bits(b, 8) + Bits(c, 8) + Bits(d, 8) + ByteBits(rest)
  {
    assert [b, c, d] + rest == [b] + ([c] + ([d] + rest));
    ByteFirst(b, [c] + ([d] + rest));
    ByteFirst(c, [d] + rest);
    ByteFirst(d, rest);
  }

  /** Three bytes and the four sextets they make are the same twenty-four bits. */
  lemma GroupBits(b: Byte, c: Byte, d: Byte)
    ensures Bits(b / 4, 6) + Bits(b % 4 * 16 + c / 16, 6) + Bits(c % 16 * 4 + d / 64, 6) + Bits(d % 64, 6) ==
      Bits(b, 8) + Bits(c, 8) + Bits(d, 8)
  {
    SecondBits(b, c);
    ThirdBits(c, d);
    SplitTwo(b, 6);
    SplitFour(c, 4);
    SplitSix(d, 2);
    Regroup(Bits(b / 4, 6), Bits(b % 4, 2), Bits(c / 16, 4), Bits(c % 16, 4), Bits(d / 64, 2), Bits(d % 64, 6));
  }

  lemma OneByteBits(b: Byte)
    ensures SextetBits([b / 4, b % 4 * 16]) == ByteBits([b]) + Zeros(4)
  {
    assert [b / 4, b % 4 * 16] == [b / 4] + ([b % 4 * 16] + []);
    SextetFirst(b / 4, [b % 4 * 16] + []);
    SextetFirst(b % 4 * 16, []);
    assert [b] + [] == [b];
    ByteFirst(b, []);
    SecondBits(b, 0);
    SplitTwo(b, 6);
  }

  lemma PartialBits(b: Byte, c: Byte)
    ensures Bits(b / 4, 6) + Bits(b % 4 * 16 + c / 16, 6) + Bits(c % 16 * 4, 6) == Bits(b, 8) + Bits(c, 8) + Zeros(2)
  {
    SecondBits(b, c);
    ThirdBits(c, 0);
    SplitTwo(b, 6);
    SplitFour(c, 4);
    Regroup(Bits(b / 4, 6), Bits(b % 4, 2), Bits(c / 16, 4), Bits(c % 16, 4), Bits(0, 2), []);
    Unpadded(Bits(b / 4, 6) + Bits(b % 4 * 16 + c / 16, 6) + Bits(c % 16 * 4, 6));
    Unpadded(Bits(0, 2));
  }

  lemma Unpadded(a: seq<bool>)
    ensures a + [] == a
  {
  }

  lemma ThreeSextets(u: Sextet, v: Sextet, w: Sextet)
    ensures SextetBits([u, v, w]) == Bits(u, 6) + Bits(v, 6) + Bits(w, 6)
  {
    assert [u, v, w] == [u] + ([v] + ([w] + []));
    SextetFirst(u, [v] + ([w] + []));
    SextetFirst(v, [w] + []);
    SextetFirst(w, []);
  }

  lemma TwoBytes(b: Byte, c: Byte)
    ensures ByteBits([b, c]) == Bits(b, 8) + Bits(c, 8)
  {
    assert [b, c] == [b] + ([c] + []);
    ByteFirst(b, [c] + []);
    ByteFirst(c, []);
  }

  lemma TwoByteBits(b: Byte, c: Byte)
    ensures SextetBits(ToSextets([b, c])) == ByteBits([b, c]) + Zeros(2)
  {
    assert ToSextets([b, c]) == [b / 4, b % 4 * 16 + c / 16, c % 16 * 4];
    ThreeSextets(b / 4, b % 4 * 16 + c / 16, c % 16 * 4);
    TwoBytes(b, c);
    PartialBits(b, c);
  }

  lemma Later(group: seq<bool>, sextets: seq<bool>, bytes: seq<bool>, zeros: seq<bool>)
    requires sextets == bytes + zeros
    ensures group + sextets == group + bytes + zeros
  {
  }

  lemma GroupFirst(b: Byte, c: Byte, d: Byte, rest: seq<Byte>, zeros: seq<bool>)
    requires SextetBits(ToSextets(rest)) == ByteBits(rest) + zeros
    ensures SextetBits(ToSextets([b, c, d] + rest)) == ByteBits([b, c, d] + rest) + zeros
  {
    EncodeGroup(b, c, d, rest);
    FourBits(b / 4, b % 4 * 16 + c / 16, c % 16 * 4 + d / 64, d % 64, ToSextets(rest));
    GroupBits(b, c, d);
    ThreeBytes(b, c, d, rest);
    Later(Bits(b, 8) + Bits(c, 8) + Bits(d, 8), SextetBits(ToSextets(rest)), ByteBits(rest), zeros);
  }

  /** The unused low bits of the last sextet. */
  function UnusedBits(length: nat): nat {
    if length % 3 == 1 then 4 else if length % 3 == 2 then 2 else 0
  }

  lemma LastByte(b: seq<Byte>)
    requires |b| == 1
    ensures SextetBits(ToSextets(b)) == ByteBits(b) + Zeros(4)
  {
    assert b == [b[0]];
    OneByteBits(b[0]);
  }

  lemma LastTwoBytes(b: seq<Byte>)
    requires |b| == 2
    ensures SextetBits(ToSextets(b)) == ByteBits(b) + Zeros(2)
  {
    TwoByteBits(b[0], b[1]);
    Pair(b);
  }

  lemma Pair(b: seq<Byte>)
    requires |b| == 2
    ensures [b[0], b[1]] == b
  {
  }

  /** Section 4 of RFC 4648: the bits of the sextets are the bits of the bytes, filled up with zeros at the end. */
  lemma {:induction false} SameBits(b: seq<Byte>)
    ensures SextetBits(ToSextets(b)) == ByteBits(b) + Zeros(UnusedBits(|b|))
  {
    if b == [] {
      Unpadded(ByteBits(b));
    } else if |b| == 1 {
      LastByte(b);
    } else if |b| == 2 {
      LastTwoBytes(b);
    } else {
      var rest, zeros := b[3..], Zeros(UnusedBits(|b|));
      SameBits(rest);
      assert UnusedBits(|rest|) == UnusedBits(|b|);
      assert b == [b[0], b[1], b[2]] + rest;
      GroupFirst(b[0], b[1], b[2], rest, zeros);
    }
  }

  // -- texts --------------------------------------------------------------------------------------------

  function Spell(alphabet: Alphabet, v: seq<Sextet>): (t: string)
    ensures |t| == |v| && forall i :: 0 <= i < |t| ==> t[i] == Symbol(alphabet, v[i])
  {
    seq(|v|, i requires 0 <= i < |v| => Symbol(alphabet, v[i]))
  }

  predicate Readable(alphabet: Alphabet, t: string) {
    forall i :: 0 <= i < |t| ==> InAlphabet(alphabet, t[i])
  }

  function Values(alphabet: Alphabet, t: string): (v: seq<Sextet>)
    requires Readable(alphabet, t)
    ensures |v| == |t| && forall i :: 0 <= i < |t| ==> v[i] == ValueOf(alphabet, t[i])
  {
    seq(|t|, i requires 0 <= i < |t| => ValueOf(alphabet, t[i]))
  }

  /** Base64 text with the padding stripped. */
  function Encode(alphabet: Alphabet, b: seq<Byte>): string {
    Spell(alphabet, ToSextets(b))
  }

  /** The lenient decoder on alphabet text: None where it raises, on a length no encoding has. */
  function Decode(alphabet: Alphabet, t: string): Option<seq<Byte>>
    requires Readable(alphabet, t)
  {
    if |t| % 4 == 1 then None else Some(FromSextets(Values(alphabet, t)))
  }

  lemma DecodeUndoesEncode(alphabet: Alphabet, b: seq<Byte>)
    ensures Readable(alphabet, Encode(alphabet, b)) && Decode(alphabet, Encode(alphabet, b)) == Some(b)
    ensures |Encode(alphabet, b)| == (4 * |b| + 2) / 3
  {
    SextetsOfBytes(b);
    assert Values(alphabet, Encode(alphabet, b)) == ToSextets(b);
  }

  /** `_b64url_decode`; None is its `ValueError`. */
  function DecodeCanonical(t: string): Option<seq<Byte>> {
    if t == "" || !Readable(Url, t) then None
    else
      match Decode(Url, t)
      case None => None
      case Some(b) => if Encode(Url, b) != t then None else Some(b)
  }

  lemma SpellValues(alphabet: Alphabet, t: string)
    requires Readable(alphabet, t)
    ensures Spell(alphabet, Values(alphabet, t)) == t
  {
    forall i | 0 <= i < |t| ensures Symbol(alphabet, ValueOf(alphabet, t[i])) == t[i] {
      SymbolOfValue(alphabet, t[i]);
    }
  }

  lemma SpellIsInjective(alphabet: Alphabet, u: seq<Sextet>, v: seq<Sextet>)
    requires Spell(alphabet, u) == Spell(alphabet, v)
    ensures u == v
  {
    var t := Spell(alphabet, u);
    assert Values(alphabet, t) == u && Values(alphabet, t) == v;
  }

  /** Which texts are accepted, read off the text alone. */
  lemma AcceptedTexts(t: string)
    ensures DecodeCanonical(t).Some? <==>
      t != "" && Readable(Url, t) && |t| % 4 != 1 && TrailingBitsZero(Values(Url, t))
  {
    if Readable(Url, t) && |t| % 4 != 1 {
      var v := Values(Url, t);
      BytesOfSextets(v);
      SpellValues(Url, t);
      if Spell(Url, ToSextets(FromSextets(v))) == t {
        SpellIsInjective(Url, ToSextets(FromSextets(v)), v);
      }
    }
  }

  /** The codec is a bijection between the non-empty byte strings and the accepted texts. */
  lemma CanonicalBijection(t: string, b: seq<Byte>)
    ensures DecodeCanonical(t) == Some(b) <==> b != [] && Encode(Url, b) == t
  {
    DecodeUndoesEncode(Url, b);
    if DecodeCanonical(t) == Some(b) {
      assert Encode(Url, b) == t && t != "";
    }
  }

  // -- key thumbprints ------------------------------------------------------------------------------------

  /** `validate_jkt`: a failed decode counts as empty. */
  predicate ValidJkt(t: string) {
    var decoded := match DecodeCanonical(t) case Some(b) => b case None => [];
    !(|decoded| != 32 || |t| != 43)
  }

  /** Exactly the encodings of 32-byte strings are accepted. */
  lemma ValidJktIsA32ByteEncoding(t: string)
    ensures ValidJkt(t) <==> exists b: seq<Byte> :: |b| == 32 && Encode(Url, b) == t
  {
    if ValidJkt(t) {
      CanonicalBijection(t, DecodeCanonical(t).value);
    }
    if b: seq<Byte> :| |b| == 32 && Encode(Url, b) == t {
      CanonicalBijection(t, b);
      DecodeUndoesEncode(Url, b);
    }
  }

  /** `jwk_thumbprint`, with the JSON text of the key hashed by any function to 32 bytes (section 3 of RFC 7638). */
  function Thumbprint(sha256: string -> seq<Byte>, jwk: string): string {
    Encode(Url, sha256(jwk))
  }

  /** Every computed thumbprint passes `validate_jkt`, and two thumbprints are equal only for equal digests. */
  lemma ThumbprintsAreValid(sha256: string -> seq<Byte>, jwk: string, other: string)
    requires |sha256(jwk)| == 32 && |sha256(other)| == 32
    ensures ValidJkt(Thumbprint(sha256, jwk))
    ensures Thumbprint(sha256, jwk) == Thumbprint(sha256, other) <==> sha256(jwk) == sha256(other)
  {
    ValidJktIsA32ByteEncoding(Thumbprint(sha256, jwk));
    CanonicalBijection(Thumbprint(sha256, jwk), sha256(jwk));
    CanonicalBijection(Thumbprint(sha256, jwk), sha256(other));
  }
}
