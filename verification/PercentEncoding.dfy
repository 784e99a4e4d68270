/** Percent-encoding normalisation of request paths (section 6.2.2 of RFC 3986). */
module PercentEncoding {
  import opened Wrappers
  import Ascii
  import Decimal

  predicate IsUnreserved(c: char) {
    'A' <= c <= 'Z' || 'a' <= c <= 'z' || '0' <= c <= '9' ||
    c == '-' || c == '.' || c == '_' || c == '~'
  }

  predicate IsHex(c: char) { '0' <= c <= '9' || 'a' <= c <= 'f' || 'A' <= c <= 'F' }

  function HexValue(c: char): (v: nat)
    requires IsHex(c)
    ensures v < 16
  {
    if c <= '9' then c as int - '0' as int
    else if c <= 'F' then c as int - 'A' as int + 10
    else c as int - 'a' as int + 10
  }

  function Upper(c: char): char {
    if 'a' <= c <= 'z' then (c as int - 32) as char else c
  }

  predicate IsSpace(c: char) { c == ' ' || '\t' <= c <= '\r' }

  /**
   `chr(int(digits, 16))`, None where either raises `ValueError`. Python's `int` also takes one digit beside
   a space or a sign; a negative value other than zero is then refused by `chr`.
   */
  function Octet(a: char, b: char): (o: Option<nat>)
    ensures o.Some? ==> o.value < 256
  {
    if !IsHex(a) && !IsHex(b) then None
    else if IsHex(a) && IsHex(b) then Some(16 * HexValue(a) + HexValue(b))
    else if IsHex(a) then (if IsSpace(b) then Some(HexValue(a)) else None)
    else if IsSpace(a) || a == '+' then Some(HexValue(b))
    else if a == '-' && HexValue(b) == 0 then Some(0)
    else None
  }

  const UPPER_HEX := "0123456789ABCDEF"
  const LOWER_HEX := "0123456789abcdef"

  /** The unreserved characters of section 2.3 of RFC 3986. */
  lemma UnreservedCharacters(c: char)
    ensures IsUnreserved(c) <==> c in Ascii.UPPER_CASE || c in Ascii.LOWER_CASE || c in Decimal.DIGITS || c in "-._~"
  {
    Ascii.Letters(c);
    Decimal.IsADigit(c);
    assert c == '-' || c == '.' || c == '_' || c == '~' <==> c in "-._~" by {
      assert "-._~"[0] == '-' && "-._~"[1] == '.' && "-._~"[2] == '_' && "-._~"[3] == '~';
    }
  }

  lemma HexInOrder()
    ensures forall k :: 0 <= k < 10 ==> UPPER_HEX[k] == LOWER_HEX[k] == ('0' as int + k) as char
    ensures forall k :: 10 <= k < 16 ==>
      UPPER_HEX[k] == ('A' as int + k - 10) as char && LOWER_HEX[k] == ('a' as int + k - 10) as char
  {
  }

  /** A triplet of two hex digits, in either case, is the octet they write, and normalises to upper case. */
  lemma TripletOctet(hi: nat, lo: nat, a: char, b: char)
    requires hi < 16 && (a == UPPER_HEX[hi] || a == LOWER_HEX[hi])
    requires lo < 16 && (b == UPPER_HEX[lo] || b == LOWER_HEX[lo])
    ensures Octet(a, b) == Some(16 * hi + lo) && Upper(a) == UPPER_HEX[hi] && Upper(b) == UPPER_HEX[lo]
  {
    HexInOrder();
  }

  /** What Python's `int` makes of one digit beside a space or a sign. */
  lemma OddPairs()
    ensures Octet(' ', '7') == Octet('+', '7') == Octet('7', ' ') == Some(7) && Octet('7', '+') == None
    ensures Octet('-', '0') == Some(0) && Octet('-', '7') == None && Octet('%', '4') == None
  {
  }

  // -- the loop and what it computes ----------------------------------------------------------------

  /** How the scanner reads a path: a `%` that starts nothing readable is `Bare`. */
  datatype Unit = Bare | Literal(c: char) | Triplet(hi: char, lo: char)

  function Units(path: string): seq<Unit> {
    if path == [] then []
    else if path[0] != '%' then [Literal(path[0])] + Units(path[1..])
    else if |path| > 2 && Octet(path[1], path[2]).Some? then [Triplet(path[1], path[2])] + Units(path[3..])
    else [Bare] + Units(path[1..])
  }

  /** The unreserved character a unit stands for when it is an escape of one. */
  predicate Unescapes(u: Unit) {
    u.Triplet? && Octet(u.hi, u.lo).Some? && IsUnreserved(Octet(u.hi, u.lo).value as char)
  }

  function Canonical(u: Unit): Unit {
    if Unescapes(u) then Literal(Octet(u.hi, u.lo).value as char)
    else if u.Triplet? then Triplet(Upper(u.hi), Upper(u.lo))
    else u
  }

  function Spelling(u: Unit): string {
    match u
    case Bare => "%"
    case Literal(c) => [c]
    case Triplet(hi, lo) => ['%', hi, lo]
  }

  function Text(units: seq<Unit>): string {
    if units == [] then [] else Spelling(units[0]) + Text(units[1..])
  }

  function AllCanonical(units: seq<Unit>): (r: seq<Unit>)
    ensures |r| == |units| && forall i :: 0 <= i < |r| ==> r[i] == Canonical(units[i])
  {
    seq(|units|, i requires 0 <= i < |units| => Canonical(units[i]))
  }

  function Normalized(path: string): string { Text(AllCanonical(Units(path))) }

  function Join(parts: seq<string>): string {
    if parts == [] then [] else Join(parts[..|parts| - 1]) + parts[|parts| - 1]
  }

  lemma AppendPiece(parts: seq<string>, piece: string, rest: string)
    ensures Join(parts + [piece]) + rest == Join(parts) + (piece + rest)
  {
    assert (parts + [piece])[..|parts|] == parts;
  }

  predicate Escaped(path: string) { |path| > 2 && path[0] == '%' && Octet(path[1], path[2]).Some? }

  lemma LiteralFirst(path: string)
    requires path != [] && path[0] != '%'
    ensures Normalized(path) == [path[0]] + Normalized(path[1..])
  {
    assert AllCanonical(Units(path))[1..] == AllCanonical(Units(path[1..]));
  }

  lemma TripletFirst(path: string)
    requires Escaped(path)
    ensures Normalized(path) == Spelling(Canonical(Triplet(path[1], path[2]))) + Normalized(path[3..])
  {
    assert AllCanonical(Units(path))[1..] == AllCanonical(Units(path[3..]));
  }

  lemma BareFirst(path: string)
    requires path != [] && path[0] == '%' && !Escaped(path)
    ensures Normalized(path) == ['%'] + Normalized(path[1..])
  {
    assert AllCanonical(Units(path))[1..] == AllCanonical(Units(path[1..]));
  }

  lemma SingleFirst(path: string, index: nat)
    requires index < |path| && !Escaped(path[index..])
    ensures Normalized(path[index..]) == [path[index]] + Normalized(path[index + 1..])
  {
    assert path[index..][1..] == path[index + 1..];
    if path[index] == '%' { BareFirst(path[index..]); } else { LiteralFirst(path[index..]); }
  }

  lemma EscapeFirst(path: string, index: nat)
    requires index <= |path| && Escaped(path[index..])
    ensures var character := Octet(path[index + 1], path[index + 2]).value as char;
      Normalized(path[index..]) ==
        (if IsUnreserved(character) then [character] else ['%', Upper(path[index + 1]), Upper(path[index + 2])]) +
        Normalized(path[index + 3..])
  {
    TripletFirst(path[index..]);
    assert path[index..][3..] == path[index + 3..];
  }

  /** `_normalize_percent_encoding`. */
  method NormalizePercentEncoding(path: string) returns (r: string)
    ensures r == Normalized(path)
  {
    var output: seq<string> := [];
    var index := 0;
    while index < |path|
      invariant 0 <= index <= |path|
      invariant Join(output) + Normalized(path[index..]) == Normalized(path)
    {
      if index + 2 < |path| && path[index] == '%' {
        var octet := Octet(path[index + 1], path[index + 2]);
        if octet.Some? {
          var character := octet.value as char;
          var piece :=
            if IsUnreserved(character) then [character] else ['%', Upper(path[index + 1]), Upper(path[index + 2])];
          EscapeFirst(path, index);
          AppendPiece(output, piece, Normalized(path[index + 3..]));
          output := output + [piece];
          index := index + 3;
          continue;
        }
      }
      SingleFirst(path, index);
      AppendPiece(output, [path[index]], Normalized(path[index + 1..]));
      output := output + [[path[index]]];
      index := index + 1;
    }
    r := Join(output);
  }

  lemma {:induction false} UnitsSpellThePath(path: string)
    ensures Text(Units(path)) == path
  {
    if path != [] {
      if path[0] == '%' && |path| > 2 && Octet(path[1], path[2]).Some? {
        UnitsSpellThePath(path[3..]);
      } else {
        UnitsSpellThePath(path[1..]);
      }
    }
  }

  // -- well-formed paths ------------------------------------------------------------------------------

  /** Every `%` starts a two-hex-digit triplet. */
  predicate WellFormed(path: string) {
    forall i :: 0 <= i < |path| && path[i] == '%' ==> i + 2 < |path| && IsHex(path[i + 1]) && IsHex(path[i + 2])
  }

  predicate WellFormedUnit(u: Unit) {
    (u.Literal? && u.c != '%') || (u.Triplet? && IsHex(u.hi) && IsHex(u.lo))
  }

  predicate AllWellFormed(units: seq<Unit>) {
    forall i :: 0 <= i < |units| ==> WellFormedUnit(units[i])
  }

  lemma {:induction false} WellFormedPathUnits(path: string)
    requires WellFormed(path)
    ensures AllWellFormed(Units(path))
  {
    if path != [] {
      WellFormedPathUnits(path[if path[0] == '%' then 3 else 1..]);
    }
  }

  lemma {:induction false} WellFormedUnitsPath(units: seq<Unit>)
    requires AllWellFormed(units)
    ensures WellFormed(Text(units)) && Units(Text(units)) == units
  {
    if units != [] {
      WellFormedUnitsPath(units[1..]);
      var text, head, tail := Text(units), Spelling(units[0]), Text(units[1..]);
      assert text[|head|..] == tail;
      forall i | 0 <= i < |text| && text[i] == '%'
        ensures i + 2 < |text| && IsHex(text[i + 1]) && IsHex(text[i + 2])
      {
        if i >= |head| { assert tail[i - |head|] == '%'; }
      }
    }
  }

  /** The scan of a well-formed path's normal form is its canonical units: nothing merges or splits. */
  lemma NormalForm(path: string)
    requires WellFormed(path)
    ensures WellFormed(Normalized(path)) && Units(Normalized(path)) == AllCanonical(Units(path))
  {
    WellFormedPathUnits(path);
    WellFormedUnitsPath(AllCanonical(Units(path)));
  }

  // -- meaning ------------------------------------------------------------------------------------------

  /** The octets a unit stands for, for any character encoding `utf8` that extends ASCII. */
  function UnitOctets(u: Unit, utf8: char -> seq<nat>): seq<nat> {
    match u
    case Bare => utf8('%')
    case Literal(c) => utf8(c)
    case Triplet(hi, lo) => match Octet(hi, lo) case Some(o) => [o] case None => []
  }

  function Octets(units: seq<Unit>, utf8: char -> seq<nat>): seq<nat> {
    if units == [] then [] else UnitOctets(units[0], utf8) + Octets(units[1..], utf8)
  }

  function Decoded(path: string, utf8: char -> seq<nat>): seq<nat> { Octets(Units(path), utf8) }

  ghost predicate ExtendsAscii(utf8: char -> seq<nat>) {
    forall c: char {:trigger utf8(c)} :: c as int < 128 ==> utf8(c) == [c as int]
  }

  lemma UnitCanonicalOctets(u: Unit, utf8: char -> seq<nat>)
    requires ExtendsAscii(utf8)
    ensures UnitOctets(Canonical(u), utf8) == UnitOctets(u, utf8)
  {
    if Unescapes(u) {
      assert utf8(Canonical(u).c) == [Canonical(u).c as int];
    } else if u.Triplet? {
      assert Octet(Upper(u.hi), Upper(u.lo)) == Octet(u.hi, u.lo);
    }
  }

  lemma {:induction false} CanonicalOctets(units: seq<Unit>, utf8: char -> seq<nat>)
    requires ExtendsAscii(utf8)
    ensures Octets(AllCanonical(units), utf8) == Octets(units, utf8)
  {
    if units != [] {
      UnitCanonicalOctets(units[0], utf8);
      assert AllCanonical(units)[1..] == AllCanonical(units[1..]);
      CanonicalOctets(units[1..], utf8);
    }
  }

  /** Normalising a well-formed path keeps it well formed and keeps the octets it decodes to. */
  lemma NormalizationPreservesOctets(path: string, utf8: char -> seq<nat>)
    requires WellFormed(path) && ExtendsAscii(utf8)
    ensures WellFormed(Normalized(path)) && Decoded(Normalized(path), utf8) == Decoded(path, utf8)
  {
    NormalForm(path);
    CanonicalOctets(Units(path), utf8);
  }

  /** Two units that differ at most in hex case or in escaping one unreserved character. */
  predicate Alike(u: Unit, v: Unit) {
    match (u, v)
    case (Literal(c), Literal(d)) => c == d
    case (Triplet(_, _), Triplet(_, _)) => Octet(u.hi, u.lo) == Octet(v.hi, v.lo)
    case (Literal(c), Triplet(hi, lo)) => IsUnreserved(c) && Octet(hi, lo) == Some(c as nat)
    case (Triplet(hi, lo), Literal(d)) => IsUnreserved(d) && Octet(hi, lo) == Some(d as nat)
    case _ => u == v
  }

  predicate AllAlike(us: seq<Unit>, vs: seq<Unit>) {
    |us| == |vs| && forall i :: 0 <= i < |us| ==> Alike(us[i], vs[i])
  }

  lemma EqualInUpperCase(a: char, b: char)
    requires IsHex(a) && IsHex(b)
    ensures Upper(a) == Upper(b) <==> HexValue(a) == HexValue(b)
  {
  }

  lemma AlikeIffCanonical(u: Unit, v: Unit)
    requires WellFormedUnit(u) && WellFormedUnit(v)
    ensures Alike(u, v) <==> Canonical(u) == Canonical(v)
  {
    if u.Triplet? && v.Triplet? {
      EqualInUpperCase(u.hi, v.hi);
      EqualInUpperCase(u.lo, v.lo);
    }
  }

  /** Two well-formed paths normalise alike exactly when they differ only as section 6.2.2 allows. */
  lemma EqualNormalForms(p: string, q: string)
    requires WellFormed(p) && WellFormed(q)
    ensures Normalized(p) == Normalized(q) <==> AllAlike(Units(p), Units(q))
  {
    NormalForm(p);
    NormalForm(q);
    WellFormedPathUnits(p);
    WellFormedPathUnits(q);
    var us, vs := Units(p), Units(q);
    if |us| == |vs| {
      forall i | 0 <= i < |us| ensures Alike(us[i], vs[i]) <==> AllCanonical(us)[i] == AllCanonical(vs)[i] {
        AlikeIffCanonical(us[i], vs[i]);
      }
      assert AllAlike(us, vs) ==> AllCanonical(us) == AllCanonical(vs);
    } else {
      assert |AllCanonical(us)| != |AllCanonical(vs)|;
    }
  }

  // -- applying it twice ----------------------------------------------------------------------------------

  /** A bare `%` ends up in front of two characters that now read as an escape, and one not yet canonical. */
  predicate Traps(units: seq<Unit>, i: nat) {
    && i + 2 < |units|
    && units[i].Bare?
    && Canonical(units[i + 1]).Literal?
    && Canonical(units[i + 2]).Literal?
    && var merged := Triplet(Canonical(units[i + 1]).c, Canonical(units[i + 2]).c);
       Octet(merged.hi, merged.lo).Some? && Canonical(merged) != merged
  }

  predicate NoTrap(units: seq<Unit>) {
    forall i :: 0 <= i < |units| ==> !Traps(units, i)
  }

  lemma NoTrapStep(units: seq<Unit>)
    requires units != []
    ensures NoTrap(units) <==> !Traps(units, 0) && NoTrap(units[1..])
  {
    forall j | 1 <= j < |units| ensures Traps(units, j) == Traps(units[1..], j - 1) {
    }
    if NoTrap(units) {
      forall i | 0 <= i < |units[1..]| ensures !Traps(units[1..], i) {
        assert !Traps(units, i + 1);
      }
    }
  }

  /** The first two characters of a canonical text read as hex digits only if they are two literals. */
  lemma LeadingPair(path: string, m: string)
    requires m == Normalized(path) && |m| >= 2
    ensures var cs := AllCanonical(Units(path));
      Octet(m[0], m[1]).Some? ==>
        |cs| >= 2 && cs[0] == Literal(m[0]) && cs[1] == Literal(m[1]) && m[0] != '%' && m[1] != '%'
  {
    var cs := AllCanonical(Units(path));
    assert m == Spelling(cs[0]) + Text(cs[1..]);
    if cs[0].Literal? {
      assert Text(cs[1..]) == Spelling(cs[1]) + Text(cs[1..][1..]);
    }
  }

  /** Conversely, two leading literals are the first two characters. */
  lemma LeadingLiterals(cs: seq<Unit>)
    requires |cs| >= 2 && cs[0].Literal? && cs[1].Literal?
    ensures |Text(cs)| >= 2 && Text(cs)[0] == cs[0].c && Text(cs)[1] == cs[1].c
  {
    assert Text(cs[1..]) == Spelling(cs[1]) + Text(cs[1..][1..]);
  }

  lemma LiteralCase(path: string)
    requires path != [] && path[0] != '%'
    ensures Normalized(Normalized(path)) == Normalized(path) <==>
      Normalized(Normalized(path[1..])) == Normalized(path[1..])
  {
    var rest := Normalized(path[1..]);
    LiteralFirst(path);
    LiteralFirst([path[0]] + rest);
    assert ([path[0]] + rest)[1..] == rest;
  }

  lemma CanonicalTwice(u: Unit)
    requires u.Triplet? && Octet(u.hi, u.lo).Some?
    ensures var c := Canonical(u);
      if c.Literal? then c.c != '%' else c.Triplet? && Octet(c.hi, c.lo).Some? && Canonical(c) == c
  {
  }

  lemma TripletCase(path: string)
    requires Escaped(path)
    ensures Normalized(Normalized(path)) == Normalized(path) <==>
      Normalized(Normalized(path[3..])) == Normalized(path[3..])
  {
    var rest, u := Normalized(path[3..]), Triplet(path[1], path[2]);
    var m := Spelling(Canonical(u)) + rest;
    TripletFirst(path);
    CanonicalTwice(u);
    if Canonical(u).Literal? {
      LiteralFirst(m);
      assert m[1..] == rest;
    } else {
      TripletFirst(m);
      assert m[3..] == rest;
    }
  }

  predicate PairTraps(rest: string) {
    && |rest| >= 2
    && Octet(rest[0], rest[1]).Some?
    && Canonical(Triplet(rest[0], rest[1])) != Triplet(rest[0], rest[1])
  }

  /** A bare `%` in front of a text: the text is rescanned from its third character, or from its first. */
  lemma BareAgain(rest: string)
    requires |rest| >= 2 && Octet(rest[0], rest[1]).Some? ==> rest[0] != '%' && rest[1] != '%'
    ensures Normalized(['%'] + rest) == ['%'] + rest <==> !PairTraps(rest) && Normalized(rest) == rest
  {
    var m := ['%'] + rest;
    if Escaped(m) {
      assert m[3..] == rest[2..];
      TripletFirst(m);
      EscapeUnchanged(rest[0], rest[1], rest[2..]);
      assert rest == [rest[0], rest[1]] + rest[2..];
      LiteralPairFirst(rest);
    } else {
      BareFirst(m);
      assert m[1..] == rest;
    }
  }

  lemma BareCase(path: string)
    requires path != [] && path[0] == '%' && !Escaped(path)
    ensures Normalized(Normalized(path)) == Normalized(path) <==>
      !Traps(Units(path), 0) && Normalized(Normalized(path[1..])) == Normalized(path[1..])
  {
    var rest := Normalized(path[1..]);
    BareFirst(path);
    TrapAtHead(path, rest);
    if |rest| >= 2 {
      LeadingPair(path[1..], rest);
    }
    BareAgain(rest);
  }

  lemma LiteralPairFirst(rest: string)
    requires |rest| >= 2 && rest[0] != '%' && rest[1] != '%'
    ensures Normalized(rest) == [rest[0], rest[1]] + Normalized(rest[2..])
  {
    LiteralFirst(rest);
    LiteralFirst(rest[1..]);
    assert rest[1..][1..] == rest[2..];
    TwoInFront(rest[0], rest[1], Normalized(rest[2..]));
  }

  lemma TwoInFront(a: char, b: char, tail: string)
    ensures [a] + ([b] + tail) == [a, b] + tail
  {
  }

  /** An escape in front of a text is kept, text and all, exactly when both are already canonical. */
  lemma EscapeUnchanged(x: char, y: char, tail: string)
    requires Octet(x, y).Some?
    ensures Spelling(Canonical(Triplet(x, y))) + Normalized(tail) == ['%', x, y] + tail <==>
      Canonical(Triplet(x, y)) == Triplet(x, y) && Normalized(tail) == tail
  {
    var left, right := Spelling(Canonical(Triplet(x, y))) + Normalized(tail), ['%', x, y] + tail;
    CanonicalTwice(Triplet(x, y));
    if left == right {
      assert left[0] == right[0] && left[1] == right[1] && left[2] == right[2];
      assert left[3..] == Normalized(tail) && right[3..] == tail;
    }
  }

  lemma TrapAtHead(path: string, rest: string)
    requires path != [] && path[0] == '%' && !Escaped(path) && rest == Normalized(path[1..])
    ensures Traps(Units(path), 0) <==> PairTraps(rest)
  {
    var cs := AllCanonical(Units(path[1..]));
    if |cs| >= 2 && cs[0].Literal? && cs[1].Literal? {
      LeadingLiterals(cs);
    }
    if |rest| >= 2 {
      LeadingPair(path[1..], rest);
    }
  }

  /** For every path, well formed or not: normalising twice equals normalising once exactly when no trap is set. */
  lemma {:induction false} IdempotentIffNoTrap(path: string)
    ensures Normalized(Normalized(path)) == Normalized(path) <==> NoTrap(Units(path))
  {
    if path == [] {
      return;
    }
    NoTrapStep(Units(path));
    if path[0] != '%' {
      LiteralCase(path);
      IdempotentIffNoTrap(path[1..]);
    } else if Escaped(path) {
      TripletCase(path);
      IdempotentIffNoTrap(path[3..]);
    } else {
      BareCase(path);
      IdempotentIffNoTrap(path[1..]);
    }
  }

  lemma IdempotentOnWellFormed(path: string)
    requires WellFormed(path)
    ensures Normalized(Normalized(path)) == Normalized(path)
  {
    WellFormedPathUnits(path);
    IdempotentIffNoTrap(path);
  }

  /** Well-formedness is needed: a stray `%` makes the normal form of `%%34%31` an escape that reads `A`. */
  lemma StrayPercentIsNotIdempotent()
    ensures !WellFormed("%%34%31")
    ensures Normalized("%%34%31") == "%41" && Normalized("%41") == "A"
  {
    var path := "%%34%31";
    assert path[0] == '%' && !IsHex(path[1]);
    BareFirst(path);
    assert path[1..] == "%34%31";
    TripletFirst("%34%31");
    assert "%34%31"[3..] == "%31";
    TripletFirst("%31");
    assert "%31"[3..] == "";
    TripletFirst("%41");
    assert "%41"[3..] == "";
  }
}
