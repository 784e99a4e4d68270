/**
 The text of a stored password hash: how the two backends print it and how `verify_phc` reads it back. The key
 derivation functions are arbitrary functions of the right output length.
 */
module PasswordHash {
  import opened Wrappers
  import opened Base64
  import opened Splitting
  import Decimal

  datatype Params = Scrypt(logN: nat, r: nat, p: nat) | Pbkdf2(iterations: nat)

  /** What a stored hash holds. */
  datatype Phc = Phc(params: Params, salt: seq<Byte>, derived: seq<Byte>)

  /** Derives `dklen` bytes from a password, a salt and the algorithm's parameters. */
  type Kdf = (Params, string, seq<Byte>, nat) -> seq<Byte>

  ghost predicate Derives(kdf: Kdf) {
    forall ps, password, salt, dklen {:trigger kdf(ps, password, salt, dklen)} ::
      |kdf(ps, password, salt, dklen)| == dklen
  }

  /** `hashlib.scrypt` may be missing, and a malformed field raises whatever its parser raises. */
  datatype Failure = UnsupportedHash | Raised

  // -- printing -----------------------------------------------------------------------------------------

  function Fields(params: Params): (fields: seq<string>)
    ensures |fields| >= 1
  {
    match params
    case Scrypt(n, r, p) => ["ln=" + Decimal.Print(n), "r=" + Decimal.Print(r), "p=" + Decimal.Print(p)]
    case Pbkdf2(i) => ["i=" + Decimal.Print(i)]
  }

  function Name(params: Params): string {
    if params.Scrypt? then "scrypt" else "pbkdf2-sha256"
  }

  function Parts(h: Phc): seq<string> {
    ["", Name(h.params), Join(Fields(h.params), ','), Encode(Standard, h.salt), Encode(Standard, h.derived)]
  }

  function Print(h: Phc): string { Join(Parts(h), '$') }

  /** `hash_password` of either backend, its random salt a parameter. */
  function HashPassword(kdf: Kdf, params: Params, dklen: nat, password: string, salt: seq<Byte>): string {
    Print(Phc(params, salt, kdf(params, password, salt, dklen)))
  }

  // -- parsing ------------------------------------------------------------------------------------------

  /** `dict(item.split("=") for item in ...)`: None on an item that is not one key and one value. */
  function Pairs(items: seq<string>): Option<map<string, string>> {
    if items == [] then Some(map[])
    else
      var item := Split(items[|items| - 1], '=');
      match Pairs(items[..|items| - 1])
      case Some(m) => if |item| == 2 then Some(m[item[0] := item[1]]) else None
      case None => None
  }

  /** `int(values[key])`. */
  function Number(values: map<string, string>, key: string): Option<nat> {
    if key in values then Decimal.Parse(values[key]) else None
  }

  function ParseParams(name: string, params: string): Result<Params, Failure> {
    match Pairs(Split(params, ','))
    case None => Err(Raised)
    case Some(values) =>
      if name == "scrypt" then
        match (Number(values, "ln"), Number(values, "r"), Number(values, "p"))
        case (Some(n), Some(r), Some(p)) => Ok(Scrypt(n, r, p))
        case _ => Err(Raised)
      else
        match Number(values, "i")
        case Some(i) => Ok(Pbkdf2(i))
        case None => Err(Raised)
  }

  function ParseBytes(text: string): Option<seq<Byte>> {
    if Readable(Standard, text) then Decode(Standard, text) else None
  }

  /** Everything `verify_phc` reads from the stored text, in its order; None is a plain `False`. */
  function Parse(stored: string, haveScrypt: bool): Result<Option<Phc>, Failure> {
    var parts := Split(stored, '$');
    if |parts| != 5 || parts[0] != "" then Ok(None)
    else
      match (ParseBytes(parts[3]), ParseBytes(parts[4]))
      case (Some(salt), Some(expected)) =>
        if parts[1] == "scrypt" && !haveScrypt then Err(UnsupportedHash)
        else if parts[1] != "scrypt" && parts[1] != "pbkdf2-sha256" then Err(UnsupportedHash)
        else (
          match ParseParams(parts[1], parts[2])
          case Ok(params) => Ok(Some(Phc(params, salt, expected)))
          case Err(e) => Err(e)
        )
      case _ => Err(Raised)
  }

  function VerifyPhc(kdf: Kdf, password: string, stored: string, haveScrypt: bool): Result<bool, Failure> {
    match Parse(stored, haveScrypt)
    case Err(e) => Err(e)
    case Ok(None) => Ok(false)
    case Ok(Some(h)) => Ok(kdf(h.params, password, h.salt, |h.derived|) == h.derived)
  }

  // -- the round trip -------------------------------------------------------------------------------------

  lemma ReadableLacks(text: string, d: char)
    requires Readable(Standard, text) && !InAlphabet(Standard, d)
    ensures d !in text
  {
  }

  lemma DigitsLack(n: nat, d: char)
    requires !Decimal.IsDigit(d)
    ensures d !in Decimal.Print(n)
  {
  }

  lemma FieldSplits(key: string, n: nat)
    requires '=' !in key
    ensures Split(key + "=" + Decimal.Print(n), '=') == [key, Decimal.Print(n)]
  {
    DigitsLack(n, '=');
    SplitFirst(key, '=', Decimal.Print(n));
    SplitWhole(Decimal.Print(n), '=');
  }

  lemma PairsStep(items: seq<string>, item: string, key: string, n: nat)
    requires item == key + "=" + Decimal.Print(n) && '=' !in key && Pairs(items).Some?
    ensures Pairs(items + [item]) == Some(Pairs(items).value[key := Decimal.Print(n)])
  {
    FieldSplits(key, n);
    assert (items + [item])[..|items|] == items;
  }

  lemma FieldsArePairs(params: Params)
    ensures Pairs(Fields(params)) == Some(
      match params
      case Scrypt(n, r, p) => map["ln" := Decimal.Print(n), "r" := Decimal.Print(r), "p" := Decimal.Print(p)]
      case Pbkdf2(i) => map["i" := Decimal.Print(i)])
  {
    match params
    case Scrypt(n, r, p) =>
      var one := ["ln=" + Decimal.Print(n)];
      var two := one + ["r=" + Decimal.Print(r)];
      PairsStep([], "ln=" + Decimal.Print(n), "ln", n);
      assert [] + one == one;
      PairsStep(one, "r=" + Decimal.Print(r), "r", r);
      PairsStep(two, "p=" + Decimal.Print(p), "p", p);
      assert two + ["p=" + Decimal.Print(p)] == Fields(params);
    case Pbkdf2(i) =>
      PairsStep([], "i=" + Decimal.Print(i), "i", i);
      assert [] + ["i=" + Decimal.Print(i)] == Fields(params);
  }

  lemma FieldsLack(params: Params, d: char)
    requires d == ',' || d == '$'
    ensures forall i :: 0 <= i < |Fields(params)| ==> d !in Fields(params)[i]
  {
    match params
    case Scrypt(n, r, p) => DigitsLack(n, d); DigitsLack(r, d); DigitsLack(p, d);
    case Pbkdf2(i) => DigitsLack(i, d);
  }

  lemma {:induction false} JoinLacks(parts: seq<string>, glue: char, d: char)
    requires |parts| >= 1 && glue != d && forall i :: 0 <= i < |parts| ==> d !in parts[i]
    ensures d !in Join(parts, glue)
  {
    if |parts| > 1 { JoinLacks(parts[1..], glue, d); }
  }

  lemma ParamsRoundTrip(params: Params)
    ensures ParseParams(Name(params), Join(Fields(params), ',')) == Ok(params)
  {
    FieldsLack(params, ',');
    SplitUndoesJoin(Fields(params), ',');
    FieldsArePairs(params);
    match params
    case Scrypt(n, r, p) =>
      Decimal.ParseUndoesPrint(n);
      Decimal.ParseUndoesPrint(r);
      Decimal.ParseUndoesPrint(p);
    case Pbkdf2(i) => Decimal.ParseUndoesPrint(i);
  }

  lemma PrintedParts(h: Phc)
    ensures Split(Print(h), '$') == Parts(h)
  {
    DecodeUndoesEncode(Standard, h.salt);
    DecodeUndoesEncode(Standard, h.derived);
    ReadableLacks(Encode(Standard, h.salt), '$');
    ReadableLacks(Encode(Standard, h.derived), '$');
    FieldsLack(h.params, '$');
    JoinLacks(Fields(h.params), ',', '$');
    SplitUndoesJoin(Parts(h), '$');
  }

  /** The stored text of a scrypt hash. */
  lemma ScryptText(n: nat, r: nat, p: nat, salt: seq<Byte>, derived: seq<Byte>)
    ensures Print(Phc(Scrypt(n, r, p), salt, derived)) ==
      "$scrypt$" + ("ln=" + Decimal.Print(n) + ",r=" + Decimal.Print(r) + ",p=" + Decimal.Print(p)) +
      "$" + Encode(Standard, salt) + "$" + Encode(Standard, derived)
  {
    var parts := Parts(Phc(Scrypt(n, r, p), salt, derived));
    JoinFive(parts[0], parts[1], parts[2], parts[3], parts[4], '$');
    ScryptFields(n, r, p);
    assert "" + ['$'] + "scrypt" + ['$'] == "$scrypt$";
  }

  lemma ScryptFields(n: nat, r: nat, p: nat)
    ensures Join(Fields(Scrypt(n, r, p)), ',') ==
      "ln=" + Decimal.Print(n) + ",r=" + Decimal.Print(r) + ",p=" + Decimal.Print(p)
  {
    var a, b, c := Decimal.Print(n), Decimal.Print(r), Decimal.Print(p);
    JoinThree("ln=" + a, "r=" + b, "p=" + c, ',');
    Glue("ln=" + a, [','], "r=", b);
    Glue("ln=" + a + ",r=" + b, [','], "p=", c);
    assert [','] + "r=" == ",r=" && [','] + "p=" == ",p=";
  }

  lemma Glue(a: string, d: string, key: string, value: string)
    ensures a + d + (key + value) == a + (d + key) + value
  {
  }

  lemma Pbkdf2Text(i: nat, salt: seq<Byte>, derived: seq<Byte>)
    ensures Print(Phc(Pbkdf2(i), salt, derived)) ==
      "$pbkdf2-sha256$" + ("i=" + Decimal.Print(i)) + "$" + Encode(Standard, salt) + "$" + Encode(Standard, derived)
  {
    var parts := Parts(Phc(Pbkdf2(i), salt, derived));
    JoinFive(parts[0], parts[1], parts[2], parts[3], parts[4], '$');
    assert "" + ['$'] + "pbkdf2-sha256" + ['$'] == "$pbkdf2-sha256$";
  }

  lemma JoinThree(a: string, b: string, c: string, d: char)
    ensures Join([a, b, c], d) == a + [d] + b + [d] + c
  {
    assert [a, b, c][1..] == [b, c] && [b, c][1..] == [c];
    assert Join([b, c], d) == b + [d] + Join([c], d);
    assert Join([a, b, c], d) == a + [d] + Join([b, c], d);
  }

  lemma JoinFive(a: string, b: string, c: string, e: string, f: string, d: char)
    ensures Join([a, b, c, e, f], d) == a + [d] + b + [d] + c + [d] + e + [d] + f
  {
    assert [a, b, c, e, f][1..] == [b, c, e, f] && [b, c, e, f][1..] == [c, e, f];
    JoinThree(c, e, f, d);
    assert Join([b, c, e, f], d) == b + [d] + Join([c, e, f], d);
    assert Join([a, b, c, e, f], d) == a + [d] + Join([b, c, e, f], d);
  }

  /**
   Exactly the texts that do not open with `$`, or have another number of them than four, are no hash; no password
   matches them. Any other is compared as what was parsed of it, or the parser's failure is raised.
   */
  lemma NotAHashExactly(kdf: Kdf, password: string, stored: string, haveScrypt: bool)
    ensures Parse(stored, haveScrypt) == Ok(None) <==> multiset(stored)['$'] != 4 || stored[0] != '$'
    ensures multiset(stored)['$'] != 4 || stored[0] != '$' ==> VerifyPhc(kdf, password, stored, haveScrypt) == Ok(false)
    ensures Parse(stored, haveScrypt).Err? <==> VerifyPhc(kdf, password, stored, haveScrypt).Err?
  {
    SplitParts(stored, '$');
  }

  /** A text of the right shape under any other algorithm name is refused as unsupported, whatever its parameters. */
  lemma OtherAlgorithmsAreUnsupported(
      name: string, params: string, salt: seq<Byte>, derived: seq<Byte>, haveScrypt: bool)
    requires '$' !in name && '$' !in params && name != "scrypt" && name != "pbkdf2-sha256"
    ensures Parse(
      "$" + name + "$" + params + "$" + Encode(Standard, salt) + "$" + Encode(Standard, derived), haveScrypt) ==
      Err(UnsupportedHash)
  {
    var parts := ["", name, params, Encode(Standard, salt), Encode(Standard, derived)];
    DecodeUndoesEncode(Standard, salt);
    DecodeUndoesEncode(Standard, derived);
    ReadableLacks(Encode(Standard, salt), '$');
    ReadableLacks(Encode(Standard, derived), '$');
    JoinFive(parts[0], parts[1], parts[2], parts[3], parts[4], '$');
    assert "" + ['$'] == "$";
    SplitUndoesJoin(parts, '$');
  }

  /** Every pair that is read stands in the text as `key=value`, and every item is such a pair. */
  lemma {:induction false} PairsStand(items: seq<string>)
    ensures Pairs(items).Some? ==>
      && (forall key :: key in Pairs(items).value ==> key + "=" + Pairs(items).value[key] in items)
      && (forall i :: 0 <= i < |items| ==> multiset(items[i])['='] == 1)
  {
    if items != [] {
      var n := |items| - 1;
      var item := Split(items[n], '=');
      PairsStand(items[..n]);
      SplitParts(items[n], '=');
      JoinUndoesSplit(items[n], '=');
      assert |item| == 2 ==> Join(item, '=') == item[0] + ['='] + Join(item[1..], '=') == item[0] + "=" + item[1];
      assert forall i :: 0 <= i < n ==> items[..n][i] == items[i];
    }
  }

  predicate Field(params: string, key: string, n: nat) {
    exists i :: 0 <= i < |Split(params, ',')| && Reads(Split(params, ',')[i], key, n)
  }

  /** `key=` and a number. */
  predicate Reads(item: string, key: string, n: nat) {
    |key| < |item| && item[..|key| + 1] == key + "=" && Decimal.Parse(item[|key| + 1..]) == Some(n)
  }

  lemma NumberIsAField(params: string, key: string)
    requires Pairs(Split(params, ',')).Some?
    ensures var number := Number(Pairs(Split(params, ',')).value, key);
      number.Some? ==> Field(params, key, number.value)
  {
    var items := Split(params, ',');
    var values := Pairs(items).value;
    PairsStand(items);
    if key in values {
      var i :| 0 <= i < |items| && items[i] == key + "=" + values[key];
      assert items[i][..|key| + 1] == key + "=" && items[i][|key| + 1..] == values[key];
      assert Number(values, key).Some? ==> Reads(items[i], key, Number(values, key).value);
    }
  }

  /** No parameter is made up: each one that is read is a number in a field of its name, or reading raises. */
  lemma ParamsStandInTheText(name: string, params: string)
    requires name == "scrypt" || name == "pbkdf2-sha256"
    ensures match ParseParams(name, params)
      case Ok(Scrypt(n, r, p)) =>
        name == "scrypt" && Field(params, "ln", n) && Field(params, "r", r) && Field(params, "p", p)
      case Ok(Pbkdf2(i)) => name == "pbkdf2-sha256" && Field(params, "i", i)
      case Err(e) => e == Raised
  {
    if Pairs(Split(params, ',')).Some? {
      NumberIsAField(params, "ln");
      NumberIsAField(params, "r");
      NumberIsAField(params, "p");
      NumberIsAField(params, "i");
    }
  }

  /** Parsing a printed hash gives back its parameters, salt and key, or says that scrypt cannot run here. */
  lemma ParseUndoesPrint(h: Phc, haveScrypt: bool)
    ensures Parse(Print(h), haveScrypt) ==
      if h.params.Scrypt? && !haveScrypt then Err(UnsupportedHash) else Ok(Some(h))
  {
    PrintedParts(h);
    DecodeUndoesEncode(Standard, h.salt);
    DecodeUndoesEncode(Standard, h.derived);
    ParamsRoundTrip(h.params);
  }

  /** A stored hash accepts exactly the passwords that derive the same key under its own parameters and salt. */
  lemma VerifyUndoesHash(
      kdf: Kdf, params: Params, dklen: nat, password: string, salt: seq<Byte>, attempt: string, haveScrypt: bool)
    requires Derives(kdf)
    ensures var stored := HashPassword(kdf, params, dklen, password, salt);
      VerifyPhc(kdf, attempt, stored, haveScrypt) ==
        if params.Scrypt? && !haveScrypt then Err(UnsupportedHash)
        else Ok(kdf(params, attempt, salt, dklen) == kdf(params, password, salt, dklen))
  {
    ParseUndoesPrint(Phc(params, salt, kdf(params, password, salt, dklen)), haveScrypt);
  }

  /** Two stored texts are equal only for the same parameters, salt and key. */
  lemma PrintIsInjective(g: Phc, h: Phc)
    requires Print(g) == Print(h)
    ensures g == h
  {
    ParseUndoesPrint(g, true);
    ParseUndoesPrint(h, true);
  }
}
