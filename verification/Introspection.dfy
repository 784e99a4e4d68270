/**
 Two ways to check an access token: `verify_token` beside the store, and RFC 7662 introspection read by a
 separated `OAuthIntrospectionVerifier`. Both are modelled in full and proved to accept the same tokens.
 */
module Introspection {
  import opened Ascii
  import opened Wrappers
  import opened Base64

  const ACCESS_PREFIX := "hat_"
  const REFRESH_PREFIX := "har_"
  const TOKEN_ACTIVE := 0

  /** SHA-256 as a key: a digest determines its text. */
  datatype Digest = Digest(text: string)

  /** An `oauth_token` row; stamps are whole seconds. */
  datatype TokenRow = TokenRow(
    id: string, userId: string, clientId: string, accessHash: Digest, refreshHash: Option<Digest>, revoked: nat,
    scope: Option<string>, resource: Option<string>, jkt: Option<string>,
    accessExpiresAt: int, refreshExpiresAt: Option<int>, createdAt: int)

  // -- resources --------------------------------------------------------------------------------------------

  datatype Url = Url(scheme: string, netloc: string, rest: string)

  /** The library calls the code makes on texts: `urlsplit`, `geturl`, `str.split`. None is `ValueError`. */
  datatype Library = Library(split: string -> Option<Url>, join: Url -> string, words: string -> seq<string>)

  function Lowered(u: Url): Url { u.(scheme := Lower(u.scheme), netloc := Lower(u.netloc)) }

  /** `_canonical_resource` */
  function Canonical(lib: Library, value: string): Option<string> {
    match lib.split(value)
    case None => None
    case Some(u) => Some(lib.join(Lowered(u)))
  }

  /** `_resource_matches` */
  predicate ResourceMatches(lib: Library, presented: string, expected: string) {
    Canonical(lib, presented).Some? && Canonical(lib, presented) == Canonical(lib, expected)
  }

  /** Writing this value's canonical URL out and splitting it again gives the same URL. */
  predicate RoundTrips(lib: Library, value: string) {
    match lib.split(value)
    case None => false
    case Some(u) => lib.split(lib.join(Lowered(u))) == Some(Lowered(u))
  }

  lemma CanonicalTwice(lib: Library, value: string)
    requires RoundTrips(lib, value)
    ensures Canonical(lib, Canonical(lib, value).value) == Canonical(lib, value)
  {
    var u := lib.split(value).value;
    LowerTwice(u.scheme);
    LowerTwice(u.netloc);
  }

  /** The case of the scheme and the host does not matter; between round-tripping values nothing else is ignored. */
  lemma CanonicalIgnoresCase(lib: Library, a: string, b: string)
    requires lib.split(a).Some? && lib.split(b).Some?
    ensures var u, v := lib.split(a).value, lib.split(b).value;
      var same := u.rest == v.rest && SameFolded(u.scheme, v.scheme) && SameFolded(u.netloc, v.netloc);
      && (same ==> Canonical(lib, a) == Canonical(lib, b))
      && (RoundTrips(lib, a) && RoundTrips(lib, b) && Canonical(lib, a) == Canonical(lib, b) ==> same)
  {
    var u, v := lib.split(a).value, lib.split(b).value;
    EqualInLowerCase(u.scheme, v.scheme);
    EqualInLowerCase(u.netloc, v.netloc);
  }

  predicate SameFolded(s: string, t: string) {
    |s| == |t| && forall i :: 0 <= i < |s| ==> SameLetter(s[i], t[i])
  }

  // -- beside the store -----------------------------------------------------------------------------------------

  /** What both verifiers return. */
  datatype Principal = Principal(
    user: string, client: Option<string>, scopes: seq<string>, tokenId: Option<string>, resource: Option<string>,
    jkt: Option<string>)

  function FindByAccess(table: seq<TokenRow>, digest: Digest): Option<TokenRow> {
    if table == [] then None
    else if table[0].accessHash == digest then Some(table[0])
    else FindByAccess(table[1..], digest)
  }

  function FindByRefresh(table: seq<TokenRow>, digest: Digest): Option<TokenRow> {
    if table == [] then None
    else if table[0].refreshHash == Some(digest) then Some(table[0])
    else FindByRefresh(table[1..], digest)
  }

  /** `verify_token`: Ok(None) is its None; an empty user makes `principal_from_claims` raise. */
  function VerifyToken(lib: Library, table: seq<TokenRow>, token: string, resource: Option<string>, now: int)
    : Result<Option<Principal>, ()>
  {
    if !(ACCESS_PREFIX <= token) then Ok(None)
    else
      match FindByAccess(table, Digest(token))
      case None => Ok(None)
      case Some(row) =>
        if row.revoked != TOKEN_ACTIVE || row.accessExpiresAt <= now then Ok(None)
        else if resource.Some? && (row.resource.None? || !ResourceMatches(lib, row.resource.value, resource.value)) then
          Ok(None)
        else if row.userId == "" then Err(())
        else
          var scope := if row.scope.Some? then row.scope.value else "";
          Ok(Some(Principal(row.userId, Some(row.clientId), lib.words(scope), Some(row.id), row.resource, row.jkt)))
  }

  /** The token's digest is in the row's unique access column. */
  predicate AccessUnique(table: seq<TokenRow>) {
    forall i, j :: 0 <= i < j < |table| ==> table[i].accessHash != table[j].accessHash
  }

  /** The row of this token is active and unexpired, and of the asked resource, if one is asked for. */
  predicate LiveAccess(lib: Library, row: TokenRow, token: string, resource: Option<string>, now: int) {
    && row.accessHash == Digest(token) && row.revoked == 0 && now < row.accessExpiresAt
    && (resource.Some? ==>
          && row.resource.Some? && Canonical(lib, row.resource.value).Some?
          && Canonical(lib, row.resource.value) == Canonical(lib, resource.value))
  }

  predicate Owned(lib: Library, row: TokenRow, p: Principal) {
    && p.user == row.userId && p.client == Some(row.clientId) && p.tokenId == Some(row.id)
    && p.scopes == lib.words(if row.scope == None then "" else row.scope.value)
    && p.resource == row.resource && p.jkt == row.jkt
  }

  lemma {:induction false} FoundByAccess(table: seq<TokenRow>, digest: Digest, i: nat)
    requires AccessUnique(table) && i < |table| && table[i].accessHash == digest
    ensures FindByAccess(table, digest) == Some(table[i])
  {
    if i > 0 {
      assert table[0].accessHash != table[i].accessHash;
      FoundByAccess(table[1..], digest, i - 1);
    }
  }

  lemma {:induction false} FoundIsStored(table: seq<TokenRow>, digest: Digest)
    ensures var found := FindByAccess(table, digest);
      found.Some? ==> exists i :: 0 <= i < |table| && table[i] == found.value && table[i].accessHash == digest
  {
    if table != [] && table[0].accessHash != digest {
      FoundIsStored(table[1..], digest);
      if i :| 0 <= i < |table[1..]| && FindByAccess(table, digest) == Some(table[1..][i]) &&
              table[1..][i].accessHash == digest {
        assert table[i + 1] == table[1..][i];
      }
    }
  }

  /** `verify_token` accepts exactly the tokens of live rows with what the rows say, and fails on one without a user. */
  lemma VerifiedExactly(
      lib: Library, table: seq<TokenRow>, token: string, resource: Option<string>, now: int, p: Principal)
    requires AccessUnique(table)
    ensures var r := VerifyToken(lib, table, token, resource, now);
      && (r == Ok(Some(p)) <==>
            && "hat_" <= token && p.user != ""
            && exists i ::
                 0 <= i < |table| && LiveAccess(lib, table[i], token, resource, now) && Owned(lib, table[i], p))
      && (r.Err? <==>
            && "hat_" <= token
            && exists i ::
                 0 <= i < |table| && LiveAccess(lib, table[i], token, resource, now) && table[i].userId == "")
  {
    FoundIsStored(table, Digest(token));
    forall i | 0 <= i < |table| && LiveAccess(lib, table[i], token, resource, now)
      ensures FindByAccess(table, Digest(token)) == Some(table[i])
    {
      FoundByAccess(table, Digest(token), i);
    }
  }

  // -- introspection ------------------------------------------------------------------------------------------------

  datatype Json =
    | Null | Bool(b: bool) | Num(n: int) | Str(s: string) | Arr(items: seq<Json>) | Obj(members: map<string, Json>)

  datatype Kind = Access | Refresh

  /** `_find_token_row`: the hint and the prefix only choose which column is tried first. */
  function FindTokenRow(table: seq<TokenRow>, presented: string, hint: Option<string>): Option<(TokenRow, Kind)> {
    var digest := Digest(presented);
    var byAccess, byRefresh := FindByAccess(table, digest), FindByRefresh(table, digest);
    if hint == Some("refresh_token") || REFRESH_PREFIX <= presented then
      if byRefresh.Some? then Some((byRefresh.value, Refresh))
      else if byAccess.Some? then Some((byAccess.value, Access))
      else None
    else if byAccess.Some? then Some((byAccess.value, Access))
    else if byRefresh.Some? then Some((byRefresh.value, Refresh))
    else None
  }

  const INACTIVE: Json := Obj(map["active" := Bool(false)])

  function ActiveBody(issuer: string, row: TokenRow, kind: Kind, expiresAt: int): Json
    requires row.resource.Some?
  {
    var body := map[
      "active" := Bool(true), "client_id" := Str(row.clientId), "sub" := Str(row.userId),
      "aud" := Str(row.resource.value), "iss" := Str(issuer), "exp" := Num(expiresAt), "iat" := Num(row.createdAt),
      "jti" := Str(row.id)];
    var scoped :=
      if row.scope.Some? && row.scope.value != "" then body["scope" := Str(row.scope.value)] else body;
    Obj(
      if kind.Refresh? then scoped
      else if row.jkt.Some? then
        scoped["token_type" := Str("DPoP")]["cnf" := Obj(map["jkt" := Str(row.jkt.value)])]
      else scoped["token_type" := Str("Bearer")])
  }

  /** `introspect_token` for an authenticated resource server whose configured resource is `resource`. */
  function Introspect(
      lib: Library, issuer: string, table: seq<TokenRow>, resource: string, token: string, hint: Option<string>,
      now: int): Json
  {
    match FindTokenRow(table, token, hint)
    case None => INACTIVE
    case Some(found) =>
      var (row, kind) := found;
      if row.revoked != TOKEN_ACTIVE || row.resource.None? || !ResourceMatches(lib, row.resource.value, resource) then
        INACTIVE
      else
        var expiresAt := if kind.Access? then Some(row.accessExpiresAt) else row.refreshExpiresAt;
        if expiresAt.None? || expiresAt.value <= now then INACTIVE else ActiveBody(issuer, row, kind, expiresAt.value)
  }

  /** The members of an active answer, and no `token_type` or key binding for a refresh token. */
  ghost predicate Describes(document: Json, issuer: string, row: TokenRow, kind: Kind, expiresAt: int) {
    && document.Obj? && row.resource.Some?
    && var d := document.members;
       var scoped := row.scope.Some? && row.scope.value != "";
       && d.Keys ==
          {"active", "client_id", "sub", "aud", "iss", "exp", "iat", "jti"} + (if scoped then {"scope"} else {}) +
          (if kind.Refresh? then {} else if row.jkt.Some? then {"token_type", "cnf"} else {"token_type"})
       && d["active"] == Bool(true) && d["iss"] == Str(issuer) && d["jti"] == Str(row.id)
       && d["client_id"] == Str(row.clientId) && d["sub"] == Str(row.userId) && d["aud"] == Str(row.resource.value)
       && d["exp"] == Num(expiresAt) && d["iat"] == Num(row.createdAt)
       && (scoped ==> d["scope"] == Str(row.scope.value))
       && (kind.Access? ==> d["token_type"] == Str(if row.jkt.Some? then "DPoP" else "Bearer"))
       && (kind.Access? && row.jkt.Some? ==> d["cnf"] == Obj(map["jkt" := Str(row.jkt.value)]))
  }

  lemma {:induction false} FoundByRefresh(table: seq<TokenRow>, digest: Digest)
    ensures var found := FindByRefresh(table, digest);
      if found.Some? then found.value in table && found.value.refreshHash == Some(digest)
      else forall i :: 0 <= i < |table| ==> table[i].refreshHash != Some(digest)
  {
    if table != [] {
      FoundByRefresh(table[1..], digest);
      assert forall i :: 1 <= i < |table| ==> table[i] == table[1..][i - 1];
    }
  }

  lemma {:induction false} NotFoundByAccess(table: seq<TokenRow>, digest: Digest)
    ensures FindByAccess(table, digest).None? ==> forall i :: 0 <= i < |table| ==> table[i].accessHash != digest
  {
    if table != [] {
      NotFoundByAccess(table[1..], digest);
      assert forall i :: 1 <= i < |table| ==> table[i] == table[1..][i - 1];
    }
  }

  /** Whatever the hint, a row is found if the token is in either column, as the kind whose column it is in. */
  lemma EitherColumnIsFound(table: seq<TokenRow>, token: string, hint: Option<string>)
    ensures var found := FindTokenRow(table, token, hint);
      if found.Some? then
        var (row, kind) := found.value;
        row in table && if kind.Access? then row.accessHash.text == token else row.refreshHash == Some(Digest(token))
      else
        forall i :: 0 <= i < |table| ==>
          table[i].accessHash.text != token && table[i].refreshHash != Some(Digest(token))
  {
    FoundIsStored(table, Digest(token));
    NotFoundByAccess(table, Digest(token));
    FoundByRefresh(table, Digest(token));
  }

  /** The row is live and of the server's resource. */
  predicate Usable(lib: Library, row: TokenRow, resource: string) {
    && row.revoked == 0 && row.resource.Some?
    && Canonical(lib, row.resource.value).Some? && Canonical(lib, row.resource.value) == Canonical(lib, resource)
  }

  /** When the row stops being good as this kind of token; a row without a refresh token never was as one. */
  predicate Unexpired(row: TokenRow, kind: Kind, now: int) {
    if kind.Access? then now < row.accessExpiresAt
    else row.refreshExpiresAt.Some? && now < row.refreshExpiresAt.value
  }

  /**
   Section 2.2 of RFC 7662: an answer describes a row found under the token that is active, unexpired and of the
   server's resource, with the lifetime of the kind of token it was found as; any other says only that it is inactive.
   */
  lemma AnswerDescribesTheRow(
      lib: Library, issuer: string, table: seq<TokenRow>, resource: string, token: string, hint: Option<string>,
      now: int)
    ensures var document := Introspect(lib, issuer, table, resource, token, hint, now);
      var found := FindTokenRow(table, token, hint);
      if found.Some? && Usable(lib, found.value.0, resource) && Unexpired(found.value.0, found.value.1, now) then
        var (row, kind) := found.value;
        Describes(document, issuer, row, kind, if kind.Access? then row.accessExpiresAt else row.refreshExpiresAt.value)
      else document == Obj(map["active" := Bool(false)])
  {
    var found := FindTokenRow(table, token, hint);
    if found.Some? {
      var (row, kind) := found.value;
      if Usable(lib, row, resource) && Unexpired(row, kind, now) {
        BodyDescribes(issuer, row, kind, if kind.Access? then row.accessExpiresAt else row.refreshExpiresAt.value);
      }
    }
  }

  lemma BodyDescribes(issuer: string, row: TokenRow, kind: Kind, expiresAt: int)
    requires row.resource.Some?
    ensures Describes(ActiveBody(issuer, row, kind, expiresAt), issuer, row, kind, expiresAt)
  {
  }

  // -- the separated verifier ---------------------------------------------------------------------------------------

  function Member(document: map<string, Json>, key: string): Json {
    if key in document then document[key] else Null
  }

  function Audiences(document: map<string, Json>): seq<Json> {
    var aud := Member(document, "aud");
    if aud.Arr? then aud.items else [aud]
  }

  predicate NamesResource(lib: Library, item: Json, resource: string) {
    item.Str? && Canonical(lib, item.s) == Some(resource)
  }

  /** The key binding the document states: no value is a document to refuse, Some(None) a plain bearer token. */
  function Binding(document: map<string, Json>): Option<Option<string>> {
    var kind, cnf := Member(document, "token_type"), Member(document, "cnf");
    if kind == Str("DPoP") then
      if cnf.Obj? && Member(cnf.members, "jkt").Str? && ValidJkt(cnf.members["jkt"].s) then
        Some(Some(cnf.members["jkt"].s))
      else None
    else if cnf == Null && (kind == Null || kind == Str("Bearer")) then Some(None)
    else None
  }

  function OptionalText(value: Json): Option<string> { if value.Str? then Some(value.s) else None }

  /** A document is accepted exactly when it is an object that is active, names the resource, a user and text scopes. */
  ghost predicate Acceptable(lib: Library, resource: string, document: Json) {
    && document.Obj?
    && var d := document.members;
       && Member(d, "active") == Bool(true)
       && (exists i :: 0 <= i < |Audiences(d)| && NamesResource(lib, Audiences(d)[i], resource))
       && Member(d, "sub").Str? && Member(d, "sub").s != ""
       && ("scope" in d ==> d["scope"].Str?)
       && Binding(d).Some?
  }

  function Claims(lib: Library, resource: string, d: map<string, Json>): Principal
    requires Member(d, "sub").Str? && ("scope" in d ==> d["scope"].Str?) && Binding(d).Some?
  {
    Principal(
      Member(d, "sub").s, OptionalText(Member(d, "client_id")), lib.words(if "scope" in d then d["scope"].s else ""),
      OptionalText(Member(d, "jti")), Some(resource), Binding(d).value)
  }

  /** The audience is one text, or a list with this text in it. */
  predicate Audience(d: map<string, Json>, text: string) {
    "aud" in d && (d["aud"] == Str(text) || (d["aud"].Arr? && Str(text) in d["aud"].items))
  }

  predicate Absent(d: map<string, Json>, key: string) { key !in d || d[key] == Null }

  /** A DPoP token states its key; any other is a bearer token, or says nothing, and states none. */
  predicate StatesKey(d: map<string, Json>, key: Option<string>) {
    if key.Some? then
      && "token_type" in d && d["token_type"] == Str("DPoP")
      && "cnf" in d && d["cnf"].Obj? && "jkt" in d["cnf"].members && d["cnf"].members["jkt"] == Str(key.value)
      && ValidJkt(key.value)
    else Absent(d, "cnf") && (Absent(d, "token_type") || d["token_type"] == Str("Bearer"))
  }

  predicate TextOrNone(d: map<string, Json>, key: string, value: Option<string>) {
    if key in d && d[key].Str? then value == Some(d[key].s) else value == None
  }

  /** The document is active, names the resource among its audiences, and states this principal. */
  ghost predicate Accepts(lib: Library, resource: string, document: Json, p: Principal) {
    && document.Obj?
    && var d := document.members;
       && "active" in d && d["active"] == Bool(true)
       && (exists text :: Audience(d, text) && Canonical(lib, text) == Some(resource))
       && "sub" in d && d["sub"] == Str(p.user) && p.user != ""
       && ("scope" in d ==> d["scope"].Str?) && p.scopes == lib.words(if "scope" in d then d["scope"].s else "")
       && TextOrNone(d, "client_id", p.client) && TextOrNone(d, "jti", p.tokenId)
       && p.resource == Some(resource) && StatesKey(d, p.jkt)
  }

  lemma AudienceIsNamed(lib: Library, resource: string, d: map<string, Json>)
    ensures (exists i :: 0 <= i < |Audiences(d)| && NamesResource(lib, Audiences(d)[i], resource)) <==>
      exists text :: Audience(d, text) && Canonical(lib, text) == Some(resource)
  {
    if i :| 0 <= i < |Audiences(d)| && NamesResource(lib, Audiences(d)[i], resource) {
      assert Audience(d, Audiences(d)[i].s);
    }
    if text :| Audience(d, text) && Canonical(lib, text) == Some(resource) {
      var i :| 0 <= i < |Audiences(d)| && Audiences(d)[i] == Str(text);
      assert NamesResource(lib, Audiences(d)[i], resource);
    }
  }

  lemma BindingIsStated(d: map<string, Json>, key: Option<string>)
    ensures Binding(d) == Some(key) <==> StatesKey(d, key)
  {
  }

  lemma AcceptsExactly(lib: Library, resource: string, document: Json, p: Principal)
    ensures Accepts(lib, resource, document, p) <==>
      Acceptable(lib, resource, document) && p == Claims(lib, resource, document.members)
  {
    if document.Obj? {
      AudienceIsNamed(lib, resource, document.members);
      BindingIsStated(document.members, p.jkt);
    }
  }

  /** `OAuthIntrospectionVerifier.__call__` on the decoded document of a 200 JSON response. */
  method VerifyDocument(lib: Library, resource: string, document: Json) returns (r: Option<Principal>)
    ensures r.Some? <==> Acceptable(lib, resource, document)
    ensures r.Some? ==> r.value == Claims(lib, resource, document.members)
    ensures forall p :: Accepts(lib, resource, document, p) <==> r == Some(p)
  {
    forall p ensures Accepts(lib, resource, document, p) <==>
      Acceptable(lib, resource, document) && p == Claims(lib, resource, document.members)
    {
      AcceptsExactly(lib, resource, document, p);
    }
    if !document.Obj? || Member(document.members, "active") != Bool(true) { return None; }
    var d := document.members;
    var audiences := Audiences(d);
    var matches := false;
    for i := 0 to |audiences|
      invariant !matches
      invariant forall j :: 0 <= j < i ==> !NamesResource(lib, audiences[j], resource)
    {
      if !audiences[i].Str? { continue; }
      var canonical := Canonical(lib, audiences[i].s);
      if canonical.None? { continue; }
      matches := canonical.value == resource;
      if matches { break; }
    }
    if !matches { return None; }
    var subject := Member(d, "sub");
    if !subject.Str? || subject.s == "" { return None; }
    var scope := if "scope" in d then d["scope"] else Str("");
    if !scope.Str? { return None; }
    var principal := Principal(subject.s, None, lib.words(scope.s), None, Some(resource), None);
    var client := Member(d, "client_id");
    if client.Str? { principal := principal.(client := Some(client.s)); }
    var tokenId := Member(d, "jti");
    if tokenId.Str? { principal := principal.(tokenId := Some(tokenId.s)); }
    var kind, confirmation := Member(d, "token_type"), Member(d, "cnf");
    if kind == Str("DPoP") {
      if !confirmation.Obj? || !Member(confirmation.members, "jkt").Str? { return None; }
      if !ValidJkt(confirmation.members["jkt"].s) { return None; }
      principal := principal.(jkt := Some(confirmation.members["jkt"].s));
    } else if confirmation != Null || (kind != Null && kind != Str("Bearer")) {
      return None;
    }
    return Some(principal);
  }

  // -- agreement ------------------------------------------------------------------------------------------------------

  /** Refresh tokens carry their own prefix, so no stored refresh digest is the digest of an access token. */
  predicate RefreshPrefixed(table: seq<TokenRow>) {
    forall i :: 0 <= i < |table| && table[i].refreshHash.Some? ==> REFRESH_PREFIX <= table[i].refreshHash.value.text
  }

  lemma {:induction false} NoRefreshRow(table: seq<TokenRow>, token: string)
    requires RefreshPrefixed(table) && ACCESS_PREFIX <= token
    ensures FindByRefresh(table, Digest(token)) == None
  {
    if table != [] {
      assert token[2] == 't';
      NoRefreshRow(table[1..], token);
    }
  }

  lemma AccessTokenIsFoundAsItself(table: seq<TokenRow>, token: string, hint: Option<string>)
    requires RefreshPrefixed(table) && ACCESS_PREFIX <= token
    ensures var row := FindByAccess(table, Digest(token));
      FindTokenRow(table, token, hint) == if row.Some? then Some((row.value, Access)) else None
  {
    NoRefreshRow(table, token);
  }

  /** An active body passes the verifier exactly when its user is not empty and its key, if any, is a thumbprint. */
  lemma ActiveBodyIsAcceptable(lib: Library, issuer: string, row: TokenRow, resource: string, expiresAt: int)
    requires row.resource.Some? && Canonical(lib, row.resource.value) == Some(resource)
    ensures var body := ActiveBody(issuer, row, Access, expiresAt);
      && (Acceptable(lib, resource, body) <==> row.userId != "" && (row.jkt.Some? ==> ValidJkt(row.jkt.value)))
      && (Acceptable(lib, resource, body) ==> Claims(lib, resource, body.members) == Principal(
            row.userId, Some(row.clientId), lib.words(if row.scope.Some? then row.scope.value else ""), Some(row.id),
            Some(resource), row.jkt))
  {
    var d := ActiveBody(issuer, row, Access, expiresAt).members;
    assert Audiences(d) == [Str(row.resource.value)];
    assert NamesResource(lib, Audiences(d)[0], resource);
    ActiveBodyBinding(issuer, row, expiresAt);
  }

  lemma ActiveBodyBinding(issuer: string, row: TokenRow, expiresAt: int)
    requires row.resource.Some?
    ensures Binding(ActiveBody(issuer, row, Access, expiresAt).members) ==
      if row.jkt.None? then Some(None) else if ValidJkt(row.jkt.value) then Some(row.jkt) else None
  {
  }

  /**
   For every store, instant and access token: introspection read by the separated verifier accepts exactly when
   `verify_token` accepts for the same resource and the stored key, if any, is a well-formed thumbprint; both
   then give the same user, client, scopes, token id and key, and name the same resource.
   */
  lemma SeparatedAgreesWithDirect(
      lib: Library, issuer: string, table: seq<TokenRow>, configured: string, server: string, token: string,
      hint: Option<string>, now: int)
    requires RefreshPrefixed(table) && ACCESS_PREFIX <= token
    requires RoundTrips(lib, configured) && Canonical(lib, configured) == Some(server)
    ensures var document := Introspect(lib, issuer, table, server, token, hint, now);
      var direct := VerifyToken(lib, table, token, Some(configured), now);
      && (Acceptable(lib, server, document) <==>
            direct.Ok? && direct.value.Some? &&
            (direct.value.value.jkt.Some? ==> ValidJkt(direct.value.value.jkt.value)))
      && (Acceptable(lib, server, document) ==>
            Claims(lib, server, document.members) == direct.value.value.(resource := Some(server)) &&
            Canonical(lib, direct.value.value.resource.value) == Some(server))
  {
    AccessTokenIsFoundAsItself(table, token, hint);
    CanonicalTwice(lib, configured);
    var found := FindByAccess(table, Digest(token));
    if found.Some? {
      var row := found.value;
      if row.resource.Some? && Canonical(lib, row.resource.value) == Some(server) {
        ActiveBodyIsAcceptable(lib, issuer, row, server, row.accessExpiresAt);
      }
    }
  }

  /** The stored rows as issuance leaves them: canonical resources, thumbprint keys, named users. */
  predicate AsIssued(lib: Library, table: seq<TokenRow>) {
    forall i :: 0 <= i < |table| ==>
      && (table[i].resource.Some? ==> Canonical(lib, table[i].resource.value) == table[i].resource)
      && (table[i].jkt.Some? ==> ValidJkt(table[i].jkt.value))
      && table[i].userId != ""
  }

  /** On rows as issued the two verifiers are the same function of the token. */
  lemma SameOnIssuedRows(
      lib: Library, issuer: string, table: seq<TokenRow>, configured: string, server: string, token: string,
      hint: Option<string>, now: int)
    requires RefreshPrefixed(table) && ACCESS_PREFIX <= token && AsIssued(lib, table)
    requires RoundTrips(lib, configured) && Canonical(lib, configured) == Some(server)
    ensures var document := Introspect(lib, issuer, table, server, token, hint, now);
      VerifyToken(lib, table, token, Some(configured), now) ==
        Ok(if Acceptable(lib, server, document) then Some(Claims(lib, server, document.members)) else None)
  {
    SeparatedAgreesWithDirect(lib, issuer, table, configured, server, token, hint, now);
    FoundIsStored(table, Digest(token));
  }

  // -- every other token ----------------------------------------------------------------------------------------

  /** Access tokens carry their own prefix, so only such texts are found in the access column. */
  predicate AccessPrefixed(table: seq<TokenRow>) {
    forall i :: 0 <= i < |table| ==> ACCESS_PREFIX <= table[i].accessHash.text
  }

  lemma {:induction false} NoAccessRow(table: seq<TokenRow>, token: string)
    requires AccessPrefixed(table) && !(ACCESS_PREFIX <= token)
    ensures FindByAccess(table, Digest(token)) == None
  {
    if table != [] { NoAccessRow(table[1..], token); }
  }

  /** A live refresh token of a named user for this resource. */
  predicate LiveRefresh(lib: Library, server: string, row: TokenRow, now: int) {
    && row.revoked == TOKEN_ACTIVE && row.userId != ""
    && row.refreshExpiresAt.Some? && now < row.refreshExpiresAt.value
    && row.resource.Some? && Canonical(lib, row.resource.value) == Some(server)
  }

  /**
   For every token without the access prefix: `verify_token` never accepts it, and the separated verifier accepts
   exactly the live refresh tokens of its resource, for which introspection answers too. With
   `SeparatedAgreesWithDirect` this says for every token when the two agree.
   */
  lemma RefreshTokensDiffer(
      lib: Library, issuer: string, table: seq<TokenRow>, server: string, token: string, hint: Option<string>,
      resource: Option<string>, now: int)
    requires AccessPrefixed(table) && !(ACCESS_PREFIX <= token) && Canonical(lib, server) == Some(server)
    ensures VerifyToken(lib, table, token, resource, now) == Ok(None)
    ensures var row := FindByRefresh(table, Digest(token));
      Acceptable(lib, server, Introspect(lib, issuer, table, server, token, hint, now)) <==>
        row.Some? && LiveRefresh(lib, server, row.value, now)
  {
    NoAccessRow(table, token);
    var found := FindByRefresh(table, Digest(token));
    assert FindTokenRow(table, token, hint) == if found.Some? then Some((found.value, Refresh)) else None;
    if found.Some? && found.value.refreshExpiresAt.Some? && found.value.resource.Some? {
      RefreshBodyIsAcceptable(lib, issuer, found.value, server, found.value.refreshExpiresAt.value);
    }
  }

  lemma RefreshBodyIsAcceptable(lib: Library, issuer: string, row: TokenRow, resource: string, expiresAt: int)
    requires row.resource.Some?
    ensures Acceptable(lib, resource, ActiveBody(issuer, row, Refresh, expiresAt)) <==>
      row.userId != "" && Canonical(lib, row.resource.value) == Some(resource)
  {
    var d := ActiveBody(issuer, row, Refresh, expiresAt).members;
    assert Audiences(d) == [Str(row.resource.value)];
    assert NamesResource(lib, Audiences(d)[0], resource) <==> Canonical(lib, row.resource.value) == Some(resource);
  }
}
