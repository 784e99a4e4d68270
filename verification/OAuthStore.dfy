/**
 The three tables the authorization server writes, and the adapter calls it makes on them.
 One adapter call is one atomic database operation; everything between two calls may interleave.
 */
module OAuthStore {
  import opened Wrappers

  /** Primary keys, families and grant generations: values of `new_id()`, drawn from one counter. */
  type Id = nat

  /** A user together with a client: the UNIQUE key of `oauth_consent`. */
  datatype Owner = Owner(user: Id, client: Id)

  /** What a code or a token is bound to; no statement ever updates these columns. */
  datatype Binding = Binding(owner: Owner, grant: Id, resource: Option<Id>, scope: set<string>, jkt: Option<Id>)

  /** The `used` column of `oauth_code`: 0, 1, 2 and 3 in this order. */
  datatype CodeState = Unused | Claimed | Replayed | Exchanged

  /** The `revoked` column of `oauth_token`: 0, 1, 2, 3 and 4 in this order. */
  datatype TokenState = Active | Rotating | Compromised | Rotated | Revoked

  datatype Code = Code(
    bind: Binding, redirect: Id, challenge: Id, used: CodeState, family: Option<Id>, expires: int)

  datatype Token = Token(
    bind: Binding, family: Id, accessExpires: int, refreshExpires: Option<int>, state: TokenState)

  datatype Consent = Consent(grant: Id, scope: set<string>, revoked: bool)

  /** A credential is identified with the row it was minted for: SHA-256 is taken as injective. */
  datatype Db = Db(codes: map<Id, Code>, tokens: map<Id, Token>, consents: map<Owner, Consent>, next: Id)

  /** One writing adapter call, with the rows its `Where` list selected. */
  datatype Write =
    | Nothing
    | InsertCode(code: Code)
    | DeleteCode(gone: Id)
    | ClaimCode(claimed: Id)
    | SetCodes(codes: set<Id>, used: CodeState)
    | InsertToken(token: Token)
    | SetTokens(tokens: set<Id>, state: TokenState)
    | PutConsent(owner: Owner, consent: Consent)

  function WithCodes(codes: map<Id, Code>, rows: set<Id>, used: CodeState): map<Id, Code> {
    map c | c in codes :: if c in rows then codes[c].(used := used) else codes[c]
  }

  function WithTokens(tokens: map<Id, Token>, rows: set<Id>, state: TokenState): map<Id, Token> {
    map t | t in tokens :: if t in rows then tokens[t].(state := state) else tokens[t]
  }

  /** The table contents after a write. Inserts and claims take their new id from the counter. */
  function Apply(db: Db, w: Write): Db {
    match w
    case Nothing => db
    case InsertCode(code) => db.(codes := db.codes[db.next := code], next := db.next + 1)
    case DeleteCode(c) => db.(codes := db.codes - {c})
    case ClaimCode(c) =>
      if c in db.codes then
        db.(codes := db.codes[c := db.codes[c].(used := Claimed, family := Some(db.next))], next := db.next + 1)
      else
        db
    case SetCodes(rows, used) => db.(codes := WithCodes(db.codes, rows, used))
    case InsertToken(token) => db.(tokens := db.tokens[db.next := token], next := db.next + 1)
    case SetTokens(rows, state) => db.(tokens := WithTokens(db.tokens, rows, state))
    case PutConsent(owner, consent) => db.(consents := db.consents[owner := consent], next := db.next + 1)
  }

  // The row selections of the guarded updates.

  /** `WHERE id = c AND used = used` */
  function CodeIn(db: Db, c: Id, used: CodeState): set<Id> {
    if c in db.codes && db.codes[c].used == used then {c} else {}
  }

  /** `WHERE id = t AND revoked = state` */
  function TokenIn(db: Db, t: Id, state: TokenState): set<Id> {
    if t in db.tokens && db.tokens[t].state == state then {t} else {}
  }

  /** `WHERE id = t` */
  function TokenAt(db: Db, t: Id): set<Id> {
    if t in db.tokens then {t} else {}
  }

  /** `WHERE family_id = family AND revoked = 0` */
  function ActiveIn(db: Db, family: Id): set<Id> {
    set t | t in db.tokens && db.tokens[t].family == family && db.tokens[t].state == Active
  }

  /** `WHERE user_id = .. AND client_id = .. AND used IN (0, 1, 3)` */
  function LiveCodesOf(db: Db, owner: Owner): set<Id> {
    set c | c in db.codes && db.codes[c].bind.owner == owner && db.codes[c].used != Replayed
  }

  /** `WHERE user_id = .. AND client_id = .. AND revoked IN (0, 1, 3, 4)` */
  function UncompromisedTokensOf(db: Db, owner: Owner): set<Id> {
    set t | t in db.tokens && db.tokens[t].bind.owner == owner && db.tokens[t].state != Compromised
  }

  // The reads of the mint's closing checks.

  predicate CodeReplayed(db: Db, family: Id) {
    exists c :: c in db.codes && db.codes[c].family == Some(family) && db.codes[c].used == Replayed
  }

  predicate TokenMarked(db: Db, family: Id) {
    exists t :: t in db.tokens && db.tokens[t].family == family && Marker(db.tokens[t].state)
  }

  /** States that `_family_invalidated` looks for: 2 and 4. */
  predicate Marker(state: TokenState) {
    state == Compromised || state == Revoked
  }

  /** `_grant_active`: an unrevoked consent row of this owner still carries the grant. */
  predicate GrantActive(db: Db, bind: Binding) {
    && bind.owner in db.consents
    && db.consents[bind.owner].grant == bind.grant
    && !db.consents[bind.owner].revoked
  }
}
