/**
 The authorization server's requests as a state machine. A request is the program point it is
 suspended at together with its local variables; `Decide` runs it from one awaited adapter call to
 the next. Any number of requests interleave, each presenting whatever credential it likes.
 */
module OAuthMachine {
  import opened Wrappers
  import opened OAuthStore

  datatype Client = Client(id: Id, isPublic: bool, refreshGrant: bool, dpopBound: bool)

  datatype DPoPPolicy = Off | Optional | Required

  datatype Config = Config(
    clients: map<Id, Client>, resource: Option<Id>, dpop: DPoPPolicy,
    codeTtl: int, accessTtl: int, refreshTtl: int)

  /** A DPoP header: the key that signed it, and whether every other check on it passes. */
  datatype Proof = Proof(jkt: Id, valid: bool)

  datatype OAuthError = InvalidGrant | InvalidTarget | InvalidScope | InvalidDPoPProof

  /** `challenge` is the S256 transform of the verifier, None when the verifier is not ASCII. */
  datatype Exchange = Exchange(
    client: Client, code: Id, redirect: Id, challenge: Option<Id>, resources: seq<Id>, proof: Option<Proof>)

  /** `scope` is None when the parameter is absent or empty. */
  datatype Refresh = Refresh(
    client: Client, token: Id, scope: Option<set<string>>, resources: seq<Id>, proof: Option<Proof>)

  /** A presented access or refresh value, and which of the two columns is searched first. */
  datatype Revocation = Revocation(client: Client, token: Id, isRefresh: bool, refreshFirst: bool)

  /** An authorization request that has been validated and whose user is signed in. */
  datatype Pending = Pending(
    owner: Owner, scope: set<string>, redirect: Id, challenge: Id, resource: Option<Id>, jkt: Option<Id>)

  /** Where a token comes from: the code it was exchanged for or the token it replaces. */
  datatype Source = FromCode(code: Id) | FromToken(token: Id)

  datatype Mint = Mint(source: Source, family: Id, bind: Binding, client: Client)

  /** How a request ended. The source answers several of these with the same response. */
  datatype Outcome =
    | Refused(error: OAuthError)
    | LostClaim
    | Burned(family: Id)
    | Issued(token: Id)
    | ReplayedCode(code: Id, family: Id)
    | ReusedRefresh(token: Id, family: Id)
    | RevokedFamily(token: Id, family: Id)
    | NothingToRevoke
    | RevokedGrant(owner: Owner, grant: Id)
    | NoConsent
    | NeedsConsent
    | Conflict
    | Authorized(code: Id)

  datatype Request =
    // _token_authorization_code
    | ExchangeFind(x: Exchange)
    | ExchangeMarkClaimed(code: Id, family: Id)
    | ExchangeMarkExchanged(code: Id, family: Id)
    | ExchangeBurn(code: Id, family: Id)
    | ExchangeDelete(code: Id)
    | ExchangeGrant(x: Exchange, codeRow: Code)
    | ExchangeClaim(x: Exchange, codeRow: Code, jkt: Option<Id>)
    // _token_refresh
    | RefreshFind(y: Refresh)
    | RefreshMarkRotating(token: Id, family: Id)
    | RefreshMarkRotated(token: Id, family: Id)
    | RefreshBurn(token: Id, family: Id)
    | RefreshGrant(y: Refresh, tokenRow: Token)
    | RefreshClaim(y: Refresh, tokenRow: Token, scope: set<string>, jkt: Option<Id>)
    // _mint_tokens
    | MintInsert(m: Mint)
    | MintFinalize(m: Mint, token: Id)
    | MintScanCodes(m: Mint, token: Id)
    | MintScanTokens(m: Mint, token: Id)
    | MintGrant(m: Mint, token: Id)
    | MintDisclose(m: Mint, token: Id)
    | MintBurn(m: Mint, token: Id)
    // revoke_token
    | RevokeFind(v: Revocation)
    | RevokeFindOther(v: Revocation)
    | RevokeMark(token: Id, family: Id)
    | RevokeBurn(token: Id, family: Id)
    // revoke_consent
    | ConsentFind(owner: Owner)
    | ConsentMark(owner: Owner)
    | ConsentCodes(owner: Owner, grant: Id)
    | ConsentTokens(owner: Owner, grant: Id)
    // authorize, consent
    | AuthorizeFind(k: Pending)
    | GrantFind(k: Pending)
    | GrantCreate(k: Pending)
    | GrantReplace(k: Pending)
    | GrantMerge(k: Pending, grant: Id, merged: set<string>)
    | GrantCode(k: Pending, grant: Id)
    | Done(outcome: Outcome)

  predicate Exchanging(q: Request) {
    || q.ExchangeFind? || q.ExchangeMarkClaimed? || q.ExchangeMarkExchanged? || q.ExchangeBurn?
    || q.ExchangeDelete? || q.ExchangeGrant? || q.ExchangeClaim?
  }

  predicate Refreshing(q: Request) {
    || q.RefreshFind? || q.RefreshMarkRotating? || q.RefreshMarkRotated? || q.RefreshBurn?
    || q.RefreshGrant? || q.RefreshClaim?
  }

  predicate Minting(q: Request) {
    || q.MintInsert? || q.MintFinalize? || q.MintScanCodes? || q.MintScanTokens?
    || q.MintGrant? || q.MintDisclose? || q.MintBurn?
  }

  predicate Consenting(q: Request) {
    || q.AuthorizeFind? || q.GrantFind? || q.GrantCreate? || q.GrantReplace? || q.GrantMerge? || q.GrantCode?
  }

  predicate Revoking(q: Request) {
    || q.RevokeFind? || q.RevokeFindOther? || q.RevokeMark? || q.RevokeBurn?
    || q.ConsentFind? || q.ConsentMark? || q.ConsentCodes? || q.ConsentTokens?
  }

  /** One adapter call: what it writes and where the request is suspended next. */
  datatype Move = Move(write: Write, after: Request)

  function Read(after: Request): Move { Move(Nothing, after) }

  function Refuse(error: OAuthError): Move { Read(Done(Refused(error))) }

  // -- the parameter checks between two adapter calls --------------------------------------

  /** None when the `resource` parameters are acceptable for a grant bound to `bound`. */
  function ResourceError(cfg: Config, resources: seq<Id>, bound: Option<Id>): Option<OAuthError> {
    if |resources| > 1 then Some(InvalidTarget)
    else if cfg.resource.Some? && |resources| == 0 then Some(InvalidTarget)
    else if |resources| == 1 && bound != Some(resources[0]) then Some(InvalidTarget)
    else None
  }

  /** `_token_dpop`: the key the issued token is bound to. */
  function TokenDPoP(cfg: Config, header: Option<Proof>, expected: Option<Id>, required: bool)
    : Result<Option<Id>, OAuthError>
  {
    if cfg.dpop.Off? then
      if header.Some? then Err(InvalidDPoPProof) else Ok(None)
    else match header
      case None => if required then Err(InvalidDPoPProof) else Ok(None)
      case Some(p) =>
        if p.valid && (expected.None? || expected == Some(p.jkt)) then Ok(Some(p.jkt))
        else Err(InvalidDPoPProof)
  }

  // -- code exchange ------------------------------------------------------------------------

  function DecideExchangeFind(db: Db, x: Exchange, now: int): Move {
    if x.code !in db.codes then Refuse(InvalidGrant)
    else
      var row := db.codes[x.code];
      if row.used != Unused then
        match row.family
        case Some(family) => Read(ExchangeMarkClaimed(x.code, family))
        case None => Refuse(InvalidGrant)
      else if row.expires <= now then Read(ExchangeDelete(x.code))
      else if row.bind.owner.client != x.client.id then Refuse(InvalidGrant)
      else Read(ExchangeGrant(x, row))
  }

  function DecideExchangeGrant(cfg: Config, db: Db, x: Exchange, row: Code): Move {
    if !GrantActive(db, row.bind) || row.redirect != x.redirect || x.challenge != Some(row.challenge) then
      Refuse(InvalidGrant)
    else match ResourceError(cfg, x.resources, row.bind.resource)
      case Some(error) => Refuse(error)
      case None =>
        var required := row.bind.jkt.Some? || x.client.dpopBound || cfg.dpop.Required?;
        match TokenDPoP(cfg, x.proof, row.bind.jkt, required)
        case Err(error) => Refuse(error)
        case Ok(jkt) => Read(ExchangeClaim(x, row, jkt))
  }

  function DecideExchangeClaim(db: Db, x: Exchange, row: Code, jkt: Option<Id>): Move {
    if CodeIn(db, x.code, Unused) == {} then Read(Done(LostClaim))
    else Move(ClaimCode(x.code), MintInsert(Mint(FromCode(x.code), db.next, row.bind.(jkt := jkt), x.client)))
  }

  /** A guarded update that tries a second source state when the first one selected no row. */
  function DecideExchangeMark(db: Db, c: Id, family: Id): Move {
    var rows := CodeIn(db, c, Claimed);
    Move(SetCodes(rows, Replayed),
         if rows == {} then ExchangeMarkExchanged(c, family) else ExchangeBurn(c, family))
  }

  // -- refresh ------------------------------------------------------------------------------

  function DecideRefreshFind(db: Db, y: Refresh): Move {
    if y.token !in db.tokens || db.tokens[y.token].refreshExpires.None? then Refuse(InvalidGrant)
    else
      var row := db.tokens[y.token];
      if row.state != Active then Read(RefreshMarkRotating(y.token, row.family))
      else if row.bind.owner.client != y.client.id then Refuse(InvalidGrant)
      else Read(RefreshGrant(y, row))
  }

  function DecideRefreshMark(db: Db, t: Id, family: Id): Move {
    var rows := TokenIn(db, t, Rotating);
    Move(SetTokens(rows, Compromised),
         if rows == {} then RefreshMarkRotated(t, family) else RefreshBurn(t, family))
  }

  function DecideRefreshGrant(cfg: Config, db: Db, y: Refresh, row: Token, now: int): Move {
    if !GrantActive(db, row.bind) || (row.refreshExpires.Some? && row.refreshExpires.value <= now) then
      Refuse(InvalidGrant)
    else match ResourceError(cfg, y.resources, row.bind.resource)
      case Some(error) => Refuse(error)
      case None =>
        if y.scope.Some? && !(y.scope.value <= row.bind.scope) then Refuse(InvalidScope)
        else
          var scope := if y.scope.Some? then y.scope.value else row.bind.scope;
          var expected := if y.client.isPublic then row.bind.jkt else None;
          var required := expected.Some? || y.client.dpopBound || cfg.dpop.Required?;
          match TokenDPoP(cfg, y.proof, expected, required)
          case Err(error) => Refuse(error)
          case Ok(jkt) => Read(RefreshClaim(y, row, scope, jkt))
  }

  function DecideRefreshClaim(db: Db, y: Refresh, row: Token, scope: set<string>, jkt: Option<Id>): Move {
    var rows := TokenIn(db, y.token, Active);
    if rows == {} then Read(Done(LostClaim))
    else
      Move(SetTokens(rows, Rotating),
           MintInsert(Mint(FromToken(y.token), row.family, row.bind.(scope := scope, jkt := jkt), y.client)))
  }

  // -- mint ---------------------------------------------------------------------------------

  function NewToken(cfg: Config, m: Mint, now: int): Token {
    Token(m.bind, m.family, now + cfg.accessTtl,
          if m.client.refreshGrant then Some(now + cfg.refreshTtl) else None, Active)
  }

  /** The guarded finalisation 1 -> 3 of the code or the rotated token. */
  function Finalize(db: Db, source: Source): (w: Write) {
    match source
    case FromCode(c) => SetCodes(CodeIn(db, c, Claimed), Exchanged)
    case FromToken(t) => SetTokens(TokenIn(db, t, Rotating), Rotated)
  }

  predicate Finalizes(db: Db, source: Source) {
    match source
    case FromCode(c) => CodeIn(db, c, Claimed) != {}
    case FromToken(t) => TokenIn(db, t, Rotating) != {}
  }

  function DecideMint(cfg: Config, db: Db, q: Request, now: int): Move
    requires Minting(q)
  {
    match q
    case MintInsert(m) => Move(InsertToken(NewToken(cfg, m, now)), MintFinalize(m, db.next))
    case MintFinalize(m, t) =>
      Move(Finalize(db, m.source), if Finalizes(db, m.source) then MintScanCodes(m, t) else MintBurn(m, t))
    case MintScanCodes(m, t) => Read(if CodeReplayed(db, m.family) then MintBurn(m, t) else MintScanTokens(m, t))
    case MintScanTokens(m, t) => Read(if TokenMarked(db, m.family) then MintBurn(m, t) else MintGrant(m, t))
    case MintGrant(m, t) => Read(if GrantActive(db, m.bind) then MintDisclose(m, t) else MintBurn(m, t))
    case MintDisclose(m, t) => Read(Done(Issued(t)))
    case MintBurn(m, t) => Move(SetTokens(ActiveIn(db, m.family), Rotating), Done(Burned(m.family)))
  }

  // -- revocation ---------------------------------------------------------------------------

  /** One of the two lookups of `_find_token_row`. */
  predicate Finds(db: Db, v: Revocation, refreshColumn: bool) {
    && refreshColumn == v.isRefresh
    && v.token in db.tokens
    && (v.isRefresh ==> db.tokens[v.token].refreshExpires.Some?)
  }

  /** Only the owning client revokes; everyone else gets the same answer and nothing happens. */
  function RevokeFound(db: Db, v: Revocation): Request
    requires v.token in db.tokens
  {
    var row := db.tokens[v.token];
    if row.bind.owner.client == v.client.id then RevokeMark(v.token, row.family) else Done(NothingToRevoke)
  }

  /** Consent rows are never deleted, so the row found first is still there to be updated. */
  function DecideConsentMark(db: Db, o: Owner): Move {
    if o !in db.consents then Read(Done(NoConsent))
    else
      Move(PutConsent(o, db.consents[o].(grant := db.next, revoked := true)),
           ConsentCodes(o, db.consents[o].grant))
  }

  function DecideRevoke(db: Db, q: Request): Move
    requires Revoking(q)
  {
    match q
    case RevokeFind(v) => Read(if Finds(db, v, v.refreshFirst) then RevokeFound(db, v) else RevokeFindOther(v))
    case RevokeFindOther(v) =>
      Read(if Finds(db, v, !v.refreshFirst) then RevokeFound(db, v) else Done(NothingToRevoke))
    case RevokeMark(t, family) => Move(SetTokens(TokenAt(db, t), Revoked), RevokeBurn(t, family))
    case RevokeBurn(t, family) => Move(SetTokens(ActiveIn(db, family), Revoked), Done(RevokedFamily(t, family)))
    case ConsentFind(o) => Read(if o in db.consents then ConsentMark(o) else Done(NoConsent))
    case ConsentMark(o) => DecideConsentMark(db, o)
    case ConsentCodes(o, g) => Move(SetCodes(LiveCodesOf(db, o), Replayed), ConsentTokens(o, g))
    case ConsentTokens(o, g) =>
      Move(SetTokens(UncompromisedTokensOf(db, o), Revoked), Done(RevokedGrant(o, g)))
  }

  // -- authorize and consent ----------------------------------------------------------------

  function NewCode(cfg: Config, k: Pending, grant: Id, now: int): Code {
    Code(Binding(k.owner, grant, k.resource, k.scope, k.jkt), k.redirect, k.challenge, Unused, None,
         now + cfg.codeTtl)
  }

  function DecideConsent(cfg: Config, db: Db, q: Request, now: int): Move
    requires Consenting(q)
  {
    match q
    case AuthorizeFind(k) =>
      if k.owner in db.consents && !db.consents[k.owner].revoked && k.scope <= db.consents[k.owner].scope then
        Read(GrantCode(k, db.consents[k.owner].grant))
      else
        Read(Done(NeedsConsent))
    case GrantFind(k) =>
      if k.owner !in db.consents then Read(GrantCreate(k))
      else if db.consents[k.owner].revoked then Read(GrantReplace(k))
      else Read(GrantMerge(k, db.consents[k.owner].grant, db.consents[k.owner].scope + k.scope))
    case GrantCreate(k) =>
      if k.owner in db.consents then Read(Done(Conflict)) // UNIQUE (user_id, client_id)
      else Move(PutConsent(k.owner, Consent(db.next, k.scope, false)), GrantCode(k, db.next))
    case GrantReplace(k) =>
      if k.owner !in db.consents then Read(Done(Conflict))
      else Move(PutConsent(k.owner, Consent(db.next, k.scope, false)), GrantCode(k, db.next))
    case GrantMerge(k, g, merged) =>
      if k.owner !in db.consents then Read(Done(Conflict))
      else Move(PutConsent(k.owner, db.consents[k.owner].(scope := merged)), GrantCode(k, g))
    case GrantCode(k, g) => Move(InsertCode(NewCode(cfg, k, g, now)), Done(Authorized(db.next)))
  }

  function DecideExchange(cfg: Config, db: Db, q: Request, now: int): Move
    requires Exchanging(q)
  {
    match q
    case ExchangeFind(x) => DecideExchangeFind(db, x, now)
    case ExchangeMarkClaimed(c, f) => DecideExchangeMark(db, c, f)
    case ExchangeMarkExchanged(c, f) => Move(SetCodes(CodeIn(db, c, Exchanged), Replayed), ExchangeBurn(c, f))
    case ExchangeBurn(c, f) => Move(SetTokens(ActiveIn(db, f), Rotating), Done(ReplayedCode(c, f)))
    case ExchangeDelete(c) => Move(DeleteCode(c), Done(Refused(InvalidGrant)))
    case ExchangeGrant(x, row) => DecideExchangeGrant(cfg, db, x, row)
    case ExchangeClaim(x, row, jkt) => DecideExchangeClaim(db, x, row, jkt)
  }

  function DecideRefresh(cfg: Config, db: Db, q: Request, now: int): Move
    requires Refreshing(q)
  {
    match q
    case RefreshFind(y) => DecideRefreshFind(db, y)
    case RefreshMarkRotating(t, f) => DecideRefreshMark(db, t, f)
    case RefreshMarkRotated(t, f) => Move(SetTokens(TokenIn(db, t, Rotated), Compromised), RefreshBurn(t, f))
    case RefreshBurn(t, f) => Move(SetTokens(ActiveIn(db, f), Rotating), Done(ReusedRefresh(t, f)))
    case RefreshGrant(y, row) => DecideRefreshGrant(cfg, db, y, row, now)
    case RefreshClaim(y, row, scope, jkt) => DecideRefreshClaim(db, y, row, scope, jkt)
  }

  /** Everything a request does at its next adapter call. */
  function Decide(cfg: Config, db: Db, q: Request, now: int): Move
    requires !q.Done?
  {
    if Exchanging(q) then DecideExchange(cfg, db, q, now)
    else if Refreshing(q) then DecideRefresh(cfg, db, q, now)
    else if Minting(q) then DecideMint(cfg, db, q, now)
    else if Consenting(q) then DecideConsent(cfg, db, q, now)
    else DecideRevoke(db, q)
  }

  // -- the interleaving ---------------------------------------------------------------------

  /** The code a family was minted from, as its row stood when the claim won. */
  datatype Claim = Claim(code: Id, row: Code)

  /**
   History that the handlers do not read: the source and the minting request of every token, the code
   of every family, which tokens were disclosed, and the families some replay, revocation or
   code deletion has written to.
   */
  datatype Log = Log(
    parent: map<Id, Source>, minter: map<Id, nat>, origin: map<Id, Claim>, disclosed: set<Id>, touched: set<Id>)

  datatype State = State(cfg: Config, db: Db, reqs: map<nat, Request>, log: Log)

  function Start(cfg: Config): State {
    State(cfg, Db(map[], map[], map[], 0), map[], Log(map[], map[], map[], {}, {}))
  }

  /** A request arrives, or an arrived one performs its next adapter call at time `now`. */
  datatype Event = Arrive(r: nat, q: Request) | Advance(r: nat, now: int)

  predicate Authenticated(cfg: Config, client: Client) {
    client.id in cfg.clients && cfg.clients[client.id] == client
  }

  /** Where a request can begin: its client is authenticated, its parameters are otherwise free. */
  predicate Initial(cfg: Config, q: Request) {
    match q
    case ExchangeFind(x) => Authenticated(cfg, x.client)
    case RefreshFind(y) => Authenticated(cfg, y.client)
    case RevokeFind(v) => Authenticated(cfg, v.client)
    case ConsentFind(_) => true
    case AuthorizeFind(k) => cfg.dpop.Off? ==> k.jkt.None?
    case GrantFind(k) => cfg.dpop.Off? ==> k.jkt.None?
    case _ => false
  }

  predicate Enabled(s: State, e: Event) {
    match e
    case Arrive(r, q) => r !in s.reqs && Initial(s.cfg, q)
    case Advance(r, _) => r in s.reqs && !s.reqs[r].Done?
  }

  /** The program points whose writes are a reaction to theft, a revocation or a code expiry. */
  predicate Intervenes(q: Request) {
    || q.ExchangeMarkClaimed? || q.ExchangeMarkExchanged? || q.ExchangeBurn? || q.ExchangeDelete?
    || q.RefreshMarkRotating? || q.RefreshMarkRotated? || q.RefreshBurn?
    || q.RevokeMark? || q.RevokeBurn? || q.ConsentCodes? || q.ConsentTokens?
  }

  function FamiliesHit(db: Db, w: Write): set<Id> {
    match w
    case SetCodes(rows, _) =>
      set c | c in rows && c in db.codes && db.codes[c].family.Some? :: db.codes[c].family.value
    case DeleteCode(c) => if c in db.codes && db.codes[c].family.Some? then {db.codes[c].family.value} else {}
    case SetTokens(rows, _) => set t | t in rows && t in db.tokens :: db.tokens[t].family
    case _ => {}
  }

  function Record(s: State, r: nat, q: Request, move: Move): Log {
    var log := s.log;
    var id := s.db.next;
    if q.MintInsert? then log.(parent := log.parent[id := q.m.source], minter := log.minter[id := r])
    else if q.MintDisclose? then log.(disclosed := log.disclosed + {q.token})
    else if q.ExchangeClaim? && move.write.ClaimCode? && q.x.code in s.db.codes then
      log.(origin := log.origin[id := Claim(q.x.code, s.db.codes[q.x.code])])
    else if Intervenes(q) then log.(touched := log.touched + FamiliesHit(s.db, move.write))
    else log
  }

  function After(s: State, e: Event): State
    requires Enabled(s, e)
  {
    match e
    case Arrive(r, q) => s.(reqs := s.reqs[r := q])
    case Advance(r, now) =>
      var move := Decide(s.cfg, s.db, s.reqs[r], now);
      State(s.cfg, Apply(s.db, move.write), s.reqs[r := move.after], Record(s, r, s.reqs[r], move))
  }

  /** An interleaving is any sequence of events each of which is possible where it stands. */
  predicate Possible(s: State, run: seq<Event>)
    decreases |run|
  {
    run == [] || (Enabled(s, run[0]) && Possible(After(s, run[0]), run[1..]))
  }

  function Exec(s: State, run: seq<Event>): State
    requires Possible(s, run)
    decreases |run|
  {
    if run == [] then s else Exec(After(s, run[0]), run[1..])
  }
}
