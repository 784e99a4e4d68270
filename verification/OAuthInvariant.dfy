/**
 The inductive invariant of the token protocol: what every reachable state of every interleaving
 satisfies. The later modules derive conservation, the rotation chain and the revocation results from it.
 */
module OAuthInvariant {
  import opened Wrappers
  import opened OAuthStore
  import opened OAuthMachine

  // -- how single rows may move -------------------------------------------------------------

  /** The edges of the token state graph. Active is never re-entered; 2 and 4 are never left for 0, 1, 3. */
  predicate TokenMove(a: TokenState, b: TokenState) {
    || a == b
    || b == Revoked
    || (a == Active && b == Rotating)
    || (a == Rotating && (b == Compromised || b == Rotated))
    || (a == Rotated && b == Compromised)
  }

  predicate CodeMove(a: CodeState, b: CodeState) {
    || a == b
    || b == Replayed
    || (a == Unused && b == Claimed)
    || (a == Claimed && b == Exchanged)
  }

  // -- bindings along the chain -------------------------------------------------------------

  /** A first token repeats its code's binding; a bound code forces its own key. */
  predicate ExchangedBind(code: Binding, token: Binding) {
    && token == code.(jkt := token.jkt)
    && (code.jkt.Some? ==> token.jkt == code.jkt)
  }

  /** A rotation may narrow the scope; a public client keeps its key. */
  predicate RotatedBind(rotated: Binding, next: Binding, isPublic: bool) {
    && next == rotated.(scope := next.scope, jkt := next.jkt)
    && next.scope <= rotated.scope
    && (isPublic && rotated.jkt.Some? ==> next.jkt == rotated.jkt)
  }

  ghost predicate PublicClient(cfg: Config, client: Id) {
    client in cfg.clients && cfg.clients[client].isPublic
  }

  // -- tables -------------------------------------------------------------------------------

  ghost predicate OriginIs(s: State, c: Id, family: Id) {
    family in s.log.origin && s.log.origin[family].code == c
  }

  /** The token's row agrees with the row it was minted from. */
  ghost predicate Linked(s: State, t: Id)
    requires t in s.db.tokens && t in s.log.parent
  {
    var row := s.db.tokens[t];
    match s.log.parent[t]
    case FromCode(c) => OriginIs(s, c, row.family) && ExchangedBind(s.log.origin[row.family].row.bind, row.bind)
    case FromToken(p) =>
      && p in s.db.tokens && p < t
      && s.db.tokens[p].family == row.family
      && s.db.tokens[p].state != Active
      && RotatedBind(s.db.tokens[p].bind, row.bind, PublicClient(s.cfg, row.bind.owner.client))
  }

  /** `r` inserted `t` and has not finished with it. */
  predicate Holds(q: Request, t: Id) {
    Minting(q) && !q.MintInsert? && q.token == t
  }

  ghost predicate TokenOk(s: State, t: Id)
    requires t in s.db.tokens
  {
    && t < s.db.next
    && s.db.tokens[t].bind.grant < s.db.next
    && s.db.tokens[t].family in s.log.origin
    && (s.cfg.dpop.Off? ==> s.db.tokens[t].bind.jkt.None?)
    && t in s.log.parent && Linked(s, t)
    && t in s.log.minter && s.log.minter[t] in s.reqs
    && (Holds(s.reqs[s.log.minter[t]], t) || s.reqs[s.log.minter[t]].Done?)
  }

  ghost predicate CodeOk(s: State, c: Id)
    requires c in s.db.codes
  {
    var row := s.db.codes[c];
    && c < s.db.next
    && row.bind.grant < s.db.next
    && (s.cfg.dpop.Off? ==> row.bind.jkt.None?)
    && (row.family.Some? ==> OriginIs(s, c, row.family.value) && row.used != Unused)
    && (row.used == Claimed || row.used == Exchanged ==> row.family.Some?)
  }

  ghost predicate OriginOk(s: State, f: Id)
    requires f in s.log.origin
  {
    var c := s.log.origin[f].code;
    && f < s.db.next && c < s.db.next
    && s.log.origin[f].row.bind.grant < s.db.next
    && (s.cfg.dpop.Off? ==> s.log.origin[f].row.bind.jkt.None?)
    && (c in s.db.codes ==> s.db.codes[c].family == Some(f) && s.db.codes[c].bind == s.log.origin[f].row.bind)
  }

  ghost predicate Tables(s: State) {
    && (forall t {:trigger TokenOk(s, t)} :: t in s.db.tokens ==> TokenOk(s, t))
    && (forall c {:trigger CodeOk(s, c)} :: c in s.db.codes ==> CodeOk(s, c))
    && (forall f {:trigger OriginOk(s, f)} :: f in s.log.origin ==> OriginOk(s, f))
    && (forall f, g :: f in s.log.origin && g in s.log.origin ==>
          s.log.origin[f].code == s.log.origin[g].code ==> f == g)
    && (forall o :: o in s.db.consents ==> s.db.consents[o].grant < s.db.next)
    && s.log.parent.Keys == s.db.tokens.Keys
    && s.log.minter.Keys == s.db.tokens.Keys
    && s.log.disclosed <= s.db.tokens.Keys
  }

  // -- requests -----------------------------------------------------------------------------

  /** `g` was a grant of this owner and no consent row will carry it again. */
  ghost predicate Retired(s: State, o: Owner, g: Id) {
    && g < s.db.next
    && o in s.db.consents
    && s.db.consents[o].grant != g
  }

  /** A later generation than `g` stands on this owner's consent row: every grant up to `g` is history. */
  ghost predicate Superseded(s: State, o: Owner, g: Id) {
    && g < s.db.next
    && o in s.db.consents
    && g < s.db.consents[o].grant
  }

  /** The code of this family, if its row still exists, is past its claim; then also past its mint; then marked. */
  ghost predicate ClaimedCode(s: State, c: Id, f: Id) {
    OriginIs(s, c, f) && (c in s.db.codes ==> s.db.codes[c].used != Unused)
  }

  ghost predicate FinalCode(s: State, c: Id, f: Id) {
    OriginIs(s, c, f) && (c in s.db.codes ==> s.db.codes[c].used == Exchanged || s.db.codes[c].used == Replayed)
  }

  ghost predicate MarkedCode(s: State, c: Id, f: Id) {
    OriginIs(s, c, f) && (c in s.db.codes ==> s.db.codes[c].used == Replayed)
  }

  ghost predicate TokenOf(s: State, t: Id, f: Id) {
    t in s.db.tokens && s.db.tokens[t].family == f
  }

  ghost predicate SpentToken(s: State, t: Id, f: Id) {
    TokenOf(s, t, f) && s.db.tokens[t].state != Active
  }

  ghost predicate FinalToken(s: State, t: Id, f: Id) {
    SpentToken(s, t, f) && s.db.tokens[t].state != Rotating
  }

  ghost predicate MarkedToken(s: State, t: Id, f: Id) {
    TokenOf(s, t, f) && Marker(s.db.tokens[t].state)
  }

  ghost predicate RevokedToken(s: State, t: Id, f: Id) {
    TokenOf(s, t, f) && s.db.tokens[t].state == Revoked
  }

  ghost predicate CodeRead(s: State, x: Exchange, row: Code) {
    && Authenticated(s.cfg, x.client)
    && row.bind.owner.client == x.client.id
    && x.code < s.db.next
    && row.bind.grant < s.db.next
    && (s.cfg.dpop.Off? ==> row.bind.jkt.None?)
    && (x.code in s.db.codes ==> s.db.codes[x.code].bind == row.bind)
  }

  ghost predicate TokenRead(s: State, y: Refresh, row: Token) {
    && Authenticated(s.cfg, y.client)
    && row.bind.owner.client == y.client.id
    && y.token in s.db.tokens
    && s.db.tokens[y.token].bind == row.bind
    && s.db.tokens[y.token].family == row.family
  }

  /** The claim this mint won is recorded, and its token will be correctly linked to its source. */
  ghost predicate SourceOk(s: State, m: Mint) {
    && Authenticated(s.cfg, m.client)
    && m.bind.owner.client == m.client.id
    && m.bind.grant < s.db.next
    && (s.cfg.dpop.Off? ==> m.bind.jkt.None?)
    && m.family in s.log.origin
    && match m.source
       case FromCode(c) =>
         s.log.origin[m.family].code == c && ExchangedBind(s.log.origin[m.family].row.bind, m.bind)
       case FromToken(p) =>
         && p in s.db.tokens
         && s.db.tokens[p].family == m.family
         && s.db.tokens[p].state != Active
         && RotatedBind(s.db.tokens[p].bind, m.bind, m.client.isPublic)
  }

  ghost predicate Inserted(s: State, r: nat, m: Mint, t: Id) {
    && SourceOk(s, m)
    && t in s.db.tokens && t in s.log.parent && t in s.log.minter
    && s.db.tokens[t].bind == m.bind
    && s.db.tokens[t].family == m.family
    && s.log.parent[t] == m.source
    && s.log.minter[t] == r
    && t !in s.log.disclosed
  }

  ghost predicate ExchangeOk(s: State, q: Request)
    requires Exchanging(q)
  {
    match q
    case ExchangeFind(x) => Authenticated(s.cfg, x.client)
    case ExchangeMarkClaimed(c, f) => ClaimedCode(s, c, f)
    case ExchangeMarkExchanged(c, f) => FinalCode(s, c, f)
    case ExchangeBurn(c, f) => MarkedCode(s, c, f)
    case ExchangeDelete(c) => true
    case ExchangeGrant(x, row) => CodeRead(s, x, row)
    case ExchangeClaim(x, row, jkt) =>
      && CodeRead(s, x, row)
      && ExchangedBind(row.bind, row.bind.(jkt := jkt))
      && (s.cfg.dpop.Off? ==> jkt.None?)
  }

  ghost predicate RefreshOk(s: State, q: Request)
    requires Refreshing(q)
  {
    match q
    case RefreshFind(y) => Authenticated(s.cfg, y.client)
    case RefreshMarkRotating(t, f) => SpentToken(s, t, f)
    case RefreshMarkRotated(t, f) => FinalToken(s, t, f)
    case RefreshBurn(t, f) => MarkedToken(s, t, f)
    case RefreshGrant(y, row) => TokenRead(s, y, row)
    case RefreshClaim(y, row, scope, jkt) =>
      && TokenRead(s, y, row)
      && RotatedBind(row.bind, row.bind.(scope := scope, jkt := jkt), y.client.isPublic)
      && (s.cfg.dpop.Off? ==> jkt.None?)
  }

  ghost predicate MintOk(s: State, r: nat, q: Request)
    requires Minting(q)
  {
    if q.MintInsert? then SourceOk(s, q.m) else Inserted(s, r, q.m, q.token)
  }

  ghost predicate ConsentOk(s: State, q: Request)
    requires Consenting(q)
  {
    && (s.cfg.dpop.Off? ==> q.k.jkt.None?)
    && (q.GrantMerge? || q.GrantCode? ==> q.grant < s.db.next)
  }

  ghost predicate RevokeOk(s: State, q: Request)
    requires Revoking(q)
  {
    match q
    case RevokeFind(v) => Authenticated(s.cfg, v.client)
    case RevokeFindOther(v) => Authenticated(s.cfg, v.client)
    case RevokeMark(t, f) => TokenOf(s, t, f)
    case RevokeBurn(t, f) => RevokedToken(s, t, f)
    case ConsentFind(_) => true
    case ConsentMark(o) => o in s.db.consents
    case ConsentCodes(o, g) => Superseded(s, o, g)
    case ConsentTokens(o, g) => Superseded(s, o, g)
  }

  /** What a suspended request may rely on, whatever the others have done since it last ran. */
  ghost predicate RequestOk(s: State, r: nat, q: Request) {
    if Exchanging(q) then ExchangeOk(s, q)
    else if Refreshing(q) then RefreshOk(s, q)
    else if Minting(q) then MintOk(s, r, q)
    else if Consenting(q) then ConsentOk(s, q)
    else if Revoking(q) then RevokeOk(s, q)
    else OutcomeOk(s, q.outcome)
  }

  ghost predicate OutcomeOk(s: State, outcome: Outcome) {
    match outcome
    case Issued(t) => t in s.log.disclosed
    case ReplayedCode(c, f) => MarkedCode(s, c, f)
    case ReusedRefresh(t, f) => MarkedToken(s, t, f)
    case RevokedFamily(t, f) => RevokedToken(s, t, f)
    case RevokedGrant(o, g) => Superseded(s, o, g)
    case _ => true
  }

  ghost predicate Requests(s: State) {
    forall r :: r in s.reqs ==> RequestOk(s, r, s.reqs[r])
  }

  // -- one holder per family, one successor per source ----------------------------------------

  predicate Inserting(s: State, r: nat) {
    r in s.reqs && s.reqs[r].MintInsert?
  }

  predicate IsActive(s: State, t: Id) {
    t in s.db.tokens && s.db.tokens[t].state == Active
  }

  ghost predicate Holders(s: State) {
    && (forall t, u :: IsActive(s, t) && IsActive(s, u) ==>
          s.db.tokens[t].family == s.db.tokens[u].family ==> t == u)
    && (forall t, r :: IsActive(s, t) && Inserting(s, r) ==> s.reqs[r].m.family != s.db.tokens[t].family)
    && (forall r, q :: Inserting(s, r) && Inserting(s, q) ==> s.reqs[r].m.family == s.reqs[q].m.family ==> r == q)
  }

  ghost predicate Successors(s: State) {
    && (forall t, u :: t in s.log.parent && u in s.log.parent ==> s.log.parent[t] == s.log.parent[u] ==> t == u)
    && (forall t, r :: t in s.log.parent && Inserting(s, r) ==> s.reqs[r].m.source != s.log.parent[t])
  }

  ghost predicate Inv(s: State) {
    Tables(s) && Requests(s) && Holders(s) && Successors(s)
  }

  // -- what one step of request `r` leaves for everyone else ---------------------------------

  ghost predicate TokensEvolve(s: State, z: State) {
    && (forall t :: t in s.db.tokens ==>
          && t in z.db.tokens
          && TokenMove(s.db.tokens[t].state, z.db.tokens[t].state)
          && z.db.tokens[t] == s.db.tokens[t].(state := z.db.tokens[t].state))
    && (forall t :: t in z.db.tokens && t !in s.db.tokens ==> t >= s.db.next)
  }

  ghost predicate CodesEvolve(s: State, z: State) {
    && (forall c :: c in s.db.codes && c in z.db.codes ==>
          && CodeMove(s.db.codes[c].used, z.db.codes[c].used)
          && z.db.codes[c].bind == s.db.codes[c].bind)
    && (forall c :: c in z.db.codes && c !in s.db.codes ==> c >= s.db.next)
  }

  ghost predicate ConsentsEvolve(s: State, z: State) {
    forall o :: o in s.db.consents ==>
      && o in z.db.consents
      && (z.db.consents[o].grant == s.db.consents[o].grant || z.db.consents[o].grant >= s.db.next)
  }

  ghost predicate LogEvolves(s: State, z: State, r: nat) {
    && (forall f :: f in s.log.origin ==> f in z.log.origin && z.log.origin[f] == s.log.origin[f])
    && (forall t :: t in s.log.parent ==> t in z.log.parent && z.log.parent[t] == s.log.parent[t])
    && (forall t :: t in s.log.minter ==> t in z.log.minter && z.log.minter[t] == s.log.minter[t])
    && s.log.disclosed <= z.log.disclosed
    && (forall t :: t in z.log.disclosed ==> t in s.log.disclosed || (t in s.log.minter && s.log.minter[t] == r))
  }

  ghost predicate Evolves(s: State, z: State, r: nat) {
    && s.cfg == z.cfg
    && s.db.next <= z.db.next
    && TokensEvolve(s, z)
    && CodesEvolve(s, z)
    && ConsentsEvolve(s, z)
    && LogEvolves(s, z, r)
    && s.reqs.Keys <= z.reqs.Keys
    && (forall q :: q in s.reqs && q != r ==> z.reqs[q] == s.reqs[q])
  }

  lemma TokenStays(s: State, z: State, t: Id, f: Id)
    requires TokensEvolve(s, z)
    ensures TokenOf(s, t, f) ==> TokenOf(z, t, f)
    ensures SpentToken(s, t, f) ==> SpentToken(z, t, f)
    ensures FinalToken(s, t, f) ==> FinalToken(z, t, f)
    ensures MarkedToken(s, t, f) ==> MarkedToken(z, t, f)
    ensures RevokedToken(s, t, f) ==> RevokedToken(z, t, f)
  {
    if t in s.db.tokens {
      assert TokenMove(s.db.tokens[t].state, z.db.tokens[t].state);
    }
  }

  lemma CodeStays(s: State, z: State, r: nat, c: Id, f: Id)
    requires Tables(s) && CodesEvolve(s, z) && LogEvolves(s, z, r)
    ensures ClaimedCode(s, c, f) ==> ClaimedCode(z, c, f)
    ensures FinalCode(s, c, f) ==> FinalCode(z, c, f)
    ensures MarkedCode(s, c, f) ==> MarkedCode(z, c, f)
  {
    if OriginIs(s, c, f) && c in z.db.codes {
      assert OriginOk(s, f);
      assert CodeMove(s.db.codes[c].used, z.db.codes[c].used);
    }
  }

  lemma SourceStays(s: State, z: State, r: nat, m: Mint)
    requires Evolves(s, z, r) && SourceOk(s, m)
    ensures SourceOk(z, m)
  {
    match m.source
    case FromCode(c) =>
    case FromToken(p) => TokenStays(s, z, p, m.family);
  }

  lemma InsertedStays(s: State, z: State, r: nat, q: nat, m: Mint, t: Id)
    requires Tables(s) && Evolves(s, z, r) && q != r && Inserted(s, q, m, t)
    ensures Inserted(z, q, m, t)
  {
    SourceStays(s, z, r, m);
    TokenStays(s, z, t, m.family);
  }

  lemma OutcomeStays(s: State, z: State, r: nat, outcome: Outcome)
    requires Tables(s) && Evolves(s, z, r) && OutcomeOk(s, outcome)
    ensures OutcomeOk(z, outcome)
  {
    match outcome
    case ReplayedCode(c, f) => CodeStays(s, z, r, c, f);
    case ReusedRefresh(t, f) => TokenStays(s, z, t, f);
    case RevokedFamily(t, f) => TokenStays(s, z, t, f);
    case _ =>
  }

  /** Nothing another request does invalidates what a suspended request knows. */
  lemma OthersStayOk(s: State, z: State, r: nat, q: nat)
    requires Tables(s) && Evolves(s, z, r)
    requires q in s.reqs && q != r && RequestOk(s, q, s.reqs[q])
    ensures RequestOk(z, q, s.reqs[q])
  {
    var req := s.reqs[q];
    if Exchanging(req) {
      ExchangeStays(s, z, r, req);
    } else if Refreshing(req) {
      RefreshStays(s, z, r, req);
    } else if Minting(req) {
      SourceStays(s, z, r, req.m);
      if !req.MintInsert? { InsertedStays(s, z, r, q, req.m, req.token); }
    } else if Revoking(req) {
      RevokeStays(s, z, r, req);
    } else if req.Done? {
      OutcomeStays(s, z, r, req.outcome);
    }
  }

  lemma ExchangeStays(s: State, z: State, r: nat, q: Request)
    requires Tables(s) && Evolves(s, z, r) && Exchanging(q) && ExchangeOk(s, q)
    ensures ExchangeOk(z, q)
  {
    match q
    case ExchangeMarkClaimed(c, f) => CodeStays(s, z, r, c, f);
    case ExchangeMarkExchanged(c, f) => CodeStays(s, z, r, c, f);
    case ExchangeBurn(c, f) => CodeStays(s, z, r, c, f);
    case _ =>
  }

  lemma RefreshStays(s: State, z: State, r: nat, q: Request)
    requires Evolves(s, z, r) && Refreshing(q) && RefreshOk(s, q)
    ensures RefreshOk(z, q)
  {
    match q
    case RefreshMarkRotating(t, f) => TokenStays(s, z, t, f);
    case RefreshMarkRotated(t, f) => TokenStays(s, z, t, f);
    case RefreshBurn(t, f) => TokenStays(s, z, t, f);
    case _ =>
  }

  lemma RevokeStays(s: State, z: State, r: nat, q: Request)
    requires Evolves(s, z, r) && Revoking(q) && RevokeOk(s, q)
    ensures RevokeOk(z, q)
  {
    match q
    case RevokeMark(t, f) => TokenStays(s, z, t, f);
    case RevokeBurn(t, f) => TokenStays(s, z, t, f);
    case _ =>
  }
}
