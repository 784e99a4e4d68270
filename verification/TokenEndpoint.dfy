/**
 The handlers as the source writes them: methods that call the adapter one statement after another and
 change the tables in place. Each is proved to take the steps of the state machine, so the tables it leaves are
 reachable again, and its contract says what a caller finds in them.
 */
module TokenEndpoint {
  import opened Wrappers
  import opened OAuthStore
  import opened OAuthMachine
  import opened OAuthInvariant
  import opened OAuthPreservation
  import opened RequestsAlone

  // -- the handlers ---------------------------------------------------------------------------------

  class AuthorizationServer {
    const cfg: Config
    var codes: map<Id, Code>
    var tokens: map<Id, Token>
    var consents: map<Owner, Consent>
    var next: Id

    constructor (cfg: Config)
      ensures this.cfg == cfg && Tables() == Start(cfg).db && Valid()
    {
      this.cfg := cfg;
      codes, tokens, consents, next := map[], map[], map[], 0;
      new;
      StartIsReachable(cfg);
    }

    /** The tables are what some interleaving of requests leaves: every theorem about runs holds of them. */
    ghost predicate Valid()
      reads this
    {
      TablesReachable(cfg, Tables())
    }

    function Tables(): Db
      reads this
    {
      Db(codes, tokens, consents, next)
    }

    // The adapter's writing calls; the guarded ones return the affected-row count.

    /** `UPDATE oauth_code SET used = used WHERE id = c AND used = guard` */
    method UpdateCode(c: Id, guard: CodeState, used: CodeState) returns (count: nat)
      modifies this`codes
      ensures var rows := CodeIn(old(Tables()), c, guard);
        Tables() == Apply(old(Tables()), SetCodes(rows, used)) && count == |rows|
    {
      count := 0;
      if c in codes && codes[c].used == guard {
        codes := codes[c := codes[c].(used := used)];
        count := 1;
      }
    }

    /** `UPDATE oauth_token SET revoked = state WHERE id = t AND revoked = guard` */
    method UpdateToken(t: Id, guard: TokenState, state: TokenState) returns (count: nat)
      modifies this`tokens
      ensures var rows := TokenIn(old(Tables()), t, guard);
        Tables() == Apply(old(Tables()), SetTokens(rows, state)) && count == |rows|
    {
      count := 0;
      if t in tokens && tokens[t].state == guard {
        tokens := tokens[t := tokens[t].(state := state)];
        count := 1;
      }
    }

    /** `UPDATE oauth_token SET revoked = state WHERE family_id = family AND revoked = 0` */
    method UpdateActive(family: Id, state: TokenState)
      modifies this`tokens
      ensures Tables() == Apply(old(Tables()), SetTokens(ActiveIn(old(Tables()), family), state))
    {
      tokens := map t | t in tokens ::
        if tokens[t].family == family && tokens[t].state == Active then tokens[t].(state := state) else tokens[t];
    }

    method CreateToken(row: Token) returns (t: Id)
      modifies this`tokens, this`next
      ensures t == old(next) && Tables() == Apply(old(Tables()), InsertToken(row))
    {
      t := next;
      tokens := tokens[t := row];
      next := next + 1;
    }

    /** `_mint_tokens` after a won claim. */
    method MintTokens(m: Mint, now: int) returns (outcome: Outcome)
      modifies this
      ensures Answer(Tables(), outcome) == RunAlone(cfg, old(Tables()), MintInsert(m), now)
    {
      OneCall(cfg, Tables(), MintInsert(m), now, Move(InsertToken(NewToken(cfg, m, now)), MintFinalize(m, next)));
      var t := CreateToken(NewToken(cfg, m, now));
      outcome := FinishMint(m, t, now);
    }

    method FinishMint(m: Mint, t: Id, now: int) returns (outcome: Outcome)
      modifies this
      ensures Answer(Tables(), outcome) == RunAlone(cfg, old(Tables()), MintFinalize(m, t), now)
    {
      ghost var before := Tables();
      var finalized: nat;
      match m.source {
        case FromCode(c) => finalized := UpdateCode(c, Claimed, Exchanged);
        case FromToken(p) => finalized := UpdateToken(p, Rotating, Rotated);
      }
      OneCall(cfg, before, MintFinalize(m, t), now, Decide(cfg, before, MintFinalize(m, t), now));
      if finalized != 1 {
        outcome := BurnMint(m, t, now);
      } else {
        outcome := CheckMint(m, t, now);
      }
    }

    /** `_family_invalidated`: the code scan, then the token scan. */
    method CheckMint(m: Mint, t: Id, now: int) returns (outcome: Outcome)
      modifies this
      ensures Answer(Tables(), outcome) == RunAlone(cfg, old(Tables()), MintScanCodes(m, t), now)
    {
      ghost var db := Tables();
      OneCall(cfg, db, MintScanCodes(m, t), now, Decide(cfg, db, MintScanCodes(m, t), now));
      if CodeReplayed(Tables(), m.family) {
        outcome := BurnMint(m, t, now);
        return;
      }
      OneCall(cfg, db, MintScanTokens(m, t), now, Decide(cfg, db, MintScanTokens(m, t), now));
      if TokenMarked(Tables(), m.family) {
        outcome := BurnMint(m, t, now);
        return;
      }
      outcome := CheckGrant(m, t, now);
    }

    /** `_grant_active` for the mint's own generation, and the decision between answering and burning. */
    method CheckGrant(m: Mint, t: Id, now: int) returns (outcome: Outcome)
      modifies this
      ensures Answer(Tables(), outcome) == RunAlone(cfg, old(Tables()), MintGrant(m, t), now)
    {
      ghost var db := Tables();
      OneCall(cfg, db, MintGrant(m, t), now, Decide(cfg, db, MintGrant(m, t), now));
      if !GrantActive(Tables(), m.bind) {
        outcome := BurnMint(m, t, now);
        return;
      }
      OneCall(cfg, db, MintDisclose(m, t), now, Read(Done(Issued(t))));
      outcome := Issued(t);
    }

    method BurnMint(m: Mint, t: Id, now: int) returns (outcome: Outcome)
      modifies this
      ensures Answer(Tables(), outcome) == RunAlone(cfg, old(Tables()), MintBurn(m, t), now)
    {
      OneCall(cfg, Tables(), MintBurn(m, t), now, Decide(cfg, Tables(), MintBurn(m, t), now));
      UpdateActive(m.family, Rotating);
      outcome := Burned(m.family);
    }

    /** The replay branch of `_token_authorization_code`. */
    method AnswerReplay(c: Id, family: Id, now: int) returns (outcome: Outcome)
      modifies this
      ensures Answer(Tables(), outcome) == RunAlone(cfg, old(Tables()), ExchangeMarkClaimed(c, family), now)
    {
      ghost var db := Tables();
      var marked := UpdateCode(c, Claimed, Replayed);
      OneCall(cfg, db, ExchangeMarkClaimed(c, family), now, DecideExchangeMark(db, c, family));
      if marked == 0 {
        db := Tables();
        marked := UpdateCode(c, Exchanged, Replayed);
        OneCall(cfg, db, ExchangeMarkExchanged(c, family), now,
                Move(SetCodes(CodeIn(db, c, Exchanged), Replayed), ExchangeBurn(c, family)));
      }
      db := Tables();
      UpdateActive(family, Rotating);
      OneCall(cfg, db, ExchangeBurn(c, family), now,
              Move(SetTokens(ActiveIn(db, family), Rotating), Done(ReplayedCode(c, family))));
      outcome := ReplayedCode(c, family);
    }

    /** `_token_authorization_code` */
    method ExchangeCode(x: Exchange, now: int) returns (outcome: Outcome)
      requires Valid() && Authenticated(cfg, x.client)
      modifies this
      ensures Valid() && Answer(Tables(), outcome) == RunAlone(cfg, old(Tables()), ExchangeFind(x), now)
      ensures outcome.Issued? <==> ExchangeChecks(cfg, old(Tables()), x, now)
      ensures outcome.Issued? ==> ExchangedOnce(cfg, old(Tables()), Tables(), x, outcome.token, now)
      ensures Replays(old(Tables()), x.code) ==>
        && ReplayBurned(old(Tables()), Answer(Tables(), outcome), x.code)
        && (forall t :: t in tokens && Some(tokens[t].family) == old(codes)[x.code].family ==>
              tokens[t].state != Active)
      ensures !outcome.Issued? && !Replays(old(Tables()), x.code) ==>
        ExchangeRefused(cfg, old(Tables()), x, now, Answer(Tables(), outcome))
    {
      ExchangeContract(cfg, Tables(), x, now);
      AloneStaysReachable(cfg, Tables(), ExchangeFind(x), now);
      OneCall(cfg, Tables(), ExchangeFind(x), now, DecideExchangeFind(Tables(), x, now));
      if x.code !in codes {
        return Refused(InvalidGrant);
      }
      var row := codes[x.code];
      if row.used != Unused {
        if row.family.None? {
          return Refused(InvalidGrant);
        }
        outcome := AnswerReplay(x.code, row.family.value, now);
        return;
      }
      if row.expires <= now {
        OneCall(cfg, Tables(), ExchangeDelete(x.code), now, Move(DeleteCode(x.code), Done(Refused(InvalidGrant))));
        codes := codes - {x.code};
        return Refused(InvalidGrant);
      }
      if row.bind.owner.client != x.client.id {
        return Refused(InvalidGrant);
      }
      outcome := ExchangeReadCode(x, row, now);
    }

    /** From the grant check on, with the row as it was read. */
    method ExchangeReadCode(x: Exchange, row: Code, now: int) returns (outcome: Outcome)
      modifies this
      ensures Answer(Tables(), outcome) == RunAlone(cfg, old(Tables()), ExchangeGrant(x, row), now)
    {
      OneCall(cfg, Tables(), ExchangeGrant(x, row), now, DecideExchangeGrant(cfg, Tables(), x, row));
      if !GrantActive(Tables(), row.bind) || row.redirect != x.redirect || x.challenge != Some(row.challenge) {
        return Refused(InvalidGrant);
      }
      var target := ResourceError(cfg, x.resources, row.bind.resource);
      if target.Some? {
        return Refused(target.value);
      }
      var required := row.bind.jkt.Some? || x.client.dpopBound || cfg.dpop.Required?;
      var proof := TokenDPoP(cfg, x.proof, row.bind.jkt, required);
      if proof.Err? {
        return Refused(proof.error);
      }
      outcome := ClaimAndMint(x, row, proof.value, now);
    }

    /** `UPDATE oauth_code SET used = 1, family_id = new_id() WHERE id = c AND used = 0` */
    method UpdateClaim(c: Id) returns (count: nat)
      modifies this`codes, this`next
      ensures count == |CodeIn(old(Tables()), c, Unused)|
      ensures Tables() == if count == 0 then old(Tables()) else Apply(old(Tables()), ClaimCode(c))
    {
      count := 0;
      if c in codes && codes[c].used == Unused {
        codes := codes[c := codes[c].(used := Claimed, family := Some(next))];
        next := next + 1;
        count := 1;
      }
    }

    method ClaimAndMint(x: Exchange, row: Code, jkt: Option<Id>, now: int) returns (outcome: Outcome)
      modifies this
      ensures Answer(Tables(), outcome) == RunAlone(cfg, old(Tables()), ExchangeClaim(x, row, jkt), now)
    {
      OneCall(cfg, Tables(), ExchangeClaim(x, row, jkt), now, DecideExchangeClaim(Tables(), x, row, jkt));
      var family := next;
      var claimed := UpdateClaim(x.code);
      if claimed != 1 {
        return LostClaim;
      }
      outcome := MintTokens(Mint(FromCode(x.code), family, row.bind.(jkt := jkt), x.client), now);
    }

    /** The reuse branch of `_token_refresh`. */
    method AnswerReuse(t: Id, family: Id, now: int) returns (outcome: Outcome)
      modifies this
      ensures Answer(Tables(), outcome) == RunAlone(cfg, old(Tables()), RefreshMarkRotating(t, family), now)
    {
      ghost var db := Tables();
      var marked := UpdateToken(t, Rotating, Compromised);
      OneCall(cfg, db, RefreshMarkRotating(t, family), now, DecideRefreshMark(db, t, family));
      if marked == 0 {
        db := Tables();
        marked := UpdateToken(t, Rotated, Compromised);
        OneCall(cfg, db, RefreshMarkRotated(t, family), now,
                Move(SetTokens(TokenIn(db, t, Rotated), Compromised), RefreshBurn(t, family)));
      }
      db := Tables();
      UpdateActive(family, Rotating);
      OneCall(cfg, db, RefreshBurn(t, family), now,
              Move(SetTokens(ActiveIn(db, family), Rotating), Done(ReusedRefresh(t, family))));
      outcome := ReusedRefresh(t, family);
    }

    /** `_token_refresh` */
    method RefreshToken(y: Refresh, now: int) returns (outcome: Outcome)
      requires Valid() && Authenticated(cfg, y.client)
      modifies this
      ensures Valid() && Answer(Tables(), outcome) == RunAlone(cfg, old(Tables()), RefreshFind(y), now)
      ensures outcome.Issued? <==> RefreshChecks(cfg, old(Tables()), y, now)
      ensures outcome.Issued? ==> RotatedOnce(cfg, old(Tables()), Tables(), y, outcome.token, now)
      ensures Spent(old(Tables()), y.token) ==>
        && y.token in tokens && Marker(tokens[y.token].state)
        && (forall t :: t in tokens && tokens[t].family == old(tokens)[y.token].family ==> tokens[t].state != Active)
      ensures RefreshLeaves(cfg, old(Tables()), y, now, Answer(Tables(), outcome))
    {
      RefreshContract(cfg, Tables(), y, now);
      AloneStaysReachable(cfg, Tables(), RefreshFind(y), now);
      OneCall(cfg, Tables(), RefreshFind(y), now, DecideRefreshFind(Tables(), y));
      if y.token !in tokens || tokens[y.token].refreshExpires.None? {
        return Refused(InvalidGrant);
      }
      var row := tokens[y.token];
      if row.state != Active {
        outcome := AnswerReuse(y.token, row.family, now);
        return;
      }
      if row.bind.owner.client != y.client.id {
        return Refused(InvalidGrant);
      }
      outcome := RefreshReadToken(y, row, now);
    }

    method RefreshReadToken(y: Refresh, row: Token, now: int) returns (outcome: Outcome)
      modifies this
      ensures Answer(Tables(), outcome) == RunAlone(cfg, old(Tables()), RefreshGrant(y, row), now)
    {
      OneCall(cfg, Tables(), RefreshGrant(y, row), now, DecideRefreshGrant(cfg, Tables(), y, row, now));
      if !GrantActive(Tables(), row.bind) {
        return Refused(InvalidGrant);
      }
      if row.refreshExpires.Some? && row.refreshExpires.value <= now {
        return Refused(InvalidGrant);
      }
      var target := ResourceError(cfg, y.resources, row.bind.resource);
      if target.Some? {
        return Refused(target.value);
      }
      var scope := row.bind.scope;
      if y.scope.Some? {
        if !(y.scope.value <= row.bind.scope) {
          return Refused(InvalidScope);
        }
        scope := y.scope.value;
      }
      var expected := if y.client.isPublic then row.bind.jkt else None;
      var proof := TokenDPoP(cfg, y.proof, expected, expected.Some? || y.client.dpopBound || cfg.dpop.Required?);
      if proof.Err? {
        return Refused(proof.error);
      }
      outcome := RotateAndMint(y, row, scope, proof.value, now);
    }

    method RotateAndMint(y: Refresh, row: Token, scope: set<string>, jkt: Option<Id>, now: int)
      returns (outcome: Outcome)
      modifies this
      ensures Answer(Tables(), outcome) == RunAlone(cfg, old(Tables()), RefreshClaim(y, row, scope, jkt), now)
    {
      ghost var db := Tables();
      var claimed := UpdateToken(y.token, Active, Rotating);
      OneCall(cfg, db, RefreshClaim(y, row, scope, jkt), now, DecideRefreshClaim(db, y, row, scope, jkt));
      if claimed != 1 {
        assert WithTokens(db.tokens, {}, Rotating) == db.tokens;
        return LostClaim;
      }
      outcome := MintTokens(Mint(FromToken(y.token), row.family, row.bind.(scope := scope, jkt := jkt), y.client), now);
    }

    /** `revoke_token`: two lookups, then the marker before the burn. */
    method RevokeToken(v: Revocation, now: int) returns (outcome: Outcome)
      requires Valid() && Authenticated(cfg, v.client)
      modifies this
      ensures Valid() && Answer(Tables(), outcome) == RunAlone(cfg, old(Tables()), RevokeFind(v), now)
      ensures Revocable(old(Tables()), v) ==>
        && outcome == RevokedFamily(v.token, old(tokens)[v.token].family)
        && v.token in tokens && tokens[v.token].state == Revoked
        && (forall t :: t in tokens && tokens[t].family == tokens[v.token].family ==> tokens[t].state != Active)
        && RevokedOnly(old(Tables()), Tables(), v.token)
      ensures !Revocable(old(Tables()), v) ==> outcome == NothingToRevoke && Tables() == old(Tables())
    {
      RevokeContract(cfg, Tables(), v, now);
      AloneStaysReachable(cfg, Tables(), RevokeFind(v), now);
      ghost var db := Tables();
      OneCall(cfg, db, RevokeFind(v), now, DecideRevoke(db, RevokeFind(v)));
      if !Finds(Tables(), v, v.refreshFirst) {
        OneCall(cfg, db, RevokeFindOther(v), now, DecideRevoke(db, RevokeFindOther(v)));
        if !Finds(Tables(), v, !v.refreshFirst) {
          return NothingToRevoke;
        }
      }
      var row := tokens[v.token];
      if row.bind.owner.client != v.client.id {
        return NothingToRevoke;
      }
      outcome := RevokeRow(v.token, row.family, now);
    }

    /** `UPDATE oauth_token SET revoked = 4 WHERE id = t`, whatever state the row is in. */
    method UpdateAnyToken(t: Id)
      modifies this`tokens
      ensures Tables() == Apply(old(Tables()), SetTokens(TokenAt(old(Tables()), t), Revoked))
    {
      if t in tokens {
        tokens := tokens[t := tokens[t].(state := Revoked)];
      }
    }

    method RevokeRow(t: Id, family: Id, now: int) returns (outcome: Outcome)
      modifies this
      ensures Answer(Tables(), outcome) == RunAlone(cfg, old(Tables()), RevokeMark(t, family), now)
    {
      OneCall(cfg, Tables(), RevokeMark(t, family), now,
              Move(SetTokens(TokenAt(Tables(), t), Revoked), RevokeBurn(t, family)));
      UpdateAnyToken(t);
      OneCall(cfg, Tables(), RevokeBurn(t, family), now,
              Move(SetTokens(ActiveIn(Tables(), family), Revoked), Done(RevokedFamily(t, family))));
      UpdateActive(family, Revoked);
      outcome := RevokedFamily(t, family);
    }

    /** `revoke_consent`: the generation first, then the codes, then the tokens. */
    method RevokeConsent(owner: Owner, now: int) returns (outcome: Outcome)
      requires Valid()
      modifies this
      ensures Valid() && Answer(Tables(), outcome) == RunAlone(cfg, old(Tables()), ConsentFind(owner), now)
      ensures owner in old(consents) ==>
        && outcome == RevokedGrant(owner, old(consents)[owner].grant)
        && owner in consents && consents[owner].revoked && consents[owner].grant > old(consents)[owner].grant
        && (forall c :: c in codes && codes[c].bind.owner == owner ==> codes[c].used == Replayed)
        && (forall t :: t in tokens && tokens[t].bind.owner == owner ==> Marker(tokens[t].state))
        && GrantRevoked(old(Tables()), Tables(), owner)
      ensures owner !in old(consents) ==> outcome == NoConsent && Tables() == old(Tables())
    {
      ConsentRevocationContract(cfg, Tables(), owner, now);
      AloneStaysReachable(cfg, Tables(), ConsentFind(owner), now);
      ghost var db := Tables();
      OneCall(cfg, db, ConsentFind(owner), now, DecideRevoke(db, ConsentFind(owner)));
      if owner !in consents {
        return NoConsent;
      }
      var retired := consents[owner].grant;
      OneCall(cfg, db, ConsentMark(owner), now, DecideConsentMark(db, owner));
      StoreConsent(owner, consents[owner].(grant := next, revoked := true));
      RevokeRowsOf(owner, retired, now);
      outcome := RevokedGrant(owner, retired);
    }

    /** `UPDATE oauth_code SET used = 2 WHERE user_id = .. AND client_id = .. AND used IN (0, 1, 3)` */
    method UpdateCodesOf(owner: Owner)
      modifies this`codes
      ensures Tables() == Apply(old(Tables()), SetCodes(LiveCodesOf(old(Tables()), owner), Replayed))
    {
      codes := map c | c in codes ::
        if codes[c].bind.owner == owner && codes[c].used != Replayed then codes[c].(used := Replayed) else codes[c];
    }

    /** `UPDATE oauth_token SET revoked = 4 WHERE user_id = .. AND client_id = .. AND revoked IN (0, 1, 3, 4)` */
    method UpdateTokensOf(owner: Owner)
      modifies this`tokens
      ensures Tables() == Apply(old(Tables()), SetTokens(UncompromisedTokensOf(old(Tables()), owner), Revoked))
    {
      tokens := map t | t in tokens ::
        if tokens[t].bind.owner == owner && tokens[t].state != Compromised then tokens[t].(state := Revoked)
        else tokens[t];
    }

    method RevokeRowsOf(owner: Owner, retired: Id, now: int)
      modifies this`codes, this`tokens
      ensures Answer(Tables(), RevokedGrant(owner, retired))
              == RunAlone(cfg, old(Tables()), ConsentCodes(owner, retired), now)
    {
      OneCall(cfg, Tables(), ConsentCodes(owner, retired), now,
              Move(SetCodes(LiveCodesOf(Tables(), owner), Replayed), ConsentTokens(owner, retired)));
      UpdateCodesOf(owner);
      OneCall(cfg, Tables(), ConsentTokens(owner, retired), now,
              Move(SetTokens(UncompromisedTokensOf(Tables(), owner), Revoked), Done(RevokedGrant(owner, retired))));
      UpdateTokensOf(owner);
    }

    /** The accepting branch of `consent`. */
    method GrantConsent(k: Pending, now: int) returns (outcome: Outcome)
      requires Valid() && (cfg.dpop.Off? ==> k.jkt.None?)
      modifies this
      ensures Valid() && Answer(Tables(), outcome) == RunAlone(cfg, old(Tables()), GrantFind(k), now)
      ensures outcome.Authorized? && CodeGranted(cfg, old(Tables()), Tables(), k, outcome.code, now)
      ensures ConsentGiven(old(Tables()), Tables(), k)
    {
      ReachableCodesAreNumbered(cfg, Tables());
      ConsentAlone(cfg, Tables(), k, now);
      AloneStaysReachable(cfg, Tables(), GrantFind(k), now);
      outcome := GrantPending(k, now);
    }

    /** Create, replace or merge the consent row, then mint a code of its generation. */
    method GrantPending(k: Pending, now: int) returns (outcome: Outcome)
      modifies this
      ensures Answer(Tables(), outcome) == RunAlone(cfg, old(Tables()), GrantFind(k), now)
    {
      ghost var db := Tables();
      OneCall(cfg, db, GrantFind(k), now, DecideConsent(cfg, db, GrantFind(k), now));
      var grant := next;
      if k.owner !in consents {
        OneCall(cfg, db, GrantCreate(k), now, DecideConsent(cfg, db, GrantCreate(k), now));
        StoreConsent(k.owner, Consent(grant, k.scope, false));
      } else if consents[k.owner].revoked {
        OneCall(cfg, db, GrantReplace(k), now, DecideConsent(cfg, db, GrantReplace(k), now));
        StoreConsent(k.owner, Consent(grant, k.scope, false));
      } else {
        grant := consents[k.owner].grant;
        var merged := consents[k.owner].scope + k.scope;
        OneCall(cfg, db, GrantMerge(k, grant, merged), now, DecideConsent(cfg, db, GrantMerge(k, grant, merged), now));
        StoreConsent(k.owner, consents[k.owner].(scope := merged));
      }
      outcome := MintCode(k, grant, now);
    }

    method StoreConsent(owner: Owner, row: Consent)
      modifies this`consents, this`next
      ensures Tables() == Apply(old(Tables()), PutConsent(owner, row))
    {
      consents := consents[owner := row];
      next := next + 1;
    }

    /** The consent shortcut of `authorize`: an earlier consent that covers the scope. */
    method Authorize(k: Pending, now: int) returns (outcome: Outcome)
      requires Valid() && (cfg.dpop.Off? ==> k.jkt.None?)
      modifies this
      ensures Valid() && Answer(Tables(), outcome) == RunAlone(cfg, old(Tables()), AuthorizeFind(k), now)
      ensures outcome.Authorized? <==>
        k.owner in old(consents) && !old(consents)[k.owner].revoked && k.scope <= old(consents)[k.owner].scope
      ensures outcome.Authorized? ==>
        CodeGranted(cfg, old(Tables()), Tables(), k, outcome.code, now) && consents == old(consents)
      ensures !outcome.Authorized? ==> Tables() == old(Tables())
    {
      ReachableCodesAreNumbered(cfg, Tables());
      AuthorizeAlone(cfg, Tables(), k, now);
      AloneStaysReachable(cfg, Tables(), AuthorizeFind(k), now);
      OneCall(cfg, Tables(), AuthorizeFind(k), now, DecideConsent(cfg, Tables(), AuthorizeFind(k), now));
      if k.owner in consents && !consents[k.owner].revoked && k.scope <= consents[k.owner].scope {
        outcome := MintCode(k, consents[k.owner].grant, now);
      } else {
        outcome := NeedsConsent;
      }
    }

    /** `_mint_code` */
    method MintCode(k: Pending, grant: Id, now: int) returns (outcome: Outcome)
      modifies this`codes, this`next
      ensures Answer(Tables(), outcome) == RunAlone(cfg, old(Tables()), GrantCode(k, grant), now)
    {
      var c := next;
      var row := NewCode(cfg, k, grant, now);
      OneCall(cfg, Tables(), GrantCode(k, grant), now, Move(InsertCode(row), Done(Authorized(c))));
      codes := codes[c := row];
      next := next + 1;
      outcome := Authorized(c);
    }
  }
}
