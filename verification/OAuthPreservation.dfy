/** Every event of every interleaving preserves the invariant. */
module OAuthPreservation {
  import opened Wrappers
  import opened OAuthStore
  import opened OAuthMachine
  import opened OAuthInvariant

  // -- what any move of any request may do ----------------------------------------------------

  /** Each row a write changes moves along an edge of its state graph, and grants are only replaced by new ones. */
  ghost predicate LegalWrite(db: Db, w: Write) {
    match w
    case ClaimCode(c) => c in db.codes && db.codes[c].used == Unused
    case SetCodes(rows, used) =>
      && (used == Exchanged || used == Replayed)
      && (forall c :: c in rows ==> c in db.codes && CodeMove(db.codes[c].used, used))
    case SetTokens(rows, state) =>
      && state != Active
      && (forall t :: t in rows ==> t in db.tokens && TokenMove(db.tokens[t].state, state))
    case PutConsent(o, row) => row.grant == db.next || (o in db.consents && row.grant == db.consents[o].grant)
    case _ => true
  }

  /** Who may insert a token, open a family, create a code; and that a mint carries its token to the end. */
  ghost predicate Disciplined(cfg: Config, db: Db, q: Request, move: Move) {
    && (move.write.InsertToken? <==> q.MintInsert?)
    && (q.MintInsert? ==>
          && move.write.token.bind == q.m.bind && move.write.token.family == q.m.family
          && move.write.token.state == Active
          && move.after == MintFinalize(q.m, db.next))
    && (move.write.ClaimCode? ==> q.ExchangeClaim? && move.write.claimed == q.x.code)
    && (move.write.InsertCode? ==>
          && q.GrantCode?
          && move.write.code.bind == Binding(q.k.owner, q.grant, q.k.resource, q.k.scope, q.k.jkt)
          && move.write.code.used == Unused && move.write.code.family == None)
    && (Minting(q) && !q.MintInsert? ==> Holds(move.after, q.token) || move.after.Done?)
    && (move.after.MintInsert? ==> Claims(db, q, move))
  }

  /** The two ways into a mint: the guarded claim of an unused code, or of an active token. */
  ghost predicate Claims(db: Db, q: Request, move: Move) {
    || (q.ExchangeClaim?
        && q.x.code in db.codes
        && move == Move(ClaimCode(q.x.code),
                        MintInsert(Mint(FromCode(q.x.code), db.next, q.codeRow.bind.(jkt := q.jkt), q.x.client))))
    || (q.RefreshClaim?
        && q.y.token in db.tokens && db.tokens[q.y.token].state == Active
        && move == Move(SetTokens({q.y.token}, Rotating),
                        MintInsert(Mint(FromToken(q.y.token), q.tokenRow.family,
                                        q.tokenRow.bind.(scope := q.scope, jkt := q.jkt), q.y.client))))
  }

  ghost predicate Sensible(cfg: Config, db: Db, q: Request, move: Move) {
    LegalWrite(db, move.write) && Disciplined(cfg, db, q, move)
  }

  lemma ExchangeIsSensible(cfg: Config, db: Db, q: Request, now: int)
    requires Exchanging(q)
    ensures Sensible(cfg, db, q, DecideExchange(cfg, db, q, now))
  {}

  lemma RefreshIsSensible(cfg: Config, db: Db, q: Request, now: int)
    requires Refreshing(q)
    ensures Sensible(cfg, db, q, DecideRefresh(cfg, db, q, now))
  {}

  lemma MintIsSensible(cfg: Config, db: Db, q: Request, now: int)
    requires Minting(q)
    ensures Sensible(cfg, db, q, DecideMint(cfg, db, q, now))
  {}

  lemma RevokeIsSensible(cfg: Config, db: Db, q: Request)
    requires Revoking(q)
    ensures Sensible(cfg, db, q, DecideRevoke(db, q))
  {}

  lemma ConsentIsSensible(cfg: Config, db: Db, q: Request, now: int)
    requires Consenting(q)
    ensures Sensible(cfg, db, q, DecideConsent(cfg, db, q, now))
  {}

  lemma DecideIsSensible(cfg: Config, db: Db, q: Request, now: int)
    requires !q.Done?
    ensures Sensible(cfg, db, q, Decide(cfg, db, q, now))
  {
    if Minting(q) { MintIsSensible(cfg, db, q, now); }
    else if Consenting(q) { ConsentIsSensible(cfg, db, q, now); }
    else if Exchanging(q) { ExchangeIsSensible(cfg, db, q, now); }
    else if Refreshing(q) { RefreshIsSensible(cfg, db, q, now); }
    else { RevokeIsSensible(cfg, db, q); }
  }

  // -- one step, with the move abstracted to the facts above ------------------------------------

  /** What `RequestOk` says at the program points whose writes the tables' invariant depends on. */
  ghost predicate Prepared(s: State, r: nat, q: Request) {
    && (q.MintInsert? ==> SourceOk(s, q.m))
    && (Minting(q) && !q.MintInsert? ==> Inserted(s, r, q.m, q.token))
    && (q.ExchangeClaim? ==> CodeRead(s, q.x, q.codeRow))
    && (q.GrantCode? ==> q.grant < s.db.next && (s.cfg.dpop.Off? ==> q.k.jkt.None?))
  }

  lemma OkIsPrepared(s: State, r: nat, q: Request)
    requires RequestOk(s, r, q)
    ensures Prepared(s, r, q)
  {}

  ghost predicate Moved(s: State, r: nat, q: Request, move: Move, z: State) {
    && Tables(s)
    && r in s.reqs && s.reqs[r] == q && Prepared(s, r, q)
    && Sensible(s.cfg, s.db, q, move)
    && z == State(s.cfg, Apply(s.db, move.write), s.reqs[r := move.after], Record(s, r, q, move))
  }

  lemma NextIsFresh(s: State)
    requires Tables(s)
    ensures s.db.next !in s.db.tokens && s.db.next !in s.log.parent && s.db.next !in s.log.minter
    ensures s.db.next !in s.db.codes && s.db.next !in s.log.origin
  {
    assert s.db.next in s.db.tokens ==> TokenOk(s, s.db.next);
    assert s.db.next in s.db.codes ==> CodeOk(s, s.db.next);
    assert s.db.next in s.log.origin ==> OriginOk(s, s.db.next);
  }

  lemma WriteEvolves(s: State, z: State, w: Write)
    requires Tables(s) && LegalWrite(s.db, w) && z.db == Apply(s.db, w)
    ensures s.db.next <= z.db.next
    ensures TokensEvolve(s, z) && CodesEvolve(s, z) && ConsentsEvolve(s, z)
  {
    NextIsFresh(s);
  }

  lemma RecordEvolves(s: State, r: nat, q: Request, move: Move, z: State)
    requires Tables(s) && z.log == Record(s, r, q, move)
    requires q.MintDisclose? ==> Inserted(s, r, q.m, q.token)
    ensures LogEvolves(s, z, r)
  {
    NextIsFresh(s);
    if q.MintInsert? {
      assert z.log.origin == s.log.origin && z.log.disclosed == s.log.disclosed;
    } else if q.MintDisclose? {
      assert z.log.disclosed == s.log.disclosed + {q.token};
      assert z.log.origin == s.log.origin && z.log.parent == s.log.parent && z.log.minter == s.log.minter;
    } else {
      assert z.log.disclosed == s.log.disclosed && z.log.parent == s.log.parent && z.log.minter == s.log.minter;
    }
  }

  lemma MoveEvolves(s: State, r: nat, q: Request, move: Move, z: State)
    requires Moved(s, r, q, move, z)
    ensures Evolves(s, z, r)
  {
    WriteEvolves(s, z, move.write);
    RecordEvolves(s, r, q, move, z);
  }

  // -- the tables stay well formed ------------------------------------------------------------

  lemma OldTokenOk(s: State, r: nat, z: State, t: Id)
    requires Tables(s) && Evolves(s, z, r) && t in s.db.tokens
    requires var h := s.log.minter[t]; h in z.reqs && (Holds(z.reqs[h], t) || z.reqs[h].Done?)
    ensures t in z.db.tokens && TokenOk(z, t)
  {
    assert TokenOk(s, t);
    match s.log.parent[t]
    case FromCode(c) =>
    case FromToken(p) => TokenStays(s, z, p, s.db.tokens[t].family);
  }

  lemma MinterKeepsToken(s: State, r: nat, q: Request, move: Move, z: State, t: Id)
    requires Moved(s, r, q, move, z) && !q.Done? && t in s.db.tokens
    ensures var h := s.log.minter[t]; h in z.reqs && (Holds(z.reqs[h], t) || z.reqs[h].Done?)
  {
    assert TokenOk(s, t);
  }

  lemma NewTokenOk(s: State, r: nat, q: Request, move: Move, z: State)
    requires Moved(s, r, q, move, z) && Evolves(s, z, r) && q.MintInsert?
    ensures s.db.next in z.db.tokens && TokenOk(z, s.db.next)
  {
    NextIsFresh(s);
    match q.m.source
    case FromCode(c) =>
    case FromToken(p) => assert TokenOk(s, p);
  }

  lemma TokenKeys(db: Db, w: Write)
    ensures Apply(db, w).tokens.Keys == db.tokens.Keys + (if w.InsertToken? then {db.next} else {})
  {}

  lemma TokenRows(s: State, r: nat, q: Request, move: Move, z: State)
    requires Moved(s, r, q, move, z)
    ensures z.db.tokens.Keys == s.db.tokens.Keys + (if q.MintInsert? then {s.db.next} else {})
    ensures z.log.parent.Keys == z.db.tokens.Keys && z.log.minter.Keys == z.db.tokens.Keys
    ensures z.log.disclosed <= z.db.tokens.Keys
  {
    TokenKeys(s.db, move.write);
    if q.MintInsert? {
      assert z.log.parent.Keys == s.log.parent.Keys + {s.db.next};
      assert z.log.minter.Keys == s.log.minter.Keys + {s.db.next};
    }
  }

  lemma TokenTable(s: State, r: nat, q: Request, move: Move, z: State)
    requires Moved(s, r, q, move, z) && Evolves(s, z, r) && !q.Done?
    ensures forall t :: t in z.db.tokens ==> TokenOk(z, t)
  {
    TokenRows(s, r, q, move, z);
    forall t | t in z.db.tokens ensures TokenOk(z, t) {
      if t in s.db.tokens {
        MinterKeepsToken(s, r, q, move, z, t);
        OldTokenOk(s, r, z, t);
      } else {
        NewTokenOk(s, r, q, move, z);
      }
    }
  }

  lemma ClaimedCodeOk(s: State, r: nat, q: Request, move: Move, z: State)
    requires Moved(s, r, q, move, z) && Evolves(s, z, r) && move.write.ClaimCode?
    ensures forall c :: c in z.db.codes ==> CodeOk(z, c)
  {
    assert z.log.origin == s.log.origin[s.db.next := Claim(q.x.code, s.db.codes[q.x.code])];
    NextIsFresh(s);
    forall c | c in z.db.codes ensures CodeOk(z, c) {
      assert CodeOk(s, c);
    }
  }

  lemma CodeRowAfter(db: Db, w: Write, c: Id)
    requires LegalWrite(db, w) && !w.ClaimCode? && c in db.codes && c != db.next
    ensures var after := Apply(db, w).codes;
      c in after ==>
        && after[c] == db.codes[c].(used := after[c].used)
        && CodeMove(db.codes[c].used, after[c].used)
        && (after[c].used == Claimed ==> db.codes[c].used == Claimed)
  {}

  lemma OtherCodeOk(s: State, r: nat, z: State, c: Id)
    requires Tables(s) && Evolves(s, z, r)
    requires c in s.db.codes && c in z.db.codes
    requires z.db.codes[c] == s.db.codes[c].(used := z.db.codes[c].used)
    requires z.db.codes[c].used == Claimed ==> s.db.codes[c].used == Claimed
    ensures CodeOk(z, c)
  {
    assert CodeOk(s, c);
  }

  lemma CodeTable(s: State, r: nat, q: Request, move: Move, z: State)
    requires Moved(s, r, q, move, z) && Evolves(s, z, r)
    ensures forall c :: c in z.db.codes ==> CodeOk(z, c)
  {
    if move.write.ClaimCode? {
      ClaimedCodeOk(s, r, q, move, z);
    } else {
      forall c | c in z.db.codes ensures CodeOk(z, c) {
        if c in s.db.codes {
          NextIsFresh(s);
          CodeRowAfter(s.db, move.write, c);
          OtherCodeOk(s, r, z, c);
        } else {
          assert move.write.InsertCode?;
        }
      }
    }
  }

  lemma OriginTable(s: State, r: nat, q: Request, move: Move, z: State)
    requires Moved(s, r, q, move, z) && Evolves(s, z, r)
    ensures forall f :: f in z.log.origin ==> OriginOk(z, f)
  {
    NextIsFresh(s);
    forall f | f in z.log.origin ensures OriginOk(z, f) {
      if f in s.log.origin {
        OriginStays(s, r, q, move, z, f);
      } else {
        assert CodeOk(s, q.x.code);
      }
    }
  }

  lemma OriginStays(s: State, r: nat, q: Request, move: Move, z: State, f: Id)
    requires Moved(s, r, q, move, z) && Evolves(s, z, r) && f in s.log.origin
    ensures OriginOk(z, f)
  {
    assert OriginOk(s, f);
    var c := s.log.origin[f].code;
    assert c in s.db.codes ==> CodeOk(s, c);
  }

  /** An unused code has no family yet, so the claim that opens one opens its first. */
  lemma OriginInjective(s: State, r: nat, q: Request, move: Move, z: State)
    requires Moved(s, r, q, move, z) && Evolves(s, z, r)
    ensures forall f, g :: f in z.log.origin && g in z.log.origin ==>
      z.log.origin[f].code == z.log.origin[g].code ==> f == g
  {
    if move.write.ClaimCode? {
      assert z.log.origin == s.log.origin[s.db.next := Claim(q.x.code, s.db.codes[q.x.code])];
      forall f | f in s.log.origin ensures s.log.origin[f].code != q.x.code {
        assert OriginOk(s, f) && CodeOk(s, q.x.code);
      }
    } else {
      assert z.log.origin == s.log.origin;
    }
  }

  lemma ConsentTable(db: Db, w: Write)
    requires LegalWrite(db, w) && (forall o :: o in db.consents ==> db.consents[o].grant < db.next)
    ensures var after := Apply(db, w); forall o :: o in after.consents ==> after.consents[o].grant < after.next
  {}

  lemma TablesStep(s: State, r: nat, q: Request, move: Move, z: State)
    requires Moved(s, r, q, move, z) && Evolves(s, z, r) && !q.Done?
    ensures Tables(z)
  {
    TokenTable(s, r, q, move, z);
    CodeTable(s, r, q, move, z);
    OriginTable(s, r, q, move, z);
    OriginInjective(s, r, q, move, z);
    TokenRows(s, r, q, move, z);
    ConsentTable(s.db, move.write);
  }

  // -- the stepping request's own knowledge ------------------------------------------------------

  ghost predicate Knows(s: State, r: nat, move: Move, z: State) {
    && Tables(s)
    && Evolves(s, z, r)
    && z.db == Apply(s.db, move.write)
  }

  lemma ExchangeFindOwn(s: State, r: nat, x: Exchange, now: int, z: State)
    requires Authenticated(s.cfg, x.client) && Knows(s, r, DecideExchangeFind(s.db, x, now), z)
    ensures RequestOk(z, r, DecideExchangeFind(s.db, x, now).after)
  {
    if x.code in s.db.codes {
      assert CodeOk(s, x.code);
    }
  }

  lemma ExchangeMarkOwn(s: State, r: nat, c: Id, f: Id, z: State)
    requires ClaimedCode(s, c, f) && Knows(s, r, DecideExchangeMark(s.db, c, f), z)
    ensures RequestOk(z, r, DecideExchangeMark(s.db, c, f).after)
  {
    CodeStays(s, z, r, c, f);
    if CodeIn(s.db, c, Claimed) == {} {
      assert FinalCode(z, c, f);
    } else {
      assert MarkedCode(z, c, f);
    }
  }

  lemma ExchangeMarkFinalOwn(s: State, r: nat, c: Id, f: Id, z: State)
    requires FinalCode(s, c, f)
    requires Knows(s, r, Move(SetCodes(CodeIn(s.db, c, Exchanged), Replayed), ExchangeBurn(c, f)), z)
    ensures MarkedCode(z, c, f)
  {
    CodeStays(s, z, r, c, f);
  }

  lemma ExchangeBurnOwn(s: State, r: nat, c: Id, f: Id, z: State)
    requires Tables(s) && MarkedCode(s, c, f) && Evolves(s, z, r)
    ensures RequestOk(z, r, Done(ReplayedCode(c, f)))
  {
    CodeStays(s, z, r, c, f);
  }

  lemma ExchangeGrantOwn(s: State, r: nat, x: Exchange, row: Code, z: State)
    requires CodeRead(s, x, row) && Knows(s, r, DecideExchangeGrant(s.cfg, s.db, x, row), z)
    ensures RequestOk(z, r, DecideExchangeGrant(s.cfg, s.db, x, row).after)
  {
    assert CodeRead(z, x, row);
  }

  lemma ExchangeClaimOwn(s: State, r: nat, q: Request, z: State)
    requires q.ExchangeClaim? && ExchangeOk(s, q)
    requires Knows(s, r, DecideExchangeClaim(s.db, q.x, q.codeRow, q.jkt), z)
    requires z.log == Record(s, r, q, DecideExchangeClaim(s.db, q.x, q.codeRow, q.jkt))
    ensures RequestOk(z, r, DecideExchangeClaim(s.db, q.x, q.codeRow, q.jkt).after)
  {}

  lemma RefreshFindOwn(s: State, r: nat, y: Refresh, z: State)
    requires Authenticated(s.cfg, y.client) && Knows(s, r, DecideRefreshFind(s.db, y), z)
    ensures RequestOk(z, r, DecideRefreshFind(s.db, y).after)
  {
    if y.token !in s.db.tokens || s.db.tokens[y.token].refreshExpires.None? {
    } else if s.db.tokens[y.token].state != Active {
      TokenStays(s, z, y.token, s.db.tokens[y.token].family);
    } else if s.db.tokens[y.token].bind.owner.client != y.client.id {
    } else {
      assert TokenRead(z, y, s.db.tokens[y.token]);
    }
  }

  lemma RefreshMarkOwn(s: State, r: nat, t: Id, f: Id, z: State)
    requires SpentToken(s, t, f) && Knows(s, r, DecideRefreshMark(s.db, t, f), z)
    ensures RequestOk(z, r, DecideRefreshMark(s.db, t, f).after)
  {
    TokenStays(s, z, t, f);
    if TokenIn(s.db, t, Rotating) == {} {
      assert FinalToken(z, t, f);
    } else {
      assert MarkedToken(z, t, f);
    }
  }

  lemma RefreshMarkFinalOwn(s: State, r: nat, t: Id, f: Id, z: State)
    requires FinalToken(s, t, f)
    requires Knows(s, r, Move(SetTokens(TokenIn(s.db, t, Rotated), Compromised), RefreshBurn(t, f)), z)
    ensures MarkedToken(z, t, f)
  {
    TokenStays(s, z, t, f);
  }

  lemma RefreshBurnOwn(s: State, r: nat, t: Id, f: Id, z: State)
    requires MarkedToken(s, t, f) && Evolves(s, z, r)
    ensures RequestOk(z, r, Done(ReusedRefresh(t, f)))
  {
    TokenStays(s, z, t, f);
  }

  /** The bindings a refresh can reach its claim with are rotations of the row it read. */
  lemma RefreshGrantBinds(cfg: Config, db: Db, y: Refresh, row: Token, now: int)
    requires cfg.dpop.Off? ==> row.bind.jkt.None?
    ensures var after := DecideRefreshGrant(cfg, db, y, row, now).after;
      || (after.Done? && after.outcome.Refused?)
      || (after == RefreshClaim(y, row, after.scope, after.jkt)
          && RotatedBind(row.bind, row.bind.(scope := after.scope, jkt := after.jkt), y.client.isPublic)
          && (cfg.dpop.Off? ==> after.jkt.None?))
  {}

  lemma RefreshGrantOwn(s: State, r: nat, y: Refresh, row: Token, now: int, z: State)
    requires Tables(s) && TokenRead(s, y, row) && z.cfg == s.cfg && z.db == s.db
    ensures RequestOk(z, r, DecideRefreshGrant(s.cfg, s.db, y, row, now).after)
  {
    assert TokenRead(z, y, row);
    assert TokenOk(s, y.token);
    RefreshGrantBinds(s.cfg, s.db, y, row, now);
  }

  lemma RefreshClaimOwn(s: State, r: nat, q: Request, z: State)
    requires q.RefreshClaim? && RefreshOk(s, q)
    requires Knows(s, r, DecideRefreshClaim(s.db, q.y, q.tokenRow, q.scope, q.jkt), z)
    ensures RequestOk(z, r, DecideRefreshClaim(s.db, q.y, q.tokenRow, q.scope, q.jkt).after)
  {
    assert TokenOk(s, q.y.token);
  }

  lemma MintInsertOwn(s: State, r: nat, q: Request, now: int, z: State)
    requires q.MintInsert? && SourceOk(s, q.m) && Knows(s, r, DecideMint(s.cfg, s.db, q, now), z)
    requires z.log == Record(s, r, q, DecideMint(s.cfg, s.db, q, now))
    ensures RequestOk(z, r, DecideMint(s.cfg, s.db, q, now).after)
  {
    SourceStays(s, z, r, q.m);
    NextIsFresh(s);
    assert Inserted(z, r, q.m, s.db.next);
  }

  /** From insertion to disclosure the request keeps what it knows about its own token. */
  lemma InsertedOwn(s: State, r: nat, m: Mint, t: Id, z: State)
    requires Inserted(s, r, m, t) && Evolves(s, z, r) && z.log == s.log
    ensures Inserted(z, r, m, t)
  {
    SourceStays(s, z, r, m);
    TokenStays(s, z, t, m.family);
  }

  lemma RevokeFindOwn(s: State, r: nat, q: Request, z: State)
    requires q.RevokeFind? || q.RevokeFindOther?
    requires Authenticated(s.cfg, q.v.client) && z.cfg == s.cfg && z.db == s.db
    ensures RequestOk(z, r, DecideRevoke(s.db, q).after)
  {}

  lemma RevokeMarkOwn(s: State, r: nat, t: Id, f: Id, z: State)
    requires TokenOf(s, t, f) && Knows(s, r, Move(SetTokens(TokenAt(s.db, t), Revoked), RevokeBurn(t, f)), z)
    ensures RevokedToken(z, t, f)
  {
    TokenStays(s, z, t, f);
  }

  lemma RevokeBurnOwn(s: State, r: nat, t: Id, f: Id, z: State)
    requires RevokedToken(s, t, f) && Evolves(s, z, r)
    ensures RequestOk(z, r, Done(RevokedFamily(t, f)))
  {
    TokenStays(s, z, t, f);
  }

  lemma RevokeConsentOwn(s: State, r: nat, q: Request, z: State)
    requires q.ConsentFind? || q.ConsentMark? || q.ConsentCodes? || q.ConsentTokens?
    requires RevokeOk(s, q) && Knows(s, r, DecideRevoke(s.db, q), z)
    ensures RequestOk(z, r, DecideRevoke(s.db, q).after)
  {}

  lemma ConsentOwn(s: State, r: nat, q: Request, now: int, z: State)
    requires Consenting(q) && ConsentOk(s, q)
    requires Knows(s, r, DecideConsent(s.cfg, s.db, q, now), z)
    ensures RequestOk(z, r, DecideConsent(s.cfg, s.db, q, now).after)
  {}

  lemma ExchangeOwn(s: State, r: nat, q: Request, now: int, z: State)
    requires Exchanging(q) && ExchangeOk(s, q)
    requires Knows(s, r, DecideExchange(s.cfg, s.db, q, now), z)
    requires z.log == Record(s, r, q, DecideExchange(s.cfg, s.db, q, now))
    ensures RequestOk(z, r, DecideExchange(s.cfg, s.db, q, now).after)
  {
    match q
    case ExchangeFind(x) => ExchangeFindOwn(s, r, x, now, z);
    case ExchangeMarkClaimed(c, f) => ExchangeMarkOwn(s, r, c, f, z);
    case ExchangeMarkExchanged(c, f) => ExchangeMarkFinalOwn(s, r, c, f, z);
    case ExchangeBurn(c, f) => ExchangeBurnOwn(s, r, c, f, z);
    case ExchangeDelete(c) =>
    case ExchangeGrant(x, row) => ExchangeGrantOwn(s, r, x, row, z);
    case ExchangeClaim(x, row, jkt) => ExchangeClaimOwn(s, r, q, z);
  }

  lemma RefreshOwn(s: State, r: nat, q: Request, now: int, z: State)
    requires Refreshing(q) && RefreshOk(s, q)
    requires Knows(s, r, DecideRefresh(s.cfg, s.db, q, now), z)
    ensures RequestOk(z, r, DecideRefresh(s.cfg, s.db, q, now).after)
  {
    if q.RefreshFind? {
      RefreshFindOwn(s, r, q.y, z);
    } else if q.RefreshMarkRotating? {
      RefreshMarkOwn(s, r, q.token, q.family, z);
    } else if q.RefreshMarkRotated? {
      RefreshMarkFinalOwn(s, r, q.token, q.family, z);
    } else if q.RefreshBurn? {
      RefreshBurnOwn(s, r, q.token, q.family, z);
    } else if q.RefreshGrant? {
      RefreshGrantOwn(s, r, q.y, q.tokenRow, now, z);
    } else {
      RefreshClaimOwn(s, r, q, z);
    }
  }

  /** Between insertion and disclosure a mint stays with its token. */
  lemma MintChecks(cfg: Config, db: Db, q: Request, now: int)
    requires q.MintFinalize? || q.MintScanCodes? || q.MintScanTokens? || q.MintGrant?
    ensures var after := DecideMint(cfg, db, q, now).after;
      Minting(after) && !after.MintInsert? && after.m == q.m && after.token == q.token
  {}

  lemma MintCheckOwn(s: State, r: nat, q: Request, now: int, z: State)
    requires q.MintFinalize? || q.MintScanCodes? || q.MintScanTokens? || q.MintGrant?
    requires Inserted(s, r, q.m, q.token) && Evolves(s, z, r) && z.log == s.log
    ensures RequestOk(z, r, DecideMint(s.cfg, s.db, q, now).after)
  {
    MintChecks(s.cfg, s.db, q, now);
    InsertedOwn(s, r, q.m, q.token, z);
  }

  lemma MintChecksRecordNothing(s: State, r: nat, q: Request, move: Move)
    requires q.MintFinalize? || q.MintScanCodes? || q.MintScanTokens? || q.MintGrant?
    ensures Record(s, r, q, move) == s.log
  {}

  lemma MintEndOwn(s: State, r: nat, q: Request, now: int, z: State)
    requires q.MintDisclose? || q.MintBurn?
    requires z.log == Record(s, r, q, DecideMint(s.cfg, s.db, q, now))
    ensures RequestOk(z, r, DecideMint(s.cfg, s.db, q, now).after)
  {}

  lemma RevokeOwn(s: State, r: nat, q: Request, z: State)
    requires Revoking(q) && RevokeOk(s, q)
    requires Knows(s, r, DecideRevoke(s.db, q), z)
    ensures RequestOk(z, r, DecideRevoke(s.db, q).after)
  {
    if q.RevokeFind? || q.RevokeFindOther? {
      RevokeFindOwn(s, r, q, z);
    } else if q.RevokeMark? {
      RevokeMarkOwn(s, r, q.token, q.family, z);
    } else if q.RevokeBurn? {
      RevokeBurnOwn(s, r, q.token, q.family, z);
    } else {
      RevokeConsentOwn(s, r, q, z);
    }
  }

  lemma OwnStaysOk(s: State, r: nat, q: Request, now: int, z: State)
    requires !q.Done? && RequestOk(s, r, q)
    requires Knows(s, r, Decide(s.cfg, s.db, q, now), z)
    requires z.log == Record(s, r, q, Decide(s.cfg, s.db, q, now))
    ensures RequestOk(z, r, Decide(s.cfg, s.db, q, now).after)
  {
    if Exchanging(q) { ExchangeOwn(s, r, q, now, z); }
    else if Refreshing(q) { RefreshOwn(s, r, q, now, z); }
    else if q.MintInsert? { MintInsertOwn(s, r, q, now, z); }
    else if q.MintDisclose? || q.MintBurn? { MintEndOwn(s, r, q, now, z); }
    else if Minting(q) {
      MintChecksRecordNothing(s, r, q, Decide(s.cfg, s.db, q, now));
      MintCheckOwn(s, r, q, now, z);
    }
    else if Consenting(q) { ConsentOwn(s, r, q, now, z); }
    else { RevokeOwn(s, r, q, z); }
  }

  lemma RequestsStep(s: State, r: nat, q: Request, now: int, z: State)
    requires Requests(s) && !q.Done? && Moved(s, r, q, Decide(s.cfg, s.db, q, now), z) && Evolves(s, z, r)
    ensures Requests(z)
  {
    forall o | o in z.reqs ensures RequestOk(z, o, z.reqs[o]) {
      assert RequestOk(s, o, s.reqs[o]);
      if o == r {
        OwnStaysOk(s, r, q, now, z);
      } else {
        OthersStayOk(s, z, r, o);
      }
    }
  }

  // -- one holder, one successor ------------------------------------------------------------------

  /** A row that is active afterwards was active before and was not selected, or was just inserted. */
  ghost predicate StillActive(s: State, q: Request, move: Move, z: State, t: Id) {
    t in z.db.tokens &&
    if t in s.db.tokens then
      && IsActive(s, t) && z.db.tokens[t] == s.db.tokens[t]
      && (move.write.SetTokens? ==> t !in move.write.tokens)
    else
      q.MintInsert? && t == s.db.next && z.db.tokens[t].family == q.m.family
  }

  lemma ActiveRows(s: State, r: nat, q: Request, move: Move, z: State, t: Id)
    requires Moved(s, r, q, move, z) && IsActive(z, t)
    ensures StillActive(s, q, move, z, t)
  {
    NextIsFresh(s);
  }

  lemma ActivesUnique(s: State, r: nat, q: Request, move: Move, z: State, t: Id, u: Id)
    requires Holders(s) && Moved(s, r, q, move, z)
    requires IsActive(z, t) && IsActive(z, u) && z.db.tokens[t].family == z.db.tokens[u].family
    ensures t == u
  {
    ActiveRows(s, r, q, move, z, t);
    ActiveRows(s, r, q, move, z, u);
    assert q.MintInsert? ==> Inserting(s, r);
  }

  lemma ActiveExcludesInsert(s: State, r: nat, q: Request, move: Move, z: State, t: Id, o: nat)
    requires Holders(s) && Moved(s, r, q, move, z) && (q.RefreshClaim? ==> TokenRead(s, q.y, q.tokenRow))
    requires IsActive(z, t) && Inserting(z, o)
    ensures z.reqs[o].m.family != z.db.tokens[t].family
  {
    ActiveRows(s, r, q, move, z, t);
    if o != r {
      assert Inserting(s, o);
      assert q.MintInsert? ==> Inserting(s, r);
    } else if q.ExchangeClaim? {
      assert TokenOk(s, t);
      assert OriginOk(s, s.db.tokens[t].family);
    } else {
      assert IsActive(s, q.y.token);
    }
  }

  lemma InsertsUnique(s: State, r: nat, q: Request, move: Move, z: State, o: nat)
    requires Requests(s) && Holders(s) && Moved(s, r, q, move, z)
    requires q.RefreshClaim? ==> TokenRead(s, q.y, q.tokenRow)
    requires Inserting(z, r) && Inserting(z, o) && o != r
    ensures z.reqs[o].m.family != z.reqs[r].m.family
  {
    assert Inserting(s, o);
    if q.ExchangeClaim? {
      assert RequestOk(s, o, s.reqs[o]);
      assert OriginOk(s, s.reqs[o].m.family);
    } else {
      assert IsActive(s, q.y.token);
    }
  }

  lemma HoldersStep(s: State, r: nat, q: Request, move: Move, z: State)
    requires Requests(s) && Holders(s) && Moved(s, r, q, move, z)
    requires q.RefreshClaim? ==> TokenRead(s, q.y, q.tokenRow)
    ensures Holders(z)
  {
    forall t, u | IsActive(z, t) && IsActive(z, u) && z.db.tokens[t].family == z.db.tokens[u].family ensures t == u {
      ActivesUnique(s, r, q, move, z, t, u);
    }
    forall t, o | IsActive(z, t) && Inserting(z, o) ensures z.reqs[o].m.family != z.db.tokens[t].family {
      ActiveExcludesInsert(s, r, q, move, z, t, o);
    }
    forall o, p | Inserting(z, o) && Inserting(z, p) && z.reqs[o].m.family == z.reqs[p].m.family ensures o == p {
      if o != p {
        if o == r { InsertsUnique(s, r, q, move, z, p); }
        else if p == r { InsertsUnique(s, r, q, move, z, o); }
        else { assert Inserting(s, o) && Inserting(s, p); }
      }
    }
  }

  /** Two pending inserts for one source would be two for one family. */
  lemma SourceGivesFamily(s: State, m: Mint, n: Mint)
    requires Tables(s) && SourceOk(s, m) && SourceOk(s, n) && m.source == n.source
    ensures m.family == n.family
  {}

  lemma SuccessorsStep(s: State, r: nat, q: Request, move: Move, z: State)
    requires Inv(s) && Moved(s, r, q, move, z) && (q.RefreshClaim? ==> TokenRead(s, q.y, q.tokenRow))
    ensures Successors(z)
  {
    if q.MintInsert? {
      InsertKeepsSuccessors(s, r, q, move, z);
    } else {
      assert z.log.parent == s.log.parent;
      forall t, o | t in z.log.parent && Inserting(z, o) ensures z.reqs[o].m.source != z.log.parent[t] {
        if o == r {
          ClaimHasNoChild(s, r, q, move, t);
        } else {
          assert Inserting(s, o);
        }
      }
    }
  }

  lemma ClaimHasNoChild(s: State, r: nat, q: Request, move: Move, t: Id)
    requires Tables(s) && Claims(s.db, q, move) && t in s.log.parent && LegalWrite(s.db, move.write)
    ensures move.after.m.source != s.log.parent[t]
  {
    assert TokenOk(s, t);
    if q.ExchangeClaim? {
      assert CodeOk(s, q.x.code);
      assert OriginOk(s, s.db.tokens[t].family);
    }
  }

  lemma InsertKeepsSuccessors(s: State, r: nat, q: Request, move: Move, z: State)
    requires Inv(s) && Moved(s, r, q, move, z) && q.MintInsert?
    ensures Successors(z)
  {
    NextIsFresh(s);
    assert Inserting(s, r);
    assert z.log.parent == s.log.parent[s.db.next := q.m.source];
    forall t, o | t in z.log.parent && Inserting(z, o) ensures z.reqs[o].m.source != z.log.parent[t] {
      assert o != r && Inserting(s, o);
      if t == s.db.next && s.reqs[o].m.source == q.m.source {
        assert RequestOk(s, o, s.reqs[o]);
        SourceGivesFamily(s, s.reqs[o].m, q.m);
      }
    }
  }

  // -- the theorem ----------------------------------------------------------------------------------

  lemma StepPreserves(s: State, r: nat, now: int)
    requires Inv(s) && Enabled(s, Advance(r, now))
    ensures Inv(After(s, Advance(r, now))) && Evolves(s, After(s, Advance(r, now)), r)
  {
    var q := s.reqs[r];
    var move := Decide(s.cfg, s.db, q, now);
    var z := After(s, Advance(r, now));
    assert RequestOk(s, r, q);
    OkIsPrepared(s, r, q);
    DecideIsSensible(s.cfg, s.db, q, now);
    MoveEvolves(s, r, q, move, z);
    TablesStep(s, r, q, move, z);
    RequestsStep(s, r, q, now, z);
    HoldersStep(s, r, q, move, z);
    SuccessorsStep(s, r, q, move, z);
  }

  lemma ArrivalPreserves(s: State, r: nat, q: Request)
    requires Inv(s) && Enabled(s, Arrive(r, q))
    ensures Inv(After(s, Arrive(r, q)))
  {
    var z := After(s, Arrive(r, q));
    forall t | t in z.db.tokens ensures TokenOk(z, t) { assert TokenOk(s, t); }
    forall c | c in z.db.codes ensures CodeOk(z, c) { assert CodeOk(s, c); }
    forall f | f in z.log.origin ensures OriginOk(z, f) { assert OriginOk(s, f); }
    forall o | o in z.reqs ensures RequestOk(z, o, z.reqs[o]) {
      if o == r { InitialIsOk(z, r, q); } else { OtherOkAtArrival(s, r, q, o); }
    }
    HoldersAtArrival(s, r, q);
  }

  lemma InitialIsOk(s: State, r: nat, q: Request)
    requires Initial(s.cfg, q)
    ensures RequestOk(s, r, q)
  {}

  lemma HoldersAtArrival(s: State, r: nat, q: Request)
    requires Holders(s) && Successors(s) && Enabled(s, Arrive(r, q))
    ensures Holders(After(s, Arrive(r, q))) && Successors(After(s, Arrive(r, q)))
  {
    var z := After(s, Arrive(r, q));
    forall o ensures Inserting(z, o) <==> Inserting(s, o) {}
    forall t ensures IsActive(z, t) <==> IsActive(s, t) {}
  }

  lemma OtherOkAtArrival(s: State, r: nat, q: Request, o: nat)
    requires Requests(s) && o in s.reqs && o != r
    ensures RequestOk(s.(reqs := s.reqs[r := q]), o, s.reqs[o])
  {
    assert RequestOk(s, o, s.reqs[o]);
  }

  lemma StartSatisfies(cfg: Config)
    ensures Inv(Start(cfg))
  {}

  lemma {:induction false} ExecPreserves(s: State, run: seq<Event>)
    requires Inv(s) && Possible(s, run)
    ensures Inv(Exec(s, run))
    decreases |run|
  {
    if run != [] {
      match run[0] {
        case Arrive(r, q) => ArrivalPreserves(s, r, q);
        case Advance(r, now) => StepPreserves(s, r, now);
      }
      ExecPreserves(After(s, run[0]), run[1..]);
    }
  }

  /** Every state of every interleaving, from the empty database on, satisfies the invariant. */
  lemma Reachable(cfg: Config, run: seq<Event>)
    requires Possible(Start(cfg), run)
    ensures Inv(Exec(Start(cfg), run))
  {
    StartSatisfies(cfg);
    ExecPreserves(Start(cfg), run);
  }

  // -- reachable states -----------------------------------------------------------------------------

  predicate Leads(s: State, run: seq<Event>, z: State) {
    Possible(s, run) && Exec(s, run) == z
  }

  /** Some interleaving of some requests, from the empty database on, ends in this state. */
  ghost predicate IsReachable(s: State) {
    exists run :: Leads(Start(s.cfg), run, s)
  }

  lemma ReachableIsOk(s: State)
    requires IsReachable(s)
    ensures Inv(s)
  {
    var run :| Leads(Start(s.cfg), run, s);
    Reachable(s.cfg, run);
  }

  lemma {:induction false} Concat(s: State, a: seq<Event>, b: seq<Event>)
    requires Possible(s, a) && Possible(Exec(s, a), b)
    ensures Possible(s, a + b) && Exec(s, a + b) == Exec(Exec(s, a), b)
    decreases |a|
  {
    if a == [] {
      assert a + b == b;
    } else {
      Concat(After(s, a[0]), a[1..], b);
      assert (a + b)[1..] == a[1..] + b;
    }
  }

  lemma Prepend(s: State, e: Event, rest: seq<Event>)
    requires Enabled(s, e) && Possible(After(s, e), rest)
    ensures Possible(s, [e] + rest) && Exec(s, [e] + rest) == Exec(After(s, e), rest)
  {
    assert ([e] + rest)[1..] == rest;
  }

  lemma {:induction false} SameConfig(s: State, run: seq<Event>)
    requires Possible(s, run)
    ensures Exec(s, run).cfg == s.cfg
    decreases |run|
  {
    if run != [] { SameConfig(After(s, run[0]), run[1..]); }
  }

  lemma ReachableOn(s: State, run: seq<Event>)
    requires IsReachable(s) && Possible(s, run)
    ensures IsReachable(Exec(s, run))
  {
    var first :| Leads(Start(s.cfg), first, s);
    Concat(Start(s.cfg), first, run);
    SameConfig(s, run);
    assert Leads(Start(s.cfg), first + run, Exec(s, run));
  }

  lemma OneEvent(s: State, e: Event)
    requires Enabled(s, e)
    ensures Possible(s, [e]) && Exec(s, [e]) == After(s, e)
  {
    var run := [e];
    assert run[1..] == [];
    assert Exec(After(s, e), run[1..]) == After(s, e);
  }

  lemma ReachableAfter(s: State, e: Event)
    requires IsReachable(s) && Enabled(s, e)
    ensures IsReachable(After(s, e)) && Possible(s, [e]) && Exec(s, [e]) == After(s, e)
  {
    OneEvent(s, e);
    ReachableOn(s, [e]);
  }
}
