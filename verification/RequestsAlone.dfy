/**
 A request that runs with nobody else moving: its steps of the state machine from first to last, and what they
 leave in the tables. A request alone is one of the interleavings, so the tables it leaves are reachable again.
 */
module RequestsAlone {
  import opened Wrappers
  import opened OAuthStore
  import opened OAuthMachine
  import opened OAuthInvariant
  import opened OAuthPreservation

  /** An upper bound on the adapter calls a request still makes: no handler loops. */
  function CallsLeft(q: Request): nat {
    match q
    case Done(_) => 0
    case MintBurn(_, _) => 1
    case MintDisclose(_, _) => 1
    case MintGrant(_, _) => 2
    case MintScanTokens(_, _) => 3
    case MintScanCodes(_, _) => 4
    case MintFinalize(_, _) => 5
    case MintInsert(_) => 6
    case ExchangeClaim(_, _, _) => 7
    case ExchangeGrant(_, _) => 8
    case ExchangeFind(_) => 9
    case ExchangeMarkClaimed(_, _) => 3
    case ExchangeMarkExchanged(_, _) => 2
    case ExchangeBurn(_, _) => 1
    case ExchangeDelete(_) => 1
    case RefreshClaim(_, _, _, _) => 7
    case RefreshGrant(_, _) => 8
    case RefreshFind(_) => 9
    case RefreshMarkRotating(_, _) => 3
    case RefreshMarkRotated(_, _) => 2
    case RefreshBurn(_, _) => 1
    case RevokeFind(_) => 4
    case RevokeFindOther(_) => 3
    case RevokeMark(_, _) => 2
    case RevokeBurn(_, _) => 1
    case ConsentFind(_) => 4
    case ConsentMark(_) => 3
    case ConsentCodes(_, _) => 2
    case ConsentTokens(_, _) => 1
    case AuthorizeFind(_) => 3
    case GrantFind(_) => 3
    case GrantCreate(_) => 2
    case GrantReplace(_) => 2
    case GrantMerge(_, _, _) => 2
    case GrantCode(_, _) => 1
  }

  /** Whatever the tables hold, every adapter call brings its request closer to its answer. */
  lemma EveryCallCounts(cfg: Config, db: Db, q: Request, now: int)
    requires !q.Done?
    ensures CallsLeft(Decide(cfg, db, q, now).after) < CallsLeft(q)
  {
    if Exchanging(q) { ExchangeCallCounts(cfg, db, q, now); }
    else if Refreshing(q) { RefreshCallCounts(cfg, db, q, now); }
  }

  lemma ExchangeCallCounts(cfg: Config, db: Db, q: Request, now: int)
    requires Exchanging(q)
    ensures CallsLeft(DecideExchange(cfg, db, q, now).after) < CallsLeft(q)
  {}

  lemma RefreshCallCounts(cfg: Config, db: Db, q: Request, now: int)
    requires Refreshing(q)
    ensures CallsLeft(DecideRefresh(cfg, db, q, now).after) < CallsLeft(q)
  {}

  datatype Answer = Answer(db: Db, outcome: Outcome)

  /** The request's steps of the state machine, one after the other, nobody else running. */
  function RunAlone(cfg: Config, db: Db, q: Request, now: int): Answer
    decreases CallsLeft(q)
  {
    if q.Done? then Answer(db, q.outcome)
    else
      EveryCallCounts(cfg, db, q, now);
      var move := Decide(cfg, db, q, now);
      RunAlone(cfg, Apply(db, move.write), move.after, now)
  }

  lemma OneCall(cfg: Config, db: Db, q: Request, now: int, move: Move)
    requires !q.Done? && move == Decide(cfg, db, q, now)
    ensures RunAlone(cfg, db, q, now) == RunAlone(cfg, Apply(db, move.write), move.after, now)
  {}

  /** A request that runs alone is one of the interleavings: the theorems about runs cover the methods below. */
  lemma {:induction false} AloneIsARun(s: State, r: nat, now: int) returns (run: seq<Event>)
    requires r in s.reqs
    ensures Possible(s, run) && (forall e :: e in run ==> e == Advance(r, now))
    ensures |run| <= CallsLeft(s.reqs[r])
    ensures var z := Exec(s, run); var answer := RunAlone(s.cfg, s.db, s.reqs[r], now);
      z.db == answer.db && z.reqs == s.reqs[r := Done(answer.outcome)]
    decreases CallsLeft(s.reqs[r])
  {
    if s.reqs[r].Done? {
      run := [];
    } else {
      var e := Advance(r, now);
      EveryCallCounts(s.cfg, s.db, s.reqs[r], now);
      var rest := AloneIsARun(After(s, e), r, now);
      run := [e] + rest;
      assert run[1..] == rest;
    }
  }

  // -- minting ------------------------------------------------------------------------------------

  /** The tables after the insert and the finalisation of the source. */
  function Minted(cfg: Config, db: Db, m: Mint, now: int): Db {
    var inserted := Apply(db, InsertToken(NewToken(cfg, m, now)));
    Apply(inserted, Finalize(inserted, m.source))
  }

  /** The checks of a mint alone, on the tables before it. */
  predicate MintPasses(db: Db, m: Mint) {
    Finalizes(db, m.source) && !CodeReplayed(db, m.family) && !TokenMarked(db, m.family) && GrantActive(db, m.bind)
  }

  lemma MintKeepsChecks(cfg: Config, db: Db, m: Mint, now: int)
    requires db.next !in db.tokens
    ensures var z := Minted(cfg, db, m, now);
      && CodeReplayed(z, m.family) == CodeReplayed(db, m.family)
      && TokenMarked(z, m.family) == TokenMarked(db, m.family)
      && z.consents == db.consents
  {
    var z := Minted(cfg, db, m, now);
    assert forall c :: c in db.codes <==> c in z.codes;
    assert forall t :: t in db.tokens ==> t in z.tokens;
    if c :| c in db.codes && db.codes[c].family == Some(m.family) && db.codes[c].used == Replayed {
      assert z.codes[c] == db.codes[c];
    }
    if t :| t in db.tokens && db.tokens[t].family == m.family && Marker(db.tokens[t].state) {
      assert z.tokens[t] == db.tokens[t];
    }
  }

  function Burn(db: Db, family: Id): Answer {
    Answer(Apply(db, SetTokens(ActiveIn(db, family), Rotating)), Burned(family))
  }

  lemma BurnAlone(cfg: Config, db: Db, m: Mint, t: Id, now: int)
    ensures RunAlone(cfg, db, MintBurn(m, t), now) == Burn(db, m.family)
  {
    OneCall(cfg, db, MintBurn(m, t), now, Decide(cfg, db, MintBurn(m, t), now));
  }

  lemma GrantAlone(cfg: Config, db: Db, m: Mint, t: Id, now: int)
    ensures RunAlone(cfg, db, MintGrant(m, t), now) ==
      if GrantActive(db, m.bind) then Answer(db, Issued(t)) else Burn(db, m.family)
  {
    OneCall(cfg, db, MintGrant(m, t), now, Decide(cfg, db, MintGrant(m, t), now));
    OneCall(cfg, db, MintDisclose(m, t), now, Read(Done(Issued(t))));
    BurnAlone(cfg, db, m, t, now);
  }

  lemma ChecksAlone(cfg: Config, db: Db, m: Mint, t: Id, now: int)
    ensures RunAlone(cfg, db, MintScanCodes(m, t), now) ==
      if !CodeReplayed(db, m.family) && !TokenMarked(db, m.family) && GrantActive(db, m.bind) then Answer(db, Issued(t))
      else Burn(db, m.family)
  {
    OneCall(cfg, db, MintScanCodes(m, t), now, Decide(cfg, db, MintScanCodes(m, t), now));
    OneCall(cfg, db, MintScanTokens(m, t), now, Decide(cfg, db, MintScanTokens(m, t), now));
    GrantAlone(cfg, db, m, t, now);
    BurnAlone(cfg, db, m, t, now);
  }

  lemma FinishAlone(cfg: Config, db: Db, m: Mint, t: Id, now: int)
    ensures var z := Apply(db, Finalize(db, m.source));
      RunAlone(cfg, db, MintFinalize(m, t), now) ==
        if Finalizes(db, m.source) && !CodeReplayed(z, m.family) && !TokenMarked(z, m.family) && GrantActive(z, m.bind)
        then Answer(z, Issued(t)) else Burn(z, m.family)
  {
    var z := Apply(db, Finalize(db, m.source));
    OneCall(cfg, db, MintFinalize(m, t), now, Decide(cfg, db, MintFinalize(m, t), now));
    ChecksAlone(cfg, z, m, t, now);
    BurnAlone(cfg, z, m, t, now);
  }

  /** A mint alone discloses its token exactly when its checks hold before it starts; otherwise the family is burned. */
  lemma MintAlone(cfg: Config, db: Db, m: Mint, now: int)
    requires db.next !in db.tokens
    ensures RunAlone(cfg, db, MintInsert(m), now) ==
      if MintPasses(db, m) then Answer(Minted(cfg, db, m, now), Issued(db.next))
      else Burn(Minted(cfg, db, m, now), m.family)
  {
    var inserted := Apply(db, InsertToken(NewToken(cfg, m, now)));
    OneCall(cfg, db, MintInsert(m), now, Move(InsertToken(NewToken(cfg, m, now)), MintFinalize(m, db.next)));
    FinishAlone(cfg, inserted, m, db.next, now);
    MintKeepsChecks(cfg, db, m, now);
    assert Finalizes(inserted, m.source) == Finalizes(db, m.source);
  }

  lemma BurnedFamilyHasNoActive(db: Db, family: Id)
    ensures ActiveIn(Burn(db, family).db, family) == {}
  {}

  // -- code exchange --------------------------------------------------------------------------------

  // What the handlers check, stated on the tables and the parameters without the machine's own functions.

  /** The consent row of the binding's owner still carries its grant and is not revoked. */
  predicate GrantStands(db: Db, bind: Binding) {
    && bind.owner in db.consents
    && var consent := db.consents[bind.owner]; consent.grant == bind.grant && !consent.revoked
  }

  /** At most one resource, one if the server has its own, and only the one that is bound. */
  predicate ResourcesAccepted(cfg: Config, resources: seq<Id>, bound: Option<Id>) {
    && |resources| <= 1
    && (cfg.resource.Some? ==> |resources| == 1)
    && (|resources| == 1 ==> bound == Some(resources[0]))
  }

  /** Without DPoP no header may come; with it a required one must, and any that comes is valid, of the expected key. */
  predicate HeaderAccepted(cfg: Config, header: Option<Proof>, expected: Option<Id>, required: bool) {
    if cfg.dpop.Off? then header.None?
    else
      && (required ==> header.Some?)
      && (header.Some? ==> header.value.valid && (expected.Some? ==> header.value.jkt == expected.value))
  }

  /** The key of the header, which the issued token is bound to. */
  function HeaderKey(header: Option<Proof>): Option<Id> {
    if header.Some? then Some(header.value.jkt) else None
  }

  /** The code is fresh, this client's, of an active grant, and comes with its redirect URI and verifier. */
  predicate CodeAccepted(db: Db, x: Exchange, now: int) {
    && x.code in db.codes
    && var row := db.codes[x.code];
       && row.used == Unused && now < row.expires && row.bind.owner.client == x.client.id
       && GrantStands(db, row.bind) && row.redirect == x.redirect && x.challenge == Some(row.challenge)
  }

  predicate CodeHeaderAccepted(cfg: Config, x: Exchange, row: Code) {
    var key := row.bind.jkt;
    HeaderAccepted(cfg, x.proof, key, key.Some? || x.client.dpopBound || cfg.dpop == Required)
  }

  /** Every check of `_token_authorization_code` before the claim. */
  predicate ExchangeChecks(cfg: Config, db: Db, x: Exchange, now: int) {
    && CodeAccepted(db, x, now)
    && var row := db.codes[x.code];
       ResourcesAccepted(cfg, x.resources, row.bind.resource) && CodeHeaderAccepted(cfg, x, row)
  }

  /** The answer names the first check that failed; only an unused code that has expired is deleted. */
  predicate ExchangeRefused(cfg: Config, db: Db, x: Exchange, now: int, z: Answer) {
    && z.outcome == Refused(
         if !CodeAccepted(db, x, now) then InvalidGrant
         else if !ResourcesAccepted(cfg, x.resources, db.codes[x.code].bind.resource) then InvalidTarget
         else InvalidDPoPProof)
    && z.db ==
       if x.code in db.codes && db.codes[x.code].used == Unused && db.codes[x.code].expires <= now then
         db.(codes := db.codes - {x.code})
       else db
  }

  /** A code that was claimed before, with the family that was minted from it. */
  predicate Replays(db: Db, c: Id) {
    c in db.codes && db.codes[c].used != Unused && db.codes[c].family.Some?
  }

  lemma ChecksAreTheHandlers(
      cfg: Config, x: Exchange, row: Code, header: Option<Proof>, expected: Option<Id>, required: bool)
    ensures ResourcesAccepted(cfg, x.resources, row.bind.resource) <==>
      ResourceError(cfg, x.resources, row.bind.resource).None?
    ensures ResourceError(cfg, x.resources, row.bind.resource) in {None, Some(InvalidTarget)}
    ensures TokenDPoP(cfg, header, expected, required) ==
      if HeaderAccepted(cfg, header, expected, required) then Ok(HeaderKey(header)) else Err(InvalidDPoPProof)
  {}

  /** An active row of this binding and family; it can be refreshed if its client is registered for that. */
  predicate Issue(cfg: Config, row: Token, bind: Binding, family: Id, client: Client, now: int) {
    && row.bind == bind && row.family == family && row.state == Active
    && row.accessExpires == now + cfg.accessTtl
    && row.refreshExpires == if client.refreshGrant then Some(now + cfg.refreshTtl) else None
  }

  /**
   No token row or family has an id that the counter still has to hand out, and without DPoP no row has a key:
   what the handlers rely on in the tables they find.
   */
  ghost predicate Consistent(cfg: Config, db: Db) {
    && db.next !in db.tokens
    && (cfg.dpop.Off? ==>
          && (forall c :: c in db.codes ==> db.codes[c].bind.jkt.None?)
          && (forall t :: t in db.tokens ==> db.tokens[t].bind.jkt.None?))
    && (forall c :: c in db.codes && db.codes[c].family.Some? ==> db.codes[c].family.value < db.next)
    && (forall t :: t in db.tokens ==> db.tokens[t].family < db.next && t < db.next)
  }

  lemma ReachableIsConsistent(s: State)
    requires IsReachable(s)
    ensures Consistent(s.cfg, s.db)
  {
    ReachableIsOk(s);
    NextIsFresh(s);
    forall c | c in s.db.codes && s.cfg.dpop.Off? ensures s.db.codes[c].bind.jkt.None? { assert CodeOk(s, c); }
    forall t | t in s.db.tokens && s.cfg.dpop.Off? ensures s.db.tokens[t].bind.jkt.None? { assert TokenOk(s, t); }
    forall c | c in s.db.codes && s.db.codes[c].family.Some? ensures s.db.codes[c].family.value < s.db.next {
      assert CodeOk(s, c);
      assert OriginOk(s, s.db.codes[c].family.value);
    }
    forall t | t in s.db.tokens ensures s.db.tokens[t].family < s.db.next && t < s.db.next {
      assert TokenOk(s, t) && OriginOk(s, s.db.tokens[t].family);
    }
  }

  /**
   One code was spent and one active token of a new family added, with the code's binding, the header's key and the
   configured lifetimes; nothing else changed.
   */
  ghost predicate ExchangedOnce(cfg: Config, db: Db, z: Db, x: Exchange, t: Id, now: int) {
    && x.code in db.codes && db.codes[x.code].used == Unused
    && t !in db.tokens && t in z.tokens && z.tokens == db.tokens[t := z.tokens[t]]
    && var code, family := db.codes[x.code], z.tokens[t].family;
       && Issue(cfg, z.tokens[t], code.bind.(jkt := HeaderKey(x.proof)), family, x.client, now)
       && (forall u :: u in db.tokens ==> db.tokens[u].family != family)
       && (forall c :: c in db.codes ==> db.codes[c].family != Some(family))
       && z.codes == db.codes[x.code := code.(used := Exchanged, family := Some(family))]
       && z.consents == db.consents
  }

  /** Every active row of the family became `to`, and no other token row changed. */
  ghost predicate BurnedOnly(db: Db, z: Db, family: Id, to: TokenState) {
    && z.tokens.Keys == db.tokens.Keys
    && (forall t :: t in db.tokens ==>
          z.tokens[t] == if db.tokens[t].family == family && db.tokens[t].state == Active
                         then db.tokens[t].(state := to) else db.tokens[t])
  }

  lemma ClaimedMintPasses(cfg: Config, db: Db, x: Exchange, jkt: Option<Id>, now: int)
    requires Consistent(cfg, db) && x.code in db.codes && db.codes[x.code].used == Unused
    requires GrantActive(db, db.codes[x.code].bind)
    ensures var m := Mint(FromCode(x.code), db.next, db.codes[x.code].bind.(jkt := jkt), x.client);
      MintPasses(Apply(db, ClaimCode(x.code)), m) && Apply(db, ClaimCode(x.code)).next !in db.tokens
  {
    var claimed := Apply(db, ClaimCode(x.code));
    assert CodeIn(claimed, x.code, Claimed) == {x.code};
  }

  lemma ClaimAlone(cfg: Config, db: Db, x: Exchange, jkt: Option<Id>, now: int)
    requires Consistent(cfg, db) && x.code in db.codes && db.codes[x.code].used == Unused
    requires GrantActive(db, db.codes[x.code].bind) && jkt == HeaderKey(x.proof)
    ensures var z := RunAlone(cfg, db, ExchangeClaim(x, db.codes[x.code], jkt), now);
      z.outcome == Issued(db.next + 1) && ExchangedOnce(cfg, db, z.db, x, db.next + 1, now)
  {
    var row := db.codes[x.code];
    var claimed := Apply(db, ClaimCode(x.code));
    var m := Mint(FromCode(x.code), db.next, row.bind.(jkt := jkt), x.client);
    OneCall(cfg, db, ExchangeClaim(x, row, jkt), now, DecideExchangeClaim(db, x, row, jkt));
    ClaimedMintPasses(cfg, db, x, jkt, now);
    MintAlone(cfg, claimed, m, now);
    CodeIsFinalized(cfg, db, x, m, now);
  }

  lemma CodeIsFinalized(cfg: Config, db: Db, x: Exchange, m: Mint, now: int)
    requires Consistent(cfg, db) && x.code in db.codes && db.codes[x.code].used == Unused
    requires m == Mint(FromCode(x.code), db.next, db.codes[x.code].bind.(jkt := HeaderKey(x.proof)), x.client)
    ensures ExchangedOnce(cfg, db, Minted(cfg, Apply(db, ClaimCode(x.code)), m, now), x, db.next + 1, now)
  {
    var c := x.code;
    var claimed := Apply(db, ClaimCode(c));
    var inserted := Apply(claimed, InsertToken(NewToken(cfg, m, now)));
    assert CodeIn(inserted, c, Claimed) == {c};
    assert inserted.next == db.next + 2 && claimed.next == db.next + 1;
  }

  /** Alone, an exchange that passes its checks is always issued its token: no check of the mint turns it back. */
  lemma ExchangeSucceeds(cfg: Config, db: Db, x: Exchange, now: int)
    requires Consistent(cfg, db) && ExchangeChecks(cfg, db, x, now)
    ensures var z := RunAlone(cfg, db, ExchangeFind(x), now);
      z.outcome.Issued? && ExchangedOnce(cfg, db, z.db, x, z.outcome.token, now)
  {
    var row, jkt := db.codes[x.code], HeaderKey(x.proof);
    ChecksAreTheHandlers(
      cfg, x, row, x.proof, row.bind.jkt, row.bind.jkt.Some? || x.client.dpopBound || cfg.dpop.Required?);
    OneCall(cfg, db, ExchangeFind(x), now, Read(ExchangeGrant(x, row)));
    OneCall(cfg, db, ExchangeGrant(x, row), now, Read(ExchangeClaim(x, row, jkt)));
    ClaimAlone(cfg, db, x, jkt, now);
  }

  /** The replayed code is marked, every active row of its family is not active any more, and nothing else changed. */
  ghost predicate ReplayBurned(db: Db, z: Answer, c: Id)
    requires Replays(db, c)
  {
    var family := db.codes[c].family.value;
    && z.outcome == ReplayedCode(c, family)
    && z.db.codes == db.codes[c := db.codes[c].(used := Replayed)]
    && z.db.consents == db.consents && BurnedOnly(db, z.db, family, Rotating)
  }

  lemma ReplayBurnAlone(cfg: Config, db: Db, c: Id, f: Id, now: int)
    ensures RunAlone(cfg, db, ExchangeBurn(c, f), now) ==
      Answer(Apply(db, SetTokens(ActiveIn(db, f), Rotating)), ReplayedCode(c, f))
  {
    var burn := SetTokens(ActiveIn(db, f), Rotating);
    OneCall(cfg, db, ExchangeBurn(c, f), now, Move(burn, Done(ReplayedCode(c, f))));
  }

  lemma ReplayAlone(cfg: Config, db: Db, c: Id, f: Id, now: int)
    requires c in db.codes && db.codes[c].used != Unused
    ensures var z := RunAlone(cfg, db, ExchangeMarkClaimed(c, f), now);
      && z.outcome == ReplayedCode(c, f)
      && z.db.codes == db.codes[c := db.codes[c].(used := Replayed)]
      && z.db.consents == db.consents && BurnedOnly(db, z.db, f, Rotating)
  {
    var once := Apply(db, SetCodes(CodeIn(db, c, Claimed), Replayed));
    OneCall(cfg, db, ExchangeMarkClaimed(c, f), now, DecideExchangeMark(db, c, f));
    var late := SetCodes(CodeIn(once, c, Exchanged), Replayed);
    var twice := if CodeIn(db, c, Claimed) == {} then Apply(once, late) else once;
    OneCall(cfg, once, ExchangeMarkExchanged(c, f), now, Move(late, ExchangeBurn(c, f)));
    assert twice.codes == db.codes[c := db.codes[c].(used := Replayed)];
    ReplayBurnAlone(cfg, twice, c, f, now);
  }

  /** What is left when an exchange that fails a check runs alone. */
  lemma ExchangeFails(cfg: Config, db: Db, x: Exchange, now: int)
    requires !ExchangeChecks(cfg, db, x, now)
    ensures var z := RunAlone(cfg, db, ExchangeFind(x), now);
      if Replays(db, x.code) then ReplayBurned(db, z, x.code) else ExchangeRefused(cfg, db, x, now, z)
  {
    OneCall(cfg, db, ExchangeFind(x), now, DecideExchangeFind(db, x, now));
    if x.code in db.codes {
      var row := db.codes[x.code];
      if row.used != Unused {
        if row.family.Some? { ReplayAlone(cfg, db, x.code, row.family.value, now); }
      } else if row.expires <= now {
        OneCall(cfg, db, ExchangeDelete(x.code), now, Move(DeleteCode(x.code), Done(Refused(InvalidGrant))));
      } else if row.bind.owner.client == x.client.id {
        ChecksAreTheHandlers(
          cfg, x, row, x.proof, row.bind.jkt, row.bind.jkt.Some? || x.client.dpopBound || cfg.dpop.Required?);
        OneCall(cfg, db, ExchangeGrant(x, row), now, DecideExchangeGrant(cfg, db, x, row));
      }
    }
  }

  // -- refresh --------------------------------------------------------------------------------------

  /** The refresh token is stored, active, unexpired, this client's and of an active grant. */
  predicate RefreshAccepted(db: Db, y: Refresh, now: int) {
    && y.token in db.tokens
    && var row := db.tokens[y.token];
       && row.refreshExpires.Some? && row.state == Active && row.bind.owner.client == y.client.id
       && GrantStands(db, row.bind) && now < row.refreshExpires.value
  }

  predicate ScopeAccepted(y: Refresh, row: Token) {
    y.scope.Some? ==> y.scope.value <= row.bind.scope
  }

  /** Only a public client is held to the key its token is bound to. */
  predicate RefreshHeaderAccepted(cfg: Config, y: Refresh, row: Token) {
    var asked := y.client.dpopBound || cfg.dpop == Required;
    if y.client.isPublic then HeaderAccepted(cfg, y.proof, row.bind.jkt, row.bind.jkt.Some? || asked)
    else HeaderAccepted(cfg, y.proof, None, asked)
  }

  /** Every check of `_token_refresh` before the claim. */
  predicate RequestAccepted(cfg: Config, db: Db, y: Refresh, now: int) {
    && RefreshAccepted(db, y, now)
    && var row := db.tokens[y.token];
       && ResourcesAccepted(cfg, y.resources, row.bind.resource) && ScopeAccepted(y, row)
       && RefreshHeaderAccepted(cfg, y, row)
  }

  /** No code of the family was replayed and no token of it marked. */
  ghost predicate Unmarked(db: Db, family: Id) {
    && (forall c :: c in db.codes && db.codes[c].family == Some(family) ==> db.codes[c].used != Replayed)
    && (forall t :: t in db.tokens && db.tokens[t].family == family ==>
          db.tokens[t].state != Compromised && db.tokens[t].state != Revoked)
  }

  /** Every check before the claim, and the mint's own scans of the family. */
  ghost predicate RefreshChecks(cfg: Config, db: Db, y: Refresh, now: int) {
    RequestAccepted(cfg, db, y, now) && Unmarked(db, db.tokens[y.token].family)
  }

  /** The answer names the first check that failed, and the tables are as they were. */
  predicate RefreshRefused(cfg: Config, db: Db, y: Refresh, now: int, z: Answer) {
    z == Answer(db, Refused(
      if !RefreshAccepted(db, y, now) then InvalidGrant
      else if !ResourcesAccepted(cfg, y.resources, db.tokens[y.token].bind.resource) then InvalidTarget
      else if !ScopeAccepted(y, db.tokens[y.token]) then InvalidScope
      else InvalidDPoPProof))
  }

  /** What a rotation binds the next token to: the scope that was asked for, if one was, and the header's key. */
  function RotatedTo(y: Refresh, bind: Binding): Binding {
    bind.(scope := if y.scope.Some? then y.scope.value else bind.scope, jkt := HeaderKey(y.proof))
  }

  /**
   One active token was spent and one active token of its family added, with the requested scope, the header's key
   and the configured lifetimes; nothing else changed.
   */
  ghost predicate RotatedOnce(cfg: Config, db: Db, z: Db, y: Refresh, t: Id, now: int) {
    && y.token in db.tokens && db.tokens[y.token].state == Active
    && t !in db.tokens && t in z.tokens
    && var rotated := db.tokens[y.token];
       && Issue(cfg, z.tokens[t], RotatedTo(y, rotated.bind), rotated.family, y.client, now)
       && RotatedBind(rotated.bind, z.tokens[t].bind, y.client.isPublic)
       && z.tokens == db.tokens[y.token := rotated.(state := Rotated)][t := z.tokens[t]]
       && z.codes == db.codes && z.consents == db.consents
  }

  lemma TokenIsFinalized(cfg: Config, db: Db, y: Refresh, m: Mint, now: int)
    requires db.next !in db.tokens && y.token in db.tokens && db.tokens[y.token].state == Active
    requires var row := db.tokens[y.token];
      && m == Mint(FromToken(y.token), row.family, RotatedTo(y, row.bind), y.client)
      && RotatedBind(row.bind, m.bind, y.client.isPublic)
    ensures RotatedOnce(cfg, db, Minted(cfg, Apply(db, SetTokens({y.token}, Rotating)), m, now), y, db.next, now)
  {
    var p := y.token;
    var claimed := Apply(db, SetTokens({p}, Rotating));
    var inserted := Apply(claimed, InsertToken(NewToken(cfg, m, now)));
    assert TokenIn(inserted, p, Rotating) == {p};
    assert inserted.tokens == db.tokens[p := db.tokens[p].(state := Rotating)][db.next := NewToken(cfg, m, now)];
  }

  lemma RotatingKeepsMarks(db: Db, p: Id, f: Id)
    requires p in db.tokens && db.tokens[p].state == Active
    ensures TokenMarked(Apply(db, SetTokens({p}, Rotating)), f) == TokenMarked(db, f)
  {
    var z := Apply(db, SetTokens({p}, Rotating));
    if t :| t in db.tokens && db.tokens[t].family == f && Marker(db.tokens[t].state) {
      assert z.tokens[t] == db.tokens[t];
    }
    if t :| t in z.tokens && z.tokens[t].family == f && Marker(z.tokens[t].state) {
      assert z.tokens[t] == db.tokens[t];
    }
  }

  lemma MarksAreScanned(db: Db, f: Id)
    ensures Unmarked(db, f) <==> !CodeReplayed(db, f) && !TokenMarked(db, f)
  {}

  /** The family has no active row, and no code or consent changed. */
  predicate BurnedFamily(db: Db, z: Answer, family: Id) {
    && z.outcome == Burned(family) && z.db.codes == db.codes && z.db.consents == db.consents
    && (forall t :: t in z.db.tokens && z.db.tokens[t].family == family ==> z.db.tokens[t].state != Active)
  }

  /** The rotation of an active token from its claim on. */
  lemma RotateAlone(cfg: Config, db: Db, y: Refresh, now: int)
    requires db.next !in db.tokens && y.token in db.tokens && db.tokens[y.token].state == Active
    requires var bind := db.tokens[y.token].bind;
      GrantActive(db, bind) && RotatedBind(bind, RotatedTo(y, bind), y.client.isPublic)
    ensures var row := db.tokens[y.token];
      var bind := RotatedTo(y, row.bind);
      var z := RunAlone(cfg, db, RefreshClaim(y, row, bind.scope, bind.jkt), now);
      if CodeReplayed(db, row.family) || TokenMarked(db, row.family) then BurnedFamily(db, z, row.family)
      else z.outcome == Issued(db.next) && RotatedOnce(cfg, db, z.db, y, db.next, now)
  {
    var row, bind := db.tokens[y.token], RotatedTo(y, db.tokens[y.token].bind);
    var claimed := Apply(db, SetTokens({y.token}, Rotating));
    var m := Mint(FromToken(y.token), row.family, bind, y.client);
    assert TokenIn(db, y.token, Active) == {y.token};
    var claim := Move(SetTokens({y.token}, Rotating), MintInsert(m));
    OneCall(cfg, db, RefreshClaim(y, row, bind.scope, bind.jkt), now, claim);
    assert TokenIn(claimed, y.token, Rotating) == {y.token};
    RotatingKeepsMarks(db, y.token, row.family);
    MintAlone(cfg, claimed, m, now);
    BurnedFamilyHasNoActive(Minted(cfg, claimed, m, now), row.family);
    TokenIsFinalized(cfg, db, y, m, now);
  }

  /** What a refresh leaves when it runs alone: a new token, a burned family, or the tables as they were. */
  ghost predicate RefreshLeaves(cfg: Config, db: Db, y: Refresh, now: int, z: Answer) {
    if Spent(db, y.token) then
      z.outcome == ReusedRefresh(y.token, db.tokens[y.token].family) && ReuseBurned(db, z.db, y.token)
    else if !RequestAccepted(cfg, db, y, now) then RefreshRefused(cfg, db, y, now, z)
    else if Unmarked(db, db.tokens[y.token].family) then
      z.outcome.Issued? && RotatedOnce(cfg, db, z.db, y, z.outcome.token, now)
    else BurnedFamily(db, z, db.tokens[y.token].family)
  }

  lemma RefreshAlone(cfg: Config, db: Db, y: Refresh, now: int)
    requires Consistent(cfg, db)
    ensures RefreshLeaves(cfg, db, y, now, RunAlone(cfg, db, RefreshFind(y), now))
  {
    OneCall(cfg, db, RefreshFind(y), now, DecideRefreshFind(db, y));
    if y.token in db.tokens && db.tokens[y.token].refreshExpires.Some? {
      var row := db.tokens[y.token];
      if row.state != Active {
        ReuseAlone(cfg, db, y.token, now);
      } else if row.bind.owner.client == y.client.id {
        RefreshReadAlone(cfg, db, y, now);
      }
    }
  }

  /** Between the read and the claim: the first failing check is answered, and otherwise the rotation is claimed. */
  lemma RefreshDecides(cfg: Config, db: Db, y: Refresh, now: int)
    requires y.token in db.tokens && db.tokens[y.token].state == Active
    requires db.tokens[y.token].refreshExpires.Some? && db.tokens[y.token].bind.owner.client == y.client.id
    ensures var row := db.tokens[y.token];
      var bind, move := RotatedTo(y, row.bind), DecideRefreshGrant(cfg, db, y, row, now);
      if RequestAccepted(cfg, db, y, now) then
        move == Read(RefreshClaim(y, row, bind.scope, bind.jkt)) && GrantActive(db, row.bind)
      else
        move.write.Nothing? && move.after.Done? && RefreshRefused(cfg, db, y, now, Answer(db, move.after.outcome))
  {}

  lemma RefreshReadAlone(cfg: Config, db: Db, y: Refresh, now: int)
    requires Consistent(cfg, db) && y.token in db.tokens && db.tokens[y.token].state == Active
    requires db.tokens[y.token].refreshExpires.Some? && db.tokens[y.token].bind.owner.client == y.client.id
    ensures RefreshLeaves(cfg, db, y, now, RunAlone(cfg, db, RefreshGrant(y, db.tokens[y.token]), now))
  {
    var row := db.tokens[y.token];
    var move := DecideRefreshGrant(cfg, db, y, row, now);
    OneCall(cfg, db, RefreshGrant(y, row), now, move);
    RefreshDecides(cfg, db, y, now);
    if RequestAccepted(cfg, db, y, now) {
      assert RotatedBind(row.bind, RotatedTo(y, row.bind), y.client.isPublic);
      RotateAlone(cfg, db, y, now);
      MarksAreScanned(db, row.family);
    }
  }

  /** A refresh token that was issued and is not active any more. */
  predicate Spent(db: Db, t: Id) {
    t in db.tokens && db.tokens[t].refreshExpires.Some? && db.tokens[t].state != Active
  }

  /** The presented row is marked, the family has no active row, and nothing else changed. */
  ghost predicate ReuseBurned(db: Db, z: Db, t: Id)
    requires t in db.tokens
  {
    && z.codes == db.codes && z.consents == db.consents && z.tokens.Keys == db.tokens.Keys
    && z.tokens[t] == db.tokens[t].(state := if db.tokens[t].state == Revoked then Revoked else Compromised)
    && (forall u :: u in db.tokens && u != t ==>
          z.tokens[u] == if db.tokens[u].family == db.tokens[t].family && db.tokens[u].state == Active
                         then db.tokens[u].(state := Rotating) else db.tokens[u])
  }

  lemma ReuseBurnAlone(cfg: Config, db: Db, t: Id, f: Id, now: int)
    ensures RunAlone(cfg, db, RefreshBurn(t, f), now) ==
      Answer(Apply(db, SetTokens(ActiveIn(db, f), Rotating)), ReusedRefresh(t, f))
  {
    var burn := SetTokens(ActiveIn(db, f), Rotating);
    OneCall(cfg, db, RefreshBurn(t, f), now, Move(burn, Done(ReusedRefresh(t, f))));
  }

  /** The two guarded updates mark the presented row, unless it was revoked, whichever of them selects it. */
  function MarkedReuse(db: Db, t: Id): Db {
    var once := Apply(db, SetTokens(TokenIn(db, t, Rotating), Compromised));
    if TokenIn(db, t, Rotating) == {} then Apply(once, SetTokens(TokenIn(once, t, Rotated), Compromised)) else once
  }

  lemma ReuseMarks(db: Db, t: Id)
    requires t in db.tokens && db.tokens[t].state != Active
    ensures var state := if db.tokens[t].state == Revoked then Revoked else Compromised;
      MarkedReuse(db, t) == db.(tokens := db.tokens[t := db.tokens[t].(state := state)])
  {}

  lemma ReuseIsMarked(cfg: Config, db: Db, t: Id, now: int)
    requires t in db.tokens
    ensures var f := db.tokens[t].family;
      RunAlone(cfg, db, RefreshMarkRotating(t, f), now) == RunAlone(cfg, MarkedReuse(db, t), RefreshBurn(t, f), now)
  {
    var f := db.tokens[t].family;
    var once := Apply(db, SetTokens(TokenIn(db, t, Rotating), Compromised));
    OneCall(cfg, db, RefreshMarkRotating(t, f), now, DecideRefreshMark(db, t, f));
    var late := SetTokens(TokenIn(once, t, Rotated), Compromised);
    OneCall(cfg, once, RefreshMarkRotated(t, f), now, Move(late, RefreshBurn(t, f)));
  }

  lemma ReuseAlone(cfg: Config, db: Db, t: Id, now: int)
    requires t in db.tokens && db.tokens[t].state != Active
    ensures var f := db.tokens[t].family;
      var z := RunAlone(cfg, db, RefreshMarkRotating(t, f), now);
      z.outcome == ReusedRefresh(t, f) && ReuseBurned(db, z.db, t)
  {
    ReuseIsMarked(cfg, db, t, now);
    ReuseMarks(db, t);
    ReuseBurnAlone(cfg, MarkedReuse(db, t), t, db.tokens[t].family, now);
  }

  // -- revocation -----------------------------------------------------------------------------------

  /** The presented value exists in its column and belongs to the requesting client. */
  predicate Revocable(db: Db, v: Revocation) {
    && v.token in db.tokens && (v.isRefresh ==> db.tokens[v.token].refreshExpires.Some?)
    && db.tokens[v.token].bind.owner.client == v.client.id
  }

  /** The presented row and every active row of its family became revoked, and nothing else changed. */
  ghost predicate RevokedOnly(db: Db, z: Db, t: Id)
    requires t in db.tokens
  {
    && z.codes == db.codes && z.consents == db.consents && z.tokens.Keys == db.tokens.Keys
    && (forall u :: u in db.tokens ==>
          z.tokens[u] == if u == t || (db.tokens[u].family == db.tokens[t].family && db.tokens[u].state == Active)
                         then db.tokens[u].(state := Revoked) else db.tokens[u])
  }

  /** Either lookup order finds the same row; a value of another client changes nothing. */
  lemma RevokeAlone(cfg: Config, db: Db, v: Revocation, now: int)
    ensures var z := RunAlone(cfg, db, RevokeFind(v), now);
      if Revocable(db, v) then
        z.outcome == RevokedFamily(v.token, db.tokens[v.token].family) && RevokedOnly(db, z.db, v.token)
      else z == Answer(db, NothingToRevoke)
  {
    OneCall(cfg, db, RevokeFind(v), now, DecideRevoke(db, RevokeFind(v)));
    OneCall(cfg, db, RevokeFindOther(v), now, DecideRevoke(db, RevokeFindOther(v)));
    if Revocable(db, v) { RevokeRowAlone(cfg, db, v.token, now); }
  }

  lemma RevokeRowAlone(cfg: Config, db: Db, t: Id, now: int)
    requires t in db.tokens
    ensures var f := db.tokens[t].family; var z := RunAlone(cfg, db, RevokeMark(t, f), now);
      z.outcome == RevokedFamily(t, f) && RevokedOnly(db, z.db, t)
  {
    var f := db.tokens[t].family;
    var marked := Apply(db, SetTokens(TokenAt(db, t), Revoked));
    OneCall(cfg, db, RevokeMark(t, f), now, Move(SetTokens(TokenAt(db, t), Revoked), RevokeBurn(t, f)));
    OneCall(
      cfg, marked, RevokeBurn(t, f), now, Move(SetTokens(ActiveIn(marked, f), Revoked), Done(RevokedFamily(t, f))));
  }

  /** The owner's grant is replaced by a revoked one, every code replayed, every token revoked or compromised. */
  ghost predicate GrantRevoked(db: Db, z: Db, o: Owner)
    requires o in db.consents
  {
    && z.consents == db.consents[o := db.consents[o].(grant := db.next, revoked := true)]
    && z.codes.Keys == db.codes.Keys && z.tokens.Keys == db.tokens.Keys
    && (forall c :: c in db.codes ==>
          z.codes[c] == if db.codes[c].bind.owner == o then db.codes[c].(used := Replayed) else db.codes[c])
    && (forall t :: t in db.tokens ==>
          z.tokens[t] == if db.tokens[t].bind.owner == o && db.tokens[t].state != Compromised
                         then db.tokens[t].(state := Revoked) else db.tokens[t])
  }

  lemma ConsentRowsAlone(cfg: Config, db: Db, marked: Db, o: Owner, g: Id, now: int)
    requires o in db.consents
    requires marked == Apply(db, PutConsent(o, db.consents[o].(grant := db.next, revoked := true)))
    ensures var z := RunAlone(cfg, marked, ConsentCodes(o, g), now);
      z.outcome == RevokedGrant(o, g) && GrantRevoked(db, z.db, o)
  {
    var first := SetCodes(LiveCodesOf(marked, o), Replayed);
    var codes := Apply(marked, first);
    var last := SetTokens(UncompromisedTokensOf(codes, o), Revoked);
    OneCall(cfg, marked, ConsentCodes(o, g), now, Move(first, ConsentTokens(o, g)));
    OneCall(cfg, codes, ConsentTokens(o, g), now, Move(last, Done(RevokedGrant(o, g))));
  }

  lemma ConsentRevokedAlone(cfg: Config, db: Db, o: Owner, now: int)
    ensures var z := RunAlone(cfg, db, ConsentFind(o), now);
      if o in db.consents then z.outcome == RevokedGrant(o, db.consents[o].grant) && GrantRevoked(db, z.db, o)
      else z == Answer(db, NoConsent)
  {
    OneCall(cfg, db, ConsentFind(o), now, DecideRevoke(db, ConsentFind(o)));
    if o in db.consents {
      var move := DecideConsentMark(db, o);
      OneCall(cfg, db, ConsentMark(o), now, move);
      ConsentRowsAlone(cfg, db, Apply(db, move.write), o, db.consents[o].grant, now);
    }
  }

  // -- consent ----------------------------------------------------------------------------------------

  /** One unused code was added, bound to the generation that is active now and to a consented scope. */
  ghost predicate CodeGranted(cfg: Config, db: Db, z: Db, k: Pending, c: Id, now: int) {
    && c !in db.codes && c in z.codes && z.codes == db.codes[c := z.codes[c]]
    && z.codes[c].used == Unused && z.codes[c].family == None
    && z.codes[c].bind == Binding(k.owner, z.codes[c].bind.grant, k.resource, k.scope, k.jkt)
    && z.codes[c].redirect == k.redirect && z.codes[c].challenge == k.challenge
    && z.codes[c].expires == now + cfg.codeTtl
    && GrantStands(z, z.codes[c].bind)
    && k.scope <= z.consents[k.owner].scope
    && z.tokens == db.tokens
    && (forall o :: o != k.owner ==>
          (o in z.consents <==> o in db.consents) && (o in db.consents ==> z.consents[o] == db.consents[o]))
  }

  lemma CodeAlone(cfg: Config, db: Db, before: Db, k: Pending, g: Id, now: int)
    requires db.next !in db.codes && k.owner in db.consents && !db.consents[k.owner].revoked
    requires db.consents[k.owner].grant == g && k.scope <= db.consents[k.owner].scope
    requires db.codes == before.codes && db.tokens == before.tokens
    requires forall o :: o != k.owner ==>
      (o in db.consents <==> o in before.consents) && (o in before.consents ==> db.consents[o] == before.consents[o])
    ensures var z := RunAlone(cfg, db, GrantCode(k, g), now);
      && z.outcome == Authorized(db.next)
      && CodeGranted(cfg, before, z.db, k, db.next, now) && z.db.consents == db.consents
  {
    OneCall(cfg, db, GrantCode(k, g), now, Move(InsertCode(NewCode(cfg, k, g, now)), Done(Authorized(db.next))));
  }

  /** An active generation is kept and its scope widened; otherwise a fresh one starts with the scope asked for. */
  predicate ConsentGiven(db: Db, z: Db, k: Pending) {
    && k.owner in z.consents
    && if k.owner in db.consents && !db.consents[k.owner].revoked then
         z.consents[k.owner] == Consent(db.consents[k.owner].grant, db.consents[k.owner].scope + k.scope, false)
       else
         && z.consents[k.owner].grant >= db.next
         && z.consents[k.owner].scope == k.scope && !z.consents[k.owner].revoked
  }

  /** No consent row, or a revoked one: a new generation starts. */
  lemma NewConsentAlone(cfg: Config, db: Db, k: Pending, now: int)
    requires forall c :: c in db.codes ==> c < db.next
    requires k.owner in db.consents ==> db.consents[k.owner].revoked
    ensures var point := if k.owner in db.consents then GrantReplace(k) else GrantCreate(k);
      var z := RunAlone(cfg, db, point, now);
      && z.outcome.Authorized? && CodeGranted(cfg, db, z.db, k, z.outcome.code, now)
      && ConsentGiven(db, z.db, k)
  {
    var point := if k.owner in db.consents then GrantReplace(k) else GrantCreate(k);
    var replaced := PutConsent(k.owner, Consent(db.next, k.scope, false));
    OneCall(cfg, db, point, now, Move(replaced, GrantCode(k, db.next)));
    CodeAlone(cfg, Apply(db, replaced), db, k, db.next, now);
  }

  lemma MergedConsentAlone(cfg: Config, db: Db, k: Pending, now: int)
    requires forall c :: c in db.codes ==> c < db.next
    requires k.owner in db.consents && !db.consents[k.owner].revoked
    ensures var row := db.consents[k.owner];
      var z := RunAlone(cfg, db, GrantMerge(k, row.grant, row.scope + k.scope), now);
      && z.outcome.Authorized? && CodeGranted(cfg, db, z.db, k, z.outcome.code, now)
      && ConsentGiven(db, z.db, k)
  {
    var g, merged := db.consents[k.owner].grant, db.consents[k.owner].scope + k.scope;
    var kept := PutConsent(k.owner, db.consents[k.owner].(scope := merged));
    OneCall(cfg, db, GrantMerge(k, g, merged), now, Move(kept, GrantCode(k, g)));
    CodeAlone(cfg, Apply(db, kept), db, k, g, now);
  }

  /** An accepted consent always ends in a code, whatever row it finds. */
  lemma ConsentAlone(cfg: Config, db: Db, k: Pending, now: int)
    requires forall c :: c in db.codes ==> c < db.next
    ensures var z := RunAlone(cfg, db, GrantFind(k), now);
      && z.outcome.Authorized? && CodeGranted(cfg, db, z.db, k, z.outcome.code, now)
      && ConsentGiven(db, z.db, k)
  {
    OneCall(cfg, db, GrantFind(k), now, DecideConsent(cfg, db, GrantFind(k), now));
    if k.owner in db.consents && !db.consents[k.owner].revoked {
      MergedConsentAlone(cfg, db, k, now);
    } else {
      NewConsentAlone(cfg, db, k, now);
    }
  }

  /** The unique key of the table: a create that comes after another consent's create ends in a conflict. */
  lemma LateConsentConflicts(cfg: Config, db: Db, k: Pending, now: int)
    requires k.owner in db.consents
    ensures RunAlone(cfg, db, GrantCreate(k), now) == Answer(db, Conflict)
  {
    OneCall(cfg, db, GrantCreate(k), now, Read(Done(Conflict)));
  }

  /** An earlier consent that covers the scope is reused; otherwise nothing changes. */
  lemma AuthorizeAlone(cfg: Config, db: Db, k: Pending, now: int)
    requires forall c :: c in db.codes ==> c < db.next
    ensures var z := RunAlone(cfg, db, AuthorizeFind(k), now);
      if k.owner in db.consents && !db.consents[k.owner].revoked && k.scope <= db.consents[k.owner].scope then
        z.outcome.Authorized? && CodeGranted(cfg, db, z.db, k, z.outcome.code, now) && z.db.consents == db.consents
      else z == Answer(db, NeedsConsent)
  {
    OneCall(cfg, db, AuthorizeFind(k), now, DecideConsent(cfg, db, AuthorizeFind(k), now));
    if k.owner in db.consents && !db.consents[k.owner].revoked && k.scope <= db.consents[k.owner].scope {
      CodeAlone(cfg, db, db, k, db.consents[k.owner].grant, now);
    }
  }

  // -- back to the interleavings ------------------------------------------------------------------------

  /** These tables are what some interleaving of some requests leaves. */
  ghost predicate TablesReachable(cfg: Config, db: Db) {
    exists s: State {:trigger IsReachable(s)} :: IsReachable(s) && s.cfg == cfg && s.db == db
  }

  lemma {:induction false} FreshRequest(taken: set<nat>) returns (r: nat)
    ensures r !in taken
    ensures forall q :: q in taken ==> q < r
    decreases taken
  {
    if taken == {} {
      r := 0;
    } else {
      var q :| q in taken;
      var rest := FreshRequest(taken - {q});
      r := if rest <= q then q + 1 else rest;
      assert forall p :: p in taken ==> p == q || p in taken - {q};
    }
  }

  /** Any request that starts on such tables and runs alone leaves such tables: every theorem about runs applies. */
  lemma AloneStaysReachable(cfg: Config, db: Db, q: Request, now: int)
    requires TablesReachable(cfg, db) && Initial(cfg, q)
    ensures TablesReachable(cfg, RunAlone(cfg, db, q, now).db)
  {
    var s: State :| IsReachable(s) && s.cfg == cfg && s.db == db;
    var r := FreshRequest(s.reqs.Keys);
    ReachableAfter(s, Arrive(r, q));
    var arrived := After(s, Arrive(r, q));
    var run := AloneIsARun(arrived, r, now);
    ReachableOn(arrived, run);
    SameConfig(arrived, run);
  }

  lemma StartIsReachable(cfg: Config)
    ensures TablesReachable(cfg, Start(cfg).db)
  {
    assert Leads(Start(cfg), [], Start(cfg));
    assert IsReachable(Start(cfg));
  }

  lemma ReachableCodesAreNumbered(cfg: Config, db: Db)
    requires TablesReachable(cfg, db)
    ensures forall c :: c in db.codes ==> c < db.next
  {
    var s: State :| IsReachable(s) && s.cfg == cfg && s.db == db;
    ReachableIsOk(s);
    forall c | c in db.codes ensures c < db.next { assert CodeOk(s, c); }
  }

  lemma ReachableGrantsAreNumbered(cfg: Config, db: Db)
    requires TablesReachable(cfg, db)
    ensures forall o :: o in db.consents ==> db.consents[o].grant < db.next
  {
    var s: State :| IsReachable(s) && s.cfg == cfg && s.db == db;
    ReachableIsOk(s);
  }

  // -- what a caller finds --------------------------------------------------------------------------------

  /**
   Exactly the exchanges that pass their checks are issued a token; a replayed code leaves no active row; any other
   request is refused for the first check it fails.
   */
  lemma ExchangeContract(cfg: Config, db: Db, x: Exchange, now: int)
    requires TablesReachable(cfg, db)
    ensures var z := RunAlone(cfg, db, ExchangeFind(x), now);
      && (z.outcome.Issued? <==> ExchangeChecks(cfg, db, x, now))
      && (z.outcome.Issued? ==> ExchangedOnce(cfg, db, z.db, x, z.outcome.token, now))
      && (Replays(db, x.code) ==>
            && ReplayBurned(db, z, x.code)
            && (forall t :: t in z.db.tokens && Some(z.db.tokens[t].family) == db.codes[x.code].family ==>
                  z.db.tokens[t].state != Active))
      && (!z.outcome.Issued? && !Replays(db, x.code) ==> ExchangeRefused(cfg, db, x, now, z))
  {
    var s: State :| IsReachable(s) && s.cfg == cfg && s.db == db;
    ReachableIsConsistent(s);
    if ExchangeChecks(cfg, db, x, now) { ExchangeSucceeds(cfg, db, x, now); } else { ExchangeFails(cfg, db, x, now); }
  }

  /**
   Exactly the refreshes that pass their checks rotate; a reused token leaves a marker and no active row; any other
   request is refused for the first check it fails, or burns a family that is already marked.
   */
  lemma RefreshContract(cfg: Config, db: Db, y: Refresh, now: int)
    requires TablesReachable(cfg, db)
    ensures var z := RunAlone(cfg, db, RefreshFind(y), now);
      && (z.outcome.Issued? <==> RefreshChecks(cfg, db, y, now))
      && (z.outcome.Issued? ==> RotatedOnce(cfg, db, z.db, y, z.outcome.token, now))
      && (Spent(db, y.token) ==>
            && y.token in z.db.tokens && Marker(z.db.tokens[y.token].state)
            && (forall t :: t in z.db.tokens && z.db.tokens[t].family == db.tokens[y.token].family ==>
                  z.db.tokens[t].state != Active))
      && RefreshLeaves(cfg, db, y, now, z)
  {
    var s: State :| IsReachable(s) && s.cfg == cfg && s.db == db;
    ReachableIsConsistent(s);
    RefreshAlone(cfg, db, y, now);
  }

  /** A revocation by the owning client leaves the family without an active row; any other changes nothing. */
  lemma RevokeContract(cfg: Config, db: Db, v: Revocation, now: int)
    ensures var answer := RunAlone(cfg, db, RevokeFind(v), now);
      var z := answer.db;
      if Revocable(db, v) then
        && answer.outcome == RevokedFamily(v.token, db.tokens[v.token].family)
        && v.token in z.tokens && z.tokens[v.token].state == Revoked
        && (forall t :: t in z.tokens && z.tokens[t].family == z.tokens[v.token].family ==> z.tokens[t].state != Active)
        && RevokedOnly(db, z, v.token)
      else answer == Answer(db, NothingToRevoke)
  {
    RevokeAlone(cfg, db, v, now);
  }

  /** A consent revocation leaves every code of the owner replayed and every token revoked or compromised. */
  lemma ConsentRevocationContract(cfg: Config, db: Db, o: Owner, now: int)
    requires TablesReachable(cfg, db)
    ensures var answer := RunAlone(cfg, db, ConsentFind(o), now);
      var z := answer.db;
      if o in db.consents then
        && answer.outcome == RevokedGrant(o, db.consents[o].grant)
        && o in z.consents && z.consents[o].revoked && z.consents[o].grant > db.consents[o].grant
        && (forall c :: c in z.codes && z.codes[c].bind.owner == o ==> z.codes[c].used == Replayed)
        && (forall t :: t in z.tokens && z.tokens[t].bind.owner == o ==> Marker(z.tokens[t].state))
        && GrantRevoked(db, z, o)
      else answer == Answer(db, NoConsent)
  {
    ReachableGrantsAreNumbered(cfg, db);
    ConsentRevokedAlone(cfg, db, o, now);
  }
}
