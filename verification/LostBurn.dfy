/**
 Exactly when the burn of an answered code replay can still be lost. A client can only present refresh tokens it was
 given, so the runs considered are those in which no refresh finds a token that was never disclosed.
 */
module LostBurn {
  import opened Wrappers
  import opened OAuthStore
  import opened OAuthMachine
  import opened OAuthInvariant
  import opened OAuthPreservation
  import opened FamilyRevocation
  import opened CodeRows

  // -- runs in which only disclosed tokens are presented --------------------------------------------

  /** A refresh that looks up a stored token was given it. Values that no row was minted for are free. */
  predicate HonestEvent(s: State, e: Event)
    requires Enabled(s, e)
  {
    e.Advance? && s.reqs[e.r].RefreshFind? && s.reqs[e.r].y.token in s.db.tokens ==>
      s.reqs[e.r].y.token in s.log.disclosed
  }

  predicate Honest(s: State, run: seq<Event>)
    requires Possible(s, run)
    decreases |run|
  {
    run == [] || (HonestEvent(s, run[0]) && Honest(After(s, run[0]), run[1..]))
  }

  predicate HonestlyLeads(s: State, run: seq<Event>, z: State) {
    Leads(s, run, z) && Honest(s, run)
  }

  ghost predicate HonestlyReachable(s: State) {
    exists run :: HonestlyLeads(Start(s.cfg), run, s)
  }

  lemma NoneBecomesLookup(cfg: Config, db: Db, q: Request, now: int)
    requires !q.Done?
    ensures !Decide(cfg, db, q, now).after.RefreshFind?
  {}

  /** No event of the run is, or arrives as, a lookup of a refresh token. */
  ghost predicate WithoutLookups(s: State, run: seq<Event>) {
    forall e :: e in run ==>
      if e.Arrive? then !e.q.RefreshFind? else e.r in s.reqs ==> !s.reqs[e.r].RefreshFind?
  }

  lemma {:induction false} WithoutLookupsIsHonest(s: State, run: seq<Event>)
    requires Possible(s, run) && WithoutLookups(s, run)
    ensures Honest(s, run)
    decreases |run|
  {
    if run != [] {
      assert run[0] in run && forall e :: e in run[1..] ==> e in run;
      if run[0].Advance? { NoneBecomesLookup(s.cfg, s.db, s.reqs[run[0].r], run[0].now); }
      WithoutLookupsIsHonest(After(s, run[0]), run[1..]);
    }
  }

  lemma {:induction false} HonestConcat(s: State, a: seq<Event>, b: seq<Event>)
    requires Possible(s, a) && Honest(s, a) && Possible(Exec(s, a), b) && Honest(Exec(s, a), b)
    ensures HonestlyLeads(s, a + b, Exec(Exec(s, a), b))
    decreases |a|
  {
    if a == [] {
      assert a + b == b;
    } else {
      HonestConcat(After(s, a[0]), a[1..], b);
      assert (a + b)[1..] == a[1..] + b;
    }
  }

  // -- what such runs keep --------------------------------------------------------------------------

  /** The owner has a consent row, and if it is revoked then under another generation than `g`. */
  ghost predicate Anchored(db: Db, o: Owner, g: Id) {
    && g < db.next && o in db.consents
    && (db.consents[o].revoked ==> db.consents[o].grant != g)
  }

  ghost predicate AnchoredBind(db: Db, bind: Binding) { Anchored(db, bind.owner, bind.grant) }

  /** A request works for an anchored generation, and refreshes only a disclosed token. */
  ghost predicate RequestGrounded(db: Db, disclosed: set<Id>, q: Request) {
    if q.ExchangeGrant? || q.ExchangeClaim? then AnchoredBind(db, q.codeRow.bind)
    else if q.RefreshGrant? || q.RefreshClaim? then AnchoredBind(db, q.tokenRow.bind) && q.y.token in disclosed
    else if Minting(q) then AnchoredBind(db, q.m.bind)
    else if q.GrantMerge? || q.GrantCode? then Anchored(db, q.k.owner, q.grant)
    else true
  }

  ghost predicate RowsAnchored(db: Db) {
    && (forall t :: t in db.tokens ==> AnchoredBind(db, db.tokens[t].bind))
    && (forall c :: c in db.codes ==> AnchoredBind(db, db.codes[c].bind))
  }

  ghost predicate Grounded(s: State) {
    && RowsAnchored(s.db)
    && (forall r :: r in s.reqs ==> RequestGrounded(s.db, s.log.disclosed, s.reqs[r]))
  }

  /** A write of a consent row brings a new generation, or changes nothing but the scope. */
  lemma ConsentWrites(cfg: Config, db: Db, q: Request, now: int)
    requires !q.Done?
    ensures var w := Decide(cfg, db, q, now).write;
      w.PutConsent? ==>
        || w.consent.grant == db.next
        || (w.owner in db.consents && w.consent == db.consents[w.owner].(scope := w.consent.scope))
  {}

  ghost predicate ConsentWriteOk(db: Db, w: Write) {
    w.PutConsent? ==>
      || w.consent.grant == db.next
      || (w.owner in db.consents && w.consent == db.consents[w.owner].(scope := w.consent.scope))
  }

  lemma AnchoredStays(db: Db, w: Write, o: Owner, g: Id)
    requires Anchored(db, o, g) && ConsentWriteOk(db, w)
    ensures Anchored(Apply(db, w), o, g)
  {}

  lemma RequestStaysGrounded(db: Db, w: Write, before: set<Id>, later: set<Id>, q: Request)
    requires RequestGrounded(db, before, q) && ConsentWriteOk(db, w) && before <= later
    ensures RequestGrounded(Apply(db, w), later, q)
  {
    if q.ExchangeGrant? || q.ExchangeClaim? { AnchoredStays(db, w, q.codeRow.bind.owner, q.codeRow.bind.grant); }
    else if q.RefreshGrant? || q.RefreshClaim? { AnchoredStays(db, w, q.tokenRow.bind.owner, q.tokenRow.bind.grant); }
    else if Minting(q) { AnchoredStays(db, w, q.m.bind.owner, q.m.bind.grant); }
    else if q.GrantMerge? || q.GrantCode? { AnchoredStays(db, w, q.k.owner, q.grant); }
  }

  lemma RowsStayAnchored(cfg: Config, db: Db, disclosed: set<Id>, q: Request, now: int)
    requires RowsAnchored(db) && !q.Done? && RequestGrounded(db, disclosed, q)
    ensures RowsAnchored(Apply(db, Decide(cfg, db, q, now).write))
  {
    var move := Decide(cfg, db, q, now);
    var z := Apply(db, move.write);
    ConsentWrites(cfg, db, q, now);
    DecideIsSensible(cfg, db, q, now);
    RowsAfterWrite(cfg, db, disclosed, q, move);
  }

  lemma RowsAfterWrite(cfg: Config, db: Db, disclosed: set<Id>, q: Request, move: Move)
    requires RowsAnchored(db) && RequestGrounded(db, disclosed, q)
    requires Sensible(cfg, db, q, move) && ConsentWriteOk(db, move.write)
    ensures RowsAnchored(Apply(db, move.write))
  {
    var z := Apply(db, move.write);
    forall t | t in z.tokens ensures AnchoredBind(z, z.tokens[t].bind) {
      var bind := z.tokens[t].bind;
      assert AnchoredBind(db, bind);
      AnchoredStays(db, move.write, bind.owner, bind.grant);
    }
    forall c | c in z.codes ensures AnchoredBind(z, z.codes[c].bind) {
      var bind := z.codes[c].bind;
      assert AnchoredBind(db, bind);
      AnchoredStays(db, move.write, bind.owner, bind.grant);
    }
  }

  lemma OwnExchange(cfg: Config, db: Db, disclosed: set<Id>, q: Request, now: int)
    requires RowsAnchored(db) && Exchanging(q) && RequestGrounded(db, disclosed, q)
    ensures var move := DecideExchange(cfg, db, q, now);
      RequestGrounded(Apply(db, move.write), disclosed, move.after)
  {}

  lemma OwnRefresh(cfg: Config, db: Db, disclosed: set<Id>, q: Request, now: int)
    requires RowsAnchored(db) && Refreshing(q) && RequestGrounded(db, disclosed, q)
    requires q.RefreshFind? && q.y.token in db.tokens ==> q.y.token in disclosed
    ensures var move := DecideRefresh(cfg, db, q, now);
      RequestGrounded(Apply(db, move.write), disclosed, move.after)
  {}

  lemma OwnMint(cfg: Config, db: Db, disclosed: set<Id>, q: Request, now: int)
    requires Minting(q) && RequestGrounded(db, disclosed, q)
    ensures RequestGrounded(Apply(db, DecideMint(cfg, db, q, now).write), disclosed, DecideMint(cfg, db, q, now).after)
  {}

  lemma OwnConsent(cfg: Config, db: Db, disclosed: set<Id>, q: Request, now: int)
    requires Consenting(q) && RequestGrounded(db, disclosed, q)
    requires forall o :: o in db.consents ==> db.consents[o].grant < db.next
    ensures var move := DecideConsent(cfg, db, q, now);
      RequestGrounded(Apply(db, move.write), disclosed, move.after)
  {}

  lemma OwnRevoke(db: Db, disclosed: set<Id>, q: Request)
    requires Revoking(q)
    ensures RequestGrounded(Apply(db, DecideRevoke(db, q).write), disclosed, DecideRevoke(db, q).after)
  {}

  lemma OwnStaysGrounded(cfg: Config, db: Db, disclosed: set<Id>, q: Request, now: int)
    requires RowsAnchored(db) && !q.Done? && RequestGrounded(db, disclosed, q)
    requires q.RefreshFind? && q.y.token in db.tokens ==> q.y.token in disclosed
    requires forall o :: o in db.consents ==> db.consents[o].grant < db.next
    ensures RequestGrounded(Apply(db, Decide(cfg, db, q, now).write), disclosed, Decide(cfg, db, q, now).after)
  {
    if Exchanging(q) { OwnExchange(cfg, db, disclosed, q, now); }
    else if Refreshing(q) { OwnRefresh(cfg, db, disclosed, q, now); }
    else if Minting(q) { OwnMint(cfg, db, disclosed, q, now); }
    else if Consenting(q) { OwnConsent(cfg, db, disclosed, q, now); }
    else { OwnRevoke(db, disclosed, q); }
  }

  lemma GroundedStep(s: State, r: nat, now: int)
    requires Inv(s) && Grounded(s) && Enabled(s, Advance(r, now)) && HonestEvent(s, Advance(r, now))
    ensures Grounded(After(s, Advance(r, now)))
  {
    var q := s.reqs[r];
    var z := After(s, Advance(r, now));
    var move := Decide(s.cfg, s.db, q, now);
    RowsStayAnchored(s.cfg, s.db, s.log.disclosed, q, now);
    OwnStaysGrounded(s.cfg, s.db, s.log.disclosed, q, now);
    ConsentWrites(s.cfg, s.db, q, now);
    assert s.log.disclosed <= z.log.disclosed;
    forall o | o in z.reqs ensures RequestGrounded(z.db, z.log.disclosed, z.reqs[o]) {
      if o == r {
        MoreDisclosed(z.db, s.log.disclosed, z.log.disclosed, move.after);
      } else {
        RequestStaysGrounded(s.db, move.write, s.log.disclosed, z.log.disclosed, s.reqs[o]);
      }
    }
  }

  lemma MoreDisclosed(db: Db, before: set<Id>, later: set<Id>, q: Request)
    requires RequestGrounded(db, before, q) && before <= later
    ensures RequestGrounded(db, later, q)
  {}

  lemma GroundedArrival(s: State, r: nat, q: Request)
    requires Grounded(s) && Enabled(s, Arrive(r, q))
    ensures Grounded(After(s, Arrive(r, q)))
  {}

  lemma {:induction false} GroundedRun(s: State, run: seq<Event>)
    requires Inv(s) && Grounded(s) && Possible(s, run) && Honest(s, run)
    ensures Inv(Exec(s, run)) && Grounded(Exec(s, run))
    decreases |run|
  {
    if run != [] {
      match run[0] {
        case Arrive(r, q) =>
          ArrivalPreserves(s, r, q);
          GroundedArrival(s, r, q);
        case Advance(r, now) =>
          StepPreserves(s, r, now);
          GroundedStep(s, r, now);
      }
      GroundedRun(After(s, run[0]), run[1..]);
    }
  }

  lemma HonestlyReachableIsGrounded(s: State)
    requires HonestlyReachable(s)
    ensures IsReachable(s) && Inv(s) && Grounded(s)
  {
    var run :| HonestlyLeads(Start(s.cfg), run, s);
    StartSatisfies(s.cfg);
    GroundedRun(Start(s.cfg), run);
  }

  // -- families that nothing can revive -------------------------------------------------------------

  /** The guarded finalisation 1 -> 3 of this source will never select a row again. */
  ghost predicate DeadSource(s: State, source: Source) {
    match source
    case FromCode(c) =>
      c < s.db.next && (c in s.db.codes ==> s.db.codes[c].used == Exchanged || s.db.codes[c].used == Replayed)
    case FromToken(p) => p in s.db.tokens && s.db.tokens[p].state != Active && s.db.tokens[p].state != Rotating
  }

  /** The mint is burning, or will: its source cannot be finalized, or its grant was replaced before its last check. */
  ghost predicate StuckMint(s: State, q: Request) {
    && Minting(q)
    && (|| q.MintBurn?
        || ((q.MintInsert? || q.MintFinalize?) && DeadSource(s, q.m.source))
        || (!q.MintDisclose? && Retired(s, q.m.bind.owner, q.m.bind.grant)))
  }

  ghost predicate HeldByStuck(s: State, t: Id) {
    && t in s.log.minter && s.log.minter[t] in s.reqs
    && Holds(s.reqs[s.log.minter[t]], t)
    && StuckMint(s, s.reqs[s.log.minter[t]])
  }

  /** Every active row and every pending insert of the family belongs to such a mint. */
  ghost predicate Stuck(s: State, f: Id) {
    && f < s.db.next
    && (forall t :: IsActive(s, t) && s.db.tokens[t].family == f ==> HeldByStuck(s, t))
    && (forall r :: Inserting(s, r) && s.reqs[r].m.family == f ==> StuckMint(s, s.reqs[r]))
  }

  /** A disclosed token is not held by any mint, so in a stuck family none is active. */
  lemma StuckHasNoLive(s: State, f: Id, t: Id)
    requires Inv(s) && Stuck(s, f)
    ensures !LiveDisclosed(s, f, t)
  {
    if t in s.log.disclosed {
      assert TokenOk(s, t);
      assert RequestOk(s, s.log.minter[t], s.reqs[s.log.minter[t]]);
      assert IsActive(s, t) && s.db.tokens[t].family == f ==> HeldByStuck(s, t);
    }
  }

  lemma StuckMintStays(s: State, z: State, r: nat, q: Request)
    requires Inv(s) && Evolves(s, z, r) && StuckMint(s, q)
    ensures StuckMint(z, q)
  {
    if DeadSource(s, q.m.source) { DeadSourceStays(s, z, r, q.m.source); }
  }

  lemma DeadSourceStays(s: State, z: State, r: nat, source: Source)
    requires Evolves(s, z, r) && DeadSource(s, source)
    ensures DeadSource(z, source)
  {
    match source
    case FromCode(c) =>
      if c in s.db.codes && c in z.db.codes { assert CodeMove(s.db.codes[c].used, z.db.codes[c].used); }
    case FromToken(p) => assert TokenMove(s.db.tokens[p].state, z.db.tokens[p].state);
  }

  /** The stuck mint's own step leads to another check before a failing one, or to the burn. */
  lemma StuckMintSteps(s: State, z: State, q: Request, now: int)
    requires StuckMint(s, q) && !q.MintBurn?
    requires Retired(s, q.m.bind.owner, q.m.bind.grant) ==> Retired(z, q.m.bind.owner, q.m.bind.grant)
    requires DeadSource(s, q.m.source) ==> DeadSource(z, q.m.source)
    ensures var after := DecideMint(s.cfg, s.db, q, now).after;
      StuckMint(z, after) && Holds(after, if q.MintInsert? then s.db.next else q.token)
  {
  }

  lemma RetiredStays(s: State, z: State, r: nat, o: Owner, g: Id)
    requires Evolves(s, z, r) && Retired(s, o, g)
    ensures Retired(z, o, g)
  {
  }

  /** A mint of the family that this request begins would rotate a disclosed active token of it. */
  lemma NoHonestClaim(s: State, r: nat, now: int, f: Id)
    requires Inv(s) && Grounded(s) && Stuck(s, f) && Enabled(s, Advance(r, now))
    ensures var after := Decide(s.cfg, s.db, s.reqs[r], now).after; after.MintInsert? ==> after.m.family != f
  {
    var q := s.reqs[r];
    assert RequestOk(s, r, q);
    assert RequestGrounded(s.db, s.log.disclosed, q);
    DecideIsSensible(s.cfg, s.db, q, now);
    if q.RefreshClaim? { StuckHasNoLive(s, f, q.y.token); }
  }

  lemma StuckMintAdvances(s: State, z: State, r: nat, q: Request, now: int)
    requires Evolves(s, z, r) && StuckMint(s, q) && !q.MintBurn?
    ensures var after := DecideMint(s.cfg, s.db, q, now).after;
      StuckMint(z, after) && Holds(after, if q.MintInsert? then s.db.next else q.token)
  {
    if DeadSource(s, q.m.source) { DeadSourceStays(s, z, r, q.m.source); }
    if Retired(s, q.m.bind.owner, q.m.bind.grant) { RetiredStays(s, z, r, q.m.bind.owner, q.m.bind.grant); }
    StuckMintSteps(s, z, q, now);
  }

  /** The stepping mint's own row: the one it inserts, or the one it holds. */
  lemma OwnRowStaysStuck(s: State, r: nat, now: int, z: State, t: Id)
    requires Enabled(s, Advance(r, now)) && z == After(s, Advance(r, now)) && Evolves(s, z, r)
    requires StuckMint(s, s.reqs[r]) && !s.reqs[r].MintBurn?
    requires if s.reqs[r].MintInsert? then t == s.db.next
      else s.reqs[r].token == t && t in s.log.minter && s.log.minter[t] == r
    ensures HeldByStuck(z, t)
  {
    StuckMintAdvances(s, z, r, s.reqs[r], now);
    MinterRecorded(s, r, now, t);
  }

  lemma MinterRecorded(s: State, r: nat, now: int, t: Id)
    requires Enabled(s, Advance(r, now))
    requires if s.reqs[r].MintInsert? then t == s.db.next else t in s.log.minter && s.log.minter[t] == r
    ensures var z := After(s, Advance(r, now)); t in z.log.minter && z.log.minter[t] == r
    ensures var z := After(s, Advance(r, now));
      r in z.reqs && (Minting(s.reqs[r]) ==> z.reqs[r] == DecideMint(s.cfg, s.db, s.reqs[r], now).after)
  {
  }

  lemma OthersRowStaysStuck(s: State, r: nat, z: State, t: Id)
    requires Inv(s) && Evolves(s, z, r) && HeldByStuck(s, t) && s.log.minter[t] != r
    ensures HeldByStuck(z, t)
  {
    StuckMintStays(s, z, r, s.reqs[s.log.minter[t]]);
  }

  /** The burn selects every active row of its family. */
  lemma BurnLeavesNone(s: State, r: nat, now: int, t: Id)
    requires Enabled(s, Advance(r, now)) && s.reqs[r].MintBurn?
    requires t in s.db.tokens && s.db.tokens[t].family == s.reqs[r].m.family
    ensures !IsActive(After(s, Advance(r, now)), t)
  {}

  lemma StuckRow(s: State, r: nat, now: int, f: Id, t: Id)
    requires Inv(s) && Stuck(s, f) && Enabled(s, Advance(r, now))
    requires var z := After(s, Advance(r, now)); IsActive(z, t) && z.db.tokens[t].family == f
    ensures HeldByStuck(After(s, Advance(r, now)), t)
  {
    var q := s.reqs[r];
    var z := After(s, Advance(r, now));
    StepPreserves(s, r, now);
    assert RequestOk(s, r, q);
    OkIsPrepared(s, r, q);
    DecideIsSensible(s.cfg, s.db, q, now);
    ActiveRows(s, r, q, Decide(s.cfg, s.db, q, now), z, t);
    if t in s.db.tokens {
      assert HeldByStuck(s, t);
      if s.log.minter[t] != r {
        OthersRowStaysStuck(s, r, z, t);
      } else if q.MintBurn? {
        BurnLeavesNone(s, r, now, t);
      } else {
        OwnRowStaysStuck(s, r, now, z, t);
      }
    } else {
      assert Inserting(s, r);
      OwnRowStaysStuck(s, r, now, z, t);
    }
  }

  lemma StuckStep(s: State, r: nat, now: int, f: Id)
    requires Inv(s) && Grounded(s) && Stuck(s, f) && Enabled(s, Advance(r, now))
    ensures Stuck(After(s, Advance(r, now)), f)
  {
    var z := After(s, Advance(r, now));
    StepPreserves(s, r, now);
    forall t | IsActive(z, t) && z.db.tokens[t].family == f ensures HeldByStuck(z, t) {
      StuckRow(s, r, now, f, t);
    }
    forall o | Inserting(z, o) && z.reqs[o].m.family == f ensures StuckMint(z, z.reqs[o]) {
      if o == r {
        NoHonestClaim(s, r, now, f);
      } else {
        assert Inserting(s, o);
        StuckMintStays(s, z, r, s.reqs[o]);
      }
    }
  }

  lemma StuckArrival(s: State, r: nat, q: Request, f: Id)
    requires Stuck(s, f) && Enabled(s, Arrive(r, q))
    ensures Stuck(After(s, Arrive(r, q)), f)
  {
    var z := After(s, Arrive(r, q));
    forall t | IsActive(z, t) && z.db.tokens[t].family == f ensures HeldByStuck(z, t) {
      assert IsActive(s, t) && HeldByStuck(s, t);
      ArrivalKeepsStuckMint(s, r, q, s.reqs[s.log.minter[t]]);
    }
    forall o | Inserting(z, o) && z.reqs[o].m.family == f ensures StuckMint(z, z.reqs[o]) {
      assert o != r && Inserting(s, o);
      ArrivalKeepsStuckMint(s, r, q, s.reqs[o]);
    }
  }

  lemma ArrivalKeepsStuckMint(s: State, r: nat, q: Request, m: Request)
    requires Enabled(s, Arrive(r, q)) && StuckMint(s, m)
    ensures StuckMint(After(s, Arrive(r, q)), m)
  {}

  lemma {:induction false} StuckRun(s: State, run: seq<Event>, f: Id)
    requires Inv(s) && Grounded(s) && Stuck(s, f) && Possible(s, run) && Honest(s, run)
    ensures Inv(Exec(s, run)) && Stuck(Exec(s, run), f)
    decreases |run|
  {
    if run != [] {
      match run[0] {
        case Arrive(r, q) =>
          ArrivalPreserves(s, r, q);
          GroundedArrival(s, r, q);
          StuckArrival(s, r, q, f);
        case Advance(r, now) =>
          StepPreserves(s, r, now);
          GroundedStep(s, r, now);
          StuckStep(s, r, now, f);
      }
      StuckRun(After(s, run[0]), run[1..], f);
    }
  }

  // -- the exact condition --------------------------------------------------------------------------

  /** A mint that has not passed the scan of the codes and is not on course is stuck, once the code bears its marker. */
  lemma OffCourseIsStuck(s: State, o: nat, c: Id, f: Id)
    requires Inv(s) && Grounded(s) && MarkerUp(s, c) && s.db.codes[c].family == Some(f)
    requires o in s.reqs && Minting(s.reqs[o]) && s.reqs[o].m.family == f && !OnCourse(s, o, f)
    requires !s.reqs[o].MintInsert? ==> IsActive(s, s.reqs[o].token)
    requires s.reqs[o].MintInsert? || s.reqs[o].MintFinalize? || s.reqs[o].MintScanCodes? || s.reqs[o].MintBurn?
    ensures StuckMint(s, s.reqs[o])
  {
    var q := s.reqs[o];
    assert RequestOk(s, o, q);
    assert RequestGrounded(s.db, s.log.disclosed, q);
    assert CodeOk(s, c);
    if !q.MintBurn? && GrantActive(s.db, q.m.bind) { SourceIsDead(s, q, c, f); }
  }

  lemma SourceIsDead(s: State, q: Request, c: Id, f: Id)
    requires Minting(q) && SourceOk(s, q.m) && OriginIs(s, c, f) && c < s.db.next && MarkerUp(s, c) && q.m.family == f
    requires s.db.codes[c].family == Some(f) && !(q.m.source.FromToken? && Finalizes(s.db, q.m.source))
    ensures DeadSource(s, q.m.source)
  {
  }

  lemma QuietWithoutCourseIsStuck(s: State, c: Id, f: Id)
    requires Inv(s) && Grounded(s) && Quiet(s, CodeBarrier(c, f)) && s.db.codes[c].family == Some(f)
    requires forall o :: !OnCourse(s, o, f)
    ensures Stuck(s, f)
  {
    assert CodeOk(s, c) && OriginOk(s, f);
    forall t | IsActive(s, t) && s.db.tokens[t].family == f ensures HeldByStuck(s, t) {
      assert Doomed(s, CodeBarrier(c, f), t);
      var o := s.log.minter[t];
      assert RequestOk(s, o, s.reqs[o]);
      OffCourseIsStuck(s, o, c, f);
    }
    forall o | Inserting(s, o) && s.reqs[o].m.family == f ensures StuckMint(s, s.reqs[o]) {
      OffCourseIsStuck(s, o, c, f);
    }
  }

  /** An honest continuation that ends with a disclosed token of the family active. */
  ghost predicate LosesTheBurn(s: State, run: seq<Event>, f: Id) {
    Possible(s, run) && Honest(s, run) && exists t :: LiveDisclosed(Exec(s, run), f, t)
  }

  /** The delete, and then the mint on course to its end. */
  lemma HonestLoss(s: State, c: Id, f: Id, d: nat, o: nat) returns (run: seq<Event>)
    requires IsReachable(s) && MarkerUp(s, c) && s.db.codes[c].family == Some(f) && !TokenMarked(s.db, f)
    requires d in s.reqs && s.reqs[d] == ExchangeDelete(c) && OnCourse(s, o, f)
    ensures LosesTheBurn(s, run, f)
  {
    run := PendingDeleteLosesTheBurn(s, c, f, d, o, 0);
    WithoutLookupsIsHonest(s, run);
    assert LiveDisclosed(Exec(s, run), f, TokenToCome(s, o));
  }

  /**
   Exactly: in any state that honest use reaches, a replay of `c` has been answered and the code's row is stored. Some
   honest continuation makes a disclosed token of the family active if and only if the delete of the row is pending,
   no token row marks the family, and a mint of it is on course before its scan of the codes.
   */
  lemma BurnIsLostExactly(s: State, r: nat, c: Id, f: Id)
    requires HonestlyReachable(s) && r in s.reqs && s.reqs[r] == Done(ReplayedCode(c, f)) && c in s.db.codes
    ensures (exists run :: LosesTheBurn(s, run, f)) <==>
      PendingDelete(s, c) && !TokenMarked(s.db, f) && exists o :: OnCourse(s, o, f)
  {
    HonestlyReachableIsGrounded(s);
    AnsweredReplay(s, r, c, f);
    if PendingDelete(s, c) && !TokenMarked(s.db, f) && exists o :: OnCourse(s, o, f) {
      var d :| d in s.reqs && s.reqs[d] == ExchangeDelete(c);
      var o :| OnCourse(s, o, f);
      var run := HonestLoss(s, c, f, d, o);
    }
    if run :| LosesTheBurn(s, run, f) {
      var t :| LiveDisclosed(Exec(s, run), f, t);
      LossNeedsDeleteAndNoMark(s, run, r, c, f, t);
      LossNeedsCourse(s, run, c, f, t);
    }
  }

  lemma AnsweredReplay(s: State, r: nat, c: Id, f: Id)
    requires IsReachable(s) && r in s.reqs && s.reqs[r] == Done(ReplayedCode(c, f)) && c in s.db.codes
    ensures Quiet(s, CodeBarrier(c, f)) && MarkerUp(s, c) && s.db.codes[c].family == Some(f)
  {
    ReachableIsQuiet(s);
    assert Finished(s, r, CodeBarrier(c, f));
    assert OriginOk(s, f);
  }

  lemma LossNeedsCourse(s: State, run: seq<Event>, c: Id, f: Id, t: Id)
    requires Inv(s) && Grounded(s) && Quiet(s, CodeBarrier(c, f)) && s.db.codes[c].family == Some(f)
    requires Possible(s, run) && Honest(s, run) && LiveDisclosed(Exec(s, run), f, t)
    ensures exists o :: OnCourse(s, o, f)
  {
    if forall o :: !OnCourse(s, o, f) {
      QuietWithoutCourseIsStuck(s, c, f);
      StuckRun(s, run, f);
      StuckHasNoLive(Exec(s, run), f, t);
    }
  }
}
