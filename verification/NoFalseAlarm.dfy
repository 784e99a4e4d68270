/**
 The other side of burning families: without a replay, a revocation or a code deletion in its family,
 and while its grant stays active, the request that won a claim is never turned back; and the requests
 that lost the claim leave no trace.
 */
module NoFalseAlarm {
  import opened Wrappers
  import opened OAuthStore
  import opened OAuthMachine
  import opened OAuthInvariant
  import opened OAuthPreservation

  // -- which steps write code and token states ---------------------------------------------------

  lemma TokenWriters(cfg: Config, db: Db, q: Request, now: int)
    requires !q.Done? && Decide(cfg, db, q, now).write.SetTokens?
    ensures var w := Decide(cfg, db, q, now).write;
      || Intervenes(q)
      || (q.RefreshClaim? && w.state == Rotating && w.tokens == TokenIn(db, q.y.token, Active))
      || (q.MintFinalize? && w == Finalize(db, q.m.source) && q.m.source.FromToken?)
      || (q.MintBurn? && w.state == Rotating && w.tokens == ActiveIn(db, q.m.family))
  {}

  lemma CodeWriters(cfg: Config, db: Db, q: Request, now: int)
    requires !q.Done?
    ensures var w := Decide(cfg, db, q, now).write;
      && (w.SetCodes? ==> Intervenes(q) || (q.MintFinalize? && w == Finalize(db, q.m.source) && q.m.source.FromCode?))
      && (w.DeleteCode? ==> q == ExchangeDelete(w.gone))
  {}

  // -- an untouched family ------------------------------------------------------------------------

  predicate BeforeFinal(q: Request) { q.MintInsert? || q.MintFinalize? }

  predicate AfterFinal(q: Request) {
    q.MintScanCodes? || q.MintScanTokens? || q.MintGrant? || q.MintDisclose?
  }

  /** The claim is still exactly as the mint left it. */
  ghost predicate SourceIs(s: State, source: Source, used: CodeState, state: TokenState) {
    match source
    case FromCode(c) => c in s.db.codes && s.db.codes[c].used == used
    case FromToken(p) => p in s.db.tokens && s.db.tokens[p].state == state
  }

  ghost predicate Unmarked(s: State, f: Id) {
    && (forall c :: c in s.db.codes && s.db.codes[c].family == Some(f) ==> s.db.codes[c].used != Replayed)
    && (forall t :: t in s.db.tokens && s.db.tokens[t].family == f ==> !Marker(s.db.tokens[t].state))
  }

  /** What holds of the mints and of the issued tokens of a family nothing has intervened in. */
  ghost predicate MintCalm(s: State, r: nat, f: Id)
    requires r in s.reqs
  {
    var q := s.reqs[r];
    && (BeforeFinal(q) && q.m.family == f ==> SourceIs(s, q.m.source, Claimed, Rotating))
    && (AfterFinal(q) && q.m.family == f ==> SourceIs(s, q.m.source, Exchanged, Rotated))
    && (q.Done? && q.outcome.Issued? && TokenOf(s, q.outcome.token, f) && q.outcome.token in s.log.parent ==>
          SourceIs(s, s.log.parent[q.outcome.token], Exchanged, Rotated))
  }

  ghost predicate Calm(s: State, f: Id) {
    f !in s.log.touched ==>
      && Unmarked(s, f)
      && (forall r {:trigger MintCalm(s, r, f)} :: r in s.reqs ==> MintCalm(s, r, f))
  }

  /** A row of an untouched family changes only by its own mint's finalisation, a claim or a burn. */
  lemma TokenRowUntouched(s: State, r: nat, now: int, f: Id, t: Id)
    requires Enabled(s, Advance(r, now)) && TokenOf(s, t, f) && f !in After(s, Advance(r, now)).log.touched
    ensures var z := After(s, Advance(r, now)); var q := s.reqs[r];
      && t in z.db.tokens
      && (|| z.db.tokens[t].state == s.db.tokens[t].state
          || (s.db.tokens[t].state == Active && z.db.tokens[t].state == Rotating)
          || (s.db.tokens[t].state == Rotating && z.db.tokens[t].state == Rotated
              && q.MintFinalize? && q.m.source == FromToken(t)))
    requires s.db.next !in s.db.tokens
  {
    var q := s.reqs[r];
    var w := Decide(s.cfg, s.db, q, now).write;
    if w.SetTokens? {
      TokenWriters(s.cfg, s.db, q, now);
    }
  }

  lemma CodeRowUntouched(s: State, r: nat, now: int, f: Id, c: Id)
    requires Enabled(s, Advance(r, now)) && f !in After(s, Advance(r, now)).log.touched
    requires c in s.db.codes && s.db.codes[c].family == Some(f) && s.db.codes[c].used != Unused
    requires s.db.next !in s.db.codes
    ensures var z := After(s, Advance(r, now)); var q := s.reqs[r];
      && c in z.db.codes
      && z.db.codes[c].family == Some(f)
      && (|| z.db.codes[c].used == s.db.codes[c].used
          || (s.db.codes[c].used == Claimed && z.db.codes[c].used == Exchanged
              && q.MintFinalize? && q.m.source == FromCode(c)))
  {
    var q := s.reqs[r];
    CodeWriters(s.cfg, s.db, q, now);
    DecideIsSensible(s.cfg, s.db, q, now);
  }

  /** Touched families stay touched, so a family untouched afterwards was untouched before. */
  lemma TouchedGrows(s: State, e: Event)
    requires Enabled(s, e)
    ensures s.log.touched <= After(s, e).log.touched
  {}

  /** Inserted rows carry no mark and inserted codes no family. */
  lemma NewRows(cfg: Config, db: Db, q: Request, move: Move)
    requires Sensible(cfg, db, q, move)
    ensures var z := Apply(db, move.write);
      && (forall t :: t in z.tokens && t !in db.tokens ==> z.tokens[t].state == Active)
      && (forall c :: c in z.codes && c !in db.codes ==> z.codes[c].family == None)
  {}

  lemma UnmarkedStays(s: State, r: nat, now: int, f: Id)
    requires Tables(s) && Unmarked(s, f) && Enabled(s, Advance(r, now))
    requires f !in After(s, Advance(r, now)).log.touched
    ensures Unmarked(After(s, Advance(r, now)), f)
  {
    var q := s.reqs[r];
    var z := After(s, Advance(r, now));
    NextIsFresh(s);
    DecideIsSensible(s.cfg, s.db, q, now);
    NewRows(s.cfg, s.db, q, Decide(s.cfg, s.db, q, now));
    forall t | t in z.db.tokens && z.db.tokens[t].family == f ensures !Marker(z.db.tokens[t].state) {
      if t in s.db.tokens { TokenUnmarked(s, r, now, f, t); }
    }
    forall c | c in z.db.codes && z.db.codes[c].family == Some(f) ensures z.db.codes[c].used != Replayed {
      assert c in s.db.codes;
      CodeUnmarked(s, r, now, f, c);
    }
  }

  lemma TokenUnmarked(s: State, r: nat, now: int, f: Id, t: Id)
    requires Unmarked(s, f) && Enabled(s, Advance(r, now)) && t in s.db.tokens && s.db.next !in s.db.tokens
    requires f !in After(s, Advance(r, now)).log.touched
    requires var z := After(s, Advance(r, now)); t in z.db.tokens && z.db.tokens[t].family == f
    requires LegalWrite(s.db, Decide(s.cfg, s.db, s.reqs[r], now).write)
    ensures !Marker(After(s, Advance(r, now)).db.tokens[t].state)
  {
    TokenFamilyStays(s.db, Decide(s.cfg, s.db, s.reqs[r], now).write, t);
    TokenRowUntouched(s, r, now, f, t);
  }

  lemma TokenFamilyStays(db: Db, w: Write, t: Id)
    requires t in db.tokens && db.next !in db.tokens
    ensures t in Apply(db, w).tokens && Apply(db, w).tokens[t].family == db.tokens[t].family
  {}

  lemma CodeUnmarked(s: State, r: nat, now: int, f: Id, c: Id)
    requires Tables(s) && Unmarked(s, f) && Enabled(s, Advance(r, now)) && c in s.db.codes
    requires f !in After(s, Advance(r, now)).log.touched
    requires var z := After(s, Advance(r, now)); c in z.db.codes && z.db.codes[c].family == Some(f)
    requires LegalWrite(s.db, Decide(s.cfg, s.db, s.reqs[r], now).write)
    ensures After(s, Advance(r, now)).db.codes[c].used != Replayed
  {
    var w := Decide(s.cfg, s.db, s.reqs[r], now).write;
    NextIsFresh(s);
    assert CodeOk(s, c);
    if s.db.codes[c].family == Some(f) {
      CodeRowUntouched(s, r, now, f, c);
    } else if !w.ClaimCode? {
      CodeRowAfter(s.db, w, c);
    } else {
      ClaimedRow(s.db, w, c);
    }
  }

  lemma ClaimedRow(db: Db, w: Write, c: Id)
    requires w.ClaimCode? && c in db.codes && c in Apply(db, w).codes
    ensures Apply(db, w).codes[c] == db.codes[c] || Apply(db, w).codes[c].used == Claimed
  {}

  /** The source row of an untouched family's token or pending insert belongs to the family. */
  ghost predicate SourceOf(s: State, source: Source, f: Id) {
    match source
    case FromCode(c) => c in s.db.codes ==> s.db.codes[c].family == Some(f)
    case FromToken(p) => TokenOf(s, p, f)
  }

  lemma MintSourceOf(s: State, m: Mint)
    requires Tables(s) && SourceOk(s, m)
    ensures SourceOf(s, m.source, m.family)
  {
    assert OriginOk(s, m.family);
  }

  lemma TokenSourceOf(s: State, t: Id)
    requires Tables(s) && t in s.db.tokens
    ensures t in s.log.parent && SourceOf(s, s.log.parent[t], s.db.tokens[t].family)
  {
    assert TokenOk(s, t);
    assert OriginOk(s, s.db.tokens[t].family);
  }

  lemma SourceStaysClaimed(s: State, r: nat, now: int, f: Id, source: Source)
    requires Inv(s) && Enabled(s, Advance(r, now)) && f !in After(s, Advance(r, now)).log.touched
    requires SourceOf(s, source, f) && SourceIs(s, source, Claimed, Rotating)
    requires s.reqs[r].MintFinalize? ==> s.reqs[r].m.source != source
    ensures SourceIs(After(s, Advance(r, now)), source, Claimed, Rotating)
  {
    NextIsFresh(s);
    match source
    case FromCode(c) => CodeRowUntouched(s, r, now, f, c);
    case FromToken(p) => TokenRowUntouched(s, r, now, f, p);
  }

  lemma SourceStaysFinal(s: State, r: nat, now: int, f: Id, source: Source)
    requires Inv(s) && Enabled(s, Advance(r, now)) && f !in After(s, Advance(r, now)).log.touched
    requires SourceOf(s, source, f) && SourceIs(s, source, Exchanged, Rotated)
    ensures SourceIs(After(s, Advance(r, now)), source, Exchanged, Rotated)
  {
    NextIsFresh(s);
    match source
    case FromCode(c) => CodeRowUntouched(s, r, now, f, c);
    case FromToken(p) => TokenRowUntouched(s, r, now, f, p);
  }

  /** No two mints hold a claim on the same source. */
  lemma ClaimsAreApart(s: State, r: nat, o: nat)
    requires Inv(s) && r in s.reqs && o in s.reqs && o != r
    requires s.reqs[r].MintFinalize? && BeforeFinal(s.reqs[o])
    ensures s.reqs[o].m.source != s.reqs[r].m.source
  {
    assert RequestOk(s, r, s.reqs[r]) && RequestOk(s, o, s.reqs[o]);
    if s.reqs[o].MintInsert? {
      assert Inserting(s, o);
    }
  }

  lemma OtherClaimStaysCalm(s: State, r: nat, now: int, f: Id, o: nat)
    requires Inv(s) && Enabled(s, Advance(r, now)) && f !in After(s, Advance(r, now)).log.touched
    requires o in s.reqs && o != r && BeforeFinal(s.reqs[o]) && s.reqs[o].m.family == f
    requires SourceOk(s, s.reqs[o].m) && SourceIs(s, s.reqs[o].m.source, Claimed, Rotating)
    ensures SourceIs(After(s, Advance(r, now)), s.reqs[o].m.source, Claimed, Rotating)
  {
    MintSourceOf(s, s.reqs[o].m);
    if s.reqs[r].MintFinalize? { ClaimsAreApart(s, r, o); }
    SourceStaysClaimed(s, r, now, f, s.reqs[o].m.source);
  }

  lemma OtherFinalStaysCalm(s: State, r: nat, now: int, f: Id, o: nat)
    requires Inv(s) && Enabled(s, Advance(r, now)) && f !in After(s, Advance(r, now)).log.touched
    requires o in s.reqs && AfterFinal(s.reqs[o]) && s.reqs[o].m.family == f
    requires SourceOk(s, s.reqs[o].m) && SourceIs(s, s.reqs[o].m.source, Exchanged, Rotated)
    ensures SourceIs(After(s, Advance(r, now)), s.reqs[o].m.source, Exchanged, Rotated)
  {
    MintSourceOf(s, s.reqs[o].m);
    SourceStaysFinal(s, r, now, f, s.reqs[o].m.source);
  }

  lemma IssuedStaysCalm(s: State, r: nat, now: int, f: Id, t: Id)
    requires Inv(s) && Enabled(s, Advance(r, now)) && f !in After(s, Advance(r, now)).log.touched
    requires TokenOf(s, t, f) && t in s.log.parent && SourceIs(s, s.log.parent[t], Exchanged, Rotated)
    ensures SourceIs(After(s, Advance(r, now)), s.log.parent[t], Exchanged, Rotated)
  {
    TokenSourceOf(s, t);
    SourceStaysFinal(s, r, now, f, s.log.parent[t]);
  }

  lemma OthersStayCalm(s: State, r: nat, now: int, f: Id, o: nat)
    requires Inv(s) && Enabled(s, Advance(r, now)) && f !in After(s, Advance(r, now)).log.touched
    requires o in s.reqs && o != r && MintCalm(s, o, f)
    requires Evolves(s, After(s, Advance(r, now)), r)
    ensures MintCalm(After(s, Advance(r, now)), o, f)
  {
    var q := s.reqs[o];
    assert RequestOk(s, o, q);
    if BeforeFinal(q) && q.m.family == f {
      OtherClaimStaysCalm(s, r, now, f, o);
    } else if AfterFinal(q) && q.m.family == f {
      OtherFinalStaysCalm(s, r, now, f, o);
    } else if q.Done? && q.outcome.Issued? {
      assert TokenOk(s, q.outcome.token);
      if TokenOf(s, q.outcome.token, f) {
        IssuedStaysCalm(s, r, now, f, q.outcome.token);
      }
    }
  }

  lemma ClaimIsCalm(s: State, r: nat, q: Request, move: Move, z: State, f: Id)
    requires Claims(s.db, q, move) && LegalWrite(s.db, move.write)
    requires z.db == Apply(s.db, move.write) && r in z.reqs && z.reqs[r] == move.after
    ensures MintCalm(z, r, f)
  {}

  lemma InsertIsCalm(s: State, r: nat, m: Mint, token: Token, f: Id, z: State)
    requires s.db.next !in s.db.tokens && r in s.reqs && s.reqs[r] == MintInsert(m) && MintCalm(s, r, f)
    requires z.db == Apply(s.db, InsertToken(token)) && r in z.reqs && z.reqs[r] == MintFinalize(m, s.db.next)
    ensures MintCalm(z, r, f)
  {}

  lemma FinalizeIsCalm(s: State, r: nat, m: Mint, t: Id, f: Id, z: State)
    requires r in s.reqs && s.reqs[r] == MintFinalize(m, t) && MintCalm(s, r, f)
    requires z.db == Apply(s.db, Finalize(s.db, m.source)) && r in z.reqs
    requires z.reqs[r] == if Finalizes(s.db, m.source) then MintScanCodes(m, t) else MintBurn(m, t)
    ensures MintCalm(z, r, f)
  {}

  lemma CheckIsCalm(s: State, r: nat, f: Id, z: State)
    requires r in s.reqs && AfterFinal(s.reqs[r]) && !s.reqs[r].MintDisclose? && MintCalm(s, r, f)
    requires z.db == s.db && r in z.reqs
    requires (AfterFinal(z.reqs[r]) && z.reqs[r].m == s.reqs[r].m) || z.reqs[r].MintBurn?
    ensures MintCalm(z, r, f)
  {}

  lemma DiscloseIsCalm(s: State, r: nat, m: Mint, t: Id, f: Id, z: State)
    requires r in s.reqs && s.reqs[r] == MintDisclose(m, t) && MintCalm(s, r, f) && Inserted(s, r, m, t)
    requires z.db == s.db && z.log.parent == s.log.parent && r in z.reqs && z.reqs[r] == Done(Issued(t))
    ensures MintCalm(z, r, f)
  {}

  lemma NotMintingIsCalm(z: State, r: nat, f: Id)
    requires r in z.reqs && !BeforeFinal(z.reqs[r]) && !AfterFinal(z.reqs[r])
    requires z.reqs[r].Done? ==> !z.reqs[r].outcome.Issued?
    ensures MintCalm(z, r, f)
  {}

  lemma OnlyMintsIssue(cfg: Config, db: Db, q: Request, now: int)
    requires !q.Done? && !Minting(q)
    ensures var after := Decide(cfg, db, q, now).after;
      after.MintInsert? || (!Minting(after) && (after.Done? ==> !after.outcome.Issued?))
  {}

  lemma OwnInsertStaysCalm(s: State, r: nat, now: int, f: Id)
    requires Tables(s) && Enabled(s, Advance(r, now)) && s.reqs[r].MintInsert? && MintCalm(s, r, f)
    ensures MintCalm(After(s, Advance(r, now)), r, f)
  {
    NextIsFresh(s);
    var m := s.reqs[r].m;
    InsertIsCalm(s, r, m, NewToken(s.cfg, m, now), f, After(s, Advance(r, now)));
  }

  lemma OwnFinalizeStaysCalm(s: State, r: nat, now: int, f: Id)
    requires Enabled(s, Advance(r, now)) && s.reqs[r].MintFinalize? && MintCalm(s, r, f)
    ensures MintCalm(After(s, Advance(r, now)), r, f)
  {
    FinalizeIsCalm(s, r, s.reqs[r].m, s.reqs[r].token, f, After(s, Advance(r, now)));
  }

  lemma OwnCheckStaysCalm(s: State, r: nat, now: int, f: Id)
    requires Enabled(s, Advance(r, now)) && AfterFinal(s.reqs[r]) && !s.reqs[r].MintDisclose? && MintCalm(s, r, f)
    ensures MintCalm(After(s, Advance(r, now)), r, f)
  {
    CheckIsCalm(s, r, f, After(s, Advance(r, now)));
  }

  lemma OwnEndStaysCalm(s: State, r: nat, now: int, f: Id)
    requires Enabled(s, Advance(r, now)) && (s.reqs[r].MintDisclose? || s.reqs[r].MintBurn?) && MintCalm(s, r, f)
    requires Inserted(s, r, s.reqs[r].m, s.reqs[r].token)
    ensures MintCalm(After(s, Advance(r, now)), r, f)
  {
    var q := s.reqs[r];
    if q.MintDisclose? {
      DiscloseIsCalm(s, r, q.m, q.token, f, After(s, Advance(r, now)));
    } else {
      NotMintingIsCalm(After(s, Advance(r, now)), r, f);
    }
  }

  /** A claim leaves its source claimed, and the mint's own steps take it from there to its final state. */
  lemma OwnStaysCalm(s: State, r: nat, now: int, f: Id)
    requires Tables(s) && Enabled(s, Advance(r, now)) && MintCalm(s, r, f) && RequestOk(s, r, s.reqs[r])
    ensures MintCalm(After(s, Advance(r, now)), r, f)
  {
    var q := s.reqs[r];
    var z := After(s, Advance(r, now));
    if q.MintInsert? {
      OwnInsertStaysCalm(s, r, now, f);
    } else if q.MintFinalize? {
      OwnFinalizeStaysCalm(s, r, now, f);
    } else if q.MintDisclose? || q.MintBurn? {
      OwnEndStaysCalm(s, r, now, f);
    } else if Minting(q) {
      OwnCheckStaysCalm(s, r, now, f);
    } else {
      OnlyMintsIssue(s.cfg, s.db, q, now);
      DecideIsSensible(s.cfg, s.db, q, now);
      if z.reqs[r].MintInsert? {
        ClaimIsCalm(s, r, q, Decide(s.cfg, s.db, q, now), z, f);
      } else {
        NotMintingIsCalm(z, r, f);
      }
    }
  }

  lemma CalmAtArrival(s: State, r: nat, q: Request, f: Id)
    requires Calm(s, f) && Enabled(s, Arrive(r, q))
    ensures Calm(After(s, Arrive(r, q)), f)
  {
    var z := After(s, Arrive(r, q));
    if f !in z.log.touched {
      forall o | o in z.reqs ensures MintCalm(z, o, f) { assert o != r ==> MintCalm(s, o, f); }
    }
  }

  lemma MintsStayCalm(s: State, r: nat, now: int, f: Id)
    requires Inv(s) && Calm(s, f) && Enabled(s, Advance(r, now))
    requires f !in s.log.touched && f !in After(s, Advance(r, now)).log.touched
    ensures forall o :: o in After(s, Advance(r, now)).reqs ==> MintCalm(After(s, Advance(r, now)), o, f)
  {
    StepPreserves(s, r, now);
    forall o | o in After(s, Advance(r, now)).reqs ensures MintCalm(After(s, Advance(r, now)), o, f) {
      assert MintCalm(s, o, f);
      assert RequestOk(s, o, s.reqs[o]);
      if o == r { OwnStaysCalm(s, r, now, f); } else { OthersStayCalm(s, r, now, f, o); }
    }
  }

  lemma CalmStep(s: State, e: Event, f: Id)
    requires Inv(s) && Calm(s, f) && Enabled(s, e)
    ensures Inv(After(s, e)) && Calm(After(s, e), f)
  {
    TouchedGrows(s, e);
    match e
    case Arrive(r, q) =>
      ArrivalPreserves(s, r, q);
      CalmAtArrival(s, r, q, f);
    case Advance(r, now) =>
      StepPreserves(s, r, now);
      if f !in After(s, e).log.touched {
        UnmarkedStays(s, r, now, f);
        MintsStayCalm(s, r, now, f);
      }
  }

  lemma {:induction false} CalmRun(s: State, run: seq<Event>, f: Id)
    requires Inv(s) && Calm(s, f) && Possible(s, run)
    ensures Inv(Exec(s, run)) && Calm(Exec(s, run), f) && s.log.touched <= Exec(s, run).log.touched
    decreases |run|
  {
    if run != [] {
      CalmStep(s, run[0], f);
      TouchedGrows(s, run[0]);
      CalmRun(After(s, run[0]), run[1..], f);
    }
  }

  // -- the winner ----------------------------------------------------------------------------------

  /** The mint `m` of request `r` is on its way and has not been turned back. */
  predicate InFlight(s: State, r: nat, m: Mint) {
    r in s.reqs && (BeforeFinal(s.reqs[r]) || AfterFinal(s.reqs[r])) && s.reqs[r].m == m
  }

  /** It has answered with its token, whose source is finalized. */
  ghost predicate Delivered(s: State, r: nat, m: Mint) {
    && r in s.reqs && s.reqs[r].Done? && s.reqs[r].outcome.Issued?
    && var t := s.reqs[r].outcome.token;
       && t in s.log.disclosed && t in s.log.parent && t in s.db.tokens
       && s.log.parent[t] == m.source
       && s.db.tokens[t].family == m.family
       && SourceIs(s, m.source, Exchanged, Rotated)
  }

  lemma ChecksPass(s: State, r: nat, m: Mint, now: int)
    requires Enabled(s, Advance(r, now)) && InFlight(s, r, m)
    requires Unmarked(s, m.family) && MintCalm(s, r, m.family) && GrantActive(s.db, m.bind)
    ensures var z := After(s, Advance(r, now));
      InFlight(z, r, m) || (s.reqs[r].MintDisclose? && z.reqs[r] == Done(Issued(s.reqs[r].token)))
  {}

  lemma WinnerDelivers(s: State, r: nat, m: Mint, now: int)
    requires Tables(s) && Enabled(s, Advance(r, now)) && InFlight(s, r, m)
    requires s.reqs[r].MintDisclose? && Inserted(s, r, m, s.reqs[r].token)
    requires SourceIs(s, m.source, Exchanged, Rotated)
    ensures Delivered(After(s, Advance(r, now)), r, m)
  {}

  lemma WinnerStep(s: State, r: nat, m: Mint, now: int)
    requires Inv(s) && Calm(s, m.family) && Enabled(s, Advance(r, now)) && InFlight(s, r, m)
    requires m.family !in After(s, Advance(r, now)).log.touched && GrantActive(s.db, m.bind)
    ensures InFlight(After(s, Advance(r, now)), r, m) || Delivered(After(s, Advance(r, now)), r, m)
  {
    TouchedGrows(s, Advance(r, now));
    assert MintCalm(s, r, m.family);
    if s.reqs[r].MintDisclose? {
      assert RequestOk(s, r, s.reqs[r]);
      WinnerDelivers(s, r, m, now);
    } else {
      ChecksPass(s, r, m, now);
    }
  }

  /** The grant is active in every state the run passes through. */
  predicate Granted(s: State, run: seq<Event>, bind: Binding)
    requires Possible(s, run)
    decreases |run|
  {
    GrantActive(s.db, bind) && (run != [] ==> Granted(After(s, run[0]), run[1..], bind))
  }

  lemma DeliveredStays(s: State, z: State, r: nat, a: nat, m: Mint)
    requires Delivered(s, r, m) && Evolves(s, z, a) && a != r
    requires r in z.reqs && MintCalm(z, r, m.family)
    ensures Delivered(z, r, m)
  {
    TokenStays(s, z, s.reqs[r].outcome.token, m.family);
  }

  lemma WinnerEvent(s: State, e: Event, r: nat, m: Mint)
    requires Inv(s) && Calm(s, m.family) && Enabled(s, e) && GrantActive(s.db, m.bind)
    requires InFlight(s, r, m) || Delivered(s, r, m)
    requires m.family !in After(s, e).log.touched
    ensures InFlight(After(s, e), r, m) || Delivered(After(s, e), r, m)
  {
    if Delivered(s, r, m) {
      if e.Advance? {
        StepPreserves(s, e.r, e.now);
        CalmStep(s, e, m.family);
        assert MintCalm(After(s, e), r, m.family);
        DeliveredStays(s, After(s, e), r, e.r, m);
      }
    } else if e.Advance? && e.r == r {
      WinnerStep(s, r, m, e.now);
    }
  }

  lemma {:induction false} WinnerRun(s: State, run: seq<Event>, r: nat, m: Mint)
    requires Inv(s) && Calm(s, m.family) && Possible(s, run) && Granted(s, run, m.bind)
    requires InFlight(s, r, m) || Delivered(s, r, m)
    requires m.family !in Exec(s, run).log.touched
    ensures InFlight(Exec(s, run), r, m) || Delivered(Exec(s, run), r, m)
    decreases |run|
  {
    if run != [] {
      CalmStep(s, run[0], m.family);
      CalmRun(After(s, run[0]), run[1..], m.family);
      WinnerEvent(s, run[0], r, m);
      WinnerRun(After(s, run[0]), run[1..], r, m);
    }
  }

  /**
   However the run continues, as long as nothing intervenes in the family and the grant stays active, the
   request that won the claim is still minting or has disclosed its token and finalized its source.
   */
  lemma WinnerIsNeverTurnedBack(cfg: Config, before: seq<Event>, after: seq<Event>, r: nat, m: Mint)
    requires Possible(Start(cfg), before)
    requires var s := Exec(Start(cfg), before);
      && r in s.reqs && s.reqs[r] == MintInsert(m)
      && Possible(s, after) && Granted(s, after, m.bind)
      && m.family !in Exec(s, after).log.touched
    ensures var z := Exec(Exec(Start(cfg), before), after); InFlight(z, r, m) || Delivered(z, r, m)
  {
    StartSatisfies(cfg);
    CalmRun(Start(cfg), before, m.family);
    WinnerRun(Exec(Start(cfg), before), after, r, m);
  }

  /** How many of its own steps an unhindered mint still needs. */
  function StepsLeft(q: Request): nat {
    match q
    case MintInsert(_) => 6
    case MintFinalize(_, _) => 5
    case MintScanCodes(_, _) => 4
    case MintScanTokens(_, _) => 3
    case MintGrant(_, _) => 2
    case MintDisclose(_, _) => 1
    case _ => 0
  }

  lemma UnhinderedStep(s: State, r: nat, m: Mint, now: int)
    requires Enabled(s, Advance(r, now)) && InFlight(s, r, m)
    ensures var z := After(s, Advance(r, now));
      && z.log.touched == s.log.touched
      && z.db.consents == s.db.consents
      && StepsLeft(z.reqs[r]) < StepsLeft(s.reqs[r])
  {}

  /** And it needs at most six undisturbed steps to get there, so the winner can always finish. */
  lemma {:induction false} WinnerFinishes(s: State, r: nat, m: Mint, now: int) returns (run: seq<Event>)
    requires Inv(s) && Calm(s, m.family) && m.family !in s.log.touched && GrantActive(s.db, m.bind)
    requires InFlight(s, r, m) || Delivered(s, r, m)
    ensures |run| <= StepsLeft(s.reqs[r])
    ensures Possible(s, run) && Delivered(Exec(s, run), r, m)
    decreases StepsLeft(s.reqs[r])
  {
    if Delivered(s, r, m) {
      run := [];
    } else {
      var e := Advance(r, now);
      UnhinderedStep(s, r, m, now);
      WinnerStep(s, r, m, now);
      CalmStep(s, e, m.family);
      var rest := WinnerFinishes(After(s, e), r, m, now);
      Prepend(s, e, rest);
      run := [e] + rest;
    }
  }

  // -- the losers -----------------------------------------------------------------------------------

  /** A request that read the unclaimed state and has not won its claim. */
  predicate Contending(q: Request) {
    q.ExchangeGrant? || q.ExchangeClaim? || q.RefreshGrant? || q.RefreshClaim?
  }

  lemma ContendersOnlyRead(cfg: Config, db: Db, q: Request, now: int)
    requires Contending(q)
    ensures var move := Decide(cfg, db, q, now);
      move.after.MintInsert? || (move.write == Nothing && (Contending(move.after) || move.after.Done?))
  {}

  /** Every step request `r` itself takes in the run leaves the tables as they were. */
  predicate WritesNothing(s: State, run: seq<Event>, r: nat)
    requires Possible(s, run)
    decreases |run|
  {
    run == [] ||
    (&& (run[0].Advance? && run[0].r == r ==> After(s, run[0]).db == s.db)
     && WritesNothing(After(s, run[0]), run[1..], r))
  }

  lemma {:induction false} DoneWritesNothing(s: State, run: seq<Event>, r: nat)
    requires Possible(s, run) && r in s.reqs && s.reqs[r].Done?
    ensures WritesNothing(s, run, r) && Exec(s, run).reqs.Keys >= {r} && Exec(s, run).reqs[r] == s.reqs[r]
    decreases |run|
  {
    if run != [] { DoneWritesNothing(After(s, run[0]), run[1..], r); }
  }

  lemma {:induction false} MintsNeverLose(s: State, run: seq<Event>, r: nat)
    requires Possible(s, run) && r in s.reqs && Minting(s.reqs[r])
    ensures r in Exec(s, run).reqs && (var q := Exec(s, run).reqs[r]; q != Done(LostClaim))
    decreases |run|
  {
    if run != [] {
      var z := After(s, run[0]);
      if z.reqs[r].Done? { DoneWritesNothing(z, run[1..], r); } else { MintsNeverLose(z, run[1..], r); }
    }
  }

  /** A request that loses the claim to a concurrent one changes nothing, so losing is never mistaken for a replay. */
  lemma {:induction false} LoserWritesNothing(s: State, run: seq<Event>, r: nat)
    requires Possible(s, run) && r in s.reqs && Contending(s.reqs[r])
    requires r in Exec(s, run).reqs && Exec(s, run).reqs[r] == Done(LostClaim)
    ensures WritesNothing(s, run, r)
    decreases |run|
  {
    if run != [] {
      var z := After(s, run[0]);
      if run[0].Advance? && run[0].r == r {
        ContendersOnlyRead(s.cfg, s.db, s.reqs[r], run[0].now);
        if Minting(z.reqs[r]) { MintsNeverLose(z, run[1..], r); }
      }
      if z.reqs[r].Done? { DoneWritesNothing(z, run[1..], r); } else { LoserWritesNothing(z, run[1..], r); }
    }
  }
}
