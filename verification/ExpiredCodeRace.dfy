/**
 The state in which the burn of a replayed code is lost, reached from the empty database by a run on one clock:
 a request that read the code in time exchanges it, another that read it late is suspended at its delete, a
 rotation is suspended before its insert, and a replay has been answered. `CodeRows` says how it goes on.
 */
module ExpiredCodeRace {
  import opened Wrappers
  import opened OAuthStore
  import opened OAuthMachine
  import opened OAuthPreservation
  import opened CodeRows
  import opened LostBurn

  const CLIENT := Client(7, true, true, false)
  const CONFIG := Config(map[7 := CLIENT], None, Off, 10, 3600, 86400)
  const OWNER := Owner(5, 7)
  const BIND := Binding(OWNER, 0, None, {}, None)
  const PENDING := Pending(OWNER, {}, 1, 2, None, None)
  const EXCHANGE := Exchange(CLIENT, 1, 1, Some(2), [], None)
  const REFRESH := Refresh(CLIENT, 3, None, [], None)
  const FIRST_MINT := Mint(FromCode(1), 2, BIND, CLIENT)
  const SECOND_MINT := Mint(FromToken(3), 2, BIND, CLIENT)

  function CodeRow(used: CodeState, family: Option<Id>): Code { Code(BIND, 1, 2, used, family, 10) }

  function TokenRow(state: TokenState): Token { Token(BIND, 2, 3620, Some(86420), state) }

  function Tables(codes: map<Id, Code>, tokens: map<Id, Token>, next: Id): Db {
    Db(codes, tokens, map[OWNER := Consent(0, {}, false)], next)
  }

  /** The run reads a clock that never goes back and now stands at `clock`. */
  ghost predicate OneClock(run: seq<Event>, clock: int) {
    && (forall i, j :: 0 <= i < j < |run| && run[i].Advance? && run[j].Advance? ==> run[i].now <= run[j].now)
    && (forall i :: 0 <= i < |run| && run[i].Advance? ==> run[i].now <= clock)
  }

  /** One clock, and only disclosed refresh tokens presented. */
  ghost predicate At(run: seq<Event>, s: State, clock: int) {
    HonestlyLeads(Start(CONFIG), run, s) && OneClock(run, clock)
  }

  lemma AtIsReachable(run: seq<Event>, s: State, clock: int)
    requires At(run, s, clock)
    ensures HonestlyReachable(s) && IsReachable(s)
  {
    SameConfig(Start(CONFIG), run);
  }

  lemma Then(run: seq<Event>, s: State, clock: int, e: Event) returns (longer: seq<Event>, z: State)
    requires At(run, s, clock) && Enabled(s, e) && HonestEvent(s, e) && (e.Advance? ==> e.now == clock)
    ensures At(longer, z, clock) && z == After(s, e)
  {
    OneEvent(s, e);
    assert [e][1..] == [] && Honest(s, [e]);
    HonestConcat(Start(CONFIG), run, [e]);
    longer, z := run + [e], After(s, e);
  }

  /** One step of request `r` with its move spelled out. */
  lemma Step(run: seq<Event>, s: State, r: nat, now: int, move: Move) returns (longer: seq<Event>, z: State)
    requires At(run, s, now) && Enabled(s, Advance(r, now)) && move == Decide(s.cfg, s.db, s.reqs[r], now)
    requires HonestEvent(s, Advance(r, now))
    ensures At(longer, z, now)
    ensures z == State(s.cfg, Apply(s.db, move.write), s.reqs[r := move.after], Record(s, r, s.reqs[r], move))
  {
    longer, z := Then(run, s, now, Advance(r, now));
  }

  /** Two reads in a row that lead to the second of the given program points. */
  lemma TwoReads(run: seq<Event>, s: State, r: nat, now: int, first: Request, second: Request)
    returns (longer: seq<Event>, z: State)
    requires At(run, s, now) && r in s.reqs && !s.reqs[r].Done? && !first.Done? && !Intervenes(s.reqs[r])
    requires !s.reqs[r].MintInsert? && !s.reqs[r].MintDisclose? && !first.MintInsert? && !first.MintDisclose?
    requires !Intervenes(first) && !first.RefreshFind? && HonestEvent(s, Advance(r, now))
    requires Decide(s.cfg, s.db, s.reqs[r], now) == Read(first) && Decide(s.cfg, s.db, first, now) == Read(second)
    ensures At(longer, z, now) && z == s.(reqs := s.reqs[r := second])
  {
    var middle;
    longer, middle := Step(run, s, r, now, Read(first));
    longer, z := Step(longer, middle, r, now, Read(second));
  }

  /** The four closing checks of a mint that finds no marker and an active grant. */
  lemma ChecksPass(run: seq<Event>, s: State, r: nat, now: int, m: Mint, t: Id) returns (longer: seq<Event>, z: State)
    requires At(run, s, now) && r in s.reqs && s.reqs[r] == MintScanCodes(m, t)
    requires !CodeReplayed(s.db, m.family) && !TokenMarked(s.db, m.family) && GrantActive(s.db, m.bind)
    ensures At(longer, z, now) && z.cfg == s.cfg && z.db == s.db
    ensures z.reqs == s.reqs[r := Done(Issued(t))] && z.log.disclosed == s.log.disclosed + {t}
  {
    var half;
    longer, half := TwoReads(run, s, r, now, MintScanTokens(m, t), MintGrant(m, t));
    longer, z := GrantPasses(longer, half, r, now, m, t);
  }

  lemma GrantPasses(run: seq<Event>, s: State, r: nat, now: int, m: Mint, t: Id) returns (longer: seq<Event>, z: State)
    requires At(run, s, now) && r in s.reqs && s.reqs[r] == MintGrant(m, t) && GrantActive(s.db, m.bind)
    ensures At(longer, z, now) && z.cfg == s.cfg && z.db == s.db
    ensures z.reqs == s.reqs[r := Done(Issued(t))] && z.log.disclosed == s.log.disclosed + {t}
  {
    var last;
    longer, last := Step(run, s, r, now, Read(MintDisclose(m, t)));
    longer, z := Step(longer, last, r, now, Read(Done(Issued(t))));
  }

  lemma ConsentAsked() returns (run: seq<Event>, s: State)
    ensures At(run, s, 0) && s.cfg == CONFIG && s.db == Start(CONFIG).db
    ensures s.reqs == map[0 := GrantCreate(PENDING)] && s.log.disclosed == {}
  {
    run, s := [], Start(CONFIG);
    run, s := Then(run, s, 0, Arrive(0, GrantFind(PENDING)));
    run, s := Step(run, s, 0, 0, Read(GrantCreate(PENDING)));
  }

  /** A consent is given and a code, row 1, is issued; it expires at time 10. */
  lemma ConsentGiven() returns (run: seq<Event>, s: State)
    ensures At(run, s, 0) && s.cfg == CONFIG && s.db == Tables(map[], map[], 1)
    ensures s.reqs == map[0 := GrantCode(PENDING, 0)] && s.log.disclosed == {}
  {
    run, s := ConsentAsked();
    run, s := Step(run, s, 0, 0, Move(PutConsent(OWNER, Consent(0, {}, false)), GrantCode(PENDING, 0)));
  }

  lemma CodeIssued() returns (run: seq<Event>, s: State)
    ensures At(run, s, 0) && s.cfg == CONFIG && s.db == Tables(map[1 := CodeRow(Unused, None)], map[], 2)
    ensures s.reqs == map[0 := Done(Authorized(1))] && s.log.disclosed == {}
  {
    run, s := ConsentGiven();
    run, s := Step(run, s, 0, 0, Move(InsertCode(CodeRow(Unused, None)), Done(Authorized(1))));
  }

  /** Request 1 reads the code in time, request 2 after its expiry. */
  lemma ReadTwice() returns (run: seq<Event>, s: State)
    ensures At(run, s, 20) && s.cfg == CONFIG && s.db == Tables(map[1 := CodeRow(Unused, None)], map[], 2)
    ensures s.reqs.Keys == {0, 1, 2} && s.log.disclosed == {}
    ensures s.reqs[1] == ExchangeGrant(EXCHANGE, CodeRow(Unused, None)) && s.reqs[2] == ExchangeDelete(1)
  {
    run, s := CodeIssued();
    run, s := Then(run, s, 0, Arrive(1, ExchangeFind(EXCHANGE)));
    run, s := Then(run, s, 0, Arrive(2, ExchangeFind(EXCHANGE)));
    run, s := Step(run, s, 1, 0, Read(ExchangeGrant(EXCHANGE, CodeRow(Unused, None))));
    run, s := Step(run, s, 2, 20, Read(ExchangeDelete(1)));
  }

  lemma CodeChecked() returns (run: seq<Event>, s: State)
    ensures At(run, s, 20) && s.cfg == CONFIG && s.db == Tables(map[1 := CodeRow(Unused, None)], map[], 2)
    ensures s.reqs.Keys == {0, 1, 2} && s.log.disclosed == {}
    ensures s.reqs[1] == ExchangeClaim(EXCHANGE, CodeRow(Unused, None), None) && s.reqs[2] == ExchangeDelete(1)
  {
    run, s := ReadTwice();
    run, s := Step(run, s, 1, 20, Read(ExchangeClaim(EXCHANGE, CodeRow(Unused, None), None)));
  }

  /** Request 1 claims the code and opens family 2. */
  lemma CodeClaimed() returns (run: seq<Event>, s: State)
    ensures At(run, s, 20) && s.cfg == CONFIG && s.db == Tables(map[1 := CodeRow(Claimed, Some(2))], map[], 3)
    ensures s.reqs.Keys == {0, 1, 2} && s.log.disclosed == {}
    ensures s.reqs[1] == MintInsert(FIRST_MINT) && s.reqs[2] == ExchangeDelete(1)
  {
    run, s := CodeChecked();
    run, s := Step(run, s, 1, 20, Move(ClaimCode(1), MintInsert(FIRST_MINT)));
  }

  lemma FirstTokenInserted() returns (run: seq<Event>, s: State)
    ensures At(run, s, 20) && s.cfg == CONFIG
    ensures s.db == Tables(map[1 := CodeRow(Claimed, Some(2))], map[3 := TokenRow(Active)], 4)
    ensures s.reqs.Keys == {0, 1, 2} && s.log.disclosed == {}
    ensures s.reqs[1] == MintFinalize(FIRST_MINT, 3) && s.reqs[2] == ExchangeDelete(1)
  {
    run, s := CodeClaimed();
    run, s := Step(run, s, 1, 20, Move(InsertToken(TokenRow(Active)), MintFinalize(FIRST_MINT, 3)));
  }

  lemma FirstTokenFinalized() returns (run: seq<Event>, s: State)
    ensures At(run, s, 20) && s.cfg == CONFIG
    ensures s.db == Tables(map[1 := CodeRow(Exchanged, Some(2))], map[3 := TokenRow(Active)], 4)
    ensures s.reqs.Keys == {0, 1, 2} && s.log.disclosed == {}
    ensures s.reqs[1] == MintScanCodes(FIRST_MINT, 3) && s.reqs[2] == ExchangeDelete(1)
  {
    run, s := FirstTokenInserted();
    run, s := Step(run, s, 1, 20, Move(SetCodes({1}, Exchanged), MintScanCodes(FIRST_MINT, 3)));
  }

  /** It mints, passes its checks and discloses token 3. */
  lemma FirstTokenDisclosed() returns (run: seq<Event>, s: State)
    ensures At(run, s, 20) && s.cfg == CONFIG
    ensures s.db == Tables(map[1 := CodeRow(Exchanged, Some(2))], map[3 := TokenRow(Active)], 4)
    ensures s.reqs.Keys == {0, 1, 2} && s.log.disclosed == {3} && s.reqs[2] == ExchangeDelete(1)
  {
    run, s := FirstTokenFinalized();
    run, s := ChecksPass(run, s, 1, 20, FIRST_MINT, 3);
  }

  lemma RotationChecked() returns (run: seq<Event>, s: State)
    ensures At(run, s, 20) && s.cfg == CONFIG
    ensures s.db == Tables(map[1 := CodeRow(Exchanged, Some(2))], map[3 := TokenRow(Active)], 4)
    ensures s.reqs.Keys == {0, 1, 2, 3} && s.log.disclosed == {3} && s.reqs[2] == ExchangeDelete(1)
    ensures s.reqs[3] == RefreshClaim(REFRESH, TokenRow(Active), {}, None)
  {
    run, s := FirstTokenDisclosed();
    run, s := Then(run, s, 20, Arrive(3, RefreshFind(REFRESH)));
    run, s := TwoReads(
      run, s, 3, 20, RefreshGrant(REFRESH, TokenRow(Active)), RefreshClaim(REFRESH, TokenRow(Active), {}, None));
  }

  /** Request 3 starts to rotate token 3 and is suspended before its insert. */
  lemma RotationClaimed() returns (run: seq<Event>, s: State)
    ensures At(run, s, 20) && s.cfg == CONFIG
    ensures s.db == Tables(map[1 := CodeRow(Exchanged, Some(2))], map[3 := TokenRow(Rotating)], 4)
    ensures s.reqs.Keys == {0, 1, 2, 3} && s.log.disclosed == {3}
    ensures s.reqs[2] == ExchangeDelete(1) && s.reqs[3] == MintInsert(SECOND_MINT)
  {
    run, s := RotationChecked();
    run, s := Step(run, s, 3, 20, Move(SetTokens({3}, Rotating), MintInsert(SECOND_MINT)));
  }

  lemma CodePresentedAgain() returns (run: seq<Event>, s: State)
    ensures At(run, s, 20) && s.cfg == CONFIG
    ensures s.db == Tables(map[1 := CodeRow(Exchanged, Some(2))], map[3 := TokenRow(Rotating)], 4)
    ensures s.reqs.Keys == {0, 1, 2, 3, 4} && s.log.disclosed == {3}
    ensures s.reqs[2] == ExchangeDelete(1) && s.reqs[3] == MintInsert(SECOND_MINT)
    ensures s.reqs[4] == ExchangeMarkClaimed(1, 2)
  {
    run, s := RotationClaimed();
    run, s := Then(run, s, 20, Arrive(4, ExchangeFind(EXCHANGE)));
    run, s := Step(run, s, 4, 20, Read(ExchangeMarkClaimed(1, 2)));
  }

  /** Request 4 presents the spent code again and finds it exchanged. */
  lemma CodeReplayedAgain() returns (run: seq<Event>, s: State)
    ensures At(run, s, 20) && s.cfg == CONFIG
    ensures s.db == Tables(map[1 := CodeRow(Exchanged, Some(2))], map[3 := TokenRow(Rotating)], 4)
    ensures s.reqs.Keys == {0, 1, 2, 3, 4} && s.log.disclosed == {3}
    ensures s.reqs[2] == ExchangeDelete(1) && s.reqs[3] == MintInsert(SECOND_MINT)
    ensures s.reqs[4] == ExchangeMarkExchanged(1, 2)
  {
    run, s := CodePresentedAgain();
    run, s := Step(run, s, 4, 20, Move(SetCodes({}, Replayed), ExchangeMarkExchanged(1, 2)));
  }

  lemma ReplayMarked() returns (run: seq<Event>, s: State)
    ensures At(run, s, 20) && s.cfg == CONFIG
    ensures s.db == Tables(map[1 := CodeRow(Replayed, Some(2))], map[3 := TokenRow(Rotating)], 4)
    ensures s.reqs.Keys == {0, 1, 2, 3, 4} && s.log.disclosed == {3}
    ensures s.reqs[2] == ExchangeDelete(1) && s.reqs[3] == MintInsert(SECOND_MINT) && s.reqs[4] == ExchangeBurn(1, 2)
  {
    run, s := CodeReplayedAgain();
    run, s := Step(run, s, 4, 20, Move(SetCodes({1}, Replayed), ExchangeBurn(1, 2)));
  }

  /** The replay is answered; it finds no active row, because the rotation has not inserted its token yet. */
  lemma ReplayAnswered() returns (run: seq<Event>, s: State)
    ensures At(run, s, 20) && s.cfg == CONFIG
    ensures s.db == Tables(map[1 := CodeRow(Replayed, Some(2))], map[3 := TokenRow(Rotating)], 4)
    ensures s.reqs.Keys == {0, 1, 2, 3, 4} && s.reqs[2] == ExchangeDelete(1)
    ensures s.reqs[3] == MintInsert(SECOND_MINT) && s.reqs[4] == Done(ReplayedCode(1, 2))
  {
    run, s := ReplayMarked();
    assert ActiveIn(s.db, 2) == {};
    run, s := Step(run, s, 4, 20, Move(SetTokens({}, Rotating), Done(ReplayedCode(1, 2))));
  }

  lemma Extend(before: seq<Event>, s: State, rest: seq<Event>, clock: int)
    requires At(before, s, clock) && Possible(s, rest) && forall e :: e in rest && e.Advance? ==> e.now == clock
    requires WithoutLookups(s, rest)
    ensures At(before + rest, Exec(s, rest), clock)
  {
    WithoutLookupsIsHonest(s, rest);
    HonestConcat(Start(CONFIG), before, rest);
    assert forall i :: |before| <= i < |before + rest| ==> (before + rest)[i] in rest;
  }

  /** From there the burn is lost: the replay has been answered, and a disclosed token of the family is active. */
  lemma DeletedMarkerLosesTheBurn() returns (run: seq<Event>, s: State)
    ensures At(run, s, 20)
    ensures 4 in s.reqs && s.reqs[4] == Done(ReplayedCode(1, 2))
    ensures 4 in s.log.disclosed && 4 in s.db.tokens
    ensures s.db.tokens[4].family == 2 && s.db.tokens[4].state == Active
  {
    var before, m := ReplayAnswered();
    AtIsReachable(before, m, 20);
    var rest := PendingDeleteLosesTheBurn(m, 1, 2, 2, 3, 20);
    Extend(before, m, rest, 20);
    run, s := before + rest, Exec(m, rest);
  }
}
