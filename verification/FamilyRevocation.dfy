/**
 Why a burned family or a revoked grant stays dead in every interleaving: once a barrier is up and the
 active rows behind it are cleared, the only rows that become active behind it again belong to mints
 that still have the check reading that barrier in front of them.
 */
module FamilyRevocation {
  import opened Wrappers
  import opened OAuthStore
  import opened OAuthMachine
  import opened OAuthInvariant
  import opened OAuthPreservation

  /** The durable fact a reaction leaves behind: a replayed code, a marked token row, a later grant. */
  datatype Barrier =
    | CodeBarrier(code: Id, family: Id)
    | TokenBarrier(token: Id, family: Id)
    | GrantBarrier(owner: Owner, grant: Id)

  ghost predicate Raised(s: State, b: Barrier) {
    match b
    case CodeBarrier(c, f) => OriginIs(s, c, f) && c in s.db.codes && s.db.codes[c].used == Replayed
    case TokenBarrier(t, f) => MarkedToken(s, t, f)
    case GrantBarrier(o, g) => Superseded(s, o, g)
  }

  /** The rows the barrier is meant to kill. */
  predicate Behind(b: Barrier, row: Token) {
    match b
    case CodeBarrier(_, f) => row.family == f
    case TokenBarrier(_, f) => row.family == f
    case GrantBarrier(o, g) => row.bind.owner == o && row.bind.grant <= g
  }

  /** This mint has not yet passed the check that reads the barrier, or is already burning. */
  predicate Unchecked(b: Barrier, q: Request) {
    || q.MintFinalize? || q.MintScanCodes? || q.MintBurn?
    || (!b.CodeBarrier? && q.MintScanTokens?)
    || (b.GrantBarrier? && q.MintGrant?)
  }

  ghost predicate Doomed(s: State, b: Barrier, t: Id) {
    && t in s.log.minter && s.log.minter[t] in s.reqs
    && Holds(s.reqs[s.log.minter[t]], t)
    && Unchecked(b, s.reqs[s.log.minter[t]])
  }

  /** The barrier is up, and every active row behind it belongs to a mint that cannot disclose it. */
  ghost predicate Quiet(s: State, b: Barrier) {
    && Raised(s, b)
    && (forall t :: IsActive(s, t) && Behind(b, s.db.tokens[t]) ==> Doomed(s, b, t))
  }

  /** The row that bears the marker is still there. Token and consent rows are never deleted. */
  predicate Standing(s: State, b: Barrier) {
    b.CodeBarrier? ==> b.code in s.db.codes
  }

  lemma QuietDisclosesNothingActive(s: State, b: Barrier, t: Id)
    requires Inv(s) && Quiet(s, b) && t in s.log.disclosed && Behind(b, s.db.tokens[t])
    ensures s.db.tokens[t].state != Active
  {
    assert TokenOk(s, t);
    var r := s.log.minter[t];
    assert RequestOk(s, r, s.reqs[r]);
    assert IsActive(s, t) ==> Doomed(s, b, t);
  }

  // -- a barrier stays up -----------------------------------------------------------------------

  lemma RaisedStays(s: State, r: nat, z: State, b: Barrier)
    requires Tables(s) && Evolves(s, z, r) && Raised(s, b)
    requires b.CodeBarrier? ==> b.code in z.db.codes
    ensures Raised(z, b)
  {
    match b
    case CodeBarrier(c, f) => CodeStays(s, z, r, c, f);
    case TokenBarrier(t, f) => TokenStays(s, z, t, f);
    case GrantBarrier(o, g) =>
  }

  /** The check in front of a doomed mint fails, so its next step is another check or the burn. */
  lemma DoomedTurnsBack(s: State, b: Barrier, q: Request, r: nat, now: int)
    requires Tables(s) && Raised(s, b)
    requires Minting(q) && !q.MintInsert? && !q.MintBurn? && Unchecked(b, q)
    requires Inserted(s, r, q.m, q.token) && Behind(b, s.db.tokens[q.token])
    ensures var after := DecideMint(s.cfg, s.db, q, now).after; Holds(after, q.token) && Unchecked(b, after)
  {
    if b.CodeBarrier? {
      assert OriginOk(s, b.family);
    }
  }

  lemma QuietStays(s: State, r: nat, now: int, b: Barrier)
    requires Inv(s) && Quiet(s, b) && Enabled(s, Advance(r, now))
    requires Standing(After(s, Advance(r, now)), b)
    ensures Quiet(After(s, Advance(r, now)), b)
  {
    var q := s.reqs[r];
    var z := After(s, Advance(r, now));
    StepPreserves(s, r, now);
    assert RequestOk(s, r, q);
    OkIsPrepared(s, r, q);
    DecideIsSensible(s.cfg, s.db, q, now);
    RaisedStays(s, r, z, b);
    forall t | IsActive(z, t) && Behind(b, z.db.tokens[t]) ensures Doomed(z, b, t) {
      ActiveRows(s, r, q, Decide(s.cfg, s.db, q, now), z, t);
      DoomedStays(s, r, now, b, t);
    }
  }

  lemma CodeRowStays(s: State, r: nat, now: int, c: Id)
    requires Enabled(s, Advance(r, now)) && c in s.db.codes && s.reqs[r] != ExchangeDelete(c)
    ensures c in After(s, Advance(r, now)).db.codes
  {
    OnlyDeletePointsDelete(s.cfg, s.db, s.reqs[r], now);
  }

  lemma OnlyDeletePointsDelete(cfg: Config, db: Db, q: Request, now: int)
    requires !q.Done?
    ensures var w := Decide(cfg, db, q, now).write; w.DeleteCode? ==> q == ExchangeDelete(w.gone)
  {}

  lemma DoomedStays(s: State, r: nat, now: int, b: Barrier, t: Id)
    requires Inv(s) && Quiet(s, b) && Enabled(s, Advance(r, now))
    requires var z := After(s, Advance(r, now));
      StillActive(s, s.reqs[r], Decide(s.cfg, s.db, s.reqs[r], now), z, t) && Behind(b, z.db.tokens[t])
    ensures Doomed(After(s, Advance(r, now)), b, t)
  {
    NextIsFresh(s);
    if t !in s.db.tokens {
      InsertedIsDoomed(s, r, now, b);
    } else {
      assert Doomed(s, b, t);
      if s.log.minter[t] == r {
        OwnDoomedStays(s, r, now, b, t);
      } else {
        OthersDoomedStay(s, r, now, b, t);
      }
    }
  }

  lemma InsertedIsDoomed(s: State, r: nat, now: int, b: Barrier)
    requires Enabled(s, Advance(r, now)) && s.reqs[r].MintInsert?
    ensures Doomed(After(s, Advance(r, now)), b, s.db.next)
  {}

  lemma OthersDoomedStay(s: State, r: nat, now: int, b: Barrier, t: Id)
    requires Enabled(s, Advance(r, now)) && Doomed(s, b, t) && s.log.minter[t] != r && t != s.db.next
    ensures Doomed(After(s, Advance(r, now)), b, t)
  {}

  lemma OwnDoomedStays(s: State, r: nat, now: int, b: Barrier, t: Id)
    requires Inv(s) && Raised(s, b) && Enabled(s, Advance(r, now)) && IsActive(s, t) && Behind(b, s.db.tokens[t])
    requires Holds(s.reqs[r], t) && Unchecked(b, s.reqs[r]) && t in s.log.minter && s.log.minter[t] == r
    requires StillActive(s, s.reqs[r], Decide(s.cfg, s.db, s.reqs[r], now), After(s, Advance(r, now)), t)
    ensures Doomed(After(s, Advance(r, now)), b, t)
  {
    assert RequestOk(s, r, s.reqs[r]);
    if !s.reqs[r].MintBurn? { DoomedTurnsBack(s, b, s.reqs[r], r, now); }
  }

  // -- a barrier goes up ------------------------------------------------------------------------

  /** The barrier a finished request has put up. */
  function BarrierOf(outcome: Outcome): Option<Barrier> {
    match outcome
    case ReplayedCode(c, f) => Some(CodeBarrier(c, f))
    case ReusedRefresh(t, f) => Some(TokenBarrier(t, f))
    case RevokedFamily(t, f) => Some(TokenBarrier(t, f))
    case RevokedGrant(o, g) => Some(GrantBarrier(o, g))
    case _ => None
  }

  ghost predicate Finished(s: State, r: nat, b: Barrier) {
    r in s.reqs && s.reqs[r].Done? && BarrierOf(s.reqs[r].outcome) == Some(b)
  }

  /** The last write of each reaction selects every active row behind its barrier. */
  ghost predicate Clears(db: Db, w: Write, b: Barrier) {
    && w.SetTokens? && w.state != Active
    && (forall t :: t in db.tokens && db.tokens[t].state == Active && Behind(b, db.tokens[t]) ==> t in w.tokens)
  }

  ghost predicate Reports(move: Move, b: Barrier) {
    move.after.Done? && BarrierOf(move.after.outcome) == Some(b)
  }

  lemma ExchangeClears(cfg: Config, db: Db, q: Request, now: int, b: Barrier)
    requires Exchanging(q) && Reports(DecideExchange(cfg, db, q, now), b)
    ensures q.ExchangeBurn? && b == CodeBarrier(q.code, q.family)
    ensures Clears(db, DecideExchange(cfg, db, q, now).write, b)
  {}

  lemma RefreshClears(cfg: Config, db: Db, q: Request, now: int, b: Barrier)
    requires Refreshing(q) && Reports(DecideRefresh(cfg, db, q, now), b)
    ensures !b.CodeBarrier? && Clears(db, DecideRefresh(cfg, db, q, now).write, b)
  {}

  lemma RevokeClears(db: Db, q: Request, b: Barrier)
    requires Revoking(q) && Reports(DecideRevoke(db, q), b)
    ensures !b.CodeBarrier? && Clears(db, DecideRevoke(db, q).write, b)
  {}

  lemma MintNeverReports(cfg: Config, db: Db, q: Request, now: int, b: Barrier)
    requires Minting(q) || Consenting(q)
    ensures !Reports(Decide(cfg, db, q, now), b)
  {}

  lemma FinishingClears(cfg: Config, db: Db, q: Request, now: int, b: Barrier)
    requires !q.Done? && Reports(Decide(cfg, db, q, now), b)
    ensures Clears(db, Decide(cfg, db, q, now).write, b)
    ensures b.CodeBarrier? ==> q == ExchangeBurn(b.code, b.family)
  {
    if Exchanging(q) { ExchangeClears(cfg, db, q, now, b); }
    else if Refreshing(q) { RefreshClears(cfg, db, q, now, b); }
    else if Revoking(q) { RevokeClears(db, q, b); }
    else { MintNeverReports(cfg, db, q, now, b); }
  }

  lemma ClearingLeavesNoneActive(db: Db, w: Write, b: Barrier)
    requires Clears(db, w, b)
    ensures var after := Apply(db, w).tokens;
      forall t :: t in after && after[t].state == Active ==> !Behind(b, after[t])
  {}

  lemma FinishingIsQuiet(s: State, r: nat, now: int, b: Barrier)
    requires Inv(s) && Enabled(s, Advance(r, now))
    requires Finished(After(s, Advance(r, now)), r, b) && Standing(After(s, Advance(r, now)), b)
    ensures Quiet(After(s, Advance(r, now)), b)
  {
    var q := s.reqs[r];
    var z := After(s, Advance(r, now));
    StepPreserves(s, r, now);
    FinishingClears(s.cfg, s.db, q, now, b);
    ClearingLeavesNoneActive(s.db, Decide(s.cfg, s.db, q, now).write, b);
    FinishingRaises(z, r, b);
  }

  lemma FinishingRaises(z: State, r: nat, b: Barrier)
    requires Requests(z) && Finished(z, r, b) && Standing(z, b)
    ensures Raised(z, b)
  {
    assert RequestOk(z, r, z.reqs[r]);
  }

  // -- every finished reaction is final ----------------------------------------------------------

  /** Every answered reaction holds, for as long as the row with its marker is stored. */
  ghost predicate AllQuiet(s: State) {
    forall r, b {:trigger Finished(s, r, b)} :: Finished(s, r, b) && Standing(s, b) ==> Quiet(s, b)
  }

  lemma AllQuietStep(s: State, e: Event)
    requires Inv(s) && AllQuiet(s) && Enabled(s, e)
    ensures Inv(After(s, e)) && AllQuiet(After(s, e))
  {
    var z := After(s, e);
    match e
    case Arrive(r, q) =>
      ArrivalPreserves(s, r, q);
      forall o, b | Finished(z, o, b) && Standing(z, b) ensures Quiet(z, b) {
        assert o != r && Finished(s, o, b);
        QuietAtArrival(s, r, q, b);
      }
    case Advance(r, now) =>
      StepPreserves(s, r, now);
      forall o, b | Finished(z, o, b) && Standing(z, b) ensures Quiet(z, b) {
        if o == r {
          FinishingIsQuiet(s, r, now, b);
        } else {
          assert Finished(s, o, b);
          StoodBefore(s, r, z, o, b);
          QuietStays(s, r, now, b);
        }
      }
  }

  /** A code row is never stored again under its id, so one that is stored now was stored before. */
  lemma StoodBefore(s: State, r: nat, z: State, o: nat, b: Barrier)
    requires Inv(s) && Evolves(s, z, r) && Finished(s, o, b) && Standing(z, b)
    ensures Standing(s, b)
  {
    assert RequestOk(s, o, s.reqs[o]);
    if b.CodeBarrier? { assert OriginOk(s, b.family); }
  }

  lemma QuietAtArrival(s: State, r: nat, q: Request, b: Barrier)
    requires Quiet(s, b) && Enabled(s, Arrive(r, q))
    ensures Quiet(After(s, Arrive(r, q)), b)
  {
    var z := After(s, Arrive(r, q));
    forall t | IsActive(z, t) && Behind(b, z.db.tokens[t]) ensures Doomed(z, b, t) {
      assert IsActive(s, t) && Doomed(s, b, t);
    }
  }

  lemma {:induction false} AllQuietRun(s: State, run: seq<Event>)
    requires Inv(s) && AllQuiet(s) && Possible(s, run)
    ensures Inv(Exec(s, run)) && AllQuiet(Exec(s, run))
    decreases |run|
  {
    if run != [] {
      AllQuietStep(s, run[0]);
      AllQuietRun(After(s, run[0]), run[1..]);
    }
  }

  lemma ReachableIsQuiet(s: State)
    requires IsReachable(s)
    ensures Inv(s) && AllQuiet(s)
  {
    var run :| Leads(Start(s.cfg), run, s);
    StartSatisfies(s.cfg);
    AllQuietRun(Start(s.cfg), run);
  }

  lemma {:induction false} FinishedStays(s: State, run: seq<Event>, r: nat, b: Barrier)
    requires Possible(s, run) && Finished(s, r, b)
    ensures Finished(Exec(s, run), r, b)
    decreases |run|
  {
    if run != [] {
      FinishedStays(After(s, run[0]), run[1..], r, b);
    }
  }

  // -- from reading to finality ------------------------------------------------------------------

  /** The request has read a claimed code, a spent refresh token, an owned token or a grant, and reacts to it. */
  predicate Reacting(q: Request, b: Barrier) {
    match b
    case CodeBarrier(c, f) =>
      q == ExchangeMarkClaimed(c, f) || q == ExchangeMarkExchanged(c, f) || q == ExchangeBurn(c, f)
    case TokenBarrier(t, f) =>
      || q == RefreshMarkRotating(t, f) || q == RefreshMarkRotated(t, f) || q == RefreshBurn(t, f)
      || q == RevokeMark(t, f) || q == RevokeBurn(t, f)
    case GrantBarrier(o, g) => q == ConsentCodes(o, g) || q == ConsentTokens(o, g)
  }

  /** Reading a claimed code, a spent refresh token or a consent row starts the reaction to it. */
  lemma ReadingStartsTheReaction(cfg: Config, db: Db, q: Request, now: int)
    requires q.ExchangeFind? || q.RefreshFind? || q.ConsentMark?
    ensures (&& q.ExchangeFind? && q.x.code in db.codes
             && db.codes[q.x.code].used != Unused && db.codes[q.x.code].family.Some?) ==>
      Reacting(Decide(cfg, db, q, now).after, CodeBarrier(q.x.code, db.codes[q.x.code].family.value))
    ensures (&& q.RefreshFind? && q.y.token in db.tokens
             && db.tokens[q.y.token].refreshExpires.Some? && db.tokens[q.y.token].state != Active) ==>
      Reacting(Decide(cfg, db, q, now).after, TokenBarrier(q.y.token, db.tokens[q.y.token].family))
    ensures q.ConsentMark? && q.owner in db.consents ==>
      Reacting(Decide(cfg, db, q, now).after, GrantBarrier(q.owner, db.consents[q.owner].grant))
  {}

  lemma ReactionStep(cfg: Config, db: Db, q: Request, now: int, b: Barrier)
    requires Reacting(q, b)
    ensures var move := Decide(cfg, db, q, now); Reacting(move.after, b) || Reports(move, b)
  {}

  /** A reaction once begun is carried through: when the request has finished, it reports this barrier. */
  lemma {:induction false} ReactionReports(s: State, run: seq<Event>, r: nat, b: Barrier)
    requires Possible(s, run) && r in s.reqs && (Reacting(s.reqs[r], b) || Finished(s, r, b))
    ensures var z := Exec(s, run); r in z.reqs && (Reacting(z.reqs[r], b) || Finished(z, r, b))
    decreases |run|
  {
    if run != [] {
      if run[0].Advance? && run[0].r == r { ReactionStep(s.cfg, s.db, s.reqs[r], run[0].now, b); }
      ReactionReports(After(s, run[0]), run[1..], r, b);
    }
  }

  /** If `t` was ever disclosed and stands behind the barrier, it is not active. */
  ghost predicate DeadBehind(z: State, b: Barrier, t: Id) {
    t in z.log.disclosed ==> t in z.db.tokens && (Behind(b, z.db.tokens[t]) ==> z.db.tokens[t].state != Active)
  }

  /**
   The main result, from the read on: a request that has begun to react, and later has finished, leaves nothing
   disclosed active behind its barrier for as long as the marked row is stored, wherever the concurrent mints
   and rotations were suspended. Only a code's row can go; `CodeRows` says exactly when.
   */
  lemma ReactionIsFinal(s: State, during: seq<Event>, after: seq<Event>, r: nat, b: Barrier, t: Id)
    requires IsReachable(s) && r in s.reqs && Reacting(s.reqs[r], b) && Possible(s, during)
    requires var m := Exec(s, during); r in m.reqs && m.reqs[r].Done? && Possible(m, after)
    ensures var z := Exec(Exec(s, during), after); Standing(z, b) ==> Raised(z, b) && DeadBehind(z, b, t)
  {
    var z := Exec(Exec(s, during), after);
    ReactionReports(s, during, r, b);
    FinishedStays(Exec(s, during), after, r, b);
    ReachableOn(s, during);
    ReachableOn(Exec(s, during), after);
    ReachableIsQuiet(z);
    if Standing(z, b) {
      assert Quiet(z, b);
      if t in z.log.disclosed && Behind(b, z.db.tokens[t]) { QuietDisclosesNothingActive(z, b, t); }
    }
  }

  // -- three of the four reactions; the replayed code is in `CodeRows` -----------------------------

  /**
   Section 4.14 of RFC 9700: a request reads a refresh token that is not active. Once it has finished, the
   family is dead and the presented row bears a marker for good.
   */
  lemma RefreshReuseBurnsFamily(s: State, now: int, during: seq<Event>, after: seq<Event>, r: nat, y: Refresh, t: Id)
    requires IsReachable(s) && r in s.reqs && s.reqs[r] == RefreshFind(y)
    requires y.token in s.db.tokens && s.db.tokens[y.token].refreshExpires.Some? && s.db.tokens[y.token].state != Active
    requires Possible(After(s, Advance(r, now)), during)
    requires var m := Exec(After(s, Advance(r, now)), during); r in m.reqs && m.reqs[r].Done? && Possible(m, after)
    ensures var f := s.db.tokens[y.token].family; var z := Exec(Exec(After(s, Advance(r, now)), during), after);
      && y.token in z.db.tokens && z.db.tokens[y.token].family == f && Marker(z.db.tokens[y.token].state)
      && (t in z.log.disclosed ==>
            t in z.db.tokens && (z.db.tokens[t].family == f ==> z.db.tokens[t].state != Active))
  {
    ReadingStartsTheReaction(s.cfg, s.db, s.reqs[r], now);
    ReachableAfter(s, Advance(r, now));
    ReactionIsFinal(After(s, Advance(r, now)), during, after, r, TokenBarrier(y.token, s.db.tokens[y.token].family), t);
  }

  /** One of the two lookups of `revoke_token` finds a row of the requesting client. */
  predicate FindsOwn(db: Db, q: Request) {
    && (q.RevokeFind? || q.RevokeFindOther?)
    && Finds(db, q.v, q.v.refreshFirst == q.RevokeFind?)
    && db.tokens[q.v.token].bind.owner.client == q.v.client.id
  }

  /**
   Section 2.1 of RFC 7009: a revocation finds a token of its own client. Once it has finished, the family is
   dead and the presented row is revoked for good.
   */
  lemma RevocationBurnsFamily(s: State, now: int, during: seq<Event>, after: seq<Event>, r: nat, v: Revocation, t: Id)
    requires IsReachable(s) && r in s.reqs && FindsOwn(s.db, s.reqs[r]) && s.reqs[r].v == v
    requires Possible(After(s, Advance(r, now)), during)
    requires var m := Exec(After(s, Advance(r, now)), during); r in m.reqs && m.reqs[r].Done? && Possible(m, after)
    ensures var f := s.db.tokens[v.token].family; var z := Exec(Exec(After(s, Advance(r, now)), during), after);
      && v.token in z.db.tokens && z.db.tokens[v.token].family == f && z.db.tokens[v.token].state == Revoked
      && (t in z.log.disclosed ==>
            t in z.db.tokens && (z.db.tokens[t].family == f ==> z.db.tokens[t].state != Active))
  {
    OwnedTokenIsMarked(s.cfg, s.db, s.reqs[r], now);
    ReachableAfter(s, Advance(r, now));
    MarkedFamilyDies(After(s, Advance(r, now)), during, after, r, v.token, s.db.tokens[v.token].family, t);
  }

  lemma OwnedTokenIsMarked(cfg: Config, db: Db, q: Request, now: int)
    requires FindsOwn(db, q)
    ensures Decide(cfg, db, q, now) == Read(RevokeMark(q.v.token, db.tokens[q.v.token].family))
  {}

  lemma MarkedFamilyDies(s: State, during: seq<Event>, after: seq<Event>, r: nat, u: Id, f: Id, t: Id)
    requires IsReachable(s) && r in s.reqs && s.reqs[r] == RevokeMark(u, f) && Possible(s, during)
    requires var m := Exec(s, during); r in m.reqs && m.reqs[r].Done? && Possible(m, after)
    ensures var z := Exec(Exec(s, during), after); RevokedToken(z, u, f) && DeadBehind(z, TokenBarrier(u, f), t)
  {
    ReactionIsFinal(s, during, after, r, TokenBarrier(u, f), t);
    RevocationReports(s, during, r, u, f);
    ReachableOn(s, during);
    RevokedStaysRevoked(Exec(s, during), after, r, u, f);
  }

  lemma {:induction false} RevocationReports(s: State, run: seq<Event>, r: nat, u: Id, f: Id)
    requires Possible(s, run) && r in s.reqs
    requires s.reqs[r] == RevokeMark(u, f) || s.reqs[r] == RevokeBurn(u, f) || s.reqs[r] == Done(RevokedFamily(u, f))
    ensures r in Exec(s, run).reqs && (Exec(s, run).reqs[r].Done? ==> Exec(s, run).reqs[r] == Done(RevokedFamily(u, f)))
    decreases |run|
  {
    if run != [] {
      RevocationReports(After(s, run[0]), run[1..], r, u, f);
    }
  }

  lemma RevokedStaysRevoked(m: State, after: seq<Event>, r: nat, u: Id, f: Id)
    requires IsReachable(m) && r in m.reqs && m.reqs[r] == Done(RevokedFamily(u, f)) && Possible(m, after)
    ensures RevokedToken(Exec(m, after), u, f)
  {
    ReachableOn(m, after);
    DoneStays(m, after, r);
    var z := Exec(m, after);
    ReachableIsOk(z);
    assert RequestOk(z, r, z.reqs[r]);
  }

  lemma {:induction false} DoneStays(s: State, run: seq<Event>, r: nat)
    requires Possible(s, run) && r in s.reqs && s.reqs[r].Done?
    ensures r in Exec(s, run).reqs && Exec(s, run).reqs[r] == s.reqs[r]
    decreases |run|
  {
    if run != [] {
      DoneStays(After(s, run[0]), run[1..], r);
    }
  }

  /**
   The user's complete grant to the client: a revocation replaces the generation `g` it finds. Once it has
   finished, no disclosed token of that generation or of any earlier one is active, also of generations that
   concurrent consents replaced among themselves, and none of them ever stands on the consent row again.
   */
  lemma ConsentRevocationIsFinal(s: State, now: int, during: seq<Event>, after: seq<Event>, r: nat, o: Owner, t: Id)
    requires IsReachable(s) && r in s.reqs && s.reqs[r] == ConsentMark(o) && o in s.db.consents
    requires Possible(After(s, Advance(r, now)), during)
    requires var m := Exec(After(s, Advance(r, now)), during); r in m.reqs && m.reqs[r].Done? && Possible(m, after)
    ensures var g := s.db.consents[o].grant; var z := Exec(Exec(After(s, Advance(r, now)), during), after);
      && o in z.db.consents && g < z.db.consents[o].grant
      && (t in z.log.disclosed ==>
            && t in z.db.tokens
            && (z.db.tokens[t].bind.owner == o && z.db.tokens[t].bind.grant <= g ==> z.db.tokens[t].state != Active))
  {
    ReadingStartsTheReaction(s.cfg, s.db, s.reqs[r], now);
    ReachableAfter(s, Advance(r, now));
    ReactionIsFinal(After(s, Advance(r, now)), during, after, r, GrantBarrier(o, s.db.consents[o].grant), t);
  }

  /** A grant that was replaced once is never active again, whatever stale reads concurrent consents work from. */
  lemma {:induction false} ReplacedGrantNeverReturns(s: State, run: seq<Event>, o: Owner, g: Id)
    requires Inv(s) && Possible(s, run) && Retired(s, o, g)
    ensures Retired(Exec(s, run), o, g)
    ensures forall bind: Binding :: bind.owner == o && bind.grant == g ==> !GrantActive(Exec(s, run).db, bind)
    decreases |run|
  {
    if run != [] {
      match run[0] {
        case Arrive(r, q) => ArrivalPreserves(s, r, q);
        case Advance(r, now) => StepPreserves(s, r, now);
      }
      ReplacedGrantNeverReturns(After(s, run[0]), run[1..], o, g);
    }
  }

  /** The two program points that put another generation on this owner's consent row. */
  predicate Renews(s: State, e: Event, o: Owner) {
    && e.Advance? && e.r in s.reqs
    && (s.reqs[e.r] == ConsentMark(o) || (s.reqs[e.r].GrantReplace? && s.reqs[e.r].k.owner == o))
  }

  predicate NeverRenewed(s: State, run: seq<Event>, o: Owner)
    requires Possible(s, run)
    decreases |run|
  {
    run == [] || (!Renews(s, run[0], o) && NeverRenewed(After(s, run[0]), run[1..], o))
  }

  lemma OnlyRenewalsRenew(cfg: Config, db: Db, q: Request, now: int, o: Owner)
    requires !q.Done? && o in db.consents && q != ConsentMark(o) && !(q.GrantReplace? && q.k.owner == o)
    ensures var z := Apply(db, Decide(cfg, db, q, now).write);
      o in z.consents && z.consents[o].grant == db.consents[o].grant && z.consents[o].revoked == db.consents[o].revoked
  {
    if Consenting(q) { ConsentIsKept(cfg, db, q, now, o); } else { OthersKeepConsents(cfg, db, q, now, o); }
  }

  lemma OthersKeepConsents(cfg: Config, db: Db, q: Request, now: int, o: Owner)
    requires !q.Done? && !Consenting(q) && o in db.consents && q != ConsentMark(o)
    ensures var w := Decide(cfg, db, q, now).write;
      w.PutConsent? ==> w.owner != o
  {}

  lemma ConsentIsKept(cfg: Config, db: Db, q: Request, now: int, o: Owner)
    requires Consenting(q) && o in db.consents && !(q.GrantReplace? && q.k.owner == o)
    ensures var z := Apply(db, DecideConsent(cfg, db, q, now).write);
      o in z.consents && z.consents[o].grant == db.consents[o].grant && z.consents[o].revoked == db.consents[o].revoked
  {}

  /**
   A generation stands, revoked or not, until a revocation or a consent over a revoked row replaces it: consents that
   come late, or merge into a row they read earlier, change its scope at most.
   */
  lemma {:induction false} GenerationStands(s: State, run: seq<Event>, o: Owner)
    requires Possible(s, run) && o in s.db.consents && NeverRenewed(s, run, o)
    ensures var z := Exec(s, run).db;
      && o in z.consents && z.consents[o].grant == s.db.consents[o].grant
      && z.consents[o].revoked == s.db.consents[o].revoked
    decreases |run|
  {
    if run != [] {
      if run[0].Advance? { OnlyRenewalsRenew(s.cfg, s.db, s.reqs[run[0].r], run[0].now, o); }
      GenerationStands(After(s, run[0]), run[1..], o);
    }
  }

  predicate OfGrant(row: Token, o: Owner, g: Id) {
    row.bind.owner == o && row.bind.grant == g
  }

  /** The mint of `t` has passed every check and only has to answer. */
  ghost predicate AtDisclosure(s: State, t: Id) {
    t in s.log.minter && s.log.minter[t] in s.reqs && s.reqs[s.log.minter[t]].MintDisclose?
    && s.reqs[s.log.minter[t]].token == t
  }

  lemma OnlyDisclosureDiscloses(s: State, r: nat, now: int, t: Id)
    requires Inv(s) && Enabled(s, Advance(r, now))
    ensures t in After(s, Advance(r, now)).log.disclosed ==> t in s.log.disclosed || AtDisclosure(s, t)
  {
    assert RequestOk(s, r, s.reqs[r]);
  }

  /** A mint of the replaced grant does not get past its last check. */
  lemma DisclosureNotReached(s: State, r: nat, now: int, o: Owner, g: Id, t: Id)
    requires Inv(s) && Retired(s, o, g) && Enabled(s, Advance(r, now))
    requires var z := After(s, Advance(r, now));
      t in z.db.tokens && OfGrant(z.db.tokens[t], o, g) && AtDisclosure(z, t)
    ensures AtDisclosure(s, t)
  {
    ReachedDisclosure(s, r, now, t);
    if !AtDisclosure(s, t) { GrantCheckFails(s, r, o, g); }
  }

  lemma ReachedDisclosure(s: State, r: nat, now: int, t: Id)
    requires Enabled(s, Advance(r, now)) && AtDisclosure(After(s, Advance(r, now)), t)
    ensures AtDisclosure(s, t) || (
      var q := s.reqs[r];
      q.MintGrant? && q.token == t && GrantActive(s.db, q.m.bind) && After(s, Advance(r, now)).db == s.db)
  {
    OnlyGrantCheckReachesDisclosure(s.cfg, s.db, s.reqs[r], now);
  }

  lemma GrantCheckFails(s: State, r: nat, o: Owner, g: Id)
    requires Inv(s) && Retired(s, o, g) && r in s.reqs && s.reqs[r].MintGrant?
    ensures var q := s.reqs[r];
      && q.token in s.db.tokens
      && (OfGrant(s.db.tokens[q.token], o, g) ==> !GrantActive(s.db, q.m.bind))
  {
    assert RequestOk(s, r, s.reqs[r]);
  }

  lemma OnlyGrantCheckReachesDisclosure(cfg: Config, db: Db, q: Request, now: int)
    requires !q.Done?
    ensures var after := Decide(cfg, db, q, now).after;
      after.MintDisclose? ==> q.MintGrant? && GrantActive(db, q.m.bind) && after == MintDisclose(q.m, q.token)
  {}

  /** Once the grant is replaced, only mints already past their last check still answer with a token. */
  lemma {:induction false} RetiredGrantNeverDiscloses(s: State, run: seq<Event>, o: Owner, g: Id, t: Id)
    requires Inv(s) && Possible(s, run) && Retired(s, o, g)
    requires var z := Exec(s, run);
      t in z.log.disclosed && t in z.db.tokens && OfGrant(z.db.tokens[t], o, g)
    ensures t in s.log.disclosed || AtDisclosure(s, t)
    decreases |run|
  {
    if run != [] {
      var z := After(s, run[0]);
      match run[0] {
        case Arrive(r, q) => ArrivalPreserves(s, r, q);
        case Advance(r, now) => StepPreserves(s, r, now);
      }
      RetiredGrantNeverDiscloses(z, run[1..], o, g, t);
      BindingsPersist(z, run[1..], t);
      if run[0].Advance? {
        OnlyDisclosureDiscloses(s, run[0].r, run[0].now, t);
        if AtDisclosure(z, t) { DisclosureNotReached(s, run[0].r, run[0].now, o, g, t); }
      }
    }
  }

  predicate Discloses(s: State, run: seq<Event>, t: Id) {
    Possible(s, run) && t in Exec(s, run).log.disclosed
  }

  /** Exactly: a token of a replaced grant is disclosed sometime if it is already, or if only the answer is left. */
  lemma RetiredGrantDisclosesExactly(s: State, o: Owner, g: Id, t: Id)
    requires Inv(s) && Retired(s, o, g) && t in s.db.tokens && OfGrant(s.db.tokens[t], o, g)
    ensures (exists run :: Discloses(s, run, t)) <==> t in s.log.disclosed || AtDisclosure(s, t)
  {
    if run :| Discloses(s, run, t) {
      BindingsPersist(s, run, t);
      RetiredGrantNeverDiscloses(s, run, o, g, t);
    }
    if t in s.log.disclosed {
      assert Discloses(s, [], t);
    } else if AtDisclosure(s, t) {
      AnswerDiscloses(s, t, 0);
    }
  }

  lemma AnswerDiscloses(s: State, t: Id, now: int)
    requires AtDisclosure(s, t)
    ensures Discloses(s, [Advance(s.log.minter[t], now)], t)
  {
    var r := s.log.minter[t];
    var e := Advance(r, now);
    OneEvent(s, e);
    assert Decide(s.cfg, s.db, s.reqs[r], now) == Read(Done(Issued(t)));
  }

  lemma {:induction false} BindingsPersist(s: State, run: seq<Event>, t: Id)
    requires Inv(s) && Possible(s, run) && t in s.db.tokens
    ensures t in Exec(s, run).db.tokens
    ensures Exec(s, run).db.tokens[t].bind == s.db.tokens[t].bind
    ensures Exec(s, run).db.tokens[t].family == s.db.tokens[t].family
    ensures t in s.log.minter && t in Exec(s, run).log.minter && Exec(s, run).log.minter[t] == s.log.minter[t]
    decreases |run|
  {
    assert TokenOk(s, t);
    if run != [] {
      match run[0] {
        case Arrive(r, q) => ArrivalPreserves(s, r, q);
        case Advance(r, now) => StepPreserves(s, r, now);
      }
      BindingsPersist(After(s, run[0]), run[1..], t);
    }
  }
}
