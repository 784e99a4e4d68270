/**
 How long the row of a claimed code is stored. The delete of an expired code carries no `used = 0` guard, so a
 request that read the code before its claim and is suspended at that delete can remove the row, and the replay
 marker on it, later. Without such a request the row is never removed and code replay is final.
 */
module CodeRows {
  import opened Wrappers
  import opened OAuthStore
  import opened OAuthMachine
  import opened OAuthInvariant
  import opened OAuthPreservation
  import opened RequestsAlone
  import opened FamilyRevocation

  /** A request is suspended at the expired-code delete of `c`. */
  ghost predicate PendingDelete(s: State, c: Id) {
    exists r :: r in s.reqs && s.reqs[r] == ExchangeDelete(c)
  }

  predicate PastClaim(s: State, c: Id) {
    c in s.db.codes && s.db.codes[c].used != Unused
  }

  predicate MarkerUp(s: State, c: Id) {
    c in s.db.codes && s.db.codes[c].used == Replayed
  }

  // -- exactly when the row survives --------------------------------------------------------------

  /** Only a request that reads the code unused ever comes to its delete. */
  lemma DeleteNeedsUnused(cfg: Config, db: Db, q: Request, now: int, c: Id)
    requires !q.Done? && Decide(cfg, db, q, now).after == ExchangeDelete(c)
    ensures q.ExchangeFind? && c in db.codes && db.codes[c].used == Unused
  {}

  lemma PastClaimStep(s: State, e: Event, c: Id)
    requires Inv(s) && Enabled(s, e) && PastClaim(s, c) && !PendingDelete(s, c)
    ensures PastClaim(After(s, e), c) && !PendingDelete(After(s, e), c)
    ensures MarkerUp(s, c) ==> MarkerUp(After(s, e), c)
  {
    var z := After(s, e);
    if e.Advance? {
      StepPreserves(s, e.r, e.now);
      CodeRowStays(s, e.r, e.now, c);
      assert CodeMove(s.db.codes[c].used, z.db.codes[c].used);
    }
    forall r | r in z.reqs ensures z.reqs[r] != ExchangeDelete(c) {
      if e.Advance? && r == e.r {
        if z.reqs[r] == ExchangeDelete(c) { DeleteNeedsUnused(s.cfg, s.db, s.reqs[r], e.now, c); }
      } else if r in s.reqs {
        assert s.reqs[r] != ExchangeDelete(c);
      }
    }
  }

  lemma {:induction false} PastClaimRun(s: State, run: seq<Event>, c: Id)
    requires Inv(s) && Possible(s, run) && PastClaim(s, c) && !PendingDelete(s, c)
    ensures PastClaim(Exec(s, run), c) && (MarkerUp(s, c) ==> MarkerUp(Exec(s, run), c))
    decreases |run|
  {
    if run != [] {
      var z := After(s, run[0]);
      PastClaimStep(s, run[0], c);
      match run[0] {
        case Arrive(r, q) => ArrivalPreserves(s, r, q);
        case Advance(r, now) => StepPreserves(s, r, now);
      }
      PastClaimRun(z, run[1..], c);
    }
  }

  /** What every continuation keeps of a code past its claim. */
  ghost predicate AlwaysStored(s: State, c: Id) {
    forall run {:trigger Possible(s, run)} :: Possible(s, run) ==> PastClaim(Exec(s, run), c)
  }

  ghost predicate MarkerAlwaysUp(s: State, c: Id) {
    forall run {:trigger Possible(s, run)} :: Possible(s, run) ==> MarkerUp(Exec(s, run), c)
  }

  lemma DeleteRemoves(s: State, r: nat, c: Id, now: int)
    requires r in s.reqs && s.reqs[r] == ExchangeDelete(c)
    ensures Possible(s, [Advance(r, now)]) && c !in Exec(s, [Advance(r, now)]).db.codes
  {
    var e := Advance(r, now);
    OneEvent(s, e);
    assert Decide(s.cfg, s.db, s.reqs[r], now) == Move(DeleteCode(c), Done(Refused(InvalidGrant)));
  }

  /** A code past its claim is stored in every continuation exactly when no request is suspended at its delete. */
  lemma RowSurvivesExactly(s: State, c: Id)
    requires Inv(s) && PastClaim(s, c)
    ensures AlwaysStored(s, c) <==> !PendingDelete(s, c)
  {
    if !PendingDelete(s, c) {
      forall run | Possible(s, run) ensures PastClaim(Exec(s, run), c) { PastClaimRun(s, run, c); }
    } else {
      var r :| r in s.reqs && s.reqs[r] == ExchangeDelete(c);
      DeleteRemoves(s, r, c, 0);
    }
  }

  /** A replay marker stands in every continuation exactly when no request is suspended at the delete of its row. */
  lemma MarkerSurvivesExactly(s: State, c: Id)
    requires Inv(s) && MarkerUp(s, c)
    ensures MarkerAlwaysUp(s, c) <==> !PendingDelete(s, c)
  {
    if !PendingDelete(s, c) {
      forall run | Possible(s, run) ensures MarkerUp(Exec(s, run), c) { PastClaimRun(s, run, c); }
    } else {
      var r :| r in s.reqs && s.reqs[r] == ExchangeDelete(c);
      DeleteRemoves(s, r, c, 0);
    }
  }

  // -- code replay --------------------------------------------------------------------------------------

  /** A request is about to read the claimed code `c` of family `f`. */
  predicate ReadsClaimed(s: State, r: nat, c: Id, f: Id) {
    && r in s.reqs && s.reqs[r].ExchangeFind? && s.reqs[r].x.code == c
    && c in s.db.codes && s.db.codes[c].used != Unused && s.db.codes[c].family == Some(f)
  }

  /**
   Section 4.1.2 of RFC 6749: a request reads a claimed code. Once it has finished, no token of the family ever
   disclosed is active in any later state in which the code's row is still stored; and it is always still stored
   if no other request was suspended at its delete when it was read.
   */
  lemma CodeReplayBurnsFamily(s: State, now: int, during: seq<Event>, after: seq<Event>, r: nat, c: Id, f: Id, t: Id)
    requires IsReachable(s) && ReadsClaimed(s, r, c, f)
    requires Possible(After(s, Advance(r, now)), during)
    requires var m := Exec(After(s, Advance(r, now)), during); r in m.reqs && m.reqs[r].Done? && Possible(m, after)
    ensures var z := Exec(Exec(After(s, Advance(r, now)), during), after);
      && (!PendingDelete(s, c) ==> c in z.db.codes)
      && (c in z.db.codes ==>
            && z.db.codes[c].used == Replayed
            && (t in z.log.disclosed ==>
                  t in z.db.tokens && (z.db.tokens[t].family == f ==> z.db.tokens[t].state != Active)))
  {
    var s1 := After(s, Advance(r, now));
    ReadingStartsTheReaction(s.cfg, s.db, s.reqs[r], now);
    ReachableAfter(s, Advance(r, now));
    ReactionIsFinal(s1, during, after, r, CodeBarrier(c, f), t);
    if !PendingDelete(s, c) {
      ReadRowSurvives(s, now, during, after, r, c);
    }
  }

  lemma ReadRowSurvives(s: State, now: int, during: seq<Event>, after: seq<Event>, r: nat, c: Id)
    requires IsReachable(s) && PastClaim(s, c) && !PendingDelete(s, c) && Enabled(s, Advance(r, now))
    requires Possible(After(s, Advance(r, now)), during) && Possible(Exec(After(s, Advance(r, now)), during), after)
    ensures c in Exec(Exec(After(s, Advance(r, now)), during), after).db.codes
  {
    var s1 := After(s, Advance(r, now));
    ReachableIsOk(s);
    PastClaimStep(s, Advance(r, now), c);
    ReachableAfter(s, Advance(r, now));
    ReachableIsOk(s1);
    Concat(s1, during, after);
    PastClaimRun(s1, during + after, c);
  }

  // -- exactly what goes wrong otherwise ----------------------------------------------------------------------

  /**
   A mint of family `f` is suspended before its scan of the codes and nothing has stopped it yet: it has still to
   insert its token or to finalize a rotating source, or its token is active and only the scans are left.
   */
  predicate OnCourse(s: State, r: nat, f: Id) {
    && r in s.reqs && (s.reqs[r].MintInsert? || s.reqs[r].MintFinalize? || s.reqs[r].MintScanCodes?)
    && s.reqs[r].m.family == f && GrantActive(s.db, s.reqs[r].m.bind)
    && (!s.reqs[r].MintScanCodes? ==> s.reqs[r].m.source.FromToken? && Finalizes(s.db, s.reqs[r].m.source))
    && (!s.reqs[r].MintInsert? ==> IsActive(s, s.reqs[r].token))
  }

  /** The token it will answer with. */
  function TokenToCome(s: State, r: nat): Id
    requires r in s.reqs && (s.reqs[r].MintInsert? || s.reqs[r].MintFinalize? || s.reqs[r].MintScanCodes?)
  {
    if s.reqs[r].MintInsert? then s.db.next else s.reqs[r].token
  }

  /** Only one code has this family, so without its row no code marks it. */
  lemma DeletedMarkIsGone(s: State, c: Id, f: Id)
    requires Inv(s) && MarkerUp(s, c) && s.db.codes[c].family == Some(f)
    ensures !CodeReplayed(Apply(s.db, DeleteCode(c)), f)
  {
    assert CodeOk(s, c);
    forall d | d in s.db.codes && s.db.codes[d].family == Some(f) ensures d == c {
      assert CodeOk(s, d);
    }
  }

  /** In an unmarked family a mint on course finishes, if it runs alone, with its token issued and active. */
  lemma OnCourseAlone(s: State, r: nat, f: Id, now: int)
    requires Inv(s) && OnCourse(s, r, f) && !CodeReplayed(s.db, f) && !TokenMarked(s.db, f)
    ensures var answer := RunAlone(s.cfg, s.db, s.reqs[r], now); var t := TokenToCome(s, r);
      && answer.outcome == Issued(t)
      && t in answer.db.tokens && answer.db.tokens[t].family == f && answer.db.tokens[t].state == Active
  {
    var q := s.reqs[r];
    assert RequestOk(s, r, q);
    NextIsFresh(s);
    if q.MintInsert? {
      MintAlone(s.cfg, s.db, q.m, now);
      MintedIsActive(s.cfg, s.db, q.m, now);
    } else if q.MintFinalize? {
      FinishAlone(s.cfg, s.db, q.m, q.token, now);
      FinalizeKeepsChecks(s.db, q.m.source.token, f);
    } else {
      ChecksAlone(s.cfg, s.db, q.m, q.token, now);
    }
  }

  lemma FinalizeKeepsChecks(db: Db, p: Id, f: Id)
    requires TokenIn(db, p, Rotating) != {}
    ensures var z := Apply(db, Finalize(db, FromToken(p)));
      && z.codes == db.codes && z.consents == db.consents && z.tokens == db.tokens[p := db.tokens[p].(state := Rotated)]
      && (!TokenMarked(db, f) ==> !TokenMarked(z, f))
  {
    var z := Apply(db, Finalize(db, FromToken(p)));
    assert TokenIn(db, p, Rotating) == {p};
    if t :| t in z.tokens && z.tokens[t].family == f && Marker(z.tokens[t].state) {
      assert t != p && z.tokens[t] == db.tokens[t];
    }
  }

  lemma MintDelivers(s: State, r: nat, f: Id, now: int) returns (run: seq<Event>)
    requires IsReachable(s) && OnCourse(s, r, f) && !CodeReplayed(s.db, f) && !TokenMarked(s.db, f)
    ensures Possible(s, run) && (forall e :: e in run ==> e == Advance(r, now))
    ensures LiveAtEnd(s, run, r, f)
  {
    ReachableIsOk(s);
    OnCourseAlone(s, r, f, now);
    run := AloneIsARun(s, r, now);
    ReachableOn(s, run);
    IssuedIsDisclosed(Exec(s, run), r, TokenToCome(s, r));
  }

  /** The run ends with the mint's token answered, disclosed and active, and no other answer changed. */
  ghost predicate LiveAtEnd(s: State, run: seq<Event>, r: nat, f: Id)
    requires OnCourse(s, r, f) && Possible(s, run)
  {
    var z, t := Exec(s, run), TokenToCome(s, r);
    && z.reqs == s.reqs[r := Done(Issued(t))]
    && t in z.log.disclosed && t in z.db.tokens && z.db.tokens[t].family == f && z.db.tokens[t].state == Active
  }

  lemma DeleteStep(s: State, d: nat, c: Id, now: int)
    requires d in s.reqs && s.reqs[d] == ExchangeDelete(c)
    ensures Enabled(s, Advance(d, now))
    ensures After(s, Advance(d, now)).db == Apply(s.db, DeleteCode(c))
    ensures After(s, Advance(d, now)).reqs == s.reqs[d := Done(Refused(InvalidGrant))]
    ensures After(s, Advance(d, now)).cfg == s.cfg
  {
    assert Decide(s.cfg, s.db, s.reqs[d], now) == Move(DeleteCode(c), Done(Refused(InvalidGrant)));
  }

  lemma OnCourseAfterDelete(s: State, c: Id, f: Id, d: nat, r: nat, now: int)
    requires IsReachable(s) && MarkerUp(s, c) && s.db.codes[c].family == Some(f) && !TokenMarked(s.db, f)
    requires d in s.reqs && s.reqs[d] == ExchangeDelete(c) && OnCourse(s, r, f)
    ensures Enabled(s, Advance(d, now))
    ensures var z := After(s, Advance(d, now));
      && z.reqs == s.reqs[d := Done(Refused(InvalidGrant))]
      && OnCourse(z, r, f) && TokenToCome(z, r) == TokenToCome(s, r)
      && !CodeReplayed(z.db, f) && !TokenMarked(z.db, f)
  {
    ReachableIsOk(s);
    DeletedMarkIsGone(s, c, f);
    DeleteStep(s, d, c, now);
  }

  /**
   Whenever the marker of `c` is up, its delete is pending, no token row marks the family and a mint of it is on
   course, some continuation deletes the marker and discloses a live token of the family, whatever else was
   answered in between.
   */
  lemma PendingDeleteLosesTheBurn(s: State, c: Id, f: Id, d: nat, r: nat, now: int) returns (run: seq<Event>)
    requires IsReachable(s) && MarkerUp(s, c) && s.db.codes[c].family == Some(f) && !TokenMarked(s.db, f)
    requires d in s.reqs && s.reqs[d] == ExchangeDelete(c)
    requires OnCourse(s, r, f)
    ensures Possible(s, run) && (forall e :: e in run ==> e == Advance(d, now) || e == Advance(r, now))
    ensures var z := Exec(s, run); var t := TokenToCome(s, r);
      && z.reqs == s.reqs[d := Done(Refused(InvalidGrant))][r := Done(Issued(t))]
      && t in z.log.disclosed && t in z.db.tokens
      && z.db.tokens[t].family == f && z.db.tokens[t].state == Active
  {
    var e := Advance(d, now);
    OnCourseAfterDelete(s, c, f, d, r, now);
    ReachableAfter(s, e);
    var rest := MintDelivers(After(s, e), r, f, now);
    Prepend(s, e, rest);
    run := [e] + rest;
  }

  lemma IssuedIsDisclosed(z: State, r: nat, t: Id)
    requires IsReachable(z) && r in z.reqs && z.reqs[r] == Done(Issued(t))
    ensures t in z.log.disclosed
  {
    ReachableIsOk(z);
    assert RequestOk(z, r, z.reqs[r]);
  }

  lemma MintedIsActive(cfg: Config, db: Db, m: Mint, now: int)
    requires db.next !in db.tokens
    ensures var z := Minted(cfg, db, m, now);
      db.next in z.tokens && z.tokens[db.next].family == m.family && z.tokens[db.next].state == Active
  {}

  // -- what it takes ---------------------------------------------------------------------------------------

  /** A family that a code marks and a token row marks too is quiet behind the row, which is never deleted. */
  lemma TokenMarkTakesOver(s: State, c: Id, f: Id, t: Id)
    requires Quiet(s, CodeBarrier(c, f)) && MarkedToken(s, t, f)
    ensures Quiet(s, TokenBarrier(t, f))
  {
    forall u | IsActive(s, u) && Behind(TokenBarrier(t, f), s.db.tokens[u]) ensures Doomed(s, TokenBarrier(t, f), u) {
      assert Behind(CodeBarrier(c, f), s.db.tokens[u]) && Doomed(s, CodeBarrier(c, f), u);
    }
  }

  lemma {:induction false} TokenMarkStaysQuiet(s: State, run: seq<Event>, t: Id, f: Id)
    requires Inv(s) && Possible(s, run) && Quiet(s, TokenBarrier(t, f))
    ensures Inv(Exec(s, run)) && Quiet(Exec(s, run), TokenBarrier(t, f))
    decreases |run|
  {
    if run != [] {
      match run[0] {
        case Arrive(r, q) =>
          ArrivalPreserves(s, r, q);
          QuietAtArrival(s, r, q, TokenBarrier(t, f));
        case Advance(r, now) =>
          StepPreserves(s, r, now);
          QuietStays(s, r, now, TokenBarrier(t, f));
      }
      TokenMarkStaysQuiet(After(s, run[0]), run[1..], t, f);
    }
  }

  /** A disclosed token of the family is active. */
  predicate LiveDisclosed(z: State, f: Id, t: Id) {
    t in z.log.disclosed && t in z.db.tokens && z.db.tokens[t].family == f && z.db.tokens[t].state == Active
  }

  /**
   If the burn of an answered replay is lost in some continuation, the delete of the code's row was pending and no
   token row marked the family.
   */
  lemma LossNeedsDeleteAndNoMark(s: State, run: seq<Event>, r: nat, c: Id, f: Id, t: Id)
    requires IsReachable(s) && r in s.reqs && s.reqs[r] == Done(ReplayedCode(c, f)) && c in s.db.codes
    requires Possible(s, run) && LiveDisclosed(Exec(s, run), f, t)
    ensures PendingDelete(s, c) && !TokenMarked(s.db, f)
  {
    var b := CodeBarrier(c, f);
    var z := Exec(s, run);
    ReachableIsQuiet(s);
    ReachableOn(s, run);
    ReachableIsQuiet(z);
    assert Finished(s, r, b) && Quiet(s, b);
    FinishedStays(s, run, r, b);
    if !PendingDelete(s, c) {
      PastClaimRun(s, run, c);
      QuietDisclosesNothingActive(z, b, t);
    }
    if u :| u in s.db.tokens && s.db.tokens[u].family == f && Marker(s.db.tokens[u].state) {
      TokenMarkTakesOver(s, c, f, u);
      TokenMarkStaysQuiet(s, run, u, f);
      QuietDisclosesNothingActive(z, TokenBarrier(u, f), t);
    }
  }
}
