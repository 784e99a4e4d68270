/**
 The one answer a consent revocation does not overtake: a mint that has passed its last check and only has to
 send its token. The token is disclosed after the revocation has finished, and it is dead on arrival.
 */
module ConsentRace {
  import opened Wrappers
  import opened OAuthStore
  import opened OAuthMachine
  import opened OAuthInvariant
  import opened OAuthPreservation
  import opened RequestsAlone
  import opened FamilyRevocation
  import opened ExpiredCodeRace
  import opened LostBurn

  /** `t` is about to be disclosed under the generation that stands on its owner's consent row. */
  ghost predicate AboutToDisclose(s: State, t: Id) {
    && AtDisclosure(s, t) && t in s.db.tokens
    && s.db.tokens[t].bind.owner in s.db.consents
    && s.db.consents[s.db.tokens[t].bind.owner].grant == s.db.tokens[t].bind.grant
  }

  /** The revocation `r` has finished, and yet the answer with `t` is still to come, and comes. */
  ghost predicate StillDiscloses(z: State, r: nat, t: Id) {
    && t in z.db.tokens && AtDisclosure(z, t) && Discloses(z, [Advance(z.log.minter[t], 0)], t)
    && var bind := z.db.tokens[t].bind;
       && r in z.reqs && z.reqs[r] == Done(RevokedGrant(bind.owner, bind.grant))
       && Retired(z, bind.owner, bind.grant) && Marker(z.db.tokens[t].state)
  }

  lemma StaysDue(s: State, run: seq<Event>, t: Id, r: nat)
    requires Inv(s) && AtDisclosure(s, t) && t in s.db.tokens && Possible(s, run) && s.log.minter[t] != r
    requires r in Exec(s, run).reqs && Exec(s, run).reqs == s.reqs[r := Exec(s, run).reqs[r]]
    ensures var z := Exec(s, run);
      && t in z.db.tokens && z.db.tokens[t].bind == s.db.tokens[t].bind
      && AtDisclosure(z, t) && Discloses(z, [Advance(z.log.minter[t], 0)], t)
  {
    BindingsPersist(s, run, t);
    AnswerDiscloses(Exec(s, run), t, 0);
  }

  lemma RevokedBehindTheMint(s: State, t: Id, r: nat, now: int) returns (run: seq<Event>)
    requires IsReachable(s) && AboutToDisclose(s, t) && r in s.reqs
    requires s.reqs[r] == ConsentFind(s.db.tokens[t].bind.owner)
    ensures Possible(s, run) && StillDiscloses(Exec(s, run), r, t)
    ensures forall e :: e in run ==> e == Advance(r, now)
  {
    var o := s.db.tokens[t].bind.owner;
    ReachableIsOk(s);
    assert s.db.consents[o].grant < s.db.next;
    ConsentRevokedAlone(s.cfg, s.db, o, now);
    run := AloneIsARun(s, r, now);
    StaysDue(s, run, t, r);
    ReachableOn(s, run);
    RevokedGrantIsRetired(Exec(s, run), r, o, s.db.tokens[t].bind.grant);
  }

  lemma RevokedGrantIsRetired(z: State, r: nat, o: Owner, g: Id)
    requires IsReachable(z) && r in z.reqs && z.reqs[r] == Done(RevokedGrant(o, g))
    ensures Retired(z, o, g)
  {
    ReachableIsOk(z);
    assert RequestOk(z, r, z.reqs[r]);
  }

  /** Whenever a token is about to be disclosed, its user can revoke the grant, and the answer still comes. */
  lemma LateDisclosure(s: State, t: Id, r: nat, now: int) returns (run: seq<Event>)
    requires IsReachable(s) && AboutToDisclose(s, t) && r !in s.reqs
    ensures Possible(s, run) && StillDiscloses(Exec(s, run), r, t)
    ensures forall e :: e in run ==> e == Arrive(r, ConsentFind(s.db.tokens[t].bind.owner)) || e == Advance(r, now)
  {
    var e := Arrive(r, ConsentFind(s.db.tokens[t].bind.owner));
    ReachableAfter(s, e);
    var rest := RevokedBehindTheMint(After(s, e), t, r, now);
    Prepend(s, e, rest);
    run := [e] + rest;
  }

  lemma DisclosureIsNear(s: State, r: nat, m: Mint, t: Id)
    requires IsReachable(s) && r in s.reqs && s.reqs[r] == MintDisclose(m, t)
    requires m.bind.owner in s.db.consents && s.db.consents[m.bind.owner].grant == m.bind.grant
    ensures AboutToDisclose(s, t)
  {
    ReachableIsOk(s);
    assert RequestOk(s, r, s.reqs[r]);
  }

  lemma FirstTokenChecked() returns (run: seq<Event>, s: State)
    ensures At(run, s, 20) && s.cfg == CONFIG
    ensures s.db == ExpiredCodeRace.Tables(map[1 := CodeRow(Exchanged, Some(2))], map[3 := TokenRow(Active)], 4)
    ensures s.reqs.Keys == {0, 1, 2} && s.reqs[1] == MintGrant(FIRST_MINT, 3)
  {
    run, s := FirstTokenFinalized();
    run, s := TwoReads(run, s, 1, 20, MintScanTokens(FIRST_MINT, 3), MintGrant(FIRST_MINT, 3));
  }

  lemma FirstTokenDue() returns (run: seq<Event>, s: State)
    ensures At(run, s, 20)
    ensures s.db == ExpiredCodeRace.Tables(map[1 := CodeRow(Exchanged, Some(2))], map[3 := TokenRow(Active)], 4)
    ensures s.reqs.Keys == {0, 1, 2} && s.reqs[1] == MintDisclose(FIRST_MINT, 3)
  {
    run, s := FirstTokenChecked();
    run, s := Step(run, s, 1, 20, Read(MintDisclose(FIRST_MINT, 3)));
  }

  /** Such a state is reached: the first token of the code race, just before its answer. */
  lemma DisclosureReached() returns (run: seq<Event>, s: State)
    ensures At(run, s, 20) && AboutToDisclose(s, 3) && s.reqs.Keys == {0, 1, 2}
  {
    run, s := FirstTokenDue();
    AtIsReachable(run, s, 20);
    DisclosureIsNear(s, 1, FIRST_MINT, 3);
  }

  /** A complete run: the revocation has finished, and the disclosure is still to come. */
  lemma LateDisclosureHappens() returns (run: seq<Event>, s: State)
    ensures At(run, s, 20) && StillDiscloses(s, 5, 3)
  {
    var before, m := DisclosureReached();
    AtIsReachable(before, m, 20);
    var rest := LateDisclosure(m, 3, 5, 20);
    Extend(before, m, rest, 20);
    run, s := before + rest, Exec(m, rest);
  }
}
