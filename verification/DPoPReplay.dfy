/**
 Consuming a DPoP proof: the time window, the two replay stores with their truncated stamps and lazy
 cleanup, and why one proof is accepted at most once. Instants are microseconds since the epoch.
 */
module DPoPReplay {
  import opened Timestamps
  import opened Wrappers

  /** `max_age` and `clock_skew`, in microseconds. */
  datatype Policy = Policy(maxAge: int, skew: int) {
    predicate Valid() { maxAge > 0 && skew >= 0 }
  }

  /** A proof whose signature, type, method and URI have been checked; `iat` is in seconds. */
  datatype Proof = Proof(jkt: string, jti: string, iat: int, ath: Option<string>)

  /** What the proof must be bound to: the hash of a presented access token, and an expected key. */
  datatype Use = Use(tokenHash: Option<string>, expectedJkt: Option<string>)

  /** With an access token both its hash and its key must match; otherwise an expected key, if there is one. */
  predicate Bound(p: Proof, use: Use) {
    if use.tokenHash.Some? then p.ath == use.tokenHash && use.expectedJkt == Some(p.jkt)
    else use.expectedJkt.None? || use.expectedJkt == Some(p.jkt)
  }

  datatype Key = Key(jkt: string, jti: string)

  function KeyOf(p: Proof): Key { Key(p.jkt, p.jti) }

  predicate InWindow(policy: Policy, p: Proof, now: Instant) {
    !(p.iat * SECOND < now - policy.maxAge || p.iat * SECOND > now + policy.skew)
  }

  function Expiry(policy: Policy, p: Proof): Instant {
    p.iat * SECOND + policy.maxAge + policy.skew
  }

  // -- the two stores -----------------------------------------------------------------------------

  /** Shared: the adapter table, stamps truncated to seconds. InMemory: a dictionary of full instants. */
  datatype Store = Shared | InMemory

  function Stamp(store: Store, expires: Instant): int {
    if store.Shared? then Seconds(expires) else expires
  }

  /** Whether a cleanup that read the clock at `now` drops an entry: `<` on stamps, or `<=` on instants. */
  predicate Drops(store: Store, stamp: int, now: Instant) {
    if store.Shared? then stamp < Seconds(now) else stamp <= now
  }

  function Purged(store: Store, rows: map<Key, int>, now: Instant): map<Key, int> {
    map k | k in rows && !Drops(store, rows[k], now) :: rows[k]
  }

  /** The first instant at which a cleanup drops the entry of a proof. */
  function Forgotten(store: Store, policy: Policy, p: Proof): Instant {
    if store.Shared? then (Seconds(Expiry(policy, p)) + 1) * SECOND else Expiry(policy, p)
  }

  lemma DropsFrom(store: Store, policy: Policy, p: Proof, now: Instant)
    ensures Drops(store, Stamp(store, Expiry(policy, p)), now) <==> Forgotten(store, policy, p) <= now
  {
  }

  /**
   How long after its window check a request may insert: the skew, and with truncated stamps the rest of the
   second that the expiry falls in, too.
   */
  function Margin(store: Store, policy: Policy): int {
    if store.Shared? then policy.skew + SECOND - (policy.maxAge + policy.skew) % SECOND else policy.skew
  }

  lemma ForgottenAfterMargin(store: Store, policy: Policy, p: Proof)
    ensures Forgotten(store, policy, p) == p.iat * SECOND + policy.maxAge + Margin(store, policy)
  {
    var rest := policy.maxAge + policy.skew;
    assert Expiry(policy, p) == p.iat * SECOND + rest;
    assert Seconds(Expiry(policy, p)) == p.iat + Seconds(rest);
  }

  // -- any number of concurrent requests over one store -----------------------------------------------

  /**
   Where a validation stands: window and binding checked at `at`, then the store's own clock read as `now`. Refused
   is a failed check, Replayed a key that the store holds at the insert.
   */
  datatype Request =
    | Checked(p: Proof, use: Use, at: Instant)
    | Recording(p: Proof, use: Use, at: Instant, now: Instant)
    | Accepted(p: Proof, use: Use, at: Instant)
    | Refused(p: Proof, use: Use, at: Instant)
    | Replayed(p: Proof, use: Use, at: Instant)

  /** `accepted` lists every acceptance with the instant of its insert, oldest first. */
  datatype Acceptance = Acceptance(p: Proof, time: Instant)

  datatype State = State(
    policy: Policy, store: Store, clock: Instant, rows: map<Key, int>, reqs: map<nat, Request>,
    accepted: seq<Acceptance>)

  /** The clock advances, or a request takes one of its steps; a cleanup may happen or not. */
  datatype Event =
    | Tick(elapsed: nat)
    | Begin(r: nat, p: Proof, use: Use)
    | ReadClock(r: nat)
    | Cleanup(r: nat)
    | Insert(r: nat)

  predicate Enabled(s: State, e: Event) {
    match e
    case Tick(_) => true
    case Begin(r, _, _) => r !in s.reqs
    case ReadClock(r) => r in s.reqs && s.reqs[r].Checked?
    case Cleanup(r) => r in s.reqs && s.reqs[r].Recording?
    case Insert(r) => r in s.reqs && s.reqs[r].Recording?
  }

  function After(s: State, e: Event): State
    requires Enabled(s, e)
  {
    match e
    case Tick(d) => s.(clock := s.clock + d)
    case Begin(r, p, use) =>
      var next :=
        if InWindow(s.policy, p, s.clock) && Bound(p, use) then Checked(p, use, s.clock) else Refused(p, use, s.clock);
      s.(reqs := s.reqs[r := next])
    case ReadClock(r) => s.(reqs := s.reqs[r := Recording(s.reqs[r].p, s.reqs[r].use, s.reqs[r].at, s.clock)])
    case Cleanup(r) => s.(rows := Purged(s.store, s.rows, s.reqs[r].now))
    case Insert(r) =>
      var p, use, at := s.reqs[r].p, s.reqs[r].use, s.reqs[r].at;
      if KeyOf(p) in s.rows then s.(reqs := s.reqs[r := Replayed(p, use, at)])
      else
        s.(rows := s.rows[KeyOf(p) := Stamp(s.store, Expiry(s.policy, p))],
           reqs := s.reqs[r := Accepted(p, use, at)],
           accepted := s.accepted + [Acceptance(p, s.clock)])
  }

  predicate Possible(s: State, run: seq<Event>)
    decreases |run|
  {
    run == [] || (Enabled(s, run[0]) && Possible(After(s, run[0]), run[1..]))
  }

  function Exec(s: State, run: seq<Event>): State
    requires Possible(s, run)
    decreases |run|
  {
    if run == [] then s else Exec(After(s, run[0]), run[1..])
  }

  /** Nothing accepted yet; the store may already hold anything. */
  predicate Initial(s: State) {
    s.policy.Valid() && s.reqs == map[] && s.accepted == []
  }

  /** Every insert of the run happens less than `d` after the request's window check. */
  predicate Prompt(s: State, run: seq<Event>, d: int)
    requires Possible(s, run)
    decreases |run|
  {
    run == [] ||
    (&& (run[0].Insert? ==> s.clock < s.reqs[run[0].r].at + d)
     && Prompt(After(s, run[0]), run[1..], d))
  }

  // -- what every reachable state keeps ---------------------------------------------------------------

  predicate RequestOk(s: State, q: Request) {
    match q
    case Checked(p, use, at) => at <= s.clock && InWindow(s.policy, p, at) && Bound(p, use)
    case Recording(p, use, at, now) => at <= now <= s.clock && InWindow(s.policy, p, at) && Bound(p, use)
    case Accepted(p, use, at) => at <= s.clock && InWindow(s.policy, p, at) && Bound(p, use)
    case Refused(p, use, at) => at <= s.clock && !(InWindow(s.policy, p, at) && Bound(p, use))
    case Replayed(p, use, at) => at <= s.clock && InWindow(s.policy, p, at) && Bound(p, use)
  }

  /** One key signed both, with one jti. */
  predicate SameKey(p: Proof, q: Proof) { p.jkt == q.jkt && p.jti == q.jti }

  /** An accepted proof is still in the store, or the store may have forgotten it by now. */
  predicate Remembered(s: State, a: Acceptance) {
    || (KeyOf(a.p) in s.rows && Stamp(s.store, Expiry(s.policy, a.p)) <= s.rows[KeyOf(a.p)])
    || Forgotten(s.store, s.policy, a.p) <= s.clock
  }

  /** A later acceptance of the same key comes when the store may have forgotten the earlier one. */
  ghost predicate Spaced(store: Store, policy: Policy, accepted: seq<Acceptance>) {
    forall i, j :: 0 <= i < j < |accepted| && SameKey(accepted[i].p, accepted[j].p) ==>
      Forgotten(store, policy, accepted[i].p) <= accepted[j].time
  }

  ghost predicate Inv(s: State) {
    && (forall r :: r in s.reqs ==> RequestOk(s, s.reqs[r]))
    && (forall i :: 0 <= i < |s.accepted| ==> Remembered(s, s.accepted[i]))
    && Spaced(s.store, s.policy, s.accepted)
  }

  lemma RememberedStays(s: State, e: Event, a: Acceptance)
    requires Inv(s) && Enabled(s, e) && Remembered(s, a)
    ensures Remembered(After(s, e), a)
  {
    match e
    case Cleanup(r) =>
      assert RequestOk(s, s.reqs[r]);
      DropsFrom(s.store, s.policy, a.p, s.reqs[r].now);
    case _ =>
  }

  lemma StepPreserves(s: State, e: Event)
    requires Inv(s) && Enabled(s, e)
    ensures Inv(After(s, e))
  {
    var z := After(s, e);
    forall r | r in z.reqs ensures RequestOk(z, z.reqs[r]) {
      if r in s.reqs { assert RequestOk(s, s.reqs[r]); }
    }
    forall i | 0 <= i < |z.accepted| ensures Remembered(z, z.accepted[i]) {
      if i < |s.accepted| { RememberedStays(s, e, s.accepted[i]); }
    }
    if e.Insert? && KeyOf(s.reqs[e.r].p) !in s.rows {
      forall i | 0 <= i < |s.accepted| && KeyOf(s.accepted[i].p) == KeyOf(s.reqs[e.r].p)
        ensures Forgotten(s.store, s.policy, s.accepted[i].p) <= s.clock
      {
        assert Remembered(s, s.accepted[i]);
      }
    }
  }

  lemma {:induction false} RunPreserves(s: State, run: seq<Event>)
    requires Inv(s) && Possible(s, run)
    ensures Inv(Exec(s, run)) && Exec(s, run).policy == s.policy && Exec(s, run).store == s.store
    decreases |run|
  {
    if run != [] {
      StepPreserves(s, run[0]);
      RunPreserves(After(s, run[0]), run[1..]);
    }
  }

  /** For both stores and any cleanups: a key is accepted again only once the earlier proof can be forgotten. */
  lemma SecondAcceptanceIsLate(s: State, run: seq<Event>, i: nat, j: nat)
    requires Initial(s) && Possible(s, run)
    requires var accepted := Exec(s, run).accepted; i < j < |accepted| && SameKey(accepted[i].p, accepted[j].p)
    ensures var accepted := Exec(s, run).accepted;
      && Expiry(s.policy, accepted[i].p) <= Forgotten(s.store, s.policy, accepted[i].p) <= accepted[j].time
  {
    RunPreserves(s, run);
  }

  /** An accepted proof was inside the window when it was checked, and is bound to what it was presented with. */
  lemma AcceptedProofIsBound(s: State, run: seq<Event>, r: nat)
    requires Initial(s) && Possible(s, run)
    requires r in Exec(s, run).reqs && Exec(s, run).reqs[r].Accepted?
    ensures var q := Exec(s, run).reqs[r];
      && q.at - s.policy.maxAge <= q.p.iat * 1_000_000 <= q.at + s.policy.skew
      && q.at <= Exec(s, run).clock
      && (q.use.expectedJkt.Some? ==> q.use.expectedJkt == Some(q.p.jkt))
      && (q.use.tokenHash.Some? ==> q.use.expectedJkt.Some? && q.p.ath == q.use.tokenHash)
  {
    RunPreserves(s, run);
    var z := Exec(s, run);
    assert RequestOk(z, z.reqs[r]);
  }

  /** A proof refused by its checks was outside the window, or not bound to what it was presented with. */
  lemma RefusedProofFails(s: State, run: seq<Event>, r: nat)
    requires Initial(s) && Possible(s, run)
    requires r in Exec(s, run).reqs && Exec(s, run).reqs[r].Refused?
    ensures var q := Exec(s, run).reqs[r];
      || q.p.iat * 1_000_000 < q.at - s.policy.maxAge
      || q.p.iat * 1_000_000 > q.at + s.policy.skew
      || (q.use.tokenHash.Some? && (q.p.ath != q.use.tokenHash || q.use.expectedJkt != Some(q.p.jkt)))
      || (q.use.expectedJkt.Some? && q.use.expectedJkt != Some(q.p.jkt))
  {
    RunPreserves(s, run);
    var z := Exec(s, run);
    assert RequestOk(z, z.reqs[r]);
  }

  /** Everything the store holds was put there by an acceptance. */
  ghost predicate HoldsAccepted(s: State) {
    forall k :: k in s.rows ==> exists i :: 0 <= i < |s.accepted| && KeyOf(s.accepted[i].p) == k
  }

  lemma {:induction false} HoldsAcceptedRun(s: State, run: seq<Event>)
    requires HoldsAccepted(s) && Possible(s, run)
    ensures HoldsAccepted(Exec(s, run))
    decreases |run|
  {
    if run != [] {
      var z := After(s, run[0]);
      forall k | k in z.rows ensures exists i :: 0 <= i < |z.accepted| && KeyOf(z.accepted[i].p) == k {
        if k in s.rows {
          var i :| 0 <= i < |s.accepted| && KeyOf(s.accepted[i].p) == k;
          assert z.accepted[i] == s.accepted[i];
        } else {
          assert KeyOf(z.accepted[|s.accepted|].p) == k;
        }
      }
      HoldsAcceptedRun(z, run[1..]);
    }
  }

  /**
   No honest proof is lost to the store: from an empty one, at any point of any run, an insert is answered as a replay
   only if a proof of the same key with the same jti was accepted before, and is accepted otherwise.
   */
  lemma NewProofIsAccepted(s: State, run: seq<Event>, r: nat)
    requires Initial(s) && s.rows == map[] && Possible(s, run) && Enabled(Exec(s, run), Insert(r))
    ensures var z := Exec(s, run);
      var q := After(z, Insert(r)).reqs[r];
      && q.p == z.reqs[r].p
      && (q.Replayed? ==> exists i :: 0 <= i < |z.accepted| && SameKey(z.accepted[i].p, q.p))
      && (!q.Replayed? ==> q.Accepted? && After(z, Insert(r)).accepted == z.accepted + [Acceptance(q.p, z.clock)])
  {
    HoldsAcceptedRun(s, run);
    var z := Exec(s, run);
    if KeyOf(z.reqs[r].p) in z.rows {
      var i :| 0 <= i < |z.accepted| && KeyOf(z.accepted[i].p) == KeyOf(z.reqs[r].p);
      assert SameKey(z.accepted[i].p, z.reqs[r].p);
    }
  }

  // -- prompt requests ------------------------------------------------------------------------------------

  /** A prompt insert of a proof inside its window comes before the store can forget the proof itself. */
  ghost predicate InTime(store: Store, policy: Policy, accepted: seq<Acceptance>) {
    forall i :: 0 <= i < |accepted| ==> accepted[i].time < Forgotten(store, policy, accepted[i].p)
  }

  lemma {:induction false} PromptRunsAreInTime(s: State, run: seq<Event>, d: int)
    requires Inv(s) && InTime(s.store, s.policy, s.accepted) && Possible(s, run) && Prompt(s, run, d)
    requires d <= Margin(s.store, s.policy)
    ensures InTime(s.store, s.policy, Exec(s, run).accepted)
    decreases |run|
  {
    if run != [] {
      var e := run[0];
      StepPreserves(s, e);
      if e.Insert? {
        assert RequestOk(s, s.reqs[e.r]);
        ForgottenAfterMargin(s.store, s.policy, s.reqs[e.r].p);
      }
      PromptRunsAreInTime(After(s, e), run[1..], d);
    }
  }

  /** Within the margin a key is only ever accepted again with a later `iat`. */
  lemma AcceptedAtMostOnce(s: State, run: seq<Event>, d: int, i: nat, j: nat)
    requires Initial(s) && Possible(s, run) && Prompt(s, run, d) && d <= Margin(s.store, s.policy)
    requires var accepted := Exec(s, run).accepted; i < j < |accepted| && SameKey(accepted[i].p, accepted[j].p)
    ensures var accepted := Exec(s, run).accepted; accepted[i].p.iat < accepted[j].p.iat
  {
    SecondAcceptanceIsLate(s, run, i, j);
    PromptRunsAreInTime(s, run, d);
    var accepted := Exec(s, run).accepted;
    ForgottenAfterMargin(s.store, s.policy, accepted[i].p);
    ForgottenAfterMargin(s.store, s.policy, accepted[j].p);
  }

  /** The same key, jti and iat accepted twice. */
  predicate SameProof(a: Acceptance, b: Acceptance) { SameKey(a.p, b.p) && a.p.iat == b.p.iat }

  predicate AllDistinct(accepted: seq<Acceptance>) {
    forall i, j :: 0 <= i < j < |accepted| ==> !SameProof(accepted[i], accepted[j])
  }

  ghost predicate WithinDelay(s: State, run: seq<Event>, store: Store, policy: Policy, d: int) {
    Initial(s) && s.store == store && s.policy == policy && Possible(s, run) && Prompt(s, run, d)
  }

  /** No run with inserts less than `d` after the check ever accepts one proof twice. */
  ghost predicate NeverTwice(store: Store, policy: Policy, d: int) {
    forall s, run :: WithinDelay(s, run, store, policy, d) ==> AllDistinct(Exec(s, run).accepted)
  }

  /**
   Sections 4.3 and 11.1 of RFC 9449, exactly: for every policy and either store, a proof is accepted at most
   once in every run with inserts less than `d` after the check if and only if `d` is at most the margin. A delay
   of `clock_skew` is always within it.
   */
  lemma AcceptedOnceExactly(store: Store, policy: Policy, d: int)
    requires policy.Valid()
    ensures NeverTwice(store, policy, d) <==> d <= Margin(store, policy)
    ensures policy.skew <= Margin(store, policy)
  {
    if d <= Margin(store, policy) {
      forall s, run | WithinDelay(s, run, store, policy, d) ensures AllDistinct(Exec(s, run).accepted) {
        var accepted := Exec(s, run).accepted;
        forall i, j | 0 <= i < j < |accepted| ensures !SameProof(accepted[i], accepted[j]) {
          if SameKey(accepted[i].p, accepted[j].p) { AcceptedAtMostOnce(s, run, d, i, j); }
        }
      }
    } else {
      var s, run := LateInsertAcceptsTwice(store, policy, d);
      var accepted := Exec(s, run).accepted;
      assert WithinDelay(s, run, store, policy, d) && SameProof(accepted[0], accepted[1]);
    }
  }

  /** Every accepted request is one entry of the list, so two requests never share a proof. */
  ghost predicate Listed(s: State, r: nat, index: map<nat, nat>) {
    r in s.reqs && s.reqs[r].Accepted? ==>
      r in index && index[r] < |s.accepted| && s.accepted[index[r]].p == s.reqs[r].p
  }

  ghost predicate Indexed(s: State, index: map<nat, nat>) {
    && (forall r {:trigger Listed(s, r, index)} :: Listed(s, r, index))
    && (forall r, q :: r in index && q in index && index[r] == index[q] ==> r == q)
    && (forall r :: r in index ==> index[r] < |s.accepted| && r in s.reqs && s.reqs[r].Accepted?)
  }

  lemma {:induction false} AcceptancesAreIndexed(s: State, run: seq<Event>, index: map<nat, nat>)
    returns (last: map<nat, nat>)
    requires Possible(s, run) && Indexed(s, index)
    ensures Indexed(Exec(s, run), last)
    decreases |run|
  {
    if run == [] {
      last := index;
    } else {
      var e, z := run[0], After(s, run[0]);
      var longer := if e.Insert? && KeyOf(s.reqs[e.r].p) !in s.rows then index[e.r := |s.accepted|] else index;
      forall r ensures Listed(z, r, longer) { assert Listed(s, r, index); }
      last := AcceptancesAreIndexed(z, run[1..], longer);
    }
  }

  lemma NoTwoRequestsShareAProof(s: State, run: seq<Event>, d: int, r: nat, q: nat)
    requires Initial(s) && Possible(s, run) && Prompt(s, run, d) && d <= Margin(s.store, s.policy)
    requires var z := Exec(s, run);
      r in z.reqs && q in z.reqs && z.reqs[r].Accepted? && z.reqs[q].Accepted? &&
      SameKey(z.reqs[r].p, z.reqs[q].p) && z.reqs[r].p.iat == z.reqs[q].p.iat
    ensures r == q
  {
    var z := Exec(s, run);
    var index := AcceptancesAreIndexed(s, run, map[]);
    assert Listed(z, r, index) && Listed(z, q, index);
    if index[r] < index[q] {
      AcceptedAtMostOnce(s, run, d, index[r], index[q]);
    } else if index[q] < index[r] {
      AcceptedAtMostOnce(s, run, d, index[q], index[r]);
    }
  }

  // -- past the margin ------------------------------------------------------------------------------------

  const PROOF := Proof("key", "jti", 0, None)
  const USE := Use(None, None)

  /** The first acceptance, at the proof's own `iat`. */
  lemma AcceptFirst(store: Store, policy: Policy, d: int) returns (s: State, run: seq<Event>)
    requires policy.Valid() && d > 0
    ensures WithinDelay(s, run, store, policy, d)
    ensures Exec(s, run) == State(
      policy, store, 0, map[KeyOf(PROOF) := Stamp(store, Expiry(policy, PROOF))], map[0 := Accepted(PROOF, USE, 0)],
      [Acceptance(PROOF, 0)])
  {
    s := State(policy, store, 0, map[], map[], []);
    var s1 := After(s, Begin(0, PROOF, USE));
    var s2 := After(s1, ReadClock(0));
    assert s2.reqs == map[0 := Recording(PROOF, USE, 0, 0)];
    assert After(s2, Insert(0)).reqs == map[0 := Accepted(PROOF, USE, 0)];
    run := PromptChain(s2, Insert(0), [], d);
    run := PromptChain(s1, ReadClock(0), run, d);
    run := PromptChain(s, Begin(0, PROOF, USE), run, d);
  }

  /** The second: checked at the last instant of the window, inserted when the store has just forgotten the first. */
  lemma AcceptAgain(s: State, d: int) returns (run: seq<Event>)
    requires s.policy.Valid() && d > Margin(s.store, s.policy) && s.clock == 0 && 1 !in s.reqs
    requires s.rows == map[KeyOf(PROOF) := Stamp(s.store, Expiry(s.policy, PROOF))]
    ensures Possible(s, run) && Prompt(s, run, d)
    ensures exists time :: Exec(s, run).accepted == s.accepted + [Acceptance(PROOF, time)]
  {
    var wait, late := Tick(s.policy.maxAge), Tick(Margin(s.store, s.policy));
    var s1 := After(s, wait);
    var s2 := After(s1, Begin(1, PROOF, USE));
    assert s2.reqs[1] == Checked(PROOF, USE, s.policy.maxAge);
    var s3 := After(s2, late);
    var s4 := After(s3, ReadClock(1));
    ForgottenAfterMargin(s.store, s.policy, PROOF);
    DropsFrom(s.store, s.policy, PROOF, s4.clock);
    var s5 := After(s4, Cleanup(1));
    assert s5.rows == map[];
    var s6 := After(s5, Insert(1));
    assert s6.accepted == s.accepted + [Acceptance(PROOF, s5.clock)];
    run := PromptChain(s5, Insert(1), [], d);
    run := PromptChain(s4, Cleanup(1), run, d);
    run := PromptChain(s3, ReadClock(1), run, d);
    run := PromptChain(s2, late, run, d);
    run := PromptChain(s1, Begin(1, PROOF, USE), run, d);
    run := PromptChain(s, wait, run, d);
  }

  lemma PromptChain(s: State, e: Event, rest: seq<Event>, d: int) returns (run: seq<Event>)
    requires Enabled(s, e) && Possible(After(s, e), rest) && Prompt(After(s, e), rest, d)
    requires e.Insert? ==> s.clock < s.reqs[e.r].at + d
    ensures Possible(s, run) && Prompt(s, run, d) && Exec(s, run) == Exec(After(s, e), rest)
  {
    run := Chain(s, e, rest);
    assert run[1..] == rest;
  }

  lemma {:induction false} PromptConcat(s: State, a: seq<Event>, b: seq<Event>, d: int)
    requires Possible(s, a) && Prompt(s, a, d) && Possible(Exec(s, a), b) && Prompt(Exec(s, a), b, d)
    ensures Possible(s, a + b) && Prompt(s, a + b, d) && Exec(s, a + b) == Exec(Exec(s, a), b)
    decreases |a|
  {
    if a == [] {
      assert a + b == b;
    } else {
      PromptConcat(After(s, a[0]), a[1..], b, d);
      assert (a + b)[1..] == a[1..] + b;
    }
  }

  /** For every policy, either store and any delay past the margin, a run within that delay accepts one proof twice. */
  lemma LateInsertAcceptsTwice(store: Store, policy: Policy, d: int) returns (s: State, run: seq<Event>)
    requires policy.Valid() && d > Margin(store, policy)
    ensures WithinDelay(s, run, store, policy, d)
    ensures var accepted := Exec(s, run).accepted; |accepted| == 2 && accepted[0].p == accepted[1].p
  {
    var first;
    s, first := AcceptFirst(store, policy, d);
    var second := AcceptAgain(Exec(s, first), d);
    PromptConcat(s, first, second, d);
    run := first + second;
  }

  lemma Chain(s: State, e: Event, rest: seq<Event>) returns (run: seq<Event>)
    requires Enabled(s, e) && Possible(After(s, e), rest)
    ensures run == [e] + rest && Possible(s, run) && Exec(s, run) == Exec(After(s, e), rest)
  {
    run := [e] + rest;
    assert run[1..] == rest;
  }

  // -- the stores as objects ----------------------------------------------------------------------------------

  datatype Recorded = New | Duplicate | Unavailable

  /** The `verification` table: its unique index is the concurrency boundary. */
  class VerificationTable {
    var rows: map<Key, int>

    constructor ()
      ensures rows == map[]
    {
      rows := map[];
    }

    /** `DELETE FROM verification WHERE expires_at < now` */
    method DeleteExpired(now: Instant)
      modifies this
      ensures rows == Purged(Shared, old(rows), now)
      ensures forall k :: k in rows <==> k in old(rows) && old(rows)[k] >= Seconds(now)
      ensures forall k :: k in rows ==> rows[k] == old(rows)[k]
    {
      rows := map k | k in rows && !(rows[k] < Seconds(now)) :: rows[k];
    }

    /** An insert that fails on the unique index, or because the store is unavailable. */
    method Create(key: Key, stamp: int, available: bool) returns (inserted: bool)
      modifies this
      ensures inserted == (available && key !in old(rows))
      ensures rows == if inserted then old(rows)[key := stamp] else old(rows)
    {
      inserted := available && key !in rows;
      if inserted {
        rows := rows[key := stamp];
      }
    }
  }

  class AdapterReplayStore {
    const table: VerificationTable
    const cleanupInterval: int
    var nextCleanup: int

    constructor (table: VerificationTable, cleanupInterval: int)
      requires cleanupInterval > 0
      ensures this.table == table && this.cleanupInterval == cleanupInterval && nextCleanup == 0
    {
      this.table := table;
      this.cleanupInterval := cleanupInterval;
      nextCleanup := 0;
    }

    /**
     `AdapterDPoPReplayStore.record`: at most one cleanup per interval of the monotonic clock, then the
     machine's insert; a failed insert is a replay only if the row can be seen.
     */
    method Record(policy: Policy, p: Proof, now: Instant, monotonic: int, available: bool) returns (r: Recorded)
      requires cleanupInterval > 0
      modifies this, table
      ensures var due := monotonic >= old(nextCleanup);
        var kept := if due then Purged(Shared, old(table.rows), now) else old(table.rows);
        var key, stamp := Key(p.jkt, p.jti), Seconds(p.iat * SECOND + policy.maxAge + policy.skew);
        && nextCleanup == (if due then monotonic + cleanupInterval else old(nextCleanup))
        && r == (if key in kept then Duplicate else if available then New else Unavailable)
        && table.rows == (if r == New then kept[key := stamp] else kept)
    {
      if monotonic >= nextCleanup {
        table.DeleteExpired(now);
        nextCleanup := monotonic + cleanupInterval;
      }
      var inserted := table.Create(KeyOf(p), Seconds(Expiry(policy, p)), available);
      if inserted {
        r := New;
      } else if KeyOf(p) in table.rows {
        r := Duplicate;
      } else {
        r := Unavailable;
      }
    }
  }

  class InMemoryReplayStore {
    var entries: map<Key, Instant>

    constructor ()
      ensures entries == map[]
    {
      entries := map[];
    }

    /** `InMemoryDPoPReplayStore.record`: under its lock, a full purge and then the insert. */
    method Record(policy: Policy, p: Proof, now: Instant) returns (r: Recorded)
      modifies this
      ensures var kept := Purged(InMemory, old(entries), now);
        var key, expires := Key(p.jkt, p.jti), p.iat * SECOND + policy.maxAge + policy.skew;
        && r == (if key in kept then Duplicate else New)
        && entries == (if r == New then kept[key := expires] else kept)
    {
      entries := map k | k in entries && entries[k] > now :: entries[k];
      if KeyOf(p) in entries {
        r := Duplicate;
      } else {
        entries := entries[KeyOf(p) := Expiry(policy, p)];
        r := New;
      }
    }
  }

  /** A store call is a stretch of the machine: the cleanup, if due, and the insert of one request. */
  lemma RecordIsCleanupThenInsert(s: State, r: nat, cleans: bool) returns (run: seq<Event>)
    requires r in s.reqs && s.reqs[r].Recording?
    ensures run == if cleans then [Cleanup(r), Insert(r)] else [Insert(r)]
    ensures Possible(s, run)
    ensures var p := s.reqs[r].p;
      var kept := if cleans then Purged(s.store, s.rows, s.reqs[r].now) else s.rows;
      var key, expires := Key(p.jkt, p.jti), p.iat * SECOND + s.policy.maxAge + s.policy.skew;
      var z := Exec(s, run);
      && r in z.reqs
      && (if key in kept then z.reqs[r].Replayed? else z.reqs[r].Accepted?)
      && z.rows == if key in kept then kept else kept[key := if s.store.Shared? then Seconds(expires) else expires]
  {
    if cleans {
      run := Chain(After(s, Cleanup(r)), Insert(r), []);
      run := Chain(s, Cleanup(r), run);
    } else {
      run := Chain(s, Insert(r), []);
    }
  }
}
