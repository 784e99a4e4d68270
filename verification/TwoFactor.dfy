/**
 TOTP second step: the clock-window search, and the guarded claim that makes one time step pass once, over any
 interleaving with enrolment, confirmation and removal. HOTP is an arbitrary function of secret and counter.
 */
module TwoFactor {
  import opened Wrappers
  import opened Timestamps
  import Decimal

  const PERIOD: int := 30 * SECOND

  type Hotp = (string, int) -> string

  function Counter(now: Instant): int { now / PERIOD }

  /** `code.isdigit()` on a non-empty code. */
  predicate WellFormedCode(code: string) {
    code != "" && forall i :: 0 <= i < |code| ==> Decimal.IsDigit(code[i])
  }

  predicate Matches(hotp: Hotp, secret: string, code: string, step: int) {
    hotp(secret, step) == code
  }

  /** The highest matching step from `lo` up to, but not including, `hi`. */
  function Highest(hotp: Hotp, secret: string, code: string, lo: int, hi: int): Option<int>
    decreases hi - lo
  {
    if hi <= lo then None
    else if Matches(hotp, secret, code, hi - 1) then Some(hi - 1)
    else Highest(hotp, secret, code, lo, hi - 1)
  }

  function Step(hotp: Hotp, secret: string, code: string, now: Instant, window: nat): Option<int> {
    if WellFormedCode(code) then Highest(hotp, secret, code, Counter(now) - window, Counter(now) + window + 1)
    else None
  }

  /** `matching_step`: every candidate is compared, the last match wins. */
  method MatchingStep(hotp: Hotp, secret: string, code: string, now: Instant, window: nat)
    returns (matched: Option<int>)
    ensures matched == Step(hotp, secret, code, now, window)
  {
    if !WellFormedCode(code) { return None; }
    var counter := Counter(now);
    matched := None;
    for step := -(window as int) to window + 1
      invariant matched == Highest(hotp, secret, code, counter - window, counter + step)
    {
      if Matches(hotp, secret, code, counter + step) { matched := Some(counter + step); }
    }
  }

  /** The thirty seconds of this step, and `window` steps around them, hold the instant `now` (in microseconds). */
  predicate InWindow(now: Instant, window: nat, step: int) {
    (step - window) * 30_000_000 <= now < (step + window + 1) * 30_000_000
  }

  lemma WindowIsAroundTheCounter(now: Instant, window: nat, step: int)
    ensures InWindow(now, window, step) <==> Counter(now) - window <= step <= Counter(now) + window
  {
    var counter := Counter(now);
    assert counter * 30_000_000 <= now < (counter + 1) * 30_000_000;
    if step - window <= counter {
      assert (step - window) * 30_000_000 <= counter * 30_000_000;
    } else {
      assert (counter + 1) * 30_000_000 <= (step - window) * 30_000_000;
    }
    if step + window >= counter {
      assert (counter + 1) * 30_000_000 <= (step + window + 1) * 30_000_000;
    } else {
      assert (step + window + 1) * 30_000_000 <= counter * 30_000_000;
    }
  }

  lemma {:induction false} HighestIsHighest(hotp: Hotp, secret: string, code: string, lo: int, hi: int)
    ensures var m := Highest(hotp, secret, code, lo, hi);
      && (m.Some? ==> lo <= m.value < hi && Matches(hotp, secret, code, m.value))
      && (forall k :: lo <= k < hi && Matches(hotp, secret, code, k) ==> m.Some? && k <= m.value)
    decreases hi - lo
  {
    if lo < hi && !Matches(hotp, secret, code, hi - 1) {
      HighestIsHighest(hotp, secret, code, lo, hi - 1);
    }
  }

  /** Whether some step of the window above `last` matches. */
  ghost predicate MatchesAbove(hotp: Hotp, secret: string, code: string, now: Instant, window: nat, last: int) {
    exists k :: InWindow(now, window, k) && k > last && Matches(hotp, secret, code, k)
  }

  /** A non-empty text of ASCII digits. */
  predicate Digits(code: string) { code != "" && forall i :: 0 <= i < |code| ==> code[i] in Decimal.DIGITS }

  lemma WellFormedIsDigits(code: string)
    ensures WellFormedCode(code) <==> Digits(code)
  {
    forall i | 0 <= i < |code| ensures Decimal.IsDigit(code[i]) <==> code[i] in Decimal.DIGITS {
      Decimal.IsADigit(code[i]);
    }
  }

  /** Returning the highest match makes one comparison with the stored step decide for the whole window. */
  lemma HighestDecides(hotp: Hotp, secret: string, code: string, now: Instant, window: nat, last: int)
    ensures var m := Step(hotp, secret, code, now, window);
      && (m.Some? && m.value > last <==> Digits(code) && MatchesAbove(hotp, secret, code, now, window, last))
      && (m.Some? ==> Digits(code) && InWindow(now, window, m.value) && Matches(hotp, secret, code, m.value))
      && (forall k :: Digits(code) && InWindow(now, window, k) && Matches(hotp, secret, code, k) ==>
            m.Some? && k <= m.value)
  {
    WellFormedIsDigits(code);
    HighestIsHighest(hotp, secret, code, Counter(now) - window, Counter(now) + window + 1);
    forall k ensures InWindow(now, window, k) <==> Counter(now) - window <= k <= Counter(now) + window {
      WindowIsAroundTheCounter(now, window, k);
    }
  }

  // -- any number of concurrent calls ---------------------------------------------------------------------

  type User = nat

  /** A `two_factor` row. */
  datatype Row = Row(id: nat, secret: string, enabled: bool, lastUsedStep: int)

  /** A call between its read and its write, or finished. */
  datatype Call =
    | Claiming(user: User, id: nat, previous: int, step: int)
    | Enrolling(user: User, existing: bool, secret: string)
    | Confirming(user: User)
    | Removing(user: User)
    | Passed
    | Refused

  /** A step claimed by a sign-in, under the enrolment it was claimed in. */
  datatype Claimed = Claimed(user: User, enrolment: nat, step: int)

  /** `enrolments` counts the enrolment writes for each user; `claims` lists the claims, oldest first. */
  datatype State = State(
    hotp: Hotp, rows: map<User, Row>, ids: set<nat>, calls: map<nat, Call>, enrolments: map<User, nat>,
    claims: seq<Claimed>)

  /** One database operation of one call. */
  datatype Event =
    | SignIn(c: nat, user: User, code: string, now: Instant)
    | Enable(c: nat, user: User, secret: string)
    | Confirm(c: nat, user: User, code: string, now: Instant)
    | Disable(c: nat, user: User, code: string, now: Instant)
    | Write(c: nat, freshId: nat)

  /** The window `sign_in`, `verify_enrollment` and `disable` use. */
  const WINDOW: nat := 1

  predicate Enabled(s: State, e: Event) {
    match e
    case Write(c, id) => c in s.calls && !s.calls[c].Passed? && !s.calls[c].Refused? && id !in s.ids
    case _ => e.c !in s.calls
  }

  function Read(s: State, e: Event): Call
    requires !e.Write?
  {
    match e
    case SignIn(_, user, code, now) =>
      if user !in s.rows || !s.rows[user].enabled then Refused
      else
        var row := s.rows[user];
        var step := Step(s.hotp, row.secret, code, now, WINDOW);
        if step.None? || step.value <= row.lastUsedStep then Refused
        else Claiming(user, row.id, row.lastUsedStep, step.value)
    case Enable(_, user, secret) =>
      if user in s.rows && s.rows[user].enabled then Refused else Enrolling(user, user in s.rows, secret)
    case Confirm(_, user, code, now) =>
      if user !in s.rows || Step(s.hotp, s.rows[user].secret, code, now, WINDOW).None? then Refused
      else Confirming(user)
    case Disable(_, user, code, now) =>
      if user !in s.rows || !s.rows[user].enabled || Step(s.hotp, s.rows[user].secret, code, now, WINDOW).None?
      then Refused
      else Removing(user)
  }

  function Enrolment(s: State, user: User): nat {
    if user in s.enrolments then s.enrolments[user] else 0
  }

  function AfterClaim(s: State, c: nat, q: Call): State
    requires q.Claiming?
  {
    if q.user in s.rows && s.rows[q.user].id == q.id && s.rows[q.user].enabled &&
       s.rows[q.user].lastUsedStep == q.previous
    then
      s.(rows := s.rows[q.user := s.rows[q.user].(lastUsedStep := q.step)],
         calls := s.calls[c := Passed],
         claims := s.claims + [Claimed(q.user, Enrolment(s, q.user), q.step)])
    else s.(calls := s.calls[c := Refused])
  }

  /** Create or overwrite: neither is guarded on `enabled`, but a second row for the user cannot be created. */
  function AfterEnrol(s: State, c: nat, q: Call, freshId: nat): State
    requires q.Enrolling?
  {
    if q.existing != (q.user in s.rows) then s.(calls := s.calls[c := if q.existing then Passed else Refused])
    else
      var row :=
        if q.existing then s.rows[q.user].(secret := q.secret, lastUsedStep := 0) else Row(freshId, q.secret, false, 0);
      s.(rows := s.rows[q.user := row],
         ids := s.ids + {row.id},
         calls := s.calls[c := Passed],
         enrolments := s.enrolments[q.user := Enrolment(s, q.user) + 1])
  }

  function After(s: State, e: Event): State
    requires Enabled(s, e)
  {
    if !e.Write? then s.(calls := s.calls[e.c := Read(s, e)])
    else
      var q := s.calls[e.c];
      match q
      case Claiming(_, _, _, _) => AfterClaim(s, e.c, q)
      case Enrolling(_, _, _) => AfterEnrol(s, e.c, q, e.freshId)
      case Confirming(user) =>
        var rows := if user in s.rows then s.rows[user := s.rows[user].(enabled := true)] else s.rows;
        s.(rows := rows, calls := s.calls[e.c := Passed])
      case Removing(user) => s.(rows := s.rows - {user}, calls := s.calls[e.c := Passed])
      case _ => s
  }

  predicate Possible(s: State, run: seq<Event>)
    decreases |run|
  {
    run == [] || (Enabled(s, run[0]) && Possible(After(s, run[0]), run[1..]))
  }

  function Exec(s: State, run: seq<Event>): State
    requires Possible(s, run)
    decreases |run|
  {
    if run == [] then s else Exec(After(s, run[0]), run[1..])
  }

  function Start(hotp: Hotp): State { State(hotp, map[], {}, map[], map[], []) }

  /** A claim of the present enrolment is at most the stored step, if the row is still there. */
  predicate ClaimOk(s: State, k: Claimed) {
    && k.enrolment <= Enrolment(s, k.user)
    && (k.enrolment == Enrolment(s, k.user) && k.user in s.rows ==> k.step <= s.rows[k.user].lastUsedStep)
  }

  predicate SameEnrolment(k: Claimed, l: Claimed) { k.user == l.user && k.enrolment == l.enrolment }

  ghost predicate StrictlyRising(claims: seq<Claimed>) {
    forall i, j :: 0 <= i < j < |claims| && SameEnrolment(claims[i], claims[j]) ==> claims[i].step < claims[j].step
  }

  predicate CallOk(q: Call) {
    q.Claiming? ==> q.previous < q.step
  }

  ghost predicate Inv(s: State) {
    && (forall i :: 0 <= i < |s.claims| ==> ClaimOk(s, s.claims[i]))
    && StrictlyRising(s.claims)
    && (forall c :: c in s.calls ==> CallOk(s.calls[c]))
  }

  lemma ClaimStays(s: State, e: Event, k: Claimed)
    requires Inv(s) && Enabled(s, e) && ClaimOk(s, k)
    ensures ClaimOk(After(s, e), k)
  {
    if e.Write? { assert CallOk(s.calls[e.c]); }
  }

  lemma StepPreserves(s: State, e: Event)
    requires Inv(s) && Enabled(s, e)
    ensures Inv(After(s, e))
  {
    var z := After(s, e);
    forall i | 0 <= i < |z.claims| ensures ClaimOk(z, z.claims[i]) {
      if i < |s.claims| { ClaimStays(s, e, s.claims[i]); }
    }
    forall c | c in z.calls ensures CallOk(z.calls[c]) {
      if c in s.calls { assert CallOk(s.calls[c]); }
    }
    if e.Write? && |z.claims| > |s.claims| {
      NewClaimIsHigher(s, e.c, s.calls[e.c]);
    }
  }

  lemma NewClaimIsHigher(s: State, c: nat, q: Call)
    requires Inv(s) && q.Claiming? && q.previous < q.step && |AfterClaim(s, c, q).claims| > |s.claims|
    ensures StrictlyRising(AfterClaim(s, c, q).claims)
  {
    forall i | 0 <= i < |s.claims| && s.claims[i].user == q.user && s.claims[i].enrolment == Enrolment(s, q.user)
      ensures s.claims[i].step < q.step
    {
      assert ClaimOk(s, s.claims[i]);
    }
  }

  lemma {:induction false} RunPreserves(s: State, run: seq<Event>)
    requires Inv(s) && Possible(s, run)
    ensures Inv(Exec(s, run))
    decreases |run|
  {
    if run != [] {
      StepPreserves(s, run[0]);
      RunPreserves(After(s, run[0]), run[1..]);
    }
  }

  /** Section 5.2 of RFC 6238: between two enrolment writes the claimed steps rise, so none is claimed twice. */
  lemma NoStepClaimedTwice(hotp: Hotp, run: seq<Event>, i: nat, j: nat)
    requires Possible(Start(hotp), run)
    requires var claims := Exec(Start(hotp), run).claims;
      i < j < |claims| && SameEnrolment(claims[i], claims[j])
    ensures var claims := Exec(Start(hotp), run).claims; claims[i].step < claims[j].step
  {
    RunPreserves(Start(hotp), run);
  }

  /** Rows and calls carry ids that were handed out, so a removed row's id never comes back. */
  ghost predicate Numbered(s: State) {
    && (forall user :: user in s.rows ==> s.rows[user].id in s.ids)
    && (forall c :: c in s.calls && s.calls[c].Claiming? ==> s.calls[c].id in s.ids)
  }

  predicate Removed(s: State, id: nat) {
    id in s.ids && forall user :: user in s.rows ==> s.rows[user].id != id
  }

  /** A call that still waits to claim for this row, or was refused. */
  predicate WithoutClaim(s: State, c: nat, id: nat) {
    c in s.calls && ((s.calls[c].Claiming? && s.calls[c].id == id) || s.calls[c].Refused?)
  }

  lemma NumberedStep(s: State, e: Event)
    requires Numbered(s) && Enabled(s, e)
    ensures Numbered(After(s, e))
  {
  }

  lemma {:induction false} NumberedRun(s: State, run: seq<Event>)
    requires Numbered(s) && Possible(s, run)
    ensures Numbered(Exec(s, run))
    decreases |run|
  {
    if run != [] {
      NumberedStep(s, run[0]);
      NumberedRun(After(s, run[0]), run[1..]);
    }
  }

  lemma {:induction false} RemovedStays(s: State, run: seq<Event>, c: nat, id: nat)
    requires Numbered(s) && Possible(s, run) && Removed(s, id) && WithoutClaim(s, c, id)
    ensures WithoutClaim(Exec(s, run), c, id) && Removed(Exec(s, run), id)
    decreases |run|
  {
    if run != [] {
      NumberedStep(s, run[0]);
      RemovedStays(After(s, run[0]), run[1..], c, id);
    }
  }

  /** Once a second factor is removed, no sign-in that read its row passes, also if the user has enrolled again. */
  lemma RemovedFactorNeverPasses(hotp: Hotp, before: seq<Event>, later: seq<Event>, c: nat)
    requires Possible(Start(hotp), before) && Possible(Exec(Start(hotp), before), later)
    requires var s := Exec(Start(hotp), before);
      c in s.calls && s.calls[c].Claiming? && forall user :: user in s.rows ==> s.rows[user].id != s.calls[c].id
    ensures var z := Exec(Exec(Start(hotp), before), later);
      c in z.calls && (z.calls[c].Claiming? || z.calls[c].Refused?)
  {
    var s := Exec(Start(hotp), before);
    NumberedRun(Start(hotp), before);
    RemovedStays(s, later, c, s.calls[c].id);
  }

  /** An enrolment whose first read is out of date writes nothing: the create hits the unique key, the update no row. */
  lemma LateEnrolmentWritesNothing(s: State, c: nat, id: nat)
    requires Enabled(s, Write(c, id)) && s.calls[c].Enrolling? && s.calls[c].existing != (s.calls[c].user in s.rows)
    ensures After(s, Write(c, id)) == s.(calls := s.calls[c := if s.calls[c].user in s.rows then Refused else Passed])
  {
  }

  // -- one call with nothing interleaved -----------------------------------------------------------------

  lemma OneStep(s: State, e: Event)
    requires Enabled(s, e)
    ensures Possible(s, [e]) && Exec(s, [e]) == After(s, e)
  {
    assert [e][1..] == [];
  }

  lemma TwoSteps(s: State, e: Event, f: Event)
    requires Enabled(s, e) && Enabled(After(s, e), f)
    ensures Possible(s, [e, f]) && Exec(s, [e, f]) == After(After(s, e), f)
  {
    assert [e, f][1..] == [f];
    OneStep(After(s, e), f);
  }

  /** The read, and the write unless the read ended the call. */
  function Alone(s: State, e: Event, freshId: nat): (run: seq<Event>)
    requires !e.Write? && Enabled(s, e)
  {
    if Read(s, e).Refused? then [e] else [e, Write(e.c, freshId)]
  }

  lemma AloneIsARun(s: State, e: Event, freshId: nat)
    requires !e.Write? && Enabled(s, e) && freshId !in s.ids
    ensures Possible(s, Alone(s, e, freshId))
    ensures Exec(s, Alone(s, e, freshId)) ==
      if Read(s, e).Refused? then After(s, e) else After(After(s, e), Write(e.c, freshId))
  {
    if Read(s, e).Refused? { OneStep(s, e); } else { TwoSteps(s, e, Write(e.c, freshId)); }
  }

  /** Some step within one step of the clock matches. */
  ghost predicate MatchesNow(hotp: Hotp, secret: string, code: string, now: Instant) {
    Digits(code) && exists k :: InWindow(now, 1, k) && Matches(hotp, secret, code, k)
  }

  lemma MatchesNowDecides(hotp: Hotp, secret: string, code: string, now: Instant)
    ensures Step(hotp, secret, code, now, WINDOW).Some? <==> MatchesNow(hotp, secret, code, now)
  {
    HighestDecides(hotp, secret, code, now, WINDOW, 0);
  }

  /** `step` is the highest matching step of the window, and above `last`. */
  ghost predicate ClaimsStep(hotp: Hotp, secret: string, code: string, now: Instant, last: int, step: int) {
    && Digits(code) && step > last && InWindow(now, 1, step) && Matches(hotp, secret, code, step)
    && forall k :: InWindow(now, 1, k) && Matches(hotp, secret, code, k) ==> k <= step
  }

  /** A sign-in alone passes exactly when a step of the window above the stored one matches; the highest is stored. */
  lemma SequentialSignIn(s: State, c: nat, user: User, code: string, now: Instant, id: nat)
    requires c !in s.calls && id !in s.ids
    ensures var run := Alone(s, SignIn(c, user, code, now), id);
      && Possible(s, run)
      && var z := Exec(s, run);
         if user in s.rows && s.rows[user].enabled && Digits(code) &&
            MatchesAbove(s.hotp, s.rows[user].secret, code, now, 1, s.rows[user].lastUsedStep)
         then
           && z.calls == s.calls[c := Passed]
           && user in z.rows
           && var step := z.rows[user].lastUsedStep;
              && ClaimsStep(s.hotp, s.rows[user].secret, code, now, s.rows[user].lastUsedStep, step)
              && z.rows == s.rows[user := s.rows[user].(lastUsedStep := step)]
              && z.claims == s.claims + [Claimed(user, Enrolment(s, user), step)]
         else z == s.(calls := s.calls[c := Refused])
  {
    AloneIsARun(s, SignIn(c, user, code, now), id);
    if user in s.rows { HighestDecides(s.hotp, s.rows[user].secret, code, now, WINDOW, s.rows[user].lastUsedStep); }
  }

  /** An enrolment alone is refused while the second factor is enabled; otherwise it starts over, not yet enabled. */
  lemma SequentialEnable(s: State, c: nat, user: User, secret: string, id: nat)
    requires c !in s.calls && id !in s.ids
    ensures var run := Alone(s, Enable(c, user, secret), id);
      && Possible(s, run)
      && var z := Exec(s, run);
         if user in s.rows && s.rows[user].enabled then z == s.(calls := s.calls[c := Refused])
         else
           && z.calls == s.calls[c := Passed] && z.claims == s.claims
           && Enrolment(z, user) == Enrolment(s, user) + 1
           && user in z.rows && z.rows == s.rows[user := z.rows[user]]
           && z.rows[user] == Row(if user in s.rows then s.rows[user].id else id, secret, false, 0)
  {
    AloneIsARun(s, Enable(c, user, secret), id);
  }

  lemma SequentialConfirm(s: State, c: nat, user: User, code: string, now: Instant, id: nat)
    requires c !in s.calls && id !in s.ids
    ensures var run := Alone(s, Confirm(c, user, code, now), id);
      && Possible(s, run)
      && var z := Exec(s, run);
         if user in s.rows && MatchesNow(s.hotp, s.rows[user].secret, code, now) then
           z == s.(calls := s.calls[c := Passed], rows := s.rows[user := s.rows[user].(enabled := true)])
         else z == s.(calls := s.calls[c := Refused])
  {
    AloneIsARun(s, Confirm(c, user, code, now), id);
    if user in s.rows { MatchesNowDecides(s.hotp, s.rows[user].secret, code, now); }
  }

  lemma SequentialDisable(s: State, c: nat, user: User, code: string, now: Instant, id: nat)
    requires c !in s.calls && id !in s.ids
    ensures var run := Alone(s, Disable(c, user, code, now), id);
      && Possible(s, run)
      && var z := Exec(s, run);
         if user in s.rows && s.rows[user].enabled && MatchesNow(s.hotp, s.rows[user].secret, code, now) then
           z == s.(calls := s.calls[c := Passed], rows := s.rows - {user})
         else z == s.(calls := s.calls[c := Refused])
  {
    AloneIsARun(s, Disable(c, user, code, now), id);
    if user in s.rows { MatchesNowDecides(s.hotp, s.rows[user].secret, code, now); }
  }

  // -- the handlers as methods --------------------------------------------------------------------------------

  datatype Response = Success | Problem(status: nat)

  class TwoFactorTable {
    var rows: map<User, Row>

    constructor ()
      ensures rows == map[]
    {
      rows := map[];
    }

    /** `enable`; the new secret and the new row's id are parameters. */
    method EnableTotp(user: User, secret: string, freshId: nat) returns (r: Response)
      modifies this
      ensures r == (if user in old(rows) && old(rows)[user].enabled then Problem(409) else Success)
      ensures r.Success? ==>
        user in rows && !rows[user].enabled && rows[user].secret == secret && rows[user].lastUsedStep == 0
      ensures r.Success? ==> rows[user].id == if user in old(rows) then old(rows)[user].id else freshId
      ensures rows == if r.Success? then old(rows)[user := rows[user]] else old(rows)
    {
      if user in rows && rows[user].enabled { return Problem(409); }
      if user !in rows {
        rows := rows[user := Row(freshId, secret, false, 0)];
      } else {
        rows := rows[user := rows[user].(secret := secret, lastUsedStep := 0)];
      }
      return Success;
    }

    /** `verify_enrollment` */
    method VerifyEnrollment(hotp: Hotp, user: User, code: string, now: Instant) returns (r: Response)
      modifies this
      ensures r.Success? <==> user in old(rows) && MatchesNow(hotp, old(rows)[user].secret, code, now)
      ensures r.Success? ==> rows == old(rows)[user := old(rows)[user].(enabled := true)]
      ensures !r.Success? ==> rows == old(rows) && r == Problem(400)
    {
      if user !in rows { return Problem(400); }
      var step := MatchingStep(hotp, rows[user].secret, code, now, WINDOW);
      MatchesNowDecides(hotp, rows[user].secret, code, now);
      if step == None { return Problem(400); }
      rows := rows[user := rows[user].(enabled := true)];
      return Success;
    }

    /** `disable` */
    method DisableTotp(hotp: Hotp, user: User, code: string, now: Instant) returns (r: Response)
      modifies this
      ensures r.Success? <==>
        user in old(rows) && old(rows)[user].enabled && MatchesNow(hotp, old(rows)[user].secret, code, now)
      ensures r.Success? ==> rows == old(rows) - {user}
      ensures !r.Success? ==> rows == old(rows) && r == Problem(400)
    {
      if user !in rows || !rows[user].enabled { return Problem(400); }
      var step := MatchingStep(hotp, rows[user].secret, code, now, WINDOW);
      MatchesNowDecides(hotp, rows[user].secret, code, now);
      if step == None { return Problem(400); }
      rows := rows - {user};
      return Success;
    }

    /** The compare-and-set on `last_used_step`. */
    method ClaimStep(user: User, id: nat, previous: int, step: int) returns (claimed: nat)
      modifies this
      ensures claimed ==
        if user in old(rows) && old(rows)[user].id == id && old(rows)[user].enabled &&
           old(rows)[user].lastUsedStep == previous
        then 1 else 0
      ensures rows == if claimed == 1 then old(rows)[user := old(rows)[user].(lastUsedStep := step)] else old(rows)
    {
      claimed := 0;
      if user in rows && rows[user].id == id && rows[user].enabled && rows[user].lastUsedStep == previous {
        rows := rows[user := rows[user].(lastUsedStep := step)];
        claimed := 1;
      }
    }

    /**
     `sign_in` alone: a live challenge for an enabled user passes exactly when some step of the window above the
     stored one matches, and the highest such step is stored. A user row that is gone is refused after the claim.
     */
    method SignInTotp(hotp: Hotp, challenge: Option<User>, code: string, now: Instant, userExists: bool)
      returns (r: Response)
      modifies this
      ensures challenge == None ==> r == Problem(400) && rows == old(rows)
      ensures challenge.Some? ==> var user := challenge.value;
        var claims := user in old(rows) && old(rows)[user].enabled && Digits(code) &&
          MatchesAbove(hotp, old(rows)[user].secret, code, now, 1, old(rows)[user].lastUsedStep);
        && r == (if claims && userExists then Success else Problem(401))
        && (!claims ==> rows == old(rows))
        && (claims ==>
              && user in rows
              && rows == old(rows)[user := old(rows)[user].(lastUsedStep := rows[user].lastUsedStep)]
              && ClaimsStep(
                   hotp, old(rows)[user].secret, code, now, old(rows)[user].lastUsedStep, rows[user].lastUsedStep))
    {
      if challenge == None { return Problem(400); }
      var user := challenge.value;
      if user !in rows || !rows[user].enabled { return Problem(401); }
      var row := rows[user];
      var step := MatchingStep(hotp, row.secret, code, now, WINDOW);
      HighestDecides(hotp, row.secret, code, now, WINDOW, row.lastUsedStep);
      if step == None || step.value <= row.lastUsedStep { return Problem(401); }
      var claimed := ClaimStep(user, row.id, row.lastUsedStep, step.value);
      if claimed != 1 {
        assert false;
      }
      if !userExists { return Problem(401); }
      return Success;
    }
  }
}
