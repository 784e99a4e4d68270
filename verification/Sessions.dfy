/**
 Session activity: expiry, idle timeout, sparse compare-and-set touches and revocations, over any interleaving
 of calls whose clocks need not agree. Stamps are whole seconds; `Timestamps` proves that the stored texts
 compare like them.
 */
module Sessions {
  import opened Wrappers
  import opened Timestamps

  type Digest = nat

  datatype Row = Row(id: nat, user: nat, expiresAt: int, lastActive: int, createdAt: int)

  /** The `session` table; its token digest column is unique. */
  type Table = map<Digest, Row>

  datatype Config = Config(idle: Option<int>, touch: int) {
    /** What the constructor of `Auth` accepts. */
    predicate Valid() { touch > 0 && (idle.Some? ==> touch < idle.value) }

    /** A touch interval in whole seconds. */
    function TouchSeconds(): int { touch / SECOND }
  }

  predicate IsExpired(cfg: Config, row: Row, moment: Instant) {
    || row.expiresAt <= Seconds(moment)
    || (cfg.idle.Some? && row.lastActive <= Seconds(moment - cfg.idle.value))
  }

  predicate NeedsTouch(cfg: Config, row: Row, moment: Instant) {
    row.lastActive <= Seconds(moment - cfg.touch)
  }

  function NewRow(id: nat, user: nat, moment: Instant, ttl: int): Row {
    Row(id, user, Seconds(moment + ttl), Seconds(moment), Seconds(moment))
  }

  // -- one call after another -----------------------------------------------------------------------------

  /** A call with nothing interleaved: the row it leaves, or None when it deletes the row. */
  function Use(cfg: Config, row: Row, moment: Instant): Option<Row> {
    if IsExpired(cfg, row, moment) then None
    else if NeedsTouch(cfg, row, moment) then Some(row.(lastActive := Seconds(moment)))
    else Some(row)
  }

  function UseAll(cfg: Config, row: Row, moments: seq<Instant>): Option<Row>
    decreases |moments|
  {
    if moments == [] then Some(row)
    else
      match Use(cfg, row, moments[0])
      case None => None
      case Some(next) => UseAll(cfg, next, moments[1..])
  }

  /** A session created at `start` and then used with no gap longer than `gap`, all before its deadline. */
  predicate Regular(start: Instant, gap: int, deadline: int, moments: seq<Instant>)
    decreases |moments|
  {
    moments == [] || (
      && start <= moments[0] <= start + gap
      && Seconds(moments[0]) < deadline
      && Regular(moments[0], gap, deadline, moments[1..]))
  }

  /** The last activity that is remembered is less than one touch interval old. */
  predicate FreshAt(cfg: Config, row: Row, moment: Instant) {
    row.lastActive > Seconds(moment - cfg.touch)
  }

  lemma {:induction false} RegularUseSurvives(cfg: Config, row: Row, start: Instant, moments: seq<Instant>)
    requires cfg.Valid() && cfg.idle.Some? && cfg.touch >= SECOND
    requires FreshAt(cfg, row, start) && Regular(start, cfg.idle.value - cfg.touch, row.expiresAt, moments)
    ensures UseAll(cfg, row, moments).Some?
    decreases |moments|
  {
    if moments != [] {
      var t := moments[0];
      assert Seconds(t - cfg.idle.value) <= Seconds(start - cfg.touch);
      var next := Use(cfg, row, t).value;
      assert Seconds(t - cfg.touch) < Seconds(t);
      RegularUseSurvives(cfg, next, t, moments[1..]);
    }
  }

  /** Every regular use of a session created under `cfg` keeps it alive. */
  ghost predicate NeverSpuriouslyIdle(cfg: Config)
    requires cfg.idle.Some?
  {
    forall id, user, start, ttl, moments {:trigger UseAll(cfg, NewRow(id, user, start, ttl), moments)} ::
      Regular(start, cfg.idle.value - cfg.touch, NewRow(id, user, start, ttl).expiresAt, moments) ==>
        UseAll(cfg, NewRow(id, user, start, ttl), moments).Some?
  }

  /**
   Over runs of any length: a session used at gaps of at most `idle - touch` is never idle-expired before its
   deadline exactly when the touch interval is at least a second. Below a second, truncation can hide a touch.
   */
  lemma NoSpuriousIdleLogout(cfg: Config)
    requires cfg.Valid() && cfg.idle.Some?
    ensures NeverSpuriouslyIdle(cfg) <==> cfg.touch >= SECOND
  {
    if cfg.touch >= SECOND {
      forall id, user, start, ttl, moments
        | Regular(start, cfg.idle.value - cfg.touch, NewRow(id, user, start, ttl).expiresAt, moments)
        ensures UseAll(cfg, NewRow(id, user, start, ttl), moments).Some?
      {
        RegularUseSurvives(cfg, NewRow(id, user, start, ttl), start, moments);
      }
    } else {
      SubSecondTouchFails(cfg);
    }
  }

  /** Created at `touch` past a whole second and used `idle - touch` later: truncation hides the touch interval. */
  lemma SubSecondTouchFails(cfg: Config)
    requires cfg.Valid() && cfg.idle.Some? && cfg.touch < SECOND
    ensures !NeverSpuriouslyIdle(cfg)
  {
    var ttl := cfg.idle.value + SECOND;
    var row := NewRow(0, 0, cfg.touch, ttl);
    var moments := [cfg.idle.value];
    assert moments[1..] == [];
    assert Seconds(cfg.idle.value) < row.expiresAt;
    assert Regular(cfg.touch, cfg.idle.value - cfg.touch, row.expiresAt, moments);
    assert row.lastActive == 0 && Seconds(cfg.idle.value - cfg.idle.value) == 0;
    assert UseAll(cfg, row, moments).None?;
  }

  lemma {:induction false} NothingPastTheDeadline(cfg: Config, row: Row, moments: seq<Instant>, i: nat)
    requires i < |moments| && UseAll(cfg, row, moments).Some?
    ensures Seconds(moments[i]) < row.expiresAt
    decreases |moments|
  {
    if i > 0 { NothingPastTheDeadline(cfg, Use(cfg, row, moments[0]).value, moments[1..], i - 1); }
  }

  lemma {:induction false} NeverIdleWithoutTimeout(cfg: Config, row: Row, moments: seq<Instant>)
    requires cfg.idle.None? && forall i :: 0 <= i < |moments| ==> Seconds(moments[i]) < row.expiresAt
    ensures UseAll(cfg, row, moments).Some?
    decreases |moments|
  {
    if moments != [] { NeverIdleWithoutTimeout(cfg, Use(cfg, row, moments[0]).value, moments[1..]); }
  }

  /**
   However often a session is used, it never resolves at or after its creation plus `ttl`; and without an idle timeout
   it resolves at every use whose second is before that one.
   */
  lemma NeverOutlivesItsTtl(cfg: Config, id: nat, user: nat, start: Instant, ttl: int, moments: seq<Instant>)
    ensures UseAll(cfg, NewRow(id, user, start, ttl), moments).Some? ==>
      forall i :: 0 <= i < |moments| ==> moments[i] < start + ttl
    ensures cfg.idle.None? && (forall i :: 0 <= i < |moments| ==> Seconds(moments[i]) < Seconds(start + ttl)) ==>
      UseAll(cfg, NewRow(id, user, start, ttl), moments).Some?
  {
    var row := NewRow(id, user, start, ttl);
    if UseAll(cfg, row, moments).Some? {
      forall i | 0 <= i < |moments| ensures moments[i] < start + ttl { NothingPastTheDeadline(cfg, row, moments, i); }
    }
    if cfg.idle.None? && forall i :: 0 <= i < |moments| ==> Seconds(moments[i]) < Seconds(start + ttl) {
      NeverIdleWithoutTimeout(cfg, row, moments);
    }
  }

  lemma {:induction false} ActivityIsPast(cfg: Config, row: Row, moments: seq<Instant>, last: Instant)
    requires row.lastActive <= Seconds(last) && forall i :: 0 <= i < |moments| ==> moments[i] <= last
    ensures UseAll(cfg, row, moments).Some? ==> UseAll(cfg, row, moments).value.lastActive <= Seconds(last)
    decreases |moments|
  {
    if moments != [] && Use(cfg, row, moments[0]).Some? {
      ActivityIsPast(cfg, Use(cfg, row, moments[0]).value, moments[1..], last);
    }
  }

  /** However a session was used, a whole idle timeout after its last use it does not resolve any more. */
  lemma IdleTimeoutEnds(
      cfg: Config, id: nat, user: nat, start: Instant, ttl: int, moments: seq<Instant>, last: Instant, t: Instant)
    requires cfg.idle.Some? && start <= last && last + cfg.idle.value <= t
    requires forall i :: 0 <= i < |moments| ==> moments[i] <= last
    ensures var used := UseAll(cfg, NewRow(id, user, start, ttl), moments);
      used.Some? ==> Use(cfg, used.value, t).None?
  {
    ActivityIsPast(cfg, NewRow(id, user, start, ttl), moments, last);
  }

  // -- any number of concurrent calls ---------------------------------------------------------------------

  /** Where a `resolve_session` call stands between two database operations. */
  datatype Call =
    | Expiring(digest: Digest, row: Row, moment: Instant)
    | Touching(digest: Digest, row: Row, moment: Instant)
    | Rereading(digest: Digest, moment: Instant)
    | Done(digest: Digest, moment: Instant, result: Option<Row>)

  /** `touches` counts successful touches; `ids` and `digests` are every one handed out so far. */
  datatype State = State(
    cfg: Config, rows: Table, calls: map<nat, Call>, touches: map<Digest, nat>, ids: set<nat>, digests: set<Digest>)

  /** One database operation; a call's clock reads anything. */
  datatype Event =
    | Create(digest: Digest, id: nat, user: nat, moment: Instant, ttl: int)
    | Find(c: nat, digest: Digest, moment: Instant)
    | DeleteExpired(c: nat)
    | Touch(c: nat)
    | Reread(c: nat)
    | Revoke(digest: Digest)
    | RevokeOwned(user: nat, id: nat)
    | RevokeAll(user: nat, except: Option<nat>)

  predicate Enabled(s: State, e: Event) {
    match e
    case Create(d, id, _, _, _) => d !in s.digests && id !in s.ids
    case Find(c, _, _) => c !in s.calls
    case DeleteExpired(c) => c in s.calls && s.calls[c].Expiring?
    case Touch(c) => c in s.calls && s.calls[c].Touching?
    case Reread(c) => c in s.calls && s.calls[c].Rereading?
    case _ => true
  }

  /** After the first read, up to the next database operation. */
  function Decide(cfg: Config, d: Digest, found: Option<Row>, moment: Instant): Call {
    match found
    case None => Done(d, moment, None)
    case Some(row) =>
      if IsExpired(cfg, row, moment) then Expiring(d, row, moment)
      else if NeedsTouch(cfg, row, moment) then Touching(d, row, moment)
      else Done(d, moment, Some(row))
  }

  function Lookup(rows: Table, d: Digest): Option<Row> {
    if d in rows then Some(rows[d]) else None
  }

  /** Deletes the row with this id and token digest. */
  function DeleteOne(rows: Table, d: Digest, id: nat): Table {
    if d in rows && rows[d].id == id then rows - {d} else rows
  }

  function DeleteWhere(rows: Table, doomed: Row -> bool): Table {
    map d | d in rows && !doomed(rows[d]) :: rows[d]
  }

  /** The rows such a delete affects. */
  function Doomed(rows: Table, doomed: Row -> bool): set<Digest> {
    set d | d in rows && doomed(rows[d])
  }

  function AfterTouch(s: State, c: nat, call: Call): State
    requires call.Touching?
  {
    var d, stamp := call.digest, Seconds(call.moment);
    if d in s.rows && s.rows[d].id == call.row.id && s.rows[d].lastActive == call.row.lastActive then
      s.(rows := s.rows[d := s.rows[d].(lastActive := stamp)],
         calls := s.calls[c := Done(d, call.moment, Some(call.row.(lastActive := stamp)))],
         touches := s.touches[d := (if d in s.touches then s.touches[d] else 0) + 1])
    else s.(calls := s.calls[c := Rereading(d, call.moment)])
  }

  function AfterReread(s: State, c: nat, call: Call): State
    requires call.Rereading?
  {
    var found := Lookup(s.rows, call.digest);
    var result := if found.None? || IsExpired(s.cfg, found.value, call.moment) then None else found;
    s.(calls := s.calls[c := Done(call.digest, call.moment, result)])
  }

  function After(s: State, e: Event): State
    requires Enabled(s, e)
  {
    match e
    case Create(d, id, user, moment, ttl) =>
      s.(rows := s.rows[d := NewRow(id, user, moment, ttl)], ids := s.ids + {id}, digests := s.digests + {d})
    case Find(c, d, moment) => s.(calls := s.calls[c := Decide(s.cfg, d, Lookup(s.rows, d), moment)])
    case DeleteExpired(c) =>
      s.(rows := DeleteOne(s.rows, s.calls[c].digest, s.calls[c].row.id),
         calls := s.calls[c := Done(s.calls[c].digest, s.calls[c].moment, None)])
    case Touch(c) => AfterTouch(s, c, s.calls[c])
    case Reread(c) => AfterReread(s, c, s.calls[c])
    case Revoke(d) => s.(rows := s.rows - {d})
    case RevokeOwned(user, id) => s.(rows := DeleteWhere(s.rows, (row: Row) => row.id == id && row.user == user))
    case RevokeAll(user, except) =>
      s.(rows := DeleteWhere(s.rows, (row: Row) => row.user == user && !(except.Some? && row.id == except.value)))
  }

  predicate Possible(s: State, run: seq<Event>)
    decreases |run|
  {
    run == [] || (Enabled(s, run[0]) && Possible(After(s, run[0]), run[1..]))
  }

  function Exec(s: State, run: seq<Event>): State
    requires Possible(s, run)
    decreases |run|
  {
    if run == [] then s else Exec(After(s, run[0]), run[1..])
  }

  /** Calls remember rows as they were read, so the remembered row differs from the stored one only in its activity. */
  predicate CallOk(s: State, call: Call) {
    match call
    case Expiring(d, row, moment) =>
      d in s.digests && IsExpired(s.cfg, row, moment) && (d in s.rows ==> SameButActivity(row, s.rows[d]))
    case Touching(d, row, moment) =>
      && d in s.digests && NeedsTouch(s.cfg, row, moment) && !IsExpired(s.cfg, row, moment)
      && (d in s.rows ==> SameButActivity(row, s.rows[d]))
    case Done(_, moment, Some(row)) => !IsExpired(s.cfg, row, moment)
    case _ => true
  }

  predicate SameButActivity(r: Row, q: Row) {
    r.(lastActive := 0) == q.(lastActive := 0)
  }

  ghost predicate Inv(s: State) {
    && s.cfg.Valid()
    && (forall d :: d in s.rows ==> d in s.digests && s.rows[d].id in s.ids)
    && (forall c :: c in s.calls ==> CallOk(s, s.calls[c]))
  }

  function Touches(s: State, d: Digest): nat { if d in s.touches then s.touches[d] else 0 }

  /** From one state to a later one: gone rows stay gone, kept rows move only forward and only by touches. */
  predicate Evolved(s: State, z: State, d: Digest) {
    && (d in s.digests ==> d in z.digests)
    && (d in s.digests && d !in s.rows ==> d !in z.rows)
    && Touches(s, d) <= Touches(z, d)
    && (d in s.rows && d in z.rows ==>
          && SameButActivity(s.rows[d], z.rows[d])
          && s.rows[d].lastActive <= z.rows[d].lastActive
          && (Touches(z, d) - Touches(s, d)) * s.cfg.TouchSeconds() <= z.rows[d].lastActive - s.rows[d].lastActive)
  }

  lemma TouchMovesForward(cfg: Config, last: int, moment: Instant)
    requires cfg.Valid() && last <= Seconds(moment - cfg.touch)
    ensures last + cfg.TouchSeconds() <= Seconds(moment) && last <= Seconds(moment)
  {
  }

  lemma StepEvolves(s: State, e: Event, d: Digest)
    requires Inv(s) && Enabled(s, e)
    ensures Evolved(s, After(s, e), d)
  {
    if e.Touch? {
      assert CallOk(s, s.calls[e.c]);
      TouchMovesForward(s.cfg, s.calls[e.c].row.lastActive, s.calls[e.c].moment);
    }
  }

  lemma StepPreserves(s: State, e: Event)
    requires Inv(s) && Enabled(s, e)
    ensures Inv(After(s, e)) && After(s, e).cfg == s.cfg
  {
    var z := After(s, e);
    forall c | c in z.calls ensures CallOk(z, z.calls[c]) {
      if c in s.calls {
        assert CallOk(s, s.calls[c]);
        if s.calls[c].Expiring? || s.calls[c].Touching? { StepEvolves(s, e, s.calls[c].digest); }
      }
    }
  }

  lemma {:induction false} RunEvolves(s: State, run: seq<Event>, d: Digest)
    requires Inv(s) && Possible(s, run)
    ensures Inv(Exec(s, run)) && Exec(s, run).cfg == s.cfg
    ensures Evolved(s, Exec(s, run), d)
    decreases |run|
  {
    if run != [] {
      var m := After(s, run[0]);
      StepPreserves(s, run[0]);
      StepEvolves(s, run[0], d);
      RunEvolves(m, run[1..], d);
      EvolvedTwice(s, m, Exec(s, run), d);
    }
  }

  lemma EvolvedTwice(s: State, m: State, z: State, d: Digest)
    requires Evolved(s, m, d) && Evolved(m, z, d) && m.cfg == s.cfg && (d in s.rows ==> d in s.digests)
    ensures Evolved(s, z, d)
  {
    var a, b, c := Touches(s, d), Touches(m, d), Touches(z, d);
    assert (c - a) * s.cfg.TouchSeconds() == (c - b) * s.cfg.TouchSeconds() + (b - a) * s.cfg.TouchSeconds();
  }

  // -- what the runs show -----------------------------------------------------------------------------------

  function Start(cfg: Config): State { State(cfg, map[], map[], map[], {}, {}) }

  /**
   Under any interleaving and any clocks, between two points of a run: a deleted row stays deleted, a kept row
   changes only in its activity, and k successful touches move that forward by at least k whole touch intervals.
   */
  lemma TouchesAdvance(cfg: Config, before: seq<Event>, later: seq<Event>, d: Digest)
    requires cfg.Valid() && Possible(Start(cfg), before) && Possible(Exec(Start(cfg), before), later)
    ensures var s := Exec(Start(cfg), before);
      var z := Exec(s, later);
      && (d in s.digests && d !in s.rows ==> d !in z.rows)
      && (d in s.rows && d in z.rows ==>
            && z.rows[d] == s.rows[d].(lastActive := z.rows[d].lastActive)
            && s.rows[d].lastActive <= z.rows[d].lastActive
            && s.rows[d].lastActive + (Touches(z, d) - Touches(s, d)) * cfg.TouchSeconds() <= z.rows[d].lastActive)
  {
    RunEvolves(Start(cfg), before, d);
    RunEvolves(Exec(Start(cfg), before), later, d);
  }

  /** A call that returns a row does so in a database step after which exactly that row is stored. */
  lemma ReturnedRowIsStored(s: State, e: Event, c: nat)
    requires Inv(s) && Enabled(s, e)
    requires c in After(s, e).calls && After(s, e).calls[c].Done? && After(s, e).calls[c].result.Some?
    requires c !in s.calls || s.calls[c] != After(s, e).calls[c]
    ensures var z := After(s, e);
      Lookup(z.rows, z.calls[c].digest) == z.calls[c].result
  {
    if e.Touch? { assert CallOk(s, s.calls[e.c]); }
  }

  /**
   Over every run, with any clocks: a call that returned a row returned one that is neither past its deadline nor
   idle by the call's own clock, whether it read it, touched it or read it again.
   */
  lemma ReturnedRowsAreLive(cfg: Config, run: seq<Event>, c: nat)
    requires cfg.Valid() && Possible(Start(cfg), run) && c in Exec(Start(cfg), run).calls
    requires var call := Exec(Start(cfg), run).calls[c]; call.Done? && call.result.Some?
    ensures var call := Exec(Start(cfg), run).calls[c];
      && Seconds(call.moment) < call.result.value.expiresAt
      && (cfg.idle.Some? ==> Seconds(call.moment - cfg.idle.value) < call.result.value.lastActive)
  {
    RunEvolves(Start(cfg), run, 0);
    var z := Exec(Start(cfg), run);
    assert CallOk(z, z.calls[c]);
  }

  /** A row past its deadline, or not active within the idle timeout. */
  predicate Dead(cfg: Config, row: Row, moment: Instant) {
    || row.expiresAt <= Seconds(moment)
    || (cfg.idle.Some? && row.lastActive <= Seconds(moment - cfg.idle.value))
  }

  /**
   No spurious logout: whatever interleaves, a call returns None only in a step at which the row is gone, or past its
   deadline or idle by the call's own clock, or when the row was so at the call's first read.
   */
  lemma NoneNeedsACause(cfg: Config, run: seq<Event>, e: Event, c: nat)
    requires cfg.Valid() && Possible(Start(cfg), run) && Enabled(Exec(Start(cfg), run), e)
    requires var s := Exec(Start(cfg), run);
      var z := After(s, e);
      c in z.calls && z.calls[c].Done? && z.calls[c].result.None? && (c !in s.calls || s.calls[c] != z.calls[c])
    ensures var s := Exec(Start(cfg), run);
      var call := After(s, e).calls[c];
      call.digest in s.rows ==>
        || Dead(cfg, s.rows[call.digest], call.moment)
        || (c in s.calls && s.calls[c].Expiring? && Dead(cfg, s.calls[c].row, call.moment))
  {
    RunEvolves(Start(cfg), run, 0);
    var s := Exec(Start(cfg), run);
    if e.DeleteExpired? { assert CallOk(s, s.calls[c]); }
  }

  // -- a session and its creation

  /** The table, and every call that holds a row for this digest, agree with `row` on all but the activity. */
  predicate CallAgrees(call: Call, d: Digest, row: Row) {
    call.digest == d ==>
      && (call.Expiring? || call.Touching? ==> SameButActivity(call.row, row))
      && (call.Done? && call.result.Some? ==> SameButActivity(call.result.value, row))
  }

  predicate Agrees(s: State, d: Digest, row: Row) {
    && d in s.digests
    && (d in s.rows ==> SameButActivity(s.rows[d], row))
    && (forall c :: c in s.calls ==> CallAgrees(s.calls[c], d, row))
  }

  lemma {:induction false} AgreesRun(s: State, run: seq<Event>, d: Digest, row: Row)
    requires Agrees(s, d, row) && Possible(s, run)
    ensures Agrees(Exec(s, run), d, row)
    decreases |run|
  {
    if run != [] {
      var z := After(s, run[0]);
      forall c | c in z.calls ensures CallAgrees(z.calls[c], d, row) {
        if c in s.calls { assert CallAgrees(s.calls[c], d, row); }
      }
      AgreesRun(z, run[1..], d, row);
    }
  }

  /** No call holds a row for a digest that was never handed out. */
  predicate Unheard(s: State, d: Digest) {
    d !in s.digests ==>
      d !in s.rows && forall c :: c in s.calls && s.calls[c].digest == d ==> s.calls[c].Done? && s.calls[c].result.None?
  }

  lemma {:induction false} UnheardRun(s: State, run: seq<Event>, d: Digest)
    requires Unheard(s, d) && Possible(s, run)
    ensures Unheard(Exec(s, run), d)
    decreases |run|
  {
    if run != [] { UnheardRun(After(s, run[0]), run[1..], d); }
  }

  /**
   Over every run, with any clocks: what a call returns for a token is the session that was created for it, with its
   user, id and creation stamp, and only before its creation plus its time to live.
   */
  lemma ReturnedSessionIsTheCreated(
      cfg: Config, before: seq<Event>, d: Digest, id: nat, user: nat, moment: Instant, ttl: int, later: seq<Event>,
      c: nat)
    requires cfg.Valid() && Possible(Start(cfg), before)
    requires var create := Create(d, id, user, moment, ttl);
      var s := Exec(Start(cfg), before);
      Enabled(s, create) && Possible(After(s, create), later)
    requires var z := Exec(After(Exec(Start(cfg), before), Create(d, id, user, moment, ttl)), later);
      c in z.calls && z.calls[c].Done? && z.calls[c].digest == d && z.calls[c].result.Some?
    ensures var call := Exec(After(Exec(Start(cfg), before), Create(d, id, user, moment, ttl)), later).calls[c];
      && call.result.value.id == id && call.result.value.user == user
      && call.result.value.createdAt == Seconds(moment)
      && call.moment < moment + ttl
  {
    var s, create := Exec(Start(cfg), before), Create(d, id, user, moment, ttl);
    UnheardRun(Start(cfg), before, d);
    RunEvolves(Start(cfg), before, d);
    var s1 := After(s, create);
    StepPreserves(s, create);
    assert Agrees(s1, d, s1.rows[d]);
    AgreesRun(s1, later, d, s1.rows[d]);
    RunEvolves(s1, later, d);
    var z := Exec(s1, later);
    assert CallAgrees(z.calls[c], d, s1.rows[d]) && CallOk(z, z.calls[c]);
  }

  /**
   Regular use needs its touches to land: for every configuration with an idle timeout of at least two touch
   intervals, a touch that stays suspended lets the next use, also in time, find the session idle.
   */
  lemma SuspendedTouchExpires(cfg: Config) returns (run: seq<Event>)
    requires cfg.Valid() && cfg.idle.Some? && cfg.idle.value >= 2 * cfg.touch
    ensures var gap := cfg.idle.value - cfg.touch;
      run == [Create(0, 0, 0, 0, 2 * cfg.idle.value + SECOND), Find(0, 0, gap), Find(1, 0, 2 * gap)]
    ensures Possible(Start(cfg), run)
    ensures var calls := Exec(Start(cfg), run).calls;
      0 in calls && calls[0].Touching? && 1 in calls && calls[1].Expiring? &&
      Seconds(calls[1].moment) < calls[1].row.expiresAt
  {
    var gap, ttl := cfg.idle.value - cfg.touch, 2 * cfg.idle.value + SECOND;
    run := [Create(0, 0, 0, 0, ttl), Find(0, 0, gap), Find(1, 0, 2 * gap)];
    var s1 := After(Start(cfg), run[0]);
    var s2 := After(s1, run[1]);
    assert s1.rows[0].lastActive == 0 && Seconds(gap) < s1.rows[0].expiresAt && Seconds(gap - cfg.idle.value) < 0;
    assert s2.calls[0].Touching?;
    assert run[1..][1..] == [run[2]];
    OneStep(s2, run[2]);
    assert Seconds(2 * gap) < s2.rows[0].expiresAt;
  }

  /** Still running in `s`, or not begun. */
  predicate Open(s: State, c: nat) { c !in s.calls || !s.calls[c].Done? }

  /** A revocation wins: once a row is deleted, every call that returns later for its token returns None. */
  lemma {:induction false} RevocationWins(s: State, run: seq<Event>, d: Digest, c: nat)
    requires Inv(s) && Possible(s, run) && d in s.digests && d !in s.rows
    requires Open(s, c) && c in Exec(s, run).calls
    requires Exec(s, run).calls[c].Done? && Exec(s, run).calls[c].digest == d
    ensures Exec(s, run).calls[c].result == None
    decreases |run|
  {
    if run != [] {
      var z := After(s, run[0]);
      StepPreserves(s, run[0]);
      StepEvolves(s, run[0], d);
      if Open(z, c) {
        RevocationWins(z, run[1..], d, c);
      } else {
        DoneStays(z, run[1..], c);
        if z.calls[c].result.Some? { ReturnedRowIsStored(s, run[0], c); }
      }
    }
  }

  /** The sessions that a revocation names. */
  predicate Names(e: Event, d: Digest, row: Row) {
    match e
    case Revoke(digest) => digest == d
    case RevokeOwned(user, id) => row.user == user && row.id == id
    case RevokeAll(user, except) => row.user == user && (except.Some? ==> row.id != except.value)
    case _ => false
  }

  /**
   The three revocations delete exactly the sessions they name, at once and for good: every call that returns later for
   one of their tokens returns None.
   */
  lemma RevocationIsFinal(s: State, e: Event, run: seq<Event>, d: Digest, c: nat)
    requires Inv(s) && (e.Revoke? || e.RevokeOwned? || e.RevokeAll?) && Possible(After(s, e), run) && d in s.rows
    ensures d in After(s, e).rows <==> !Names(e, d, s.rows[d])
    ensures d in After(s, e).rows ==> After(s, e).rows[d] == s.rows[d]
    ensures var z := Exec(After(s, e), run);
      Names(e, d, s.rows[d]) && Open(s, c) && c in z.calls && z.calls[c].Done? && z.calls[c].digest == d ==>
        z.calls[c].result == None
  {
    StepPreserves(s, e);
    var z := Exec(After(s, e), run);
    if Names(e, d, s.rows[d]) && Open(s, c) && c in z.calls && z.calls[c].Done? && z.calls[c].digest == d {
      RevocationWins(After(s, e), run, d, c);
    }
  }

  lemma {:induction false} DoneStays(s: State, run: seq<Event>, c: nat)
    requires Possible(s, run) && c in s.calls && s.calls[c].Done?
    ensures c in Exec(s, run).calls && Exec(s, run).calls[c] == s.calls[c]
    decreases |run|
  {
    if run != [] { DoneStays(After(s, run[0]), run[1..], c); }
  }

  // -- the calls as methods ---------------------------------------------------------------------------------

  /** What one call alone does to the table, and what it returns. */
  function Resolved(cfg: Config, rows: Table, d: Digest, moment: Instant): (Table, Option<Row>) {
    if d !in rows then (rows, None)
    else
      match Use(cfg, rows[d], moment)
      case None => (rows - {d}, None)
      case Some(row) => (rows[d := row], Some(row))
  }

  lemma NewSessionResolves(cfg: Config, rows: Table, d: Digest, moment: Instant, ttl: int)
    requires d in rows && rows[d] == NewRow(rows[d].id, rows[d].user, moment, ttl)
    ensures ttl >= SECOND && (cfg.idle.Some? ==> cfg.idle.value >= SECOND) ==>
      Resolved(cfg, rows, d, moment) == (rows, Some(rows[d]))
  {
    assert rows[d := rows[d]] == rows;
  }

  function Active(cfg: Config, records: seq<Row>, moment: Instant): seq<Row> {
    if records == [] then []
    else
      var last := records[|records| - 1];
      Active(cfg, records[..|records| - 1], moment) + if IsExpired(cfg, last, moment) then [] else [last]
  }

  class SessionStore {
    const cfg: Config
    var rows: Table

    constructor (cfg: Config)
      requires cfg.Valid()
      ensures this.cfg == cfg && rows == map[]
    {
      this.cfg := cfg;
      rows := map[];
    }

    method FindOne(d: Digest) returns (found: Option<Row>)
      ensures found == Lookup(rows, d)
    {
      if d in rows { found := Some(rows[d]); } else { found := None; }
    }

    method Delete(d: Digest, id: nat)
      modifies this
      ensures rows == DeleteOne(old(rows), d, id)
    {
      if d in rows && rows[d].id == id { rows := rows - {d}; }
    }

    /** The compare-and-set on `last_active_at`. */
    method UpdateActivity(d: Digest, id: nat, previous: int, stamp: int) returns (touched: nat)
      modifies this
      ensures touched ==
        if d in old(rows) && old(rows)[d].id == id && old(rows)[d].lastActive == previous then 1 else 0
      ensures rows == if touched == 1 then old(rows)[d := old(rows)[d].(lastActive := stamp)] else old(rows)
    {
      touched := 0;
      if d in rows && rows[d].id == id && rows[d].lastActive == previous {
        rows := rows[d := rows[d].(lastActive := stamp)];
        touched := 1;
      }
    }

    /** `create_session`, with its random token a parameter: the cookie it hands out resolves to the record at once. */
    method CreateSession(newToken: Digest, id: nat, user: nat, moment: Instant, ttl: int)
      returns (token: Digest, record: Row)
      requires newToken !in rows
      modifies this
      ensures token == newToken && rows == old(rows)[token := record] && record.id == id && record.user == user
      ensures record.expiresAt == Seconds(moment + ttl)
      ensures record.createdAt == Seconds(moment) && record.lastActive == Seconds(moment)
      ensures forall moments, i :: 0 <= i < |moments| && UseAll(cfg, record, moments).Some? ==>
        moments[i] < moment + ttl
      ensures cfg.idle.None? ==>
        forall t :: Resolved(cfg, rows, token, t).1.Some? <==> Seconds(t) < Seconds(moment + ttl)
      ensures ttl >= SECOND && (cfg.idle.Some? ==> cfg.idle.value >= SECOND) ==>
        Resolved(cfg, rows, token, moment) == (rows, Some(record))
    {
      token := newToken;
      record := Row(id, user, Seconds(moment + ttl), Seconds(moment), Seconds(moment));
      rows := rows[token := record];
      NewSessionResolves(cfg, rows, token, moment, ttl);
      forall moments, i | 0 <= i < |moments| && UseAll(cfg, record, moments).Some? ensures moments[i] < moment + ttl {
        NothingPastTheDeadline(cfg, record, moments, i);
      }
    }

    /** `resolve_session`; None is a request without a session cookie. Alone, its compare-and-set cannot fail. */
    method ResolveSession(token: Option<Digest>, moment: Instant) returns (result: Option<Row>)
      modifies this
      ensures token == None ==> result == None && rows == old(rows)
      ensures token.Some? ==> (rows, result) == Resolved(cfg, old(rows), token.value, moment)
      ensures token.Some? && token.value !in old(rows) ==> result == None && rows == old(rows)
      ensures token.Some? && token.value in old(rows) ==>
        var row := old(rows)[token.value];
        if Dead(cfg, row, moment) then
          result == None && rows == old(rows) - {token.value}
        else
          && result.Some? && rows == old(rows)[token.value := result.value]
          && result.value == Row(row.id, row.user, row.expiresAt, result.value.lastActive, row.createdAt)
          && result.value.lastActive ==
             if row.lastActive <= Seconds(moment - cfg.touch) then Seconds(moment) else row.lastActive
    {
      if token == None { return None; }
      var d := token.value;
      var found := FindOne(d);
      if found == None { return None; }
      var record := found.value;
      if IsExpired(cfg, record, moment) {
        Delete(d, record.id);
        return None;
      }
      if NeedsTouch(cfg, record, moment) {
        var stamp := Seconds(moment);
        var touched := UpdateActivity(d, record.id, record.lastActive, stamp);
        if touched == 1 {
          record := record.(lastActive := stamp);
        } else {
          assert false;
        }
      }
      assert rows == old(rows)[d := record];
      return Some(record);
    }

    method RevokeSession(token: Option<Digest>)
      modifies this
      ensures rows == if token.Some? then old(rows) - {token.value} else old(rows)
    {
      if token.Some? { rows := rows - {token.value}; }
    }

    method RevokeUserSession(user: nat, id: nat) returns (count: nat)
      modifies this
      ensures var doomed := (row: Row) => row.id == id && row.user == user;
        rows == DeleteWhere(old(rows), doomed) && count == |Doomed(old(rows), doomed)|
    {
      var gone := set d | d in rows && rows[d].id == id && rows[d].user == user;
      assert gone == Doomed(rows, (row: Row) => row.id == id && row.user == user);
      count := |gone|;
      rows := rows - gone;
    }

    method RevokeUserSessions(user: nat, except: Option<nat>) returns (count: nat)
      modifies this
      ensures var doomed := (row: Row) => row.user == user && !(except.Some? && row.id == except.value);
        rows == DeleteWhere(old(rows), doomed) && count == |Doomed(old(rows), doomed)|
    {
      var gone := set d | d in rows && rows[d].user == user;
      if except.Some? {
        gone := set d | d in gone && rows[d].id != except.value;
      }
      assert gone == Doomed(rows, (row: Row) => row.user == user && !(except.Some? && row.id == except.value));
      count := |gone|;
      rows := rows - gone;
    }
  }

  /** `list_active_sessions` on the records `find_many` returned. */
  method ListActiveSessions(cfg: Config, records: seq<Row>, moment: Instant) returns (active: seq<Row>)
    ensures active == Active(cfg, records, moment)
  {
    active := [];
    for i := 0 to |records|
      invariant active == Active(cfg, records[..i], moment)
    {
      assert records[..i + 1][..i] == records[..i];
      if !IsExpired(cfg, records[i], moment) { active := active + [records[i]]; }
    }
    assert records[..|records|] == records;
  }

  /** The records keep their order: the list goes through them from the first to the last and skips the dead ones. */
  lemma ActiveInOrder(cfg: Config, before: seq<Row>, row: Row, moment: Instant)
    ensures Active(cfg, before + [row], moment) ==
      Active(cfg, before, moment) + if Dead(cfg, row, moment) then [] else [row]
    ensures Active(cfg, [], moment) == []
  {
    var records := before + [row];
    assert records[..|records| - 1] == before;
  }

  lemma {:induction false} ActiveIsTheUnexpired(cfg: Config, records: seq<Row>, moment: Instant, row: Row)
    ensures row in Active(cfg, records, moment) <==> row in records && !IsExpired(cfg, row, moment)
  {
    if records != [] {
      ActiveIsTheUnexpired(cfg, records[..|records| - 1], moment, row);
      assert records == records[..|records| - 1] + [records[|records| - 1]];
    }
  }

  /** A session is listed exactly when its own cookie would still resolve at that moment. */
  lemma ListedIffResolvable(cfg: Config, rows: Table, records: seq<Row>, d: Digest, moment: Instant)
    requires d in rows && rows[d] in records
    ensures rows[d] in Active(cfg, records, moment) <==> Resolved(cfg, rows, d, moment).1.Some?
  {
    ActiveIsTheUnexpired(cfg, records, moment, rows[d]);
  }

  /** A call alone is a run of the concurrent machine. */
  lemma ResolvedIsARun(s: State, c: nat, d: Digest, moment: Instant) returns (run: seq<Event>)
    requires c !in s.calls
    ensures Possible(s, run)
    ensures (Exec(s, run).rows, Exec(s, run).calls) ==
      (Resolved(s.cfg, s.rows, d, moment).0, s.calls[c := Done(d, moment, Resolved(s.cfg, s.rows, d, moment).1)])
  {
    var find := Find(c, d, moment);
    var z := After(s, find);
    if z.calls[c].Done? {
      run := [find];
      assert run[1..] == [];
      assert d in s.rows ==> s.rows == s.rows[d := s.rows[d]];
    } else {
      var second := if z.calls[c].Expiring? then DeleteExpired(c) else Touch(c);
      run := [find, second];
      assert run[1..] == [second];
      OneStep(z, second);
      assert After(z, second).calls == s.calls[c := Done(d, moment, Resolved(s.cfg, s.rows, d, moment).1)];
    }
  }

  lemma OneStep(s: State, e: Event)
    requires Enabled(s, e)
    ensures Possible(s, [e]) && Exec(s, [e]) == After(s, e)
  {
    assert [e][1..] == [];
  }
}
