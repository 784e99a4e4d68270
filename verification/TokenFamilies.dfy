/**
 The shape of a token family: at most one live row or pending insert at any instant, and one linear
 rotation chain rooted at one authorization code.
 */
module TokenFamilies {
  import opened Wrappers
  import opened OAuthStore
  import opened OAuthMachine
  import opened OAuthInvariant
  import opened OAuthPreservation

  // -- conservation ---------------------------------------------------------------------------

  /** Mints that have claimed their source and not yet inserted its replacement. */
  function Inserters(s: State, family: Id): set<nat> {
    set r | r in s.reqs && s.reqs[r].MintInsert? && s.reqs[r].m.family == family
  }

  lemma AtMostOneOf<T>(xs: set<T>)
    requires forall x, y :: x in xs && y in xs ==> x == y
    ensures |xs| <= 1
  {
    if xs != {} {
      var x :| x in xs;
      assert xs == {x};
    }
  }

  /** Active rows plus claims in flight number at most one, whatever was rotated, burned or revoked. */
  lemma OneHolderPerFamily(cfg: Config, run: seq<Event>, family: Id)
    requires Possible(Start(cfg), run)
    ensures var s := Exec(Start(cfg), run); |ActiveIn(s.db, family)| + |Inserters(s, family)| <= 1
  {
    Reachable(cfg, run);
    var s := Exec(Start(cfg), run);
    forall t | t in ActiveIn(s.db, family) ensures IsActive(s, t) {}
    forall r | r in Inserters(s, family) ensures Inserting(s, r) {}
    AtMostOneOf(ActiveIn(s.db, family));
    AtMostOneOf(Inserters(s, family));
    if ActiveIn(s.db, family) != {} {
      var t :| t in ActiveIn(s.db, family);
      assert IsActive(s, t);
      assert forall r :: Inserting(s, r) ==> s.reqs[r].m.family != family;
      assert Inserters(s, family) == {};
    }
  }

  // -- the chain --------------------------------------------------------------------------------

  /** How many rotations separate a token from its code. */
  ghost function Depth(s: State, t: Id): nat
    requires Tables(s) && t in s.db.tokens
    decreases t
  {
    assert TokenOk(s, t);
    match s.log.parent[t]
    case FromCode(_) => 0
    case FromToken(p) => 1 + Depth(s, p)
  }

  /** `a` is `t` or was rotated, in one or more steps, into `t`. */
  ghost predicate Ancestor(s: State, a: Id, t: Id)
    requires Tables(s) && t in s.db.tokens
    decreases t
  {
    assert TokenOk(s, t);
    a == t || (s.log.parent[t].FromToken? && Ancestor(s, a, s.log.parent[t].token))
  }

  /** A family has one token at each depth: no token was ever rotated twice, no code exchanged twice. */
  lemma {:induction false} OnePerDepth(s: State, t: Id, u: Id)
    requires Tables(s) && Successors(s) && t in s.db.tokens && u in s.db.tokens
    requires s.db.tokens[t].family == s.db.tokens[u].family && Depth(s, t) == Depth(s, u)
    ensures t == u
    decreases t
  {
    assert TokenOk(s, t) && TokenOk(s, u);
    match s.log.parent[t]
    case FromCode(c) =>
    case FromToken(p) => OnePerDepth(s, p, s.log.parent[u].token);
  }

  lemma {:induction false} AncestorAt(s: State, t: Id, d: nat) returns (a: Id)
    requires Tables(s) && t in s.db.tokens && d <= Depth(s, t)
    ensures a in s.db.tokens && Ancestor(s, a, t) && Depth(s, a) == d
    ensures s.db.tokens[a].family == s.db.tokens[t].family
    decreases t
  {
    assert TokenOk(s, t);
    if d == Depth(s, t) {
      a := t;
    } else {
      a := AncestorAt(s, s.log.parent[t].token, d);
    }
  }

  lemma Linear(s: State, t: Id, u: Id)
    requires Tables(s) && Successors(s) && t in s.db.tokens && u in s.db.tokens
    requires s.db.tokens[t].family == s.db.tokens[u].family
    ensures Ancestor(s, t, u) || Ancestor(s, u, t)
  {
    if Depth(s, t) <= Depth(s, u) {
      var a := AncestorAt(s, u, Depth(s, t));
      OnePerDepth(s, a, t);
    } else {
      var a := AncestorAt(s, t, Depth(s, u));
      OnePerDepth(s, a, u);
    }
  }

  /** What a later token of the chain shares with an earlier one; a token that was rotated is spent. */
  ghost predicate Descends(s: State, a: Id, t: Id)
    requires a in s.db.tokens && t in s.db.tokens
  {
    var first, later := s.db.tokens[a], s.db.tokens[t];
    && later.family == first.family
    && RotatedBind(first.bind, later.bind, PublicClient(s.cfg, later.bind.owner.client))
    && (a != t ==> first.state != Active)
  }

  lemma {:induction false} AncestorsDescend(s: State, a: Id, t: Id)
    requires Tables(s) && t in s.db.tokens && Ancestor(s, a, t)
    ensures a in s.db.tokens && Descends(s, a, t)
    decreases t
  {
    assert TokenOk(s, t);
    if a != t {
      AncestorsDescend(s, a, s.log.parent[t].token);
    }
  }

  /** The code a family grew from: the row as it was claimed, even if the row is gone by now. */
  ghost predicate RootedAt(s: State, t: Id, code: Id, row: Code)
    requires t in s.db.tokens
  {
    var bind := s.db.tokens[t].bind;
    && s.db.tokens[t].family in s.log.origin
    && s.log.origin[s.db.tokens[t].family] == Claim(code, row)
    && bind.owner == row.bind.owner
    && bind.grant == row.bind.grant
    && bind.resource == row.bind.resource
    && bind.scope <= row.bind.scope
    && (PublicClient(s.cfg, bind.owner.client) && row.bind.jkt.Some? ==> bind.jkt == row.bind.jkt)
  }

  lemma {:induction false} Rooted(s: State, t: Id)
    requires Tables(s) && t in s.db.tokens
    ensures s.db.tokens[t].family in s.log.origin
    ensures var root := s.log.origin[s.db.tokens[t].family]; RootedAt(s, t, root.code, root.row)
    decreases t
  {
    assert TokenOk(s, t);
    match s.log.parent[t]
    case FromCode(c) =>
    case FromToken(p) => Rooted(s, p);
  }

  /**
   Any two tokens of a family lie on one chain. Along it the user, client, grant and resource are the
   code's, the scope only shrinks, a public client's key never changes, and all but the last token are spent.
   */
  lemma RotationChain(cfg: Config, run: seq<Event>, t: Id, u: Id)
    requires Possible(Start(cfg), run)
    requires var s := Exec(Start(cfg), run);
      t in s.db.tokens && u in s.db.tokens && s.db.tokens[t].family == s.db.tokens[u].family
    ensures var s := Exec(Start(cfg), run);
      && Tables(s)
      && ((Ancestor(s, t, u) && Descends(s, t, u)) || (Ancestor(s, u, t) && Descends(s, u, t)))
      && s.db.tokens[t].family in s.log.origin
      && var root := s.log.origin[s.db.tokens[t].family];
         RootedAt(s, t, root.code, root.row) && RootedAt(s, u, root.code, root.row)
  {
    Reachable(cfg, run);
    var s := Exec(Start(cfg), run);
    Linear(s, t, u);
    if Ancestor(s, t, u) { AncestorsDescend(s, t, u); } else { AncestorsDescend(s, u, t); }
    Rooted(s, t);
    Rooted(s, u);
  }

  /** A token exchanged for a key-bound code carries that key, whoever the client is. */
  lemma BoundCodeBindsToken(cfg: Config, run: seq<Event>, t: Id)
    requires Possible(Start(cfg), run)
    requires var s := Exec(Start(cfg), run); t in s.log.parent && s.log.parent[t].FromCode?
    ensures var s := Exec(Start(cfg), run);
      && t in s.db.tokens
      && s.db.tokens[t].family in s.log.origin
      && var root := s.log.origin[s.db.tokens[t].family];
         && root.code == s.log.parent[t].code
         && (root.row.bind.jkt.Some? ==> s.db.tokens[t].bind.jkt == root.row.bind.jkt)
  {
    Reachable(cfg, run);
    assert TokenOk(Exec(Start(cfg), run), t);
  }

  // -- what may be refreshed ------------------------------------------------------------------------

  /** Exactly the tokens of clients that registered the refresh grant carry a refresh token. */
  ghost predicate RefreshAsRegistered(s: State) {
    forall t :: t in s.db.tokens ==>
      var client := s.db.tokens[t].bind.owner.client;
      client in s.cfg.clients && (s.db.tokens[t].refreshExpires.Some? <==> s.cfg.clients[client].refreshGrant)
  }

  lemma InsertIsRegistered(s: State, r: nat, now: int)
    requires Inv(s) && r in s.reqs && s.reqs[r].MintInsert?
    ensures var z := After(s, Advance(r, now));
      && z.db.tokens == s.db.tokens[s.db.next := z.db.tokens[s.db.next]]
      && var row := z.db.tokens[s.db.next];
         && row.bind.owner.client in s.cfg.clients
         && (row.refreshExpires.Some? <==> s.cfg.clients[row.bind.owner.client].refreshGrant)
  {
    assert RequestOk(s, r, s.reqs[r]);
    assert SourceOk(s, s.reqs[r].m);
  }

  lemma RegisteredStep(s: State, r: nat, now: int)
    requires Inv(s) && RefreshAsRegistered(s) && Enabled(s, Advance(r, now))
    ensures RefreshAsRegistered(After(s, Advance(r, now)))
  {
    var q := s.reqs[r];
    var z := After(s, Advance(r, now));
    if q.MintInsert? {
      InsertIsRegistered(s, r, now);
    } else {
      DecideIsSensible(s.cfg, s.db, q, now);
      TokenKeys(s.db, Decide(s.cfg, s.db, q, now).write);
      StepPreserves(s, r, now);
      assert z.db.tokens.Keys == s.db.tokens.Keys;
    }
  }

  lemma {:induction false} RegisteredRun(s: State, run: seq<Event>)
    requires Inv(s) && RefreshAsRegistered(s) && Possible(s, run)
    ensures RefreshAsRegistered(Exec(s, run))
    decreases |run|
  {
    if run != [] {
      match run[0] {
        case Arrive(r, q) => ArrivalPreserves(s, r, q);
        case Advance(r, now) => StepPreserves(s, r, now); RegisteredStep(s, r, now);
      }
      RegisteredRun(After(s, run[0]), run[1..]);
    }
  }

  /** In every reachable state a token can be refreshed exactly when its owner's client registered the refresh grant. */
  lemma OnlyRegisteredClientsRefresh(cfg: Config, run: seq<Event>, t: Id)
    requires Possible(Start(cfg), run) && t in Exec(Start(cfg), run).db.tokens
    ensures var row := Exec(Start(cfg), run).db.tokens[t];
      && row.bind.owner.client in cfg.clients
      && (row.refreshExpires.Some? <==> cfg.clients[row.bind.owner.client].refreshGrant)
  {
    StartSatisfies(cfg);
    RegisteredRun(Start(cfg), run);
    SameConfig(Start(cfg), run);
  }

  /** Two families never share a code, and two tokens never share the code or the token they replace. */
  lemma SingleUse(cfg: Config, run: seq<Event>)
    requires Possible(Start(cfg), run)
    ensures var s := Exec(Start(cfg), run);
      && (forall f, g :: f in s.log.origin && g in s.log.origin && s.log.origin[f].code == s.log.origin[g].code ==>
            f == g)
      && (forall t, u :: t in s.log.parent && u in s.log.parent && s.log.parent[t] == s.log.parent[u] ==> t == u)
  {
    Reachable(cfg, run);
  }
}
