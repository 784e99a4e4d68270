/**
 The `htu` form that a DPoP proof and the request URI are compared in (section 4.3 of RFC 9449): scheme, host,
 port unless it is the scheme's default, and normalised path; no query and no fragment.
 */
module HtuComparison {
  import opened Ascii
  import opened Wrappers
  import Decimal
  import opened PercentEncoding

  /** A URI as `urlsplit` leaves it; `hostname` and `path` are "" when absent. */
  datatype Uri = Uri(scheme: string, hostname: string, port: Option<nat>, path: string, credentials: bool)

  predicate Absolute(u: Uri) {
    Lower(u.scheme) in ["https", "http"] && u.hostname != "" && !u.credentials
  }

  function Host(u: Uri): string {
    var host := Lower(u.hostname);
    if ':' in host then "[" + host + "]" else host
  }

  predicate DefaultPort(u: Uri) {
    (Lower(u.scheme) == "https" && u.port == Some(443)) || (Lower(u.scheme) == "http" && u.port == Some(80))
  }

  function Authority(u: Uri): string {
    if u.port.None? || DefaultPort(u) then Host(u) else Host(u) + ":" + Decimal.Print(u.port.value)
  }

  function Path(u: Uri): string { if u.path == "" then "/" else u.path }

  /** `normalize_htu`; None is the rejection of a URI that is not an absolute HTTP(S) one. */
  function NormalizeHtu(u: Uri): Option<string> {
    if Absolute(u) then Some(Lower(u.scheme) + "://" + Authority(u) + Normalized(Path(u))) else None
  }

  /** Another scheme, no host or credentials are rejected; otherwise the pieces come in order. */
  lemma NormalizedPieces(u: Uri)
    ensures NormalizeHtu(u).None? <==>
      (Lower(u.scheme) != "http" && Lower(u.scheme) != "https") || u.hostname == "" || u.credentials
    ensures NormalizeHtu(u).Some? ==>
      NormalizeHtu(u).value ==
        Lower(u.scheme) + "://" + Authority(u) + Normalized(if u.path == "" then "/" else u.path)
  {
  }

  /** A host with a colon in it is bracketed, and a port that the scheme implies is left out. */
  lemma AuthorityPieces(u: Uri)
    requires Lower(u.scheme) == "http" || Lower(u.scheme) == "https"
    ensures var host := if ':' in u.hostname then "[" + Lower(u.hostname) + "]" else Lower(u.hostname);
      Authority(u) ==
        if u.port.None? || u.port.value == (if Lower(u.scheme) == "https" then 443 else 80) then host
        else host + ":" + Decimal.Print(u.port.value)
  {
    ColonIsKept(u.hostname);
  }

  lemma ColonIsKept(s: string)
    ensures ':' in Lower(s) <==> ':' in s
  {
    assert forall i :: 0 <= i < |s| ==> (Lower(s)[i] == ':' <==> s[i] == ':');
  }

  /** What splitting guarantees of the parts: no delimiter inside the host, and a path that is empty or rooted. */
  predicate Split(u: Uri) {
    && '/' !in u.hostname && '[' !in u.hostname && ']' !in u.hostname
    && (u.path == "" || u.path[0] == '/')
  }

  function EffectivePort(u: Uri): nat {
    if u.port.Some? then u.port.value else if Lower(u.scheme) == "https" then 443 else 80
  }

  predicate SameOrigin(u: Uri, v: Uri) {
    && Lower(u.scheme) == Lower(v.scheme)
    && Lower(u.hostname) == Lower(v.hostname)
    && EffectivePort(u) == EffectivePort(v)
  }

  /** The two URIs name one resource: same origin, and paths that differ only as section 6.2.2 of RFC 3986 allows. */
  predicate SameTarget(u: Uri, v: Uri) {
    SameOrigin(u, v) && AllAlike(Units(Path(u)), Units(Path(v)))
  }

  lemma SplitAtFirst(a: string, p: string, b: string, q: string, d: char)
    requires d !in a && d !in b && p != "" && q != "" && p[0] == d && q[0] == d
    requires a + p == b + q
    ensures a == b && p == q
  {
    var t := a + p;
    assert t[|a|] == d && t[|b|] == d;
    assert forall i :: 0 <= i < |a| ==> t[i] == a[i];
    assert forall i :: 0 <= i < |b| ==> t[i] == b[i];
    assert a == t[..|a|] && b == t[..|b|];
    assert p == t[|a|..] && q == t[|b|..];
  }

  lemma SplitAtLast(a: string, p: string, b: string, q: string, d: char)
    requires d !in p && d !in q
    requires a + [d] + p == b + [d] + q
    ensures a == b && p == q
  {
    var t := a + [d] + p;
    assert t[|a|] == d && t[|b|] == d;
    assert forall i :: |a| < i < |t| ==> t[i] == p[i - |a| - 1];
    assert forall i :: |b| < i < |t| ==> t[i] == q[i - |b| - 1];
    assert a == t[..|a|] && b == t[..|b|];
    assert p == t[|a| + 1..] && q == t[|b| + 1..];
  }

  lemma LowerLacks(s: string, d: char)
    requires d !in s && !('a' <= d <= 'z')
    ensures d !in Lower(s)
  {
  }

  lemma HostIsInjective(u: Uri, v: Uri)
    requires Split(u) && Split(v) && Host(u) == Host(v) && u.hostname != "" && v.hostname != ""
    ensures Lower(u.hostname) == Lower(v.hostname)
  {
    var hu, hv := Lower(u.hostname), Lower(v.hostname);
    LowerLacks(u.hostname, '[');
    LowerLacks(v.hostname, '[');
    assert hu == if ':' in hu then Host(u)[1..|Host(u)| - 1] else Host(u);
    assert hv == if ':' in hv then Host(v)[1..|Host(v)| - 1] else Host(v);
    assert (':' in hu ==> Host(u)[0] == '[') && (':' in hv ==> Host(v)[0] == '[');
    assert hu[0] in hu && hv[0] in hv;
  }

  /** A host alone is never a host with a port: only a bracketed host holds a colon, and it ends in `]`. */
  lemma HostIsNotHostWithPort(u: Uri, host: string, port: nat)
    ensures Host(u) != host + ":" + Decimal.Print(port)
  {
    var digits := Decimal.Print(port);
    var text := host + ":" + digits;
    assert text[|host|] == ':' && Decimal.IsDigit(text[|text| - 1]) by {
      assert text[|text| - 1] == digits[|digits| - 1];
    }
    assert Host(u) == text ==> ':' in Host(u);
    assert ':' in Host(u) ==> Host(u)[|Host(u)| - 1] == ']';
  }

  lemma AuthorityIsInjective(u: Uri, v: Uri)
    requires Split(u) && Split(v) && u.hostname != "" && v.hostname != "" && Absolute(u) && Absolute(v)
    requires Lower(u.scheme) == Lower(v.scheme)
    ensures Authority(u) == Authority(v) <==>
      Lower(u.hostname) == Lower(v.hostname) && EffectivePort(u) == EffectivePort(v)
  {
    var bareU, bareV := u.port.None? || DefaultPort(u), v.port.None? || DefaultPort(v);
    if Authority(u) == Authority(v) {
      if bareU && bareV {
        HostIsInjective(u, v);
      } else if bareU {
        HostIsNotHostWithPort(u, Host(v), v.port.value);
      } else if bareV {
        HostIsNotHostWithPort(v, Host(u), u.port.value);
      } else {
        SplitAtLast(Host(u), Decimal.Print(u.port.value), Host(v), Decimal.Print(v.port.value), ':');
        HostIsInjective(u, v);
        Decimal.PrintIsInjective(u.port.value, v.port.value);
      }
    }
  }

  lemma AuthorityHasNoSlash(u: Uri)
    requires Split(u)
    ensures '/' !in Authority(u)
  {
    LowerLacks(u.hostname, '/');
  }

  lemma NormalizedIsRooted(u: Uri)
    requires Split(u)
    ensures Normalized(Path(u)) != "" && Normalized(Path(u))[0] == '/'
  {
    LiteralFirst(Path(u));
  }

  lemma SchemeFirst(s: string, x: string, t: string, y: string)
    requires s in ["https", "http"] && t in ["https", "http"]
    requires s + "://" + x == t + "://" + y
    ensures s == t && x == y
  {
    var left, right := s + "://" + x, t + "://" + y;
    assert left[4] == if s == "http" then ':' else 's';
    assert right[4] == if t == "http" then ':' else 's';
    assert left[|s| + 3..] == x && right[|t| + 3..] == y;
  }

  /**
   A proof's `htu` matches the request URI exactly when both have one origin and one normalised path; with
   well-formed paths, exactly when both name the same resource.
   */
  lemma HtuMatchesSameTarget(u: Uri, v: Uri)
    requires Split(u) && Split(v) && Absolute(u) && Absolute(v)
    ensures NormalizeHtu(u) == NormalizeHtu(v) <==>
      SameOrigin(u, v) && Normalized(Path(u)) == Normalized(Path(v))
    ensures WellFormed(Path(u)) && WellFormed(Path(v)) ==> (NormalizeHtu(u) == NormalizeHtu(v) <==> SameTarget(u, v))
  {
    if WellFormed(Path(u)) && WellFormed(Path(v)) { EqualNormalForms(Path(u), Path(v)); }
    AuthorityHasNoSlash(u);
    AuthorityHasNoSlash(v);
    NormalizedIsRooted(u);
    NormalizedIsRooted(v);
    SamePieces(Lower(u.scheme), Authority(u), Normalized(Path(u)), Lower(v.scheme), Authority(v), Normalized(Path(v)));
    if Lower(u.scheme) == Lower(v.scheme) {
      AuthorityIsInjective(u, v);
    }
  }

  lemma SamePieces(su: string, au: string, pu: string, sv: string, av: string, pv: string)
    requires su in ["https", "http"] && sv in ["https", "http"]
    requires '/' !in au && '/' !in av && pu != "" && pv != "" && pu[0] == '/' && pv[0] == '/'
    ensures su + "://" + au + pu == sv + "://" + av + pv <==> su == sv && au == av && pu == pv
  {
    assert su + "://" + au + pu == su + "://" + (au + pu) && sv + "://" + av + pv == sv + "://" + (av + pv);
    if su + "://" + au + pu == sv + "://" + av + pv {
      SchemeFirst(su, au + pu, sv, av + pv);
      SplitAtFirst(au, pu, av, pv, '/');
    }
  }
}
