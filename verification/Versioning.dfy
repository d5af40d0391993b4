/** API path versioning: recognising and stripping /api/v<N>/, and the redirecting middleware. */
module Versioning {
  import opened Collections

  const API := "/api/"

  const MAX_INT: int := 0x7FFF_FFFF_FFFF_FFFF

  // ---- path helpers ----

  function TrimPrefix(s: string, prefix: string): string {
    if prefix <= s then s[|prefix|..] else s
  }

  /** The position of the first slash, or the length when there is none. */
  function Cut(s: string): (k: nat)
    ensures k <= |s| && '/' !in s[..k] && (k < |s| ==> s[k] == '/')
  {
    if s == "" || s[0] == '/' then 0 else
      var k := Cut(s[1..]);
      assert s[..k + 1] == [s[0]] + s[1..][..k];
      k + 1
  }

  /** `strings.SplitN(s, "/", 2)`. */
  function SplitN2(s: string): seq<string> {
    if Cut(s) == |s| then [s] else [s[..Cut(s)], s[Cut(s) + 1..]]
  }

  predicate Digits(s: string) { s != "" && forall i :: 0 <= i < |s| ==> '0' <= s[i] <= '9' }

  function Value(s: string): int
    requires s == "" || Digits(s)
  {
    if s == "" then 0 else Value(s[..|s| - 1]) * 10 + (s[|s| - 1] as int - '0' as int)
  }

  /** `strconv.Atoi` on a 64-bit int: an optional sign, digits, and a value that fits. */
  function Atoi(s: string): Option<int> {
    var signed := s != "" && (s[0] == '+' || s[0] == '-');
    var digits := if signed then s[1..] else s;
    if !Digits(digits) then None
    else if signed && s[0] == '-' then (if Value(digits) <= MAX_INT + 1 then Some(-Value(digits)) else None)
    else if Value(digits) <= MAX_INT then Some(Value(digits)) else None
  }

  /** A segment such as "v1". */
  predicate VersionSegment(seg: string) {
    seg != "" && seg[0] == 'v' && seg[1..] != "" && Atoi(seg[1..]).Some?
  }

  predicate IsVersioned(path: string) {
    API <= path && VersionSegment(SplitN2(TrimPrefix(path, API))[0])
  }

  function StripVersionPrefix(path: string): string {
    if !IsVersioned(path) then path else
      var parts := SplitN2(TrimPrefix(path, API));
      if |parts| < 2 then API else API + parts[1]
  }

  function ExtractVersion(path: string): string {
    SplitN2(TrimPrefix(path, API))[0]
  }

  /** The redirect target of an unversioned path. */
  function Canonical(version: string, path: string): string {
    "/api/" + version + TrimPrefix(path, "/api")
  }

  // ---- when stripping undoes the redirect ----

  lemma {:induction false} CutConcat(v: string, rest: string)
    ensures Cut(v + "/" + rest) == Cut(v)
    decreases |v|
  {
    if v != "" && v[0] != '/' {
      var s := v + "/" + rest;
      assert s[1..] == v[1..] + "/" + rest;
      CutConcat(v[1..], rest);
    }
  }

  lemma CanonicalShape(version: string, rest: string)
    ensures Canonical(version, API + rest) == API + (version + "/" + rest)
    ensures TrimPrefix(Canonical(version, API + rest), API) == version + "/" + rest
    ensures API <= Canonical(version, API + rest)
  {
    var path := API + rest;
    assert "/api" + ("/" + rest) == path;
    assert path[..4] == "/api";
    assert TrimPrefix(path, "/api") == "/" + rest;
    assert API + version + ("/" + rest) == API + (version + "/" + rest);
  }

  /** The part of a configured version that the middleware will read back as the version segment. */
  function Head(version: string): string { version[..Cut(version)] }

  lemma CutOfSegment(v: string)
    ensures Cut(v) == |v| <==> '/' !in v
    ensures '/' !in v ==> Head(v) == v
  {
    if Cut(v) < |v| {
      assert v[Cut(v)] in v;
    } else {
      assert v[..Cut(v)] == v;
    }
  }

  lemma CanonicalVersioned(version: string, rest: string)
    ensures IsVersioned(Canonical(version, API + rest)) <==> VersionSegment(Head(version))
    ensures SplitN2(version + "/" + rest) == [Head(version), (version + "/" + rest)[Cut(version) + 1..]]
    ensures ExtractVersion(Canonical(version, API + rest)) == Head(version)
  {
    CanonicalShape(version, rest);
    CutConcat(version, rest);
    var s := version + "/" + rest;
    assert s[..Cut(version)] == version[..Cut(version)];
  }

  /**
   * Stripping the redirect target gives back the path, for every path under /api/, if and only if the
   * configured version is one version segment with no slash in it.
   */
  lemma StripUndoesCanonical(version: string, rest: string)
    ensures StripVersionPrefix(Canonical(version, API + rest)) == API + rest
        <==> VersionSegment(version) && '/' !in version
  {
    CanonicalShape(version, rest);
    CanonicalVersioned(version, rest);
    CutOfSegment(version);
    var k := Cut(version);
    var s := version + "/" + rest;
    var stripped := StripVersionPrefix(Canonical(version, API + rest));
    if '/' !in version {
      assert Head(version) == version;
      assert s[k + 1..] == rest;
      if !VersionSegment(version) {
        assert |stripped| == |API| + |s|;
      }
    } else {
      assert |s[k + 1..]| > |rest|;
      assert |stripped| > |API + rest|;
    }
  }

  /** A "v" followed by digits is such a segment exactly when the number fits a 64-bit int. */
  lemma DigitVersions(digits: string)
    requires Digits(digits)
    ensures VersionSegment("v" + digits) && '/' !in "v" + digits <==> Value(digits) <= 9_223_372_036_854_775_807
  {
    var seg := "v" + digits;
    assert seg[1..] == digits;
    forall i | 0 <= i < |seg| ensures seg[i] != '/' {
      if i > 0 { assert seg[i] == digits[i - 1]; }
    }
  }

  /** A signed number is accepted as well: "v+1" and "v-1" are version segments. */
  lemma SignedVersions(digits: string)
    requires Digits(digits)
    ensures VersionSegment("v+" + digits) <==> Value(digits) <= 9_223_372_036_854_775_807
    ensures VersionSegment("v-" + digits) <==> Value(digits) <= 9_223_372_036_854_775_808
  {
    assert ("v+" + digits)[1..] == "+" + digits && ("+" + digits)[1..] == digits;
    assert ("v-" + digits)[1..] == "-" + digits && ("-" + digits)[1..] == digits;
  }

  /** Nothing else is: a segment is a "v", at most one sign, and digits. */
  lemma SegmentShape(seg: string)
    requires VersionSegment(seg)
    ensures |seg| >= 2 && seg[0] == 'v'
    ensures Digits(seg[1..]) || ((seg[1] == '+' || seg[1] == '-') && Digits(seg[2..]))
  {
    assert seg[1..][0] == seg[1] && seg[1..][1..] == seg[2..];
  }

  /** The value of a digit string is its decimal value. */
  lemma ValueMeans(digits: string, d: char)
    requires (digits == "" || Digits(digits)) && '0' <= d <= '9'
    ensures Digits(digits + [d]) && Value(digits + [d]) == 10 * Value(digits) + (d as int - 48)
    ensures Value("") == 0
  {
    assert (digits + [d])[..|digits|] == digits;
  }

  // ---- the middleware ----

  datatype Verb = GET | HEAD | OTHER

  /** `version` is the internal header; "" when it is absent. */
  datatype Request = Request(verb: Verb, path: string, version: string)

  datatype Reply =
    | Proceed(path: string, apiVersion: string)
    | Redirect(code: int, target: string)
    | Redispatch(request: Request)

  datatype Config = Config(currentVersion: string, redirecting: bool)

  function Middleware(cfg: Config, r: Request): Reply {
    if r.version != "" then Proceed(r.path, r.version)
    else if !(API <= r.path) then Proceed(r.path, "")
    else if IsVersioned(r.path) then
      var newPath := StripVersionPrefix(r.path);
      if newPath != r.path then Redispatch(Request(r.verb, newPath, ExtractVersion(r.path)))
      else Proceed(r.path, ExtractVersion(r.path))
    else if cfg.redirecting then
      Redirect(if r.verb == OTHER then 308 else 301, Canonical(cfg.currentVersion, r.path))
    else Proceed(r.path, "legacy")
  }

  /** What a client sees of one request: the handler's path or a redirect, and the re-dispatches it took. */
  datatype Served = Handled(path: string, apiVersion: string, dispatches: nat) | Moved(code: int, target: string)

  function Serve(cfg: Config, r: Request): Served
    decreases r.version == ""
  {
    match Middleware(cfg, r)
    case Proceed(path, v) => Handled(path, v, 0)
    case Redirect(code, target) => Moved(code, target)
    case Redispatch(again) =>
      VersionedHasVersion(r.path);
      match Serve(cfg, again)
      case Handled(path, v, n) => Handled(path, v, n + 1)
      case Moved(code, target) => Moved(code, target)
  }

  /** A request as a client sends it. A redirect keeps its verb: 308 always, and 301 answers GET and HEAD only. */
  function Ask(verb: Verb, path: string): Request { Request(verb, path, "") }

  lemma VersionedHasVersion(path: string)
    requires IsVersioned(path)
    ensures ExtractVersion(path) != "" && StripVersionPrefix(path) != path
  {
    var rest := TrimPrefix(path, API);
    var parts := SplitN2(rest);
    assert path == API + rest;
    assert |StripVersionPrefix(path)| < |path|;
  }

  /** A versioned path is handled after exactly one re-dispatch, with only its first version stripped. */
  lemma VersionedIsHandledOnce(cfg: Config, verb: Verb, path: string)
    requires IsVersioned(path)
    ensures Serve(cfg, Ask(verb, path)) == Handled(StripVersionPrefix(path), ExtractVersion(path), 1)
  {
    VersionedHasVersion(path);
  }

  /** Every request takes at most one re-dispatch, and a redirect none. */
  lemma AtMostOneDispatch(cfg: Config, r: Request)
    ensures Serve(cfg, r).Handled? ==> Serve(cfg, r).dispatches <= 1
    ensures Serve(cfg, r).Moved? <==>
      r.version == "" && API <= r.path && !IsVersioned(r.path) && cfg.redirecting
    ensures Serve(cfg, r).Moved? ==>
      Serve(cfg, r) == Moved(if r.verb == OTHER then 308 else 301, Canonical(cfg.currentVersion, r.path))
  {
    if IsVersioned(r.path) { VersionedHasVersion(r.path); }
  }

  /** Without redirecting an unversioned API path is handled as legacy; other paths are not versioned at all. */
  lemma UnversionedIsHandled(cfg: Config, verb: Verb, path: string)
    requires !IsVersioned(path)
    ensures API <= path && !cfg.redirecting ==> Serve(cfg, Ask(verb, path)) == Handled(path, "legacy", 0)
    ensures !(API <= path) ==> Serve(cfg, Ask(verb, path)) == Handled(path, "", 0)
  {
  }

  /**
   * Following the redirect of an unversioned path: with a proper current version it ends after one
   * redirect and one re-dispatch at the handler of the original path.
   */
  lemma RedirectEndsAtTheHandler(cfg: Config, verb: Verb, rest: string)
    requires cfg.redirecting && !IsVersioned(API + rest)
    requires VersionSegment(cfg.currentVersion) && '/' !in cfg.currentVersion
    ensures var first := Serve(cfg, Ask(verb, API + rest));
      && first.Moved?
      && Serve(cfg, Ask(verb, first.target)) == Handled(API + rest, cfg.currentVersion, 1)
  {
    AtMostOneDispatch(cfg, Ask(verb, API + rest));
    StripUndoesCanonical(cfg.currentVersion, rest);
    CanonicalVersioned(cfg.currentVersion, rest);
    var v := cfg.currentVersion;
    CutOfSegment(v);
    VersionedIsHandledOnce(cfg, verb, Canonical(v, API + rest));
  }

  /** The path reached after following n redirects, as long as each answer is a redirect. */
  function Hop(cfg: Config, path: string, n: nat): string {
    if n == 0 then path else Canonical(cfg.currentVersion, Hop(cfg, path, n - 1))
  }

  lemma HopStaysUnversioned(version: string, rest: string) returns (last: string)
    requires !VersionSegment(Head(version))
    ensures Canonical(version, API + rest) == API + last && !IsVersioned(Canonical(version, API + rest))
  {
    CanonicalShape(version, rest);
    CanonicalVersioned(version, rest);
    last := version + "/" + rest;
  }

  lemma {:induction false} HopsStayUnversioned(cfg: Config, rest: string, n: nat) returns (last: string)
    requires !IsVersioned(API + rest) && !VersionSegment(Head(cfg.currentVersion))
    ensures Hop(cfg, API + rest, n) == API + last && !IsVersioned(API + last)
    decreases n
  {
    if n == 0 {
      last := rest;
    } else {
      var before := HopsStayUnversioned(cfg, rest, n - 1);
      last := HopStaysUnversioned(cfg.currentVersion, before);
    }
  }

  /**
   * Exactly when redirects end: a client that follows them is redirected once if the head of the
   * configured version is a version segment, and for ever if it is not.
   */
  lemma RedirectsEndIff(cfg: Config, verb: Verb, rest: string)
    requires cfg.redirecting && !IsVersioned(API + rest)
    ensures VersionSegment(Head(cfg.currentVersion)) ==>
      Serve(cfg, Ask(verb, Hop(cfg, API + rest, 1))).Handled?
    ensures !VersionSegment(Head(cfg.currentVersion)) ==>
      forall n: nat :: Serve(cfg, Ask(verb, Hop(cfg, API + rest, n))).Moved?
  {
    if VersionSegment(Head(cfg.currentVersion)) {
      CanonicalVersioned(cfg.currentVersion, rest);
      assert Hop(cfg, API + rest, 0) == API + rest;
      VersionedIsHandledOnce(cfg, verb, Canonical(cfg.currentVersion, API + rest));
    } else {
      forall n: nat ensures Serve(cfg, Ask(verb, Hop(cfg, API + rest, n))).Moved? {
        var last := HopsStayUnversioned(cfg, rest, n);
        AtMostOneDispatch(cfg, Ask(verb, API + last));
      }
    }
  }

  /** Only the first of nested version prefixes is stripped: /api/v1/v2/x is handled as /api/v2/x. */
  lemma NestedPrefixes(cfg: Config, verb: Verb, v: string, w: string, rest: string)
    requires VersionSegment(v) && '/' !in v
    ensures Serve(cfg, Ask(verb, API + (v + "/" + (w + "/" + rest)))) == Handled(API + (w + "/" + rest), v, 1)
  {
    var inner := w + "/" + rest;
    CanonicalShape(v, inner);
    StripUndoesCanonical(v, inner);
    CanonicalVersioned(v, inner);
    CutOfSegment(v);
    VersionedIsHandledOnce(cfg, verb, API + (v + "/" + inner));
  }
}
