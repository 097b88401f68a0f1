/** The two pieces of logic in the application module: the database-URL rewrite
    applied to the configured URL, and the authentication gate run before every
    request. */
module App {
  import opened Wrappers

  // ---------------------------------------------------------------------------
  // fix_dialect
  // ---------------------------------------------------------------------------

  predicate StartsWith(s: string, prefix: string)
  {
    |prefix| <= |s| && s[..|prefix|] == prefix
  }

  predicate OccursAt(s: string, pat: string, k: int)
  {
    0 <= k && k + |pat| <= |s| && s[k..k + |pat|] == pat
  }

  predicate Contains(s: string, pat: string)
  {
    exists k | 0 <= k <= |s| - |pat| :: OccursAt(s, pat, k)
  }

  /** Python's `s.replace(pat, rep)`: every occurrence, scanning left to right, the
      occurrences not overlapping. Only non-empty patterns are used. A replacement
      at least as long as the pattern never shortens the text, and one no longer
      than the pattern never lengthens it. */
  function Replace(s: string, pat: string, rep: string): (r: string)
    requires |pat| > 0
    ensures |pat| <= |rep| ==> |s| <= |r|
    ensures |rep| <= |pat| ==> |r| <= |s|
    decreases |s|
  {
    if |s| < |pat| then s
    else if s[..|pat|] == pat then rep + Replace(s[|pat|..], pat, rep)
    else [s[0]] + Replace(s[1..], pat, rep)
  }

  const LegacyScheme: string := "postgres://"
  const PlainScheme: string := "postgresql://"
  const DriverScheme: string := "postgresql+psycopg2://"

  /** The first step of `fix_dialect`: a URL that starts with the legacy scheme has
      every legacy scheme replaced by the plain one. */
  function UpgradeLegacy(s: string): (r: string)
    ensures StartsWith(s, LegacyScheme) ==> StartsWith(r, PlainScheme)
    ensures !Contains(s, LegacyScheme) ==> r == s
    ensures StartsWith(s, PlainScheme) ==> r == s
  {
    FirstStepFacts(s);
    if StartsWith(s, LegacyScheme) then Replace(s, LegacyScheme, PlainScheme) else s
  }

  /** Why the first step of `fix_dialect` behaves as its contract says: a legacy
      prefix is an occurrence at 0, and a plain URL differs from the legacy scheme
      in its ninth character. */
  lemma FirstStepFacts(s: string)
    ensures StartsWith(s, LegacyScheme) ==> StartsWith(Replace(s, LegacyScheme, PlainScheme), PlainScheme)
    ensures StartsWith(s, LegacyScheme) ==> Contains(s, LegacyScheme)
    ensures StartsWith(s, PlainScheme) ==> !StartsWith(s, LegacyScheme)
  {
    if StartsWith(s, LegacyScheme) {
      ReplaceAtStart(s, LegacyScheme, PlainScheme);
      assert OccursAt(s, LegacyScheme, 0);
    }
    if StartsWith(s, PlainScheme) {
      assert s[8] == PlainScheme[8] == 'q';
    }
  }

  /** `fix_dialect`: the URL with its PostgreSQL scheme rewritten to name the
      psycopg2 driver. */
  function FixDialect(s: string): (r: string)
    ensures StartsWith(s, LegacyScheme) ==> StartsWith(r, DriverScheme)
    ensures StartsWith(s, PlainScheme) ==> StartsWith(r, DriverScheme)
    ensures !Contains(r, PlainScheme)
    ensures !Contains(s, LegacyScheme) && !Contains(s, PlainScheme) ==> r == s
  {
    FixDialectFacts(s);
    Replace(UpgradeLegacy(s), PlainScheme, DriverScheme)
  }

  lemma FixDialectFacts(s: string)
    ensures var r := Replace(UpgradeLegacy(s), PlainScheme, DriverScheme);
      && (StartsWith(s, LegacyScheme) ==> StartsWith(r, DriverScheme))
      && (StartsWith(s, PlainScheme) ==> StartsWith(r, DriverScheme))
      && !Contains(r, PlainScheme)
      && (!Contains(s, LegacyScheme) && !Contains(s, PlainScheme) ==> r == s)
  {
    var s1 := UpgradeLegacy(s);
    if StartsWith(s1, PlainScheme) {
      ReplaceAtStart(s1, PlainScheme, DriverScheme);
    }
    if !Contains(s, LegacyScheme) && !Contains(s, PlainScheme) {
      ReplaceAbsent(s, PlainScheme, DriverScheme);
    }
    NoPlainSchemeLeft(s1);
  }

  /** A string that starts with the pattern starts with the replacement afterwards. */
  lemma ReplaceAtStart(s: string, pat: string, rep: string)
    requires |pat| > 0 && StartsWith(s, pat)
    ensures StartsWith(Replace(s, pat, rep), rep)
  {
  }

  /** Without an occurrence of the pattern, replacing changes nothing. */
  lemma {:induction false} ReplaceAbsent(s: string, pat: string, rep: string)
    requires |pat| > 0 && !Contains(s, pat)
    ensures Replace(s, pat, rep) == s
    decreases |s|
  {
    if |s| >= |pat| {
      assert !OccursAt(s, pat, 0);
      assert !Contains(s[1..], pat) by {
        forall k | OccursAt(s[1..], pat, k) ensures false {
          assert s[1..][k..k + |pat|] == s[k + 1..k + 1 + |pat|];
          assert OccursAt(s, pat, k + 1);
        }
      }
      ReplaceAbsent(s[1..], pat, rep);
      assert s == [s[0]] + s[1..];
    }
  }

  /** A string in which the first character of the pattern never appears has no
      occurrence of the pattern. */
  lemma FirstCharAbsent(s: string, pat: string)
    requires |pat| > 0 && forall i :: 0 <= i < |s| ==> s[i] != pat[0]
    ensures !Contains(s, pat)
  {
    forall k | 0 <= k <= |s| - |pat| ensures !OccursAt(s, pat, k) {
      assert s[k..k + |pat|][0] == s[k];
    }
  }

  /** The only 'p' in the plain scheme is its first character. */
  lemma PlainSchemeLetters()
    ensures |PlainScheme| == 13 && PlainScheme[0] == 'p'
    ensures forall j :: 1 <= j < 13 ==> PlainScheme[j] != 'p'
  {
  }

  /** The driver scheme holds no 'p' followed by 'o' whose tenth successor is a
      colon, the three letters every occurrence of the plain scheme has. */
  lemma DriverSchemeLetters(k: int)
    requires 0 <= k < 22
    ensures !(DriverScheme[k] == 'p' && (k + 1 < 22 ==> DriverScheme[k + 1] == 'o')
              && (k + 10 < 22 ==> DriverScheme[k + 10] == ':'))
  {
    assert |DriverScheme| == 22;
    // Naming every index lets the verifier check the letters one position at a time.
    assert k == 0 || k == 1 || k == 2 || k == 3 || k == 4 || k == 5 || k == 6 || k == 7
        || k == 8 || k == 9 || k == 10 || k == 11 || k == 12 || k == 13 || k == 14
        || k == 15 || k == 16 || k == 17 || k == 18 || k == 19 || k == 20 || k == 21;
  }

  lemma OccursAtLetters(out: string, k: int)
    ensures OccursAt(out, PlainScheme, k) ==>
      out[k] == 'p' && out[k + 1] == 'o' && out[k + 10] == ':'
  {
    if OccursAt(out, PlainScheme, k) {
      assert out[k..k + 13] == PlainScheme;
      assert out[k..k + 13][0] == out[k] && out[k..k + 13][1] == out[k + 1];
      assert out[k..k + 13][10] == out[k + 10];
    }
  }

  lemma StartsWithFirst(s: string, prefix: string)
    requires |prefix| > 0
    ensures StartsWith(s, prefix) ==> s[0] == prefix[0]
  {
    if StartsWith(s, prefix) {
      assert s[..|prefix|][0] == s[0];
    }
  }

  lemma StartsWithCons(c: char, s: string, prefix: string)
    requires |prefix| > 0
    ensures StartsWith([c] + s, prefix) <==> c == prefix[0] && StartsWith(s, prefix[1..])
  {
    var cs := [c] + s;
    if |prefix| <= |cs| {
      assert cs[..|prefix|] == [c] + s[..|prefix| - 1];
      assert prefix == [prefix[0]] + prefix[1..];
    }
  }

  /** If the rewritten string begins with a proper suffix of the plain scheme, so did
      the string before the rewrite. */
  lemma {:induction false} SuffixPrefixBack(t: string, j: int)
    requires 1 <= j < 13
    ensures StartsWith(Replace(t, PlainScheme, DriverScheme), PlainScheme[j..]) ==>
      StartsWith(t, PlainScheme[j..])
    decreases |t|
  {
    PlainSchemeLetters();
    var out := Replace(t, PlainScheme, DriverScheme);
    var suffix := PlainScheme[j..];
    assert suffix[0] == PlainScheme[j] && suffix[1..] == PlainScheme[j + 1..];
    if |t| < 13 {
    } else if t[..13] == PlainScheme {
      assert out[0] == DriverScheme[0] == 'p';
      StartsWithFirst(out, suffix);
    } else {
      var rest := Replace(t[1..], PlainScheme, DriverScheme);
      assert out == [t[0]] + rest;
      assert t == [t[0]] + t[1..];
      StartsWithCons(t[0], rest, suffix);
      StartsWithCons(t[0], t[1..], suffix);
      if j < 12 {
        SuffixPrefixBack(t[1..], j + 1);
      } else {
        assert suffix[1..] == [];
      }
    }
  }

  /** After replacing every plain scheme by the driver scheme none is left: the
      driver scheme does not contain the plain scheme, and no occurrence can straddle
      a replaced part and its surroundings. */
  lemma NoPlainSchemeLeft(t: string)
    ensures !Contains(Replace(t, PlainScheme, DriverScheme), PlainScheme)
  {
    var out := Replace(t, PlainScheme, DriverScheme);
    forall k | 0 <= k <= |out| - |PlainScheme| ensures !OccursAt(out, PlainScheme, k) {
      NoPlainSchemeAt(t, k);
    }
  }

  /** No occurrence starts inside a replaced part. */
  lemma NoPlainSchemeInDriver(rest: string, k: int)
    requires 0 <= k < 22
    ensures !OccursAt(DriverScheme + rest, PlainScheme, k)
  {
    var out := DriverScheme + rest;
    OccursAtLetters(out, k);
    DriverSchemeLetters(k);
    assert out[k] == DriverScheme[k];
    assert k + 1 < 22 ==> out[k + 1] == DriverScheme[k + 1];
    assert k + 10 < 22 ==> out[k + 10] == DriverScheme[k + 10];
  }

  /** An occurrence past a prefix is an occurrence in what follows it. */
  lemma OccursAfter(prefix: string, rest: string, k: int)
    requires |prefix| <= k
    ensures OccursAt(prefix + rest, PlainScheme, k) <==> OccursAt(rest, PlainScheme, k - |prefix|)
  {
    var out := prefix + rest;
    if k + 13 <= |out| {
      assert out[k..k + 13] == rest[k - |prefix|..k - |prefix| + 13];
    }
  }

  lemma {:induction false} NoPlainSchemeAt(t: string, k: int)
    ensures !OccursAt(Replace(t, PlainScheme, DriverScheme), PlainScheme, k)
    decreases |t|
  {
    var out := Replace(t, PlainScheme, DriverScheme);
    if |t| < 13 {
      assert out == t;
    } else if t[..13] == PlainScheme {
      var rest := Replace(t[13..], PlainScheme, DriverScheme);
      assert out == DriverScheme + rest;
      if 0 <= k < 22 {
        NoPlainSchemeInDriver(rest, k);
      } else if k >= 22 {
        NoPlainSchemeAt(t[13..], k - 22);
        OccursAfter(DriverScheme, rest, k);
      }
    } else {
      var rest := Replace(t[1..], PlainScheme, DriverScheme);
      assert out == [t[0]] + rest;
      if k == 0 {
        NoPlainSchemeAtHead(t);
      } else if k >= 1 {
        NoPlainSchemeAt(t[1..], k - 1);
        OccursAfter([t[0]], rest, k);
      }
    }
  }

  /** When the text does not start with the plain scheme, its first character is
      kept, and no occurrence can start there either. */
  lemma NoPlainSchemeAtHead(t: string)
    requires |t| >= 13 && t[..13] != PlainScheme
    ensures !OccursAt(Replace(t, PlainScheme, DriverScheme), PlainScheme, 0)
  {
    KeptHead(t);
    SuffixPrefixBack(t[1..], 1);
    assert t == [t[0]] + t[1..];
    assert !StartsWith(t, PlainScheme) by {
      PlainSchemeLetters();
    }
    PlainSchemeNotAtHead(t[0], Replace(t[1..], PlainScheme, DriverScheme), t[1..]);
  }

  /** A text that does not start with the plain scheme keeps its first character. */
  lemma KeptHead(t: string)
    requires |t| >= 13 && t[..13] != PlainScheme
    ensures Replace(t, PlainScheme, DriverScheme) == [t[0]] + Replace(t[1..], PlainScheme, DriverScheme)
  {
    PlainSchemeLetters();
  }

  /** If the rest can begin with the plain scheme's tail only where the old tail did,
      and the old text did not begin with the plain scheme, the new one does not. */
  lemma PlainSchemeNotAtHead(c: char, rest: string, tail: string)
    requires StartsWith(rest, PlainScheme[1..]) ==> StartsWith(tail, PlainScheme[1..])
    requires !StartsWith([c] + tail, PlainScheme)
    ensures !OccursAt([c] + rest, PlainScheme, 0)
  {
    PlainSchemeLetters();
    StartsWithCons(c, rest, PlainScheme);
    StartsWithCons(c, tail, PlainScheme);
    assert OccursAt([c] + rest, PlainScheme, 0) ==> StartsWith([c] + rest, PlainScheme);
  }

  /** The default database URL is left as it is. */
  lemma DefaultUrlUnchanged()
    ensures FixDialect("sqlite:///reviews_microservice.db") == "sqlite:///reviews_microservice.db"
  {
    var url := "sqlite:///reviews_microservice.db";
    FirstCharAbsent(url, LegacyScheme);
    FirstCharAbsent(url, PlainScheme);
  }

  // ---------------------------------------------------------------------------
  // before_request
  // ---------------------------------------------------------------------------

  /** What the gate reads of an incoming request: its path, its HTTP method (`verb`) and the
      `BookBNBAuthorization` header, if any. */
  datatype Request = Request(path: string, verb: string, bookbnbToken: Option<string>)

  datatype ErrorResponse = ErrorResponse(status: int, message: string)

  const ExcludedPaths: seq<string> := [
    "/",
    "/swaggerui/favicon-32x32.png",
    "/swagger.json",
    "/swaggerui/swagger-ui-standalone-preset.js",
    "/swaggerui/swagger-ui-standalone-preset.js",
    "/swaggerui/swagger-ui-bundle.js",
    "/swaggerui/swagger-ui.css",
    "/swaggerui/droid-sans.css"
  ]

  const MissingTokenMessage: string := "BookBNB token is missing"
  const InvalidTokenMessage: string := "Invalid BookBNB token"

  /** The configured environment, "DEV" when unset. */
  function EnvOrDefault(env: Option<string>): (r: string)
    ensures env.None? ==> r == "DEV"
    ensures env.Some? ==> r == env.value
  {
    match env
    case Some(e) => e
    case None => "DEV"
  }

  /** The requests the gate lets through without looking at any token. */
  predicate Bypassed(env: Option<string>, req: Request)
  {
    EnvOrDefault(env) == "DEV" || req.path in ExcludedPaths || req.verb == "OPTIONS"
  }

  /** `before_request`: `None` lets the request through, `Some` is the 401 that ends
      it. `tokenAccepted` is the verification service's verdict on a token (its
      response being ok). */
  function BeforeRequest(env: Option<string>, req: Request, tokenAccepted: string -> bool)
    : (r: Option<ErrorResponse>)
    ensures r.None? <==>
      Bypassed(env, req) || (req.bookbnbToken.Some? && tokenAccepted(req.bookbnbToken.value))
    ensures r.Some? ==> r.value.status == 401
    ensures !Bypassed(env, req) && req.bookbnbToken.None? ==>
      r == Some(ErrorResponse(401, MissingTokenMessage))
    ensures !Bypassed(env, req) && req.bookbnbToken.Some? && !tokenAccepted(req.bookbnbToken.value) ==>
      r == Some(ErrorResponse(401, InvalidTokenMessage))
  {
    if EnvOrDefault(env) == "DEV" || req.path in ExcludedPaths || req.verb == "OPTIONS" then
      None
    else
      match req.bookbnbToken
      case None => Some(ErrorResponse(401, MissingTokenMessage))
      case Some(token) =>
        if !tokenAccepted(token) then Some(ErrorResponse(401, InvalidTokenMessage))
        else None
  }

  /** A bypassed request gets through whatever its token and whatever the
      verification service would say. */
  lemma BypassIgnoresToken(env: Option<string>, req: Request, token: Option<string>,
                           accept1: string -> bool, accept2: string -> bool)
    requires Bypassed(env, req)
    ensures BeforeRequest(env, req, accept1) == BeforeRequest(env, req.(bookbnbToken := token), accept2) == None
  {
  }
}
