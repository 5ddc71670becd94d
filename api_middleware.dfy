/** The gateway's middlewares (api/middleware.go): bearer-token extraction
    and the JWT claims check, the admission gate in front of the rate limiter,
    and the IP gate in front of the bank's callback. Each middleware only
    chooses between aborting with a status and handing on to the next one. */
module ApiMiddleware {
  import opened Common
  import opened ApiEntities
  import ApiRateLimiter

  // ---------------------------------------------------------------------
  // strings.Split with separator " ", and strings.TrimSpace
  // ---------------------------------------------------------------------

  /** strings.Split(s, " "): the pieces between single spaces, one more
      than there are spaces; the empty string splits into one empty piece. */
  function Split(s: string): (parts: seq<string>)
    ensures |parts| >= 1
    ensures forall k | 0 <= k < |parts| :: ' ' !in parts[k]
    decreases |s|
  {
    if s == [] then [""]
    else if s[0] == ' ' then [""] + Split(s[1..])
    else
      var rest := Split(s[1..]);
      [[s[0]] + rest[0]] + rest[1..]
  }

  /** strings.Join(parts, " "), the inverse of Split. */
  function Join(parts: seq<string>): string
    requires |parts| >= 1
    decreases |parts|
  {
    if |parts| == 1 then parts[0] else parts[0] + " " + Join(parts[1..])
  }

  /** The number of spaces in s. */
  function Spaces(s: string): nat
    decreases |s|
  {
    if s == [] then 0 else Spaces(s[1..]) + if s[0] == ' ' then 1 else 0
  }

  /** Splitting loses nothing: joining the pieces gives the text back, and
      there is one piece more than there are spaces. */
  lemma {:induction false} SplitJoin(s: string)
    ensures Join(Split(s)) == s
    ensures |Split(s)| == Spaces(s) + 1
    decreases |s|
  {
    if s != [] {
      SplitJoin(s[1..]);
      if s[0] != ' ' {
        var rest := Split(s[1..]);
        if |rest| == 1 {
          assert Join(Split(s)) == [s[0]] + rest[0];
        } else {
          assert Split(s)[1..] == rest[1..];
          assert Join(Split(s)) == [s[0]] + rest[0] + " " + Join(rest[1..]);
        }
        assert [s[0]] + s[1..] == s;
      }
    }
  }

  /** A text without spaces is one piece. */
  lemma {:induction false} SplitWithoutSpaces(s: string)
    requires ' ' !in s
    ensures Split(s) == [s]
    decreases |s|
  {
    if s != [] {
      assert ' ' !in s[1..] by {
        forall k | 0 <= k < |s[1..]| ensures s[1..][k] != ' ' {
          assert s[1..][k] == s[k + 1];
        }
      }
      SplitWithoutSpaces(s[1..]);
      assert [s[0]] + s[1..] == s;
    }
  }

  /** Split inverts Join: pieces without spaces come back as they were
      joined. */
  lemma {:induction false} JoinSplit(parts: seq<string>)
    requires |parts| >= 1
    requires forall k | 0 <= k < |parts| :: ' ' !in parts[k]
    ensures Split(Join(parts)) == parts
    decreases |parts|, |parts[0]|
  {
    if |parts| == 1 {
      SplitWithoutSpaces(parts[0]);
    } else if parts[0] == [] {
      assert Join(parts) == [' '] + Join(parts[1..]);
      assert Join(parts)[1..] == Join(parts[1..]);
      JoinSplit(parts[1..]);
      assert [""] + parts[1..] == parts;
    } else {
      var c := parts[0][0];
      var shorter := [parts[0][1..]] + parts[1..];
      assert ' ' !in parts[0][1..] by {
        forall k | 0 <= k < |parts[0][1..]| ensures parts[0][1..][k] != ' ' {
          assert parts[0][1..][k] == parts[0][k + 1];
        }
      }
      assert shorter[1..] == parts[1..];
      assert Join(parts) == [c] + Join(shorter) by {
        assert parts[0] == [c] + parts[0][1..];
      }
      assert Join(parts)[1..] == Join(shorter);
      JoinSplit(shorter);
      assert [[c] + shorter[0]] + shorter[1..] == parts by {
        assert [c] + parts[0][1..] == parts[0];
      }
    }
  }

  /** unicode.IsSpace: the white space characters of Unicode, as Go lists
      them. */
  predicate IsSpace(c: char)
  {
    || ('\t' <= c <= '\r') || c == ' ' || c == '\U{85}' || c == '\U{A0}' || c == '\U{1680}'
    || ('\U{2000}' <= c <= '\U{200A}')
    || c == '\U{2028}' || c == '\U{2029}' || c == '\U{202F}' || c == '\U{205F}' || c == '\U{3000}'
  }

  /** The text without its leading white space. */
  function TrimLeft(s: string): (r: string)
    ensures |r| <= |s| && r == s[|s| - |r|..]
    ensures r != [] ==> !IsSpace(r[0])
    ensures forall k | 0 <= k < |s| - |r| :: IsSpace(s[k])
    decreases |s|
  {
    if s != [] && IsSpace(s[0]) then TrimLeft(s[1..]) else s
  }

  /** The text without its trailing white space. */
  function TrimRight(s: string): (r: string)
    ensures |r| <= |s| && r == s[..|r|]
    ensures r != [] ==> !IsSpace(r[|r| - 1])
    ensures forall k | |r| <= k < |s| :: IsSpace(s[k])
    decreases |s|
  {
    if s != [] && IsSpace(s[|s| - 1]) then TrimRight(s[..|s| - 1]) else s
  }

  /** strings.TrimSpace. */
  function TrimSpace(s: string): string
  {
    TrimRight(TrimLeft(s))
  }

  /** r is s[i..j], everything of s outside it is white space, and r
      neither starts nor ends with white space. */
  predicate TrimmedSlice(s: string, r: string, i: int, j: int)
  {
    && 0 <= i <= j <= |s|
    && r == s[i..j]
    && (forall k | 0 <= k < i :: IsSpace(s[k]))
    && (forall k | j <= k < |s| :: IsSpace(s[k]))
    && (r != [] ==> !IsSpace(r[0]) && !IsSpace(r[|r| - 1]))
  }

  /** TrimSpace keeps a slice of the text that neither starts nor ends with
      white space, and drops only white space around it. */
  lemma TrimSpaceSpec(s: string)
    ensures exists i, j :: TrimmedSlice(s, TrimSpace(s), i, j)
  {
    var l := TrimLeft(s);
    var r := TrimRight(l);
    var i := |s| - |l|;
    var j := i + |r|;
    assert l == s[i..];
    assert r == s[i..j];
    forall k | j <= k < |s| ensures IsSpace(s[k]) {
      assert s[k] == l[k - i];
    }
    assert forall k | 0 <= k < i :: IsSpace(s[k]);
    if r != [] {
      assert r[0] == l[0];
    }
    assert r != [] ==> !IsSpace(r[0]) && !IsSpace(r[|r| - 1]);
    assert TrimSpace(s) == r;
    assert TrimmedSlice(s, TrimSpace(s), i, j);
  }

  /** The text is all white space exactly when TrimSpace leaves nothing. */
  lemma TrimSpaceEmpty(s: string)
    ensures TrimSpace(s) == "" <==> forall k | 0 <= k < |s| :: IsSpace(s[k])
  {
    var l := TrimLeft(s);
    if l != [] {
      assert l[0] == s[|s| - |l|];
    }
  }

  /** Trimming twice is trimming once. */
  lemma TrimSpaceIdempotent(s: string)
    ensures TrimSpace(TrimSpace(s)) == TrimSpace(s)
  {
  }

  // ---------------------------------------------------------------------
  // authMiddleware
  // ---------------------------------------------------------------------

  /** The token of an Authorization header: the trimmed second piece when
      the header splits on " " into exactly two pieces ("Bearer <token>"),
      the whole trimmed header otherwise. */
  function ExtractToken(header: string): string
  {
    var parts := Split(header);
    if |parts| == 2 then TrimSpace(parts[1]) else TrimSpace(header)
  }

  /** A header with exactly one space gives the trimmed text after it,
      whatever the scheme before it is. */
  lemma ExtractTokenWithScheme(scheme: string, token: string)
    requires ' ' !in scheme && ' ' !in token
    ensures ExtractToken(scheme + " " + token) == TrimSpace(token)
  {
    JoinSplit([scheme, token]);
    assert Join([scheme, token]) == scheme + " " + token;
  }

  /** A header with no space, or with two or more, is taken whole. */
  lemma ExtractTokenWhole(header: string)
    requires Spaces(header) != 1
    ensures ExtractToken(header) == TrimSpace(header)
  {
    SplitJoin(header);
  }

  /** MerchantClaims: the merchant's username and id, and the expiry. */
  datatype Claims = Claims(username: string, id: Uuid, exp: Instant)

  /** MerchantClaims.valid at `now`: a merchant id, and an expiry that is
      not before now. */
  predicate ClaimsValid(claims: Claims, now: Instant)
  {
    claims.id != Nil && !(claims.exp < now)
  }

  /** What jwt.ParseWithClaims returns for a token: an error, or the claims
      decoded from it with the token's own validity (signature and standard
      claims). jwt-go reports an invalid token through its error, so
      `Parsed(_, false)` is never produced; the model keeps it because
      authMiddleware tests `token.Valid` on its own. */
  datatype JwtOutcome = ParseFailed | Parsed(claims: Claims, tokenValid: bool)

  type JwtParser = string -> JwtOutcome

  /** A middleware's choice: abort with a status and, for a JSON error
      response, its error text; or hand on to the next handler. */
  datatype Gate = Halt(status: int, error: Option<string>) | Next

  /** What authMiddleware does: abort with 401, or go on with the claims
      stored in the request context. */
  datatype AuthGate = Unauthorized(error: string) | Authorized(claims: Claims)

  /** authMiddleware at `now`. */
  function Authenticate(header: string, jwt: JwtParser, now: Instant): AuthGate
  {
    var token := ExtractToken(header);
    if token == "" then Unauthorized("no token provided")
    else match jwt(token)
      case ParseFailed => Unauthorized("could not parse token")
      case Parsed(claims, tokenValid) =>
        if ClaimsValid(claims, now) && tokenValid then Authorized(claims)
        else Unauthorized("invalid token")
  }

  /** The request goes on exactly when the token is not blank, parses, is
      valid, and carries a merchant id and an expiry not before now; it
      then carries the token's claims. A blank token is refused before the
      parser is consulted. */
  lemma AuthenticateSpec(header: string, jwt: JwtParser, now: Instant)
    ensures var token := ExtractToken(header);
      && (Authenticate(header, jwt, now).Authorized? <==>
            token != "" && jwt(token).Parsed? && jwt(token).tokenValid
            && jwt(token).claims.id != Nil && now <= jwt(token).claims.exp)
      && (Authenticate(header, jwt, now).Authorized? ==>
            Authenticate(header, jwt, now).claims == jwt(token).claims)
      && (token == "" ==> Authenticate(header, jwt, now) == Unauthorized("no token provided"))
      && (token != "" && jwt(token).ParseFailed? ==>
            Authenticate(header, jwt, now) == Unauthorized("could not parse token"))
  {
  }

  /** A token that was accepted stays accepted until its expiry, and is
      refused at any later instant. */
  lemma AuthenticateExpires(header: string, jwt: JwtParser, now: Instant, later: Instant)
    requires Authenticate(header, jwt, now).Authorized?
    ensures later <= Authenticate(header, jwt, now).claims.exp ==> Authenticate(header, jwt, later).Authorized?
    ensures later > Authenticate(header, jwt, now).claims.exp ==> !Authenticate(header, jwt, later).Authorized?
  {
  }

  // ---------------------------------------------------------------------
  // rateLimitMiddleware and restrictMiddleware
  // ---------------------------------------------------------------------

  /** rateLimitMiddleware: ask the rate limiter about the merchant of the
      claims; a refusal aborts with 429. `outcome` is how that call ended. */
  function RateLimitGate(svc: ApiRateLimiter.RateLimiterService, outcome: ApiRateLimiter.RpcOutcome): (g: Gate)
    ensures g.Halt? ==> g == Halt(StatusTooManyRequests, Some("too many requests"))
  {
    if !ApiRateLimiter.Allow(svc, outcome) then Halt(StatusTooManyRequests, Some("too many requests")) else Next
  }

  /** Only an explicit refusal from the rate limiter aborts: a failed dial
      or call lets the request through. */
  lemma RateLimitGateFailsOpen(svc: ApiRateLimiter.RateLimiterService, outcome: ApiRateLimiter.RpcOutcome)
    ensures RateLimitGate(svc, outcome).Halt? <==> outcome == ApiRateLimiter.Answered(false)
  {
  }

  /** net.SplitHostPort, keeping only the host: None when the address has
      no port. */
  type HostSplitter = string -> Option<string>

  /** restrictMiddleware(allowedIp): an address without a port aborts with
      500, a host other than the allowed IP with 401, both without a body. */
  function RestrictGate(allowedIp: string, remoteAddr: string, split: HostSplitter): Gate
  {
    match split(remoteAddr)
    case None => Halt(StatusInternalServerError, None)
    case Some(ip) => if ip != allowedIp then Halt(StatusUnauthorized, None) else Next
  }

  /** The IP gate lets through exactly the requests from the allowed IP. */
  lemma RestrictGateSpec(allowedIp: string, remoteAddr: string, split: HostSplitter)
    ensures RestrictGate(allowedIp, remoteAddr, split) == Next <==> split(remoteAddr) == Some(allowedIp)
    ensures split(remoteAddr).None? ==> RestrictGate(allowedIp, remoteAddr, split) == Halt(StatusInternalServerError, None)
    ensures split(remoteAddr).Some? && split(remoteAddr).value != allowedIp
            ==> RestrictGate(allowedIp, remoteAddr, split) == Halt(StatusUnauthorized, None)
  {
  }
}
