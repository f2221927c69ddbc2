/** Identity middleware of the workspace server: `contextUser`
    (server/src/middleware/contextUser.ts), which turns a bearer token into
    `req.user`, and `needLogin` (server/src/middleware/auth.ts), which
    guards routes that need a user. Token verification (JSON Web Tokens,
    RFC 7519) is an arbitrary function passed in; the user table is a map. */
module Identity {
  import opened Common
  import opened Entities

  const DeactivatedMessage := "The account has been deactivated"
  const UnauthorizedMessage := "Unauthorized"
  const UnauthorizedStatus := 401

  /** The characters an ECMAScript `\s` matches: WhiteSpace (including every
      Unicode space separator) and LineTerminator. */
  predicate IsJsSpace(c: char)
  {
    c == '\t' || c == '\n' || c == '\U{000B}' || c == '\U{000C}' || c == '\r' ||
    c == ' ' || c == '\U{00A0}' || c == '\U{1680}' ||
    ('\U{2000}' <= c <= '\U{200A}') ||
    c == '\U{2028}' || c == '\U{2029}' || c == '\U{202F}' || c == '\U{205F}' ||
    c == '\U{3000}' || c == '\U{FEFF}'
  }

  predicate NoJsSpace(s: string)
  {
    forall i :: 0 <= i < |s| ==> !IsJsSpace(s[i])
  }

  predicate AllJsSpace(s: string)
  {
    forall i :: 0 <= i < |s| ==> IsJsSpace(s[i])
  }

  /** Drops the leading run of whitespace. */
  function SkipSpaces(s: string): (r: string)
    ensures |r| <= |s| && (s != [] && IsJsSpace(s[0]) ==> |r| < |s|)
    ensures r == [] || !IsJsSpace(r[0])
  {
    if s != [] && IsJsSpace(s[0]) then SkipSpaces(s[1..]) else s
  }

  /** What `SkipSpaces` drops is all whitespace, and what it keeps is the
      rest of the input. */
  lemma {:induction false} SkipSpacesDropsLeadingRun(s: string)
    ensures var r := SkipSpaces(s);
      r == s[|s| - |r|..] && AllJsSpace(s[..|s| - |r|])
  {
    if s != [] && IsJsSpace(s[0]) {
      SkipSpacesDropsLeadingRun(s[1..]);
      var r := SkipSpaces(s);
      assert s[1..][|s| - 1 - |r|..] == s[|s| - |r|..];
      assert s[..|s| - |r|] == [s[0]] + s[1..][..|s| - 1 - |r|];
    }
  }

  /** `s.split(/\s+/)`: the pieces between maximal runs of whitespace,
      including the empty piece before a leading run and after a trailing one. */
  function SplitWs(s: string): (fields: seq<string>)
    ensures |fields| >= 1
    ensures forall i :: 0 <= i < |fields| ==> NoJsSpace(fields[i])
    decreases |s|
  {
    if s == [] then [""]
    else if IsJsSpace(s[0]) then [""] + SplitWs(SkipSpaces(s))
    else
      var rest := SplitWs(s[1..]);
      [[s[0]] + rest[0]] + rest[1..]
  }

  /** The credential a request carries: the second whitespace-separated
      field of the `Authorization` header, or, when that field is missing or
      empty, the `token` query parameter. An empty string counts as absent. */
  function ExtractToken(authorization: Option<string>, queryToken: Option<string>): (token: Option<string>)
    ensures token.Some? ==> token.value != ""
    ensures authorization.Some? && |SplitWs(authorization.value)| > 1 && SplitWs(authorization.value)[1] != "" ==>
      token == Some(SplitWs(authorization.value)[1])
    ensures token.Some? ==>
      (authorization.Some? && |SplitWs(authorization.value)| > 1 &&
       token.value == SplitWs(authorization.value)[1]) ||
      queryToken == token
    ensures token.None? <==>
      (authorization.None? || |SplitWs(authorization.value)| < 2 || SplitWs(authorization.value)[1] == "") &&
      (queryToken.None? || queryToken.value == "")
  {
    var field :=
      if authorization.Some? && |SplitWs(authorization.value)| > 1
      then SplitWs(authorization.value)[1] else "";
    if field != "" then Some(field)
    else if queryToken.Some? && queryToken.value != "" then queryToken
    else None
  }

  /** A word with no whitespace is a single field. */
  lemma {:induction false} SplitSingleWord(w: string)
    requires NoJsSpace(w)
    ensures SplitWs(w) == [w]
  {
    if w != [] {
      SplitSingleWord(w[1..]);
      assert !IsJsSpace(w[0]);
      assert [w[0]] + w[1..] == w;
    }
  }

  /** A word followed by text that is empty or starts with whitespace is the
      first field, and the fields of the rest follow it. */
  lemma {:induction false} SplitAfterWord(w: string, s: string)
    requires NoJsSpace(w)
    requires s == [] || IsJsSpace(s[0])
    ensures SplitWs(w + s) == [w + SplitWs(s)[0]] + SplitWs(s)[1..]
  {
    if w == [] {
      assert w + s == s;
    } else {
      SplitAfterWord(w[1..], s);
      var ws := w + s;
      assert ws[0] == w[0] && !IsJsSpace(ws[0]);
      assert ws[1..] == w[1..] + s;
      var rest := SplitWs(ws[1..]);
      assert SplitWs(ws) == [[ws[0]] + rest[0]] + rest[1..];
      assert [w[0]] + (w[1..] + SplitWs(s)[0]) == w + SplitWs(s)[0];
    }
  }

  /** A run of whitespace in front of a word is skipped entirely. */
  lemma {:induction false} SkipSpacesBeforeWord(sep: string, t: string)
    requires AllJsSpace(sep)
    requires t == [] || !IsJsSpace(t[0])
    ensures SkipSpaces(sep + t) == t
  {
    if sep != [] {
      SkipSpacesBeforeWord(sep[1..], t);
      assert (sep + t)[1..] == sep[1..] + t;
    } else {
      assert sep + t == t;
    }
  }

  /** A whitespace run in front of a word yields an empty first field. */
  lemma SplitAfterSpaces(sep: string, t: string)
    requires sep != [] && AllJsSpace(sep)
    requires t == [] || !IsJsSpace(t[0])
    ensures SplitWs(sep + t) == [""] + SplitWs(t)
  {
    SkipSpacesBeforeWord(sep, t);
    var tail := sep + t;
    assert tail[0] == sep[0];
  }

  /** `Authorization: <scheme> <token>` splits into exactly the scheme and
      the token, whatever whitespace run separates them. */
  lemma SplitSchemeAndToken(scheme: string, sep: string, token: string)
    requires NoJsSpace(scheme) && NoJsSpace(token)
    requires sep != [] && AllJsSpace(sep)
    ensures SplitWs(scheme + sep + token) == [scheme, token]
  {
    var tail := sep + token;
    assert tail[0] == sep[0];
    SplitSingleWord(token);
    SplitAfterSpaces(sep, token);
    var fields := SplitWs(tail);
    assert fields == ["", token];
    SplitAfterWord(scheme, tail);
    assert scheme + fields[0] == scheme;
    assert scheme + sep + token == scheme + tail;
  }

  /** A well-formed bearer header yields its token, whatever the query says. */
  lemma BearerHeaderYieldsToken(scheme: string, sep: string, token: string, queryToken: Option<string>)
    requires NoJsSpace(scheme) && NoJsSpace(token) && token != ""
    requires sep != [] && AllJsSpace(sep)
    ensures ExtractToken(Some(scheme + sep + token), queryToken) == Some(token)
  {
    SplitSchemeAndToken(scheme, sep, token);
  }

  /** A header that starts with whitespace has an empty first field, so the
      scheme word is taken as the token, whatever the query says. */
  lemma LeadingSpaceHeaderYieldsScheme(lead: string, scheme: string, sep: string, token: string,
                                       queryToken: Option<string>)
    requires lead != [] && AllJsSpace(lead)
    requires NoJsSpace(scheme) && scheme != "" && NoJsSpace(token)
    requires sep != [] && AllJsSpace(sep)
    ensures ExtractToken(Some(lead + scheme + sep + token), queryToken) == Some(scheme)
  {
    SplitSchemeAndToken(scheme, sep, token);
    var t := scheme + sep + token;
    assert t[0] == scheme[0];
    SplitAfterSpaces(lead, t);
    assert lead + scheme + sep + token == lead + t;
  }

  /** A header with a single field (no token after the scheme) falls back to
      the query parameter. */
  lemma SchemeOnlyFallsBackToQuery(scheme: string, queryToken: Option<string>)
    requires NoJsSpace(scheme)
    ensures ExtractToken(Some(scheme), queryToken) ==
      if queryToken.Some? && queryToken.value != "" then queryToken else None
  {
    SplitSingleWord(scheme);
  }

  /** What `jwt.verify(token, secret)` yields: the decoded payload's `id`,
      or the library's error message. */
  datatype Verification = Verified(id: int) | VerifyFailed(message: string)

  /** What `contextUser` decides: no token (anonymous), a user value to
      attach (`None` when no user row has the decoded id), or an error. */
  datatype Identification = Anonymous | Identified(user: Option<User>) | Failed(message: string)

  function Identify(token: Option<string>, verify: string -> Verification, users: map<int, User>): (r: Identification)
    ensures r.Anonymous? <==> token.None?
    ensures r.Failed? <==>
      token.Some? &&
      (verify(token.value).VerifyFailed? ||
       (verify(token.value).id in users && users[verify(token.value).id].status == DeactivatedStatus))
    ensures r.Failed? && verify(token.value).Verified? ==> r.message == DeactivatedMessage
    ensures r.Failed? && verify(token.value).VerifyFailed? ==> r.message == verify(token.value).message
    ensures r.Identified? ==>
      verify(token.value).Verified? &&
      r.user == (if verify(token.value).id in users then Some(users[verify(token.value).id]) else None)
    ensures r.Identified? && r.user.Some? ==> r.user.value.status != DeactivatedStatus
  {
    match token
    case None => Anonymous
    case Some(t) =>
      match verify(t)
      case VerifyFailed(m) => Failed(m)
      case Verified(id) =>
        if id in users && users[id].status == DeactivatedStatus then Failed(DeactivatedMessage)
        else if id in users then Identified(Some(users[id]))
        else Identified(None)
  }

  /** The user table is keyed by user id. */
  ghost predicate KeyedById(users: map<int, User>)
  {
    forall id :: id in users ==> users[id].id == id
  }

  /** A token whose payload names user `id` attaches that very user, unless
      the account is deactivated; no deactivated account is ever attached. */
  lemma AttachedUserIsTokenSubject(token: string, verify: string -> Verification, users: map<int, User>)
    requires KeyedById(users)
    ensures match Identify(Some(token), verify, users)
      case Identified(Some(u)) => verify(token) == Verified(u.id) && u.status != DeactivatedStatus
      case _ => true
  {
  }

  /** The request fields the middleware reads and writes. */
  class Request {
    var authorization: Option<string>
    var queryToken: Option<string>
    var user: Option<User>

    constructor (authorization: Option<string>, queryToken: Option<string>)
      ensures this.authorization == authorization && this.queryToken == queryToken
      ensures user == None
    {
      this.authorization := authorization;
      this.queryToken := queryToken;
      user := None;
    }
  }

  /** The response status a handler may set; Express starts it at 200. */
  class Response {
    var status: int

    constructor ()
      ensures status == 200
    {
      status := 200;
    }
  }

  /** How a middleware ends: by calling `next()`, or by throwing. */
  datatype Flow = Next | Thrown(message: string)

  /** `contextUser`: extracts the token, and when there is one, verifies it,
      looks the user up and either attaches it or throws. Only `req.user`
      changes, and only when `next()` is reached with a token. */
  method ContextUser(req: Request, verify: string -> Verification, users: map<int, User>) returns (flow: Flow)
    modifies req`user
    ensures match Identify(ExtractToken(req.authorization, req.queryToken), verify, users)
      case Anonymous => flow == Next && req.user == old(req.user)
      case Identified(u) => flow == Next && req.user == u
      case Failed(m) => flow == Thrown(m) && req.user == old(req.user)
  {
    var token := ExtractToken(req.authorization, req.queryToken);
    if token.Some? {
      var decoded := verify(token.value);
      if decoded.VerifyFailed? {
        return Thrown(decoded.message);
      }
      var user := if decoded.id in users then Some(users[decoded.id]) else None;
      if user.Some? && user.value.status == DeactivatedStatus {
        return Thrown(DeactivatedMessage);
      }
      req.user := user;
    }
    flow := Next;
  }

  /** `needLogin`: without a user the response status becomes 401 and the
      handler throws "Unauthorized" instead of calling `next()`; with a
      user, `next()` is called and the response is untouched. */
  method NeedLogin(req: Request, res: Response) returns (flow: Flow)
    modifies res
    ensures req.user.None? ==> flow == Thrown(UnauthorizedMessage) && res.status == UnauthorizedStatus
    ensures req.user.Some? ==> flow == Next && res.status == old(res.status)
  {
    if req.user.None? {
      res.status := UnauthorizedStatus;
      return Thrown(UnauthorizedMessage);
    }
    flow := Next;
  }
}
