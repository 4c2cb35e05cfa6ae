/** AuthMiddleware of app/middleware/auth.py: which paths skip token
    processing, how the Authorization header is split, and what the
    middleware writes into the request state. A request is always passed
    on; only its state changes. Token verification is a parameter (None
    when it raises). */
module AuthMiddlewares {
  import opened Common

  const PublicRoutes: seq<string> := ["/health", "/docs", "/redoc", "/openapi.json", "/favicon.ico"]
  const AuthRoutes: seq<string> := ["/api/v1/auth/register", "/api/v1/auth/login", "/api/v1/auth/google", "/api/v1/auth/biometric"]

  predicate StartsWith(s: string, prefix: string) {
    |prefix| <= |s| && s[..|prefix|] == prefix
  }

  /** The `any(...)` over PUBLIC_ROUTES: the root, a public route, or a
      path that starts with one. */
  predicate IsPublicPath(path: string) {
    exists i :: 0 <= i < |PublicRoutes| && (path == "/" || path == PublicRoutes[i] || StartsWith(path, PublicRoutes[i]))
  }

  /** The `any(...)` over AUTH_ROUTES: a path that starts with one. */
  predicate IsAuthPath(path: string) {
    exists i :: 0 <= i < |AuthRoutes| && StartsWith(path, AuthRoutes[i])
  }

  /** The root is public, and the public test is a prefix test: every
      public route, and every extension of one, is public. */
  lemma PublicPaths(i: int, suffix: string)
    requires 0 <= i < |PublicRoutes|
    ensures IsPublicPath("/")
    ensures IsPublicPath(PublicRoutes[i] + suffix)
  {
    assert 0 < |PublicRoutes|;
    assert (PublicRoutes[i] + suffix)[..|PublicRoutes[i]|] == PublicRoutes[i];
  }

  /** Every auth route and every extension of one is an auth path, but the
      other routes under /api/v1/auth/ are not: the token of a request to
      /api/v1/auth/me is processed. */
  lemma AuthPathsAreListed(i: int, suffix: string)
    requires 0 <= i < |AuthRoutes|
    ensures IsAuthPath(AuthRoutes[i] + suffix)
    ensures !IsAuthPath("/api/v1/auth/me")
  {
    assert StartsWith(AuthRoutes[i] + suffix, AuthRoutes[i]) by {
      assert (AuthRoutes[i] + suffix)[..|AuthRoutes[i]|] == AuthRoutes[i];
    }
    forall j | 0 <= j < |AuthRoutes| ensures !StartsWith("/api/v1/auth/me", AuthRoutes[j]) {
      assert "/api/v1/auth/me"[13] != AuthRoutes[j][13];
    }
  }

  /** The token of an Authorization header: split on whitespace into
      exactly two parts, the first "bearer" in any case. (ASCII folding is
      exact here: no other character lower-cases into "bearer".) */
  function BearerToken(header: Option<string>): (r: Option<string>)
    ensures r.Some? <==> header.Some? && |Words(header.value)| == 2 && Lower(Words(header.value)[0]) == "bearer"
    ensures r.Some? ==>
      && r.value == Words(header.value)[1] && r.value != []
      && forall i :: 0 <= i < |r.value| ==> !IsSpace(r.value[i])
  {
    if header.None? || header.value == "" then None
    else
      var parts := Words(header.value);
      if |parts| == 2 && Lower(parts[0]) == "bearer" then Some(parts[1]) else None
  }

  /** The two usual spellings "Bearer" and "BEARER": instances of
      SchemeThenToken, which covers every casing of the scheme. */
  lemma BearerSchemeIgnoresCase(token: string)
    requires token != [] && forall i :: 0 <= i < |token| ==> !IsSpace(token[i])
    ensures BearerToken(Some("Bearer " + token)) == Some(token)
    ensures BearerToken(Some("BEARER " + token)) == Some(token)
  {
    SchemeSpellings();
    SchemesHaveNoSpace();
    assert "Bearer " + token == "Bearer" + " " + token;
    SchemeThenToken("Bearer", token);
    assert "BEARER " + token == "BEARER" + " " + token;
    SchemeThenToken("BEARER", token);
  }

  /** "Bearer" and "BEARER" lower-case to "bearer". */
  lemma SchemeSpellings()
    ensures Lower("Bearer") == "bearer" && Lower("BEARER") == "bearer"
  {
    var l := Lower("Bearer");
    assert l[0] == 'b' && l[1] == 'e' && l[2] == 'a' && l[3] == 'r' && l[4] == 'e' && l[5] == 'r';
    var u := Lower("BEARER");
    assert u[0] == 'b' && u[1] == 'e' && u[2] == 'a' && u[3] == 'r' && u[4] == 'e' && u[5] == 'r';
  }

  /** Neither "Bearer" nor "BEARER" holds whitespace. */
  lemma SchemesHaveNoSpace()
    ensures forall i :: 0 <= i < 6 ==> !IsSpace("Bearer"[i]) && !IsSpace("BEARER"[i])
  {
  }

  /** A header made of a scheme that lower-cases to "bearer", one space and
      a token gives that token. */
  lemma SchemeThenToken(scheme: string, token: string)
    requires scheme != [] && forall i :: 0 <= i < |scheme| ==> !IsSpace(scheme[i])
    requires Lower(scheme) == "bearer"
    requires token != [] && forall i :: 0 <= i < |token| ==> !IsSpace(token[i])
    ensures BearerToken(Some(scheme + " " + token)) == Some(token)
  {
    WordsOfPair(scheme, token);
  }

  lemma WordsOfPair(a: string, b: string)
    requires a != [] && forall i :: 0 <= i < |a| ==> !IsSpace(a[i])
    requires b != [] && forall i :: 0 <= i < |b| ==> !IsSpace(b[i])
    ensures Words(a + " " + b) == [a, b]
  {
    WordsAround(a, ' ', b);
  }

  /** Two words around one whitespace character split into those words. */
  lemma WordsAround(a: string, sep: char, b: string)
    requires a != [] && forall i :: 0 <= i < |a| ==> !IsSpace(a[i])
    requires IsSpace(sep)
    requires b != [] && forall i :: 0 <= i < |b| ==> !IsSpace(b[i])
    ensures Words(a + [sep] + b) == [a, b]
  {
    var s := a + [sep] + b;
    WordLengthOf(a, [sep] + b);
    assert s == a + ([sep] + b);
    WordsOfWord(s, |a|);
    assert s[..|a|] == a;
    assert s[|a|..] == [sep] + b;
    WordsOfSpaced(sep, b);
  }

  /** One whitespace character before a word gives just the word. */
  lemma WordsOfSpaced(sep: char, b: string)
    requires IsSpace(sep)
    requires b != [] && forall i :: 0 <= i < |b| ==> !IsSpace(b[i])
    ensures Words([sep] + b) == [b]
  {
    WordsOfSpace([sep] + b);
    assert ([sep] + b)[1..] == b;
    WordLengthOf(b, []);
    assert b + [] == b;
    WordsOfWord(b, |b|);
    assert b[..|b|] == b && b[|b|..] == [];
  }

  lemma WordsOfWord(s: string, n: nat)
    requires s != [] && !IsSpace(s[0]) && n == WordLength(s)
    ensures Words(s) == [s[..n]] + Words(s[n..])
  {
  }

  lemma WordsOfSpace(s: string)
    requires s != [] && IsSpace(s[0])
    ensures Words(s) == Words(s[1..])
  {
  }

  lemma {:induction false} WordLengthOf(a: string, rest: string)
    requires forall i :: 0 <= i < |a| ==> !IsSpace(a[i])
    requires rest == [] || IsSpace(rest[0])
    ensures WordLength(a + rest) == |a|
    decreases |a|
  {
    if a != [] {
      assert (a + rest)[1..] == a[1..] + rest;
      WordLengthOf(a[1..], rest);
    } else {
      assert a + rest == rest;
    }
  }

  /** The attributes set on `request.state` (an attribute set to None
      holds JNull). */
  class RequestState {
    var attrs: map<string, Json>

    constructor ()
      ensures attrs == map[]
    {
      attrs := map[];
    }
  }

  /** `payload.get(k, default)`. */
  function GetOr(payload: map<string, Json>, k: string, default: Json): Json {
    if k in payload then payload[k] else default
  }

  /** The request state after the middleware. */
  function Dispatched(attrs: map<string, Json>, path: string, authorization: Option<string>,
                      verify: string -> Option<map<string, Json>>): map<string, Json>
  {
    if IsPublicPath(path) || IsAuthPath(path) then attrs
    else match BearerToken(authorization)
      case None => attrs
      case Some(token) =>
        match verify(token)
        case None => attrs - {"user_id"}
        case Some(p) =>
          attrs["user_id" := GetOr(p, "sub", JNull)]["user_email" := GetOr(p, "email", JNull)]
               ["user_name" := GetOr(p, "name", JNull)]["user_roles" := GetOr(p, "roles", JList([]))]
  }

  /** `request.state.user_id` as get_current_user reads it: a string, or
      nothing usable. */
  function UserIdOf(attrs: map<string, Json>): Option<string> {
    if "user_id" in attrs && attrs["user_id"].JStr? then Some(attrs["user_id"].s) else None
  }

  /** What the middleware leaves for get_current_user: on a skipped path
      the state is untouched; a verified token gives its sub claim, the
      roles defaulting to []; a failed verification leaves no user_id. */
  lemma DispatchedUserId(attrs: map<string, Json>, path: string, authorization: Option<string>,
                         verify: string -> Option<map<string, Json>>)
    ensures IsPublicPath(path) || IsAuthPath(path) || BearerToken(authorization).None? ==>
      Dispatched(attrs, path, authorization, verify) == attrs
    ensures !IsPublicPath(path) && !IsAuthPath(path) && BearerToken(authorization).Some? ==>
      var p := verify(BearerToken(authorization).value);
      var after := Dispatched(attrs, path, authorization, verify);
      && (p.None? ==> UserIdOf(after) == None && "user_id" !in after)
      && (p.Some? ==>
            && after["user_id"] == GetOr(p.value, "sub", JNull)
            && ("sub" in p.value && p.value["sub"].JStr? ==> UserIdOf(after) == Some(p.value["sub"].s))
            && ("roles" !in p.value ==> after["user_roles"] == JList([])))
  {
  }

  /** AuthMiddleware.dispatch, as far as the request state goes. */
  method Dispatch(req: RequestState, path: string, authorization: Option<string>,
                  verify: string -> Option<map<string, Json>>)
    modifies req
    ensures req.attrs == Dispatched(old(req.attrs), path, authorization, verify)
  {
    if IsPublicPath(path) || IsAuthPath(path) {
      return;
    }
    if authorization.Some? && authorization.value != "" {
      var token := BearerToken(authorization);
      if token.Some? {
        var payload := verify(token.value);
        if payload.Some? {
          req.attrs := req.attrs["user_id" := GetOr(payload.value, "sub", JNull)];
          req.attrs := req.attrs["user_email" := GetOr(payload.value, "email", JNull)];
          req.attrs := req.attrs["user_name" := GetOr(payload.value, "name", JNull)];
          req.attrs := req.attrs["user_roles" := GetOr(payload.value, "roles", JList([]))];
        } else if "user_id" in req.attrs {
          req.attrs := req.attrs - {"user_id"};
        }
      }
    }
  }
}
