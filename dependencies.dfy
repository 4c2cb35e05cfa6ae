/** The request dependencies of app/core/dependencies.py: the read-through
    lookup of the authenticated user (shared cache first, then the store,
    filling the cache on a miss), the active-user check, and the optional
    lookup that never fails. Token verification is a parameter. Before
    get_current_user's body runs, FastAPI resolves its `HTTPBearer()`
    dependency, which reads the Authorization header itself. */
module Dependencies {
  import opened Common
  import opened Models
  import opened Tables
  import opened Stores
  import opened SharedCaches
  import opened UserSchemas
  import opened AuthMiddlewares

  /** The user object get_current_user hands on: rebuilt from the cached
      dictionary, or the row loaded from the store. */
  datatype CurrentUser = FromCache(obj: UserObject) | FromStore(id: Id, row: User)

  /** `current_user.is_active`, read as Python reads it. */
  predicate IsActive(c: CurrentUser) {
    match c
    case FromCache(o) => JsonTruthy(Attr(o, "is_active"))
    case FromStore(_, u) => u.isActive == Some(true)
  }

  /** The outcome of get_current_user for the request's user_id (None when
      the middleware left it unset or None), with the cache and the users
      table as they are; and the cache afterwards. */
  function Lookup(userId: Option<string>, entries: map<string, map<string, Json>>, users: map<Id, User>)
    : (r: (Result<CurrentUser>, map<string, map<string, Json>>))
    ensures userId.None? ==> r == (Err(Unauthorized), entries)
    ensures userId.Some? && userId.value in entries ==>
      r.1 == entries
      && (r.0.Ok? <==> UserFromDict(entries[userId.value]).Some?)
      && (r.0.Ok? ==> r.0.value == FromCache(UserFromDict(entries[userId.value]).value))
    ensures userId.Some? && userId.value !in entries ==>
      (r.0.Ok? <==> userId.value in users)
      && (r.0.Ok? ==> r.0.value == FromStore(userId.value, users[userId.value])
                      && r.1 == entries[userId.value := UserToDict(userId.value, users[userId.value])])
      && (r.0.Err? ==> r.1 == entries)
    ensures r.0.Err? ==> r.0.error == Unauthorized
  {
    if userId.None? then (Err(Unauthorized), entries)
    else
      var key := userId.value;
      if key in entries then
        match UserFromDict(entries[key])
        case Some(o) => (Ok(FromCache(o)), entries)
        case None => (Err(Unauthorized), entries)
      else if key in users then
        (Ok(FromStore(key, users[key])), entries[key := UserToDict(key, users[key])])
      else (Err(Unauthorized), entries)
  }

  /** A miss that finds the user makes the next lookup a hit, and the
      rebuilt user carries the row's id, name, email, phone, is_active and
      auth_method. */
  lemma MissThenHit(key: Id, entries: map<string, map<string, Json>>, users: map<Id, User>)
    requires key !in entries && key in users
    ensures var after := Lookup(Some(key), entries, users).1;
      var second := Lookup(Some(key), after, users).0;
      && second.Ok? && second.value.FromCache?
      && Attr(second.value.obj, "id") == JStr(key)
      && Attr(second.value.obj, "name") == JStr(users[key].name)
      && Attr(second.value.obj, "email") == OptStr(users[key].email)
      && Attr(second.value.obj, "phone") == OptStr(users[key].phone)
      && Attr(second.value.obj, "auth_method") == JStr(AuthMethodName(users[key].authMethod))
  {
    CacheRoundTrip(key, users[key]);
  }

  /** The active check gives the same answer on the row and on the user
      rebuilt from its cached dictionary. */
  lemma ActiveSurvivesCache(key: Id, u: User)
    ensures UserFromDict(UserToDict(key, u)).Some?
    ensures IsActive(FromCache(UserFromDict(UserToDict(key, u)).value)) <==> IsActive(FromStore(key, u))
  {
    CacheRoundTrip(key, u);
  }

  /** A hit never looks at the store: a user deleted from the store (its
      cache entry untouched) is still served. */
  lemma HitIgnoresStore(key: Id, entries: map<string, map<string, Json>>, users1: map<Id, User>, users2: map<Id, User>)
    requires key in entries
    ensures Lookup(Some(key), entries, users1) == Lookup(Some(key), entries, users2)
  {
  }

  /** get_current_active_user: an inactive user is a bad request, an active
      one passes unchanged. */
  function ActiveUser(r: Result<CurrentUser>): (a: Result<CurrentUser>)
    ensures r.Err? ==> a == r
    ensures r.Ok? && IsActive(r.value) ==> a == r
    ensures r.Ok? && !IsActive(r.value) ==> a == Err(BadRequest)
  {
    if r.Err? then r else if IsActive(r.value) then r else Err(BadRequest)
  }

  /** get_optional_current_user: the Bearer token (None when the request
      carries none), verified by `verify` (None when verification raises);
      its `sub`, when a string, looked up in the store. Every failure is
      None. */
  function OptionalCurrentUser(token: Option<string>, verify: string -> Option<map<string, Json>>, users: map<Id, User>)
    : (r: Option<User>)
    ensures r.Some? <==>
      && token.Some? && verify(token.value).Some?
      && "sub" in verify(token.value).value && verify(token.value).value["sub"].JStr?
      && verify(token.value).value["sub"].s in users
    ensures r.Some? ==> r.value == users[verify(token.value).value["sub"].s]
  {
    if token.None? then None
    else match verify(token.value)
      case None => None
      case Some(payload) =>
        if "sub" !in payload || !payload["sub"].JStr? then None
        else if payload["sub"].s in users then Some(users[payload["sub"].s])
        else None
  }

  /** `get_authorization_scheme_param`: the header cut at its first space
      by `str.partition(" ")`; both parts are "" for a missing or empty
      header, and the second is "" when the header has no space. */
  function SchemeParam(authorization: Option<string>): (r: (string, string))
    ensures !Truthy(authorization) ==> r == ("", "")
    ensures Truthy(authorization) ==> r.0 == BeforeFirst(authorization.value, ' ')
    ensures Truthy(authorization) && ' ' in authorization.value ==> authorization.value == r.0 + " " + r.1
    ensures Truthy(authorization) && ' ' !in authorization.value ==> r == (authorization.value, "")
  {
    if !Truthy(authorization) then ("", "")
    else
      var a := authorization.value;
      var scheme := BeforeFirst(a, ' ');
      if |scheme| < |a| then
        assert a == scheme + " " + a[|scheme| + 1..] by {
          assert a[..|scheme|] == scheme;
          assert a == a[..|scheme|] + [a[|scheme|]] + a[|scheme| + 1..];
        }
        (scheme, a[|scheme| + 1..])
      else
        assert scheme == a;
        (scheme, "")
  }

  /** `HTTPBearer()` with auto_error left True: the credentials after the
      first space, or the refusal `refused` when the header is missing or
      empty, has no space, has an empty part, or names a scheme other than
      "bearer" in some case. */
  function BearerCredentials(authorization: Option<string>, refused: Error): (r: Result<string>)
    ensures r.Ok? <==>
      && Truthy(authorization) && ' ' in authorization.value
      && Lower(BeforeFirst(authorization.value, ' ')) == "bearer"
      && authorization.value != BeforeFirst(authorization.value, ' ') + " "
    ensures r.Ok? ==> r.value != "" && authorization.value == BeforeFirst(authorization.value, ' ') + " " + r.value
    ensures r.Err? ==> r.error == refused
  {
    var (scheme, credentials) := SchemeParam(authorization);
    if !Truthy(authorization) || scheme == "" || credentials == "" then Err(refused)
    else if Lower(scheme) != "bearer" then Err(refused)
    else Ok(credentials)
  }

  /** A scheme without spaces that lower-cases to "bearer", one space and a
      non-empty rest pass the gate, the rest being the credentials. */
  lemma BearerGateAccepts(scheme: string, credentials: string, refused: Error)
    requires forall i :: 0 <= i < |scheme| ==> scheme[i] != ' '
    requires Lower(scheme) == "bearer" && credentials != ""
    ensures BearerCredentials(Some(scheme + " " + credentials), refused) == Ok(credentials)
  {
    assert ' ' !in scheme by {
      forall i | 0 <= i < |scheme| ensures scheme[i] != ' ' { }
    }
    var a := scheme + " " + credentials;
    assert a == scheme + [' '] + credentials;
    BeforeFirstOfJoin(scheme, ' ', credentials);
    assert a[|scheme|] == ' ';
    var p := SchemeParam(Some(a));
    assert p.0 == scheme;
    assert p.1 == credentials by {
      assert a == p.0 + " " + p.1;
      assert p.1 == a[|scheme| + 1..];
    }
  }

  /** The two readers of the Authorization header disagree on a tab: the
      middleware's `split()` takes "Bearer<TAB>token" for a Bearer token
      (and so sets user_id), while `partition(" ")` finds no space and the
      gate refuses the request before get_current_user's body runs. */
  lemma TabSeparatedToken(token: string, refused: Error)
    requires token != [] && forall i :: 0 <= i < |token| ==> !IsSpace(token[i])
    ensures BearerToken(Some("Bearer\t" + token)) == Some(token)
    ensures BearerCredentials(Some("Bearer\t" + token), refused) == Err(refused)
  {
    SchemeSpellings();
    SchemesHaveNoSpace();
    assert "Bearer\t" + token == "Bearer" + ['\t'] + token;
    WordsAround("Bearer", '\t', token);
    assert ' ' !in "Bearer\t" + token by {
      forall i | 0 <= i < |"Bearer\t" + token| ensures ("Bearer\t" + token)[i] != ' ' {
        if i >= 7 {
          assert ("Bearer\t" + token)[i] == token[i - 7];
        }
      }
    }
  }

  class CurrentUserResolver {
    const store: Store
    const cache: SharedCache

    constructor (store: Store, cache: SharedCache)
      ensures this.store == store && this.cache == cache
    {
      this.store := store;
      this.cache := cache;
    }

    /** get_current_user, behind its `HTTPBearer()` dependency: `authorization`
      is the request's Authorization header, `userId` what the middleware
      left in `request.state.user_id`, and `refused` the status FastAPI
      gives a refused bearer header. */
    method GetCurrentUser(authorization: Option<string>, userId: Option<string>, refused: Error)
      returns (r: Result<CurrentUser>)
      modifies cache
      ensures BearerCredentials(authorization, refused).Err? ==>
        r == Err(refused) && cache.entries == old(cache.entries)
      ensures BearerCredentials(authorization, refused).Ok? ==>
        (r, cache.entries) == Lookup(userId, old(cache.entries), store.users)
    {
      var credentials := BearerCredentials(authorization, refused);
      if credentials.Err? {
        return Err(refused);
      }
      if userId.None? {
        return Err(Unauthorized);
      }
      var key := userId.value;
      var cached := cache.Get(key);
      if cached.Some? {
        var o := UserFromDict(cached.value);
        if o.None? {
          return Err(Unauthorized);
        }
        return Ok(FromCache(o.value));
      }
      if key !in store.users {
        return Err(Unauthorized);
      }
      var row := store.users[key];
      cache.Set(key, UserToDict(key, row));
      r := Ok(FromStore(key, row));
    }
  }
}
