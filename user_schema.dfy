/** The user request schemas of app/schemas/user.py and the two converters
    between a users row and the dictionary kept in the shared cache:
    `user_to_dict` and `user_from_dict`. EmailStr is a foreign package's
    validator that both checks and rewrites the address; it is the
    parameter `normEmail`, None for a rejected address and otherwise the
    normalised address that replaces the field's value. */
module UserSchemas {
  import opened Common
  import opened Models
  import opened Fields

  /** UserBase's constraints: name of 1 to 255 characters, an optional
      email address and an optional phone number. */
  predicate UserBaseValid(name: string, email: Option<string>, phone: Option<string>,
                          normEmail: string -> Option<string>) {
    LengthBetween(name, 1, 255)
    && (email.Some? ==> normEmail(email.value).Some?)
    && (phone.Some? ==> IsPhoneNumber(phone.value))
  }

  datatype UserCreate = UserCreate(
    name: string, email: Option<string>, phone: Option<string>, password: Option<string>,
    authMethod: AuthMethod, googleId: Option<string>, biometricHash: Option<string>)

  /** Validating a UserCreate body; `authMethod` is the text of the
      auth_method field when given. The validated email is the normalised
      address. */
  function ValidateUserCreate(name: string, email: Option<string>, phone: Option<string>, password: Option<string>,
                              authMethod: Option<string>, googleId: Option<string>, biometricHash: Option<string>,
                              normEmail: string -> Option<string>): (r: Result<UserCreate>)
    ensures r.Ok? <==>
      UserBaseValid(name, email, phone, normEmail) && (password.Some? ==> |password.value| >= 8)
      && (authMethod.Some? ==> authMethod.value in {"email", "phone", "google", "biometric"})
    ensures r.Ok? ==>
      && r.value.name == name && r.value.phone == phone
      && r.value.email == (if email.Some? then Some(normEmail(email.value).value) else None)
      && r.value.password == password && r.value.googleId == googleId && r.value.biometricHash == biometricHash
      && AuthMethodName(r.value.authMethod) == (if authMethod.Some? then authMethod.value else "email")
    ensures r.Err? ==> r.error == Unprocessable
  {
    if !UserBaseValid(name, email, phone, normEmail) || (password.Some? && |password.value| < 8) then Err(Unprocessable)
    else
      var e := if email.Some? then normEmail(email.value) else None;
      if authMethod.None? then Ok(UserCreate(name, e, phone, password, EmailAuth, googleId, biometricHash))
      else match ParseAuthMethod(authMethod.value)
        case None => Err(Unprocessable)
        case Some(a) => Ok(UserCreate(name, e, phone, password, a, googleId, biometricHash))
  }

  /** A validated name and phone fit the users.name and users.phone columns. */
  lemma UserBaseFitsColumns(name: string, email: Option<string>, phone: Option<string>,
                             normEmail: string -> Option<string>)
    requires UserBaseValid(name, email, phone, normEmail)
    ensures 0 < |name| <= NameWidth
    ensures phone.Some? ==> |phone.value| <= PhoneWidth
  {
    if phone.Some? {
      PhoneFitsColumn(phone.value);
    }
  }

  /** UserUpdate: every field optional; an explicit null passes. */
  datatype UserUpdate = UserUpdate(name: Patch<string>, email: Patch<string>, phone: Patch<string>, isActive: Patch<bool>)

  predicate UserUpdateValid(u: UserUpdate, normEmail: string -> Option<string>) {
    (u.name.SetTo? ==> LengthBetween(u.name.value, 1, 255))
    && (u.email.SetTo? ==> normEmail(u.email.value).Some?)
    && (u.phone.SetTo? ==> IsPhoneNumber(u.phone.value))
  }

  /** Validating a UserUpdate body: it passes exactly under the field
      constraints, and a set email is replaced by its normalised address;
      which fields are set, and every other value, stay as sent. */
  function ValidateUserUpdate(u: UserUpdate, normEmail: string -> Option<string>): (r: Result<UserUpdate>)
    ensures r.Ok? <==> UserUpdateValid(u, normEmail)
    ensures r.Ok? ==>
      && r.value.name == u.name && r.value.phone == u.phone && r.value.isActive == u.isActive
      && r.value.email == (if u.email.SetTo? then SetTo(normEmail(u.email.value).value) else u.email)
    ensures r.Err? ==> r.error == Unprocessable
  {
    if !UserUpdateValid(u, normEmail) then Err(Unprocessable)
    else if u.email.SetTo? then Ok(u.(email := SetTo(normEmail(u.email.value).value)))
    else Ok(u)
  }

  /** One `(field, value)` item of the dump; None is an explicit null. */
  datatype UserField =
    | NameField(name: Option<string>)
    | EmailField(email: Option<string>)
    | PhoneField(phone: Option<string>)
    | IsActiveField(isActive: Option<bool>)

  /** `user_update.dict(exclude_unset=True).items()`, in declaration order. */
  function UserUpdateItems(u: UserUpdate): (items: seq<UserField>)
    ensures |items| == (if u.name.Unset? then 0 else 1) + (if u.email.Unset? then 0 else 1)
                       + (if u.phone.Unset? then 0 else 1) + (if u.isActive.Unset? then 0 else 1)
    ensures forall i :: 0 <= i < |items| ==>
      (items[i].NameField? ==> !u.name.Unset? && items[i].name == PatchValue(u.name))
      && (items[i].EmailField? ==> !u.email.Unset? && items[i].email == PatchValue(u.email))
      && (items[i].PhoneField? ==> !u.phone.Unset? && items[i].phone == PatchValue(u.phone))
      && (items[i].IsActiveField? ==> !u.isActive.Unset? && items[i].isActive == PatchValue(u.isActive))
  {
    (if u.name.Unset? then [] else [NameField(PatchValue(u.name))])
    + (if u.email.Unset? then [] else [EmailField(PatchValue(u.email))])
    + (if u.phone.Unset? then [] else [PhoneField(PatchValue(u.phone))])
    + (if u.isActive.Unset? then [] else [IsActiveField(PatchValue(u.isActive))])
  }

  // ------------------------------------------------------ cache round trip

  function OptBool(o: Option<bool>): Json {
    if o.Some? then JBool(o.value) else JNull
  }

  const UserDictKeys: set<string> := {"id", "name", "email", "phone", "is_active", "auth_method"}

  /** `user_to_dict` of the users row `u` with key `id`, as the cache keeps
      it: auth_method, a string-valued enumeration, is held as its value. */
  function UserToDict(id: Id, u: User): (d: map<string, Json>)
    ensures d.Keys == UserDictKeys
    ensures d["id"] == JStr(id) && d["name"] == JStr(u.name)
    ensures d["email"] == OptStr(u.email) && d["phone"] == OptStr(u.phone)
    ensures d["is_active"] == OptBool(u.isActive)
    ensures d["auth_method"] == JStr(AuthMethodName(u.authMethod))
  {
    map["id" := JStr(id), "name" := JStr(u.name), "email" := OptStr(u.email), "phone" := OptStr(u.phone),
        "is_active" := OptBool(u.isActive), "auth_method" := JStr(AuthMethodName(u.authMethod))]
  }

  /** The mapped column attributes of User. */
  const UserColumns: set<string> :=
    {"id", "name", "email", "phone", "password_hash", "auth_method", "google_id", "biometric_hash",
     "is_active", "created_at", "updated_at", "sync_status"}

  /** The collection relationships of User. */
  const UserRelationships: set<string> := {"user_budgets", "transactions", "recurring_transactions"}

  /** A transient User instance, built from keyword arguments and never
      flushed: the attributes it was given. */
  datatype UserObject = UserObject(attrs: map<string, Json>)

  /** Reading an attribute of a transient instance: what it was given, or
      None (column defaults apply only on flush). */
  function Attr(o: UserObject, k: string): Json {
    if k in o.attrs then o.attrs[k] else JNull
  }

  /** The keyword argument `k = v` is one the declarative constructor
      accepts: any value for a column (no type check happens before a
      flush), only an empty list for a collection relationship. */
  predicate AcceptedArgument(k: string, v: Json) {
    k in UserColumns || (k in UserRelationships && v == JList([]))
  }

  /** `user_from_dict`: `User(**d)`, or None when the constructor raises. */
  function UserFromDict(d: map<string, Json>): (r: Option<UserObject>)
    ensures r.Some? <==> forall k :: k in d ==> AcceptedArgument(k, d[k])
    ensures r.Some? ==> forall k :: k in UserColumns && k in d ==> Attr(r.value, k) == d[k]
  {
    if forall k :: k in d ==> AcceptedArgument(k, d[k]) then Some(UserObject(d)) else None
  }

  /** The cache round trip: rebuilding a user from `user_to_dict` always
      succeeds and gives back id, name, email, phone, is_active and
      auth_method; every other attribute (the password hash, the
      timestamps, ...) reads None on the rebuilt instance. */
  lemma CacheRoundTrip(id: Id, u: User)
    ensures UserFromDict(UserToDict(id, u)).Some?
    ensures var o := UserFromDict(UserToDict(id, u)).value;
      && Attr(o, "id") == JStr(id) && Attr(o, "name") == JStr(u.name)
      && Attr(o, "email") == OptStr(u.email) && Attr(o, "phone") == OptStr(u.phone)
      && Attr(o, "is_active") == OptBool(u.isActive)
      && Attr(o, "auth_method") == JStr(AuthMethodName(u.authMethod))
      && forall k :: k !in UserDictKeys ==> Attr(o, k) == JNull
  {
    var d := UserToDict(id, u);
    assert forall k :: k in d ==> AcceptedArgument(k, d[k]) by {
      forall k | k in d ensures AcceptedArgument(k, d[k]) {
        assert k in UserDictKeys;
      }
    }
  }

  /** The dictionary holds enough to recover each of its six fields: two
      users agreeing on `user_to_dict` agree on all of them. */
  lemma UserToDictInjective(id1: Id, u1: User, id2: Id, u2: User)
    requires UserToDict(id1, u1) == UserToDict(id2, u2)
    ensures id1 == id2 && u1.name == u2.name && u1.email == u2.email && u1.phone == u2.phone
    ensures u1.isActive == u2.isActive && u1.authMethod == u2.authMethod
  {
    var d1 := UserToDict(id1, u1);
    assert d1["id"] == UserToDict(id2, u2)["id"];
    assert d1["email"] == UserToDict(id2, u2)["email"];
    assert d1["phone"] == UserToDict(id2, u2)["phone"];
    assert d1["is_active"] == UserToDict(id2, u2)["is_active"];
    assert ParseAuthMethod(AuthMethodName(u1.authMethod)) == Some(u1.authMethod) by { EnumNamesRoundTrip(); }
    assert ParseAuthMethod(AuthMethodName(u2.authMethod)) == Some(u2.authMethod) by { EnumNamesRoundTrip(); }
  }
}
