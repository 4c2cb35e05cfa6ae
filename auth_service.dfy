/** AuthService of app/services/auth_service.py: registration and the three
    ways of authenticating, all routed through the email-or-phone lookup.
    Password hashing, password verification and SHA-256 are parameters. */
module AuthServices {
  import opened Common
  import opened Models
  import opened Tables
  import opened Stores
  import opened AuthSchemas

  /** The users row `id` matches the lookup get_user_by_email_or_phone
      makes: by email whenever the email is truthy, by phone only when it
      is not. */
  predicate MatchesLookup(u: User, email: Option<string>, phone: Option<string>) {
    if Truthy(email) then u.email == email
    else Truthy(phone) && u.phone == phone
  }

  /** The unique columns make the lookup's answer unique. */
  lemma LookupIsUnique(users: map<Id, User>, email: Option<string>, phone: Option<string>, a: Id, b: Id)
    requires UniqueUserKeys(users)
    requires a in users && b in users && MatchesLookup(users[a], email, phone) && MatchesLookup(users[b], email, phone)
    ensures a == b
  {
  }

  /** create_user's auth method: email when an email is given, else phone. */
  function RegisteredAuthMethod(email: Option<string>): (a: AuthMethod)
    ensures a == EmailAuth <==> Truthy(email)
    ensures a != EmailAuth ==> a == PhoneAuth
  {
    if Truthy(email) then EmailAuth else PhoneAuth
  }

  /** Python truthiness of an optional stored hash. */
  predicate HasHash(h: Option<string>) {
    h.Some? && h.value != ""
  }

  class AuthService {
    const store: Store

    constructor (store: Store)
      ensures this.store == store
    {
      this.store := store;
    }

    /** create_user: the password (always present after validation) is
        hashed; the insert fails on a taken email or phone. */
    method CreateUser(data: RegisterRequest, id: Id, now: Time, hash: string -> string) returns (r: Result<Id>)
      requires id !in store.users
      modifies store
      ensures var u := NewUser(data.name, data.email, data.phone, if data.password != "" then Some(hash(data.password)) else None,
                               Some(RegisteredAuthMethod(data.email)), now);
        && (r.Ok? <==> !((u.email.Some? && EmailTaken(old(store.users), u.email.value, None))
                         || (u.phone.Some? && PhoneTaken(old(store.users), u.phone.value, None))))
        && (r.Ok? ==> r.value == id && store.State() == old(store.State()).(users := old(store.users)[id := u]))
        && (r.Err? ==> r.error == IntegrityError && store.State() == old(store.State()))
    {
      var passwordHash := if data.password != "" then Some(hash(data.password)) else None;
      var u := NewUser(data.name, data.email, data.phone, passwordHash, Some(RegisteredAuthMethod(data.email)), now);
      var ok := store.InsertUser(id, u);
      if !ok {
        return Err(IntegrityError);
      }
      r := Ok(id);
    }

    /** get_user_by_email_or_phone: the first matching row, if any. */
    method GetUserByEmailOrPhone(email: Option<string>, phone: Option<string>) returns (r: Option<Id>)
      ensures r.Some? ==> r.value in store.users && MatchesLookup(store.users[r.value], email, phone)
      ensures r.None? ==> forall id :: id in store.users ==> !MatchesLookup(store.users[id], email, phone)
      ensures !Truthy(email) && !Truthy(phone) ==> r == None
    {
      if exists id :: id in store.users && MatchesLookup(store.users[id], email, phone) {
        var id :| id in store.users && MatchesLookup(store.users[id], email, phone);
        r := Some(id);
      } else {
        r := None;
      }
    }

    /** authenticate_user: the looked-up user, when it has a password hash
        that `verify` accepts for `password`. */
    method AuthenticateUser(email: Option<string>, phone: Option<string>, password: string,
                            verify: (string, string) -> bool) returns (r: Option<Id>)
      ensures r.Some? ==>
        && r.value in store.users && MatchesLookup(store.users[r.value], email, phone)
        && HasHash(store.users[r.value].passwordHash) && verify(password, store.users[r.value].passwordHash.value)
      ensures r.None? && UniqueUserKeys(store.users) ==>
        forall id :: id in store.users && MatchesLookup(store.users[id], email, phone) ==>
          !(HasHash(store.users[id].passwordHash) && verify(password, store.users[id].passwordHash.value))
    {
      var found := GetUserByEmailOrPhone(email, phone);
      if found.None? {
        return None;
      }
      var u := store.users[found.value];
      if !HasHash(u.passwordHash) || !verify(password, u.passwordHash.value) {
        forall id | id in store.users && MatchesLookup(store.users[id], email, phone) && UniqueUserKeys(store.users)
          ensures !(HasHash(store.users[id].passwordHash) && verify(password, store.users[id].passwordHash.value))
        {
          LookupIsUnique(store.users, email, phone, id, found.value);
        }
        return None;
      }
      r := found;
    }

    /** authenticate_google_user: not implemented; it never authenticates. */
    function AuthenticateGoogleUser(googleToken: string): (r: Option<Id>)
      ensures r == None
    {
      None
    }

    /** authenticate_biometric_user: an identifier with an '@' is looked up
        as an email, any other as a phone; the user passes when its stored
        biometric hash equals the hex SHA-256 of the data. */
    method AuthenticateBiometricUser(data: string, identifier: string, sha256Hex: string -> string) returns (r: Option<Id>)
      ensures var email := if '@' in identifier then Some(identifier) else None;
        var phone := if '@' !in identifier then Some(identifier) else None;
        && (r.Some? ==>
              && r.value in store.users && MatchesLookup(store.users[r.value], email, phone)
              && HasHash(store.users[r.value].biometricHash)
              && store.users[r.value].biometricHash.value == sha256Hex(data))
        && (r.None? && UniqueUserKeys(store.users) ==> forall id :: id in store.users && MatchesLookup(store.users[id], email, phone) ==>
              !(HasHash(store.users[id].biometricHash) && store.users[id].biometricHash.value == sha256Hex(data)))
    {
      var email := if '@' in identifier then Some(identifier) else None;
      var phone := if '@' !in identifier then Some(identifier) else None;
      var found := GetUserByEmailOrPhone(email, phone);
      if found.None? {
        return None;
      }
      var u := store.users[found.value];
      if !HasHash(u.biometricHash) || u.biometricHash.value != sha256Hex(data) {
        forall id | id in store.users && MatchesLookup(store.users[id], email, phone) && UniqueUserKeys(store.users)
          ensures !(HasHash(store.users[id].biometricHash) && store.users[id].biometricHash.value == sha256Hex(data))
        {
          LookupIsUnique(store.users, email, phone, id, found.value);
        }
        return None;
      }
      r := found;
    }
  }

  /** An identifier with an '@' is never looked up by phone, and one
      without is never looked up by email. */
  lemma BiometricRouting(identifier: string, u: User)
    ensures '@' in identifier ==>
      (MatchesLookup(u, if '@' in identifier then Some(identifier) else None, if '@' !in identifier then Some(identifier) else None)
       <==> u.email == Some(identifier))
    ensures '@' !in identifier ==>
      (MatchesLookup(u, if '@' in identifier then Some(identifier) else None, if '@' !in identifier then Some(identifier) else None)
       <==> identifier != "" && u.phone == Some(identifier))
  {
  }
}
