/** UserService of app/services/user_service.py: lookup by id, the patch
    update with its write to the shared cache, the two filtered listings
    with paging, and the hard delete. */
module UserServices {
  import opened Common
  import opened Models
  import opened Tables
  import opened AdminGuard
  import opened Stores
  import opened SharedCaches
  import opened UserSchemas

  /** A unique column of `u` (email, phone or google_id) holds a value
      that another user than `id` already has. */
  predicate KeyClash(users: map<Id, User>, id: Id, u: User) {
    (u.email.Some? && EmailTaken(users, u.email.value, Some(id)))
    || (u.phone.Some? && PhoneTaken(users, u.phone.value, Some(id)))
    || (u.googleId.Some? && GoogleIdTaken(users, u.googleId.value, Some(id)))
  }

  /** A row written back without a clash keeps the unique columns unique. */
  lemma NoClashKeepsUniqueKeys(users: map<Id, User>, id: Id, u: User)
    requires UniqueUserKeys(users) && id in users && !KeyClash(users, id, u)
    ensures UniqueUserKeys(users[id := u])
  {
    var r := users[id := u];
    forall u1, u2 | u1 in r && u2 in r && u1 != u2
      ensures (r[u1].email.Some? ==> r[u1].email != r[u2].email)
      ensures (r[u1].phone.Some? ==> r[u1].phone != r[u2].phone)
      ensures (r[u1].googleId.Some? ==> r[u1].googleId != r[u2].googleId)
    {
      if u1 == id {
        assert !(u.email.Some? && EmailTaken(users, u.email.value, Some(id)));
        assert !(u.phone.Some? && PhoneTaken(users, u.phone.value, Some(id)));
        assert !(u.googleId.Some? && GoogleIdTaken(users, u.googleId.value, Some(id)));
      } else if u2 == id {
        assert !(u.email.Some? && EmailTaken(users, u.email.value, Some(id)));
        assert !(u.phone.Some? && PhoneTaken(users, u.phone.value, Some(id)));
        assert !(u.googleId.Some? && GoogleIdTaken(users, u.googleId.value, Some(id)));
      }
    }
  }

  // ---------------------------------------------------------- update_user

  /** The users row while the patch is applied, and whether the NOT NULL
      name column was assigned None. */
  datatype UserDraft = UserDraft(row: User, nulled: bool)

  /** `setattr(user, field, value)` for one item of the dump: email, phone
      and is_active are nullable, name is not. */
  function SetUserField(d: UserDraft, f: UserField): UserDraft {
    match f
    case NameField(v) => if v.Some? then d.(row := d.row.(name := v.value)) else d.(nulled := true)
    case EmailField(v) => d.(row := d.row.(email := v))
    case PhoneField(v) => d.(row := d.row.(phone := v))
    case IsActiveField(v) => d.(row := d.row.(isActive := v))
  }

  function SetUserFields(d: UserDraft, items: seq<UserField>): UserDraft
    decreases |items|
  {
    if items == [] then d else SetUserFields(SetUserField(d, items[0]), items[1..])
  }

  lemma {:induction false} SetUserFieldsAppend(d: UserDraft, xs: seq<UserField>, ys: seq<UserField>)
    ensures SetUserFields(d, xs + ys) == SetUserFields(SetUserFields(d, xs), ys)
    decreases |xs|
  {
    if xs != [] {
      assert (xs + ys)[1..] == xs[1..] + ys;
      SetUserFieldsAppend(SetUserField(d, xs[0]), xs[1..], ys);
    } else {
      assert xs + ys == ys;
    }
  }

  /** The row update_user commits, field by field: a field the patch sets
      takes its value (None included, except for name, whose null fails
      the commit), the others keep theirs, updated_at becomes `now`. */
  function PatchedUser(u: User, p: UserUpdate, now: Time): Result<User> {
    if p.name.SetNull? then Err(IntegrityError)
    else Ok(u.(name := if p.name.SetTo? then p.name.value else u.name,
               email := if p.email.Unset? then u.email else PatchValue(p.email),
               phone := if p.phone.Unset? then u.phone else PatchValue(p.phone),
               isActive := if p.isActive.Unset? then u.isActive else PatchValue(p.isActive),
               updatedAt := now))
  }

  function CommitUser(d: UserDraft, now: Time): Result<User> {
    if d.nulled then Err(IntegrityError) else Ok(d.row.(updatedAt := now))
  }

  /** The setattr loop over the dump commits exactly the field-by-field
      patch. */
  lemma SetUserFieldsIsPatch(u: User, p: UserUpdate, now: Time)
    ensures CommitUser(SetUserFields(UserDraft(u, false), UserUpdateItems(p)), now) == PatchedUser(u, p, now)
  {
    var d0 := UserDraft(u, false);
    var n := if p.name.Unset? then [] else [NameField(PatchValue(p.name))];
    var e := if p.email.Unset? then [] else [EmailField(PatchValue(p.email))];
    var ph := if p.phone.Unset? then [] else [PhoneField(PatchValue(p.phone))];
    var a := if p.isActive.Unset? then [] else [IsActiveField(PatchValue(p.isActive))];
    assert UserUpdateItems(p) == n + (e + (ph + a));
    SetUserFieldsAppend(d0, n, e + (ph + a));
    var d1 := SetUserFields(d0, n);
    SetUserFieldsAppend(d1, e, ph + a);
    var d2 := SetUserFields(d1, e);
    SetUserFieldsAppend(d2, ph, a);
  }

  /** A patch touches only its own fields and updated_at. */
  lemma PatchedUserTouchesOnlyItsFields(u: User, p: UserUpdate, now: Time)
    requires PatchedUser(u, p, now).Ok?
    ensures var nu := PatchedUser(u, p, now).value;
      && nu.passwordHash == u.passwordHash && nu.authMethod == u.authMethod && nu.googleId == u.googleId
      && nu.biometricHash == u.biometricHash && nu.createdAt == u.createdAt && nu.syncStatus == u.syncStatus
      && nu.updatedAt == now
      && (p.name.Unset? ==> nu.name == u.name) && (p.email.Unset? ==> nu.email == u.email)
      && (p.phone.Unset? ==> nu.phone == u.phone) && (p.isActive.Unset? ==> nu.isActive == u.isActive)
  {
  }

  // ------------------------------------------------------------- filters

  predicate IsActiveUser(u: User) {
    u.isActive == Some(true)
  }

  /** `col ILIKE '%q%'` on a nullable column: NULL never matches. */
  predicate NullableMatches(col: Option<string>, q: string) {
    col.Some? && ContainsIgnoreCase(col.value, q)
  }

  /** The rows list_users counts: active users, and with a truthy search
      term those whose name or email contains it. */
  function ListedUsers(users: map<Id, User>, search: Option<string>): set<Id> {
    set id | id in users && IsActiveUser(users[id])
      && (Truthy(search) ==> ContainsIgnoreCase(users[id].name, search.value) || NullableMatches(users[id].email, search.value))
  }

  /** The rows search_users counts: active users whose name, email or
      phone contains the query; the query is applied even when empty. */
  function SearchedUsers(users: map<Id, User>, query: string): set<Id> {
    set id | id in users && IsActiveUser(users[id])
      && (ContainsIgnoreCase(users[id].name, query) || NullableMatches(users[id].email, query)
          || NullableMatches(users[id].phone, query))
  }

  /** Every string contains the empty one. */
  lemma ContainsEmpty(s: string)
    ensures ContainsIgnoreCase(s, "")
  {
    assert OccursAt(Lower(s), Lower(""), 0);
  }

  /** With an empty query search_users lists every active user, while
      list_users with no (or an empty) search term lists them too; the
      search by phone is the only match list_users never makes. */
  lemma SearchWithEmptyQuery(users: map<Id, User>)
    ensures SearchedUsers(users, "") == ListedUsers(users, None) == ListedUsers(users, Some(""))
  {
    forall id | id in users ensures ContainsIgnoreCase(users[id].name, "") {
      ContainsEmpty(users[id].name);
    }
  }

  /** Without a search term list_users counts exactly the active users; a
      search term only narrows that set, and an active user whose name
      contains it is kept. search_users never looks beyond the active
      users either. */
  lemma ListedUsersMeaning(users: map<Id, User>, q: string)
    ensures forall id :: id in ListedUsers(users, None) <==> id in users && IsActiveUser(users[id])
    ensures ListedUsers(users, Some(q)) <= ListedUsers(users, None)
    ensures forall id :: id in users && IsActiveUser(users[id]) && ContainsIgnoreCase(users[id].name, q) ==>
      id in ListedUsers(users, Some(q))
    ensures SearchedUsers(users, q) <= ListedUsers(users, None)
  {
  }

  /** A user list_users finds with a search term is also found by
      search_users with that query. */
  lemma ListedAreSearched(users: map<Id, User>, q: string)
    ensures ListedUsers(users, Some(q)) <= SearchedUsers(users, q)
  {
    if q == "" {
      SearchWithEmptyQuery(users);
    }
  }

  // ---------------------------------------------------------------- class

  class UserService {
    const store: Store
    const cache: SharedCache

    constructor (store: Store, cache: SharedCache)
      ensures this.store == store && this.cache == cache
    {
      this.store := store;
      this.cache := cache;
    }

    /** get_user_by_id: the row with that primary key, if any. */
    function GetUserById(id: Id): (r: Option<User>)
      reads store
      ensures r.Some? <==> id in store.users
      ensures r.Some? ==> r.value == store.users[id]
    {
      if id in store.users then Some(store.users[id]) else None
    }

    /** update_user: None for an unknown id; otherwise the setattr loop,
        updated_at, the commit (a null name or a taken unique value fails
        it), and on success `user_to_dict` of the new row cached under the
        user's id. */
    method UpdateUser(id: Id, patch: UserUpdate, now: Time) returns (r: Result<Option<User>>)
      requires store != cache as object
      modifies store, cache
      ensures id !in old(store.users) ==>
        r == Ok(None) && store.State() == old(store.State()) && cache.entries == old(cache.entries)
      ensures id in old(store.users) ==>
        var p := PatchedUser(old(store.users)[id], patch, now);
        if p.Err? || KeyClash(old(store.users), id, p.value) then
          r == Err(IntegrityError) && store.State() == old(store.State()) && cache.entries == old(cache.entries)
        else
          && r == Ok(Some(p.value))
          && store.State() == old(store.State()).(users := old(store.users)[id := p.value])
          && cache.entries == old(cache.entries)[id := UserToDict(id, p.value)]
    {
      if id !in store.users {
        return Ok(None);
      }
      var items := UserUpdateItems(patch);
      var d := UserDraft(store.users[id], false);
      var i := 0;
      while i < |items|
        invariant 0 <= i <= |items|
        invariant SetUserFields(d, items[i..]) == SetUserFields(UserDraft(store.users[id], false), items)
      {
        assert items[i..][1..] == items[i + 1..];
        d := SetUserField(d, items[i]);
        i := i + 1;
      }
      SetUserFieldsIsPatch(store.users[id], patch, now);
      var committed := CommitUser(d, now);
      if committed.Err? {
        return Err(committed.error);
      }
      var ok := store.UpdateUserRow(id, committed.value);
      if !ok {
        return Err(IntegrityError);
      }
      cache.Set(id, UserToDict(id, committed.value));
      r := Ok(Some(committed.value));
    }

    /** list_users: the total before paging, then one page. */
    method ListUsers(limit: nat, offset: nat, search: Option<string>) returns (page: seq<Id>, total: nat)
      ensures total == |ListedUsers(store.users, search)|
      ensures |page| <= limit && Distinct(page)
      ensures forall id :: id in page ==> id in ListedUsers(store.users, search)
      ensures offset == 0 && total <= limit ==> forall id :: id in ListedUsers(store.users, search) ==> id in page
    {
      page, total := PageOfSet(ListedUsers(store.users, search), offset, limit);
    }

    /** search_users: the total before paging, then one page. */
    method SearchUsers(query: string, limit: nat, offset: nat) returns (page: seq<Id>, total: nat)
      ensures total == |SearchedUsers(store.users, query)|
      ensures |page| <= limit && Distinct(page)
      ensures forall id :: id in page ==> id in SearchedUsers(store.users, query)
      ensures offset == 0 && total <= limit ==> forall id :: id in SearchedUsers(store.users, query) ==> id in page
    {
      page, total := PageOfSet(SearchedUsers(store.users, query), offset, limit);
    }

    /** delete_user: a hard delete with the ORM cascade; the cached copy of
        the user stays. */
    method DeleteUser(id: Id) returns (r: bool)
      requires RefIntegrity(store.State())
      modifies store
      ensures r == (id in old(store.users))
      ensures store.State() == if r then UserDeleted(old(store.State()), id) else old(store.State())
      ensures r ==> id !in store.users && UserRows(store.State(), id) == {}
    {
      if id !in store.users {
        return false;
      }
      store.DeleteUser(id);
      UserDeletedCascades(old(store.State()), id);
      r := true;
    }
  }
}
