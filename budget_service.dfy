/** BudgetService of app/services/budget_service.py: the access queries over
    the store, the budget lifecycle (create, patch, archive, delete) and
    membership management (add, remove, change role) with the last-admin
    guard. Clock readings and freshly generated ids are parameters. */
module BudgetServices {
  import opened Common
  import opened Models
  import opened Tables
  import opened AdminGuard
  import opened Stores
  import opened Uuid
  import opened BudgetSchemas

  // ------------------------------------------------------------ queries

  predicate IsActiveBudget(db: Db, b: Id) {
    b in db.budgets && db.budgets[b].status == Active
  }

  /** `u` holds a user_budgets row on `b` whose role is one of `roles`. */
  predicate HasRole(db: Db, u: Id, b: Id, roles: set<Role>) {
    exists m :: m in PairRows(db, u, b) && db.memberships[m].role in roles
  }

  predicate IsMember(db: Db, u: Id, b: Id) {
    PairRows(db, u, b) != {}
  }

  /** The join of update_budget and user_has_budget_access: an admin or
      editor row of `u` on the active budget `b`. */
  predicate CanEdit(db: Db, u: Id, b: Id) {
    IsActiveBudget(db, b) && HasRole(db, u, b, {Admin, Editor})
  }

  /** The join of budget_owned_by_user (and the inline query at the top of
      add_user_to_budget): an admin row of `u` on the active budget `b`. */
  predicate Owns(db: Db, u: Id, b: Id) {
    IsActiveBudget(db, b) && HasRole(db, u, b, {Admin})
  }

  /** user_has_budget_access: a well-formed UUID and edit rights. */
  predicate UserHasBudgetAccess(db: Db, u: Id, b: Id) {
    IsValidUuid(b) && CanEdit(db, u, b)
  }

  /** user_has_budget_admin_access: an admin row, whatever the budget's status. */
  predicate UserHasBudgetAdminAccess(db: Db, u: Id, b: Id) {
    HasRole(db, u, b, {Admin})
  }

  function GetBudgetById(db: Db, b: Id, u: Id): Option<Budget> {
    if IsActiveBudget(db, b) && IsMember(db, u, b) then Some(db.budgets[b]) else None
  }

  function BudgetOwnedByUser(db: Db, u: Id, b: Id): Option<Budget> {
    if Owns(db, u, b) then Some(db.budgets[b]) else None
  }

  function CountAdminUsers(db: Db, b: Id): nat {
    |AdminRows(db, b)|
  }

  /** The access levels are nested: owning a budget gives edit rights, edit
      rights make it visible, and owning it is admin access. A malformed id
      never has access. */
  lemma AccessLadder(db: Db, u: Id, b: Id)
    ensures Owns(db, u, b) ==> CanEdit(db, u, b) && UserHasBudgetAdminAccess(db, u, b)
    ensures CanEdit(db, u, b) ==> GetBudgetById(db, b, u) == Some(db.budgets[b])
    ensures BudgetOwnedByUser(db, u, b).Some? <==> Owns(db, u, b)
    ensures !IsValidUuid(b) ==> !UserHasBudgetAccess(db, u, b)
  {
    if CanEdit(db, u, b) {
      var m :| m in PairRows(db, u, b) && db.memberships[m].role in {Admin, Editor};
      assert m in PairRows(db, u, b);
    }
    if Owns(db, u, b) {
      var m :| m in PairRows(db, u, b) && db.memberships[m].role in {Admin};
      assert db.memberships[m].role in {Admin, Editor};
    }
  }

  /** Admin access does not look at the status: changing a budget's status
      to any value leaves every user's admin access to it as it was, while
      owning it then holds exactly for its admins when the new status is
      ACTIVE. So an archived budget keeps admins who no longer own it. */
  lemma AdminAccessIgnoresStatus(db: Db, u: Id, b: Id, status: BudgetStatus)
    requires b in db.budgets
    ensures var db2 := db.(budgets := db.budgets[b := db.budgets[b].(status := status)]);
      && (UserHasBudgetAdminAccess(db2, u, b) <==> UserHasBudgetAdminAccess(db, u, b))
      && (Owns(db2, u, b) <==> status == Active && UserHasBudgetAdminAccess(db, u, b))
  {
    var db2 := db.(budgets := db.budgets[b := db.budgets[b].(status := status)]);
    assert PairRows(db2, u, b) == PairRows(db, u, b);
  }

  /** The count the guard reads: at least one admin row exactly when the
      budget has an admin, and a count of at most one leaves no admin
      besides `m`. */
  lemma CountAdminUsersMeaning(db: Db, b: Id, m: Id)
    ensures CountAdminUsers(db, b) >= 1 <==> HasAdmin(db, b)
    ensures m in AdminRows(db, b) && CountAdminUsers(db, b) <= 1 ==> AdminRows(db, b) == {m}
    ensures m in AdminRows(db, b) && CountAdminUsers(db, b) >= 2 ==>
      exists other :: other in AdminRows(db, b) && other != m
  {
    var rows := AdminRows(db, b);
    if m in rows {
      var rest := rows - {m};
      assert |rest| == |rows| - 1;
      if |rows| <= 1 {
        assert rest == {};
        assert rows == {m};
      }
      if |rows| >= 2 {
        var other :| other in rest;
        assert other in rows && other != m;
      }
    }
  }

  /** What every service keeps of the store: integrity, an admin on every
      budget, and at most one membership per user and budget. */
  predicate ServiceInvariant(db: Db) {
    Valid(db) && EveryBudgetHasAdmin(db) && UniqueMemberships(db)
  }

  // -------------------------------------------------------- create_budget

  function CreatedBudget(db: Db, name: string, currency: string, u: Id, bid: Id, mid: Id, now: Time): Db {
    db.(budgets := db.budgets[bid := NewBudget(name, Some(currency), now)],
        memberships := db.memberships[mid := NewMembership(u, bid, Some(Admin), now)])
  }

  /** create_budget leaves the new budget active with exactly one
      membership: its creator, as admin. Nothing else changes. */
  lemma CreateBudgetMakesCreatorAdmin(db: Db, name: string, currency: string, u: Id, bid: Id, mid: Id, now: Time)
    requires RefIntegrity(db) && bid !in db.budgets && mid !in db.memberships
    ensures var r := CreatedBudget(db, name, currency, u, bid, mid, now);
      && r.budgets[bid].status == Active && r.budgets[bid].archivedAt == None
      && r.budgets[bid].name == name && r.budgets[bid].currency == currency
      && BudgetRows(r, bid) == {mid} && AdminRows(r, bid) == {mid}
      && r.memberships[mid] == Membership(u, bid, Admin, now)
      && (forall k :: k in db.budgets ==> k in r.budgets && r.budgets[k] == db.budgets[k])
      && (forall k :: k != bid ==> AdminRows(r, k) == AdminRows(db, k))
  {
    var r := CreatedBudget(db, name, currency, u, bid, mid, now);
    assert forall m :: m in db.memberships ==> db.memberships[m].budgetId != bid;
    assert BudgetRows(r, bid) == {mid};
  }

  lemma CreateBudgetKeepsInvariant(db: Db, name: string, currency: string, u: Id, bid: Id, mid: Id, now: Time)
    requires ServiceInvariant(db) && u in db.users && bid !in db.budgets && mid !in db.memberships
    ensures ServiceInvariant(CreatedBudget(db, name, currency, u, bid, mid, now))
  {
    CreateBudgetMakesCreatorAdmin(db, name, currency, u, bid, mid, now);
    var r := CreatedBudget(db, name, currency, u, bid, mid, now);
    ValidAfterRowChange(db, r);
    forall k | k in r.budgets ensures HasAdmin(r, k) {
      if k != bid {
        assert HasAdmin(db, k);
      }
    }
    CreatedBudgetUnique(db, name, currency, u, bid, mid, now);
  }

  /** The new row is the only one of the new budget, so it pairs with no
      other row. */
  lemma CreatedBudgetUnique(db: Db, name: string, currency: string, u: Id, bid: Id, mid: Id, now: Time)
    requires RefIntegrity(db) && UniqueMemberships(db) && bid !in db.budgets && mid !in db.memberships
    ensures UniqueMemberships(CreatedBudget(db, name, currency, u, bid, mid, now))
  {
    var r := CreatedBudget(db, name, currency, u, bid, mid, now);
    forall m1, m2 | m1 in r.memberships && m2 in r.memberships && m1 != m2
      ensures r.memberships[m1].userId != r.memberships[m2].userId
              || r.memberships[m1].budgetId != r.memberships[m2].budgetId
    {
      if m1 == mid {
        assert r.memberships[m2] == db.memberships[m2];
        assert r.memberships[m2].budgetId in db.budgets;
      } else if m2 == mid {
        assert r.memberships[m1] == db.memberships[m1];
        assert r.memberships[m1].budgetId in db.budgets;
      } else {
        assert r.memberships[m1] == db.memberships[m1] && r.memberships[m2] == db.memberships[m2];
      }
    }
  }

  /** Validity survives any change that keeps every table but budgets and
      user_budgets, keeps every budget, and keeps the foreign keys of the
      user_budgets rows. */
  lemma ValidAfterRowChange(db: Db, r: Db)
    requires Valid(db)
    requires r.users == db.users && r.categories == db.categories && r.subcategories == db.subcategories
    requires r.transactions == db.transactions && r.recurring == db.recurring
    requires db.budgets.Keys <= r.budgets.Keys
    requires forall m :: m in r.memberships ==>
      r.memberships[m].userId in r.users && r.memberships[m].budgetId in r.budgets
    ensures Valid(r)
  {
  }

  // -------------------------------------------------------- update_budget

  /** The budget row while the patch is applied: the row with the values
      assigned so far, and whether a NOT NULL column was assigned None. */
  datatype Draft = Draft(row: Budget, nulled: bool)

  /** `setattr(budget, field, value)` for one item of the dump. */
  function SetField(d: Draft, f: BudgetField): Draft {
    match f
    case NameField(v) => if v.Some? then d.(row := d.row.(name := v.value)) else d.(nulled := true)
    case CurrencyField(v) => if v.Some? then d.(row := d.row.(currency := v.value)) else d.(nulled := true)
    case StatusField(v) => if v.Some? then d.(row := d.row.(status := v.value)) else d.(nulled := true)
  }

  /** The setattr loop over `items`, as a fold. */
  function SetFields(d: Draft, items: seq<BudgetField>): Draft
    decreases |items|
  {
    if items == [] then d else SetFields(SetField(d, items[0]), items[1..])
  }

  /** The budget update_budget commits, stated field by field: each field
      the patch sets takes its value, every other column keeps its own,
      updated_at becomes `now`; an explicit null on name, currency or
      status (all NOT NULL) makes the commit fail. */
  function PatchedBudget(b: Budget, u: BudgetUpdate, now: Time): Result<Budget> {
    if u.name.SetNull? || u.currency.SetNull? || u.status.SetNull? then Err(IntegrityError)
    else Ok(b.(name := if u.name.SetTo? then u.name.value else b.name,
               currency := if u.currency.SetTo? then u.currency.value else b.currency,
               status := if u.status.SetTo? then u.status.value else b.status,
               updatedAt := now))
  }

  /** The committed outcome of a draft. */
  function Commit(d: Draft, now: Time): Result<Budget> {
    if d.nulled then Err(IntegrityError) else Ok(d.row.(updatedAt := now))
  }

  /** The setattr loop over the dump commits exactly the field-by-field
      patch. */
  lemma SetFieldsIsPatch(b: Budget, u: BudgetUpdate, now: Time)
    ensures Commit(SetFields(Draft(b, false), UpdateItems(u)), now) == PatchedBudget(b, u, now)
  {
    var items := UpdateItems(u);
    var d0 := Draft(b, false);
    var n := if u.name.Unset? then [] else [NameField(PatchValue(u.name))];
    var c := if u.currency.Unset? then [] else [CurrencyField(PatchValue(u.currency))];
    var s := if u.status.Unset? then [] else [StatusField(PatchValue(u.status))];
    assert items == n + c + s;
    SetFieldsAppend(d0, n, c + s);
    assert n + c + s == n + (c + s);
    SetFieldsAppend(SetFields(d0, n), c, s);
  }

  lemma {:induction false} SetFieldsAppend(d: Draft, xs: seq<BudgetField>, ys: seq<BudgetField>)
    ensures SetFields(d, xs + ys) == SetFields(SetFields(d, xs), ys)
    decreases |xs|
  {
    if xs != [] {
      assert (xs + ys)[1..] == xs[1..] + ys;
      SetFieldsAppend(SetField(d, xs[0]), xs[1..], ys);
    } else {
      assert xs + ys == ys;
    }
  }

  /** A patch touches only its own fields and updated_at: created_at,
      archived_at and sync_status stay as they were. */
  lemma PatchTouchesOnlyItsFields(b: Budget, u: BudgetUpdate, now: Time)
    requires PatchedBudget(b, u, now).Ok?
    ensures var nb := PatchedBudget(b, u, now).value;
      && nb.createdAt == b.createdAt && nb.archivedAt == b.archivedAt && nb.syncStatus == b.syncStatus
      && nb.updatedAt == now
      && (u.name.Unset? ==> nb.name == b.name)
      && (u.currency.Unset? ==> nb.currency == b.currency)
      && (u.status.Unset? ==> nb.status == b.status)
  {
  }

  /** update_budget may set the status to archived without setting
      archived_at, unlike archive_budget. */
  lemma PatchMayArchiveWithoutTimestamp(b: Budget, now: Time)
    requires b.status == Active && b.archivedAt == None
    ensures var nb := PatchedBudget(b, BudgetUpdate(Unset, Unset, SetTo(Archived)), now);
      nb.Ok? && nb.value.status == Archived && nb.value.archivedAt == None
  {
  }

  lemma ReplaceBudgetKeepsInvariant(db: Db, b: Id, nb: Budget)
    requires ServiceInvariant(db) && b in db.budgets
    ensures ServiceInvariant(db.(budgets := db.budgets[b := nb]))
  {
    var r := db.(budgets := db.budgets[b := nb]);
    assert Valid(r) by { ValidAfterRowChange(db, r); }
    assert EveryBudgetHasAdmin(r) by {
      forall k | k in r.budgets ensures HasAdmin(r, k) {
        assert AdminRows(r, k) == AdminRows(db, k);
      }
    }
    assert UniqueMemberships(r) by { assert r.memberships == db.memberships; }
  }

  // ------------------------------------------------------- archive_budget

  function ArchivedBudget(b: Budget, now: Time): (nb: Budget) {
    b.(status := Archived, archivedAt := Some(now), updatedAt := now)
  }

  /** Once archived, a budget is owned by nobody, so archiving (or
      deleting, or managing members of) it again fails and changes nothing. */
  lemma ArchiveIsFinal(db: Db, b: Id, now: Time, u: Id)
    requires b in db.budgets
    ensures var r := db.(budgets := db.budgets[b := ArchivedBudget(db.budgets[b], now)]);
      && r.budgets[b].status == Archived && r.budgets[b].archivedAt == Some(now)
      && !Owns(r, u, b) && !CanEdit(r, u, b) && GetBudgetById(r, b, u) == None
  {
  }

  // ---------------------------------------------------------- delete_budget

  lemma DeleteBudgetKeepsInvariant(db: Db, b: Id)
    requires ServiceInvariant(db)
    ensures ServiceInvariant(WithoutBudget(db, b))
  {
    WithoutBudgetValid(db, b);
  }

  // ----------------------------------------------------- add_user_to_budget

  function AddedMember(db: Db, b: Id, target: Id, role: Role, mid: Id, now: Time): Db {
    db.(memberships := db.memberships[mid := NewMembership(target, b, Some(role), now)])
  }

  /** add_user_to_budget adds exactly one membership, with the given role,
      and keeps every budget's admins. */
  lemma AddMemberAddsOne(db: Db, b: Id, target: Id, role: Role, mid: Id, now: Time)
    requires mid !in db.memberships && !IsMember(db, target, b)
    ensures var r := AddedMember(db, b, target, role, mid, now);
      && PairRows(r, target, b) == {mid} && r.memberships[mid].role == role
      && r.memberships.Keys == db.memberships.Keys + {mid}
      && (forall k :: AdminRows(db, k) <= AdminRows(r, k))
      && r.budgets == db.budgets
  {
    var r := AddedMember(db, b, target, role, mid, now);
    assert PairRows(db, target, b) == {};
    assert PairRows(r, target, b) == {mid};
  }

  lemma AddMemberKeepsInvariant(db: Db, b: Id, target: Id, role: Role, mid: Id, now: Time)
    requires ServiceInvariant(db) && mid !in db.memberships && !IsMember(db, target, b)
    requires target in db.users && b in db.budgets
    ensures ServiceInvariant(AddedMember(db, b, target, role, mid, now))
  {
    var r := AddedMember(db, b, target, role, mid, now);
    AddedMemberRefs(db, b, target, role, mid, now);
    AddedMemberAdmins(db, b, target, role, mid, now);
    AddedMemberUnique(db, b, target, role, mid, now);
    assert r.users == db.users && r.categories == db.categories;
  }

  lemma AddedMemberRefs(db: Db, b: Id, target: Id, role: Role, mid: Id, now: Time)
    requires RefIntegrity(db) && target in db.users && b in db.budgets
    ensures RefIntegrity(AddedMember(db, b, target, role, mid, now))
  {
  }

  lemma AddedMemberAdmins(db: Db, b: Id, target: Id, role: Role, mid: Id, now: Time)
    requires EveryBudgetHasAdmin(db) && mid !in db.memberships && !IsMember(db, target, b)
    ensures EveryBudgetHasAdmin(AddedMember(db, b, target, role, mid, now))
  {
    AddMemberAddsOne(db, b, target, role, mid, now);
    var r := AddedMember(db, b, target, role, mid, now);
    forall k | k in r.budgets ensures HasAdmin(r, k) {
      assert HasAdmin(db, k);
    }
  }

  lemma AddedMemberUnique(db: Db, b: Id, target: Id, role: Role, mid: Id, now: Time)
    requires UniqueMemberships(db) && mid !in db.memberships && !IsMember(db, target, b)
    ensures UniqueMemberships(AddedMember(db, b, target, role, mid, now))
  {
    NotMemberHasNoRow(db, target, b);
    UniqueAfterAdd(db, mid, NewMembership(target, b, Some(role), now));
  }

  lemma NotMemberHasNoRow(db: Db, u: Id, b: Id)
    requires !IsMember(db, u, b)
    ensures forall m :: m in db.memberships ==> db.memberships[m].userId != u || db.memberships[m].budgetId != b
  {
    forall m | m in db.memberships ensures db.memberships[m].userId != u || db.memberships[m].budgetId != b {
      assert m !in PairRows(db, u, b);
    }
  }

  lemma UniqueAfterAdd(db: Db, mid: Id, row: Membership)
    requires UniqueMemberships(db) && mid !in db.memberships
    requires forall m :: m in db.memberships ==> db.memberships[m].userId != row.userId || db.memberships[m].budgetId != row.budgetId
    ensures UniqueMemberships(db.(memberships := db.memberships[mid := row]))
  {
  }

  // ------------------------------------------------ remove_user_from_budget

  /** The guard of remove_user_from_budget: the row is not an admin row, or
      it is not the budget's only one. */
  predicate GuardAllows(db: Db, m: Id)
    requires m in db.memberships
  {
    db.memberships[m].role != Admin || CountAdminUsers(db, db.memberships[m].budgetId) > 1
  }

  /** When the guard lets a removal through, the delete trigger leaves the
      budget alone: the row is simply gone, every budget survives, and
      every budget with an admin keeps one. */
  lemma GuardedRemoval(db: Db, m: Id)
    requires m in db.memberships && GuardAllows(db, m)
    ensures DeleteMembershipRow(db, m) == db.(memberships := db.memberships - {m})
    ensures DeleteMembershipRow(db, m).budgets == db.budgets
    ensures forall k :: HasAdmin(db, k) ==> HasAdmin(DeleteMembershipRow(db, m), k)
  {
    var b := db.memberships[m].budgetId;
    if db.memberships[m].role == Admin {
      assert m in AdminRows(db, b);
      CountAdminUsersMeaning(db, b, m);
      var other :| other in AdminRows(db, b) && other != m;
      OtherAdminKeepsBudget(db, m, other);
    } else {
      NonAdminDeleteKeepsBudgets(db, m);
    }
    var r := db.(memberships := db.memberships - {m});
    forall k | HasAdmin(db, k) ensures HasAdmin(r, k) {
      if k == b && db.memberships[m].role == Admin {
        var other :| other in AdminRows(db, b) && other != m;
        assert other in AdminRows(r, k);
      } else {
        var a :| a in AdminRows(db, k);
        assert a != m;
        assert a in AdminRows(r, k);
      }
    }
  }

  lemma GuardedRemovalKeepsInvariant(db: Db, m: Id)
    requires ServiceInvariant(db) && m in db.memberships && GuardAllows(db, m)
    ensures ServiceInvariant(db.(memberships := db.memberships - {m}))
  {
    GuardedRemoval(db, m);
    DeleteMembershipRowValid(db, m);
  }

  // ---------------------------------------------------- update_user_role

  /** The guard of update_user_role: no demotion of the only admin row. */
  predicate RoleGuardAllows(db: Db, m: Id, role: Role)
    requires m in db.memberships
  {
    !(db.memberships[m].role == Admin && role != Admin) || CountAdminUsers(db, db.memberships[m].budgetId) > 1
  }

  /** A role change the guard allows keeps an admin on every budget that
      has one, and the store's invariant. */
  lemma RoleChangeKeepsInvariant(db: Db, m: Id, role: Role)
    requires ServiceInvariant(db) && m in db.memberships && RoleGuardAllows(db, m, role)
    ensures var r := db.(memberships := db.memberships[m := db.memberships[m].(role := role)]);
      ServiceInvariant(r) && forall k :: HasAdmin(db, k) ==> HasAdmin(r, k)
  {
    var b := db.memberships[m].budgetId;
    var r := db.(memberships := db.memberships[m := db.memberships[m].(role := role)]);
    ValidAfterRowChange(db, r);
    forall k | HasAdmin(db, k) ensures HasAdmin(r, k) {
      RoleChangeKeepsAdmin(db, m, role, k);
    }
    UniqueAfterRoleChange(db, m, role);
  }

  lemma UniqueAfterRoleChange(db: Db, m: Id, role: Role)
    requires UniqueMemberships(db) && m in db.memberships
    ensures UniqueMemberships(db.(memberships := db.memberships[m := db.memberships[m].(role := role)]))
  {
  }

  lemma RoleChangeKeepsAdmin(db: Db, m: Id, role: Role, k: Id)
    requires m in db.memberships && RoleGuardAllows(db, m, role) && HasAdmin(db, k)
    ensures HasAdmin(db.(memberships := db.memberships[m := db.memberships[m].(role := role)]), k)
  {
    var b := db.memberships[m].budgetId;
    var r := db.(memberships := db.memberships[m := db.memberships[m].(role := role)]);
    if k == b && db.memberships[m].role == Admin && role != Admin {
      assert m in AdminRows(db, b);
      CountAdminUsersMeaning(db, b, m);
      var other :| other in AdminRows(db, b) && other != m;
      assert other in AdminRows(r, k);
    } else if k == b && role == Admin {
      assert m in AdminRows(r, k);
    } else {
      var a :| a in AdminRows(db, k);
      assert a in AdminRows(r, k);
    }
  }

  // ------------------------------------------------------------------ class

  class BudgetService {
    const store: Store

    constructor (store: Store)
      ensures this.store == store
    {
      this.store := store;
    }

    /** The join rows behind list_user_budgets: `u`'s memberships on active
        budgets whose name matches the search. */
    function ListRows(u: Id, search: Option<string>): (rows: set<Id>)
      reads store
      ensures forall m :: m in rows ==> m in store.memberships
    {
      set m | m in store.memberships && store.memberships[m].userId == u
        && IsActiveBudget(store.State(), store.memberships[m].budgetId)
        && (Truthy(search) ==> ContainsIgnoreCase(store.budgets[store.memberships[m].budgetId].name, search.value))
    }

    /** list_user_budgets: the total counts the join rows before paging; the
        page holds the distinct budgets of one window of those rows. */
    method ListUserBudgets(u: Id, limit: nat, offset: nat, search: Option<string>) returns (page: seq<Id>, total: nat)
      ensures total == |ListRows(u, search)|
      ensures |page| <= limit && Distinct(page)
      ensures forall b :: b in page ==>
        IsActiveBudget(store.State(), b) && IsMember(store.State(), u, b)
        && (Truthy(search) ==> ContainsIgnoreCase(store.budgets[b].name, search.value))
      ensures offset == 0 && total <= limit ==> forall m :: m in ListRows(u, search) ==> store.memberships[m].budgetId in page
    {
      var rows := Enumerate(ListRows(u, search));
      total := |rows|;
      var ids: seq<Id> := [];
      var i := 0;
      while i < |rows|
        invariant 0 <= i <= |rows| && |ids| == i
        invariant forall j :: 0 <= j < i ==> rows[j] in store.memberships && ids[j] == store.memberships[rows[j]].budgetId
      {
        ids := ids + [store.memberships[rows[i]].budgetId];
        i := i + 1;
      }
      var window := Page(ids, offset, limit);
      page := Dedup(window);
      forall b | b in page
        ensures IsActiveBudget(store.State(), b) && IsMember(store.State(), u, b)
        ensures Truthy(search) ==> ContainsIgnoreCase(store.budgets[b].name, search.value)
      {
        var k :| 0 <= k < |window| && window[k] == b;
        assert ids[offset + k] == b;
        var m := rows[offset + k];
        assert m in ListRows(u, search);
        assert m in PairRows(store.State(), u, b);
      }
      if offset == 0 && total <= limit {
        assert window == ids;
        forall m | m in ListRows(u, search) ensures store.memberships[m].budgetId in page {
          var k :| 0 <= k < |rows| && rows[k] == m;
          assert ids[k] == store.memberships[m].budgetId;
        }
      }
    }

    /** create_budget: on commit, the foreign key of the admin row to the
        creator is checked; when it fails nothing is stored. */
    method CreateBudget(data: BudgetCreate, u: Id, bid: Id, mid: Id, now: Time) returns (r: Result<Id>)
      requires bid !in store.budgets && mid !in store.memberships
      modifies store
      ensures r == if u in old(store.users) then Ok(bid) else Err(IntegrityError)
      ensures store.State() == if r.Ok? then CreatedBudget(old(store.State()), data.name, data.currency, u, bid, mid, now)
                               else old(store.State())
    {
      if u !in store.users {
        return Err(IntegrityError);
      }
      store.PutBudget(bid, NewBudget(data.name, Some(data.currency), now));
      var ok := store.InsertMembership(mid, NewMembership(u, bid, Some(Admin), now));
      assert ok;
      r := Ok(bid);
    }

    /** update_budget: a malformed id or a budget the caller cannot edit
        gives None; otherwise the setattr loop over the dump, updated_at,
        and the commit. */
    method UpdateBudget(b: Id, patch: BudgetUpdate, u: Id, now: Time) returns (r: Result<Option<Budget>>)
      modifies store
      ensures !(IsValidUuid(b) && CanEdit(old(store.State()), u, b)) ==> r == Ok(None) && store.State() == old(store.State())
      ensures IsValidUuid(b) && CanEdit(old(store.State()), u, b) ==>
        var p := PatchedBudget(old(store.budgets)[b], patch, now);
        && (p.Err? ==> r == Err(p.error) && store.State() == old(store.State()))
        && (p.Ok? ==> r == Ok(Some(p.value)) && store.State() == old(store.State()).(budgets := old(store.budgets)[b := p.value]))
    {
      if !IsValidUuid(b) || !CanEdit(store.State(), u, b) {
        return Ok(None);
      }
      var items := UpdateItems(patch);
      var d := Draft(store.budgets[b], false);
      var i := 0;
      while i < |items|
        invariant 0 <= i <= |items|
        invariant SetFields(d, items[i..]) == SetFields(Draft(store.budgets[b], false), items)
      {
        assert items[i..][1..] == items[i + 1..];
        d := SetField(d, items[i]);
        i := i + 1;
      }
      SetFieldsIsPatch(store.budgets[b], patch, now);
      var committed := Commit(d, now);
      if committed.Err? {
        return Err(committed.error);
      }
      store.PutBudget(b, committed.value);
      r := Ok(Some(committed.value));
    }

    /** archive_budget: only the owner of an active budget may archive it. */
    method ArchiveBudget(b: Id, u: Id, now: Time) returns (r: bool)
      modifies store
      ensures r == Owns(old(store.State()), u, b)
      ensures store.State() == if r then old(store.State()).(budgets := old(store.budgets)[b := ArchivedBudget(old(store.budgets)[b], now)])
                               else old(store.State())
    {
      if BudgetOwnedByUser(store.State(), u, b).None? {
        return false;
      }
      store.PutBudget(b, ArchivedBudget(store.budgets[b], now));
      r := true;
    }

    /** delete_budget: only the owner of an active budget may delete it; the
        ORM cascade and the delete trigger run. */
    method DeleteBudget(b: Id, u: Id) returns (r: bool)
      requires RefIntegrity(store.State())
      modifies store
      ensures r == Owns(old(store.State()), u, b)
      ensures store.State() == if r then WithoutBudget(old(store.State()), b) else old(store.State())
    {
      if BudgetOwnedByUser(store.State(), u, b).None? {
        return false;
      }
      store.DeleteBudget(b);
      r := true;
    }

    /** add_user_to_budget: the caller must own the active budget; the
        target must not hold a row on it yet; the new row's foreign key to
        the target is checked on commit. */
    method AddUserToBudget(b: Id, target: Id, role: Role, admin: Id, mid: Id, now: Time) returns (r: Result<bool>)
      requires mid !in store.memberships
      modifies store
      ensures r == if !Owns(old(store.State()), admin, b) then Err(NotFound)
                   else if IsMember(old(store.State()), target, b) then Err(BadRequest)
                   else if target !in old(store.users) then Err(IntegrityError)
                   else Ok(true)
      ensures store.State() == if r.Ok? then AddedMember(old(store.State()), b, target, role, mid, now) else old(store.State())
    {
      if !Owns(store.State(), admin, b) {
        return Err(NotFound);
      }
      if PairRows(store.State(), target, b) != {} {
        return Err(BadRequest);
      }
      var ok := store.InsertMembership(mid, NewMembership(target, b, Some(role), now));
      if !ok {
        return Err(IntegrityError);
      }
      r := Ok(true);
    }

    /** remove_user_from_budget: the caller must own the active budget; the
        row found for the target (`.first()` of possibly several) is removed
        unless it is the only admin row. */
    method RemoveUserFromBudget(b: Id, target: Id, admin: Id) returns (r: Result<bool>, ghost row: Option<Id>)
      modifies store
      ensures !Owns(old(store.State()), admin, b) ==> r == Err(NotFound) && store.State() == old(store.State())
      ensures Owns(old(store.State()), admin, b) && !IsMember(old(store.State()), target, b) ==>
        r == Ok(false) && store.State() == old(store.State())
      ensures Owns(old(store.State()), admin, b) && IsMember(old(store.State()), target, b) ==>
        row.Some? && row.value in PairRows(old(store.State()), target, b)
        && (GuardAllows(old(store.State()), row.value) ==>
              r == Ok(true) && store.State() == old(store.State()).(memberships := old(store.memberships) - {row.value}))
        && (!GuardAllows(old(store.State()), row.value) ==> r == Err(BadRequest) && store.State() == old(store.State()))
    {
      row := None;
      if BudgetOwnedByUser(store.State(), admin, b).None? {
        return Err(NotFound), row;
      }
      if PairRows(store.State(), target, b) == {} {
        return Ok(false), row;
      }
      var m :| m in PairRows(store.State(), target, b);
      row := Some(m);
      if store.memberships[m].role == Admin && CountAdminUsers(store.State(), b) <= 1 {
        return Err(BadRequest), row;
      }
      GuardedRemoval(store.State(), m);
      store.DeleteMembership(m);
      r := Ok(true);
    }

    /** update_user_role: the caller must own the active budget and the
        target must hold a row on it; the only admin row cannot be demoted. */
    method UpdateUserRole(b: Id, target: Id, role: Role, admin: Id) returns (r: Result<bool>, ghost row: Option<Id>)
      modifies store
      ensures !Owns(old(store.State()), admin, b) ==> r == Err(NotFound) && store.State() == old(store.State())
      ensures Owns(old(store.State()), admin, b) && !IsMember(old(store.State()), target, b) ==>
        r == Err(NotFound) && store.State() == old(store.State())
      ensures Owns(old(store.State()), admin, b) && IsMember(old(store.State()), target, b) ==>
        row.Some? && row.value in PairRows(old(store.State()), target, b)
        && (RoleGuardAllows(old(store.State()), row.value, role) ==>
              r == Ok(true)
              && store.State() == old(store.State()).(memberships := old(store.memberships)[row.value := old(store.memberships)[row.value].(role := role)]))
        && (!RoleGuardAllows(old(store.State()), row.value, role) ==> r == Err(BadRequest) && store.State() == old(store.State()))
    {
      row := None;
      if BudgetOwnedByUser(store.State(), admin, b).None? {
        return Err(NotFound), row;
      }
      if PairRows(store.State(), target, b) == {} {
        return Err(NotFound), row;
      }
      var m :| m in PairRows(store.State(), target, b);
      row := Some(m);
      if store.memberships[m].role == Admin && role != Admin && CountAdminUsers(store.State(), b) <= 1 {
        return Err(BadRequest), row;
      }
      store.PutMembership(m, store.memberships[m].(role := role));
      r := Ok(true);
    }
  }
}
