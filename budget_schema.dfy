/** The budget request schemas of app/schemas/budget.py (their field
    constraints and defaults, and the `dict(exclude_unset=True)` dump of a
    BudgetUpdate that the service applies) and the `budget_to_dict`
    converter. */
module BudgetSchemas {
  import opened Common
  import opened Models
  import opened Tables
  import opened Fields

  /** BudgetCreate (BudgetBase): a name and a currency. */
  datatype BudgetCreate = BudgetCreate(name: string, currency: string)

  /** Validating a BudgetCreate body in which `currency` may be absent. */
  function ValidateBudgetCreate(name: string, currency: Option<string>): (r: Result<BudgetCreate>)
    ensures r.Ok? <==> LengthBetween(name, 1, 255) && (currency.Some? ==> IsCurrencyCode(currency.value))
    ensures r.Ok? ==> r.value.name == name && r.value.currency == (if currency.Some? then currency.value else "USD")
    ensures r.Err? ==> r.error == Unprocessable
  {
    if LengthBetween(name, 1, 255) && (currency.Some? ==> IsCurrencyCode(currency.value)) then
      Ok(BudgetCreate(name, if currency.Some? then currency.value else "USD"))
    else Err(Unprocessable)
  }

  /** A validated BudgetCreate, the "USD" default included, fits the
      budgets.name and budgets.currency columns. */
  lemma BudgetCreateFitsColumns(name: string, currency: Option<string>)
    requires ValidateBudgetCreate(name, currency).Ok?
    ensures var c := ValidateBudgetCreate(name, currency).value;
      0 < |c.name| <= NameWidth && |c.currency| == CurrencyWidth && IsCurrencyCode(c.currency)
  {
  }

  /** BudgetUpdate: every field optional; a given value obeys the same
      constraints, and an explicit null passes validation. */
  datatype BudgetUpdate = BudgetUpdate(name: Patch<string>, currency: Patch<string>, status: Patch<BudgetStatus>)

  predicate BudgetUpdateValid(u: BudgetUpdate) {
    (u.name.SetTo? ==> LengthBetween(u.name.value, 1, 255))
    && (u.currency.SetTo? ==> IsCurrencyCode(u.currency.value))
  }

  /** One `(field, value)` item of the dump; None is an explicit null. */
  datatype BudgetField =
    | NameField(name: Option<string>)
    | CurrencyField(currency: Option<string>)
    | StatusField(status: Option<BudgetStatus>)

  /** `budget_update.dict(exclude_unset=True).items()`, in declaration order. */
  function UpdateItems(u: BudgetUpdate): (items: seq<BudgetField>)
    ensures |items| == (if u.name.Unset? then 0 else 1) + (if u.currency.Unset? then 0 else 1)
                       + (if u.status.Unset? then 0 else 1)
    ensures forall i :: 0 <= i < |items| ==>
      (items[i].NameField? ==> !u.name.Unset? && items[i].name == PatchValue(u.name))
      && (items[i].CurrencyField? ==> !u.currency.Unset? && items[i].currency == PatchValue(u.currency))
      && (items[i].StatusField? ==> !u.status.Unset? && items[i].status == PatchValue(u.status))
  {
    (if u.name.Unset? then [] else [NameField(PatchValue(u.name))])
    + (if u.currency.Unset? then [] else [CurrencyField(PatchValue(u.currency))])
    + (if u.status.Unset? then [] else [StatusField(PatchValue(u.status))])
  }

  /** UserRoleUpdate: the role must be one of the UserRole values. */
  function ValidateUserRoleUpdate(role: string): (r: Result<Role>)
    ensures r.Ok? <==> role in {"admin", "editor", "viewer"}
    ensures r.Ok? ==> RoleName(r.value) == role
    ensures r.Err? ==> r.error == Unprocessable
  {
    match ParseRole(role)
    case Some(x) => Ok(x)
    case None => Err(Unprocessable)
  }

  // ------------------------------------------------------- budget_to_dict

  /** The `{user, role}` entry of one user_budgets row. */
  function MemberEntry(db: Db, m: Id): Json
    requires m in db.memberships && db.memberships[m].userId in db.users
  {
    JObj(map["user" := JStr(db.users[db.memberships[m].userId].name),
             "role" := JStr(RoleName(db.memberships[m].role))])
  }

  /** The comprehension over `budget.user_budgets`: one entry per row whose
      user is present, in the relationship's order. */
  function MemberEntries(db: Db, rows: seq<Id>): (r: seq<Json>)
    requires forall i :: 0 <= i < |rows| ==> rows[i] in db.memberships
    ensures |r| <= |rows|
  {
    if rows == [] then []
    else
      var m := rows[0];
      (if db.memberships[m].userId in db.users then [MemberEntry(db, m)] else [])
      + MemberEntries(db, rows[1..])
  }

  /** With every user present (the foreign key), each row gives exactly
      its own entry, in order. */
  lemma {:induction false} MemberEntriesComplete(db: Db, rows: seq<Id>)
    requires RefIntegrity(db)
    requires forall i :: 0 <= i < |rows| ==> rows[i] in db.memberships
    ensures |MemberEntries(db, rows)| == |rows|
    ensures forall i :: 0 <= i < |rows| ==> MemberEntries(db, rows)[i] == MemberEntry(db, rows[i])
  {
    if rows != [] {
      MemberEntriesComplete(db, rows[1..]);
    }
  }

  /** Rows whose user is missing contribute nothing. */
  lemma {:induction false} MemberEntriesSkipMissing(db: Db, rows: seq<Id>)
    requires forall i :: 0 <= i < |rows| ==> rows[i] in db.memberships && db.memberships[rows[i]].userId !in db.users
    ensures MemberEntries(db, rows) == []
  {
    if rows != [] {
      MemberEntriesSkipMissing(db, rows[1..]);
    }
  }

  const BudgetDictKeys: set<string> :=
    {"id", "name", "currency", "status", "created_at", "updated_at", "archived_at", "sync_status", "user_budgets"}

  /** `budget_to_dict` of budget `b` whose loaded `user_budgets` are `rows`. */
  function BudgetToDict(db: Db, b: Id, rows: seq<Id>): (d: Json)
    requires b in db.budgets
    requires forall i :: 0 <= i < |rows| ==> rows[i] in db.memberships
    ensures d.JObj? && d.fields.Keys == BudgetDictKeys
    ensures d.fields["id"] == JStr(b) && d.fields["name"] == JStr(db.budgets[b].name)
    ensures d.fields["currency"] == JStr(db.budgets[b].currency)
    ensures d.fields["status"] == JStr(BudgetStatusName(db.budgets[b].status))
    ensures d.fields["created_at"] == JTime(db.budgets[b].createdAt)
    ensures d.fields["updated_at"] == JTime(db.budgets[b].updatedAt)
    ensures d.fields["archived_at"] == OptTime(db.budgets[b].archivedAt)
    ensures d.fields["sync_status"] == JStr(SyncStatusName(db.budgets[b].syncStatus))
    ensures d.fields["user_budgets"] == JList(MemberEntries(db, rows))
  {
    var bud := db.budgets[b];
    JObj(map["id" := JStr(b),
             "name" := JStr(bud.name),
             "currency" := JStr(bud.currency),
             "status" := JStr(BudgetStatusName(bud.status)),
             "created_at" := JTime(bud.createdAt),
             "updated_at" := JTime(bud.updatedAt),
             "archived_at" := OptTime(bud.archivedAt),
             "sync_status" := JStr(SyncStatusName(bud.syncStatus)),
             "user_budgets" := JList(MemberEntries(db, rows))])
  }

  /** The dictionary loses nothing of the budget row: two budgets with the
      same `budget_to_dict` have the same id, the same row and the same
      member entries. */
  lemma BudgetToDictInjective(db1: Db, b1: Id, rows1: seq<Id>, db2: Db, b2: Id, rows2: seq<Id>)
    requires b1 in db1.budgets && forall i :: 0 <= i < |rows1| ==> rows1[i] in db1.memberships
    requires b2 in db2.budgets && forall i :: 0 <= i < |rows2| ==> rows2[i] in db2.memberships
    requires BudgetToDict(db1, b1, rows1) == BudgetToDict(db2, b2, rows2)
    ensures b1 == b2 && db1.budgets[b1] == db2.budgets[b2]
    ensures MemberEntries(db1, rows1) == MemberEntries(db2, rows2)
  {
    var d1, d2 := BudgetToDict(db1, b1, rows1).fields, BudgetToDict(db2, b2, rows2).fields;
    var u1, u2 := db1.budgets[b1], db2.budgets[b2];
    assert d1["id"] == d2["id"] && d1["name"] == d2["name"] && d1["currency"] == d2["currency"];
    assert d1["created_at"] == d2["created_at"] && d1["updated_at"] == d2["updated_at"];
    assert d1["archived_at"] == d2["archived_at"] && d1["user_budgets"] == d2["user_budgets"];
    assert ParseBudgetStatus(BudgetStatusName(u1.status)) == Some(u1.status) by { EnumNamesRoundTrip(); }
    assert ParseBudgetStatus(BudgetStatusName(u2.status)) == Some(u2.status) by { EnumNamesRoundTrip(); }
    assert d1["sync_status"] == d2["sync_status"];
    SyncStatusNameInjective(u1.syncStatus, u2.syncStatus);
    OptTimeInjective(u1.archivedAt, u2.archivedAt);
  }
}
