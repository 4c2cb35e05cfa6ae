/** The whole database as one value: one map per table, keyed by primary
    key. Referential integrity (the foreign keys of app/models/models.py),
    the unique columns, and the cascade deletes that the foreign keys and
    ORM relationships declare. */
module Tables {
  import opened Common
  import opened Models

  datatype Db = Db(
    users: map<Id, User>,
    budgets: map<Id, Budget>,
    memberships: map<Id, Membership>,
    transactions: map<Id, Transaction>,
    recurring: map<Id, Recurring>,
    categories: map<Id, Category>,
    subcategories: map<Id, Subcategory>)

  const EmptyDb := Db(map[], map[], map[], map[], map[], map[], map[])

  /** Every foreign key refers to an existing row. */
  predicate RefIntegrity(db: Db) {
    (forall m :: m in db.memberships ==>
       db.memberships[m].userId in db.users && db.memberships[m].budgetId in db.budgets)
    && (forall t :: t in db.transactions ==>
       db.transactions[t].userId in db.users && db.transactions[t].budgetId in db.budgets)
    && (forall r :: r in db.recurring ==>
       db.recurring[r].userId in db.users && db.recurring[r].budgetId in db.budgets)
    && (forall s :: s in db.subcategories ==> db.subcategories[s].categoryId in db.categories)
  }

  /** `v` is the email (phone, google id) of some user other than `except`. */
  predicate EmailTaken(users: map<Id, User>, v: string, except: Option<Id>) {
    exists u :: u in users && Some(u) != except && users[u].email == Some(v)
  }

  predicate PhoneTaken(users: map<Id, User>, v: string, except: Option<Id>) {
    exists u :: u in users && Some(u) != except && users[u].phone == Some(v)
  }

  predicate GoogleIdTaken(users: map<Id, User>, v: string, except: Option<Id>) {
    exists u :: u in users && Some(u) != except && users[u].googleId == Some(v)
  }

  /** The unique columns email, phone and google_id: no two users share a
      value that is set (NULLs never clash). */
  predicate UniqueUserKeys(users: map<Id, User>) {
    forall u1, u2 :: u1 in users && u2 in users && u1 != u2 ==>
      (users[u1].email.Some? ==> users[u1].email != users[u2].email)
      && (users[u1].phone.Some? ==> users[u1].phone != users[u2].phone)
      && (users[u1].googleId.Some? ==> users[u1].googleId != users[u2].googleId)
  }

  /** transaction_categories.name is unique. */
  predicate UniqueCategoryNames(categories: map<Id, Category>) {
    forall c1, c2 :: c1 in categories && c2 in categories && c1 != c2 ==>
      categories[c1].name != categories[c2].name
  }

  /** What the store's constraints guarantee of every committed state. */
  predicate Valid(db: Db) {
    RefIntegrity(db) && UniqueUserKeys(db.users) && UniqueCategoryNames(db.categories)
  }

  // --------------------------------------------------------------- admins

  /** The user_budgets rows giving admin on budget `b`. */
  function AdminRows(db: Db, b: Id): set<Id> {
    set m | m in db.memberships && db.memberships[m].budgetId == b && db.memberships[m].role == Admin
  }

  predicate HasAdmin(db: Db, b: Id) {
    AdminRows(db, b) != {}
  }

  /** The invariant the admin guards are there for. */
  predicate EveryBudgetHasAdmin(db: Db) {
    forall b :: b in db.budgets ==> HasAdmin(db, b)
  }

  /** The user_budgets rows of budget `b` (any role). */
  function BudgetRows(db: Db, b: Id): set<Id> {
    set m | m in db.memberships && db.memberships[m].budgetId == b
  }

  /** The user_budgets rows of user `u` (any role). */
  function UserRows(db: Db, u: Id): set<Id> {
    set m | m in db.memberships && db.memberships[m].userId == u
  }

  /** The user_budgets rows joining user `u` to budget `b` (any role). */
  function PairRows(db: Db, u: Id, b: Id): set<Id> {
    set m | m in db.memberships && db.memberships[m].userId == u && db.memberships[m].budgetId == b
  }

  /** How the row sets fit together: a pair's rows are the user's rows that
      are also the budget's, a budget's admin rows are among its rows, two
      budgets share no row, and each row is among its own user's and its
      own budget's rows. */
  lemma RowSetsMeaning(db: Db, u: Id, b: Id, b2: Id)
    ensures PairRows(db, u, b) == UserRows(db, u) * BudgetRows(db, b)
    ensures AdminRows(db, b) <= BudgetRows(db, b)
    ensures b != b2 ==> BudgetRows(db, b) !! BudgetRows(db, b2)
    ensures forall m :: m in db.memberships ==>
      m in BudgetRows(db, db.memberships[m].budgetId) && m in UserRows(db, db.memberships[m].userId)
  {
  }

  /** At most one user_budgets row per (user, budget). No constraint of the
      schema declares this; the services keep it. */
  predicate UniqueMemberships(db: Db) {
    forall m1, m2 :: m1 in db.memberships && m2 in db.memberships && m1 != m2 ==>
      db.memberships[m1].userId != db.memberships[m2].userId
      || db.memberships[m1].budgetId != db.memberships[m2].budgetId
  }

  /** Under that invariant a user has at most one row on a budget. */
  lemma UniquePairRow(db: Db, u: Id, b: Id)
    requires UniqueMemberships(db)
    ensures |PairRows(db, u, b)| <= 1
  {
    var rows := PairRows(db, u, b);
    if rows != {} {
      var m1 :| m1 in rows;
      assert rows == {m1};
    }
  }

  // ------------------------------------------------------------- cascades

  /** `DELETE FROM budgets WHERE id IN bs` with the ON DELETE CASCADE foreign
      keys of user_budgets, transactions and recurring_transactions. */
  function WithoutBudgets(db: Db, bs: set<Id>): (r: Db)
    ensures forall k :: k in r.budgets <==> k in db.budgets && k !in bs
    ensures forall m :: m in r.memberships <==> m in db.memberships && db.memberships[m].budgetId !in bs
    ensures forall t :: t in r.transactions <==> t in db.transactions && db.transactions[t].budgetId !in bs
    ensures forall t :: t in r.recurring <==> t in db.recurring && db.recurring[t].budgetId !in bs
    ensures r.users == db.users && r.categories == db.categories && r.subcategories == db.subcategories
  {
    db.(budgets := map k | k in db.budgets && k !in bs :: db.budgets[k],
        memberships := map m | m in db.memberships && db.memberships[m].budgetId !in bs :: db.memberships[m],
        transactions := map t | t in db.transactions && db.transactions[t].budgetId !in bs :: db.transactions[t],
        recurring := map t | t in db.recurring && db.recurring[t].budgetId !in bs :: db.recurring[t])
  }

  /** `DELETE FROM budgets WHERE id = b`, with its cascades. */
  function WithoutBudget(db: Db, b: Id): (r: Db)
    ensures b !in r.budgets
    ensures forall k :: k in r.budgets <==> k in db.budgets && k != b
    ensures forall m :: m in r.memberships <==> m in db.memberships && db.memberships[m].budgetId != b
    ensures forall t :: t in r.transactions <==> t in db.transactions && db.transactions[t].budgetId != b
    ensures forall t :: t in r.recurring <==> t in db.recurring && db.recurring[t].budgetId != b
    ensures r.users == db.users && r.categories == db.categories && r.subcategories == db.subcategories
  {
    WithoutBudgets(db, {b})
  }

  /** Cascading two sets of budgets one after the other is cascading their union. */
  lemma WithoutBudgetsTwice(db: Db, a: set<Id>, b: set<Id>)
    ensures WithoutBudgets(WithoutBudgets(db, a), b) == WithoutBudgets(db, a + b)
  {
    var l := WithoutBudgets(WithoutBudgets(db, a), b);
    var r := WithoutBudgets(db, a + b);
    assert l.budgets == r.budgets;
    assert l.memberships == r.memberships;
    assert l.transactions == r.transactions;
    assert l.recurring == r.recurring;
  }

  /** Deleting an explicit set of user_budgets rows, with no trigger. */
  function WithoutRows(db: Db, rows: set<Id>): (r: Db)
    ensures forall m :: m in r.memberships <==> m in db.memberships && m !in rows
    ensures r == db.(memberships := r.memberships)
  {
    db.(memberships := map m | m in db.memberships && m !in rows :: db.memberships[m])
  }

  lemma WithoutRowsTwice(db: Db, a: set<Id>, b: set<Id>)
    ensures WithoutRows(WithoutRows(db, a), b) == WithoutRows(db, a + b)
  {
    assert WithoutRows(WithoutRows(db, a), b).memberships == WithoutRows(db, a + b).memberships;
  }

  lemma WithoutRowsOne(db: Db, m: Id)
    ensures db.(memberships := db.memberships - {m}) == WithoutRows(db, {m})
  {
    assert db.memberships - {m} == WithoutRows(db, {m}).memberships;
  }

  /** Row deletes and budget cascades commute. */
  lemma WithoutRowsBudgetsCommute(db: Db, rows: set<Id>, bs: set<Id>)
    ensures WithoutRows(WithoutBudgets(db, bs), rows) == WithoutBudgets(WithoutRows(db, rows), bs)
  {
    var l := WithoutRows(WithoutBudgets(db, bs), rows);
    var r := WithoutBudgets(WithoutRows(db, rows), bs);
    assert l.budgets == r.budgets;
    assert l.memberships == r.memberships;
    assert l.transactions == r.transactions;
    assert l.recurring == r.recurring;
  }

  /** Deleting rows of budgets that the cascade removes anyway changes nothing. */
  lemma WithoutRowsAbsorbed(db: Db, rows: set<Id>, bs: set<Id>)
    requires forall m :: m in rows && m in db.memberships ==> db.memberships[m].budgetId in bs
    ensures WithoutBudgets(WithoutRows(db, rows), bs) == WithoutBudgets(db, bs)
  {
    assert WithoutBudgets(WithoutRows(db, rows), bs).memberships == WithoutBudgets(db, bs).memberships;
  }

  /** Deleting a category deletes its subcategories (models.py:151,157). */
  function WithoutCategory(db: Db, c: Id): (r: Db)
    ensures forall k :: k in r.categories <==> k in db.categories && k != c
    ensures forall s :: s in r.subcategories <==> s in db.subcategories && db.subcategories[s].categoryId != c
    ensures r.users == db.users && r.budgets == db.budgets && r.memberships == db.memberships
    ensures r.transactions == db.transactions && r.recurring == db.recurring
  {
    db.(categories := db.categories - {c},
        subcategories := map s | s in db.subcategories && db.subcategories[s].categoryId != c :: db.subcategories[s])
  }

  /** A budget cascade leaves every row of other budgets exactly as it was. */
  lemma WithoutBudgetKeepsOthers(db: Db, b: Id)
    ensures forall m :: m in db.memberships && db.memberships[m].budgetId != b ==>
      WithoutBudget(db, b).memberships[m] == db.memberships[m]
    ensures forall k :: k in db.budgets && k != b ==> WithoutBudget(db, b).budgets[k] == db.budgets[k]
    ensures forall k :: k != b ==> AdminRows(WithoutBudget(db, b), k) == AdminRows(db, k)
  {
  }

  lemma WithoutBudgetValid(db: Db, b: Id)
    requires Valid(db)
    ensures Valid(WithoutBudget(db, b))
    ensures EveryBudgetHasAdmin(db) ==> EveryBudgetHasAdmin(WithoutBudget(db, b))
  {
    WithoutBudgetKeepsOthers(db, b);
  }

  lemma WithoutCategoryValid(db: Db, c: Id)
    requires Valid(db)
    ensures Valid(WithoutCategory(db, c))
  {
  }
}
