/** The after-delete hook on user_budgets, delete_budget_on_last_admin_removal
    (alembic revision b2cb4a921abe): after a membership row is deleted, if it
    was an admin row and no other admin row of its budget remains, the budget
    is deleted, and with it (ON DELETE CASCADE) the budget's remaining
    memberships, transactions and recurring transactions.

    The second half of the module describes the effect of deleting a whole
    SET of membership rows one at a time, as the ORM does when it cascades a
    user or budget delete: `AfterMembershipDeletes` states the outcome
    without reference to the order, and `DeleteStep` shows that one more
    row-with-trigger step moves from one such state to the next. */
module AdminGuard {
  import opened Common
  import opened Models
  import opened Tables

  /** One row deleted from user_budgets, then the trigger run on that row
      (OLD is the deleted row). Deleting an absent row deletes nothing and
      fires nothing. */
  function DeleteMembershipRow(db: Db, m: Id): (r: Db)
    ensures m !in r.memberships
    ensures r.users == db.users && r.categories == db.categories && r.subcategories == db.subcategories
  {
    if m !in db.memberships then db
    else
      var row := db.memberships[m];
      var db1 := db.(memberships := db.memberships - {m});
      if row.role == Admin && !HasAdmin(db1, row.budgetId) then WithoutBudget(db1, row.budgetId)
      else db1
  }

  /** The other admins of the deleted row's budget (the trigger's NOT EXISTS
      subquery, `id != OLD.id`). */
  lemma OtherAdmins(db: Db, m: Id)
    requires m in db.memberships
    ensures AdminRows(db.(memberships := db.memberships - {m}), db.memberships[m].budgetId)
         == AdminRows(db, db.memberships[m].budgetId) - {m}
  {
  }

  /** Deleting a row that is not an admin row never deletes a budget: only
      that row goes. */
  lemma NonAdminDeleteKeepsBudgets(db: Db, m: Id)
    requires m in db.memberships && db.memberships[m].role != Admin
    ensures DeleteMembershipRow(db, m) == db.(memberships := db.memberships - {m})
    ensures DeleteMembershipRow(db, m).budgets == db.budgets
  {
  }

  /** Deleting an admin row while another admin row of that budget exists
      leaves the budget in place: only that row goes. */
  lemma OtherAdminKeepsBudget(db: Db, m: Id, other: Id)
    requires m in db.memberships && db.memberships[m].role == Admin
    requires other in AdminRows(db, db.memberships[m].budgetId) && other != m
    ensures DeleteMembershipRow(db, m) == db.(memberships := db.memberships - {m})
    ensures db.memberships[m].budgetId in db.budgets ==> db.memberships[m].budgetId in DeleteMembershipRow(db, m).budgets
  {
    OtherAdmins(db, m);
    assert other in AdminRows(db.(memberships := db.memberships - {m}), db.memberships[m].budgetId);
  }

  /** Deleting the only admin row of a budget deletes that budget together
      with all its memberships, transactions and recurring transactions. */
  lemma LastAdminDeletesBudget(db: Db, m: Id)
    requires m in db.memberships
    requires AdminRows(db, db.memberships[m].budgetId) == {m}
    ensures var b := db.memberships[m].budgetId;
      DeleteMembershipRow(db, m) == WithoutBudget(db.(memberships := db.memberships - {m}), b)
      && b !in DeleteMembershipRow(db, m).budgets
      && BudgetRows(DeleteMembershipRow(db, m), b) == {}
  {
    OtherAdmins(db, m);
  }

  /** The hook deletes no budget but OLD.budget_id, and leaves every other
      budget, its rows and its admins exactly as they were. */
  lemma DeletesAtMostThatBudget(db: Db, m: Id)
    requires m in db.memberships
    ensures var b := db.memberships[m].budgetId; var r := DeleteMembershipRow(db, m);
      (forall k :: k in db.budgets && k != b ==> k in r.budgets && r.budgets[k] == db.budgets[k])
      && r.budgets.Keys <= db.budgets.Keys
      && (forall k :: k != b ==> AdminRows(r, k) == AdminRows(db, k))
  {
    var b := db.memberships[m].budgetId;
    var db1 := db.(memberships := db.memberships - {m});
    forall k | k != b ensures AdminRows(db1, k) == AdminRows(db, k) {
    }
    if db.memberships[m].role == Admin && !HasAdmin(db1, b) {
      WithoutBudgetKeepsOthers(db1, b);
    }
  }

  /** The invariant the hook protects: after any membership delete, every
      budget that still exists and had an admin still has one. */
  lemma DeletePreservesAdmins(db: Db, m: Id)
    ensures forall k :: k in DeleteMembershipRow(db, m).budgets && HasAdmin(db, k) ==>
      HasAdmin(DeleteMembershipRow(db, m), k)
  {
    if m in db.memberships {
      var b := db.memberships[m].budgetId;
      var db1 := db.(memberships := db.memberships - {m});
      DeletesAtMostThatBudget(db, m);
      OtherAdmins(db, m);
      if db.memberships[m].role == Admin && !HasAdmin(db1, b) {
        assert b !in DeleteMembershipRow(db, m).budgets;
      } else {
        assert DeleteMembershipRow(db, m) == db1;
        if b in db1.budgets && HasAdmin(db, b) {
          var a :| a in AdminRows(db, b);
          if a == m {
            assert db.memberships[m].role == Admin;
            assert HasAdmin(db1, b);
          } else {
            assert a in AdminRows(db1, b);
          }
        }
      }
    }
  }

  lemma DeleteMembershipRowValid(db: Db, m: Id)
    requires Valid(db)
    ensures Valid(DeleteMembershipRow(db, m))
    ensures EveryBudgetHasAdmin(db) ==> EveryBudgetHasAdmin(DeleteMembershipRow(db, m))
  {
    DeletePreservesAdmins(db, m);
    if m in db.memberships {
      var db1 := db.(memberships := db.memberships - {m});
      if db.memberships[m].role == Admin && !HasAdmin(db1, db.memberships[m].budgetId) {
        WithoutBudgetValid(db1, db.memberships[m].budgetId);
      }
    }
  }

  // ------------------------------------------- deleting a set of rows

  /** The budgets that deleting the rows `done` (starting from `db0`) takes
      away: those that had admin rows, all of them among `done`. */
  function Doomed(db0: Db, done: set<Id>): (ds: set<Id>)
    ensures forall b :: b in ds <==> b in db0.budgets && AdminRows(db0, b) != {} && AdminRows(db0, b) <= done
  {
    set b | b in db0.budgets && AdminRows(db0, b) != {} && AdminRows(db0, b) <= done
  }

  /** The state after the rows `done` have been deleted from `db0` one by
      one, each followed by the trigger, in any order. */
  function AfterMembershipDeletes(db0: Db, done: set<Id>): (r: Db)
    ensures forall m :: m in r.memberships <==>
      m in db0.memberships && m !in done && db0.memberships[m].budgetId !in Doomed(db0, done)
    ensures forall b :: b in r.budgets <==> b in db0.budgets && b !in Doomed(db0, done)
    ensures forall t :: t in r.transactions <==>
      t in db0.transactions && db0.transactions[t].budgetId !in Doomed(db0, done)
    ensures forall t :: t in r.recurring <==>
      t in db0.recurring && db0.recurring[t].budgetId !in Doomed(db0, done)
    ensures r.users == db0.users && r.categories == db0.categories && r.subcategories == db0.subcategories
    ensures forall m :: m in r.memberships ==> r.memberships[m] == db0.memberships[m]
    ensures forall t :: t in r.transactions ==> r.transactions[t] == db0.transactions[t]
    ensures forall t :: t in r.recurring ==> r.recurring[t] == db0.recurring[t]
  {
    WithoutBudgets(WithoutRows(db0, done), Doomed(db0, done))
  }

  lemma NothingDeletedYet(db0: Db)
    ensures AfterMembershipDeletes(db0, {}) == db0
  {
    var r := AfterMembershipDeletes(db0, {});
    assert Doomed(db0, {}) == {};
    assert r.budgets == db0.budgets;
    assert r.memberships == db0.memberships;
    assert r.transactions == db0.transactions;
    assert r.recurring == db0.recurring;
  }

  /** Adding the row `m` to the deleted rows can doom its own budget and no other. */
  lemma DoomedGrowth(db0: Db, done: set<Id>, m: Id)
    requires m in db0.memberships
    ensures Doomed(db0, done) <= Doomed(db0, done + {m}) <= Doomed(db0, done) + {db0.memberships[m].budgetId}
  {
    forall k | k in Doomed(db0, done + {m}) && k != db0.memberships[m].budgetId
      ensures k in Doomed(db0, done)
    {
      assert m !in AdminRows(db0, k);
    }
  }

  /** Deleting the row `m` (no trigger) from the state after `done`. */
  lemma RowStep(db0: Db, done: set<Id>, m: Id)
    ensures var cur := AfterMembershipDeletes(db0, done);
      cur.(memberships := cur.memberships - {m})
        == WithoutBudgets(WithoutRows(db0, done + {m}), Doomed(db0, done))
  {
    var cur := AfterMembershipDeletes(db0, done);
    WithoutRowsOne(cur, m);
    WithoutRowsBudgetsCommute(WithoutRows(db0, done), {m}, Doomed(db0, done));
    WithoutRowsTwice(db0, done, {m});
  }

  /** The step when the row's budget is already gone: the row went with it. */
  lemma StepOnDoomedBudget(db0: Db, done: set<Id>, m: Id)
    requires m in db0.memberships && m !in done
    requires db0.memberships[m].budgetId in Doomed(db0, done)
    ensures DeleteMembershipRow(AfterMembershipDeletes(db0, done), m) == AfterMembershipDeletes(db0, done + {m})
  {
    DoomedGrowth(db0, done, m);
    var cur := AfterMembershipDeletes(db0, done);
    assert Doomed(db0, done + {m}) == Doomed(db0, done);
    assert m !in cur.memberships;
    assert cur.memberships - {m} == cur.memberships;
    RowStep(db0, done, m);
  }

  /** The step when the row is the last admin row of its budget: the trigger
      deletes the budget. */
  lemma StepOnLastAdmin(db0: Db, done: set<Id>, m: Id)
    requires m in db0.memberships && m !in done && db0.memberships[m].role == Admin
    requires db0.memberships[m].budgetId in db0.budgets
    requires db0.memberships[m].budgetId !in Doomed(db0, done)
    requires AdminRows(db0, db0.memberships[m].budgetId) <= done + {m}
    ensures DeleteMembershipRow(AfterMembershipDeletes(db0, done), m) == AfterMembershipDeletes(db0, done + {m})
  {
    var b := db0.memberships[m].budgetId;
    DoomedGrowth(db0, done, m);
    assert m in AdminRows(db0, b);
    assert Doomed(db0, done + {m}) == Doomed(db0, done) + {b};
    var cur := AfterMembershipDeletes(db0, done);
    var cur1 := cur.(memberships := cur.memberships - {m});
    assert AdminRows(cur1, b) == {} by {
      assert forall a :: a in AdminRows(cur1, b) ==> a in AdminRows(db0, b) && a !in done + {m};
    }
    assert DeleteMembershipRow(cur, m) == WithoutBudget(cur1, b);
    RowStep(db0, done, m);
    WithoutBudgetsTwice(WithoutRows(db0, done + {m}), Doomed(db0, done), {b});
  }

  /** The step when the row's budget keeps an admin row (or the row is not an
      admin row): only the row goes. */
  lemma StepKeepingBudget(db0: Db, done: set<Id>, m: Id)
    requires m in db0.memberships && m !in done
    requires db0.memberships[m].budgetId !in Doomed(db0, done)
    requires db0.memberships[m].role != Admin || !(AdminRows(db0, db0.memberships[m].budgetId) <= done + {m})
    ensures DeleteMembershipRow(AfterMembershipDeletes(db0, done), m) == AfterMembershipDeletes(db0, done + {m})
  {
    var b := db0.memberships[m].budgetId;
    DoomedGrowth(db0, done, m);
    assert b !in Doomed(db0, done + {m}) by {
      if db0.memberships[m].role != Admin {
        assert m !in AdminRows(db0, b);
      }
    }
    assert Doomed(db0, done + {m}) == Doomed(db0, done);
    var cur := AfterMembershipDeletes(db0, done);
    var cur1 := cur.(memberships := cur.memberships - {m});
    if db0.memberships[m].role == Admin {
      var a :| a in AdminRows(db0, b) && a !in done + {m};
      assert a in AdminRows(cur1, b);
    }
    assert DeleteMembershipRow(cur, m) == cur1;
    RowStep(db0, done, m);
  }

  /** One more row deleted, with its trigger, moves the characterisation
      from `done` to `done + {m}`; hence the outcome does not depend on the
      order in which the rows are deleted. */
  lemma DeleteStep(db0: Db, done: set<Id>, m: Id)
    requires RefIntegrity(db0)
    requires m in db0.memberships && m !in done
    ensures DeleteMembershipRow(AfterMembershipDeletes(db0, done), m) == AfterMembershipDeletes(db0, done + {m})
  {
    var b := db0.memberships[m].budgetId;
    if b in Doomed(db0, done) {
      StepOnDoomedBudget(db0, done, m);
    } else if db0.memberships[m].role == Admin && AdminRows(db0, b) <= done + {m} {
      StepOnLastAdmin(db0, done, m);
    } else {
      StepKeepingBudget(db0, done, m);
    }
  }

  /** `DeleteStep` in the shape a loop over the rows still to delete uses. */
  lemma DeleteStepFrom(db0: Db, rows: set<Id>, todo: set<Id>, m: Id)
    requires RefIntegrity(db0) && rows <= db0.memberships.Keys
    requires todo <= rows && m in todo
    ensures DeleteMembershipRow(AfterMembershipDeletes(db0, rows - todo), m)
         == AfterMembershipDeletes(db0, rows - (todo - {m}))
  {
    var done := rows - todo;
    var done' := rows - (todo - {m});
    assert done + {m} == done';
    DeleteStep(db0, done, m);
  }

  // ------------------------------------- whole-entity deletes via the ORM

  /** `db.delete(budget)`: the ORM cascade deletes the budget's membership
      rows one by one (each firing the trigger), then its remaining
      transactions and recurring rows and the budget row. */
  function OrmBudgetDelete(db0: Db, b: Id): Db {
    WithoutBudget(AfterMembershipDeletes(db0, BudgetRows(db0, b)), b)
  }

  /** Whatever the trigger does along the way, the ORM budget delete ends
      in the plain cascade of models.py:75-77. */
  lemma OrmBudgetDeleteIsCascade(db0: Db, b: Id)
    ensures OrmBudgetDelete(db0, b) == WithoutBudget(db0, b)
  {
    var rows := BudgetRows(db0, b);
    var d := Doomed(db0, rows);
    assert d <= {b} by {
      forall k | k in d ensures k == b {
        var a :| a in AdminRows(db0, k);
      }
    }
    WithoutBudgetsTwice(WithoutRows(db0, rows), d, {b});
    assert d + {b} == {b};
    WithoutRowsAbsorbed(db0, rows, {b});
  }

  /** `db.delete(user)`: the ORM cascade deletes the user's membership rows
      one by one (each firing the trigger), then the transactions and
      recurring rows the user authored, then the user row. */
  function UserDeleted(db0: Db, u: Id): (r: Db)
    ensures u !in r.users && r.users == db0.users - {u}
  {
    var db1 := AfterMembershipDeletes(db0, UserRows(db0, u));
    db1.(users := db1.users - {u},
         transactions := map t | t in db1.transactions && db1.transactions[t].userId != u :: db1.transactions[t],
         recurring := map t | t in db1.recurring && db1.recurring[t].userId != u :: db1.recurring[t])
  }

  /** Deleting a user removes every membership, transaction and recurring
      transaction carrying that user_id (models.py:58-60). */
  lemma UserDeletedCascades(db0: Db, u: Id)
    ensures var r := UserDeleted(db0, u);
      UserRows(r, u) == {}
      && (forall t :: t in r.transactions ==> r.transactions[t].userId != u)
      && (forall t :: t in r.recurring ==> r.recurring[t].userId != u)
  {
  }

  /** The budgets a user delete takes away are exactly those whose every
      admin row belonged to that user; all other budgets stay unchanged. */
  lemma UserDeletedBudgets(db0: Db, u: Id)
    ensures var r := UserDeleted(db0, u);
      forall b :: b in r.budgets <==>
        (b in db0.budgets
         && !(AdminRows(db0, b) != {} && forall a :: a in AdminRows(db0, b) ==> db0.memberships[a].userId == u))
  {
    var rows := UserRows(db0, u);
    forall b | b in db0.budgets
      ensures (AdminRows(db0, b) <= rows) <==> forall a :: a in AdminRows(db0, b) ==> db0.memberships[a].userId == u
    {
    }
  }

  /** A user delete keeps the integrity constraints, and every budget it
      does not take away keeps an admin. */
  lemma UserDeletedValid(db0: Db, u: Id)
    requires Valid(db0)
    ensures Valid(UserDeleted(db0, u))
    ensures forall b :: b in UserDeleted(db0, u).budgets && HasAdmin(db0, b) ==> HasAdmin(UserDeleted(db0, u), b)
    ensures EveryBudgetHasAdmin(db0) ==> EveryBudgetHasAdmin(UserDeleted(db0, u))
  {
    UserDeletedKeepsValid(db0, u);
    UserDeletedKeepsAdmins(db0, u);
  }

  lemma UserDeletedKeepsValid(db0: Db, u: Id)
    requires Valid(db0)
    ensures Valid(UserDeleted(db0, u))
  {
    var r := UserDeleted(db0, u);
    UserDeletedMembershipRefs(db0, u);
    UserDeletedRowRefs(db0, u);
    assert r.subcategories == db0.subcategories && r.categories == db0.categories;
  }

  lemma UserDeletedMembershipRefs(db0: Db, u: Id)
    requires Valid(db0)
    ensures var r := UserDeleted(db0, u);
      forall m :: m in r.memberships ==> r.memberships[m].userId in r.users && r.memberships[m].budgetId in r.budgets
  {
    var db1 := AfterMembershipDeletes(db0, UserRows(db0, u));
    assert UserDeleted(db0, u).memberships == db1.memberships;
  }

  lemma UserDeletedRowRefs(db0: Db, u: Id)
    requires Valid(db0)
    ensures var r := UserDeleted(db0, u);
      && (forall t :: t in r.transactions ==> r.transactions[t].userId in r.users && r.transactions[t].budgetId in r.budgets)
      && (forall t :: t in r.recurring ==> r.recurring[t].userId in r.users && r.recurring[t].budgetId in r.budgets)
  {
  }

  /** A budget that survives keeps an admin row: the doomed budgets are
      exactly those whose every admin row was the user's. */
  lemma UserDeletedKeepsAdmins(db0: Db, u: Id)
    requires Valid(db0)
    ensures forall b :: b in UserDeleted(db0, u).budgets && HasAdmin(db0, b) ==> HasAdmin(UserDeleted(db0, u), b)
  {
    var rows := UserRows(db0, u);
    var r := UserDeleted(db0, u);
    var d := Doomed(db0, rows);
    forall b | b in r.budgets && HasAdmin(db0, b) ensures HasAdmin(r, b) {
      assert b !in d;
      var a :| a in AdminRows(db0, b) && a !in rows;
      assert a in AdminRows(r, b);
    }
  }
}
