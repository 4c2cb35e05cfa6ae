/** The SQLAlchemy session over the PostgreSQL database, as one mutable
    object whose fields are the tables. Inserts check the foreign keys and
    unique columns the way a commit does (an `ok` of false is the
    IntegrityError, with nothing stored). Deleting a membership row runs the
    after-delete trigger; deleting a budget or a user runs the ORM cascade,
    one membership row at a time. */
module Stores {
  import opened Common
  import opened Models
  import opened Tables
  import opened AdminGuard

  class Store {
    var users: map<Id, User>
    var budgets: map<Id, Budget>
    var memberships: map<Id, Membership>
    var transactions: map<Id, Transaction>
    var recurring: map<Id, Recurring>
    var categories: map<Id, Category>
    var subcategories: map<Id, Subcategory>

    /** The database the session currently sees. */
    function State(): Db
      reads this
    {
      Db(users, budgets, memberships, transactions, recurring, categories, subcategories)
    }

    constructor ()
      ensures State() == EmptyDb
    {
      users, budgets, memberships, transactions := map[], map[], map[], map[];
      recurring, categories, subcategories := map[], map[], map[];
    }

    // ------------------------------------------------------------ inserts

    /** Add and commit a users row; the unique columns reject a clash. */
    method InsertUser(id: Id, u: User) returns (ok: bool)
      requires id !in users
      modifies this
      ensures ok == !((u.email.Some? && EmailTaken(old(users), u.email.value, None))
                      || (u.phone.Some? && PhoneTaken(old(users), u.phone.value, None))
                      || (u.googleId.Some? && GoogleIdTaken(old(users), u.googleId.value, None)))
      ensures State() == if ok then old(State()).(users := old(users)[id := u]) else old(State())
    {
      ok := !((u.email.Some? && EmailTaken(users, u.email.value, None))
              || (u.phone.Some? && PhoneTaken(users, u.phone.value, None))
              || (u.googleId.Some? && GoogleIdTaken(users, u.googleId.value, None)));
      if ok {
        users := users[id := u];
      }
    }

    /** Write back a changed users row; the unique columns reject a clash
        with another user. */
    method UpdateUserRow(id: Id, u: User) returns (ok: bool)
      requires id in users
      modifies this
      ensures ok == !((u.email.Some? && EmailTaken(old(users), u.email.value, Some(id)))
                      || (u.phone.Some? && PhoneTaken(old(users), u.phone.value, Some(id)))
                      || (u.googleId.Some? && GoogleIdTaken(old(users), u.googleId.value, Some(id))))
      ensures State() == if ok then old(State()).(users := old(users)[id := u]) else old(State())
    {
      ok := !((u.email.Some? && EmailTaken(users, u.email.value, Some(id)))
              || (u.phone.Some? && PhoneTaken(users, u.phone.value, Some(id)))
              || (u.googleId.Some? && GoogleIdTaken(users, u.googleId.value, Some(id))));
      if ok {
        users := users[id := u];
      }
    }

    method PutBudget(id: Id, b: Budget)
      modifies this
      ensures State() == old(State()).(budgets := old(budgets)[id := b])
    {
      budgets := budgets[id := b];
    }

    /** Add a user_budgets row; its foreign keys must resolve. */
    method InsertMembership(id: Id, m: Membership) returns (ok: bool)
      requires id !in memberships
      modifies this
      ensures ok == (m.userId in old(users) && m.budgetId in old(budgets))
      ensures State() == if ok then old(State()).(memberships := old(memberships)[id := m]) else old(State())
    {
      ok := m.userId in users && m.budgetId in budgets;
      if ok {
        memberships := memberships[id := m];
      }
    }

    /** Write back a changed user_budgets row (an UPDATE, which the delete
        trigger does not see). */
    method PutMembership(id: Id, m: Membership)
      requires id in memberships
      modifies this
      ensures State() == old(State()).(memberships := old(memberships)[id := m])
    {
      memberships := memberships[id := m];
    }

    method InsertTransaction(id: Id, t: Transaction) returns (ok: bool)
      requires id !in transactions
      modifies this
      ensures ok == (t.userId in old(users) && t.budgetId in old(budgets))
      ensures State() == if ok then old(State()).(transactions := old(transactions)[id := t]) else old(State())
    {
      ok := t.userId in users && t.budgetId in budgets;
      if ok {
        transactions := transactions[id := t];
      }
    }

    method PutTransaction(id: Id, t: Transaction) returns (ok: bool)
      requires id in transactions
      modifies this
      ensures ok == (t.userId in old(users) && t.budgetId in old(budgets))
      ensures State() == if ok then old(State()).(transactions := old(transactions)[id := t]) else old(State())
    {
      ok := t.userId in users && t.budgetId in budgets;
      if ok {
        transactions := transactions[id := t];
      }
    }

    method InsertRecurring(id: Id, r: Recurring) returns (ok: bool)
      requires id !in recurring
      modifies this
      ensures ok == (r.userId in old(users) && r.budgetId in old(budgets))
      ensures State() == if ok then old(State()).(recurring := old(recurring)[id := r]) else old(State())
    {
      ok := r.userId in users && r.budgetId in budgets;
      if ok {
        recurring := recurring[id := r];
      }
    }

    method PutRecurring(id: Id, r: Recurring) returns (ok: bool)
      requires id in recurring
      modifies this
      ensures ok == (r.userId in old(users) && r.budgetId in old(budgets))
      ensures State() == if ok then old(State()).(recurring := old(recurring)[id := r]) else old(State())
    {
      ok := r.userId in users && r.budgetId in budgets;
      if ok {
        recurring := recurring[id := r];
      }
    }

    // ------------------------------------------------------------ deletes

    /** `DELETE FROM budgets WHERE id = b` with its ON DELETE CASCADE rules. */
    method CascadeBudget(b: Id)
      modifies this
      ensures State() == WithoutBudget(old(State()), b)
    {
      var gone := {b};
      budgets := map k | k in budgets && k !in gone :: budgets[k];
      memberships := map m | m in memberships && memberships[m].budgetId !in gone :: memberships[m];
      transactions := map t | t in transactions && transactions[t].budgetId !in gone :: transactions[t];
      recurring := map t | t in recurring && recurring[t].budgetId !in gone :: recurring[t];
    }

    /** `DELETE FROM user_budgets WHERE id = m`, followed by the row-level
        AFTER DELETE trigger delete_budget_on_last_admin_removal. */
    method DeleteMembership(m: Id)
      modifies this
      ensures State() == DeleteMembershipRow(old(State()), m)
    {
      if m in memberships {
        var gone := memberships[m];
        memberships := memberships - {m};
        // the trigger body, with OLD = gone
        if gone.role == Admin {
          var adminLeft := exists k :: k in memberships && memberships[k].budgetId == gone.budgetId
                                       && memberships[k].role == Admin;
          if !adminLeft {
            assert !HasAdmin(State(), gone.budgetId);
            CascadeBudget(gone.budgetId);
          } else {
            assert HasAdmin(State(), gone.budgetId);
          }
        }
      }
    }

    /** Delete the rows `rows` one at a time, each with its trigger, in the
        order the ORM happens to flush them. */
    method DeleteMembershipRows(rows: set<Id>)
      requires RefIntegrity(State())
      requires rows <= memberships.Keys
      modifies this
      ensures State() == AfterMembershipDeletes(old(State()), rows)
    {
      ghost var db0 := State();
      NothingDeletedYet(db0);
      assert rows - rows == {};
      var todo := rows;
      while todo != {}
        invariant todo <= rows
        invariant State() == AfterMembershipDeletes(db0, rows - todo)
        decreases todo
      {
        var m :| m in todo;
        DeleteStepFrom(db0, rows, todo, m);
        DeleteMembership(m);
        todo := todo - {m};
      }
      assert rows - todo == rows;
    }

    /** `session.delete(budget)`: the ORM deletes the budget's membership
        rows first, then the rest of its rows and finally the budget (the
        row may already be gone if the trigger took it). */
    method DeleteBudget(b: Id)
      requires RefIntegrity(State())
      modifies this
      ensures State() == WithoutBudget(old(State()), b)
    {
      ghost var db0 := State();
      var rows := set m | m in memberships && memberships[m].budgetId == b;
      assert rows == BudgetRows(db0, b);
      DeleteMembershipRows(rows);
      CascadeBudget(b);
      OrmBudgetDeleteIsCascade(db0, b);
    }

    /** `session.delete(user)`: the ORM deletes the user's membership rows
        one at a time (each firing the trigger), then the authored
        transactions and recurring rows, then the user. */
    method DeleteUser(u: Id)
      requires RefIntegrity(State())
      modifies this
      ensures State() == UserDeleted(old(State()), u)
    {
      var rows := set m | m in memberships && memberships[m].userId == u;
      assert rows == UserRows(State(), u);
      DeleteMembershipRows(rows);
      transactions := map t | t in transactions && transactions[t].userId != u :: transactions[t];
      recurring := map t | t in recurring && recurring[t].userId != u :: recurring[t];
      users := users - {u};
    }

    method DeleteTransaction(t: Id)
      modifies this
      ensures State() == old(State()).(transactions := old(transactions) - {t})
    {
      transactions := transactions - {t};
    }

    method DeleteRecurring(t: Id)
      modifies this
      ensures State() == old(State()).(recurring := old(recurring) - {t})
    {
      recurring := recurring - {t};
    }

    /** Deleting a category with its ORM cascade to its subcategories. */
    method DeleteCategory(c: Id)
      modifies this
      ensures State() == WithoutCategory(old(State()), c)
    {
      subcategories := map s | s in subcategories && subcategories[s].categoryId != c :: subcategories[s];
      categories := categories - {c};
    }
  }
}
