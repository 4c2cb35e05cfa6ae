/** TransactionService of app/services/transaction_service.py, with the
    edit-access gate that the create endpoints put in front of it
    (app/api/v1/endpoints/transactions.py). Transactions are visible
    through a membership of any role; recurring transactions are edited
    through an admin or editor membership. The store's cast of a date
    string is a parameter. */
module TransactionServices {
  import opened Common
  import opened Models
  import opened Tables
  import opened Stores
  import opened Sorting
  import opened BudgetServices
  import opened TransactionSchemas

  // ------------------------------------------------------ get_user_transaction

  /** get_user_transaction's filters: the id, a membership of the caller on
      the row's budget (any role, any budget status), and no deleted_at. */
  predicate Visible(db: Db, u: Id, t: Id) {
    t in db.transactions && IsMember(db, u, db.transactions[t].budgetId) && db.transactions[t].deletedAt.None?
  }

  function GetUserTransaction(db: Db, t: Id, u: Id): Option<Transaction> {
    if Visible(db, u, t) then Some(db.transactions[t]) else None
  }

  /** Any membership row of the caller on the budget shows a live
      transaction, a viewer's as well as an admin's and whatever the
      budget's status; a soft-deleted row or a caller without a membership
      sees nothing. */
  lemma GetUserTransactionScope(db: Db, t: Id, u: Id, m: Id)
    requires t in db.transactions
    ensures m in db.memberships && db.memberships[m].userId == u && db.memberships[m].budgetId == db.transactions[t].budgetId
            && db.transactions[t].deletedAt.None?
            ==> GetUserTransaction(db, t, u) == Some(db.transactions[t])
    ensures db.transactions[t].deletedAt.Some? ==> GetUserTransaction(db, t, u) == None
    ensures PairRows(db, u, db.transactions[t].budgetId) == {} ==> GetUserTransaction(db, t, u) == None
  {
    if m in db.memberships && db.memberships[m].userId == u && db.memberships[m].budgetId == db.transactions[t].budgetId {
      assert m in PairRows(db, u, db.transactions[t].budgetId);
    }
  }

  // -------------------------------------------------------------- create

  /** The row create_transaction inserts: the caller as author, every
      field from the body. */
  function CreatedTransaction(data: TransactionCreate, u: Id, now: Time): (t: Transaction)
    ensures t.userId == u && t.budgetId == data.budgetId && t.amount == data.amount
    ensures t.currency == data.currency && t.txType == data.txType && t.category == data.category
    ensures t.subcategory == data.subcategory && t.description == data.description
    ensures t.exchangeRate == data.exchangeRate && t.date == data.date
    ensures t.details == (if data.details.Some? then Some(JObj(data.details.value)) else None)
    ensures t.deletedAt == None && t.createdAt == now && t.updatedAt == now
  {
    NewTransaction(data.budgetId, u, data.amount, Some(data.currency), data.txType, data.category,
                   data.subcategory, data.description, Some(data.exchangeRate), data.date,
                   if data.details.Some? then Some(JObj(data.details.value)) else None, now)
  }

  /** The create gate admits admins and editors of active budgets only: a
      caller whose every row on the budget is a viewer row is refused, and
      so is everybody on a budget that is not active. */
  lemma CreateGate(db: Db, u: Id, b: Id)
    ensures (forall m :: m in PairRows(db, u, b) ==> db.memberships[m].role == Viewer) ==> !UserHasBudgetAccess(db, u, b)
    ensures b in db.budgets && db.budgets[b].status != Active ==> !UserHasBudgetAccess(db, u, b)
    ensures UserHasBudgetAccess(db, u, b) ==> b in db.budgets && IsMember(db, u, b)
  {
  }

  // ---------------------------------------------------------------- list

  /** The optional filters of list_user_transactions; an empty string is
      no filter, as `if budget_id:` reads it. */
  datatype TransactionFilter = TransactionFilter(
    budgetId: Option<string>, txType: Option<TransactionType>, category: Option<string>,
    startDate: Option<Date>, endDate: Option<Date>)

  const NoFilter := TransactionFilter(None, None, None, None, None)

  predicate MatchesFilter(t: Transaction, f: TransactionFilter) {
    (Truthy(f.budgetId) ==> t.budgetId == f.budgetId.value)
    && (f.txType.Some? ==> t.txType == f.txType.value)
    && (Truthy(f.category) ==> t.category == f.category.value)
    && (f.startDate.Some? ==> t.date >= f.startDate.value)
    && (f.endDate.Some? ==> t.date <= f.endDate.value)
  }

  /** The rows list_user_transactions selects: on a budget where the caller
      has a membership, matching every filter given. */
  function ListedTransactions(db: Db, u: Id, f: TransactionFilter): set<Id> {
    set t | t in db.transactions && IsMember(db, u, db.transactions[t].budgetId) && MatchesFilter(db.transactions[t], f)
  }

  /** Both ends of the date range are inclusive, and empty strings filter
      nothing. */
  lemma DateRangeInclusive(t: Transaction, start: Date, end: Date)
    ensures MatchesFilter(t, TransactionFilter(None, None, None, Some(start), Some(end))) <==> start <= t.date <= end
    ensures MatchesFilter(t, TransactionFilter(Some(""), None, Some(""), None, None))
    ensures MatchesFilter(t, TransactionFilter(None, None, None, Some(t.date), Some(t.date)))
  {
  }

  /** Unlike get, the listing ignores deleted_at as well as the role and
      the budget's status: without filters it holds exactly the rows of the
      caller's budgets. */
  lemma ListingScope(db: Db, u: Id, t: Id)
    ensures t in ListedTransactions(db, u, NoFilter) <==> t in db.transactions && PairRows(db, u, db.transactions[t].budgetId) != {}
    ensures t in db.transactions && db.transactions[t].deletedAt.Some? && IsMember(db, u, db.transactions[t].budgetId)
            ==> t in ListedTransactions(db, u, NoFilter) && GetUserTransaction(db, t, u) == None
  {
  }

  function BudgetOf(txs: map<Id, Transaction>, t: Id): Id {
    if t in txs then txs[t].budgetId else ""
  }

  function DateOf(txs: map<Id, Transaction>, t: Id): Date {
    if t in txs then txs[t].date else 0
  }

  /** ORDER BY budget_id ASC, date DESC. */
  function ByBudgetThenDate(txs: map<Id, Transaction>): (Id, Id) -> bool {
    (a, b) => (BudgetOf(txs, a) != BudgetOf(txs, b) && LexLe(BudgetOf(txs, a), BudgetOf(txs, b)))
              || (BudgetOf(txs, a) == BudgetOf(txs, b) && DateOf(txs, a) >= DateOf(txs, b))
  }

  lemma ByBudgetThenDateIsPreorder(txs: map<Id, Transaction>)
    ensures Total(ByBudgetThenDate(txs)) && Transitive(ByBudgetThenDate(txs))
  {
    var le := ByBudgetThenDate(txs);
    forall a, b ensures le(a, b) || le(b, a) {
      LexTotal(BudgetOf(txs, a), BudgetOf(txs, b));
    }
    forall a, b, c | le(a, b) && le(b, c) ensures le(a, c) {
      var x, y, z := BudgetOf(txs, a), BudgetOf(txs, b), BudgetOf(txs, c);
      if x != y && y != z {
        LexTransitive(x, y, z);
        if x == z {
          LexAntisymmetric(x, y);
        }
      }
    }
  }

  // -------------------------------------------------------------- update

  /** The transaction row while the patch is applied: the values assigned
      so far, whether a NOT NULL column was given None, and whether a date
      string failed the store's cast. */
  datatype TxDraft = TxDraft(row: Transaction, nulled: bool, badDate: bool)

  /** `setattr(transaction, field, value)`; amount, currency, type,
      category, exchange_rate and date are NOT NULL. */
  function SetTxField(d: TxDraft, f: TransactionField, castDate: string -> Option<Date>): TxDraft {
    match f
    case AmountField(v) => if v.Some? then d.(row := d.row.(amount := v.value)) else d.(nulled := true)
    case CurrencyField(v) => if v.Some? then d.(row := d.row.(currency := v.value)) else d.(nulled := true)
    case TypeField(v) => if v.Some? then d.(row := d.row.(txType := v.value)) else d.(nulled := true)
    case CategoryField(v) => if v.Some? then d.(row := d.row.(category := v.value)) else d.(nulled := true)
    case SubcategoryField(v) => d.(row := d.row.(subcategory := v))
    case DescriptionField(v) => d.(row := d.row.(description := v))
    case ExchangeRateField(v) => if v.Some? then d.(row := d.row.(exchangeRate := v.value)) else d.(nulled := true)
    case DateField(v) =>
      if v.None? then d.(nulled := true)
      else if v.value.DateValue? then d.(row := d.row.(date := v.value.d))
      else if castDate(v.value.s).Some? then d.(row := d.row.(date := castDate(v.value.s).value))
      else d.(badDate := true)
    case DetailsField(v) => d.(row := d.row.(details := if v.Some? then Some(JObj(v.value)) else None))
  }

  function SetTxFields(d: TxDraft, items: seq<TransactionField>, castDate: string -> Option<Date>): TxDraft
    decreases |items|
  {
    if items == [] then d else SetTxFields(SetTxField(d, items[0], castDate), items[1..], castDate)
  }

  lemma {:induction false} SetTxFieldsAppend(d: TxDraft, xs: seq<TransactionField>, ys: seq<TransactionField>,
                                             castDate: string -> Option<Date>)
    ensures SetTxFields(d, xs + ys, castDate) == SetTxFields(SetTxFields(d, xs, castDate), ys, castDate)
    decreases |xs|
  {
    if xs != [] {
      assert (xs + ys)[1..] == xs[1..] + ys;
      SetTxFieldsAppend(SetTxField(d, xs[0], castDate), xs[1..], ys, castDate);
    } else {
      assert xs + ys == ys;
    }
  }

  /** The committed outcome: a failed date cast is a DataError, a null in a
      NOT NULL column an IntegrityError; updated_at becomes now. */
  function CommitTx(d: TxDraft, now: Time): Result<Transaction> {
    if d.badDate then Err(DataError) else if d.nulled then Err(IntegrityError) else Ok(d.row.(updatedAt := now))
  }

  function Pick<T>(p: Patch<T>, current: T): T {
    if p.SetTo? then p.value else current
  }

  function PickNullable<T>(p: Patch<T>, current: Option<T>): Option<T> {
    match p
    case Unset => current
    case SetNull => None
    case SetTo(v) => Some(v)
  }

  /** The date a patch gives, when it gives a readable one. */
  function PatchedDate(p: Patch<DateInput>, current: Date, castDate: string -> Option<Date>): Date {
    match p
    case SetTo(DateValue(x)) => x
    case SetTo(DateText(s)) => if castDate(s).Some? then castDate(s).value else current
    case _ => current
  }

  /** The row update_user_transaction commits, stated field by field. */
  function PatchedTransaction(t: Transaction, u: TransactionUpdate, now: Time, castDate: string -> Option<Date>)
    : Result<Transaction>
  {
    if u.date.SetTo? && u.date.value.DateText? && castDate(u.date.value.s).None? then Err(DataError)
    else if u.amount.SetNull? || u.currency.SetNull? || u.txType.SetNull? || u.category.SetNull?
            || u.exchangeRate.SetNull? || u.date.SetNull? then Err(IntegrityError)
    else Ok(t.(amount := Pick(u.amount, t.amount), currency := Pick(u.currency, t.currency),
               txType := Pick(u.txType, t.txType), category := Pick(u.category, t.category),
               subcategory := PickNullable(u.subcategory, t.subcategory),
               description := PickNullable(u.description, t.description),
               exchangeRate := Pick(u.exchangeRate, t.exchangeRate),
               date := PatchedDate(u.date, t.date, castDate),
               details := match u.details case Unset => t.details case SetNull => None case SetTo(m) => Some(JObj(m)),
               updatedAt := now))
  }

  lemma SetTxFieldsOne(d: TxDraft, xs: seq<TransactionField>, castDate: string -> Option<Date>)
    requires |xs| <= 1
    ensures SetTxFields(d, xs, castDate) == if xs == [] then d else SetTxField(d, xs[0], castDate)
  {
    if xs != [] {
      assert xs[1..] == [];
    }
  }

  // One setattr per dumped field, as a function of the draft.
  function AmountSet(d: TxDraft, p: Patch<real>): TxDraft {
    d.(row := d.row.(amount := Pick(p, d.row.amount)), nulled := d.nulled || p.SetNull?)
  }
  function CurrencySet(d: TxDraft, p: Patch<string>): TxDraft {
    d.(row := d.row.(currency := Pick(p, d.row.currency)), nulled := d.nulled || p.SetNull?)
  }
  function TxTypeSet(d: TxDraft, p: Patch<TransactionType>): TxDraft {
    d.(row := d.row.(txType := Pick(p, d.row.txType)), nulled := d.nulled || p.SetNull?)
  }
  function CategorySet(d: TxDraft, p: Patch<string>): TxDraft {
    d.(row := d.row.(category := Pick(p, d.row.category)), nulled := d.nulled || p.SetNull?)
  }
  function SubcategorySet(d: TxDraft, p: Patch<string>): TxDraft {
    d.(row := d.row.(subcategory := PickNullable(p, d.row.subcategory)))
  }
  function DescriptionSet(d: TxDraft, p: Patch<string>): TxDraft {
    d.(row := d.row.(description := PickNullable(p, d.row.description)))
  }
  function ExchangeRateSet(d: TxDraft, p: Patch<real>): TxDraft {
    d.(row := d.row.(exchangeRate := Pick(p, d.row.exchangeRate)), nulled := d.nulled || p.SetNull?)
  }
  function DateSet(d: TxDraft, p: Patch<DateInput>, castDate: string -> Option<Date>): TxDraft {
    d.(row := d.row.(date := PatchedDate(p, d.row.date, castDate)), nulled := d.nulled || p.SetNull?,
       badDate := d.badDate || (p.SetTo? && p.value.DateText? && castDate(p.value.s).None?))
  }
  function DetailsSet(d: TxDraft, p: Patch<map<string, Json>>): TxDraft {
    d.(row := d.row.(details := match p case Unset => d.row.details case SetNull => None case SetTo(m) => Some(JObj(m))))
  }

  /** All nine setattr calls in the dump's order. */
  function TxApplied(t: Transaction, u: TransactionUpdate, castDate: string -> Option<Date>): TxDraft {
    DetailsSet(DateSet(ExchangeRateSet(DescriptionSet(SubcategorySet(CategorySet(TxTypeSet(CurrencySet(AmountSet(
      TxDraft(t, false, false), u.amount), u.currency), u.txType), u.category), u.subcategory), u.description),
      u.exchangeRate), u.date, castDate), u.details)
  }

  lemma TxAmountStep(d: TxDraft, u: TransactionUpdate, castDate: string -> Option<Date>)
    ensures SetTxFields(d, AmountItem(u), castDate) == AmountSet(d, u.amount)
  {
    SetTxFieldsOne(d, AmountItem(u), castDate);
  }

  lemma TxCurrencyStep(d: TxDraft, u: TransactionUpdate, castDate: string -> Option<Date>)
    ensures SetTxFields(d, CurrencyItem(u), castDate) == CurrencySet(d, u.currency)
  {
    SetTxFieldsOne(d, CurrencyItem(u), castDate);
  }

  lemma TxTxTypeStep(d: TxDraft, u: TransactionUpdate, castDate: string -> Option<Date>)
    ensures SetTxFields(d, TxTypeItem(u), castDate) == TxTypeSet(d, u.txType)
  {
    SetTxFieldsOne(d, TxTypeItem(u), castDate);
  }

  lemma TxCategoryStep(d: TxDraft, u: TransactionUpdate, castDate: string -> Option<Date>)
    ensures SetTxFields(d, CategoryItem(u), castDate) == CategorySet(d, u.category)
  {
    SetTxFieldsOne(d, CategoryItem(u), castDate);
  }

  lemma TxSubcategoryStep(d: TxDraft, u: TransactionUpdate, castDate: string -> Option<Date>)
    ensures SetTxFields(d, SubcategoryItem(u), castDate) == SubcategorySet(d, u.subcategory)
  {
    SetTxFieldsOne(d, SubcategoryItem(u), castDate);
  }

  lemma TxDescriptionStep(d: TxDraft, u: TransactionUpdate, castDate: string -> Option<Date>)
    ensures SetTxFields(d, DescriptionItem(u), castDate) == DescriptionSet(d, u.description)
  {
    SetTxFieldsOne(d, DescriptionItem(u), castDate);
  }

  lemma TxExchangeRateStep(d: TxDraft, u: TransactionUpdate, castDate: string -> Option<Date>)
    ensures SetTxFields(d, ExchangeRateItem(u), castDate) == ExchangeRateSet(d, u.exchangeRate)
  {
    SetTxFieldsOne(d, ExchangeRateItem(u), castDate);
  }

  lemma TxDateStep(d: TxDraft, u: TransactionUpdate, castDate: string -> Option<Date>)
    ensures SetTxFields(d, DateItem(u), castDate) == DateSet(d, u.date, castDate)
  {
    SetTxFieldsOne(d, DateItem(u), castDate);
  }

  lemma TxDetailsStep(d: TxDraft, u: TransactionUpdate, castDate: string -> Option<Date>)
    ensures SetTxFields(d, DetailsItem(u), castDate) == DetailsSet(d, u.details)
  {
    SetTxFieldsOne(d, DetailsItem(u), castDate);
  }

  /** The fold over nine consecutive pieces is the fold over each in turn:
      when each piece takes its draft to the next, the whole sequence takes
      the first draft to the last. */
  lemma SetTxFieldsSplit(d0: TxDraft, a: seq<TransactionField>, c: seq<TransactionField>, y: seq<TransactionField>,
                         g: seq<TransactionField>, s: seq<TransactionField>, e: seq<TransactionField>,
                         x: seq<TransactionField>, dt: seq<TransactionField>, dl: seq<TransactionField>,
                         castDate: string -> Option<Date>,
                         e1: TxDraft, e2: TxDraft, e3: TxDraft, e4: TxDraft, e5: TxDraft, e6: TxDraft,
                         e7: TxDraft, e8: TxDraft, e9: TxDraft)
    requires SetTxFields(d0, a, castDate) == e1 && SetTxFields(e1, c, castDate) == e2
    requires SetTxFields(e2, y, castDate) == e3 && SetTxFields(e3, g, castDate) == e4
    requires SetTxFields(e4, s, castDate) == e5 && SetTxFields(e5, e, castDate) == e6
    requires SetTxFields(e6, x, castDate) == e7 && SetTxFields(e7, dt, castDate) == e8
    requires SetTxFields(e8, dl, castDate) == e9
    ensures SetTxFields(d0, a + c + y + g + s + e + x + dt + dl, castDate) == e9
  {
    SetTxFieldsAppend(d0, a + c + y + g + s + e + x + dt, dl, castDate);
    SetTxFieldsAppend(d0, a + c + y + g + s + e + x, dt, castDate);
    SetTxFieldsAppend(d0, a + c + y + g + s + e, x, castDate);
    SetTxFieldsAppend(d0, a + c + y + g + s, e, castDate);
    SetTxFieldsAppend(d0, a + c + y + g, s, castDate);
    SetTxFieldsAppend(d0, a + c + y, g, castDate);
    SetTxFieldsAppend(d0, a + c, y, castDate);
    SetTxFieldsAppend(d0, a, c, castDate);
  }

  /** The setattr loop over the dump performs the nine assignments in turn. */
  lemma SetTxFieldsIsApplied(t: Transaction, u: TransactionUpdate, castDate: string -> Option<Date>)
    ensures SetTxFields(TxDraft(t, false, false), TransactionUpdateItems(u), castDate) == TxApplied(t, u, castDate)
  {
    var d0 := TxDraft(t, false, false);
    var e1 := AmountSet(d0, u.amount);
    var e2 := CurrencySet(e1, u.currency);
    var e3 := TxTypeSet(e2, u.txType);
    var e4 := CategorySet(e3, u.category);
    var e5 := SubcategorySet(e4, u.subcategory);
    var e6 := DescriptionSet(e5, u.description);
    var e7 := ExchangeRateSet(e6, u.exchangeRate);
    var e8 := DateSet(e7, u.date, castDate);
    TxAmountStep(d0, u, castDate);
    TxCurrencyStep(e1, u, castDate);
    TxTxTypeStep(e2, u, castDate);
    TxCategoryStep(e3, u, castDate);
    TxSubcategoryStep(e4, u, castDate);
    TxDescriptionStep(e5, u, castDate);
    TxExchangeRateStep(e6, u, castDate);
    TxDateStep(e7, u, castDate);
    TxDetailsStep(e8, u, castDate);
    SetTxFieldsSplit(d0, AmountItem(u), CurrencyItem(u), TxTypeItem(u), CategoryItem(u), SubcategoryItem(u),
                     DescriptionItem(u), ExchangeRateItem(u), DateItem(u), DetailsItem(u), castDate,
                     e1, e2, e3, e4, e5, e6, e7, e8, DetailsSet(e8, u.details));
  }

  /** The setattr loop over the dump commits exactly the field-by-field
      patch. */
  lemma SetTxFieldsIsPatch(t: Transaction, u: TransactionUpdate, now: Time, castDate: string -> Option<Date>)
    ensures CommitTx(SetTxFields(TxDraft(t, false, false), TransactionUpdateItems(u), castDate), now)
         == PatchedTransaction(t, u, now, castDate)
  {
    SetTxFieldsIsApplied(t, u, castDate);
  }

  /** A patch never moves a transaction: budget, author, created_at,
      deleted_at and sync_status stay, and fields the patch leaves unset
      keep their values. */
  lemma PatchedTransactionKeeps(t: Transaction, u: TransactionUpdate, now: Time, castDate: string -> Option<Date>)
    requires PatchedTransaction(t, u, now, castDate).Ok?
    ensures var nt := PatchedTransaction(t, u, now, castDate).value;
      && nt.budgetId == t.budgetId && nt.userId == t.userId && nt.createdAt == t.createdAt
      && nt.deletedAt == t.deletedAt && nt.syncStatus == t.syncStatus && nt.updatedAt == now
      && (u.amount.Unset? ==> nt.amount == t.amount) && (u.category.Unset? ==> nt.category == t.category)
      && (u.date.Unset? ==> nt.date == t.date) && (u.details.Unset? ==> nt.details == t.details)
      && (u.subcategory.SetNull? ==> nt.subcategory == None)
  {
  }

  // ----------------------------------------------------------- recurring

  /** The subquery of the recurring update and delete: an admin or editor
      row of the caller on the recurring row's budget, whatever the
      budget's status. */
  predicate CanEditRecurring(db: Db, u: Id, r: Id) {
    r in db.recurring && HasRole(db, u, db.recurring[r].budgetId, {Admin, Editor})
  }

  /** A viewer may update and delete the budget's transactions but not its
      recurring transactions; archiving the budget does not stop recurring
      edits. */
  lemma ViewerRights(db: Db, u: Id, t: Id, r: Id, m: Id)
    requires m in db.memberships && db.memberships[m].userId == u && db.memberships[m].role == Viewer
    requires PairRows(db, u, db.memberships[m].budgetId) == {m}
    ensures t in db.transactions && db.transactions[t].budgetId == db.memberships[m].budgetId && db.transactions[t].deletedAt.None?
            ==> Visible(db, u, t)
    ensures r in db.recurring && db.recurring[r].budgetId == db.memberships[m].budgetId ==> !CanEditRecurring(db, u, r)
  {
    assert m in PairRows(db, u, db.memberships[m].budgetId);
  }

  lemma RecurringEditIgnoresStatus(db: Db, u: Id, r: Id, b: Id, nb: Budget)
    requires b in db.budgets
    ensures CanEditRecurring(db.(budgets := db.budgets[b := nb]), u, r) == CanEditRecurring(db, u, r)
  {
    var db' := db.(budgets := db.budgets[b := nb]);
    if r in db.recurring {
      assert PairRows(db', u, db.recurring[r].budgetId) == PairRows(db, u, db.recurring[r].budgetId);
    }
  }

  datatype RecDraft = RecDraft(row: Recurring, nulled: bool)

  /** `setattr(recurring_transaction, field, value)`; schedule, amount,
      currency, type, category and next_execution are NOT NULL. */
  function SetRecField(d: RecDraft, f: RecurringField): RecDraft {
    match f
    case ScheduleField(v) => if v.Some? then d.(row := d.row.(schedule := v.value)) else d.(nulled := true)
    case RAmountField(v) => if v.Some? then d.(row := d.row.(amount := v.value)) else d.(nulled := true)
    case RCurrencyField(v) => if v.Some? then d.(row := d.row.(currency := v.value)) else d.(nulled := true)
    case RTypeField(v) => if v.Some? then d.(row := d.row.(txType := v.value)) else d.(nulled := true)
    case RCategoryField(v) => if v.Some? then d.(row := d.row.(category := v.value)) else d.(nulled := true)
    case RSubcategoryField(v) => d.(row := d.row.(subcategory := v))
    case RDescriptionField(v) => d.(row := d.row.(description := v))
    case IsActiveField(v) => d.(row := d.row.(isActive := v))
    case NextExecutionField(v) => if v.Some? then d.(row := d.row.(nextExecution := v.value)) else d.(nulled := true)
  }

  function SetRecFields(d: RecDraft, items: seq<RecurringField>): RecDraft
    decreases |items|
  {
    if items == [] then d else SetRecFields(SetRecField(d, items[0]), items[1..])
  }

  lemma {:induction false} SetRecFieldsAppend(d: RecDraft, xs: seq<RecurringField>, ys: seq<RecurringField>)
    ensures SetRecFields(d, xs + ys) == SetRecFields(SetRecFields(d, xs), ys)
    decreases |xs|
  {
    if xs != [] {
      assert (xs + ys)[1..] == xs[1..] + ys;
      SetRecFieldsAppend(SetRecField(d, xs[0]), xs[1..], ys);
    } else {
      assert xs + ys == ys;
    }
  }

  function CommitRec(d: RecDraft, now: Time): Result<Recurring> {
    if d.nulled then Err(IntegrityError) else Ok(d.row.(updatedAt := now))
  }

  /** The row update_user_recurring_transaction commits, field by field. */
  function PatchedRecurring(r: Recurring, u: RecurringUpdate, now: Time): Result<Recurring> {
    if u.schedule.SetNull? || u.amount.SetNull? || u.currency.SetNull? || u.txType.SetNull?
       || u.category.SetNull? || u.nextExecution.SetNull? then Err(IntegrityError)
    else Ok(r.(schedule := Pick(u.schedule, r.schedule), amount := Pick(u.amount, r.amount),
               currency := Pick(u.currency, r.currency), txType := Pick(u.txType, r.txType),
               category := Pick(u.category, r.category),
               subcategory := PickNullable(u.subcategory, r.subcategory),
               description := PickNullable(u.description, r.description),
               isActive := PickNullable(u.isActive, r.isActive),
               nextExecution := Pick(u.nextExecution, r.nextExecution),
               updatedAt := now))
  }

  // One setattr per dumped field of a recurring update.
  function ScheduleSet(d: RecDraft, p: Patch<string>): RecDraft {
    d.(row := d.row.(schedule := Pick(p, d.row.schedule)), nulled := d.nulled || p.SetNull?)
  }
  function RAmountSet(d: RecDraft, p: Patch<real>): RecDraft {
    d.(row := d.row.(amount := Pick(p, d.row.amount)), nulled := d.nulled || p.SetNull?)
  }
  function RCurrencySet(d: RecDraft, p: Patch<string>): RecDraft {
    d.(row := d.row.(currency := Pick(p, d.row.currency)), nulled := d.nulled || p.SetNull?)
  }
  function RTxTypeSet(d: RecDraft, p: Patch<TransactionType>): RecDraft {
    d.(row := d.row.(txType := Pick(p, d.row.txType)), nulled := d.nulled || p.SetNull?)
  }
  function RCategorySet(d: RecDraft, p: Patch<string>): RecDraft {
    d.(row := d.row.(category := Pick(p, d.row.category)), nulled := d.nulled || p.SetNull?)
  }
  function RSubcategorySet(d: RecDraft, p: Patch<string>): RecDraft {
    d.(row := d.row.(subcategory := PickNullable(p, d.row.subcategory)))
  }
  function RDescriptionSet(d: RecDraft, p: Patch<string>): RecDraft {
    d.(row := d.row.(description := PickNullable(p, d.row.description)))
  }
  function IsActiveSet(d: RecDraft, p: Patch<bool>): RecDraft {
    d.(row := d.row.(isActive := PickNullable(p, d.row.isActive)))
  }
  function NextExecutionSet(d: RecDraft, p: Patch<Date>): RecDraft {
    d.(row := d.row.(nextExecution := Pick(p, d.row.nextExecution)), nulled := d.nulled || p.SetNull?)
  }

  /** All nine setattr calls in the dump's order. */
  function RecApplied(r: Recurring, u: RecurringUpdate): RecDraft {
    NextExecutionSet(IsActiveSet(RDescriptionSet(RSubcategorySet(RCategorySet(RTxTypeSet(RCurrencySet(RAmountSet(ScheduleSet(
      RecDraft(r, false), u.schedule), u.amount), u.currency), u.txType), u.category), u.subcategory), u.description),
      u.isActive), u.nextExecution)
  }

  lemma SetRecFieldsOne(d: RecDraft, xs: seq<RecurringField>)
    requires |xs| <= 1
    ensures SetRecFields(d, xs) == if xs == [] then d else SetRecField(d, xs[0])
  {
    if xs != [] {
      assert xs[1..] == [];
    }
  }

  lemma ScheduleStep(d: RecDraft, u: RecurringUpdate)
    ensures SetRecFields(d, ScheduleItem(u)) == ScheduleSet(d, u.schedule)
  {
    SetRecFieldsOne(d, ScheduleItem(u));
  }

  lemma RAmountStep(d: RecDraft, u: RecurringUpdate)
    ensures SetRecFields(d, RAmountItem(u)) == RAmountSet(d, u.amount)
  {
    SetRecFieldsOne(d, RAmountItem(u));
  }

  lemma RCurrencyStep(d: RecDraft, u: RecurringUpdate)
    ensures SetRecFields(d, RCurrencyItem(u)) == RCurrencySet(d, u.currency)
  {
    SetRecFieldsOne(d, RCurrencyItem(u));
  }

  lemma RTxTypeStep(d: RecDraft, u: RecurringUpdate)
    ensures SetRecFields(d, RTxTypeItem(u)) == RTxTypeSet(d, u.txType)
  {
    SetRecFieldsOne(d, RTxTypeItem(u));
  }

  lemma RCategoryStep(d: RecDraft, u: RecurringUpdate)
    ensures SetRecFields(d, RCategoryItem(u)) == RCategorySet(d, u.category)
  {
    SetRecFieldsOne(d, RCategoryItem(u));
  }

  lemma RSubcategoryStep(d: RecDraft, u: RecurringUpdate)
    ensures SetRecFields(d, RSubcategoryItem(u)) == RSubcategorySet(d, u.subcategory)
  {
    SetRecFieldsOne(d, RSubcategoryItem(u));
  }

  lemma RDescriptionStep(d: RecDraft, u: RecurringUpdate)
    ensures SetRecFields(d, RDescriptionItem(u)) == RDescriptionSet(d, u.description)
  {
    SetRecFieldsOne(d, RDescriptionItem(u));
  }

  lemma IsActiveStep(d: RecDraft, u: RecurringUpdate)
    ensures SetRecFields(d, IsActiveItem(u)) == IsActiveSet(d, u.isActive)
  {
    SetRecFieldsOne(d, IsActiveItem(u));
  }

  lemma NextExecutionStep(d: RecDraft, u: RecurringUpdate)
    ensures SetRecFields(d, NextExecutionItem(u)) == NextExecutionSet(d, u.nextExecution)
  {
    SetRecFieldsOne(d, NextExecutionItem(u));
  }

  /** The fold over nine consecutive pieces, each taking its draft to the
      next, takes the first draft to the last. */
  lemma SetRecFieldsSplit(d0: RecDraft, sc: seq<RecurringField>, a: seq<RecurringField>, c: seq<RecurringField>,
                          y: seq<RecurringField>, g: seq<RecurringField>, s: seq<RecurringField>,
                          e: seq<RecurringField>, ia: seq<RecurringField>, ne: seq<RecurringField>,
                          e1: RecDraft, e2: RecDraft, e3: RecDraft, e4: RecDraft, e5: RecDraft, e6: RecDraft,
                          e7: RecDraft, e8: RecDraft, e9: RecDraft)
    requires SetRecFields(d0, sc) == e1 && SetRecFields(e1, a) == e2 && SetRecFields(e2, c) == e3
    requires SetRecFields(e3, y) == e4 && SetRecFields(e4, g) == e5 && SetRecFields(e5, s) == e6
    requires SetRecFields(e6, e) == e7 && SetRecFields(e7, ia) == e8 && SetRecFields(e8, ne) == e9
    ensures SetRecFields(d0, sc + a + c + y + g + s + e + ia + ne) == e9
  {
    SetRecFieldsAppend(d0, sc + a + c + y + g + s + e + ia, ne);
    SetRecFieldsAppend(d0, sc + a + c + y + g + s + e, ia);
    SetRecFieldsAppend(d0, sc + a + c + y + g + s, e);
    SetRecFieldsAppend(d0, sc + a + c + y + g, s);
    SetRecFieldsAppend(d0, sc + a + c + y, g);
    SetRecFieldsAppend(d0, sc + a + c, y);
    SetRecFieldsAppend(d0, sc + a, c);
    SetRecFieldsAppend(d0, sc, a);
  }

  /** The setattr loop over the dump performs the nine assignments in turn. */
  lemma SetRecFieldsIsApplied(r: Recurring, u: RecurringUpdate)
    ensures SetRecFields(RecDraft(r, false), RecurringUpdateItems(u)) == RecApplied(r, u)
  {
    var d0 := RecDraft(r, false);
    var e1 := ScheduleSet(d0, u.schedule);
    var e2 := RAmountSet(e1, u.amount);
    var e3 := RCurrencySet(e2, u.currency);
    var e4 := RTxTypeSet(e3, u.txType);
    var e5 := RCategorySet(e4, u.category);
    var e6 := RSubcategorySet(e5, u.subcategory);
    var e7 := RDescriptionSet(e6, u.description);
    var e8 := IsActiveSet(e7, u.isActive);
    ScheduleStep(d0, u);
    RAmountStep(e1, u);
    RCurrencyStep(e2, u);
    RTxTypeStep(e3, u);
    RCategoryStep(e4, u);
    RSubcategoryStep(e5, u);
    RDescriptionStep(e6, u);
    IsActiveStep(e7, u);
    NextExecutionStep(e8, u);
    SetRecFieldsSplit(d0, ScheduleItem(u), RAmountItem(u), RCurrencyItem(u), RTxTypeItem(u), RCategoryItem(u),
                      RSubcategoryItem(u), RDescriptionItem(u), IsActiveItem(u), NextExecutionItem(u),
                      e1, e2, e3, e4, e5, e6, e7, e8, NextExecutionSet(e8, u.nextExecution));
  }

  /** The setattr loop over the dump commits exactly the field-by-field
      patch. */
  lemma SetRecFieldsIsPatch(r: Recurring, u: RecurringUpdate, now: Time)
    ensures CommitRec(SetRecFields(RecDraft(r, false), RecurringUpdateItems(u)), now) == PatchedRecurring(r, u, now)
  {
    SetRecFieldsIsApplied(r, u);
  }

  lemma PatchedRecurringKeeps(r: Recurring, u: RecurringUpdate, now: Time)
    requires PatchedRecurring(r, u, now).Ok?
    ensures var nr := PatchedRecurring(r, u, now).value;
      && nr.budgetId == r.budgetId && nr.userId == r.userId && nr.recurringType == r.recurringType
      && nr.createdAt == r.createdAt && nr.syncStatus == r.syncStatus && nr.updatedAt == now
      && (u.isActive.Unset? ==> nr.isActive == r.isActive) && (u.schedule.Unset? ==> nr.schedule == r.schedule)
  {
  }

  // ------------------------------------------------ list recurring (finding)

  /** The budget_id and is_active filters of the recurring listing; an
      is_active filter never matches a NULL is_active. */
  predicate RecurringMatches(r: Recurring, budgetId: Option<string>, isActive: Option<bool>) {
    (Truthy(budgetId) ==> r.budgetId == budgetId.value)
    && (isActive.Some? ==> r.isActive == Some(isActive.value))
  }

  /** list_user_recurring_transactions as written: the EXISTS names
      transactions.budget_id, which the recurring query does not join, so
      it asks whether the caller is a member of any budget holding any
      transaction; when it is, every recurring row of every budget passes. */
  function ListRecurringAsWritten(db: Db, u: Id, budgetId: Option<string>, isActive: Option<bool>): set<Id> {
    if exists t :: t in db.transactions && IsMember(db, u, db.transactions[t].budgetId) then
      set r | r in db.recurring && RecurringMatches(db.recurring[r], budgetId, isActive)
    else {}
  }

  /** The listing with the membership test on the recurring row's own
      budget. */
  function ListRecurring(db: Db, u: Id, budgetId: Option<string>, isActive: Option<bool>): (rs: set<Id>)
    ensures forall r :: r in rs ==> r in db.recurring && IsMember(db, u, db.recurring[r].budgetId)
  {
    set r | r in db.recurring && IsMember(db, u, db.recurring[r].budgetId) && RecurringMatches(db.recurring[r], budgetId, isActive)
  }

  /** The corrected listing is exactly the member-visible rows that pass
      the filters, and it never depends on transactions. */
  lemma ListRecurringScope(db: Db, u: Id, budgetId: Option<string>, isActive: Option<bool>, r: Id, txs: map<Id, Transaction>)
    ensures r in ListRecurring(db, u, budgetId, isActive) <==>
      r in db.recurring && PairRows(db, u, db.recurring[r].budgetId) != {} && RecurringMatches(db.recurring[r], budgetId, isActive)
    ensures ListRecurring(db.(transactions := txs), u, budgetId, isActive) == ListRecurring(db, u, budgetId, isActive)
  {
    var db' := db.(transactions := txs);
    forall k | k in db.recurring ensures PairRows(db', u, db.recurring[k].budgetId) == PairRows(db, u, db.recurring[k].budgetId) {
    }
  }

  const ForeignDb := Db(
    map["u" := NewUser("U", None, None, None, None, 0), "v" := NewUser("V", None, None, None, None, 0)],
    map["A" := NewBudget("A", None, 0), "B" := NewBudget("B", None, 0)],
    map["m1" := Membership("u", "A", Admin, 0), "m2" := Membership("v", "B", Admin, 0)],
    map["t1" := NewTransaction("A", "u", 1.0, None, Expense, "food", None, None, None, 0, None, 0)],
    map["r1" := Recurring("B", "v", "monthly", Automatic, 5.0, "USD", Expense, "rent", None, None, Some(true), 0, 0, 0, Synced)],
    map[], map[])

  /** The as-written listing leaks: u, a member of A only, is shown the
      recurring row of budget B because A holds a transaction. */
  lemma RecurringListingLeaks()
    ensures "r1" in ListRecurringAsWritten(ForeignDb, "u", None, None)
    ensures "r1" !in ListRecurring(ForeignDb, "u", None, None)
  {
    var db := ForeignDb;
    assert "m1" in PairRows(db, "u", "A");
    assert "t1" in db.transactions && IsMember(db, "u", db.transactions["t1"].budgetId);
    assert PairRows(db, "u", "B") == {};
  }

  /** And it hides: v, admin of B, which has a recurring row but no
      transaction, is shown nothing. */
  lemma RecurringListingHides()
    ensures ListRecurringAsWritten(ForeignDb, "v", None, None) == {}
    ensures "r1" in ListRecurring(ForeignDb, "v", None, None)
  {
    var db := ForeignDb;
    assert PairRows(db, "v", "A") == {};
    assert "m2" in PairRows(db, "v", "B");
  }

  // ------------------------------------------------ create recurring (finding)

  /** The recurring_transactions row built from a validated body: NOT NULL
      recurring_type has no default, so a row built without one is refused
      by the store; is_active defaults to true. */
  function NewRecurringRow(data: RecurringCreate, u: Id, recurringType: Option<RecurringType>, now: Time)
    : (r: Result<Recurring>)
    ensures r.Err? <==> recurringType.None?
    ensures r.Err? ==> r.error == IntegrityError
    ensures r.Ok? ==>
      && r.value.recurringType == recurringType.value && r.value.userId == u && r.value.budgetId == data.budgetId
      && r.value.schedule == data.schedule && r.value.amount == data.amount && r.value.currency == data.currency
      && r.value.nextExecution == data.nextExecution && r.value.isActive == Some(true)
      && r.value.createdAt == now && r.value.updatedAt == now
  {
    if recurringType.None? then Err(IntegrityError)
    else Ok(Recurring(data.budgetId, u, data.schedule, recurringType.value, data.amount, data.currency, data.txType,
                      data.category, data.subcategory, data.description, Some(true), data.nextExecution, now, now, Synced))
  }

  class TransactionService {
    const store: Store

    constructor (store: Store)
      ensures this.store == store
    {
      this.store := store;
    }

    /** The create endpoint and create_transaction: callers without edit
        access to an active budget are forbidden; the insert fails when the
        caller's own row is gone. */
    method CreateTransaction(data: TransactionCreate, u: Id, id: Id, now: Time) returns (r: Result<Id>)
      requires id !in store.transactions
      modifies store
      ensures !UserHasBudgetAccess(old(store.State()), u, data.budgetId) ==> r == Err(Forbidden) && store.State() == old(store.State())
      ensures UserHasBudgetAccess(old(store.State()), u, data.budgetId) ==>
        && (r.Ok? <==> u in old(store.users))
        && (r.Ok? ==> r.value == id && store.State() == old(store.State()).(transactions := old(store.transactions)[id := CreatedTransaction(data, u, now)]))
        && (r.Err? ==> r.error == IntegrityError && store.State() == old(store.State()))
    {
      if !UserHasBudgetAccess(store.State(), u, data.budgetId) {
        return Err(Forbidden);
      }
      var ok := store.InsertTransaction(id, CreatedTransaction(data, u, now));
      if !ok {
        return Err(IntegrityError);
      }
      r := Ok(id);
    }

    /** list_user_transactions: the page at `offset` of the matching rows in
        ORDER BY budget_id, date DESC (`listing`; ties in any order), and
        the count of all matching rows. */
    method ListUserTransactions(u: Id, f: TransactionFilter, limit: nat, offset: nat)
      returns (page: seq<Id>, total: nat, ghost listing: seq<Id>)
      ensures Distinct(listing) && forall t :: t in listing <==> t in ListedTransactions(store.State(), u, f)
      ensures SortedBy(listing, ByBudgetThenDate(store.transactions))
      ensures total == |listing| == |ListedTransactions(store.State(), u, f)|
      ensures page == Page(listing, offset, limit) && |page| <= limit
    {
      var rows := Enumerate(ListedTransactions(store.State(), u, f));
      var order := ByBudgetThenDate(store.transactions);
      var sorted := SortBy(rows, order);
      ByBudgetThenDateIsPreorder(store.transactions);
      SortBySorted(rows, order);
      PermutationDistinct(rows, sorted);
      listing := sorted;
      total := |sorted|;
      page := Page(sorted, offset, limit);
    }

    /** update_user_transaction: None unless the row is visible to the
        caller (any role); otherwise the setattr loop and the commit. */
    method UpdateUserTransaction(t: Id, patch: TransactionUpdate, u: Id, now: Time, castDate: string -> Option<Date>)
      returns (r: Result<Option<Transaction>>)
      requires RefIntegrity(store.State())
      modifies store
      ensures !Visible(old(store.State()), u, t) ==> r == Ok(None) && store.State() == old(store.State())
      ensures Visible(old(store.State()), u, t) ==>
        var p := PatchedTransaction(old(store.transactions)[t], patch, now, castDate);
        && (p.Err? ==> r == Err(p.error) && store.State() == old(store.State()))
        && (p.Ok? ==> r == Ok(Some(p.value)) && store.State() == old(store.State()).(transactions := old(store.transactions)[t := p.value]))
    {
      var found := GetUserTransaction(store.State(), t, u);
      if found.None? {
        return Ok(None);
      }
      var items := TransactionUpdateItems(patch);
      var d := TxDraft(found.value, false, false);
      var i := 0;
      while i < |items|
        invariant 0 <= i <= |items|
        invariant SetTxFields(d, items[i..], castDate) == SetTxFields(TxDraft(found.value, false, false), items, castDate)
      {
        assert items[i..][1..] == items[i + 1..];
        d := SetTxField(d, items[i], castDate);
        i := i + 1;
      }
      SetTxFieldsIsPatch(found.value, patch, now, castDate);
      var committed := CommitTx(d, now);
      if committed.Err? {
        return Err(committed.error);
      }
      PatchedTransactionKeeps(found.value, patch, now, castDate);
      var ok := store.PutTransaction(t, committed.value);
      assert ok;
      r := Ok(Some(committed.value));
    }

    /** delete_user_transaction: a hard delete of a visible row. */
    method DeleteUserTransaction(t: Id, u: Id) returns (r: bool)
      modifies store
      ensures r == Visible(old(store.State()), u, t)
      ensures store.State() == if r then old(store.State()).(transactions := old(store.transactions) - {t}) else old(store.State())
    {
      if GetUserTransaction(store.State(), t, u).None? {
        return false;
      }
      store.DeleteTransaction(t);
      r := true;
    }

    /** The create-recurring endpoint and create_recurring_transaction as
        written: past the access gate the row lacks recurring_type, so the
        commit always fails and nothing is stored. */
    method CreateRecurringTransaction(data: RecurringCreate, u: Id, id: Id, now: Time) returns (r: Result<Id>)
      requires id !in store.recurring
      modifies store
      ensures r.Err? && store.State() == old(store.State())
      ensures r.error == if UserHasBudgetAccess(old(store.State()), u, data.budgetId) then IntegrityError else Forbidden
    {
      if !UserHasBudgetAccess(store.State(), u, data.budgetId) {
        return Err(Forbidden);
      }
      var row := NewRecurringRow(data, u, None, now);
      assert row.Err?;
      r := Err(row.error);
    }

    /** create_recurring_transaction with the recurring_type the request
        carries: one row, the caller as author. */
    method CreateRecurringTransactionWithType(data: RecurringCreate, recurringType: RecurringType, u: Id, id: Id, now: Time)
      returns (r: Result<Id>)
      requires id !in store.recurring
      modifies store
      ensures !UserHasBudgetAccess(old(store.State()), u, data.budgetId) ==> r == Err(Forbidden) && store.State() == old(store.State())
      ensures UserHasBudgetAccess(old(store.State()), u, data.budgetId) ==>
        && (r.Ok? <==> u in old(store.users))
        && (r.Ok? ==> r.value == id && store.State() == old(store.State()).(recurring := old(store.recurring)[id := NewRecurringRow(data, u, Some(recurringType), now).value]))
        && (r.Err? ==> r.error == IntegrityError && store.State() == old(store.State()))
    {
      if !UserHasBudgetAccess(store.State(), u, data.budgetId) {
        return Err(Forbidden);
      }
      var row := NewRecurringRow(data, u, Some(recurringType), now);
      var ok := store.InsertRecurring(id, row.value);
      if !ok {
        return Err(IntegrityError);
      }
      r := Ok(id);
    }

    /** list_user_recurring_transactions as written, rows in any order. */
    method ListUserRecurringTransactions(u: Id, budgetId: Option<string>, isActive: Option<bool>) returns (rows: seq<Id>)
      ensures Distinct(rows) && forall r :: r in rows <==> r in ListRecurringAsWritten(store.State(), u, budgetId, isActive)
    {
      rows := Enumerate(ListRecurringAsWritten(store.State(), u, budgetId, isActive));
    }

    /** update_user_recurring_transaction: None unless the caller is admin
        or editor on the row's budget. */
    method UpdateUserRecurringTransaction(rid: Id, patch: RecurringUpdate, u: Id, now: Time)
      returns (r: Result<Option<Recurring>>)
      requires RefIntegrity(store.State())
      modifies store
      ensures !CanEditRecurring(old(store.State()), u, rid) ==> r == Ok(None) && store.State() == old(store.State())
      ensures CanEditRecurring(old(store.State()), u, rid) ==>
        var p := PatchedRecurring(old(store.recurring)[rid], patch, now);
        && (p.Err? ==> r == Err(p.error) && store.State() == old(store.State()))
        && (p.Ok? ==> r == Ok(Some(p.value)) && store.State() == old(store.State()).(recurring := old(store.recurring)[rid := p.value]))
    {
      if !CanEditRecurring(store.State(), u, rid) {
        return Ok(None);
      }
      var row := store.recurring[rid];
      var items := RecurringUpdateItems(patch);
      var d := RecDraft(row, false);
      var i := 0;
      while i < |items|
        invariant 0 <= i <= |items|
        invariant SetRecFields(d, items[i..]) == SetRecFields(RecDraft(row, false), items)
      {
        assert items[i..][1..] == items[i + 1..];
        d := SetRecField(d, items[i]);
        i := i + 1;
      }
      SetRecFieldsIsPatch(row, patch, now);
      var committed := CommitRec(d, now);
      if committed.Err? {
        return Err(committed.error);
      }
      PatchedRecurringKeeps(row, patch, now);
      var ok := store.PutRecurring(rid, committed.value);
      assert ok;
      r := Ok(Some(committed.value));
    }

    /** delete_user_recurring_transaction: a hard delete, for admins and
        editors of the row's budget. */
    method DeleteUserRecurringTransaction(rid: Id, u: Id) returns (r: bool)
      modifies store
      ensures r == CanEditRecurring(old(store.State()), u, rid)
      ensures store.State() == if r then old(store.State()).(recurring := old(store.recurring) - {rid}) else old(store.State())
    {
      if !CanEditRecurring(store.State(), u, rid) {
        return false;
      }
      store.DeleteRecurring(rid);
      r := true;
    }
  }
}
