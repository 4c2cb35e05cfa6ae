/** The persistent entities of app/models/models.py: the enumerations, one
    record per table row, and the column defaults applied when a row is
    inserted. Primary keys are the keys of the maps in module Tables, so the
    records below carry the other columns only. */
module Models {
  import opened Common

  /** Identifiers (UUID primary and foreign keys) as their string form. */
  type Id = string
  /** A UTC instant (the DateTime columns), in abstract integer ticks. */
  type Time = int
  /** A calendar day (the Date columns), as a day number. */
  type Date = int

  /** The instant `datetime.min`, the earliest a timestamp can be. */
  const MinTime: Time := 0

  datatype AuthMethod = EmailAuth | PhoneAuth | GoogleAuth | BiometricAuth
  datatype TransactionType = Income | Expense | Investment
  datatype BudgetStatus = Active | Archived | Suspended
  datatype Role = Admin | Editor | Viewer
  datatype SyncStatus = Synced | Pending | InConflict
  datatype RecurringType = Automatic | Reminder

  function AuthMethodName(a: AuthMethod): string {
    match a
    case EmailAuth => "email"
    case PhoneAuth => "phone"
    case GoogleAuth => "google"
    case BiometricAuth => "biometric"
  }

  /** `AuthMethod(s)`: the member whose value is `s`. */
  function ParseAuthMethod(s: string): (r: Option<AuthMethod>)
    ensures r.Some? <==> s in {"email", "phone", "google", "biometric"}
    ensures r.Some? ==> AuthMethodName(r.value) == s
  {
    if s == "email" then Some(EmailAuth)
    else if s == "phone" then Some(PhoneAuth)
    else if s == "google" then Some(GoogleAuth)
    else if s == "biometric" then Some(BiometricAuth)
    else None
  }

  function TransactionTypeName(t: TransactionType): string {
    match t
    case Income => "income"
    case Expense => "expense"
    case Investment => "investment"
  }

  function ParseTransactionType(s: string): (r: Option<TransactionType>)
    ensures r.Some? <==> s in {"income", "expense", "investment"}
    ensures r.Some? ==> TransactionTypeName(r.value) == s
  {
    if s == "income" then Some(Income)
    else if s == "expense" then Some(Expense)
    else if s == "investment" then Some(Investment)
    else None
  }

  function BudgetStatusName(s: BudgetStatus): string {
    match s
    case Active => "active"
    case Archived => "archived"
    case Suspended => "suspended"
  }

  function ParseBudgetStatus(s: string): (r: Option<BudgetStatus>)
    ensures r.Some? <==> s in {"active", "archived", "suspended"}
    ensures r.Some? ==> BudgetStatusName(r.value) == s
  {
    if s == "active" then Some(Active)
    else if s == "archived" then Some(Archived)
    else if s == "suspended" then Some(Suspended)
    else None
  }

  function RoleName(r: Role): string {
    match r
    case Admin => "admin"
    case Editor => "editor"
    case Viewer => "viewer"
  }

  function ParseRole(s: string): (r: Option<Role>)
    ensures r.Some? <==> s in {"admin", "editor", "viewer"}
    ensures r.Some? ==> RoleName(r.value) == s
  {
    if s == "admin" then Some(Admin)
    else if s == "editor" then Some(Editor)
    else if s == "viewer" then Some(Viewer)
    else None
  }

  function SyncStatusName(s: SyncStatus): string {
    match s
    case Synced => "synced"
    case Pending => "pending"
    case InConflict => "conflict"
  }

  lemma SyncStatusNameInjective(a: SyncStatus, b: SyncStatus)
    requires SyncStatusName(a) == SyncStatusName(b)
    ensures a == b
  {
  }

  /** Every enumeration value is recovered from its stored name. */
  lemma EnumNamesRoundTrip()
    ensures forall a: AuthMethod :: ParseAuthMethod(AuthMethodName(a)) == Some(a)
    ensures forall t: TransactionType :: ParseTransactionType(TransactionTypeName(t)) == Some(t)
    ensures forall s: BudgetStatus :: ParseBudgetStatus(BudgetStatusName(s)) == Some(s)
    ensures forall r: Role :: ParseRole(RoleName(r)) == Some(r)
  {
  }

  // ------------------------------------------------------------------ rows

  datatype User = User(
    name: string,
    email: Option<string>,
    phone: Option<string>,
    passwordHash: Option<string>,
    authMethod: AuthMethod,
    googleId: Option<string>,
    biometricHash: Option<string>,
    isActive: Option<bool>,  // nullable; NULL counts as inactive everywhere
    createdAt: Time,
    updatedAt: Time,
    syncStatus: SyncStatus)

  datatype Budget = Budget(
    name: string,
    currency: string,
    status: BudgetStatus,
    createdAt: Time,
    updatedAt: Time,
    archivedAt: Option<Time>,
    syncStatus: SyncStatus)

  /** A user_budgets row: the access grant of one user on one budget. */
  datatype Membership = Membership(
    userId: Id,
    budgetId: Id,
    role: Role,
    joinedAt: Time)

  datatype Transaction = Transaction(
    budgetId: Id,
    userId: Id,
    amount: real,
    currency: string,
    txType: TransactionType,
    category: string,
    subcategory: Option<string>,
    description: Option<string>,
    exchangeRate: real,
    date: Date,
    details: Option<Json>,
    createdAt: Time,
    updatedAt: Time,
    deletedAt: Option<Time>,
    syncStatus: SyncStatus)

  datatype Recurring = Recurring(
    budgetId: Id,
    userId: Id,
    schedule: string,
    recurringType: RecurringType,
    amount: real,
    currency: string,
    txType: TransactionType,
    category: string,
    subcategory: Option<string>,
    description: Option<string>,
    isActive: Option<bool>,
    nextExecution: Date,
    createdAt: Time,
    updatedAt: Time,
    syncStatus: SyncStatus)

  datatype Category = Category(
    name: string,
    txType: TransactionType,
    description: Option<string>,
    isDefault: bool,
    createdAt: Time)

  datatype Subcategory = Subcategory(
    categoryId: Id,
    name: string,
    description: Option<string>,
    createdAt: Time)

  // --------------------------------------------------------- column widths

  /** The declared String(n) widths; a longer value makes the commit fail. */
  const NameWidth: nat := 255        // users.name, users.email, budgets.name
  const PhoneWidth: nat := 20        // users.phone
  const CurrencyWidth: nat := 3      // budgets/transactions/recurring_transactions.currency
  const CategoryWidth: nat := 100    // category and subcategory columns
  const ScheduleWidth: nat := 50     // recurring_transactions.schedule

  // --------------------------------------------------- rows with defaults

  /** A budgets row as inserted: status, currency and the timestamps take
      their column defaults unless given. */
  function NewBudget(name: string, currency: Option<string>, now: Time): (b: Budget)
    ensures b.status == Active && b.archivedAt == None && b.syncStatus == Synced
    ensures b.currency == (if currency.Some? then currency.value else "USD")
    ensures b.name == name && b.createdAt == now && b.updatedAt == now
  {
    Budget(name, if currency.Some? then currency.value else "USD", Active, now, now, None, Synced)
  }

  /** A user_budgets row as inserted; the role defaults to viewer. */
  function NewMembership(userId: Id, budgetId: Id, role: Option<Role>, now: Time): (m: Membership)
    ensures m.role == (if role.Some? then role.value else Viewer)
    ensures m.userId == userId && m.budgetId == budgetId && m.joinedAt == now
  {
    Membership(userId, budgetId, if role.Some? then role.value else Viewer, now)
  }

  /** A users row as inserted: auth_method defaults to email, is_active to
      true, sync_status to synced. */
  function NewUser(name: string, email: Option<string>, phone: Option<string>, passwordHash: Option<string>,
                   authMethod: Option<AuthMethod>, now: Time): (u: User)
    ensures u.authMethod == (if authMethod.Some? then authMethod.value else EmailAuth)
    ensures u.isActive == Some(true) && u.syncStatus == Synced && u.googleId == None && u.biometricHash == None
    ensures u.name == name && u.email == email && u.phone == phone && u.passwordHash == passwordHash
    ensures u.createdAt == now && u.updatedAt == now
  {
    User(name, email, phone, passwordHash, if authMethod.Some? then authMethod.value else EmailAuth,
         None, None, Some(true), now, now, Synced)
  }

  /** A transactions row as inserted: the exchange rate defaults to 1.0,
      the currency to "USD", and deleted_at is null. */
  function NewTransaction(budgetId: Id, userId: Id, amount: real, currency: Option<string>,
                          txType: TransactionType, category: string, subcategory: Option<string>,
                          description: Option<string>, exchangeRate: Option<real>, date: Date,
                          details: Option<Json>, now: Time): (t: Transaction)
    ensures t.exchangeRate == (if exchangeRate.Some? then exchangeRate.value else 1.0)
    ensures t.currency == (if currency.Some? then currency.value else "USD")
    ensures t.deletedAt == None && t.syncStatus == Synced
    ensures t.budgetId == budgetId && t.userId == userId && t.amount == amount && t.date == date
    ensures t.txType == txType && t.category == category && t.subcategory == subcategory
    ensures t.description == description && t.details == details
    ensures t.createdAt == now && t.updatedAt == now
  {
    Transaction(budgetId, userId, amount, if currency.Some? then currency.value else "USD", txType,
                category, subcategory, description,
                if exchangeRate.Some? then exchangeRate.value else 1.0, date, details,
                now, now, None, Synced)
  }
}
