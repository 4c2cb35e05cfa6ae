/** The transaction request schemas of app/schemas/transaction.py: the field
    constraints and defaults of the create bodies, and the
    `dict(exclude_unset=True)` dumps of the update bodies that the service
    applies field by field. Amounts and rates are reals. */
module TransactionSchemas {
  import opened Common
  import opened Models
  import opened Fields

  /** A validated TransactionCreate. */
  datatype TransactionCreate = TransactionCreate(
    budgetId: string, amount: real, currency: string, txType: TransactionType,
    category: string, subcategory: Option<string>, description: Option<string>,
    exchangeRate: real, date: Date, details: Option<map<string, Json>>)

  /** amount > 0; currency three capitals; 1..100 characters of category;
      at most 100 of a given subcategory; exchange rate > 0. */
  predicate TransactionFieldsValid(amount: real, currency: string, category: string,
                                   subcategory: Option<string>, exchangeRate: real) {
    amount > 0.0 && IsCurrencyCode(currency) && LengthBetween(category, 1, 100)
    && (subcategory.Some? ==> |subcategory.value| <= 100) && exchangeRate > 0.0
  }

  /** Validating a TransactionCreate body: an absent currency is "USD", an
      absent exchange rate 1.0, and the type must name a TransactionType. */
  function ValidateTransactionCreate(budgetId: string, amount: real, currency: Option<string>, txType: string,
                                     category: string, subcategory: Option<string>, description: Option<string>,
                                     exchangeRate: Option<real>, date: Date, details: Option<map<string, Json>>)
    : (r: Result<TransactionCreate>)
    ensures var c := if currency.Some? then currency.value else "USD";
      var x := if exchangeRate.Some? then exchangeRate.value else 1.0;
      && (r.Ok? <==> TransactionFieldsValid(amount, c, category, subcategory, x) && ParseTransactionType(txType).Some?)
      && (r.Ok? ==> r.value == TransactionCreate(budgetId, amount, c, ParseTransactionType(txType).value,
                                                 category, subcategory, description, x, date, details))
    ensures r.Err? ==> r.error == Unprocessable
  {
    var c := if currency.Some? then currency.value else "USD";
    var x := if exchangeRate.Some? then exchangeRate.value else 1.0;
    match ParseTransactionType(txType)
    case None => Err(Unprocessable)
    case Some(t) =>
      if TransactionFieldsValid(amount, c, category, subcategory, x) then
        Ok(TransactionCreate(budgetId, amount, c, t, category, subcategory, description, x, date, details))
      else Err(Unprocessable)
  }

  /** The defaults are themselves valid: a body without currency and
      exchange rate is accepted when its other fields are. */
  lemma DefaultsAreValid(amount: real, category: string)
    requires amount > 0.0 && LengthBetween(category, 1, 100)
    ensures ValidateTransactionCreate("b", amount, None, "expense", category, None, None, None, 0, None).Ok?
    ensures var t := ValidateTransactionCreate("b", amount, None, "expense", category, None, None, None, 0, None).value;
      t.currency == "USD" && t.exchangeRate == 1.0
  {
    assert IsCurrencyCode("USD");
    assert ParseTransactionType("expense") == Some(Expense);
  }

  /** A validated body fits the String(3) currency and String(100)
      category and subcategory columns. */
  lemma TransactionCreateFitsColumns(t: TransactionCreate)
    requires TransactionFieldsValid(t.amount, t.currency, t.category, t.subcategory, t.exchangeRate)
    ensures |t.currency| == CurrencyWidth && 0 < |t.category| <= CategoryWidth
    ensures t.subcategory.Some? ==> |t.subcategory.value| <= CategoryWidth
  {
  }

  /** The `date` of a TransactionUpdate: `Union[str, date, None]` keeps a
      string as a string; the store casts it when the row is written. */
  datatype DateInput = DateText(s: string) | DateValue(d: Date)

  /** TransactionUpdate: every field optional, a given value obeying the
      create constraints, an explicit null passing validation. */
  datatype TransactionUpdate = TransactionUpdate(
    amount: Patch<real>, currency: Patch<string>, txType: Patch<TransactionType>,
    category: Patch<string>, subcategory: Patch<string>, description: Patch<string>,
    exchangeRate: Patch<real>, date: Patch<DateInput>, details: Patch<map<string, Json>>)

  predicate TransactionUpdateValid(u: TransactionUpdate) {
    (u.amount.SetTo? ==> u.amount.value > 0.0)
    && (u.currency.SetTo? ==> IsCurrencyCode(u.currency.value))
    && (u.category.SetTo? ==> LengthBetween(u.category.value, 1, 100))
    && (u.subcategory.SetTo? ==> |u.subcategory.value| <= 100)
    && (u.exchangeRate.SetTo? ==> u.exchangeRate.value > 0.0)
  }

  /** One `(field, value)` item of the dump; None is an explicit null. */
  datatype TransactionField =
    | AmountField(amount: Option<real>)
    | CurrencyField(currency: Option<string>)
    | TypeField(txType: Option<TransactionType>)
    | CategoryField(category: Option<string>)
    | SubcategoryField(subcategory: Option<string>)
    | DescriptionField(description: Option<string>)
    | ExchangeRateField(exchangeRate: Option<real>)
    | DateField(date: Option<DateInput>)
    | DetailsField(details: Option<map<string, Json>>)

  function PatchCount<T>(p: Patch<T>): nat {
    if p.Unset? then 0 else 1
  }

  // The item one field contributes: none when the body left it unset.
  function AmountItem(u: TransactionUpdate): seq<TransactionField> { if u.amount.Unset? then [] else [AmountField(PatchValue(u.amount))] }
  function CurrencyItem(u: TransactionUpdate): seq<TransactionField> { if u.currency.Unset? then [] else [CurrencyField(PatchValue(u.currency))] }
  function TxTypeItem(u: TransactionUpdate): seq<TransactionField> { if u.txType.Unset? then [] else [TypeField(PatchValue(u.txType))] }
  function CategoryItem(u: TransactionUpdate): seq<TransactionField> { if u.category.Unset? then [] else [CategoryField(PatchValue(u.category))] }
  function SubcategoryItem(u: TransactionUpdate): seq<TransactionField> { if u.subcategory.Unset? then [] else [SubcategoryField(PatchValue(u.subcategory))] }
  function DescriptionItem(u: TransactionUpdate): seq<TransactionField> { if u.description.Unset? then [] else [DescriptionField(PatchValue(u.description))] }
  function ExchangeRateItem(u: TransactionUpdate): seq<TransactionField> { if u.exchangeRate.Unset? then [] else [ExchangeRateField(PatchValue(u.exchangeRate))] }
  function DateItem(u: TransactionUpdate): seq<TransactionField> { if u.date.Unset? then [] else [DateField(PatchValue(u.date))] }
  function DetailsItem(u: TransactionUpdate): seq<TransactionField> { if u.details.Unset? then [] else [DetailsField(PatchValue(u.details))] }

  /** `transaction_update.dict(exclude_unset=True).items()`, in declaration
      order: one item per field the body set. */
  function TransactionUpdateItems(u: TransactionUpdate): seq<TransactionField> {
    AmountItem(u) + CurrencyItem(u) + TxTypeItem(u) + CategoryItem(u) + SubcategoryItem(u)
    + DescriptionItem(u) + ExchangeRateItem(u) + DateItem(u) + DetailsItem(u)
  }

  /** One item per field the body set, and none for the others. */
  lemma TransactionUpdateItemsCount(u: TransactionUpdate)
    ensures |TransactionUpdateItems(u)| == PatchCount(u.amount) + PatchCount(u.currency) + PatchCount(u.txType)
                                         + PatchCount(u.category) + PatchCount(u.subcategory) + PatchCount(u.description)
                                         + PatchCount(u.exchangeRate) + PatchCount(u.date) + PatchCount(u.details)
  {
    assert |AmountItem(u)| == PatchCount(u.amount) && |CurrencyItem(u)| == PatchCount(u.currency);
    assert |TxTypeItem(u)| == PatchCount(u.txType) && |CategoryItem(u)| == PatchCount(u.category);
    assert |SubcategoryItem(u)| == PatchCount(u.subcategory) && |DescriptionItem(u)| == PatchCount(u.description);
    assert |ExchangeRateItem(u)| == PatchCount(u.exchangeRate) && |DateItem(u)| == PatchCount(u.date);
    assert |DetailsItem(u)| == PatchCount(u.details);
  }

  // ------------------------------------------------------------ recurring

  /** A validated RecurringTransactionCreate. It has no recurring_type. */
  datatype RecurringCreate = RecurringCreate(
    budgetId: string, schedule: string, amount: real, currency: string, txType: TransactionType,
    category: string, subcategory: Option<string>, description: Option<string>, nextExecution: Date)

  function ValidateRecurringCreate(budgetId: string, schedule: string, amount: real, currency: Option<string>,
                                   txType: string, category: string, subcategory: Option<string>,
                                   description: Option<string>, nextExecution: Date)
    : (r: Result<RecurringCreate>)
    ensures var c := if currency.Some? then currency.value else "USD";
      && (r.Ok? <==> IsSchedule(schedule) && TransactionFieldsValid(amount, c, category, subcategory, 1.0)
                     && ParseTransactionType(txType).Some?)
      && (r.Ok? ==> r.value == RecurringCreate(budgetId, schedule, amount, c, ParseTransactionType(txType).value,
                                               category, subcategory, description, nextExecution))
    ensures r.Err? ==> r.error == Unprocessable
  {
    var c := if currency.Some? then currency.value else "USD";
    match ParseTransactionType(txType)
    case None => Err(Unprocessable)
    case Some(t) =>
      if IsSchedule(schedule) && TransactionFieldsValid(amount, c, category, subcategory, 1.0) then
        Ok(RecurringCreate(budgetId, schedule, amount, c, t, category, subcategory, description, nextExecution))
      else Err(Unprocessable)
  }

  /** Exactly the four schedules pass, and every one fits the String(50)
      schedule column. */
  lemma Schedules(s: string)
    ensures IsSchedule(s) <==> s in {"daily", "weekly", "monthly", "yearly"}
    ensures IsSchedule(s) ==> |s| <= ScheduleWidth
    ensures !IsSchedule("Daily") && !IsSchedule("daily ")
  {
  }

  datatype RecurringUpdate = RecurringUpdate(
    schedule: Patch<string>, amount: Patch<real>, currency: Patch<string>, txType: Patch<TransactionType>,
    category: Patch<string>, subcategory: Patch<string>, description: Patch<string>,
    isActive: Patch<bool>, nextExecution: Patch<Date>)

  predicate RecurringUpdateValid(u: RecurringUpdate) {
    (u.schedule.SetTo? ==> IsSchedule(u.schedule.value))
    && (u.amount.SetTo? ==> u.amount.value > 0.0)
    && (u.currency.SetTo? ==> IsCurrencyCode(u.currency.value))
    && (u.category.SetTo? ==> LengthBetween(u.category.value, 1, 100))
    && (u.subcategory.SetTo? ==> |u.subcategory.value| <= 100)
  }

  datatype RecurringField =
    | ScheduleField(schedule: Option<string>)
    | RAmountField(amount: Option<real>)
    | RCurrencyField(currency: Option<string>)
    | RTypeField(txType: Option<TransactionType>)
    | RCategoryField(category: Option<string>)
    | RSubcategoryField(subcategory: Option<string>)
    | RDescriptionField(description: Option<string>)
    | IsActiveField(isActive: Option<bool>)
    | NextExecutionField(nextExecution: Option<Date>)

  // The item one field of a recurring update contributes.
  function ScheduleItem(u: RecurringUpdate): seq<RecurringField> { if u.schedule.Unset? then [] else [ScheduleField(PatchValue(u.schedule))] }
  function RAmountItem(u: RecurringUpdate): seq<RecurringField> { if u.amount.Unset? then [] else [RAmountField(PatchValue(u.amount))] }
  function RCurrencyItem(u: RecurringUpdate): seq<RecurringField> { if u.currency.Unset? then [] else [RCurrencyField(PatchValue(u.currency))] }
  function RTxTypeItem(u: RecurringUpdate): seq<RecurringField> { if u.txType.Unset? then [] else [RTypeField(PatchValue(u.txType))] }
  function RCategoryItem(u: RecurringUpdate): seq<RecurringField> { if u.category.Unset? then [] else [RCategoryField(PatchValue(u.category))] }
  function RSubcategoryItem(u: RecurringUpdate): seq<RecurringField> { if u.subcategory.Unset? then [] else [RSubcategoryField(PatchValue(u.subcategory))] }
  function RDescriptionItem(u: RecurringUpdate): seq<RecurringField> { if u.description.Unset? then [] else [RDescriptionField(PatchValue(u.description))] }
  function IsActiveItem(u: RecurringUpdate): seq<RecurringField> { if u.isActive.Unset? then [] else [IsActiveField(PatchValue(u.isActive))] }
  function NextExecutionItem(u: RecurringUpdate): seq<RecurringField> { if u.nextExecution.Unset? then [] else [NextExecutionField(PatchValue(u.nextExecution))] }

  /** `recurring_update.dict(exclude_unset=True).items()`, in declaration
      order. */
  function RecurringUpdateItems(u: RecurringUpdate): seq<RecurringField> {
    ScheduleItem(u) + RAmountItem(u) + RCurrencyItem(u) + RTxTypeItem(u) + RCategoryItem(u)
    + RSubcategoryItem(u) + RDescriptionItem(u) + IsActiveItem(u) + NextExecutionItem(u)
  }

  /** One item per field the body set, and none for the others. */
  lemma RecurringUpdateItemsCount(u: RecurringUpdate)
    ensures |RecurringUpdateItems(u)| == PatchCount(u.schedule) + PatchCount(u.amount) + PatchCount(u.currency)
                                       + PatchCount(u.txType) + PatchCount(u.category) + PatchCount(u.subcategory)
                                       + PatchCount(u.description) + PatchCount(u.isActive) + PatchCount(u.nextExecution)
  {
    assert |ScheduleItem(u)| == PatchCount(u.schedule) && |RAmountItem(u)| == PatchCount(u.amount);
    assert |RCurrencyItem(u)| == PatchCount(u.currency) && |RTxTypeItem(u)| == PatchCount(u.txType);
    assert |RCategoryItem(u)| == PatchCount(u.category) && |RSubcategoryItem(u)| == PatchCount(u.subcategory);
    assert |RDescriptionItem(u)| == PatchCount(u.description) && |IsActiveItem(u)| == PatchCount(u.isActive);
    assert |NextExecutionItem(u)| == PatchCount(u.nextExecution);
  }
}
