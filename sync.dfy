/** SyncService of app/services/sync_service.py: the pull of rows updated
    since a timestamp, restricted to the caller's budgets; the push that
    runs every item of four batches through a per-item processor and
    tallies the outcomes; the conflict and status stubs; and the
    serializers that shape each row for the client. The clock read by
    get_sync_status is a parameter. */
module SyncServices {
  import opened Common
  import opened Models
  import opened Tables
  import opened Stores
  import opened UserSchemas
  import opened SyncSchemas

  // ---------------------------------------------------------- serializers

  function OptJson(o: Option<Json>): Json {
    if o.Some? then o.value else JNull
  }

  /** _serialize_user. The password hash, the Google id and the biometric
      hash are not part of it. */
  function SerializeUser(id: Id, u: User): map<string, Json> {
    map["id" := JStr(id), "name" := JStr(u.name), "email" := OptStr(u.email), "phone" := OptStr(u.phone),
        "auth_method" := JStr(AuthMethodName(u.authMethod)), "is_active" := OptBool(u.isActive),
        "created_at" := JTime(u.createdAt), "updated_at" := JTime(u.updatedAt),
        "sync_status" := JStr(SyncStatusName(u.syncStatus))]
  }

  /** _serialize_budget; an unset archived_at is None. */
  function SerializeBudget(id: Id, b: Budget): map<string, Json> {
    map["id" := JStr(id), "name" := JStr(b.name), "currency" := JStr(b.currency),
        "status" := JStr(BudgetStatusName(b.status)), "created_at" := JTime(b.createdAt),
        "updated_at" := JTime(b.updatedAt), "archived_at" := OptTime(b.archivedAt),
        "sync_status" := JStr(SyncStatusName(b.syncStatus))]
  }

  /** _serialize_transaction; the date is its day number, an unset
      deleted_at is None. */
  function SerializeTransaction(id: Id, t: Transaction): map<string, Json> {
    map["id" := JStr(id), "budget_id" := JStr(t.budgetId), "user_id" := JStr(t.userId),
        "amount" := JReal(t.amount), "currency" := JStr(t.currency), "type" := JStr(TransactionTypeName(t.txType)),
        "category" := JStr(t.category), "subcategory" := OptStr(t.subcategory),
        "description" := OptStr(t.description), "exchange_rate" := JReal(t.exchangeRate),
        "date" := JInt(t.date), "details" := OptJson(t.details),
        "created_at" := JTime(t.createdAt), "updated_at" := JTime(t.updatedAt),
        "deleted_at" := OptTime(t.deletedAt), "sync_status" := JStr(SyncStatusName(t.syncStatus))]
  }

  /** _serialize_recurring_transaction. recurring_type is not part of it. */
  function SerializeRecurring(id: Id, r: Recurring): map<string, Json> {
    map["id" := JStr(id), "budget_id" := JStr(r.budgetId), "user_id" := JStr(r.userId),
        "schedule" := JStr(r.schedule), "amount" := JReal(r.amount), "currency" := JStr(r.currency),
        "type" := JStr(TransactionTypeName(r.txType)), "category" := JStr(r.category),
        "subcategory" := OptStr(r.subcategory), "description" := OptStr(r.description),
        "is_active" := OptBool(r.isActive), "next_execution" := JInt(r.nextExecution),
        "created_at" := JTime(r.createdAt), "updated_at" := JTime(r.updatedAt),
        "sync_status" := JStr(SyncStatusName(r.syncStatus))]
  }

  /** Every key is stringified, and the unset timestamps become None. */
  lemma SerializedShapes(id: Id, b: Budget, tid: Id, t: Transaction, rid: Id, r: Recurring)
    ensures SerializeBudget(id, b)["id"] == JStr(id)
    ensures b.archivedAt.None? <==> SerializeBudget(id, b)["archived_at"] == JNull
    ensures SerializeTransaction(tid, t)["id"] == JStr(tid)
    ensures SerializeTransaction(tid, t)["budget_id"] == JStr(t.budgetId)
    ensures SerializeTransaction(tid, t)["user_id"] == JStr(t.userId)
    ensures t.deletedAt.None? <==> SerializeTransaction(tid, t)["deleted_at"] == JNull
    ensures SerializeRecurring(rid, r)["id"] == JStr(rid) && SerializeRecurring(rid, r)["budget_id"] == JStr(r.budgetId)
    ensures SerializeRecurring(rid, r)["user_id"] == JStr(r.userId)
  {
  }

  lemma OptStrInjective(a: Option<string>, b: Option<string>)
    requires OptStr(a) == OptStr(b)
    ensures a == b
  {
  }

  /** A serialized budget determines its id and every column. */
  lemma SerializeBudgetInjective(i1: Id, b1: Budget, i2: Id, b2: Budget)
    requires SerializeBudget(i1, b1) == SerializeBudget(i2, b2)
    ensures i1 == i2 && b1 == b2
  {
    var d1, d2 := SerializeBudget(i1, b1), SerializeBudget(i2, b2);
    assert d1["id"] == d2["id"] && d1["name"] == d2["name"] && d1["currency"] == d2["currency"];
    assert d1["status"] == d2["status"] && d1["created_at"] == d2["created_at"] && d1["updated_at"] == d2["updated_at"];
    assert d1["archived_at"] == d2["archived_at"] && d1["sync_status"] == d2["sync_status"];
    assert ParseBudgetStatus(BudgetStatusName(b1.status)) == Some(b1.status) by { EnumNamesRoundTrip(); }
    assert ParseBudgetStatus(BudgetStatusName(b2.status)) == Some(b2.status) by { EnumNamesRoundTrip(); }
    OptTimeInjective(b1.archivedAt, b2.archivedAt);
    SyncStatusNameInjective(b1.syncStatus, b2.syncStatus);
  }

  lemma SerializeTransactionAgreesOnKeys(i1: Id, t1: Transaction, i2: Id, t2: Transaction)
    requires SerializeTransaction(i1, t1) == SerializeTransaction(i2, t2)
    ensures i1 == i2 && t1.budgetId == t2.budgetId && t1.userId == t2.userId
    ensures t1.amount == t2.amount && t1.currency == t2.currency && t1.category == t2.category
    ensures t1.exchangeRate == t2.exchangeRate && t1.date == t2.date
  {
    var d1, d2 := SerializeTransaction(i1, t1), SerializeTransaction(i2, t2);
    assert d1["id"] == d2["id"] && d1["budget_id"] == d2["budget_id"] && d1["user_id"] == d2["user_id"];
    assert d1["amount"] == d2["amount"] && d1["currency"] == d2["currency"] && d1["category"] == d2["category"];
    assert d1["exchange_rate"] == d2["exchange_rate"] && d1["date"] == d2["date"];
  }

  lemma SerializeTransactionAgreesOnOptions(i1: Id, t1: Transaction, i2: Id, t2: Transaction)
    requires SerializeTransaction(i1, t1) == SerializeTransaction(i2, t2)
    ensures t1.subcategory == t2.subcategory && t1.description == t2.description
    ensures t1.deletedAt == t2.deletedAt && OptJson(t1.details) == OptJson(t2.details)
  {
    var d1, d2 := SerializeTransaction(i1, t1), SerializeTransaction(i2, t2);
    assert d1["subcategory"] == d2["subcategory"] && d1["description"] == d2["description"];
    assert d1["deleted_at"] == d2["deleted_at"] && d1["details"] == d2["details"];
    OptStrInjective(t1.subcategory, t2.subcategory);
    OptStrInjective(t1.description, t2.description);
    OptTimeInjective(t1.deletedAt, t2.deletedAt);
  }

  lemma SerializeTransactionAgreesOnEnums(i1: Id, t1: Transaction, i2: Id, t2: Transaction)
    requires SerializeTransaction(i1, t1) == SerializeTransaction(i2, t2)
    ensures t1.txType == t2.txType && t1.syncStatus == t2.syncStatus
    ensures t1.createdAt == t2.createdAt && t1.updatedAt == t2.updatedAt
  {
    var d1, d2 := SerializeTransaction(i1, t1), SerializeTransaction(i2, t2);
    assert d1["type"] == d2["type"] && d1["sync_status"] == d2["sync_status"];
    assert d1["created_at"] == d2["created_at"] && d1["updated_at"] == d2["updated_at"];
    assert ParseTransactionType(TransactionTypeName(t1.txType)) == Some(t1.txType) by { EnumNamesRoundTrip(); }
    assert ParseTransactionType(TransactionTypeName(t2.txType)) == Some(t2.txType) by { EnumNamesRoundTrip(); }
    SyncStatusNameInjective(t1.syncStatus, t2.syncStatus);
  }

  /** A serialized transaction determines its id and every column, except
      that a details value of JSON null and no details at all coincide. */
  lemma SerializeTransactionInjective(i1: Id, t1: Transaction, i2: Id, t2: Transaction)
    requires SerializeTransaction(i1, t1) == SerializeTransaction(i2, t2)
    ensures i1 == i2 && t1.(details := None) == t2.(details := None)
    ensures OptJson(t1.details) == OptJson(t2.details)
  {
    SerializeTransactionAgreesOnKeys(i1, t1, i2, t2);
    SerializeTransactionAgreesOnOptions(i1, t1, i2, t2);
    SerializeTransactionAgreesOnEnums(i1, t1, i2, t2);
  }

  /** The credentials never leave the server: users that differ only in
      their password hash, Google id and biometric hash look the same. */
  lemma SerializeUserHidesCredentials(id: Id, u: User, passwordHash: Option<string>, googleId: Option<string>,
                                      biometricHash: Option<string>)
    ensures SerializeUser(id, u.(passwordHash := passwordHash, googleId := googleId, biometricHash := biometricHash))
         == SerializeUser(id, u)
    ensures "password_hash" !in SerializeUser(id, u) && "biometric_hash" !in SerializeUser(id, u)
  {
  }

  /** recurring_type is not sent: rows that differ only in it look the same. */
  lemma SerializeRecurringOmitsType(id: Id, r: Recurring, t: RecurringType)
    ensures SerializeRecurring(id, r.(recurringType := t)) == SerializeRecurring(id, r)
    ensures "recurring_type" !in SerializeRecurring(id, r)
  {
  }

  // ----------------------------------------------------------------- pull

  /** `since`, or `datetime.min` when the client gave none. */
  function Since(since: Option<Time>): Time {
    if since.Some? then since.value else MinTime
  }

  /** The `user_budgets` subquery: the budgets the caller has a row on, in
      any role. */
  function MemberBudgets(db: Db, u: Id): set<Id> {
    set m | m in db.memberships && db.memberships[m].userId == u :: db.memberships[m].budgetId
  }

  /** One users row or none: the caller, when updated after `since`. */
  function PulledUser(db: Db, u: Id, since: Time): set<Id> {
    if u in db.users && db.users[u].updatedAt > since then {u} else {}
  }

  function PulledBudgets(db: Db, u: Id, since: Time): set<Id> {
    set b | b in db.budgets && b in MemberBudgets(db, u) && db.budgets[b].updatedAt > since
  }

  function PulledTransactions(db: Db, u: Id, since: Time): set<Id> {
    set t | t in db.transactions && db.transactions[t].budgetId in MemberBudgets(db, u)
                                 && db.transactions[t].updatedAt > since
  }

  function PulledRecurring(db: Db, u: Id, since: Time): set<Id> {
    set r | r in db.recurring && db.recurring[r].budgetId in MemberBudgets(db, u)
                              && db.recurring[r].updatedAt > since
  }

  /** A row qualifies exactly when it belongs to a budget the caller has a
      membership on, whatever its role, and was updated strictly after
      `since`; a pulled user is the caller. */
  lemma PulledRows(db: Db, u: Id, since: Time, b: Id, t: Id, r: Id)
    ensures b in PulledBudgets(db, u, since) <==>
      b in db.budgets && db.budgets[b].updatedAt > since
      && exists m :: m in db.memberships && db.memberships[m].userId == u && db.memberships[m].budgetId == b
    ensures t in PulledTransactions(db, u, since) <==>
      t in db.transactions && db.transactions[t].updatedAt > since
      && exists m :: m in db.memberships && db.memberships[m].userId == u
                     && db.memberships[m].budgetId == db.transactions[t].budgetId
    ensures r in PulledRecurring(db, u, since) <==>
      r in db.recurring && db.recurring[r].updatedAt > since
      && exists m :: m in db.memberships && db.memberships[m].userId == u
                     && db.memberships[m].budgetId == db.recurring[r].budgetId
    ensures PulledUser(db, u, since) <= {u}
  {
    if b in db.budgets && db.budgets[b].updatedAt > since
       && exists m :: m in db.memberships && db.memberships[m].userId == u && db.memberships[m].budgetId == b {
      var m :| m in db.memberships && db.memberships[m].userId == u && db.memberships[m].budgetId == b;
      assert b in MemberBudgets(db, u);
    }
    if t in db.transactions && exists m :: m in db.memberships && db.memberships[m].userId == u
                                           && db.memberships[m].budgetId == db.transactions[t].budgetId {
      var m :| m in db.memberships && db.memberships[m].userId == u
               && db.memberships[m].budgetId == db.transactions[t].budgetId;
      assert db.transactions[t].budgetId in MemberBudgets(db, u);
    }
    if r in db.recurring && exists m :: m in db.memberships && db.memberships[m].userId == u
                                        && db.memberships[m].budgetId == db.recurring[r].budgetId {
      var m :| m in db.memberships && db.memberships[m].userId == u
               && db.memberships[m].budgetId == db.recurring[r].budgetId;
      assert db.recurring[r].budgetId in MemberBudgets(db, u);
    }
  }

  /** The filter is strict: a row updated exactly at `since` is not pulled,
      and a later `since` never pulls more. */
  lemma PullIsStrictAndMonotone(db: Db, u: Id, s1: Time, s2: Time)
    requires s1 <= s2
    ensures PulledUser(db, u, s2) <= PulledUser(db, u, s1)
    ensures PulledBudgets(db, u, s2) <= PulledBudgets(db, u, s1)
    ensures PulledTransactions(db, u, s2) <= PulledTransactions(db, u, s1)
    ensures PulledRecurring(db, u, s2) <= PulledRecurring(db, u, s1)
    ensures forall b :: b in db.budgets && db.budgets[b].updatedAt == s2 ==> b !in PulledBudgets(db, u, s2)
    ensures forall t :: t in db.transactions && db.transactions[t].updatedAt == s2 ==> t !in PulledTransactions(db, u, s2)
    ensures forall r :: r in db.recurring && db.recurring[r].updatedAt == s2 ==> r !in PulledRecurring(db, u, s2)
    ensures u in db.users && db.users[u].updatedAt == s2 ==> PulledUser(db, u, s2) == {}
  {
  }

  /** With no `since`, every row of the caller's budgets updated after
      `datetime.min` is pulled, and so is the caller: no `since` pulls at
      least as much as any `since` at or after `datetime.min`. */
  lemma PullWithoutSince(db: Db, u: Id, s: Time)
    requires s >= MinTime
    ensures Since(None) == MinTime
    ensures PulledBudgets(db, u, s) <= PulledBudgets(db, u, Since(None))
    ensures PulledTransactions(db, u, s) <= PulledTransactions(db, u, Since(None))
    ensures PulledRecurring(db, u, s) <= PulledRecurring(db, u, Since(None))
    ensures u in db.users && db.users[u].updatedAt > MinTime ==> PulledUser(db, u, Since(None)) == {u}
  {
    PullIsStrictAndMonotone(db, u, MinTime, s);
  }

  /** Neither the budget's status nor a transaction's soft delete matters:
      archiving a budget (which moves updated_at) keeps it and its rows in
      the pull, and a soft-deleted transaction is still sent. */
  lemma PullIgnoresStatusAndDeletion(db: Db, u: Id, since: Time, b: Id, t: Id, when: Time)
    requires b in db.budgets && t in db.transactions
    ensures var db' := db.(budgets := db.budgets[b := db.budgets[b].(status := Archived, archivedAt := Some(when))]);
      PulledBudgets(db', u, since) == PulledBudgets(db, u, since)
      && PulledTransactions(db', u, since) == PulledTransactions(db, u, since)
    ensures var db' := db.(transactions := db.transactions[t := db.transactions[t].(deletedAt := Some(when))]);
      PulledTransactions(db', u, since) == PulledTransactions(db, u, since)
  {
    var db1 := db.(budgets := db.budgets[b := db.budgets[b].(status := Archived, archivedAt := Some(when))]);
    assert MemberBudgets(db1, u) == MemberBudgets(db, u);
    var db2 := db.(transactions := db.transactions[t := db.transactions[t].(deletedAt := Some(when))]);
    assert MemberBudgets(db2, u) == MemberBudgets(db, u);
  }

  /** What pull_changes returns. */
  datatype PullResult = PullResult(
    users: seq<map<string, Json>>,
    budgets: seq<map<string, Json>>,
    transactions: seq<map<string, Json>>,
    recurringTransactions: seq<map<string, Json>>)

  // ----------------------------------------------------------------- push

  /** The status an item processor reports: "processed", "conflict" with
      the conflict, or another status, which the push ignores. */
  datatype ItemOutcome = Processed | Conflict(conflict: Json) | OtherStatus

  datatype BatchKind = UsersBatch | BudgetsBatch | TransactionsBatch | RecurringBatch

  /** _process_user_sync, _process_budget_sync, _process_transaction_sync
      and _process_recurring_sync: each reports "processed" and changes
      nothing. */
  function ProcessItem(kind: BatchKind, userId: Id, item: SyncItem): ItemOutcome {
    Processed
  }

  /** The outcomes of one batch, item by item. */
  function BatchOutcomes(kind: BatchKind, userId: Id, items: seq<SyncItem>): (os: seq<ItemOutcome>)
    ensures |os| == |items|
    ensures forall i :: 0 <= i < |items| ==> os[i] == ProcessItem(kind, userId, items[i])
  {
    if items == [] then [] else BatchOutcomes(kind, userId, items[..|items| - 1]) + [ProcessItem(kind, userId, items[|items| - 1])]
  }

  /** The outcomes of the whole push: users, budgets, transactions, then
      recurring transactions. */
  function PushOutcomes(userId: Id, req: SyncPushRequest): seq<ItemOutcome> {
    BatchOutcomes(UsersBatch, userId, BatchItems(req.users))
    + BatchOutcomes(BudgetsBatch, userId, BatchItems(req.budgets))
    + BatchOutcomes(TransactionsBatch, userId, BatchItems(req.transactions))
    + BatchOutcomes(RecurringBatch, userId, BatchItems(req.recurringTransactions))
  }

  /** The push's `processed` counter and `conflicts` list after `os`,
      starting from `processed0` and `conflicts0`. */
  function TallyFrom(processed0: nat, conflicts0: seq<Json>, os: seq<ItemOutcome>): (nat, seq<Json>) {
    if os == [] then (processed0, conflicts0)
    else
      var (p, c) := TallyFrom(processed0, conflicts0, os[..|os| - 1]);
      match os[|os| - 1]
      case Processed => (p + 1, c)
      case Conflict(x) => (p, c + [x])
      case OtherStatus => (p, c)
  }

  /** Every outcome is counted at most once, and conflicts are only ever
      appended. */
  lemma {:induction false} TallyBound(processed0: nat, conflicts0: seq<Json>, os: seq<ItemOutcome>)
    ensures var (p, c) := TallyFrom(processed0, conflicts0, os);
      p + |c| <= processed0 + |conflicts0| + |os| && p >= processed0 && conflicts0 <= c
  {
    if os != [] {
      TallyBound(processed0, conflicts0, os[..|os| - 1]);
    }
  }

  /** Tallying two runs of outcomes one after the other. */
  lemma {:induction false} TallyAppend(processed0: nat, conflicts0: seq<Json>, xs: seq<ItemOutcome>, ys: seq<ItemOutcome>)
    ensures TallyFrom(processed0, conflicts0, xs + ys)
         == TallyFrom(TallyFrom(processed0, conflicts0, xs).0, TallyFrom(processed0, conflicts0, xs).1, ys)
  {
    if ys == [] {
      assert xs + ys == xs;
    } else {
      assert (xs + ys)[..|xs + ys| - 1] == xs + ys[..|ys| - 1];
      TallyAppend(processed0, conflicts0, xs, ys[..|ys| - 1]);
    }
  }

  /** When every item is processed, the counter counts them all and no
      conflict is reported. */
  lemma {:induction false} TallyAllProcessed(processed0: nat, conflicts0: seq<Json>, os: seq<ItemOutcome>)
    requires forall i :: 0 <= i < |os| ==> os[i] == Processed
    ensures TallyFrom(processed0, conflicts0, os) == (processed0 + |os|, conflicts0)
  {
    if os != [] {
      TallyAllProcessed(processed0, conflicts0, os[..|os| - 1]);
    }
  }

  /** With the current processors, a push processes every item of every
      batch and reports no conflict; a request whose batches are all empty
      or null processes nothing. */
  lemma PushProcessesEverything(userId: Id, req: SyncPushRequest)
    ensures TallyFrom(0, [], PushOutcomes(userId, req)) == (TotalItems(req), [])
    ensures TotalItems(EmptyPush) == 0 && TotalItems(SyncPushRequest(None, None, None, None)) == 0
  {
    var os := PushOutcomes(userId, req);
    forall i | 0 <= i < |os| ensures os[i] == Processed {
    }
    TallyAllProcessed(0, [], os);
  }

  // ----------------------------------------------------- conflicts, status

  datatype ResolveResult = ResolveResult(resolvedCount: nat, remainingConflicts: nat)

  datatype SyncStatusReport = SyncStatusReport(lastSync: Time, pendingChanges: nat, conflictsCount: nat, syncHealth: string)

  class SyncService {
    const store: Store

    constructor (store: Store)
      ensures this.store == store
    {
      this.store := store;
    }

    /** One batch of push_changes: each item through its processor, the
        outcome added to the running counters. */
    method PushBatch(kind: BatchKind, userId: Id, items: seq<SyncItem>, processed0: nat, conflicts0: seq<Json>)
      returns (processed: nat, conflicts: seq<Json>)
      ensures (processed, conflicts) == TallyFrom(processed0, conflicts0, BatchOutcomes(kind, userId, items))
    {
      processed, conflicts := processed0, conflicts0;
      for i := 0 to |items|
        invariant (processed, conflicts) == TallyFrom(processed0, conflicts0, BatchOutcomes(kind, userId, items[..i]))
      {
        var result := ProcessItem(kind, userId, items[i]);
        var before := BatchOutcomes(kind, userId, items[..i]);
        assert items[..i + 1][..i] == items[..i];
        assert BatchOutcomes(kind, userId, items[..i + 1]) == before + [result];
        assert (before + [result])[..|before|] == before;
        if result.Processed? {
          processed := processed + 1;
        } else if result.Conflict? {
          conflicts := conflicts + [result.conflict];
        }
      }
      assert items[..|items|] == items;
    }

    /** push_changes: the four batches in order, then one commit. The
        processors write nothing, so the store is left as it was. */
    method PushChanges(userId: Id, req: SyncPushRequest) returns (processed: nat, conflicts: seq<Json>)
      ensures (processed, conflicts) == TallyFrom(0, [], PushOutcomes(userId, req))
      ensures processed + |conflicts| <= TotalItems(req)
    {
      var us := BatchOutcomes(UsersBatch, userId, BatchItems(req.users));
      var bs := BatchOutcomes(BudgetsBatch, userId, BatchItems(req.budgets));
      var ts := BatchOutcomes(TransactionsBatch, userId, BatchItems(req.transactions));
      var rs := BatchOutcomes(RecurringBatch, userId, BatchItems(req.recurringTransactions));
      processed, conflicts := 0, [];
      processed, conflicts := PushBatch(UsersBatch, userId, BatchItems(req.users), processed, conflicts);
      processed, conflicts := PushBatch(BudgetsBatch, userId, BatchItems(req.budgets), processed, conflicts);
      TallyAppend(0, [], us, bs);
      processed, conflicts := PushBatch(TransactionsBatch, userId, BatchItems(req.transactions), processed, conflicts);
      TallyAppend(0, [], us + bs, ts);
      processed, conflicts := PushBatch(RecurringBatch, userId, BatchItems(req.recurringTransactions), processed, conflicts);
      TallyAppend(0, [], us + bs + ts, rs);
      TallyBound(0, [], PushOutcomes(userId, req));
    }

    /** The budgets query of pull_changes and its serializing loop. */
    method PullBudgets(userId: Id, since: Time) returns (out: seq<map<string, Json>>, ghost ids: seq<Id>)
      ensures Distinct(ids) && forall b :: b in ids <==> b in PulledBudgets(store.State(), userId, since)
      ensures |out| == |ids|
      ensures forall i :: 0 <= i < |ids| ==> ids[i] in store.budgets && out[i] == SerializeBudget(ids[i], store.budgets[ids[i]])
    {
      var rows := Enumerate(PulledBudgets(store.State(), userId, since));
      out := [];
      for i := 0 to |rows|
        invariant |out| == i
        invariant forall k :: 0 <= k < i ==> rows[k] in store.budgets && out[k] == SerializeBudget(rows[k], store.budgets[rows[k]])
      {
        assert rows[i] in rows;
        out := out + [SerializeBudget(rows[i], store.budgets[rows[i]])];
      }
      ids := rows;
    }

    /** The transactions query of pull_changes and its serializing loop. */
    method PullTransactions(userId: Id, since: Time) returns (out: seq<map<string, Json>>, ghost ids: seq<Id>)
      ensures Distinct(ids) && forall t :: t in ids <==> t in PulledTransactions(store.State(), userId, since)
      ensures |out| == |ids|
      ensures forall i :: 0 <= i < |ids| ==>
        ids[i] in store.transactions && out[i] == SerializeTransaction(ids[i], store.transactions[ids[i]])
    {
      var rows := Enumerate(PulledTransactions(store.State(), userId, since));
      out := [];
      for i := 0 to |rows|
        invariant |out| == i
        invariant forall k :: 0 <= k < i ==>
          rows[k] in store.transactions && out[k] == SerializeTransaction(rows[k], store.transactions[rows[k]])
      {
        assert rows[i] in rows;
        out := out + [SerializeTransaction(rows[i], store.transactions[rows[i]])];
      }
      ids := rows;
    }

    /** The recurring transactions query of pull_changes and its serializing loop. */
    method PullRecurring(userId: Id, since: Time) returns (out: seq<map<string, Json>>, ghost ids: seq<Id>)
      ensures Distinct(ids) && forall r :: r in ids <==> r in PulledRecurring(store.State(), userId, since)
      ensures |out| == |ids|
      ensures forall i :: 0 <= i < |ids| ==> ids[i] in store.recurring && out[i] == SerializeRecurring(ids[i], store.recurring[ids[i]])
    {
      var rows := Enumerate(PulledRecurring(store.State(), userId, since));
      out := [];
      for i := 0 to |rows|
        invariant |out| == i
        invariant forall k :: 0 <= k < i ==> rows[k] in store.recurring && out[k] == SerializeRecurring(rows[k], store.recurring[rows[k]])
      {
        assert rows[i] in rows;
        out := out + [SerializeRecurring(rows[i], store.recurring[rows[i]])];
      }
      ids := rows;
    }

    /** pull_changes: the caller's own record when updated after `since`,
        and every qualifying row of the other three tables once each, in
        the store's order. */
    method PullChanges(userId: Id, since: Option<Time>)
      returns (r: PullResult, ghost budgetIds: seq<Id>, ghost transactionIds: seq<Id>, ghost recurringIds: seq<Id>)
      ensures r.users == if userId in PulledUser(store.State(), userId, Since(since))
                         then [SerializeUser(userId, store.users[userId])] else []
      ensures Distinct(budgetIds) && forall b :: b in budgetIds <==> b in PulledBudgets(store.State(), userId, Since(since))
      ensures |r.budgets| == |budgetIds|
      ensures forall i :: 0 <= i < |budgetIds| ==>
        budgetIds[i] in store.budgets && r.budgets[i] == SerializeBudget(budgetIds[i], store.budgets[budgetIds[i]])
      ensures Distinct(transactionIds)
      ensures forall t :: t in transactionIds <==> t in PulledTransactions(store.State(), userId, Since(since))
      ensures |r.transactions| == |transactionIds|
      ensures forall i :: 0 <= i < |transactionIds| ==>
        && transactionIds[i] in store.transactions
        && r.transactions[i] == SerializeTransaction(transactionIds[i], store.transactions[transactionIds[i]])
      ensures Distinct(recurringIds) && forall x :: x in recurringIds <==> x in PulledRecurring(store.State(), userId, Since(since))
      ensures |r.recurringTransactions| == |recurringIds|
      ensures forall i :: 0 <= i < |recurringIds| ==>
        && recurringIds[i] in store.recurring
        && r.recurringTransactions[i] == SerializeRecurring(recurringIds[i], store.recurring[recurringIds[i]])
    {
      var s := Since(since);
      var users: seq<map<string, Json>> := [];
      if userId in store.users && store.users[userId].updatedAt > s {
        users := [SerializeUser(userId, store.users[userId])];
      }
      var budgets, transactions, recurring;
      budgets, budgetIds := PullBudgets(userId, s);
      transactions, transactionIds := PullTransactions(userId, s);
      recurring, recurringIds := PullRecurring(userId, s);
      r := PullResult(users, budgets, transactions, recurring);
    }

    /** get_user_conflicts: no conflict is ever stored. */
    function GetUserConflicts(userId: Id): (conflicts: seq<Json>)
      ensures conflicts == []
    {
      []
    }

    /** resolve_conflicts: nothing is resolved and nothing remains. */
    function ResolveConflicts(userId: Id, resolutions: map<string, Json>): (r: ResolveResult)
      ensures r.resolvedCount == 0 && r.remainingConflicts == 0
    {
      ResolveResult(0, 0)
    }

    /** get_sync_status, with `now` the clock reading: always healthy,
        never anything pending. */
    function GetSyncStatus(userId: Id, now: Time): (r: SyncStatusReport)
      ensures r.lastSync == now && r.pendingChanges == 0 && r.conflictsCount == 0 && r.syncHealth == "healthy"
    {
      SyncStatusReport(now, 0, 0, "healthy")
    }
  }
}
