/** The request body of POST /sync/push (app/schemas/sync.py): four
    optional batches of free-form objects, each defaulting to the empty
    list. */
module SyncSchemas {
  import opened Common

  /** One pushed item: a JSON object. */
  type SyncItem = map<string, Json>

  /** SyncPushRequest; a batch the client sent as null is None. */
  datatype SyncPushRequest = SyncPushRequest(
    users: Option<seq<SyncItem>>,
    budgets: Option<seq<SyncItem>>,
    transactions: Option<seq<SyncItem>>,
    recurringTransactions: Option<seq<SyncItem>>)

  /** The body `{}`: every batch takes its default, the empty list. */
  const EmptyPush := SyncPushRequest(Some([]), Some([]), Some([]), Some([]))

  /** A batch as `if batch:` reads it: None and [] both give no items. */
  function BatchItems(b: Option<seq<SyncItem>>): seq<SyncItem> {
    if b.Some? then b.value else []
  }

  /** How many items the four batches hold together. */
  function TotalItems(req: SyncPushRequest): nat {
    |BatchItems(req.users)| + |BatchItems(req.budgets)| + |BatchItems(req.transactions)|
    + |BatchItems(req.recurringTransactions)|
  }
}
