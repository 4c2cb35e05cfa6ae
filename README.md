# spendro-api core, modelled in Dafny

spendro-api is a FastAPI backend for collaborative budgets. Users hold
memberships on budgets with one of three roles:

- **admin**: manages the budget and its members;
- **editor**: records transactions;
- **viewer**: reads.

A PostgreSQL trigger deletes a budget when its last admin membership goes. The
services on top of it do the following:

- gate every budget operation on these roles and on the budget being active;
- scope transactions and recurring transactions to the caller's budgets;
- synchronise offline clients by pulling rows updated after a timestamp and
  pushing batches of changes.

Around that core sit a per-IP sliding-window rate limiter, an in-memory TTL
cache, the JWT middleware, the read-through current-user lookup and the
Pydantic request validators.

## Structure of the model

The database is one value, `Tables.Db`: a map per table, keyed by primary id.
The ORM cascades and the trigger are pure functions on it.

- `Tables.WithoutBudget` is `DELETE FROM budgets` with its ON DELETE CASCADE
  rules.
- `AdminGuard.DeleteMembershipRow` is one `user_budgets` delete followed by
  the trigger.
- `AdminGuard.AfterMembershipDeletes` describes any number of such deletes,
  in any order.

The session is the class `Stores.Store`, whose fields are those maps. Every
store method states its new `State()` as one of those functions of the old
one. Services are classes holding the store, and each service method is
proved against a specification function of the old state.

The setattr loops over a Pydantic dump are folds over the dump's items. Each
fold is proved equal to a field-by-field patch. The push loop, the pull's
serialising loops, the rate limiter's prune loop and the cache's eviction loop
are `while`/`for` loops carrying their invariants.

The external pieces are parameters:

- time (`now`);
- fresh ids;
- password hashing and verification;
- JWT verification;
- SHA-256, the PostgreSQL date cast and Pydantic's `EmailStr` validator (a check that also normalises the address);
- the cache size estimate.

Each one is named where it is used.

## Model

| member | source | states |
|---|---|---|
| Models.ParseAuthMethod | app/models/models.py:11-15 | exactly the four auth method values parse, each to the member of that name |
| Models.ParseTransactionType | app/models/models.py:17-20 | exactly income, expense and investment parse, each to its member |
| Models.ParseBudgetStatus | app/models/models.py:22-25 | exactly active, archived and suspended parse, each to its member |
| Models.ParseRole | app/models/models.py:27-30 | exactly admin, editor and viewer parse, each to its member |
| Models.EnumNamesRoundTrip | app/models/models.py:11-30 | every enumeration member is recovered from its stored value |
| Models.NewBudget | app/models/models.py:62-72 | a new budget is active, not archived, synced, in USD unless a currency is given, created and updated now |
| Models.NewMembership | app/models/models.py:79-86 | a new membership has the viewer role unless a role is given |
| Models.NewUser | app/models/models.py:41-55 | a new user is active and synced, with no Google id or biometric hash, and uses email auth unless a method is given |
| Models.NewTransaction | app/models/models.py:92-110 | a new transaction carries the given budget, author, amount, type, category, subcategory, description, date and details; it has exchange rate 1.0 and currency USD unless given, is not deleted, and is synced |
| Tables.RowSetsMeaning | app/models/models.py:79-90 | the rows joining a user to a budget are the user's rows that are also the budget's; a budget's admin rows are among its rows; two budgets share no row; every row is among its user's and its budget's rows |
| Tables.UniquePairRow | app/models/models.py:79-90 | nothing in the schema makes the (user, budget) pair unique; when the services keep it unique, a user has at most one row on a budget |
| Tables.WithoutBudgets | app/models/models.py:75-77 | deleting a set of budgets removes exactly them and the memberships, transactions and recurring rows pointing at them |
| Tables.WithoutBudget | app/models/models.py:75-77 | deleting one budget removes exactly it and its memberships, transactions and recurring rows |
| Tables.WithoutCategory | app/models/models.py:151-157 | deleting a category removes exactly it and its subcategories |
| Tables.WithoutBudgetKeepsOthers | app/models/models.py:75-77 | a budget cascade leaves every other budget, its rows and its admin rows unchanged |
| Tables.WithoutBudgetValid | app/models/models.py:75-84 | a budget cascade keeps referential integrity and the unique columns, and if every budget had an admin, every remaining one still has |
| Tables.WithoutCategoryValid | app/models/models.py:151-157 | a category cascade keeps every constraint |
| AdminGuard.DeleteMembershipRow | alembic/versions/b2cb4a921abe_add_budget_admin_deletion_trigger.py:22-42 | the row is gone and users and categories are untouched |
| AdminGuard.NonAdminDeleteKeepsBudgets | alembic/versions/b2cb4a921abe_add_budget_admin_deletion_trigger.py:26-38 | deleting a non-admin row deletes only that row and never a budget |
| AdminGuard.OtherAdminKeepsBudget | alembic/versions/b2cb4a921abe_add_budget_admin_deletion_trigger.py:28-34 | deleting an admin row while another admin row exists deletes only that row and the budget stays |
| AdminGuard.LastAdminDeletesBudget | alembic/versions/b2cb4a921abe_add_budget_admin_deletion_trigger.py:28-36 | deleting the only admin row deletes its budget, with that budget's cascades |
| AdminGuard.DeletesAtMostThatBudget | alembic/versions/b2cb4a921abe_add_budget_admin_deletion_trigger.py:36-40 | no budget other than the deleted row's may disappear, and the rows of every other budget are untouched |
| AdminGuard.DeletePreservesAdmins | alembic/versions/b2cb4a921abe_add_budget_admin_deletion_trigger.py:26-37 | every budget that survives a delete and had an admin row still has one |
| AdminGuard.DeleteMembershipRowValid | alembic/versions/b2cb4a921abe_add_budget_admin_deletion_trigger.py:22-50 | a membership delete keeps every constraint, and if every budget had an admin, every remaining budget still has one |
| AdminGuard.Doomed | alembic/versions/b2cb4a921abe_add_budget_admin_deletion_trigger.py:26-36 | the budgets a set of row deletes takes away are exactly those whose admin rows are all among them |
| AdminGuard.AfterMembershipDeletes | alembic/versions/b2cb4a921abe_add_budget_admin_deletion_trigger.py:46-51 | the state after deleting a set of rows one by one, each with its trigger: independent of the order, with the doomed budgets and their rows cascaded |
| AdminGuard.DeleteStep | alembic/versions/b2cb4a921abe_add_budget_admin_deletion_trigger.py:47-50 | one more row deleted, with its trigger, gives the characterised state for the larger set |
| AdminGuard.OrmBudgetDeleteIsCascade | app/models/models.py:75-77 | the ORM budget delete, whose membership deletes each fire the trigger, ends in the plain budget cascade |
| AdminGuard.UserDeleted | app/models/models.py:58-60 | the user row is gone |
| AdminGuard.UserDeletedCascades | app/models/models.py:58-60 | no membership, transaction or recurring row of the deleted user is left |
| AdminGuard.UserDeletedBudgets | app/models/models.py:58-60 | a user delete takes away exactly the budgets that had admin rows, all of them that user's |
| AdminGuard.UserDeletedValid | app/models/models.py:58-60 | a user delete keeps every constraint and keeps an admin on every surviving budget |
| Stores.Store.constructor | app/models/models.py:41-163 | the session starts on the empty database |
| Stores.Store.InsertUser | app/models/models.py:46-50 | the insert commits exactly when the email, phone and Google id are free, and adds exactly that row |
| Stores.Store.UpdateUserRow | app/models/models.py:46-50 | writing a users row back commits exactly when no other user holds its unique values |
| Stores.Store.PutBudget | app/models/models.py:62-72 | writes one budgets row and nothing else |
| Stores.Store.InsertMembership | app/models/models.py:82-84 | the insert commits exactly when both foreign keys resolve |
| Stores.Store.PutMembership | app/models/models.py:79-86 | writes one user_budgets row and nothing else |
| Stores.Store.InsertTransaction | app/models/models.py:95-97 | the insert commits exactly when the budget and the author exist |
| Stores.Store.PutTransaction | app/models/models.py:95-97 | writing back commits exactly when the foreign keys resolve |
| Stores.Store.InsertRecurring | app/models/models.py:119-121 | the insert commits exactly when the budget and the author exist |
| Stores.Store.PutRecurring | app/models/models.py:119-121 | writing back commits exactly when the foreign keys resolve |
| Stores.Store.CascadeBudget | app/models/models.py:83-84 | the state becomes the budget cascade of the old one |
| Stores.Store.DeleteMembership | alembic/versions/b2cb4a921abe_add_budget_admin_deletion_trigger.py:46-51 | the state becomes the row delete followed by the trigger |
| Stores.Store.DeleteMembershipRows | alembic/versions/b2cb4a921abe_add_budget_admin_deletion_trigger.py:47-50 | deleting a set of rows one at a time, each firing the trigger, ends in the order-independent characterisation |
| Stores.Store.DeleteBudget | app/models/models.py:75-77 | the ORM budget delete ends in the budget cascade |
| Stores.Store.DeleteUser | app/models/models.py:58-60 | the ORM user delete ends in the user delete characterisation |
| Stores.Store.DeleteTransaction | app/models/models.py:92-114 | removes exactly that transactions row |
| Stores.Store.DeleteRecurring | app/models/models.py:116-138 | removes exactly that recurring row |
| Stores.Store.DeleteCategory | app/models/models.py:151-157 | the state becomes the category cascade |
| Uuid.ParseUuid | app/services/budget_service.py:331-336 | a string parses exactly when its hex part (after the urn:, uuid:, brace and hyphen removal) has 32 characters that int(_, 16) reads as a value that is not negative, and the UUID is that value; 32 characters never reach 2^128 |
| Uuid.ParseUuidOfHexDigits | app/services/budget_service.py:331-336 | conversely, every string whose hex part is 32 hex digits of either case is a valid UUID with those digits' value |
| Uuid.BracedUuid | app/services/budget_service.py:331-336 | the braced form of a UUID's string names the same UUID |
| Uuid.UrnUuid | app/services/budget_service.py:331-336 | the urn:uuid: form names the same UUID |
| Uuid.HexOnlyUuid | app/services/budget_service.py:331-336 | the 32 digits without hyphens name the same UUID |
| Uuid.UpperUuid | app/services/budget_service.py:331-336 | the upper-case form names the same UUID |
| Uuid.UuidString | app/schemas/transaction.py:39-44 | str(uuid) is 36 characters with hyphens at positions 8, 13, 18 and 23 |
| Uuid.UuidStringRoundTrip | app/services/budget_service.py:331-336 | the canonical form of any UUID parses back to that UUID |
| Uuid.ConvertUuidToStr | app/schemas/transaction.py:39-44 | a UUID becomes a string that parses back to it and is a valid UUID; any other value is returned unchanged |
| Uuid.HexDigitsValue | app/services/budget_service.py:331-336 | the digits written for a value read back to that value |
| Uuid.ParseHexInt | app/services/budget_service.py:331-336 | int(s, 16) succeeds exactly when what is left after whitespace, a sign and a 0x prefix is a run of hex digits with single underscores; the value is that run's, negated exactly when the stripped string starts with '-', and below 16 to the length of s in size |
| Uuid.ParsePlainHex | app/services/budget_service.py:331-336 | a string of hex digits of either case reads as its value |
| Uuid.HexValueBound | app/services/budget_service.py:331-336 | n hex digits are worth less than 16^n |
| Fields.PhoneDigitCount | app/schemas/user.py:6-9 | the phone pattern holds exactly for an optional '+' followed by 9 to 15 digits, or 16 when the first is a '1' |
| Fields.PhoneFitsColumn | app/models/models.py:47-47 | a phone that passes the pattern has 9 to 17 characters and fits the String(20) column |
| UserSchemas.ValidateUserCreate | app/schemas/user.py:6-15 | a body passes exactly when the name, email, phone, password length and auth method are valid; the validated email is EmailStr's normalised address and the auth method defaults to email |
| UserSchemas.UserBaseFitsColumns | app/schemas/user.py:6-9 | a validated name and phone fit their columns |
| UserSchemas.ValidateUserUpdate | app/schemas/user.py:17-21 | an update body passes exactly under the name, email and phone constraints; a set email becomes its normalised address and everything else stays as sent |
| UserSchemas.UserUpdateItems | app/schemas/user.py:17-21 | the dump holds one item per field the body set, in declaration order, carrying the value or an explicit null |
| UserSchemas.UserToDict | app/schemas/user.py:46-57 | exactly the keys id, name, email, phone, is_active and auth_method, with the id stringified |
| UserSchemas.UserFromDict | app/schemas/user.py:59-63 | succeeds exactly when every key is an accepted argument, and each mapped column then reads back as given |
| UserSchemas.CacheRoundTrip | app/schemas/user.py:46-63 | rebuilding from user_to_dict never fails and reproduces the id, name, email, phone, activity and auth method |
| UserSchemas.UserToDictInjective | app/schemas/user.py:46-57 | equal dictionaries come from users that agree on all six fields |
| BudgetSchemas.ValidateBudgetCreate | app/schemas/budget.py:7-9 | a body passes exactly when the name is 1 to 255 characters and a given currency is three capitals; the currency defaults to USD |
| BudgetSchemas.BudgetCreateFitsColumns | app/schemas/budget.py:7-9 | a validated body fits the name and currency columns |
| BudgetSchemas.UpdateItems | app/schemas/budget.py:14-17 | one dump item per set field, in declaration order, carrying the value or an explicit null |
| BudgetSchemas.ValidateUserRoleUpdate | app/schemas/budget.py:19-20 | exactly admin, editor and viewer pass, each to that role |
| BudgetSchemas.MemberEntries | app/schemas/budget.py:50-57 | at most one entry per membership row |
| BudgetSchemas.MemberEntriesComplete | app/schemas/budget.py:50-57 | with every user present, each row gives exactly its own entry, in order |
| BudgetSchemas.MemberEntriesSkipMissing | app/schemas/budget.py:50-57 | rows whose user is missing give no entry |
| BudgetSchemas.BudgetToDict | app/schemas/budget.py:59-69 | exactly the nine budget keys: the id stringified; the name, currency, status, created_at, updated_at, archived_at and sync_status copied from the row; and the member entries |
| BudgetSchemas.BudgetToDictInjective | app/schemas/budget.py:59-69 | two budgets with the same dictionary have the same id, the same row and the same member entries |
| TransactionSchemas.ValidateTransactionCreate | app/schemas/transaction.py:7-19 | a body passes exactly when amount and exchange rate are positive, the currency is three capitals and the category lengths are in range; currency defaults to USD and exchange rate to 1.0 |
| TransactionSchemas.DefaultsAreValid | app/schemas/transaction.py:7-16 | a body without currency and exchange rate passes with USD and 1.0 |
| TransactionSchemas.TransactionCreateFitsColumns | app/schemas/transaction.py:7-16 | a validated body fits the currency and category columns |
| TransactionSchemas.TransactionUpdateItemsCount | app/schemas/transaction.py:21-30 | the dump holds one item per field the body set |
| TransactionSchemas.ValidateRecurringCreate | app/schemas/transaction.py:60-71 | a body passes exactly when the schedule is one of the four and the shared constraints hold; currency defaults to USD |
| TransactionSchemas.Schedules | app/schemas/transaction.py:60-63 | exactly daily, weekly, monthly and yearly pass, case- and space-sensitively, and each fits its column |
| TransactionSchemas.RecurringUpdateItemsCount | app/schemas/transaction.py:73-82 | the dump holds one item per field the body set |
| AuthSchemas.ValidateLogin | app/schemas/auth.py:4-8 | a login passes exactly when the contact fields are valid and the password is non-empty; the email it carries is the normalised address |
| AuthSchemas.ValidateRegister | app/schemas/auth.py:17-21 | a registration passes exactly when the name is 1 to 255 characters, the contacts are valid and the password has at least 8 characters; the email it carries, the one create_user stores, is the normalised address |
| AuthSchemas.NoContactRequired | app/schemas/auth.py:4-21 | neither request needs an email or a phone |
| AuthSchemas.RegisteredCanLogIn | app/schemas/auth.py:4-21 | the credentials of a valid registration make a valid login that carries the same normalised email |
| AuthSchemas.SameNormalFormSameEmail | app/schemas/auth.py:4-21 | two spellings of an address that EmailStr normalises alike are accepted alike and reach the service as the same email at registration and at login |
| AuthSchemas.MakeTokenResponse | app/schemas/auth.py:23-27 | the token type defaults to "bearer", and the other fields are kept |
| AuthSchemas.ValidatePasswordResetConfirm | app/schemas/auth.py:35-37 | passes exactly when the new password has at least 8 characters |
| AuthSchemas.ValidatePasswordResetRequest | app/schemas/auth.py:32-33 | passes exactly when an email is given and EmailStr accepts it; the result is the normalised address |
| BudgetServices.AccessLadder | app/services/budget_service.py:140-174 | over the predicates `UserHasBudgetAccess` (user_has_budget_access, lines 140-159) and `UserHasBudgetAdminAccess` (user_has_budget_admin_access, lines 162-174) and the functions `GetBudgetById` (get_budget_by_id, lines 63-71) and `BudgetOwnedByUser` (budget_owned_by_user, lines 319-328): owning gives edit and admin access; edit access finds the budget; budget_owned_by_user returns the budget exactly for its owner; a malformed id never has access |
| BudgetServices.AdminAccessIgnoresStatus | app/services/budget_service.py:162-174 | about `UserHasBudgetAdminAccess` (user_has_budget_admin_access) and the ownership test of `BudgetOwnedByUser` (budget_owned_by_user, lines 319-328): for every database, user and budget, changing the budget's status to any value leaves admin access as it was, while ownership then holds exactly for admins of an ACTIVE budget |
| BudgetServices.CountAdminUsersMeaning | app/services/budget_service.py:261-272 | about `CountAdminUsers` (count_admin_users): the count is at least one exactly when the budget has an admin; a count of one is the row itself |
| BudgetServices.CreateBudgetMakesCreatorAdmin | app/services/budget_service.py:16-38 | the new budget is active and has exactly one membership, the creator as admin |
| BudgetServices.CreateBudgetKeepsInvariant | app/services/budget_service.py:16-38 | creating a budget keeps integrity, admins everywhere and unique pairs |
| BudgetServices.SetFieldsIsPatch | app/services/budget_service.py:96-101 | the setattr loop commits exactly the field-by-field patch, an explicit null failing |
| BudgetServices.PatchTouchesOnlyItsFields | app/services/budget_service.py:96-101 | a patch keeps created_at, archived_at and sync_status, leaves every unset field as it was, and stamps updated_at |
| BudgetServices.PatchMayArchiveWithoutTimestamp | app/services/budget_service.py:96-99 | a patch can archive a budget and leave archived_at unset |
| BudgetServices.ReplaceBudgetKeepsInvariant | app/services/budget_service.py:74-106 | rewriting a budget row keeps the service invariant |
| BudgetServices.ArchiveIsFinal | app/services/budget_service.py:109-123 | once archived nobody owns the budget, so a second archive is refused |
| BudgetServices.DeleteBudgetKeepsInvariant | app/services/budget_service.py:126-137 | deleting a budget keeps the service invariant |
| BudgetServices.AddMemberAddsOne | app/services/budget_service.py:211-220 | adding a member adds exactly one row with the given role and changes nothing else |
| BudgetServices.AddMemberKeepsInvariant | app/services/budget_service.py:177-220 | adding a non-member keeps the service invariant |
| BudgetServices.GuardedRemoval | app/services/budget_service.py:246-258 | a removal the guard allows deletes only that row, deletes no budget and keeps every admin |
| BudgetServices.GuardedRemovalKeepsInvariant | app/services/budget_service.py:223-258 | a guarded removal keeps the service invariant |
| BudgetServices.RoleChangeKeepsInvariant | app/services/budget_service.py:303-316 | a guarded role change keeps an admin on every budget and the service invariant |
| BudgetServices.BudgetService.constructor | app/services/budget_service.py:11-13 | the service works on the given store |
| BudgetServices.BudgetService.ListRows | app/services/budget_service.py:40-60 | the join rows are memberships of the caller on active budgets matching the search |
| BudgetServices.BudgetService.ListUserBudgets | app/services/budget_service.py:40-60 | the total counts the join rows; the page holds distinct active budgets of the caller that match, no more than the limit, and the whole set when it fits |
| BudgetServices.BudgetService.CreateBudget | app/services/budget_service.py:16-38 | the commit succeeds exactly when the creator exists, and the state becomes the created budget with its admin row |
| BudgetServices.BudgetService.UpdateBudget | app/services/budget_service.py:74-106 | no edit right or a malformed id gives None with nothing changed; otherwise the patched row is written, or a null fails with nothing changed |
| BudgetServices.BudgetService.ArchiveBudget | app/services/budget_service.py:109-123 | succeeds exactly for the owner of an active budget, setting the status, archived_at and updated_at |
| BudgetServices.BudgetService.DeleteBudget | app/services/budget_service.py:126-137 | succeeds exactly for the owner of an active budget, with the cascade |
| BudgetServices.BudgetService.AddUserToBudget | app/services/budget_service.py:177-220 | not-found unless the caller owns the active budget; bad-request for an existing member; otherwise exactly one new row |
| BudgetServices.BudgetService.RemoveUserFromBudget | app/services/budget_service.py:223-258 | not-found for a non-owner; False for a non-member; the last admin is refused; otherwise exactly that row is deleted |
| BudgetServices.BudgetService.UpdateUserRole | app/services/budget_service.py:275-316 | not-found for a non-owner; not-found for a target without a row on the budget; bad request, with no change, for demoting the last admin; otherwise True and exactly that row's role changes |
| TransactionServices.GetUserTransactionScope | app/services/transaction_service.py:83-100 | any membership of the caller shows a live transaction of that budget; deleted rows and non-members see nothing |
| TransactionServices.CreatedTransaction | app/services/transaction_service.py:17-37 | the row carries the caller as author, the body's fields, no deletion and now as both timestamps |
| TransactionServices.CreateGate | app/api/v1/endpoints/transactions.py:47-57 | viewers and non-active budgets are refused; access implies membership |
| TransactionServices.DateRangeInclusive | app/services/transaction_service.py:60-73 | both ends of the date range are inclusive, and empty strings do not filter |
| TransactionServices.ListingScope | app/services/transaction_service.py:52-57 | the listing is exactly the transactions on a budget the caller has a row on, deleted rows included |
| TransactionServices.ByBudgetThenDateIsPreorder | app/services/transaction_service.py:76-76 | budget id ascending then date descending is a total preorder |
| TransactionServices.SetTxFieldsIsPatch | app/services/transaction_service.py:114-119 | the setattr loop over the dump commits exactly the field-by-field patch |
| TransactionServices.PatchedTransactionKeeps | app/services/transaction_service.py:114-119 | a patch never changes budget, author, created_at, deleted_at or sync_status, leaves unset fields as they were, clears a nulled subcategory, and stamps updated_at |
| TransactionServices.ViewerRights | app/services/transaction_service.py:102-136 | a viewer can update and delete the budget's transactions but not its recurring rows |
| TransactionServices.RecurringEditIgnoresStatus | app/services/transaction_service.py:189-213 | the recurring edit right does not depend on the budget row |
| TransactionServices.SetRecFieldsIsPatch | app/services/transaction_service.py:189-225 | the recurring setattr loop commits exactly the field-by-field patch |
| TransactionServices.PatchedRecurringKeeps | app/services/transaction_service.py:189-225 | a recurring patch never changes budget, author, recurring type, created_at or sync_status, leaves unset fields as they were, and stamps updated_at |
| TransactionServices.ListRecurring | app/services/transaction_service.py:165-187 | corrected listing: only recurring rows of budgets the caller is a member of |
| TransactionServices.ListRecurringScope | app/services/transaction_service.py:165-187 | the corrected listing is exactly the member-visible rows passing the filters, whatever the transactions table holds |
| TransactionServices.RecurringListingLeaks | app/services/transaction_service.py:174-179 | the listing as written shows a member of one budget the recurring row of another |
| TransactionServices.RecurringListingHides | app/services/transaction_service.py:174-179 | the listing as written hides an admin's recurring row when the budget has no transaction |
| TransactionServices.NewRecurringRow | app/services/transaction_service.py:140-163 | the insert fails exactly when no recurring type is given, and otherwise carries the body's fields |
| TransactionServices.TransactionService.constructor | app/services/transaction_service.py:13-15 | the service works on the given store |
| TransactionServices.TransactionService.CreateTransaction | app/services/transaction_service.py:17-37 | forbidden without edit access and nothing changes; otherwise exactly the created row is inserted |
| TransactionServices.TransactionService.ListUserTransactions | app/services/transaction_service.py:39-81 | the listing is exactly the matching rows, distinct and ordered; the total counts them all; the page is the slice at offset |
| TransactionServices.TransactionService.UpdateUserTransaction | app/services/transaction_service.py:102-124 | None with nothing changed for an invisible row; otherwise the patched row, or the cast or null error with nothing changed |
| TransactionServices.TransactionService.DeleteUserTransaction | app/services/transaction_service.py:126-136 | True exactly for a visible row, which is then hard-deleted |
| TransactionServices.TransactionService.CreateRecurringTransaction | app/services/transaction_service.py:140-163 | as written, always an error with nothing stored: forbidden without access, an integrity error with it |
| TransactionServices.TransactionService.CreateRecurringTransactionWithType | app/services/transaction_service.py:140-163 | corrected: forbidden without access; otherwise exactly the new row with its recurring type |
| TransactionServices.TransactionService.ListUserRecurringTransactions | app/services/transaction_service.py:165-187 | the rows are exactly the listing as written, each once |
| TransactionServices.TransactionService.UpdateUserRecurringTransaction | app/services/transaction_service.py:189-225 | None with nothing changed unless the caller is admin or editor; otherwise the patched row |
| TransactionServices.TransactionService.DeleteUserRecurringTransaction | app/services/transaction_service.py:227-250 | True exactly for an admin or editor, and the row is then hard-deleted |
| UserServices.NoClashKeepsUniqueKeys | app/models/models.py:46-50 | a row written back without a clash keeps the unique columns unique |
| UserServices.SetUserFieldsIsPatch | app/services/user_service.py:25-30 | the setattr loop commits exactly the field-by-field patch |
| UserServices.PatchedUserTouchesOnlyItsFields | app/services/user_service.py:25-30 | a patch changes only its fields, keeps the credentials and created_at, and stamps updated_at |
| UserServices.ListedUsersMeaning | app/services/user_service.py:39-80 | without a search term list_users counts exactly the active users; a search term only narrows that set and keeps every active user whose name contains it; search_users never goes beyond the active users |
| UserServices.SearchWithEmptyQuery | app/services/user_service.py:39-80 | an empty query finds every active user, as a list without search does |
| UserServices.ListedAreSearched | app/services/user_service.py:39-80 | what list_users finds with a term, search_users finds too |
| UserServices.UserService.constructor | app/services/user_service.py:10-12 | the service works on the given store and on the shared cache it imports |
| UserServices.UserService.GetUserById | app/services/user_service.py:14-16 | the row with that key, exactly when one exists |
| UserServices.UserService.UpdateUser | app/services/user_service.py:18-37 | None for an unknown id; otherwise the patched row is committed and cached as user_to_dict under the id, or the error changes nothing |
| UserServices.UserService.ListUsers | app/services/user_service.py:39-58 | the total counts the listed users before paging; the page holds distinct listed users within the limit, and all of them when they fit |
| UserServices.UserService.SearchUsers | app/services/user_service.py:60-80 | the same for the searched users |
| UserServices.UserService.DeleteUser | app/services/user_service.py:82-95 | True exactly when the user exists; the user and its memberships are then gone, and the cache is untouched |
| AuthServices.LookupIsUnique | app/services/auth_service.py:70-76 | with the unique columns, at most one user matches a lookup |
| AuthServices.RegisteredAuthMethod | app/services/auth_service.py:16-24 | email auth exactly when an email is given, otherwise phone |
| AuthServices.AuthService.constructor | app/services/auth_service.py:10-12 | the service works on the given store |
| AuthServices.AuthService.CreateUser | app/services/auth_service.py:14-30 | the new row carries the hashed password and the derived auth method, and the insert fails exactly on a taken email or phone |
| AuthServices.AuthService.GetUserByEmailOrPhone | app/services/auth_service.py:70-76 | a matching user when one exists, none otherwise, and none when neither is given |
| AuthServices.AuthService.AuthenticateUser | app/services/auth_service.py:32-42 | a result has a hash that verifies; with unique keys, None means no matching user verifies |
| AuthServices.AuthService.AuthenticateGoogleUser | app/services/auth_service.py:44-50 | never authenticates |
| AuthServices.AuthService.AuthenticateBiometricUser | app/services/auth_service.py:52-68 | a result's stored biometric hash equals the data's hash; with unique keys, None means no matching user has it |
| AuthServices.BiometricRouting | app/services/auth_service.py:54-57 | an identifier with '@' matches only by email, any other only by phone |
| Dependencies.Lookup | app/core/dependencies.py:18-64 | no user id is 401; a hit rebuilds from the cache; a miss reads the store and caches the user; every failure is 401 |
| Dependencies.MissThenHit | app/core/dependencies.py:37-47 | after a miss that finds the user, the next lookup is a hit with the row's fields |
| Dependencies.ActiveSurvivesCache | app/core/dependencies.py:41-46 | the activity check answers the same on the row and on its cached copy |
| Dependencies.HitIgnoresStore | app/core/dependencies.py:37-41 | a cache hit does not depend on the store, so a deleted user is still served |
| Dependencies.ActiveUser | app/core/dependencies.py:66-77 | an inactive user is a bad request; other outcomes pass unchanged |
| Dependencies.OptionalCurrentUser | app/core/dependencies.py:79-100 | a user exactly when the token verifies, carries a string sub and names a stored user; otherwise None |
| Dependencies.CurrentUserResolver.constructor | app/core/dependencies.py:18-23 | the resolver works on the given store and cache |
| Dependencies.SchemeParam | app/core/dependencies.py:13-20 | the Authorization header cut at its first space, as `partition(" ")` does; both parts empty for a missing header, the second empty without a space |
| Dependencies.BearerCredentials | app/core/dependencies.py:13-20 | the `HTTPBearer()` dependency of get_current_user passes exactly when the header has a space, a non-empty rest and a scheme that lower-cases to "bearer", handing on the rest; otherwise it refuses |
| Dependencies.BearerGateAccepts | app/core/dependencies.py:13-20 | any space-free scheme spelling "bearer" in some case, one space and non-empty credentials pass the gate with those credentials |
| Dependencies.TabSeparatedToken | app/core/dependencies.py:13-20 | "Bearer<TAB>token" is a token to the middleware's `split()` but is refused by the gate's `partition(" ")` |
| Dependencies.CurrentUserResolver.GetCurrentUser | app/core/dependencies.py:18-64 | a header the `HTTPBearer()` dependency refuses ends the request with the refusal and leaves the cache alone; otherwise the outcome and the new cache are those of the lookup |
| SharedCaches.SharedCache.constructor | app/core/cache.py:9-15 | the cache starts empty |
| SharedCaches.SharedCache.Get | app/core/cache.py:18-19 | the stored object exactly when the key is present |
| SharedCaches.SharedCache.Set | app/core/cache.py:21-22 | the key maps to the value and nothing else changes |
| AuthMiddlewares.PublicPaths | app/middleware/auth.py:16-37 | the root, each of the five public routes, and every extension of one are public |
| AuthMiddlewares.AuthPathsAreListed | app/middleware/auth.py:25-41 | each of the four auth routes and every extension of one is an auth path, while /api/v1/auth/me is not |
| AuthMiddlewares.BearerToken | app/middleware/auth.py:45-51 | a token exactly when the header splits into two words, the first "bearer" in any case; the token is the second word |
| AuthMiddlewares.BearerSchemeIgnoresCase | app/middleware/auth.py:49-51 | "Bearer" and "BEARER" schemes both yield the token, as two instances of SchemeThenToken |
| AuthMiddlewares.SchemeThenToken | app/middleware/auth.py:49-51 | any scheme that lower-cases to "bearer", a space and a token give that token |
| AuthMiddlewares.RequestState.constructor | app/middleware/auth.py:54-59 | the request state starts with no attributes |
| AuthMiddlewares.DispatchedUserId | app/middleware/auth.py:32-68 | skipped paths and unusable headers leave the state alone; a verified token sets user_id to its sub and roles to [] by default; a failure leaves no user_id |
| AuthMiddlewares.Dispatch | app/middleware/auth.py:32-68 | the request state becomes the dispatched state |
| RateLimits.PruneFront | app/middleware/rate_limit.py:24-26 | drops a prefix, every dropped time more than 60 seconds old, and the new front is within the window |
| RateLimits.PruneExact | app/middleware/rate_limit.py:24-26 | on a queue in arrival order, exactly the times within the window remain |
| RateLimits.StepOutcome | app/middleware/rate_limit.py:29-48 | refused exactly when the pruned queue is full, with nothing appended; otherwise now is appended and the remaining count is the non-negative rest of the limit |
| RateLimits.StepBounded | app/middleware/rate_limit.py:29-40 | a queue never grows past the limit |
| RateLimits.StepAscending | app/middleware/rate_limit.py:24-40 | appending at the back keeps the queue in arrival order |
| RateLimits.HandleIsolatesIps | app/middleware/rate_limit.py:22-40 | only the requesting IP's queue changes |
| RateLimits.AllowedWithinWindow | app/middleware/rate_limit.py:24-40 | after an allowed request, the queue holds at most limit times: now and the earlier ones within the window |
| RateLimits.RateLimiter.constructor | app/middleware/rate_limit.py:13-16 | the limiter starts with no queues |
| RateLimits.RateLimiter.Dispatch | app/middleware/rate_limit.py:18-40 | the prune loop and the check leave the queues and the response of one request |
| RateLimits.ClientIp | app/middleware/rate_limit.py:52-62 | a non-empty X-Forwarded-For gives its text before the first comma, stripped, so the address has no comma and no surrounding space; else X-Real-IP; else the client host or "unknown" |
| RateLimits.SingleForwardedAddress | app/middleware/rate_limit.py:55-56 | an X-Forwarded-For holding one address and no comma gives that address, stripped |
| RateLimits.ForwardedFirstElement | app/middleware/rate_limit.py:54-56 | the first forwarded element, stripped, is the address |
| RateLimits.BlankFirstElement | app/middleware/rate_limit.py:54-56 | a blank first element gives "", and no fallback is taken |
| CacheMiddlewares.GetOutcome | app/middleware/cache.py:25-43 | absent or expired keys miss, and an expired entry is removed; a live entry hits and moves only its last-read time; each get counts once |
| CacheMiddlewares.ReadsDoNotExtendLife | app/middleware/cache.py:34-41 | expiry counts from set time, whatever reads came between |
| CacheMiddlewares.Delete | app/middleware/cache.py:62-68 | True and the key removed exactly when present; otherwise nothing changes |
| CacheMiddlewares.GetStats | app/middleware/cache.py:75-86 | items_count is the number of keys, the counters are copied, and the hit rate is hits/(hits+misses)·100, between 0 and 100, and 0 with no reads |
| CacheMiddlewares.EvictPrefixOldest | app/middleware/cache.py:101-118 | deleting the first max(1, n // 4) keys by last read removes that many and none newer than a kept one |
| CacheMiddlewares.MemoryCache.constructor | app/middleware/cache.py:13-16 | the cache starts empty with zero counters |
| CacheMiddlewares.MemoryCache.GetEntry | app/middleware/cache.py:25-43 | answers and updates the state as the get function does |
| CacheMiddlewares.MemoryCache.SetEntry | app/middleware/cache.py:45-60 | returns True; at or over the size limit it first evicts the oldest quarter; then the key holds the data, set and read now |
| CacheMiddlewares.MemoryCache.DeleteEntry | app/middleware/cache.py:62-68 | answers and updates the state as the delete function does |
| CacheMiddlewares.MemoryCache.Clear | app/middleware/cache.py:70-73 | the cache is emptied and the counters reset |
| CacheMiddlewares.MemoryCache.RemoveFirst | app/middleware/cache.py:113-116 | the deletion loop removes exactly the keys in the first n places |
| CacheMiddlewares.MemoryCache.EvictOldest | app/middleware/cache.py:101-118 | no change on an empty cache; otherwise the least recently read quarter, at least one, goes |
| CacheMiddlewares.SetThenGet | app/middleware/cache.py:45-60 | an entry just set is read back at once |
| SyncServices.SerializedShapes | app/services/sync_service.py:197-249 | ids are stringified, and an unset archived_at or deleted_at becomes None |
| SyncServices.SerializeBudgetInjective | app/services/sync_service.py:197-208 | a serialized budget determines its id and every column |
| SyncServices.SerializeTransactionInjective | app/services/sync_service.py:210-229 | a serialized transaction determines its id and every column, the details up to their JSON value |
| SyncServices.SerializeUserHidesCredentials | app/services/sync_service.py:183-195 | the password hash, Google id and biometric hash never reach the client |
| SyncServices.SerializeRecurringOmitsType | app/services/sync_service.py:231-249 | recurring_type is not sent |
| SyncServices.PulledRows | app/services/sync_service.py:66-112 | a row is pulled exactly when its budget has a membership of the caller and it was updated after since; users hold at most the caller |
| SyncServices.PullIsStrictAndMonotone | app/services/sync_service.py:81-111 | a later since pulls a subset, and a row updated exactly at since is not pulled |
| SyncServices.PullWithoutSince | app/services/sync_service.py:68-69 | without since the filter starts at datetime.min, so the pull includes whatever any later since would pull, and the caller's record once updated after it |
| SyncServices.PullIgnoresStatusAndDeletion | app/services/sync_service.py:89-112 | archiving a budget or soft-deleting a transaction does not change what is pulled |
| SyncServices.BatchOutcomes | app/services/sync_service.py:161-179 | one outcome per item, each that item's processor result |
| SyncServices.TallyBound | app/services/sync_service.py:15-53 | the counter never falls, conflicts are only appended, and processed plus conflicts grows by at most the number of outcomes |
| SyncServices.TallyAppend | app/services/sync_service.py:15-53 | tallying two runs one after the other is tallying their concatenation |
| SyncServices.TallyAllProcessed | app/services/sync_service.py:15-53 | when every item is processed, the counter counts them all and no conflict is added |
| SyncServices.PushProcessesEverything | app/services/sync_service.py:13-64 | with the current processors a push counts every item and reports no conflict; an empty push counts none |
| SyncServices.SyncService.constructor | app/services/sync_service.py:9-11 | the service works on the given store |
| SyncServices.SyncService.PushBatch | app/services/sync_service.py:20-26 | the loop's counter and conflicts are the tally of the batch's outcomes |
| SyncServices.SyncService.PushChanges | app/services/sync_service.py:13-64 | the four batches in order give the tally of all outcomes, and processed plus conflicts is at most the item count |
| SyncServices.SyncService.PullBudgets | app/services/sync_service.py:87-95 | each pulled budget once, serialized |
| SyncServices.SyncService.PullTransactions | app/services/sync_service.py:97-105 | each pulled transaction once, serialized |
| SyncServices.SyncService.PullRecurring | app/services/sync_service.py:107-115 | each pulled recurring row once, serialized |
| SyncServices.SyncService.PullChanges | app/services/sync_service.py:66-122 | the caller's record when updated after since, and each pulled row of the three tables once, serialized |
| SyncServices.SyncService.GetUserConflicts | app/services/sync_service.py:124-128 | always empty |
| SyncServices.SyncService.ResolveConflicts | app/services/sync_service.py:130-141 | always zero resolved and zero remaining |
| SyncServices.SyncService.GetSyncStatus | app/services/sync_service.py:143-157 | the clock reading, no pending changes, no conflicts, "healthy" |
| Common.Words | app/middleware/auth.py:49-49 | str.split(): non-empty pieces without whitespace that together are the characters of the string that are not whitespace, in order |
| Common.WordsOfBlank | app/middleware/auth.py:49-49 | str.split() gives no piece exactly when the string is all whitespace |
| Common.Strip | app/middleware/rate_limit.py:56-56 | str.strip(): the string is its leading whitespace, the result, then whitespace, and the result has no whitespace at either end |
| Common.Page | app/services/transaction_service.py:78-79 | OFFSET and LIMIT: the rows from offset on, at most limit of them |
| Common.PageOfSet | app/services/user_service.py:55-58 | the total counts every row; the page holds distinct rows within the limit, and every row when they fit |
| Sorting.SortBySorted | app/services/transaction_service.py:76-76 | the sort orders the rows and keeps them with their multiplicities |

## Left out

- HTTP endpoint layer, transcription, configuration, the database session and the mock data: these are not part of this model. The exception is the create-transaction access gate, which is folded into `TransactionService.CreateTransaction` and `CreateRecurringTransaction`.
- Query result order: rows of queries without ORDER BY come out in an arbitrary order (`Common.Enumerate`). Only the transaction listing is ordered, and ties in its order are arbitrary.
- SQL `ILIKE`: wildcard escaping is not modelled. Case folding is ASCII only.
- Row lookups: `.first()` over rows that may repeat picks an arbitrary one.
- Concurrency, isolation and races between requests, including the rate limiter's `asyncio.Lock`, are not modelled.
- Time: clocks are parameters in integer ticks. Floating-point `time.time()`, the rounded `X-RateLimit-Reset`, and timezone-aware `since` values are not modelled.
- Hashing and tokens: password hashing, JWT issuing and verification, SHA-256, Redis expiry and Redis errors are parameters, or are left out.
- Email validation: Pydantic's `EmailStr`, a foreign validator, is the parameter `normEmail`. It gives None for a rejected address and otherwise the normalised address, which the validated body carries in place of the typed one. What the normalisation does (display names, whitespace, the domain's case) is not modelled.
- Phone digits: the `\d` of the phone pattern is taken as ASCII digits only.
- Uuid.ParseHexInt: `int(_, 16)` also accepts non-ASCII decimal digits (such as full-width digits), so `uuid.UUID` accepts 32 of them. Only ASCII hex digits are modelled, so such ids are invalid in the model.
- Amounts and exchange rates are Python floats, modelled as exact `real` numbers. Rounding, infinities (which `gt=0` lets through) and NaN are not modelled.
- Enum storage: the database stores each enum by its name (`'ADMIN'`), and the model compares roles as enum values. Because each name maps to exactly one member, nothing depends on this.
- JSON `details` are kept as a model JSON value. Storing a JSON null and `None` are not distinguished.
- Uuid.ParseUuid: PostgreSQL's acceptance of id strings in the store is not modelled. Ids are compared as strings, and a database `DataError` on a malformed id in a query is not modelled.
- `transaction_to_dict` (app/schemas/transaction.py:104-105) is not modelled. It is never called, and `dict()` of a model instance would raise.
- `budget_to_dict`'s `except` branch returning `{}` (app/schemas/budget.py:71-74) is not modelled. With every membership row's user present, nothing in it raises.
- Database column widths: the `String(n)` limits are checked for validated bodies, but the store does not reject over-long values.
- CacheMiddlewares.MemoryCache.SetEntry: `sys.getsizeof` and the size in megabytes are replaced by a `full` flag given by the caller.
- CacheMiddlewares.GetStats: `size_mb` is left out, and the hit rate is not rounded to two digits.
- CacheMiddlewares.EvictPrefixOldest: the order among keys with equal last-read times, which Python's stable sort fixes, is left arbitrary.
- RateLimits.RateLimiter.Dispatch: the response headers are set after `call_next`, which is not modelled, so Dispatch reports the remaining count right after the append.
- SyncServices.SyncService.PushChanges: the commit and the rollback on an exception are not modelled. The processors add nothing to the session, so the store is unchanged either way.
- Sync conflict storage, conflict resolution, pending counts and last-write-wins are not implemented in the source and are not modelled.
- SyncServices.SerializeTransactionInjective: `isoformat()` and the date and number conversions are abstract JSON values, so the result holds up to their encoding.
- SyncServices.PullWithoutSince: a row whose `updated_at` is exactly `datetime.min` is excluded by the strict filter, and the lemma leaves it out.
- HTTPBearer with `auto_error=False`: modelled as an absent token.
- Dependencies.CurrentUserResolver.GetCurrentUser: the status of the `HTTPBearer()` refusal (403 in older FastAPI releases, 401 in newer ones) is the parameter `refused`. The FastAPI class is not part of this model; its test is modelled by `BearerCredentials`.
- Contradicted tests: tests/test_budgets.py:91 expects 403 where the service returns not-found, and tests/test_users.py:79 expects 404 where the endpoint returns 401. The model follows the code.

## Findings

| source | as written | input that shows it | evidently intended | confidence | as-written member | corrected member |
|---|---|---|---|---|---|---|
| app/services/transaction_service.py:174-179 | the EXISTS subquery tests the membership against `Transaction.budget_id`, a column not correlated with the recurring row | user u is a member of budget A, which has a transaction; budget B has a recurring row; u sees B's recurring row, while B's admin v sees nothing when B has no transaction | list the recurring rows of budgets where the caller has a membership | not executed | TransactionServices.RecurringListingLeaks | TransactionServices.ListRecurringScope |
| app/services/transaction_service.py:146-157 | the recurring row is built without `recurring_type`, a NOT NULL column with no default (app/models/models.py:123) | any valid create body from an admin or editor: the commit raises an integrity error | store the recurring type the request gives | not executed | TransactionServices.TransactionService.CreateRecurringTransaction | TransactionServices.TransactionService.CreateRecurringTransactionWithType |
