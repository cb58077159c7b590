# Warehouse inventory ledger — a Dafny model

The application is a desktop program for a small warehouse. It keeps its data in PostgreSQL:
materials with a stock quantity, categories of materials, a transactions table with one row per
receipt ("приход") or issue ("расход"), an activity log, and users who log in with a password hash.
This project models the database operations of `main.py`. It leaves out the windows.

- `records.dfy` (module `Records`) holds the rows of the tables, the outcomes of the operations,
  and the literal strings and column widths the code uses.
- `tables.dfy` (module `Tables`) holds what several statements share:
  - `ORDER BY id`, as `SortedIds`;
  - the row filter of `DELETE FROM transactions WHERE material_id = …`, as `WithoutMaterial`;
  - Python's `str.strip()`, as `Strip`, with the `str.isspace()` character set.
- `queries.dfy` (module `Queries`) holds the read-only queries: `get_categories`,
  `load_materials`, `load_transactions`, the user lookups and `login`.
- `ledger.dfy` (module `Ledger`) holds the database as one value `Db` and each writing operation
  as a function from `Db` to a `Step`, that is the new database and the outcome.
  - `Wellformed` is what the database itself guarantees: ids below their sequence's next value,
    transaction ids growing, usernames unique, and every log row naming an existing user or none.
  - SERIAL sequences are explicit. An id drawn by a statement stays used even when its
    transaction is discarded, or when `ON CONFLICT DO NOTHING` inserts nothing.
- `store.dfy` (module `Inventory`) holds the same operations as methods of a class `Store`.
  The class updates its tables in place, statement by statement.
  - Each method keeps its uncommitted writes in locals until the commit.
  - Each method is proved to produce exactly the `Step` of its `Ledger` function.
- `session.dfy` (module `Session`) applies any sequence of operations. It proves:
  - stock stays non-negative when no negative quantity is put in;
  - a deleted material id never comes back;
  - a material's change of stock always equals its receipts minus its issues in the
    transactions table.
- `views.dfy` (module `Views`) connects writes to reads:
  - a new user can log in;
  - the admin that `ensure_admin` creates can log in with its default password;
  - a new category or material is listed last;
  - over any run, `load_materials` shows an empty category exactly for a material without one.

How the operations behave, as `main.py` has them:
- An operation that logs (`increase_material`, `decrease_material`, `delete_material`,
  `delete_category`) calls `add_log` before its own `commit()`. `add_log` runs on its own
  connection and commits there. If its INSERT is refused by the foreign key `logs.user_id`, the
  exception leaves the caller before its commit, so the caller's writes are discarded.
- `increase_material` checks neither that the material exists nor the sign of the amount. For an
  absent id the UPDATE changes no row, but the receipt transaction and the log row are still
  written.
- `decrease_material` refuses an absent material and a stock below the amount. Reaching exactly
  zero is allowed.
- `add_category` refuses a name that `strip()` leaves empty. It stores the name unstripped.
- `delete_category` refuses, without any write, a category that some material still has.
- `create_user` with a taken username inserts nothing. The role defaults to "user".
- A username longer than `VARCHAR(50)` or a role longer than `VARCHAR(20)` is refused
  ("value too long") unless everything past the width is spaces; then PostgreSQL cuts it to the
  width, stores it, and checks `ON CONFLICT (username)` against the cut name.
- `ensure_admin` creates admin/admin123 with role admin only when no user is named "admin".
- The log actions and transaction types are the Russian literals "Приход"/"Расход" and
  "приход"/"расход".

## Model

| member | source | states |
|---|---|---|
| Tables.SortedIds | main.py:128 | `ORDER BY id`: the ids of the table, each once, strictly increasing |
| Tables.WithoutMaterial | main.py:270 | the transactions left after the DELETE: none of the material, every other one kept, in order, ids still increasing |
| Tables.Strip | main.py:163 | `name.strip()` is empty exactly when every character of the name is whitespace in the `isspace()` sense |
| Tables.TrimLeft | main.py:163 | the leading half of `strip()`: a suffix of the input, only whitespace cut, not starting with whitespace |
| Tables.TrimRight | main.py:163 | the trailing half of `strip()`: a prefix of the input, only whitespace cut, not ending with whitespace |
| Tables.FitColumn | main.py:26-28 | what a `VARCHAR(width)` column stores: the value when it fits; else, exactly when every character past the width is a space, its first `width` characters |
| Queries.CategoryRowsFollowIds | main.py:128 | rows built from increasing category ids show only existing categories with their names, in ascending id order |
| Queries.CategoryRowsComplete | main.py:128 | rows built from a list that holds every category id show every category |
| Queries.GetCategories | main.py:125-132 | exactly one row per category, with its name, in ascending id order |
| Queries.MaterialRowsFollowIds | main.py:150-155 | rows built from increasing material ids show only existing materials, in ascending id order |
| Queries.MaterialRowsComplete | main.py:150-155 | rows built from a list that holds every material id show every material |
| Queries.LoadMaterials | main.py:147-159 | exactly one row per material, with its category's name or "", in ascending id order |
| Queries.LoadTransactions | main.py:244-256 | one row per transaction, newest first, with the material's name or ""; ids strictly descending |
| Queries.FirstMatch | main.py:80 | `fetchone()`: the first user of the list that matches, and none exactly when no user matches |
| Queries.UserIdByName | main.py:105-106 | the id of a user with that username, and none exactly when no user has it |
| Queries.Login | main.py:69-84 | (id, role) of a user whose username and stored hash of the password both match, and none exactly when no user matches both |
| Queries.LoginIdentifiesAccount | main.py:69-84 | with unique usernames, login answers (id, role) if and only if user id has that username, that password's hash and that role |
| Ledger.Empty | main.py:19-45 | freshly created tables satisfy every database invariant |
| Ledger.UpdateQuantity | main.py:196-200 | `UPDATE … SET quantity = quantity + delta WHERE id`: the row of that id changes by delta, every other row stays, no row for an absent id |
| Ledger.AddLog | main.py:87-98 | a log row is appended exactly when the user id is NULL or names a user; otherwise the database is unchanged and the error is UnknownUser |
| Ledger.AddCategory | main.py:162-172 | a blank name is refused with no change; otherwise the unstripped name is stored under the next id, which is answered |
| Ledger.AddMaterial | main.py:175-187 | the material is stored under the next id with no transaction and no log; stock stays non-negative exactly when the initial quantity is not negative |
| Ledger.Increase | main.py:191-210 | the stock rises by the amount (no row when absent), a receipt and a log row are appended; a refused log discards both writes but the transaction id stays used |
| Ledger.IncreaseStockAndOrphans | main.py:191-210 | an increase keeps stock non-negative unless it takes a material below zero; it leaves a transaction without a material exactly when it succeeds on an absent id |
| Ledger.Decrease | main.py:213-241 | an absent id and a stock below the amount are refused with no change; otherwise stock falls to at least zero, an issue and a log row are appended; stock never goes negative |
| Ledger.DeleteMaterial | main.py:262-279 | the material and all its transactions are deleted and the deletion is logged under its name or "Unknown"; every other transaction is kept |
| Ledger.DeleteCategory | main.py:306-329 | a category some material has is refused with no change; otherwise it is deleted and logged under its name or "Unknown" |
| Ledger.CreateUser | main.py:52-66 | a username or role refused by its VARCHAR column (a non-space past the width) changes nothing; one whose excess is spaces is stored cut to the width; a taken stored username inserts nothing but draws an id; otherwise the user is stored with the hash of the password |
| Ledger.EnsureAdmin | main.py:101-117 | answers the id of a user named admin; changes nothing when one exists, otherwise creates admin/admin123 with role admin under the next id |
| Ledger.IncreaseThenDecreaseRestores | main.py:191-241 | an increase and a decrease by the same amount give back every material's stock and leave a receipt followed by an issue |
| Session.Apply | main.py:52-329 | every writing operation keeps the database invariants |
| Session.Run | main.py:52-329 | any sequence of writing operations keeps the database invariants |
| Session.NetAppend | main.py:201-204 | appending a transaction adds its signed amount to the material's net movement |
| Session.NetWithoutOther | main.py:270 | deleting one material's transactions leaves every other material's net movement unchanged |
| Session.AddLogKeeps | main.py:87-98 | add_log keeps the material ids, the stock and every balance |
| Session.AddCategoryKeeps | main.py:162-172 | add_category keeps the material ids, the stock and every balance, and stores no blank category name |
| Session.AddMaterialKeeps | main.py:175-187 | add_material creates only the next material id, and keeps stock non-negative for a non-negative initial quantity |
| Session.IncreaseKeeps | main.py:191-210 | an increase keeps every material's stock minus its net movement, and non-negative stock for a non-negative amount |
| Session.DecreaseKeeps | main.py:213-241 | a decrease keeps every material's stock minus its net movement |
| Session.DeleteMaterialKeeps | main.py:262-279 | delete_material keeps the balance of every material that stays |
| Session.DeleteCategoryKeeps | main.py:306-329 | delete_category keeps the material ids, the stock and every balance |
| Session.CreateUserKeeps | main.py:52-66 | create_user keeps the material ids, the stock and every balance |
| Session.EnsureAdminKeeps | main.py:101-117 | ensure_admin keeps the material ids, the stock and every balance |
| Session.ApplyKeeps | main.py:52-329 | no operation gives back an old material id, takes stock negative on non-negative input, or moves stock without a transaction |
| Session.StockStaysNonNegative | main.py:218-224 | over any run in which no increase or new material puts in a negative quantity, stock stays non-negative |
| Session.CategoryNamesStayNonBlank | main.py:162-172 | over any run, no category name is blank, since add_category refuses blank names |
| Session.GoneStaysGone | main.py:262-279 | a deleted material id never appears again |
| Session.StockFollowsTransactions | main.py:191-241 | over any run, a material's change of stock equals its receipts minus its issues recorded in the transactions table |
| Inventory.Store.constructor | main.py:19-45 | the store starts with empty tables and every sequence at 1 |
| Inventory.Store.AddLog | main.py:87-98 | appending in place gives exactly `Ledger.AddLog` |
| Inventory.Store.AddCategory | main.py:162-172 | the in-place insert gives exactly `Ledger.AddCategory` |
| Inventory.Store.AddMaterial | main.py:175-187 | the in-place insert gives exactly `Ledger.AddMaterial` |
| Inventory.Store.Increase | main.py:191-210 | UPDATE, INSERT and log then commit give exactly `Ledger.Increase`, including the discarded writes |
| Inventory.Store.Decrease | main.py:213-241 | check, UPDATE, INSERT and log then commit give exactly `Ledger.Decrease` |
| Inventory.Store.DeleteMaterial | main.py:262-279 | the two DELETEs and the log then commit give exactly `Ledger.DeleteMaterial` |
| Inventory.Store.DeleteCategory | main.py:306-329 | count, DELETE and log then commit give exactly `Ledger.DeleteCategory` |
| Inventory.Store.CreateUser | main.py:52-66 | fitting both values to their columns, then the insert with ON CONFLICT, gives exactly `Ledger.CreateUser` |
| Inventory.Store.EnsureAdmin | main.py:101-117 | lookup, creation and second lookup give exactly `Ledger.EnsureAdmin` |
| Views.CreatedUserCanLogIn | main.py:52-84 | a user created with values that fit their columns, under a free stored username, logs in under that username with its password and gets its new id and stored role |
| Views.CreatedAdminCanLogIn | main.py:101-117 | the admin created by ensure_admin logs in with "admin123" as admin, under the id ensure_admin answers |
| Views.AddedCategoryListedLast | main.py:125-172 | a category added under a non-blank name is the last row get_categories returns |
| Views.AddedMaterialLoadedLast | main.py:147-187 | a new material is the last row load_materials returns, with its initial quantity and its category's name |
| Views.RowCategoryEmpty | main.py:151-153 | with no blank category name, a material row shows "" as its category exactly when the material has no category or its category row is gone |
| Views.RowsEmptyCategory | main.py:147-159 | the same for every row that shows a material as load_materials does |
| Views.NoCategoryShownEmpty | main.py:147-172 | over any run from a database without blank category names, load_materials shows "" as a category exactly for a material with no category or one whose category is gone |

## Left out

- The tkinter windows, `refresh_*` and the message boxes are not modelled. Their outcomes are the `Outcome` values.
- The `add_log` call in `add_material_window` belongs to the user interface and is not modelled.
- `get_connection` and the psycopg2 connection handling are not modelled. Each operation is one database transaction, and `add_log` commits separately.
- `hash_password` is a parameter `hash`. The SHA-256 digest is not modelled.
- `CURRENT_USER_ID` is an explicit `actor` parameter.
- The `print` in `ensure_admin` is not modelled.
- Timestamps (`created_at`, `operation_date`) are not modelled. The `operation_date` column is not in the transaction rows.
- Concurrency between several running copies of the program is not modelled. Operations apply one at a time.
- `int()` parsing of the windows' input is not modelled. Amounts and quantities are integers of any size, and the INTEGER column range is not modelled.
- The text of the log details is not modelled. The details are the `Detail` datatype with the same fields: material id and amount, material name and id, or category name.
- The schema of materials, categories and transactions is not part of `main.py`, so no constraints are assumed on those tables. In particular no foreign key keeps an increase on an absent material from recording its transaction.
- `ON DELETE SET NULL` on `logs.user_id` is not modelled, since no operation deletes users.
- The `password_hash VARCHAR(200)` width is not modelled. The hash is a parameter.
- Ledger.CreateUser: a value refused by its VARCHAR column is modelled as not drawing a user id. PostgreSQL may already have drawn one when it rejects the row.
- Queries.UserIdByName: the lookups have no `ORDER BY`. They are modelled as the first matching row by id. With unique usernames there is at most one match, so the order does not matter.
- Queries.FirstMatch: modelled as taking the first row in id order, for the same reason.
- Tables.Strip: only the emptiness of `strip()`'s result is stated, since `add_category` uses nothing else of it.
