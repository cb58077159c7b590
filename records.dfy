/** Rows of the inventory database and the fixed strings the application writes into them. */
module Records {

  datatype Option<+T> = None | Some(value: T)

  /** A row of `materials` without its id (the id is the key of the table's map). */
  datatype Material = Material(
    name: string,
    unit: string,
    quantity: int,
    minQuantity: int,
    categoryId: Option<int>)   // None stands for SQL NULL

  /** A row of `transactions` (operation_date, set by the database clock, is not modelled). */
  datatype Transaction = Transaction(
    id: int,
    materialId: int,
    kind: string,              // the `type` column: ReceiptKind or IssueKind
    amount: int,
    comment: string)

  /** The `details` column of a log row. Each formatted message is kept as the values it is formatted from. */
  datatype Detail =
    | Movement(materialId: int, amount: int)           // "ID=<id>, amount=<amount>"
    | MaterialRemoved(name: string, materialId: int)   // "<name> (ID=<id>)"
    | Text(text: string)                               // a plain string, such as a category name

  /** A row of `logs` (id and created_at are not modelled). */
  datatype LogEntry = LogEntry(userId: Option<int>, action: string, details: Option<Detail>)

  /** A row of `users` without its id (created_at is not modelled). */
  datatype User = User(username: string, passwordHash: string, role: string)

  /** Why an operation did not change the database. */
  datatype Error =
    | MaterialNotFound    // decrease_material: no material with that id
    | InsufficientStock   // decrease_material: stock below the requested amount
    | BlankCategoryName   // add_category: name empty after strip()
    | CategoryInUse       // delete_category: some material still has that category
    | UnknownUser         // logs.user_id REFERENCES users(id) rejected the log row
    | ValueTooLong        // users.username VARCHAR(50) or users.role VARCHAR(20): a non-space past the width

  datatype Outcome = Done | Created(id: int) | Failed(error: Error)

  // Values of transactions.type and transactions.comment written by the ledger operations
  const ReceiptKind := "приход"
  const IssueKind := "расход"
  const ProgramComment := "Операция через программу"

  // Values of logs.action
  const ReceiptAction := "Приход"
  const IssueAction := "Расход"
  const MaterialDeletedAction := "Удаление материала"
  const CategoryDeletedAction := "Удаление категории"

  /** Name logged when a deleted material or category did not exist. */
  const UnknownName := "Unknown"

  // The account that ensure_admin creates
  const AdminName := "admin"
  const AdminPassword := "admin123"
  const AdminRole := "admin"
  const DefaultRole := "user"

  // Column widths of the users table
  const UsernameWidth := 50
  const RoleWidth := 20
}
