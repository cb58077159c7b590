/** The database as one value, and what each writing operation of the application does to it.
    Every operation answers a Step: the database afterwards and the outcome the caller sees. */
module Ledger {
  import opened Records
  import opened Tables
  import opened Queries

  /** The five tables, and the next value of each SERIAL id sequence that the model uses. */
  datatype Db = Db(
    materials: map<int, Material>,
    categories: map<int, string>,
    transactions: seq<Transaction>,
    logs: seq<LogEntry>,
    users: map<int, User>,
    nextMaterialId: int,
    nextCategoryId: int,
    nextTransactionId: int,
    nextUserId: int)

  datatype Step = Step(db: Db, outcome: Outcome)

  /** The foreign key logs.user_id REFERENCES users(id): NULL, or the id of an existing user. */
  predicate LogAccepted(users: map<int, User>, userId: Option<int>) {
    userId.None? || userId.value in users
  }

  /** What the database guarantees at all times: ids come from sequences that only grow,
      usernames are unique and every log row references an existing user (or none). */
  predicate Wellformed(db: Db) {
    && (forall id :: id in db.materials ==> id < db.nextMaterialId)
    && (forall id :: id in db.categories ==> id < db.nextCategoryId)
    && (forall id :: id in db.users ==> id < db.nextUserId)
    && (forall i :: 0 <= i < |db.transactions| ==> db.transactions[i].id < db.nextTransactionId)
    && IdsIncreasing(db.transactions)
    && UsernamesUnique(db.users)
    && (forall i :: 0 <= i < |db.logs| ==> LogAccepted(db.users, db.logs[i].userId))
  }

  /** No material has negative stock. The code keeps this only under conditions on its inputs. */
  predicate StockNonNegative(db: Db) {
    forall id :: id in db.materials ==> db.materials[id].quantity >= 0
  }

  /** Every transaction refers to an existing material. */
  predicate NoOrphans(db: Db) {
    forall i :: 0 <= i < |db.transactions| ==> db.transactions[i].materialId in db.materials
  }

  /** No category name is blank, as add_category refuses blank names. */
  predicate CategoryNamesNonBlank(categories: map<int, string>) {
    forall id :: id in categories ==> !IsBlank(categories[id])
  }

  /** So no category's name is empty. */
  lemma CategoryNameNotEmpty(categories: map<int, string>, categoryId: int)
    requires CategoryNamesNonBlank(categories) && categoryId in categories
    ensures categories[categoryId] != ""
  {
    assert !IsBlank(categories[categoryId]);
  }

  /** Some material has category `categoryId` (`SELECT COUNT(*) ... WHERE category_id = %s` is positive). */
  predicate HasMaterials(materials: map<int, Material>, categoryId: int) {
    exists id | id in materials :: materials[id].categoryId == Some(categoryId)
  }

  /** A user with this username exists (the ON CONFLICT (username) case). */
  predicate Taken(users: map<int, User>, username: string) {
    exists id | id in users :: users[id].username == username
  }

  /** The name a deletion logs: the row's name, or "Unknown" when there was no row. */
  function MaterialNameOrUnknown(materials: map<int, Material>, materialId: int): string {
    if materialId in materials then materials[materialId].name else UnknownName
  }

  function CategoryNameOrUnknown(categories: map<int, string>, categoryId: int): string {
    if categoryId in categories then categories[categoryId] else UnknownName
  }

  /** An empty database whose sequences start at 1. */
  function Empty(): (db: Db)
    ensures Wellformed(db) && StockNonNegative(db) && NoOrphans(db)
    ensures db.materials == map[] && db.transactions == [] && db.logs == []
  {
    Db(map[], map[], [], [], map[], 1, 1, 1, 1)
  }

  /** `UPDATE materials SET quantity = quantity + delta WHERE id = materialId`; no row changes
      when the id is absent. */
  function UpdateQuantity(materials: map<int, Material>, materialId: int, delta: int): (r: map<int, Material>)
    ensures r.Keys == materials.Keys
    ensures materialId in materials ==>
      r[materialId] == materials[materialId].(quantity := materials[materialId].quantity + delta)
    ensures forall id :: id in materials && id != materialId ==> r[id] == materials[id]
  {
    if materialId in materials
    then materials[materialId := materials[materialId].(quantity := materials[materialId].quantity + delta)]
    else materials
  }

  /** add_log: one INSERT INTO logs, committed on its own; the foreign key on user_id may refuse it. */
  function AddLog(db: Db, userId: Option<int>, action: string, details: Option<Detail>): (r: Step)
    requires Wellformed(db)
    ensures Wellformed(r.db)
    ensures r.outcome == Done <==> LogAccepted(db.users, userId)
    ensures r.outcome == Done ==> r.db == db.(logs := db.logs + [LogEntry(userId, action, details)])
    ensures r.outcome != Done ==> r == Step(db, Failed(UnknownUser))
  {
    if LogAccepted(db.users, userId)
    then Step(db.(logs := db.logs + [LogEntry(userId, action, details)]), Done)
    else Step(db, Failed(UnknownUser))
  }

  /** add_category: refuses a name that strip() leaves empty, otherwise inserts it (unstripped)
      under a fresh id and answers that id. */
  function AddCategory(db: Db, name: string): (r: Step)
    requires Wellformed(db)
    ensures Wellformed(r.db)
    ensures IsBlank(name) ==> r == Step(db, Failed(BlankCategoryName))
    ensures !IsBlank(name) ==>
      && r.outcome == Created(db.nextCategoryId)
      && db.nextCategoryId !in db.categories
      && r.db == db.(categories := db.categories[db.nextCategoryId := name], nextCategoryId := db.nextCategoryId + 1)
  {
    if Strip(name) == [] then Step(db, Failed(BlankCategoryName))
    else
      var id := db.nextCategoryId;
      Step(db.(categories := db.categories[id := name], nextCategoryId := id + 1), Created(id))
  }

  /** add_material: inserts one material with its initial quantity under a fresh id; the initial
      stock is not a ledger event, so no transaction and no log row are written. */
  function AddMaterial(db: Db, name: string, unit: string, quantity: int, minQuantity: int, categoryId: Option<int>): (r: Step)
    requires Wellformed(db)
    ensures Wellformed(r.db)
    ensures r.outcome == Created(db.nextMaterialId) && db.nextMaterialId !in db.materials
    ensures r.db.materials == db.materials[db.nextMaterialId := Material(name, unit, quantity, minQuantity, categoryId)]
    ensures r.db.transactions == db.transactions && r.db.logs == db.logs
    ensures r.db == db.(materials := r.db.materials, nextMaterialId := db.nextMaterialId + 1)
    ensures StockNonNegative(db) ==> (StockNonNegative(r.db) <==> quantity >= 0)
    ensures NoOrphans(db) ==> NoOrphans(r.db)
  {
    var id := db.nextMaterialId;
    var after := db.(materials := db.materials[id := Material(name, unit, quantity, minQuantity, categoryId)],
                     nextMaterialId := id + 1);
    assert after.materials[id].quantity == quantity;
    Step(after, Created(id))
  }

  /** increase_material: adds `amount` to the material's stock (to no row when the id is absent),
      records a receipt transaction and logs it. Neither the id nor the sign of `amount` is checked.
      When the log row is refused, the uncommitted update and insert are discarded, but the
      transaction id they drew from its sequence stays used. */
  function Increase(db: Db, actor: int, materialId: int, amount: int): (r: Step)
    requires Wellformed(db)
    ensures Wellformed(r.db)
    ensures r.outcome == Done <==> LogAccepted(db.users, Some(actor))
    ensures r.outcome != Done ==>
      r == Step(db.(nextTransactionId := db.nextTransactionId + 1), Failed(UnknownUser))
    ensures r.outcome == Done ==>
      && r.db.materials == UpdateQuantity(db.materials, materialId, amount)
      && r.db.transactions == db.transactions + [Transaction(db.nextTransactionId, materialId, ReceiptKind, amount, ProgramComment)]
      && r.db.logs == db.logs + [LogEntry(Some(actor), ReceiptAction, Some(Movement(materialId, amount)))]
      && r.db == db.(materials := r.db.materials, transactions := r.db.transactions, logs := r.db.logs,
                     nextTransactionId := db.nextTransactionId + 1)
  {
    var txId := db.nextTransactionId;
    var pending := db.(
      materials := UpdateQuantity(db.materials, materialId, amount),
      transactions := db.transactions + [Transaction(txId, materialId, ReceiptKind, amount, ProgramComment)],
      nextTransactionId := txId + 1);
    var logged := AddLog(db, Some(actor), ReceiptAction, Some(Movement(materialId, amount)));
    if logged.outcome == Done then Step(pending.(logs := logged.db.logs), Done)
    else Step(db.(nextTransactionId := txId + 1), logged.outcome)
  }

  /** increase_material keeps stock non-negative unless it takes a material below zero, which
      only a negative amount can; and since it checks no id, it leaves a transaction without a
      material exactly when it succeeds on an absent id. */
  lemma IncreaseStockAndOrphans(db: Db, actor: int, materialId: int, amount: int)
    requires Wellformed(db)
    ensures var r := Increase(db, actor, materialId, amount);
      && (StockNonNegative(db) && (materialId in db.materials ==> db.materials[materialId].quantity + amount >= 0)
          ==> StockNonNegative(r.db))
      && (r.outcome == Done && materialId in db.materials && db.materials[materialId].quantity + amount < 0
          ==> !StockNonNegative(r.db))
      && (NoOrphans(db) ==> (NoOrphans(r.db) <==> r.outcome != Done || materialId in db.materials))
  {
    var r := Increase(db, actor, materialId, amount);
    if r.outcome == Done {
      assert r.db.transactions[|db.transactions|].materialId == materialId;
      if materialId in db.materials {
        assert r.db.materials[materialId].quantity == db.materials[materialId].quantity + amount;
      }
    }
  }

  /** decrease_material: refuses an absent id and a stock below `amount` before writing anything;
      otherwise subtracts `amount` (reaching exactly zero is allowed), records an issue
      transaction and logs it. */
  function Decrease(db: Db, actor: int, materialId: int, amount: int): (r: Step)
    requires Wellformed(db)
    ensures Wellformed(r.db)
    ensures materialId !in db.materials ==> r == Step(db, Failed(MaterialNotFound))
    ensures materialId in db.materials && db.materials[materialId].quantity < amount
      ==> r == Step(db, Failed(InsufficientStock))
    ensures r.outcome == Done <==>
      materialId in db.materials && amount <= db.materials[materialId].quantity && LogAccepted(db.users, Some(actor))
    ensures r.outcome == Failed(UnknownUser) ==> r.db == db.(nextTransactionId := db.nextTransactionId + 1)
    ensures r.outcome == Done ==>
      && r.db.materials == UpdateQuantity(db.materials, materialId, -amount)
      && r.db.materials[materialId].quantity >= 0
      && r.db.transactions == db.transactions + [Transaction(db.nextTransactionId, materialId, IssueKind, amount, ProgramComment)]
      && r.db.logs == db.logs + [LogEntry(Some(actor), IssueAction, Some(Movement(materialId, amount)))]
      && r.db == db.(materials := r.db.materials, transactions := r.db.transactions, logs := r.db.logs,
                     nextTransactionId := db.nextTransactionId + 1)
    ensures StockNonNegative(db) ==> StockNonNegative(r.db)
    ensures NoOrphans(db) ==> NoOrphans(r.db)
  {
    if materialId !in db.materials then Step(db, Failed(MaterialNotFound))
    else if db.materials[materialId].quantity < amount then Step(db, Failed(InsufficientStock))
    else
      var txId := db.nextTransactionId;
      var pending := db.(
        materials := UpdateQuantity(db.materials, materialId, -amount),
        transactions := db.transactions + [Transaction(txId, materialId, IssueKind, amount, ProgramComment)],
        nextTransactionId := txId + 1);
      var logged := AddLog(db, Some(actor), IssueAction, Some(Movement(materialId, amount)));
      if logged.outcome == Done then Step(pending.(logs := logged.db.logs), Done)
      else Step(db.(nextTransactionId := txId + 1), logged.outcome)
  }

  /** delete_material: deletes the material's transactions, then the material, then logs the
      deletion under the material's name ("Unknown" when there was no such material). */
  function DeleteMaterial(db: Db, actor: int, materialId: int): (r: Step)
    requires Wellformed(db)
    ensures Wellformed(r.db)
    ensures r.outcome == Done <==> LogAccepted(db.users, Some(actor))
    ensures r.outcome != Done ==> r == Step(db, Failed(UnknownUser))
    ensures r.outcome == Done ==>
      && r.db.materials == db.materials - {materialId}
      && r.db.transactions == WithoutMaterial(db.transactions, materialId)
      && (forall i :: 0 <= i < |r.db.transactions| ==> r.db.transactions[i].materialId != materialId)
      && (forall t :: t in db.transactions && t.materialId != materialId ==> t in r.db.transactions)
      && r.db.logs == db.logs + [LogEntry(Some(actor), MaterialDeletedAction,
                                          Some(MaterialRemoved(MaterialNameOrUnknown(db.materials, materialId), materialId)))]
      && r.db == db.(materials := r.db.materials, transactions := r.db.transactions, logs := r.db.logs)
    ensures StockNonNegative(db) ==> StockNonNegative(r.db)
    ensures NoOrphans(db) ==> NoOrphans(r.db)
  {
    var name := MaterialNameOrUnknown(db.materials, materialId);
    var pending := db.(
      transactions := WithoutMaterial(db.transactions, materialId),
      materials := db.materials - {materialId});
    var logged := AddLog(db, Some(actor), MaterialDeletedAction, Some(MaterialRemoved(name, materialId)));
    if logged.outcome == Done then Step(pending.(logs := logged.db.logs), Done)
    else Step(db, logged.outcome)
  }

  /** delete_category: refuses, without any change, a category that some material still has;
      otherwise deletes it and logs its name ("Unknown" when there was no such category). */
  function DeleteCategory(db: Db, actor: int, categoryId: int): (r: Step)
    requires Wellformed(db)
    ensures Wellformed(r.db)
    ensures HasMaterials(db.materials, categoryId) ==> r == Step(db, Failed(CategoryInUse))
    ensures r.outcome == Done <==> !HasMaterials(db.materials, categoryId) && LogAccepted(db.users, Some(actor))
    ensures !HasMaterials(db.materials, categoryId) && !LogAccepted(db.users, Some(actor))
      ==> r == Step(db, Failed(UnknownUser))
    ensures r.outcome == Done ==>
      && r.db.categories == db.categories - {categoryId}
      && r.db.logs == db.logs + [LogEntry(Some(actor), CategoryDeletedAction,
                                          Some(Text(CategoryNameOrUnknown(db.categories, categoryId))))]
      && r.db == db.(categories := r.db.categories, logs := r.db.logs)
    ensures StockNonNegative(db) ==> StockNonNegative(r.db)
    ensures NoOrphans(db) ==> NoOrphans(r.db)
  {
    if HasMaterials(db.materials, categoryId) then Step(db, Failed(CategoryInUse))
    else
      var name := CategoryNameOrUnknown(db.categories, categoryId);
      var pending := db.(categories := db.categories - {categoryId});
      var logged := AddLog(db, Some(actor), CategoryDeletedAction, Some(Text(name)));
      if logged.outcome == Done then Step(pending.(logs := logged.db.logs), Done)
      else Step(db, logged.outcome)
  }

  /** create_user: stores the user with the hash of the password, unless a value does not fit its
      VARCHAR column (an error; a value whose excess is only spaces is cut to the width instead) or
      the stored username is taken (ON CONFLICT DO NOTHING: the users table stays as it was, though
      an id is drawn). The role defaults to "user". */
  function CreateUser(db: Db, hash: string -> string, username: string, password: string, role: string := DefaultRole): (r: Step)
    requires Wellformed(db)
    ensures Wellformed(r.db)
    ensures FitColumn(username, UsernameWidth).None? || FitColumn(role, RoleWidth).None?
      ==> r == Step(db, Failed(ValueTooLong))
    ensures r.outcome == Done <==> FitColumn(username, UsernameWidth).Some? && FitColumn(role, RoleWidth).Some?
    ensures r.db == db.(users := r.db.users, nextUserId := r.db.nextUserId)
    ensures r.outcome == Done ==>
      var name := FitColumn(username, UsernameWidth).value;
      var kind := FitColumn(role, RoleWidth).value;
      && (Taken(db.users, name) ==> r.db == db.(nextUserId := db.nextUserId + 1))
      && (!Taken(db.users, name) ==>
            && db.nextUserId !in db.users
            && r.db == db.(users := db.users[db.nextUserId := User(name, hash(password), kind)],
                           nextUserId := db.nextUserId + 1))
  {
    var name := FitColumn(username, UsernameWidth);
    var kind := FitColumn(role, RoleWidth);
    if name.None? || kind.None? then Step(db, Failed(ValueTooLong))
    else
      var id := db.nextUserId;
      if Taken(db.users, name.value) then Step(db.(nextUserId := id + 1), Done)
      else Step(db.(users := db.users[id := User(name.value, hash(password), kind.value)], nextUserId := id + 1), Done)
  }

  /** The admin's username and role fit their columns unchanged. */
  lemma AdminFits()
    ensures FitColumn(AdminName, UsernameWidth) == Some(AdminName)
    ensures FitColumn(AdminRole, RoleWidth) == Some(AdminRole)
  {
  }

  /** ensure_admin: answers the id of the user named "admin", creating that user (password
      "admin123", role "admin") first when there is none. */
  function EnsureAdmin(db: Db, hash: string -> string): (r: Step)
    requires Wellformed(db)
    ensures Wellformed(r.db)
    ensures r.outcome.Created? && r.outcome.id in r.db.users && r.db.users[r.outcome.id].username == AdminName
    ensures r.db == db.(users := r.db.users, nextUserId := r.db.nextUserId)
    ensures Taken(db.users, AdminName) ==> r.db == db
    ensures !Taken(db.users, AdminName) ==>
      && r.outcome == Created(db.nextUserId)
      && r.db == db.(users := db.users[db.nextUserId := User(AdminName, hash(AdminPassword), AdminRole)],
                     nextUserId := db.nextUserId + 1)
  {
    match UserIdByName(db.users, AdminName)
    case Some(id) => Step(db, Created(id))
    case None =>
      AdminFits();
      assert !Taken(db.users, AdminName);
      var created := CreateUser(db, hash, AdminName, AdminPassword, AdminRole).db;
      var found := UserIdByName(created.users, AdminName);
      assert created.users[db.nextUserId].username == AdminName;
      Step(created, Created(found.value))
  }

  /** Increasing a material by `amount` and then decreasing it by the same amount gives back its
      stock and every other material, and leaves a receipt followed by an issue of that amount. */
  lemma IncreaseThenDecreaseRestores(db: Db, actor: int, materialId: int, amount: int)
    requires Wellformed(db)
    requires materialId in db.materials && db.materials[materialId].quantity >= 0
    requires LogAccepted(db.users, Some(actor))
    ensures var up := Increase(db, actor, materialId, amount);
            var down := Decrease(up.db, actor, materialId, amount);
            && up.outcome == Done && down.outcome == Done
            && down.db.materials == db.materials
            && down.db.transactions == db.transactions + [
                 Transaction(db.nextTransactionId, materialId, ReceiptKind, amount, ProgramComment),
                 Transaction(db.nextTransactionId + 1, materialId, IssueKind, amount, ProgramComment)]
            && |down.db.logs| == |db.logs| + 2
  {
    var up := Increase(db, actor, materialId, amount);
    var down := Decrease(up.db, actor, materialId, amount);
    assert down.db.materials == db.materials by {
      assert down.db.materials[materialId] == db.materials[materialId];
    }
  }
}
