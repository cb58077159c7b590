/** The database as the application changes it: one object whose tables are updated in place.
    Each method performs the statements of its operation one after the other, keeping the writes
    of its open transaction aside until the commit, and answers what the operation of `Ledger`
    answers for the state it started from. */
module Inventory {
  import opened Records
  import opened Tables
  import opened Queries
  import opened Ledger

  class Store {
    var materials: map<int, Material>
    var categories: map<int, string>
    var transactions: seq<Transaction>
    var logs: seq<LogEntry>
    var users: map<int, User>
    var nextMaterialId: int
    var nextCategoryId: int
    var nextTransactionId: int
    var nextUserId: int

    /** hash_password, whose digest is not modelled. */
    const hash: string -> string

    /** The tables and sequences as one value. */
    function State(): Db
      reads this
    {
      Db(materials, categories, transactions, logs, users,
         nextMaterialId, nextCategoryId, nextTransactionId, nextUserId)
    }

    predicate Valid()
      reads this
    {
      Wellformed(State())
    }

    /** Freshly created tables, every sequence at 1. */
    constructor(hash: string -> string)
      ensures Valid() && State() == Empty() && this.hash == hash
    {
      materials := map[];
      categories := map[];
      transactions := [];
      logs := [];
      users := map[];
      nextMaterialId := 1;
      nextCategoryId := 1;
      nextTransactionId := 1;
      nextUserId := 1;
      this.hash := hash;
    }

    /** add_log: appends one log row, unless the foreign key on user_id refuses it. */
    method AddLog(userId: Option<int>, action: string, details: Option<Detail>) returns (outcome: Outcome)
      requires Valid()
      modifies this`logs
      ensures Valid()
      ensures Step(State(), outcome) == Ledger.AddLog(old(State()), userId, action, details)
    {
      if userId.Some? && userId.value !in users {
        return Failed(UnknownUser);
      }
      logs := logs + [LogEntry(userId, action, details)];
      return Done;
    }

    /** add_category: refuses a name that strip() would leave empty, that is a blank one (the
        contract of `Strip`), then inserts the unstripped name. */
    method AddCategory(name: string) returns (outcome: Outcome)
      requires Valid()
      modifies this`categories, this`nextCategoryId
      ensures Valid()
      ensures Step(State(), outcome) == Ledger.AddCategory(old(State()), name)
    {
      if IsBlank(name) {
        return Failed(BlankCategoryName);
      }
      var id := nextCategoryId;
      nextCategoryId := nextCategoryId + 1;
      categories := categories[id := name];
      return Created(id);
    }

    /** add_material: one INSERT ... RETURNING id. */
    method AddMaterial(name: string, unit: string, quantity: int, minQuantity: int, categoryId: Option<int>)
      returns (outcome: Outcome)
      requires Valid()
      modifies this`materials, this`nextMaterialId
      ensures Valid()
      ensures Step(State(), outcome) == Ledger.AddMaterial(old(State()), name, unit, quantity, minQuantity, categoryId)
    {
      var id := nextMaterialId;
      nextMaterialId := nextMaterialId + 1;
      materials := materials[id := Material(name, unit, quantity, minQuantity, categoryId)];
      return Created(id);
    }

    /** increase_material: UPDATE, INSERT and the log, then the commit. The INSERT draws its id
        at once; the UPDATE and the INSERT take effect only if the log is written. */
    method Increase(actor: int, materialId: int, amount: int) returns (outcome: Outcome)
      requires Valid()
      modifies this
      ensures Valid()
      ensures Step(State(), outcome) == Ledger.Increase(old(State()), actor, materialId, amount)
    {
      var pendingMaterials := materials;
      if materialId in materials {
        var m := materials[materialId];
        pendingMaterials := materials[materialId := m.(quantity := m.quantity + amount)];
      }
      var txId := nextTransactionId;
      nextTransactionId := nextTransactionId + 1;
      var pendingTransactions := transactions + [Transaction(txId, materialId, ReceiptKind, amount, ProgramComment)];
      outcome := AddLog(Some(actor), ReceiptAction, Some(Movement(materialId, amount)));
      if outcome == Done {
        materials := pendingMaterials;
        transactions := pendingTransactions;
      }
    }

    /** decrease_material: reads the stock and refuses before writing; otherwise as increase. */
    method Decrease(actor: int, materialId: int, amount: int) returns (outcome: Outcome)
      requires Valid()
      modifies this
      ensures Valid()
      ensures Step(State(), outcome) == Ledger.Decrease(old(State()), actor, materialId, amount)
    {
      if materialId !in materials {
        return Failed(MaterialNotFound);
      }
      var m := materials[materialId];
      if m.quantity < amount {
        return Failed(InsufficientStock);
      }
      var pendingMaterials := materials[materialId := m.(quantity := m.quantity - amount)];
      var txId := nextTransactionId;
      nextTransactionId := nextTransactionId + 1;
      var pendingTransactions := transactions + [Transaction(txId, materialId, IssueKind, amount, ProgramComment)];
      outcome := AddLog(Some(actor), IssueAction, Some(Movement(materialId, amount)));
      if outcome == Done {
        materials := pendingMaterials;
        transactions := pendingTransactions;
      }
    }

    /** delete_material: reads the name, deletes the transactions and the material, logs, commits. */
    method DeleteMaterial(actor: int, materialId: int) returns (outcome: Outcome)
      requires Valid()
      modifies this
      ensures Valid()
      ensures Step(State(), outcome) == Ledger.DeleteMaterial(old(State()), actor, materialId)
    {
      var name := if materialId in materials then materials[materialId].name else UnknownName;
      var pendingTransactions := WithoutMaterial(transactions, materialId);
      var pendingMaterials := materials - {materialId};
      outcome := AddLog(Some(actor), MaterialDeletedAction, Some(MaterialRemoved(name, materialId)));
      if outcome == Done {
        transactions := pendingTransactions;
        materials := pendingMaterials;
      }
    }

    /** delete_category: counts the category's materials and returns early when there are any;
        otherwise reads the name, deletes the row, logs, commits. */
    method DeleteCategory(actor: int, categoryId: int) returns (outcome: Outcome)
      requires Valid()
      modifies this
      ensures Valid()
      ensures Step(State(), outcome) == Ledger.DeleteCategory(old(State()), actor, categoryId)
    {
      if HasMaterials(materials, categoryId) {
        return Failed(CategoryInUse);
      }
      var name := if categoryId in categories then categories[categoryId] else UnknownName;
      var pendingCategories := categories - {categoryId};
      outcome := AddLog(Some(actor), CategoryDeletedAction, Some(Text(name)));
      if outcome == Done {
        categories := pendingCategories;
      }
    }

    /** create_user: fits both values to their columns, then the INSERT draws an id and inserts
        nothing when the stored username is taken. */
    method CreateUser(username: string, password: string, role: string := DefaultRole) returns (outcome: Outcome)
      requires Valid()
      modifies this`users, this`nextUserId
      ensures Valid()
      ensures Step(State(), outcome) == Ledger.CreateUser(old(State()), hash, username, password, role)
    {
      var name := FitColumn(username, UsernameWidth);
      var kind := FitColumn(role, RoleWidth);
      if name.None? || kind.None? {
        return Failed(ValueTooLong);
      }
      var id := nextUserId;
      nextUserId := nextUserId + 1;
      if !Taken(users, name.value) {
        users := users[id := User(name.value, hash(password), kind.value)];
      }
      return Done;
    }

    /** ensure_admin: looks the admin up, creates it when missing and looks it up again. */
    method EnsureAdmin() returns (outcome: Outcome)
      requires Valid()
      modifies this`users, this`nextUserId
      ensures Valid()
      ensures Step(State(), outcome) == Ledger.EnsureAdmin(old(State()), hash)
    {
      ghost var before := State();
      var found := UserIdByName(users, AdminName);
      if found.None? {
        AdminFits();
        var _ := CreateUser(AdminName, AdminPassword, AdminRole);
        assert State() == Ledger.CreateUser(before, hash, AdminName, AdminPassword, AdminRole).db;
        assert !Taken(before.users, AdminName);
        assert users[before.nextUserId].username == AdminName;
        found := UserIdByName(users, AdminName);
      }
      return Created(found.value);
    }
  }
}
