/** Any sequence of the application's writing operations, applied one after the other, and the
    invariants that hold along it: the database stays well formed, stock stays non-negative when
    no negative quantity is put in, and a material's stock moves exactly as its transactions say. */
module Session {
  import opened Records
  import opened Tables
  import opened Ledger

  /** One call into the writing operations. */
  datatype Op =
    | AddLogOp(userId: Option<int>, action: string, details: Option<Detail>)
    | AddCategoryOp(name: string)
    | AddMaterialOp(name: string, unit: string, quantity: int, minQuantity: int, categoryId: Option<int>)
    | IncreaseOp(actor: int, materialId: int, amount: int)
    | DecreaseOp(actor: int, materialId: int, amount: int)
    | DeleteMaterialOp(actor: int, materialId: int)
    | DeleteCategoryOp(actor: int, deletedCategory: int)
    | CreateUserOp(username: string, password: string, role: string)
    | EnsureAdminOp

  function Apply(db: Db, hash: string -> string, op: Op): (r: Step)
    requires Wellformed(db)
    ensures Wellformed(r.db)
  {
    match op
    case AddLogOp(userId, action, details) => AddLog(db, userId, action, details)
    case AddCategoryOp(name) => AddCategory(db, name)
    case AddMaterialOp(name, unit, quantity, minQuantity, categoryId) =>
      AddMaterial(db, name, unit, quantity, minQuantity, categoryId)
    case IncreaseOp(actor, materialId, amount) => Increase(db, actor, materialId, amount)
    case DecreaseOp(actor, materialId, amount) => Decrease(db, actor, materialId, amount)
    case DeleteMaterialOp(actor, materialId) => DeleteMaterial(db, actor, materialId)
    case DeleteCategoryOp(actor, categoryId) => DeleteCategory(db, actor, categoryId)
    case CreateUserOp(username, password, role) => CreateUser(db, hash, username, password, role)
    case EnsureAdminOp => EnsureAdmin(db, hash)
  }

  /** The database after the operations, in order; each one's outcome is shown to the user and
      does not stop the next. */
  function Run(db: Db, hash: string -> string, ops: seq<Op>): (r: Db)
    requires Wellformed(db)
    ensures Wellformed(r)
    decreases |ops|
  {
    if ops == [] then db else Run(Apply(db, hash, ops[0]).db, hash, ops[1..])
  }

  /** No operation puts a negative quantity into stock: increases add nothing negative and new
      materials start at zero or more. */
  predicate NonNegativeInput(op: Op) {
    match op
    case IncreaseOp(_, _, amount) => amount >= 0
    case AddMaterialOp(_, _, quantity, _, _) => quantity >= 0
    case _ => true
  }

  /** Stock can go negative only through an increase by a negative amount or a material created
      with a negative quantity: decreases are checked. */
  lemma {:induction false} StockStaysNonNegative(db: Db, hash: string -> string, ops: seq<Op>)
    requires Wellformed(db) && StockNonNegative(db)
    requires forall i :: 0 <= i < |ops| ==> NonNegativeInput(ops[i])
    ensures StockNonNegative(Run(db, hash, ops))
    decreases |ops|
  {
    if ops != [] {
      ApplyKeeps(db, hash, ops[0]);
      StockStaysNonNegative(Apply(db, hash, ops[0]).db, hash, ops[1..]);
    }
  }

  /** What a transaction adds to the stock of `materialId`: a receipt adds its amount, an issue
      takes it away, a transaction of another material adds nothing. */
  function Signed(t: Transaction, materialId: int): int {
    if t.materialId != materialId then 0
    else if t.kind == ReceiptKind then t.amount
    else if t.kind == IssueKind then -t.amount
    else 0
  }

  /** The net movement of `materialId` recorded in `ts`. */
  function Net(ts: seq<Transaction>, materialId: int): int {
    if ts == [] then 0 else Signed(ts[0], materialId) + Net(ts[1..], materialId)
  }

  lemma {:induction false} NetAppend(ts: seq<Transaction>, t: Transaction, materialId: int)
    ensures Net(ts + [t], materialId) == Net(ts, materialId) + Signed(t, materialId)
  {
    if ts != [] {
      assert (ts + [t])[1..] == ts[1..] + [t];
      NetAppend(ts[1..], t, materialId);
    }
  }

  /** Deleting the transactions of one material leaves the net movement of every other material alone. */
  lemma {:induction false} NetWithoutOther(ts: seq<Transaction>, removed: int, materialId: int)
    requires removed != materialId
    ensures Net(WithoutMaterial(ts, removed), materialId) == Net(ts, materialId)
  {
    if ts != [] {
      NetWithoutOther(ts[1..], removed, materialId);
      if ts[0].materialId != removed {
        assert ([ts[0]] + WithoutMaterial(ts[1..], removed))[1..] == WithoutMaterial(ts[1..], removed);
      }
    }
  }

  /** Receipts and issues are distinct transaction types. */
  lemma KindsDiffer()
    ensures ReceiptKind != IssueKind
  {
    assert ReceiptKind[0] != IssueKind[0];
  }

  /** A material's stock minus the net movement its transactions record. */
  function Balance(db: Db, materialId: int): int
    requires materialId in db.materials
  {
    db.materials[materialId].quantity - Net(db.transactions, materialId)
  }

  /** What one operation keeps, going from `db` to `next`: the material id sequence does not go
      back and only its next id can name a new material; stock stays non-negative when the input
      puts in nothing negative; every material that stays keeps its balance, so its stock
      moves only together with its transactions; and no blank category name is stored. */
  predicate Keeps(db: Db, op: Op, next: Db) {
    && next.nextMaterialId >= db.nextMaterialId
    && next.materials.Keys <= db.materials.Keys + {db.nextMaterialId}
    && (StockNonNegative(db) && NonNegativeInput(op) ==> StockNonNegative(next))
    && (forall m | m in db.materials && m in next.materials :: Balance(next, m) == Balance(db, m))
    && (CategoryNamesNonBlank(db.categories) ==> CategoryNamesNonBlank(next.categories))
  }

  lemma AddLogKeeps(db: Db, hash: string -> string, op: Op)
    requires Wellformed(db) && op.AddLogOp?
    ensures Keeps(db, op, Apply(db, hash, op).db)
  {
  }

  lemma AddCategoryKeeps(db: Db, hash: string -> string, op: Op)
    requires Wellformed(db) && op.AddCategoryOp?
    ensures Keeps(db, op, Apply(db, hash, op).db)
  {
  }

  lemma AddMaterialKeeps(db: Db, hash: string -> string, op: Op)
    requires Wellformed(db) && op.AddMaterialOp?
    ensures Keeps(db, op, Apply(db, hash, op).db)
  {
  }

  lemma IncreaseKeeps(db: Db, hash: string -> string, op: Op)
    requires Wellformed(db) && op.IncreaseOp?
    ensures Keeps(db, op, Apply(db, hash, op).db)
  {
    var r := Increase(db, op.actor, op.materialId, op.amount);
    IncreaseStockAndOrphans(db, op.actor, op.materialId, op.amount);
    if r.outcome == Done {
      NetAppend(db.transactions, Transaction(db.nextTransactionId, op.materialId, ReceiptKind, op.amount, ProgramComment), op.materialId);
    }
    forall m | m in db.materials && m in r.db.materials ensures Balance(r.db, m) == Balance(db, m) {
      if r.outcome == Done {
        NetAppend(db.transactions, Transaction(db.nextTransactionId, op.materialId, ReceiptKind, op.amount, ProgramComment), m);
      }
    }
  }

  lemma DecreaseKeeps(db: Db, hash: string -> string, op: Op)
    requires Wellformed(db) && op.DecreaseOp?
    ensures Keeps(db, op, Apply(db, hash, op).db)
  {
    var r := Decrease(db, op.actor, op.materialId, op.amount);
    forall m | m in db.materials && m in r.db.materials ensures Balance(r.db, m) == Balance(db, m) {
      if r.outcome == Done {
        KindsDiffer();
        NetAppend(db.transactions, Transaction(db.nextTransactionId, op.materialId, IssueKind, op.amount, ProgramComment), m);
      }
    }
  }

  lemma DeleteMaterialKeeps(db: Db, hash: string -> string, op: Op)
    requires Wellformed(db) && op.DeleteMaterialOp?
    ensures Keeps(db, op, Apply(db, hash, op).db)
  {
    var r := DeleteMaterial(db, op.actor, op.materialId);
    forall m | m in db.materials && m in r.db.materials ensures Balance(r.db, m) == Balance(db, m) {
      if r.outcome == Done {
        NetWithoutOther(db.transactions, op.materialId, m);
      }
    }
  }

  lemma DeleteCategoryKeeps(db: Db, hash: string -> string, op: Op)
    requires Wellformed(db) && op.DeleteCategoryOp?
    ensures Keeps(db, op, Apply(db, hash, op).db)
  {
  }

  lemma CreateUserKeeps(db: Db, hash: string -> string, op: Op)
    requires Wellformed(db) && op.CreateUserOp?
    ensures Keeps(db, op, Apply(db, hash, op).db)
  {
  }

  lemma EnsureAdminKeeps(db: Db, hash: string -> string, op: Op)
    requires Wellformed(db) && op.EnsureAdminOp?
    ensures Keeps(db, op, Apply(db, hash, op).db)
  {
  }

  /** Every operation keeps what `Keeps` says. */
  lemma ApplyKeeps(db: Db, hash: string -> string, op: Op)
    requires Wellformed(db)
    ensures Keeps(db, op, Apply(db, hash, op).db)
  {
    match op
    case AddLogOp(_, _, _) => AddLogKeeps(db, hash, op);
    case AddCategoryOp(_) => AddCategoryKeeps(db, hash, op);
    case AddMaterialOp(_, _, _, _, _) => AddMaterialKeeps(db, hash, op);
    case IncreaseOp(_, _, _) => IncreaseKeeps(db, hash, op);
    case DecreaseOp(_, _, _) => DecreaseKeeps(db, hash, op);
    case DeleteMaterialOp(_, _) => DeleteMaterialKeeps(db, hash, op);
    case DeleteCategoryOp(_, _) => DeleteCategoryKeeps(db, hash, op);
    case CreateUserOp(_, _, _) => CreateUserKeeps(db, hash, op);
    case EnsureAdminOp => EnsureAdminKeeps(db, hash, op);
  }

  /** Over any run, category names stay non-blank. */
  lemma {:induction false} CategoryNamesStayNonBlank(db: Db, hash: string -> string, ops: seq<Op>)
    requires Wellformed(db) && CategoryNamesNonBlank(db.categories)
    ensures CategoryNamesNonBlank(Run(db, hash, ops).categories)
    decreases |ops|
  {
    if ops != [] {
      ApplyKeeps(db, hash, ops[0]);
      CategoryNamesStayNonBlank(Apply(db, hash, ops[0]).db, hash, ops[1..]);
    }
  }

  /** A material id below the sequence's next value that is not in the table never comes back. */
  lemma {:induction false} GoneStaysGone(db: Db, hash: string -> string, ops: seq<Op>, materialId: int)
    requires Wellformed(db) && materialId !in db.materials && materialId < db.nextMaterialId
    ensures materialId !in Run(db, hash, ops).materials
    decreases |ops|
  {
    if ops != [] {
      ApplyKeeps(db, hash, ops[0]);
      GoneStaysGone(Apply(db, hash, ops[0]).db, hash, ops[1..], materialId);
    }
  }

  /** The stock of a material changes only together with its transactions: over any run, for a
      material that exists at both ends, the change of its quantity equals the receipts minus the
      issues recorded for it in the transactions table. */
  lemma {:induction false} StockFollowsTransactions(db: Db, hash: string -> string, ops: seq<Op>, materialId: int)
    requires Wellformed(db) && materialId in db.materials
    ensures var last := Run(db, hash, ops);
      materialId in last.materials ==>
        last.materials[materialId].quantity - db.materials[materialId].quantity
        == Net(last.transactions, materialId) - Net(db.transactions, materialId)
    decreases |ops|
  {
    if ops != [] {
      var next := Apply(db, hash, ops[0]).db;
      ApplyKeeps(db, hash, ops[0]);
      if materialId in next.materials {
        StockFollowsTransactions(next, hash, ops[1..], materialId);
      } else {
        GoneStaysGone(next, hash, ops[1..], materialId);
      }
    }
  }
}
