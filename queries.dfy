/** The read-only queries of the application. Each takes the tables its SELECT reads. */
module Queries {
  import opened Records
  import opened Tables

  /** A row of get_categories: id and name. */
  datatype CategoryRow = CategoryRow(id: int, name: string)

  /** A row of load_materials: id, name, unit, quantity and the category's name. */
  datatype MaterialRow = MaterialRow(id: int, name: string, unit: string, quantity: int, category: string)

  /** A row of load_transactions: id, the material's name, type, amount and comment. */
  datatype TransactionRow = TransactionRow(id: int, material: string, kind: string, amount: int, comment: string)

  /** The UNIQUE constraint on users.username. */
  predicate UsernamesUnique(users: map<int, User>) {
    forall a, b :: a in users && b in users && users[a].username == users[b].username ==> a == b
  }

  /** `LEFT JOIN categories` with `COALESCE(c.name, '')`: the category's name, or "" when the
      material has no category or its category row is gone. */
  function CategoryName(categories: map<int, string>, categoryId: Option<int>): string {
    if categoryId.Some? && categoryId.value in categories then categories[categoryId.value] else ""
  }

  /** `LEFT JOIN materials` with `COALESCE(m.name, '')`: the material's name, or "" for a
      transaction whose material row does not exist. */
  function MaterialName(materials: map<int, Material>, materialId: int): string {
    if materialId in materials then materials[materialId].name else ""
  }

  /** The rows of `ids` in that order, each with the category's name. */
  function CategoryRows(ids: seq<int>, categories: map<int, string>): (rows: seq<CategoryRow>)
    requires forall i :: 0 <= i < |ids| ==> ids[i] in categories
    ensures |rows| == |ids|
    ensures forall i :: 0 <= i < |ids| ==> rows[i] == CategoryRow(ids[i], categories[ids[i]])
  {
    if ids == [] then [] else [CategoryRow(ids[0], categories[ids[0]])] + CategoryRows(ids[1..], categories)
  }

  /** Each row is an existing category with its name. */
  predicate ShowsOnlyCategories(rows: seq<CategoryRow>, categories: map<int, string>) {
    forall i :: 0 <= i < |rows| ==> rows[i].id in categories && rows[i].name == categories[rows[i].id]
  }

  /** Every category has its row. */
  predicate ShowsEveryCategory(rows: seq<CategoryRow>, categories: map<int, string>) {
    forall id :: id in categories ==> CategoryRow(id, categories[id]) in rows
  }

  /** The rows are in ascending id order (`ORDER BY id`). */
  predicate CategoryRowsAscending(rows: seq<CategoryRow>) {
    forall i, j :: 0 <= i < j < |rows| ==> rows[i].id < rows[j].id
  }

  /** Rows built from an ordered list of category ids keep that list's ids and order. */
  lemma CategoryRowsFollowIds(ids: seq<int>, categories: map<int, string>)
    requires StrictlyIncreasing(ids)
    requires forall i :: 0 <= i < |ids| ==> ids[i] in categories
    ensures var rows := CategoryRows(ids, categories);
      && ShowsOnlyCategories(rows, categories)
      && CategoryRowsAscending(rows)
  {
    var rows := CategoryRows(ids, categories);
    forall i | 0 <= i < |rows| ensures rows[i].id == ids[i] {
      assert rows[i] == CategoryRow(ids[i], categories[ids[i]]);
    }
  }

  /** Rows built from a list holding every category id show every category. */
  lemma CategoryRowsComplete(ids: seq<int>, categories: map<int, string>)
    requires forall i :: 0 <= i < |ids| ==> ids[i] in categories
    requires forall x :: x in categories ==> x in ids
    ensures ShowsEveryCategory(CategoryRows(ids, categories), categories)
  {
    var rows := CategoryRows(ids, categories);
    forall id | id in categories ensures CategoryRow(id, categories[id]) in rows {
      var k :| 0 <= k < |ids| && ids[k] == id;
      assert rows[k] == CategoryRow(id, categories[id]);
    }
  }

  /** get_categories: every category as (id, name), in ascending id order. */
  function GetCategories(categories: map<int, string>): (rows: seq<CategoryRow>)
    ensures |rows| == |categories|
    ensures ShowsOnlyCategories(rows, categories)
    ensures ShowsEveryCategory(rows, categories)
    ensures CategoryRowsAscending(rows)
  {
    var ids := SortedIds(categories.Keys);
    CategoryRowsFollowIds(ids, categories);
    CategoryRowsComplete(ids, categories);
    CategoryRows(ids, categories)
  }

  /** The row load_materials shows for material `id`. */
  function MaterialRowOf(materials: map<int, Material>, categories: map<int, string>, id: int): MaterialRow
    requires id in materials
  {
    var m := materials[id];
    MaterialRow(id, m.name, m.unit, m.quantity, CategoryName(categories, m.categoryId))
  }

  function MaterialRows(ids: seq<int>, materials: map<int, Material>, categories: map<int, string>): (rows: seq<MaterialRow>)
    requires forall i :: 0 <= i < |ids| ==> ids[i] in materials
    ensures |rows| == |ids|
    ensures forall i :: 0 <= i < |ids| ==> rows[i] == MaterialRowOf(materials, categories, ids[i])
  {
    if ids == [] then []
    else [MaterialRowOf(materials, categories, ids[0])] + MaterialRows(ids[1..], materials, categories)
  }

  /** Each row shows an existing material as `MaterialRowOf` does. */
  predicate ShowsOnlyMaterials(rows: seq<MaterialRow>, materials: map<int, Material>, categories: map<int, string>) {
    forall i :: 0 <= i < |rows| ==> rows[i].id in materials && rows[i] == MaterialRowOf(materials, categories, rows[i].id)
  }

  /** Every material has its row. */
  predicate ShowsEveryMaterial(rows: seq<MaterialRow>, materials: map<int, Material>, categories: map<int, string>) {
    forall id :: id in materials ==> MaterialRowOf(materials, categories, id) in rows
  }

  /** The rows are in ascending id order (`ORDER BY m.id`). */
  predicate MaterialRowsAscending(rows: seq<MaterialRow>) {
    forall i, j :: 0 <= i < j < |rows| ==> rows[i].id < rows[j].id
  }

  /** Rows built from an ordered list of material ids keep that list's ids and order. */
  lemma MaterialRowsFollowIds(ids: seq<int>, materials: map<int, Material>, categories: map<int, string>)
    requires StrictlyIncreasing(ids)
    requires forall i :: 0 <= i < |ids| ==> ids[i] in materials
    ensures var rows := MaterialRows(ids, materials, categories);
      && ShowsOnlyMaterials(rows, materials, categories)
      && MaterialRowsAscending(rows)
  {
    var rows := MaterialRows(ids, materials, categories);
    forall i | 0 <= i < |rows| ensures rows[i].id == ids[i] {
      assert rows[i] == MaterialRowOf(materials, categories, ids[i]);
    }
  }

  /** Rows built from a list holding every material id show every material. */
  lemma MaterialRowsComplete(ids: seq<int>, materials: map<int, Material>, categories: map<int, string>)
    requires forall i :: 0 <= i < |ids| ==> ids[i] in materials
    requires forall x :: x in materials ==> x in ids
    ensures ShowsEveryMaterial(MaterialRows(ids, materials, categories), materials, categories)
  {
    var rows := MaterialRows(ids, materials, categories);
    forall id | id in materials ensures MaterialRowOf(materials, categories, id) in rows {
      var k :| 0 <= k < |ids| && ids[k] == id;
      assert rows[k] == MaterialRowOf(materials, categories, id);
    }
  }

  /** load_materials: one row per material, in ascending id order, showing its category's name. */
  function LoadMaterials(materials: map<int, Material>, categories: map<int, string>): (rows: seq<MaterialRow>)
    ensures |rows| == |materials|
    ensures ShowsOnlyMaterials(rows, materials, categories)
    ensures ShowsEveryMaterial(rows, materials, categories)
    ensures MaterialRowsAscending(rows)
  {
    var ids := SortedIds(materials.Keys);
    MaterialRowsFollowIds(ids, materials, categories);
    MaterialRowsComplete(ids, materials, categories);
    MaterialRows(ids, materials, categories)
  }

  /** load_transactions: one row per transaction, `ORDER BY t.id DESC`. The table keeps its rows
      in the order they were inserted, so the newest row comes first. */
  function LoadTransactions(transactions: seq<Transaction>, materials: map<int, Material>): (rows: seq<TransactionRow>)
    ensures |rows| == |transactions|
    ensures forall i :: 0 <= i < |rows| ==>
      var t := transactions[|transactions| - 1 - i];
      rows[i] == TransactionRow(t.id, MaterialName(materials, t.materialId), t.kind, t.amount, t.comment)
    ensures IdsIncreasing(transactions) ==> forall i, j :: 0 <= i < j < |rows| ==> rows[i].id > rows[j].id
  {
    if transactions == [] then []
    else
      var t := transactions[|transactions| - 1];
      [TransactionRow(t.id, MaterialName(materials, t.materialId), t.kind, t.amount, t.comment)]
        + LoadTransactions(transactions[..|transactions| - 1], materials)
  }

  /** The condition `username = %s`, with `AND password_hash = %s` when a hash is given. */
  predicate Matches(u: User, username: string, passwordHash: Option<string>) {
    u.username == username && (passwordHash.None? || u.passwordHash == passwordHash.value)
  }

  /** The first of `ids` whose user matches, as `fetchone()` takes the first row of the SELECT. */
  function FirstMatch(ids: seq<int>, users: map<int, User>, username: string, passwordHash: Option<string>): (r: Option<int>)
    requires forall i :: 0 <= i < |ids| ==> ids[i] in users
    ensures r.Some? ==> r.value in users && Matches(users[r.value], username, passwordHash)
    ensures r.None? <==> forall i :: 0 <= i < |ids| ==> !Matches(users[ids[i]], username, passwordHash)
    ensures r.Some? ==> exists k :: 0 <= k < |ids| && ids[k] == r.value
                                   && forall i :: 0 <= i < k ==> !Matches(users[ids[i]], username, passwordHash)
  {
    if ids == [] then None
    else if Matches(users[ids[0]], username, passwordHash) then Some(ids[0])
    else FirstMatch(ids[1..], users, username, passwordHash)
  }

  /** `SELECT id FROM users WHERE username = %s`, first row. */
  function UserIdByName(users: map<int, User>, username: string): (r: Option<int>)
    ensures r.Some? ==> r.value in users && users[r.value].username == username
    ensures r.None? <==> forall id :: id in users ==> users[id].username != username
  {
    FirstMatch(SortedIds(users.Keys), users, username, None)
  }

  /** login: the (id, role) of a user whose username and stored hash both match, if any. */
  function Login(users: map<int, User>, hash: string -> string, username: string, password: string): (r: Option<(int, string)>)
    ensures r.Some? ==> r.value.0 in users && users[r.value.0] == User(username, hash(password), r.value.1)
    ensures r.None? <==> forall id :: id in users ==> users[id].username != username || users[id].passwordHash != hash(password)
  {
    match FirstMatch(SortedIds(users.Keys), users, username, Some(hash(password)))
    case None => None
    case Some(id) => Some((id, users[id].role))
  }

  /** Since usernames are unique, login answers (id, role) exactly for the one account whose
      username is `username` and whose stored hash is that of `password`. */
  lemma LoginIdentifiesAccount(users: map<int, User>, hash: string -> string, username: string, password: string, id: int, role: string)
    requires UsernamesUnique(users)
    ensures Login(users, hash, username, password) == Some((id, role))
        <==> id in users && users[id] == User(username, hash(password), role)
  {
    var r := Login(users, hash, username, password);
    if id in users && users[id] == User(username, hash(password), role) {
      assert r.Some?;
    }
  }
}
