/** What the read queries show after writes: a new user can log in, the admin that ensure_admin
    creates can log in with its default password, a new category or material is listed last, and
    an empty category column means the material has no category. */
module Views {
  import opened Records
  import opened Tables
  import opened Queries
  import opened Ledger
  import opened Session

  /** A user created with values that fit their columns, under a username whose stored form is
      free, logs in under that stored username with its password and gets its id and stored role. */
  lemma CreatedUserCanLogIn(db: Db, hash: string -> string, username: string, password: string, role: string)
    requires Wellformed(db)
    requires FitColumn(username, UsernameWidth).Some? && FitColumn(role, RoleWidth).Some?
    requires !Taken(db.users, FitColumn(username, UsernameWidth).value)
    ensures var name := FitColumn(username, UsernameWidth).value;
      Login(CreateUser(db, hash, username, password, role).db.users, hash, name, password)
      == Some((db.nextUserId, FitColumn(role, RoleWidth).value))
  {
    var users := CreateUser(db, hash, username, password, role).db.users;
    LoginIdentifiesAccount(users, hash, FitColumn(username, UsernameWidth).value, password,
                           db.nextUserId, FitColumn(role, RoleWidth).value);
  }

  /** When there was no admin, the one ensure_admin creates logs in with "admin123" as an admin,
      under the id ensure_admin answers. */
  lemma CreatedAdminCanLogIn(db: Db, hash: string -> string)
    requires Wellformed(db) && !Taken(db.users, AdminName)
    ensures var r := EnsureAdmin(db, hash);
      Login(r.db.users, hash, AdminName, AdminPassword) == Some((r.outcome.id, AdminRole))
  {
    var r := EnsureAdmin(db, hash);
    LoginIdentifiesAccount(r.db.users, hash, AdminName, AdminPassword, r.outcome.id, AdminRole);
  }

  /** A category added under a non-blank name is the last row get_categories returns. */
  lemma AddedCategoryListedLast(db: Db, name: string)
    requires Wellformed(db) && !IsBlank(name)
    ensures var rows := GetCategories(AddCategory(db, name).db.categories);
      |rows| > 0 && rows[|rows| - 1] == CategoryRow(db.nextCategoryId, name)
  {
    var categories := AddCategory(db, name).db.categories;
    var id := db.nextCategoryId;
    assert categories == db.categories[id := name];
    var rows := GetCategories(categories);
    assert ShowsEveryCategory(rows, categories);
    assert id in categories && categories[id] == name;
    assert CategoryRow(id, name) in rows;
    var k :| 0 <= k < |rows| && rows[k] == CategoryRow(id, name);
    assert rows[|rows| - 1].id <= id;
    assert k == |rows| - 1;
  }

  /** A new material is the last row load_materials returns, with the quantity it was created with. */
  lemma AddedMaterialLoadedLast(db: Db, name: string, unit: string, quantity: int, minQuantity: int, categoryId: Option<int>)
    requires Wellformed(db)
    ensures var rows := LoadMaterials(AddMaterial(db, name, unit, quantity, minQuantity, categoryId).db.materials, db.categories);
      && |rows| > 0
      && rows[|rows| - 1] == MaterialRow(db.nextMaterialId, name, unit, quantity, CategoryName(db.categories, categoryId))
  {
    var materials := AddMaterial(db, name, unit, quantity, minQuantity, categoryId).db.materials;
    var rows := LoadMaterials(materials, db.categories);
    var id := db.nextMaterialId;
    var row := MaterialRowOf(materials, db.categories, id);
    assert row in rows;
    var k :| 0 <= k < |rows| && rows[k] == row;
    assert rows[|rows| - 1].id <= id;
    assert k == |rows| - 1;
  }

  /** With no blank category name, a row of load_materials shows "" as its category exactly when
      its material has no category or a category that is gone. */
  predicate EmptyMeansNoCategory(rows: seq<MaterialRow>, materials: map<int, Material>, categories: map<int, string>) {
    forall i :: 0 <= i < |rows| && rows[i].id in materials ==>
      (rows[i].category == "" <==>
         (materials[rows[i].id].categoryId.None? || materials[rows[i].id].categoryId.value !in categories))
  }

  /** A category row whose name is not blank does not show as "". */
  lemma RowCategoryEmpty(materials: map<int, Material>, categories: map<int, string>, id: int)
    requires id in materials && CategoryNamesNonBlank(categories)
    ensures MaterialRowOf(materials, categories, id).category == "" <==>
              (materials[id].categoryId.None? || materials[id].categoryId.value !in categories)
  {
    var c := materials[id].categoryId;
    if c.Some? && c.value in categories {
      CategoryNameNotEmpty(categories, c.value);
    }
  }

  /** Rows that show materials as load_materials does show "" exactly for materials without a category. */
  lemma RowsEmptyCategory(rows: seq<MaterialRow>, materials: map<int, Material>, categories: map<int, string>)
    requires ShowsOnlyMaterials(rows, materials, categories) && CategoryNamesNonBlank(categories)
    ensures EmptyMeansNoCategory(rows, materials, categories)
  {
    forall i | 0 <= i < |rows| && rows[i].id in materials
      ensures rows[i].category == "" <==>
                (materials[rows[i].id].categoryId.None? || materials[rows[i].id].categoryId.value !in categories)
    {
      RowCategoryEmpty(materials, categories, rows[i].id);
    }
  }

  /** Over any run from a database without blank category names, load_materials shows an empty
      category exactly for a material with no category or one whose category is gone. */
  lemma NoCategoryShownEmpty(db: Db, hash: string -> string, ops: seq<Op>)
    requires Wellformed(db) && CategoryNamesNonBlank(db.categories)
    ensures var last := Run(db, hash, ops);
      EmptyMeansNoCategory(LoadMaterials(last.materials, last.categories), last.materials, last.categories)
  {
    var last := Run(db, hash, ops);
    CategoryNamesStayNonBlank(db, hash, ops);
    RowsEmptyCategory(LoadMaterials(last.materials, last.categories), last.materials, last.categories);
  }
}
