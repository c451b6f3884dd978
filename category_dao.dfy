/** The inline-SQL Category DAO: lookup, insert, update and delete on the Category table and
    the search query with its two optional criteria. */
module CategoryDao {
  import opened Common
  import opened Store
  import opened Query

  const CATEGORY_BASE := "SELECT id, name, description, " + "created_at, updated_at " + "FROM Category WHERE 1=1"

  /** The search blocks in the order the builder tests them. */
  const CATEGORY_KEYS := [
    KeySpec("name", "name", Like, Wrapped),
    KeySpec("description", "description", Like, Wrapped)]

  /** A Category row's columns as the database compares them. */
  function CategoryRow(c: Category): Row
  {
    map["id" := Number(c.id), "name" := TextOrNull(c.name), "description" := TextOrNull(c.description)]
  }

  // ---------------------------------------------------------------------------
  // Table operations

  /** `getCategoryById`: the row with that id, or null. */
  method GetCategoryById(db: Database, id: int) returns (r: Option<Category>)
    requires db.Valid()
    ensures r.Some? <==> id in db.categories
    ensures r.Some? ==> r.value == db.categories[id] && r.value.id == id
  {
    if id in db.categories {
      return Some(db.categories[id]);
    }
    return None;
  }

  /** `addCategory`: the row is inserted under the next id with the given name and
      description; the id is returned when the driver reports it, -1 otherwise. The insert takes the next id even when the server refuses it,
      and a refused insert raises its message. */
  method AddCategory(db: Database, c: Category, server: Verdict, keyReported: bool) returns (r: Outcome<int>)
    requires db.Valid()
    modifies db`categories, db`nextCategoryId
    ensures db.Valid()
    ensures db.nextCategoryId == old(db.nextCategoryId) + 1
    ensures server.Refused? ==> r == Raised(SqlException(server.message)) && db.categories == old(db.categories)
    ensures server.Runs? ==> db.categories == old(db.categories)[old(db.nextCategoryId) := c.(id := old(db.nextCategoryId))]
    ensures server.Runs? ==> r == Done(if keyReported then old(db.nextCategoryId) else -1)
  {
    var key := db.nextCategoryId;
    db.nextCategoryId := key + 1;
    if server.Refused? {
      return Raised(SqlException(server.message));
    }
    db.categories := db.categories[key := c.(id := key)];
    r := Done(if keyReported then key else -1);
  }

  /** `updateCategory`: name and description are overwritten; true exactly when a row with
      that id exists. A refused update raises and nothing changes. */
  method UpdateCategory(db: Database, c: Category, server: Verdict) returns (r: Outcome<bool>)
    requires db.Valid()
    modifies db`categories
    ensures db.Valid()
    ensures server.Refused? ==> r == Raised(SqlException(server.message)) && db.categories == old(db.categories)
    ensures server.Runs? ==> r == Done(c.id in old(db.categories))
    ensures server.Runs? ==> (db.categories == if c.id in old(db.categories) then old(db.categories)[c.id := c] else old(db.categories))
  {
    if server.Refused? {
      return Raised(SqlException(server.message));
    }
    var matched := c.id in db.categories;
    if matched {
      db.categories := db.categories[c.id := c];
    }
    r := Done(matched);
  }

  /** `deleteCategory`: the row goes; true exactly when it was there. A refused delete raises
      and the row stays. */
  method DeleteCategory(db: Database, id: int, server: Verdict) returns (r: Outcome<bool>)
    requires db.Valid()
    modifies db`categories
    ensures db.Valid()
    ensures server.Refused? ==> r == Raised(SqlException(server.message)) && db.categories == old(db.categories)
    ensures server.Runs? ==> r == Done(id in old(db.categories)) && db.categories == old(db.categories) - {id}
    ensures server.Runs? ==> id !in db.categories
  {
    if server.Refused? {
      return Raised(SqlException(server.message));
    }
    r := Done(id in db.categories);
    db.categories := db.categories - {id};
  }

  // ---------------------------------------------------------------------------
  // Search

  /** What a search with these criteria asks of a category: its name and description
      contain the given texts. A `NULL` column matches no condition on it. */
  predicate CategoryMatches(c: Category, criteria: map<string, string>)
  {
    TextLike(c.name, criteria, "name") && TextLike(c.description, criteria, "description")
  }

  /** A category the search asks for. */
  predicate Wanted(c: Category, criteria: Option<map<string, string>>)
  {
    criteria.None? || CategoryMatches(c, criteria.value)
  }

  /** The builder as written: the two blocks in order. */
  method BuildCategoryQuery(criteria: Option<map<string, string>>) returns (r: Result<SqlQuery, Failure>)
    ensures r == Build(CATEGORY_BASE, CATEGORY_KEYS, criteria)
  {
    r := Ok(SqlQuery(CATEGORY_BASE, []));
    if criteria.Some? {
      var c := criteria.value;
      ghost var start := r;
      r := AppendBlock(r, CATEGORY_KEYS[0], c);
      r := AppendBlock(r, CATEGORY_KEYS[1], c);
      CategoryFold(start, c);
    }
  }

  lemma CategoryFold(acc: Result<SqlQuery, Failure>, c: map<string, string>)
    ensures Fold(acc, CATEGORY_KEYS, c) == Step(Step(acc, CATEGORY_KEYS[0], c), CATEGORY_KEYS[1], c)
  {
    var k := CATEGORY_KEYS;
    assert k[1..][1..] == [];
    FoldFirst(acc, k, c);
    FoldFirst(Step(acc, k[0], c), k[1..], c);
  }

  /** Both criteria are text, and no base text or column holds a placeholder. */
  lemma CategoryKeysFacts()
    ensures forall i :: 0 <= i < |CATEGORY_KEYS| ==> CATEGORY_KEYS[i].conversion != Parsed
    ensures forall i :: 0 <= i < |CATEGORY_KEYS| ==> '?' !in CATEGORY_KEYS[i].column
    ensures '?' !in CATEGORY_BASE
  {
    NoMark("SELECT id, name, description, ");
    NoMark("created_at, updated_at ");
    NoMark("FROM Category WHERE 1=1");
    forall i | 0 <= i < |CATEGORY_KEYS|
      ensures CATEGORY_KEYS[i].conversion != Parsed && '?' !in CATEGORY_KEYS[i].column
    {
      if i == 0 {} else {}
    }
  }

  /** The search query never fails; its placeholders and parameters agree in number, and its
      conditions hold of a category exactly when the category matches the criteria. */
  lemma CategoryQueryMeaning(criteria: map<string, string>)
    ensures Build(CATEGORY_BASE, CATEGORY_KEYS, Some(criteria)).Ok?
    ensures var q := Build(CATEGORY_BASE, CATEGORY_KEYS, Some(criteria)).value;
      Occurrences(q.sql, '?') == |q.params|
    ensures forall c :: Holds(CategoryRow(c), Conditions(CATEGORY_KEYS, criteria)) <==> CategoryMatches(c, criteria)
  {
    CategoryKeysFacts();
    NothingParsed(CATEGORY_KEYS, criteria);
    BuildOk(CATEGORY_BASE, CATEGORY_KEYS, Some(criteria));
    Placeholders(CATEGORY_BASE, CATEGORY_KEYS, Some(criteria));
    forall c ensures Holds(CategoryRow(c), Conditions(CATEGORY_KEYS, criteria)) <==> CategoryMatches(c, criteria) {
      HoldsBlocks(CategoryRow(c), CATEGORY_KEYS, criteria);
      CategoryBlocks(c, criteria);
    }
  }

  /** Block by block, each condition states one conjunct of `CategoryMatches`. */
  lemma CategoryBlocks(ca: Category, criteria: map<string, string>)
    requires FirstUnconvertible(CATEGORY_KEYS, criteria).None?
    ensures (forall i :: 0 <= i < |CATEGORY_KEYS| ==> BlockHolds(CategoryRow(ca), CATEGORY_KEYS[i], criteria))
            <==> CategoryMatches(ca, criteria)
  {
    var row := CategoryRow(ca);
    var k := CATEGORY_KEYS;
    LikeBlock(row, k[0], criteria, ca.name);
    LikeBlock(row, k[1], criteria, ca.description);
    if CategoryMatches(ca, criteria) {
      forall i | 0 <= i < |k| ensures BlockHolds(row, k[i], criteria) {
        if i == 0 {} else {}
      }
    }
  }

  /** `searchCategories`: every category that matches the criteria, each once; null
      criteria select every category. */
  method SearchCategories(db: Database, criteria: Option<map<string, string>>) returns (r: seq<Category>)
    requires db.Valid()
    ensures forall x :: x in r ==> exists id :: id in db.categories && db.categories[id] == x && Wanted(x, criteria)
    ensures forall id :: id in db.categories && Wanted(db.categories[id], criteria) ==> db.categories[id] in r
    ensures |r| == |set id | id in db.categories && Wanted(db.categories[id], criteria)|
  {
    var q := BuildCategoryQuery(criteria);
    var c := if criteria.Some? then criteria.value else map[];
    r := Select(db.categories, CategoryRow, Conditions(CATEGORY_KEYS, c));
    SearchSelects(db.categories, criteria, c, r);
  }

  /** The rows the conditions select are the categories the criteria ask for. */
  lemma SearchSelects(categories: map<int, Category>, criteria: Option<map<string, string>>, c: map<string, string>, rows: seq<Category>)
    requires c == if criteria.Some? then criteria.value else map[]
    requires forall x :: x in rows <==>
      exists id :: id in MatchingIds(categories, CategoryRow, Conditions(CATEGORY_KEYS, c)) && categories[id] == x
    ensures MatchingIds(categories, CategoryRow, Conditions(CATEGORY_KEYS, c)) == set id | id in categories && Wanted(categories[id], criteria)
    ensures forall x :: x in rows ==> exists id :: id in categories && categories[id] == x && Wanted(x, criteria)
    ensures forall id :: id in categories && Wanted(categories[id], criteria) ==> categories[id] in rows
  {
    var cs := Conditions(CATEGORY_KEYS, c);
    forall id | id in categories ensures Holds(CategoryRow(categories[id]), cs) <==> Wanted(categories[id], criteria) {
      SearchMeaning(criteria, c, categories[id]);
    }
    Selected(categories, CategoryRow, cs, x => Wanted(x, criteria), rows);
  }

  lemma SearchMeaning(criteria: Option<map<string, string>>, c: map<string, string>, x: Category)
    requires c == if criteria.Some? then criteria.value else map[]
    ensures Holds(CategoryRow(x), Conditions(CATEGORY_KEYS, c)) <==> Wanted(x, criteria)
  {
    if criteria.Some? {
      CategoryQueryMeaning(c);
    } else {
      NoKeys(CATEGORY_KEYS);
    }
  }
}
