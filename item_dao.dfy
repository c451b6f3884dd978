/** The inline-SQL Item DAO: lookup, insert, update and delete on the Item table, the search
    query with its five optional criteria, and the stock-range counts. */
module ItemDao {
  import opened Common
  import opened Store
  import opened Query

  const ITEM_BASE := "SELECT id, name, description, price, " + "stock_quantity, category_id, created_at, " +
    "updated_at FROM Item WHERE 1=1"

  /** The search blocks in the order the builder tests them. */
  const ITEM_KEYS := [
    KeySpec("name", "name", Like, Wrapped),
    KeySpec("description", "description", Like, Wrapped),
    KeySpec("category_id", "category_id", Equals, Parsed),
    KeySpec("stock_min", "stock_quantity", AtLeast, Parsed),
    KeySpec("stock_max", "stock_quantity", AtMost, Parsed)]

  /** An Item row's columns as the database compares them. */
  function ItemRow(item: Item): Row
  {
    map[
      "id" := Number(item.id),
      "name" := TextOrNull(item.name),
      "description" := TextOrNull(item.description),
      "price" := Number(item.price),
      "stock_quantity" := Number(item.stockQuantity),
      "category_id" := NumberOrNull(item.categoryId)]
  }

  // ---------------------------------------------------------------------------
  // Table operations

  /** `getItemById`: the row with that id, or null. */
  method GetItemById(db: Database, id: int) returns (r: Option<Item>)
    requires db.Valid()
    ensures r.Some? <==> id in db.items
    ensures r.Some? ==> r.value == db.items[id] && r.value.id == id
  {
    if id in db.items {
      return Some(db.items[id]);
    }
    return None;
  }

  /** `addItem`: the row is inserted under the next id with every field as
      given, a null category included; the id is returned when the driver reports it, -1
      otherwise. The insert takes the next id even when the server refuses it,
      and a refused insert raises its message. */
  method AddItem(db: Database, item: Item, server: Verdict, keyReported: bool) returns (r: Outcome<int>)
    requires db.Valid()
    modifies db`items, db`nextItemId
    ensures db.Valid()
    ensures db.nextItemId == old(db.nextItemId) + 1
    ensures server.Refused? ==> r == Raised(SqlException(server.message)) && db.items == old(db.items)
    ensures server.Runs? ==> db.items == old(db.items)[old(db.nextItemId) := item.(id := old(db.nextItemId))]
    ensures server.Runs? ==> r == Done(if keyReported then old(db.nextItemId) else -1)
    ensures r.Done? && r.value != -1 ==> r.value in db.items && db.items[r.value].categoryId == item.categoryId
  {
    var key := db.nextItemId;
    db.nextItemId := key + 1;
    if server.Refused? {
      return Raised(SqlException(server.message));
    }
    db.items := db.items[key := item.(id := key)];
    r := Done(if keyReported then key else -1);
  }

  /** `updateItem`: every column but the id is overwritten; true exactly when a row with
      that id exists. A refused update raises and nothing changes. */
  method UpdateItem(db: Database, item: Item, server: Verdict) returns (r: Outcome<bool>)
    requires db.Valid()
    modifies db`items
    ensures db.Valid()
    ensures server.Refused? ==> r == Raised(SqlException(server.message)) && db.items == old(db.items)
    ensures server.Runs? ==> r == Done(item.id in old(db.items))
    ensures server.Runs? ==> (db.items == if item.id in old(db.items) then old(db.items)[item.id := item] else old(db.items))
  {
    if server.Refused? {
      return Raised(SqlException(server.message));
    }
    var matched := item.id in db.items;
    if matched {
      db.items := db.items[item.id := item];
    }
    r := Done(matched);
  }

  /** `deleteItem`: the row goes; true exactly when it was there. A refused delete raises
      and the row stays. */
  method DeleteItem(db: Database, id: int, server: Verdict) returns (r: Outcome<bool>)
    requires db.Valid()
    modifies db`items
    ensures db.Valid()
    ensures server.Refused? ==> r == Raised(SqlException(server.message)) && db.items == old(db.items)
    ensures server.Runs? ==> r == Done(id in old(db.items)) && db.items == old(db.items) - {id}
    ensures server.Runs? ==> id !in db.items
  {
    if server.Refused? {
      return Raised(SqlException(server.message));
    }
    r := Done(id in db.items);
    db.items := db.items - {id};
  }

  // ---------------------------------------------------------------------------
  // Search

  /** A criteria value `Integer.parseInt` rejects. */
  predicate Unparsable(criteria: map<string, string>, key: string)
  {
    key in criteria && ParseInt(criteria[key]).None?
  }

  /** What a search with these criteria asks of an item, stated on its fields: the name and
      description contain the given text, the category is the given one, and the stock lies
      between the bounds, both inclusive. A `NULL` column matches no condition on it. */
  predicate ItemMatches(item: Item, criteria: map<string, string>)
  {
    && TextLike(item.name, criteria, "name")
    && TextLike(item.description, criteria, "description")
    && ("category_id" in criteria ==> item.categoryId.Some? && ParseInt(criteria["category_id"]) == item.categoryId)
    && ("stock_min" in criteria ==> ParseInt(criteria["stock_min"]).Some? && ParseInt(criteria["stock_min"]).value <= item.stockQuantity)
    && ("stock_max" in criteria ==> ParseInt(criteria["stock_max"]).Some? && item.stockQuantity <= ParseInt(criteria["stock_max"]).value)
  }

  /** The builder as written: the five blocks in order, the numeric ones through
      `parseInt`. */
  method BuildItemQuery(criteria: Option<map<string, string>>) returns (r: Result<SqlQuery, Failure>)
    ensures r == Build(ITEM_BASE, ITEM_KEYS, criteria)
  {
    r := Ok(SqlQuery(ITEM_BASE, []));
    if criteria.Some? {
      var c := criteria.value;
      ghost var start := r;
      r := AppendBlock(r, ITEM_KEYS[0], c);
      r := AppendBlock(r, ITEM_KEYS[1], c);
      r := AppendBlock(r, ITEM_KEYS[2], c);
      r := AppendBlock(r, ITEM_KEYS[3], c);
      r := AppendBlock(r, ITEM_KEYS[4], c);
      ItemFold(start, c);
    }
  }

  lemma ItemFold(acc: Result<SqlQuery, Failure>, c: map<string, string>)
    ensures Fold(acc, ITEM_KEYS, c) ==
      Step(Step(Step(Step(Step(acc, ITEM_KEYS[0], c), ITEM_KEYS[1], c), ITEM_KEYS[2], c), ITEM_KEYS[3], c), ITEM_KEYS[4], c)
  {
    var k := ITEM_KEYS;
    assert k[1..][1..] == k[2..] && k[2..][1..] == k[3..] && k[3..][1..] == k[4..] && k[4..][1..] == [];
    FoldFirst(acc, k, c);
    var a1 := Step(acc, k[0], c);
    FoldFirst(a1, k[1..], c);
    var a2 := Step(a1, k[1], c);
    FoldFirst(a2, k[2..], c);
    var a3 := Step(a2, k[2], c);
    FoldFirst(a3, k[3..], c);
    var a4 := Step(a3, k[3], c);
    FoldFirst(a4, k[4..], c);
  }

  /** The search query: it fails on the first numeric value, in the order category, minimum,
      maximum, that does not parse; otherwise its placeholders and parameters agree in
      number, and its conditions hold of an item exactly when the item matches the criteria. */
  lemma ItemQueryMeaning(criteria: map<string, string>)
    ensures var r := Build(ITEM_BASE, ITEM_KEYS, Some(criteria));
      r == if Unparsable(criteria, "category_id") then Err(NumberFormat(criteria["category_id"]))
           else if Unparsable(criteria, "stock_min") then Err(NumberFormat(criteria["stock_min"]))
           else if Unparsable(criteria, "stock_max") then Err(NumberFormat(criteria["stock_max"]))
           else Ok(r.value)
    ensures var r := Build(ITEM_BASE, ITEM_KEYS, Some(criteria));
      r.Ok? ==> Occurrences(r.value.sql, '?') == |r.value.params|
    ensures FirstUnconvertible(ITEM_KEYS, criteria).None? ==>
      forall item :: Holds(ItemRow(item), Conditions(ITEM_KEYS, criteria)) <==> ItemMatches(item, criteria)
  {
    var r := Build(ITEM_BASE, ITEM_KEYS, Some(criteria));
    BuildOk(ITEM_BASE, ITEM_KEYS, Some(criteria));
    ItemUnconvertible(criteria);
    if r.Ok? {
      ItemNoPlaceholders();
      Placeholders(ITEM_BASE, ITEM_KEYS, Some(criteria));
    }
    match FirstUnconvertible(ITEM_KEYS, criteria)
    case Some(k) =>
      FoldFails(Ok(SqlQuery(ITEM_BASE, [])), ITEM_KEYS, criteria);
    case None =>
      forall item ensures Holds(ItemRow(item), Conditions(ITEM_KEYS, criteria)) <==> ItemMatches(item, criteria) {
        HoldsBlocks(ItemRow(item), ITEM_KEYS, criteria);
        ItemBlocks(item, criteria);
      }
  }

  /** Neither the base text nor a column name holds a placeholder. */
  lemma ItemNoPlaceholders()
    ensures '?' !in ITEM_BASE
    ensures forall i :: 0 <= i < |ITEM_KEYS| ==> '?' !in ITEM_KEYS[i].column
  {
    ItemBaseFree();
    forall i | 0 <= i < |ITEM_KEYS| ensures '?' !in ITEM_KEYS[i].column {
      if i == 0 {} else if i == 1 {} else if i == 2 {} else if i == 3 {} else {}
    }
  }

  lemma ItemBaseFree()
    ensures '?' !in ITEM_BASE
  {
    NoMark("SELECT id, name, description, price, ");
    NoMark("stock_quantity, category_id, created_at, ");
    NoMark("updated_at FROM Item WHERE 1=1");
  }

  lemma ItemUnconvertible(criteria: map<string, string>)
    ensures !Unconvertible(ITEM_KEYS[0], criteria) && !Unconvertible(ITEM_KEYS[1], criteria)
    ensures Unconvertible(ITEM_KEYS[2], criteria) == Unparsable(criteria, "category_id")
    ensures Unconvertible(ITEM_KEYS[3], criteria) == Unparsable(criteria, "stock_min")
    ensures Unconvertible(ITEM_KEYS[4], criteria) == Unparsable(criteria, "stock_max")
  {
  }

  /** Block by block, each condition states one conjunct of `ItemMatches`. */
  lemma ItemBlocks(item: Item, criteria: map<string, string>)
    requires FirstUnconvertible(ITEM_KEYS, criteria).None?
    ensures (forall i :: 0 <= i < |ITEM_KEYS| ==> BlockHolds(ItemRow(item), ITEM_KEYS[i], criteria))
            <==> ItemMatches(item, criteria)
  {
    var row := ItemRow(item);
    var c := criteria;
    assert !Unconvertible(ITEM_KEYS[2], c) && !Unconvertible(ITEM_KEYS[3], c) && !Unconvertible(ITEM_KEYS[4], c);
    LikeBlock(row, ITEM_KEYS[0], c, item.name);
    LikeBlock(row, ITEM_KEYS[1], c, item.description);
    NumberBlocks(item, c);
    var b0, b1, b2 := BlockHolds(row, ITEM_KEYS[0], c), BlockHolds(row, ITEM_KEYS[1], c), BlockHolds(row, ITEM_KEYS[2], c);
    var b3, b4 := BlockHolds(row, ITEM_KEYS[3], c), BlockHolds(row, ITEM_KEYS[4], c);
    if b0 && b1 && b2 && b3 && b4 {
      forall i | 0 <= i < |ITEM_KEYS| ensures BlockHolds(row, ITEM_KEYS[i], c) {
        if i == 0 {} else if i == 1 {} else if i == 2 {} else if i == 3 {} else {}
      }
    }
  }

  /** The category block and the two stock blocks state the numeric conjuncts of
      `ItemMatches`. */
  lemma NumberBlocks(item: Item, c: map<string, string>)
    requires !Unconvertible(ITEM_KEYS[2], c) && !Unconvertible(ITEM_KEYS[3], c) && !Unconvertible(ITEM_KEYS[4], c)
    ensures BlockHolds(ItemRow(item), ITEM_KEYS[2], c) <==>
      ("category_id" in c ==> item.categoryId.Some? && ParseInt(c["category_id"]) == item.categoryId)
    ensures BlockHolds(ItemRow(item), ITEM_KEYS[3], c) <==>
      ("stock_min" in c ==> ParseInt(c["stock_min"]).Some? && ParseInt(c["stock_min"]).value <= item.stockQuantity)
    ensures BlockHolds(ItemRow(item), ITEM_KEYS[4], c) <==>
      ("stock_max" in c ==> ParseInt(c["stock_max"]).Some? && item.stockQuantity <= ParseInt(c["stock_max"]).value)
  {
    CategoryBlock(item, c);
    StockMinBlock(item, c);
    StockMaxBlock(item, c);
  }

  lemma CategoryBlock(item: Item, c: map<string, string>)
    requires !Unconvertible(ITEM_KEYS[2], c)
    ensures BlockHolds(ItemRow(item), ITEM_KEYS[2], c) <==>
      ("category_id" in c ==> item.categoryId.Some? && ParseInt(c["category_id"]) == item.categoryId)
  {
  }

  lemma StockMinBlock(item: Item, c: map<string, string>)
    requires !Unconvertible(ITEM_KEYS[3], c)
    ensures BlockHolds(ItemRow(item), ITEM_KEYS[3], c) <==>
      ("stock_min" in c ==> ParseInt(c["stock_min"]).Some? && ParseInt(c["stock_min"]).value <= item.stockQuantity)
  {
    assert ITEM_KEYS[3] == KeySpec("stock_min", "stock_quantity", AtLeast, Parsed);
  }

  lemma StockMaxBlock(item: Item, c: map<string, string>)
    requires !Unconvertible(ITEM_KEYS[4], c)
    ensures BlockHolds(ItemRow(item), ITEM_KEYS[4], c) <==>
      ("stock_max" in c ==> ParseInt(c["stock_max"]).Some? && item.stockQuantity <= ParseInt(c["stock_max"]).value)
  {
    assert ITEM_KEYS[4] == KeySpec("stock_max", "stock_quantity", AtMost, Parsed);
  }

  /** `searchItems`: the query is built first, so a value that does not parse fails before
      the database is reached; otherwise every item that matches the criteria, each once.
      Null criteria select every item. */
  method SearchItems(db: Database, criteria: Option<map<string, string>>) returns (r: Outcome<seq<Item>>)
    requires db.Valid()
    ensures r.Raised? <==> Build(ITEM_BASE, ITEM_KEYS, criteria).Err?
    ensures r.Raised? ==> r.failure == Build(ITEM_BASE, ITEM_KEYS, criteria).error
    ensures r.Done? ==> forall x :: x in r.value ==> exists id :: id in db.items && db.items[id] == x && Wanted(x, criteria)
    ensures r.Done? ==> forall id :: id in db.items && Wanted(db.items[id], criteria) ==> db.items[id] in r.value
    ensures r.Done? ==> |r.value| == |set id | id in db.items && Wanted(db.items[id], criteria)|
  {
    var q := BuildItemQuery(criteria);
    if q.Err? {
      return Raised(q.error);
    }
    var c := if criteria.Some? then criteria.value else map[];
    var rows := Select(db.items, ItemRow, Conditions(ITEM_KEYS, c));
    SearchSelects(db.items, criteria, c, rows);
    return Done(rows);
  }

  /** An item the search asks for. */
  predicate Wanted(item: Item, criteria: Option<map<string, string>>)
  {
    criteria.None? || ItemMatches(item, criteria.value)
  }

  /** The rows the conditions select are the items the criteria ask for. */
  lemma SearchSelects(items: map<int, Item>, criteria: Option<map<string, string>>, c: map<string, string>, rows: seq<Item>)
    requires Build(ITEM_BASE, ITEM_KEYS, criteria).Ok?
    requires c == if criteria.Some? then criteria.value else map[]
    requires forall x :: x in rows <==> exists id :: id in MatchingIds(items, ItemRow, Conditions(ITEM_KEYS, c)) && items[id] == x
    ensures MatchingIds(items, ItemRow, Conditions(ITEM_KEYS, c)) == set id | id in items && Wanted(items[id], criteria)
    ensures forall x :: x in rows ==> exists id :: id in items && items[id] == x && Wanted(x, criteria)
    ensures forall id :: id in items && Wanted(items[id], criteria) ==> items[id] in rows
  {
    var cs := Conditions(ITEM_KEYS, c);
    forall id | id in items ensures Holds(ItemRow(items[id]), cs) <==> Wanted(items[id], criteria) {
      SearchMeaning(criteria, c, items[id]);
    }
    Selected(items, ItemRow, cs, x => Wanted(x, criteria), rows);
  }

  lemma SearchMeaning(criteria: Option<map<string, string>>, c: map<string, string>, x: Item)
    requires Build(ITEM_BASE, ITEM_KEYS, criteria).Ok?
    requires c == if criteria.Some? then criteria.value else map[]
    ensures Holds(ItemRow(x), Conditions(ITEM_KEYS, c)) <==> Wanted(x, criteria)
  {
    if criteria.Some? {
      BuildOk(ITEM_BASE, ITEM_KEYS, criteria);
      ItemQueryMeaning(c);
    } else {
      NoKeys(ITEM_KEYS);
    }
  }

  // ---------------------------------------------------------------------------
  // Stock-range counts

  const LOW_STOCK := "0_50"
  const MID_STOCK := "50_100"
  const HIGH_STOCK := "100_plus"

  /** `BETWEEN 0 AND 50`, `BETWEEN 51 AND 100`, `> 100`. */
  predicate InLow(stock: int) { 0 <= stock <= 50 }
  predicate InMid(stock: int) { 51 <= stock <= 100 }
  predicate InHigh(stock: int) { stock > 100 }

  function CountLow(items: map<int, Item>): nat { |set id | id in items && InLow(items[id].stockQuantity)| }
  function CountMid(items: map<int, Item>): nat { |set id | id in items && InMid(items[id].stockQuantity)| }
  function CountHigh(items: map<int, Item>): nat { |set id | id in items && InHigh(items[id].stockQuantity)| }

  /** `getStockRangeCounts`: the three counts of one query, under their three keys. */
  function StockRangeCounts(items: map<int, Item>): (counts: map<string, nat>)
    ensures counts.Keys == {LOW_STOCK, MID_STOCK, HIGH_STOCK}
    ensures counts[LOW_STOCK] == CountLow(items) && counts[MID_STOCK] == CountMid(items)
    ensures counts[HIGH_STOCK] == CountHigh(items)
  {
    map[LOW_STOCK := CountLow(items), MID_STOCK := CountMid(items), HIGH_STOCK := CountHigh(items)]
  }

  /** Every non-negative stock lies in exactly one range and a negative stock in none. */
  lemma RangesPartition(stock: int)
    ensures (if InLow(stock) then 1 else 0) + (if InMid(stock) then 1 else 0) + (if InHigh(stock) then 1 else 0)
            == if stock >= 0 then 1 else 0
  {
  }

  /** The three counts add up to the number of items whose stock is not negative, so each
      such item is counted once and an item with negative stock is not counted. */
  lemma CountsAddUp(items: map<int, Item>)
    ensures var counts := StockRangeCounts(items);
      counts[LOW_STOCK] + counts[MID_STOCK] + counts[HIGH_STOCK] ==
        |set id | id in items && items[id].stockQuantity >= 0|
  {
    var low := set id | id in items && InLow(items[id].stockQuantity);
    var mid := set id | id in items && InMid(items[id].stockQuantity);
    var high := set id | id in items && InHigh(items[id].stockQuantity);
    var all := set id | id in items && items[id].stockQuantity >= 0;
    assert low !! mid && (low + mid) !! high;
    assert all == low + mid + high;
  }
}
