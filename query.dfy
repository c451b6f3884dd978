/** The search-query builders of the inline-SQL DAOs. A builder starts from a fixed
    `SELECT … WHERE 1=1` and, for each criteria key it knows, in a fixed order, appends
    ` AND <column> <op> ?` and one parameter when the key is present. The database's reading
    of the finished query is the list of conditions the text is rendered from. */
module Query {
  import opened Common

  /** A bound parameter or the value of a column in a row. */
  datatype SqlValue = Null | Text(s: string) | Number(n: int)

  datatype Op = Like | Equals | AtLeast | AtMost

  /** How a criteria value becomes a parameter: wrapped as `%v%` for `LIKE`, passed as it is,
      or through `Integer.parseInt`. */
  datatype Conversion = Wrapped | Verbatim | Parsed

  /** One `if (criteria.containsKey(key))` block of a builder. */
  datatype KeySpec = KeySpec(key: string, column: string, op: Op, conversion: Conversion)

  /** One condition of the `WHERE` clause with its parameter. */
  datatype Clause = Clause(column: string, op: Op, param: SqlValue)

  /** The query text and the parameters bound to its placeholders, in order. */
  datatype SqlQuery = SqlQuery(sql: string, params: seq<SqlValue>)

  /** A row as the database sees it: column name to value. */
  type Row = map<string, SqlValue>

  /** A nullable string column. */
  function TextOrNull(s: Option<string>): SqlValue
  {
    if s.Some? then Text(s.value) else Null
  }

  /** A nullable integer column. */
  function NumberOrNull(n: Option<int>): SqlValue
  {
    if n.Some? then Number(n.value) else Null
  }

  function OpText(op: Op): string
  {
    match op
    case Like => " LIKE"
    case Equals => " ="
    case AtLeast => " >="
    case AtMost => " <="
  }

  /** The text one block appends: ` AND <column> <op> ?`. */
  function ClauseText(column: string, op: Op): string
  {
    " AND " + column + OpText(op) + " ?"
  }

  function Convert(conversion: Conversion, v: string): (r: Result<SqlValue, Failure>)
    ensures r.Err? <==> conversion == Parsed && ParseInt(v).None?
    ensures r.Err? ==> r.error == NumberFormat(v)
    ensures r.Ok? ==> !r.value.Null?
  {
    match conversion
    case Wrapped => Ok(Text("%" + v + "%"))
    case Verbatim => Ok(Text(v))
    case Parsed => if ParseInt(v).Some? then Ok(Number(ParseInt(v).value)) else Err(NumberFormat(v))
  }

  /** One block of the builder applied to the query built so far. */
  function Step(acc: Result<SqlQuery, Failure>, spec: KeySpec, criteria: map<string, string>)
    : Result<SqlQuery, Failure>
  {
    match acc
    case Err(f) => Err(f)
    case Ok(q) =>
      if spec.key !in criteria then Ok(q)
      else match Convert(spec.conversion, criteria[spec.key])
        case Err(f) => Err(f)
        case Ok(p) => Ok(SqlQuery(q.sql + ClauseText(spec.column, spec.op), q.params + [p]))
  }

  /** The blocks in their order. */
  function Fold(acc: Result<SqlQuery, Failure>, specs: seq<KeySpec>, criteria: map<string, string>)
    : Result<SqlQuery, Failure>
    decreases |specs|
  {
    if specs == [] then acc else Fold(Step(acc, specs[0], criteria), specs[1..], criteria)
  }

  lemma FoldFirst(acc: Result<SqlQuery, Failure>, specs: seq<KeySpec>, criteria: map<string, string>)
    requires specs != []
    ensures Fold(acc, specs, criteria) == Fold(Step(acc, specs[0], criteria), specs[1..], criteria)
  {
  }

  /** One block as the builders write it: `if (criteria.containsKey(key))`, append `text`
      to the query and the converted value to the parameters; `Integer.parseInt` may throw,
      and once it has thrown the later blocks do not run. */
  method AppendBlock(acc: Result<SqlQuery, Failure>, spec: KeySpec, criteria: map<string, string>)
    returns (r: Result<SqlQuery, Failure>)
    ensures r == Step(acc, spec, criteria)
  {
    if acc.Err? {
      return acc;
    }
    var sql, params := acc.value.sql, acc.value.params;
    if spec.key in criteria {
      var v := criteria[spec.key];
      var text := " AND " + spec.column + OpText(spec.op) + " ?";
      sql := sql + text;
      match spec.conversion
      case Wrapped =>
        params := params + [Text("%" + v + "%")];
      case Verbatim =>
        params := params + [Text(v)];
      case Parsed =>
        var n := ParseInt(v);
        if n.None? {
          return Err(NumberFormat(v));
        }
        params := params + [Number(n.value)];
    }
    return Ok(SqlQuery(sql, params));
  }

  /** A builder: the base text alone for null criteria, otherwise every block in order. */
  function Build(base: string, specs: seq<KeySpec>, criteria: Option<map<string, string>>)
    : Result<SqlQuery, Failure>
  {
    if criteria.None? then Ok(SqlQuery(base, []))
    else Fold(Ok(SqlQuery(base, [])), specs, criteria.value)
  }

  // ---------------------------------------------------------------------------
  // The conditions a query states

  /** The conditions of the present keys, in block order (meaningful when every present
      value converts). */
  function Conditions(specs: seq<KeySpec>, criteria: map<string, string>): (cs: seq<Clause>)
    ensures |cs| <= |specs|
  {
    if specs == [] then []
    else
      var s := specs[0];
      var rest := Conditions(specs[1..], criteria);
      if s.key !in criteria then rest
      else match Convert(s.conversion, criteria[s.key])
        case Err(_) => rest
        case Ok(p) => [Clause(s.column, s.op, p)] + rest
  }

  function WhereText(cs: seq<Clause>): string
  {
    if cs == [] then "" else ClauseText(cs[0].column, cs[0].op) + WhereText(cs[1..])
  }

  function Params(cs: seq<Clause>): (ps: seq<SqlValue>)
    ensures |ps| == |cs|
    ensures forall i :: 0 <= i < |cs| ==> ps[i] == cs[i].param
  {
    if cs == [] then [] else [cs[0].param] + Params(cs[1..])
  }

  /** The key is present and its value does not convert. */
  predicate Unconvertible(spec: KeySpec, criteria: map<string, string>)
  {
    spec.key in criteria && Convert(spec.conversion, criteria[spec.key]).Err?
  }

  /** The first present key whose value does not convert, in block order. */
  function FirstUnconvertible(specs: seq<KeySpec>, criteria: map<string, string>): (r: Option<nat>)
    ensures r.None? <==> forall i :: 0 <= i < |specs| ==> !Unconvertible(specs[i], criteria)
    ensures r.Some? ==> r.value < |specs| && Unconvertible(specs[r.value], criteria)
    ensures r.Some? ==> forall i :: 0 <= i < r.value ==> !Unconvertible(specs[i], criteria)
  {
    if specs == [] then None
    else if Unconvertible(specs[0], criteria) then Some(0)
    else match FirstUnconvertible(specs[1..], criteria)
      case None => None
      case Some(k) => Some(k + 1)
  }

  /** Running the blocks when every present value converts: the text grows by one
      ` AND <column> <op> ?` per condition and the parameters by that condition's value,
      both in block order. */
  lemma {:induction false} FoldRenders(sql: string, params: seq<SqlValue>, specs: seq<KeySpec>, criteria: map<string, string>)
    requires FirstUnconvertible(specs, criteria).None?
    decreases |specs|
    ensures var cs := Conditions(specs, criteria);
      Fold(Ok(SqlQuery(sql, params)), specs, criteria) == Ok(SqlQuery(sql + WhereText(cs), params + Params(cs)))
  {
    if specs == [] {
      assert sql + WhereText([]) == sql && params + Params([]) == params;
    } else {
      var s := specs[0];
      ShiftFirst(specs, criteria);
      if s.key !in criteria {
        FoldRenders(sql, params, specs[1..], criteria);
      } else {
        var p := Convert(s.conversion, criteria[s.key]).value;
        FoldRenders(sql + ClauseText(s.column, s.op), params + [p], specs[1..], criteria);
        RenderFirst(sql, params, Clause(s.column, s.op, p), Conditions(specs[1..], criteria));
      }
    }
  }

  lemma RenderFirst(sql: string, params: seq<SqlValue>, c: Clause, rest: seq<Clause>)
    ensures var cs := [c] + rest;
      && sql + ClauseText(c.column, c.op) + WhereText(rest) == sql + WhereText(cs)
      && params + [c.param] + Params(rest) == params + Params(cs)
  {
    var cs := [c] + rest;
    assert cs[1..] == rest;
  }

  /** Running the blocks when some present value does not convert: the first such value
      in block order is the one `Integer.parseInt` rejects. */
  lemma {:induction false} FoldFails(acc: Result<SqlQuery, Failure>, specs: seq<KeySpec>, criteria: map<string, string>)
    requires acc.Ok? && FirstUnconvertible(specs, criteria).Some?
    decreases |specs|
    ensures Fold(acc, specs, criteria) ==
      Err(NumberFormat(criteria[specs[FirstUnconvertible(specs, criteria).value].key]))
  {
    var s := specs[0];
    if Unconvertible(s, criteria) {
      FoldErr(NumberFormat(criteria[s.key]), specs[1..], criteria);
    } else {
      ShiftFirst(specs, criteria);
      FoldFails(Step(acc, s, criteria), specs[1..], criteria);
    }
  }

  lemma ShiftFirst(specs: seq<KeySpec>, criteria: map<string, string>)
    requires specs != [] && !Unconvertible(specs[0], criteria)
    ensures FirstUnconvertible(specs, criteria) ==
      match FirstUnconvertible(specs[1..], criteria)
      case None => None
      case Some(k) => Some(k + 1)
  {
  }

  lemma {:induction false} FoldErr(f: Failure, specs: seq<KeySpec>, criteria: map<string, string>)
    ensures Fold(Err(f), specs, criteria) == Err(f)
  {
    if specs != [] {
      FoldErr(f, specs[1..], criteria);
    }
  }

  /** Null criteria and empty criteria both leave the base query alone. */
  lemma {:induction false} NoCriteria(specs: seq<KeySpec>, base: string)
    ensures Build(base, specs, None) == Ok(SqlQuery(base, []))
    ensures Build(base, specs, Some(map[])) == Ok(SqlQuery(base, []))
  {
    NoKeys(specs);
    FoldRenders(base, [], specs, map[]);
    assert base + WhereText([]) == base && [] + Params([]) == [];
  }

  lemma {:induction false} NoKeys(specs: seq<KeySpec>)
    ensures Conditions(specs, map[]) == []
    ensures FirstUnconvertible(specs, map[]).None?
  {
    if specs != [] {
      NoKeys(specs[1..]);
    }
  }

  // ---------------------------------------------------------------------------
  // Placeholders

  function Occurrences(s: string, c: char): nat
  {
    if s == [] then 0 else (if s[0] == c then 1 else 0) + Occurrences(s[1..], c)
  }

  lemma {:induction false} OccurrencesConcat(a: string, b: string, c: char)
    ensures Occurrences(a + b, c) == Occurrences(a, c) + Occurrences(b, c)
  {
    if a == [] {
      assert a + b == b;
    } else {
      assert (a + b)[0] == a[0];
      assert (a + b)[1..] == a[1..] + b;
      OccurrencesConcat(a[1..], b, c);
    }
  }

  lemma {:induction false} OccurrencesAbsent(s: string, c: char)
    requires c !in s
    ensures Occurrences(s, c) == 0
  {
    if s != [] {
      OccurrencesAbsent(s[1..], c);
    }
  }

  /** A fixed text without a placeholder (stated for short literals, one at a time). */
  lemma NoMark(s: string)
    requires forall i :: 0 <= i < |s| ==> s[i] != '?'
    ensures '?' !in s
  {
  }

  predicate NoPlaceholderIn(cs: seq<Clause>)
  {
    forall i :: 0 <= i < |cs| ==> '?' !in cs[i].column
  }

  /** Each condition's text holds exactly one placeholder. */
  lemma {:induction false} TextPlaceholders(cs: seq<Clause>)
    requires NoPlaceholderIn(cs)
    ensures Occurrences(WhereText(cs), '?') == |cs|
  {
    if cs != [] {
      var c := cs[0];
      TextPlaceholders(cs[1..]);
      var words := " AND " + c.column + OpText(c.op);
      assert '?' !in OpText(c.op);
      OccurrencesAbsent(words, '?');
      assert Occurrences(" ?", '?') == 1 by {
        assert " ?"[1..] == "?" && "?"[1..] == "";
      }
      OccurrencesConcat(words, " ?", '?');
      OccurrencesConcat(ClauseText(c.column, c.op), WhereText(cs[1..]), '?');
    }
  }

  lemma {:induction false} ConditionColumns(specs: seq<KeySpec>, criteria: map<string, string>)
    requires forall i :: 0 <= i < |specs| ==> '?' !in specs[i].column
    ensures NoPlaceholderIn(Conditions(specs, criteria))
  {
    if specs != [] {
      ConditionColumns(specs[1..], criteria);
    }
  }

  /** A built query has exactly as many placeholders as parameters, when neither the base
      text nor any column name holds a `?`. */
  /** A builder fails exactly when some present value does not convert. */
  lemma BuildOk(base: string, specs: seq<KeySpec>, criteria: Option<map<string, string>>)
    ensures Build(base, specs, criteria).Ok? <==> criteria.None? || FirstUnconvertible(specs, criteria.value).None?
  {
    if criteria.Some? {
      if FirstUnconvertible(specs, criteria.value).Some? {
        FoldFails(Ok(SqlQuery(base, [])), specs, criteria.value);
      } else {
        FoldRenders(base, [], specs, criteria.value);
      }
    }
  }

  lemma Placeholders(base: string, specs: seq<KeySpec>, criteria: Option<map<string, string>>)
    requires '?' !in base
    requires forall i :: 0 <= i < |specs| ==> '?' !in specs[i].column
    requires Build(base, specs, criteria).Ok?
    ensures Occurrences(Build(base, specs, criteria).value.sql, '?') == |Build(base, specs, criteria).value.params|
  {
    OccurrencesAbsent(base, '?');
    BuildOk(base, specs, criteria);
    if criteria.Some? {
      var c := criteria.value;
      FoldRenders(base, [], specs, c);
      var cs := Conditions(specs, c);
      ConditionColumns(specs, c);
      TextPlaceholders(cs);
      OccurrencesConcat(base, WhereText(cs), '?');
    }
  }

  // ---------------------------------------------------------------------------
  // What the conditions select

  /** `s LIKE pattern`, for the patterns the builders make: `%v%` is containment of `v`; a
      pattern without the surrounding wildcards must match exactly. */
  predicate LikeHolds(s: string, pattern: string)
  {
    if 2 <= |pattern| && pattern[0] == '%' && pattern[|pattern| - 1] == '%' then Contains(s, pattern[1..|pattern| - 1])
    else s == pattern
  }

  lemma LikeWrapped(s: string, v: string)
    ensures LikeHolds(s, "%" + v + "%") <==> Contains(s, v)
  {
    var p := "%" + v + "%";
    assert p[1..|p| - 1] == v;
  }

  /** One comparison on a column value; a `NULL` column satisfies none. */
  predicate CellHolds(cell: SqlValue, op: Op, param: SqlValue)
  {
    match (cell, op, param)
    case (Text(s), Like, Text(p)) => LikeHolds(s, p)
    case (Text(s), Equals, Text(p)) => s == p
    case (Number(n), Equals, Number(m)) => n == m
    case (Number(n), AtLeast, Number(m)) => n >= m
    case (Number(n), AtMost, Number(m)) => n <= m
    case _ => false
  }

  predicate ClauseHolds(row: Row, c: Clause)
  {
    c.column in row && CellHolds(row[c.column], c.op, c.param)
  }

  predicate Holds(row: Row, cs: seq<Clause>)
  {
    forall i :: 0 <= i < |cs| ==> ClauseHolds(row, cs[i])
  }

  /** The condition block `i` states, for a key that is present and converts. */
  function BlockClause(spec: KeySpec, v: string): Clause
    requires Convert(spec.conversion, v).Ok?
  {
    Clause(spec.column, spec.op, Convert(spec.conversion, v).value)
  }

  /** The row satisfies block `spec`: its key is absent, or the condition it states holds. */
  predicate BlockHolds(row: Row, spec: KeySpec, criteria: map<string, string>)
    requires !Unconvertible(spec, criteria)
  {
    spec.key in criteria ==> ClauseHolds(row, BlockClause(spec, criteria[spec.key]))
  }

  /** A text criterion matched with `LIKE '%v%'`: the column is not `NULL` and contains the
      value. */
  predicate TextLike(v: Option<string>, criteria: map<string, string>, key: string)
  {
    key in criteria ==> v.Some? && Contains(v.value, criteria[key])
  }

  /** A text criterion matched with `=`: the column is not `NULL` and equals the value. */
  predicate TextIs(v: Option<string>, criteria: map<string, string>, key: string)
  {
    key in criteria ==> v == Some(criteria[key])
  }

  /** What a resource's `if (v != null && !v.isEmpty()) criteria.put(key, v)` leaves in the
      criteria: the key exactly when the parameter is a non-empty string, with that string. */
  predicate Collected(criteria: map<string, string>, key: string, param: Option<string>)
  {
    (key in criteria <==> NonEmpty(param)) && (key in criteria ==> criteria[key] == param.value)
  }

  /** `if (v != null && !v.isEmpty()) criteria.put(key, v)` for a key not yet present,
      leaving every other key alone. */
  method PutIfNonEmpty(criteria: map<string, string>, key: string, param: Option<string>)
    returns (r: map<string, string>)
    requires key !in criteria
    ensures Collected(r, key, param)
    ensures forall k :: k != key ==> (k in r <==> k in criteria)
    ensures forall k :: k != key && k in criteria ==> r[k] == criteria[k]
    ensures r.Keys <= criteria.Keys + {key}
  {
    r := criteria;
    if NonEmpty(param) {
      r := r[key := param.value];
    }
  }

  /** A `LIKE` block over a nullable text column states `TextLike` of that column. */
  lemma LikeBlock(row: Row, spec: KeySpec, criteria: map<string, string>, v: Option<string>)
    requires spec.op == Like && spec.conversion == Wrapped
    requires spec.column in row && row[spec.column] == TextOrNull(v)
    ensures BlockHolds(row, spec, criteria) <==> TextLike(v, criteria, spec.key)
  {
    if spec.key in criteria {
      LikeWrapped(if v.Some? then v.value else "", criteria[spec.key]);
    }
  }

  /** An `=` block over a nullable text column states `TextIs` of that column. */
  lemma EqualsBlock(row: Row, spec: KeySpec, criteria: map<string, string>, v: Option<string>)
    requires spec.op == Equals && spec.conversion == Verbatim
    requires spec.column in row && row[spec.column] == TextOrNull(v)
    ensures BlockHolds(row, spec, criteria) <==> TextIs(v, criteria, spec.key)
  {
  }

  /** Without a numeric key nothing can fail to convert. */
  lemma NothingParsed(specs: seq<KeySpec>, criteria: map<string, string>)
    requires forall i :: 0 <= i < |specs| ==> specs[i].conversion != Parsed
    ensures FirstUnconvertible(specs, criteria).None?
  {
  }

  /** A row satisfies the conditions exactly when it satisfies the block of every present
      key. */
  lemma {:induction false} HoldsBlocks(row: Row, specs: seq<KeySpec>, criteria: map<string, string>)
    requires FirstUnconvertible(specs, criteria).None?
    ensures Holds(row, Conditions(specs, criteria)) <==>
      forall i :: 0 <= i < |specs| ==> BlockHolds(row, specs[i], criteria)
  {
    if specs != [] {
      ShiftFirst(specs, criteria);
      HoldsBlocks(row, specs[1..], criteria);
      var s := specs[0];
      var rest := Conditions(specs[1..], criteria);
      if s.key in criteria {
        var cs := [BlockClause(s, criteria[s.key])] + rest;
        assert cs[1..] == rest;
        assert Holds(row, cs) <==> ClauseHolds(row, cs[0]) && Holds(row, rest) by {
          if ClauseHolds(row, cs[0]) && Holds(row, rest) {
            forall i | 0 <= i < |cs| ensures ClauseHolds(row, cs[i]) {
              if i > 0 { assert cs[i] == rest[i - 1]; }
            }
          }
        }
      }
      assert forall i :: 1 <= i < |specs| ==> specs[i] == specs[1..][i - 1];
    }
  }

  // ---------------------------------------------------------------------------
  // Running a query

  /** The ids among `ids` of the rows that satisfy the conditions. */
  function Matching<T>(table: map<int, T>, toRow: T -> Row, cs: seq<Clause>, ids: set<int>): set<int>
  {
    set id | id in ids && id in table && Holds(toRow(table[id]), cs)
  }

  function MatchingIds<T>(table: map<int, T>, toRow: T -> Row, cs: seq<Clause>): set<int>
  {
    Matching(table, toRow, cs, table.Keys)
  }

  /** `while (rs.next()) list.add(…)`: every row of the table that satisfies the conditions,
      once each, in an order the database chooses. */
  method Select<T(!new)>(table: map<int, T>, toRow: T -> Row, cs: seq<Clause>) returns (rows: seq<T>)
    ensures |rows| == |MatchingIds(table, toRow, cs)|
    ensures forall x :: x in rows <==> exists id :: id in MatchingIds(table, toRow, cs) && table[id] == x
  {
    var todo := table.Keys;
    ghost var done: set<int> := {};
    ghost var found: set<int> := {};
    rows := [];
    while todo != {}
      invariant todo <= table.Keys && done == table.Keys - todo
      invariant found == Matching(table, toRow, cs, done) && found <= done
      invariant |rows| == |found|
      invariant RecordsOf(table, found, rows)
      decreases |todo|
    {
      HasElement(todo);
      var k :| k in todo;
      SelectStep(table, toRow, cs, done, k);
      if Holds(toRow(table[k]), cs) {
        RowsAppend(table, found, rows, k);
        rows := rows + [table[k]];
        found := found + {k};
      }
      todo := todo - {k};
      done := done + {k};
    }
    assert done == table.Keys;
  }

  /** `rows` holds exactly the records of the ids in `found`. */
  ghost predicate RecordsOf<T(!new)>(table: map<int, T>, found: set<int>, rows: seq<T>)
    requires found <= table.Keys
  {
    forall x :: x in rows <==> exists id :: id in found && table[id] == x
  }

  /** Appending the record of a newly matched id keeps the selected records exactly the
      records of the matched ids. */
  lemma RowsAppend<T(!new)>(table: map<int, T>, found: set<int>, rows: seq<T>, k: int)
    requires found <= table.Keys && k in table
    requires RecordsOf(table, found, rows)
    ensures RecordsOf(table, found + {k}, rows + [table[k]])
  {
    forall x ensures x in rows + [table[k]] <==> exists id :: id in found + {k} && table[id] == x {
      if x == table[k] {
        assert k in found + {k};
      }
      if x in rows {
        var id :| id in found && table[id] == x;
        assert id in found + {k};
      }
    }
  }

  /** When the conditions hold of a row exactly when `wanted` holds of its record, the
      selected records are the wanted ones. */
  lemma Selected<T>(table: map<int, T>, toRow: T -> Row, cs: seq<Clause>, wanted: T -> bool, rows: seq<T>)
    requires forall id :: id in table ==> (Holds(toRow(table[id]), cs) <==> wanted(table[id]))
    requires forall x :: x in rows <==> exists id :: id in MatchingIds(table, toRow, cs) && table[id] == x
    ensures MatchingIds(table, toRow, cs) == set id | id in table && wanted(table[id])
    ensures forall x :: x in rows ==> exists id :: id in table && table[id] == x && wanted(x)
    ensures forall id :: id in table && wanted(table[id]) ==> table[id] in rows
  {
    forall id ensures id in MatchingIds(table, toRow, cs) <==> id in table && wanted(table[id]) {
      if id in table {
        assert id in table.Keys;
      }
    }
    assert MatchingIds(table, toRow, cs) == set id | id in table && wanted(table[id]);
    forall id | id in table && wanted(table[id]) ensures table[id] in rows {
      assert id in MatchingIds(table, toRow, cs);
    }
  }

  lemma HasElement(s: set<int>)
    requires s != {}
    ensures exists x :: x in s
  {
    if forall x :: x !in s {
      assert false;
    }
  }

  lemma SelectStep<T>(table: map<int, T>, toRow: T -> Row, cs: seq<Clause>, done: set<int>, k: int)
    requires k in table && k !in done
    ensures Matching(table, toRow, cs, done + {k}) ==
      if Holds(toRow(table[k]), cs) then Matching(table, toRow, cs, done) + {k} else Matching(table, toRow, cs, done)
  {
  }
}
