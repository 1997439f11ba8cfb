/** The semantic check of parser/semantic_analyzer.go. */
module SemanticAnalyzer {
  import opened Outcomes
  import opened Ast
  import opened Engine

  const TableNotInSchema: string := "table not found in schema "
  const ColumnNotInTable: string := "column not found in table "

  /** containsColumn: some column of the list has the name `col`. */
  function ContainsColumn(columns: seq<Column>, col: string): (b: bool)
    ensures b <==> exists i :: 0 <= i < |columns| && columns[i].name == col
  {
    if |columns| == 0 then false
    else if columns[0].name == col then true
    else
      var b := ContainsColumn(columns[1..], col);
      assert forall i :: 1 <= i < |columns| ==> columns[i] == columns[1..][i - 1];
      b
  }

  /** The loop of Analyze: the first name not among the columns, if any. */
  function FirstUnknown(columns: seq<Column>, names: seq<string>): (r: Option<nat>)
    ensures r.None? <==> forall k :: 0 <= k < |names| ==> ContainsColumn(columns, names[k])
    ensures r.Some? ==> r.value < |names| && !ContainsColumn(columns, names[r.value])
    ensures r.Some? ==> forall k :: 0 <= k < r.value ==> ContainsColumn(columns, names[k])
  {
    if |names| == 0 then None
    else if !ContainsColumn(columns, names[0]) then Some(0)
    else match FirstUnknown(columns, names[1..])
      case None => None
      case Some(k) => Some(k + 1)
  }

  /**
   * SelectStatement.Analyze: the table must be in the schema and every
   * selected name, "*" included, a column of it; the WHERE clause is not
   * looked at.
   */
  function Analyze(stmt: SelectStatement, schema: SchemaManager): (r: Outcome<()>)
    reads schema
    ensures !r.Panic?
    ensures stmt.table !in schema.tables ==> r == Err(TableNotInSchema)
    ensures stmt.table in schema.tables ==>
      (r.Ok? <==> forall k :: 0 <= k < |stmt.columns| ==>
                    exists i :: 0 <= i < |schema.tables[stmt.table].columns|
                                && schema.tables[stmt.table].columns[i].name == stmt.columns[k])
    ensures stmt.table in schema.tables && !r.Ok? ==> r == Err(ColumnNotInTable)
  {
    match schema.GetTable(stmt.table)
    case Ok(table) =>
      if FirstUnknown(table.columns, stmt.columns).None? then Ok(()) else Err(ColumnNotInTable)
    case _ => Err(TableNotInSchema)
  }

  /** Only the table and the column names matter: the WHERE clause never does. */
  lemma IgnoresWhere(stmt: SelectStatement, w: Option<WhereClause>, schema: SchemaManager)
    ensures Analyze(stmt.(whereClause := w), schema) == Analyze(stmt, schema)
  {
  }

  /** "*" is checked like any name: it passes only if the table has a column called "*". */
  lemma WildcardIsAName(table: string, schema: SchemaManager)
    requires table in schema.tables
    ensures Analyze(SelectStatement(["*"], table, None), schema).Ok?
      <==> ContainsColumn(schema.tables[table].columns, "*")
  {
    assert FirstUnknown(schema.tables[table].columns, ["*"]).None?
      <==> ContainsColumn(schema.tables[table].columns, ["*"][0]);
  }

  /** Selecting nothing from a known table passes. */
  lemma NoColumnsPass(table: string, schema: SchemaManager)
    requires table in schema.tables
    ensures Analyze(SelectStatement([], table, None), schema) == Ok(())
  {
  }

  /** The statement of the analyser's own test: `id, name` from a `users (id, name)` table. */
  method AnalyzeUsersExample() returns (r: Outcome<()>)
    ensures r == Ok(())
  {
    var schema := new SchemaManager();
    schema.AddTable("users", Table("users", [Column("id", Int), Column("name", Varchar)]));
    assert ContainsColumn(schema.tables["users"].columns, "name") by {
      assert schema.tables["users"].columns[1].name == "name";
    }
    r := Analyze(SelectStatement(["id", "name"], "users", None), schema);
  }
}
