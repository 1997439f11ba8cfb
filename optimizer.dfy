/** The wildcard expansion of parser/query_optimizer.go. */
module QueryOptimizer {
  import opened Outcomes
  import opened Tokens
  import opened Ast
  import opened Engine

  /** The names of a table's columns, in declared order. */
  function ColumnNames(columns: seq<Column>): (names: seq<string>)
    ensures |names| == |columns|
    ensures forall i :: 0 <= i < |columns| ==> names[i] == columns[i].name
  {
    if |columns| == 0 then [] else [columns[0].name] + ColumnNames(columns[1..])
  }

  /**
   * What Optimize leaves in the statement, given what GetTable returned
   * for its table: the lookup's error, a panic on an empty column list,
   * the table's column names when the first column is "*", else the
   * statement as it was.
   */
  function Optimized(stmt: SelectStatement, lookup: Outcome<Table>): (r: Outcome<SelectStatement>)
    ensures !lookup.Ok? ==> r == lookup.PropagateFailure()
    ensures lookup.Ok? ==> (r.Panic? <==> |stmt.columns| == 0)
    ensures r.Ok? ==> r.value.table == stmt.table && r.value.whereClause == stmt.whereClause
    ensures r.Ok? && stmt.columns[0] == WILDCARD ==>
      |r.value.columns| == |lookup.value.columns|
      && forall i :: 0 <= i < |lookup.value.columns| ==> r.value.columns[i] == lookup.value.columns[i].name
    ensures r.Ok? && stmt.columns[0] != WILDCARD ==> r.value == stmt
  {
    match lookup
    case Ok(table) =>
      if |stmt.columns| == 0 then Panic(IndexOutOfRange)
      else if stmt.columns[0] == WILDCARD then Ok(stmt.(columns := ColumnNames(table.columns)))
      else Ok(stmt)
    case _ => lookup.PropagateFailure()
  }

  /** SelectQueryOptimizer over the catalogue it was given. */
  class SelectQueryOptimizer {
    const schema: SchemaManager

    constructor (schema: SchemaManager)
      ensures this.schema == schema
    {
      this.schema := schema;
    }

    /**
     * Optimize: the statement with "*" expanded, rebuilt column by column;
     * the catalogue is only read.
     */
    method Optimize(stmt: SelectStatement) returns (r: Outcome<SelectStatement>)
      ensures r == Optimized(stmt, schema.GetTable(stmt.table))
    {
      var lookup := schema.GetTable(stmt.table);
      if !lookup.Ok? {
        return lookup.PropagateFailure();
      }
      var table := lookup.value;
      if |stmt.columns| == 0 {
        return Panic(IndexOutOfRange);
      }
      var columns := stmt.columns;
      if columns[0] == WILDCARD {
        columns := [];
        var i := 0;
        while i < |table.columns|
          invariant 0 <= i <= |table.columns|
          invariant |columns| == i
          invariant forall k :: 0 <= k < i ==> columns[k] == table.columns[k].name
        {
          columns := columns + [table.columns[i].name];
          i := i + 1;
        }
        assert columns == ColumnNames(table.columns);
      }
      return Ok(stmt.(columns := columns));
    }
  }

  /**
   * A second pass changes nothing when the table has a column and the
   * first is not itself called "*".
   */
  lemma OptimizeIdempotent(stmt: SelectStatement, table: Table)
    requires Optimized(stmt, Ok(table)).Ok?
    requires |table.columns| > 0 && table.columns[0].name != WILDCARD
    ensures Optimized(Optimized(stmt, Ok(table)).value, Ok(table)) == Optimized(stmt, Ok(table))
  {
  }

  /** With a table of no columns, "*" expands to nothing and the next pass panics. */
  lemma ZeroColumnsSecondPassPanics(stmt: SelectStatement, name: string)
    requires |stmt.columns| > 0 && stmt.columns[0] == WILDCARD
    ensures Optimized(stmt, Ok(Table(name, []))) == Ok(stmt.(columns := []))
    ensures Optimized(stmt.(columns := []), Ok(Table(name, []))) == Panic(IndexOutOfRange)
  {
  }

  /** The optimiser's own test: `*` over `users (id, name)` becomes `id, name`. */
  method OptimizeUsersExample() returns (r: Outcome<SelectStatement>)
    ensures r == Ok(SelectStatement(["id", "name"], "users", None))
  {
    var schema := new SchemaManager();
    schema.AddTable("users", Table("users", [Column("id", Int), Column("name", Varchar)]));
    var optimizer := new SelectQueryOptimizer(schema);
    r := optimizer.Optimize(SelectStatement(["*"], "users", None));
    assert ColumnNames([Column("id", Int), Column("name", Varchar)]) == ["id", "name"];
  }
}
