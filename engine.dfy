/**
 * The in-memory table catalogue of engine/schema_manager.go, with the
 * table and column records of engine/table.go and engine/column.go.
 */
module Engine {
  import opened Outcomes

  /** The column types; the Go declaration of DataType is not part of this model. */
  datatype DataType = Int | Varchar

  datatype Column = Column(name: string, dataType: DataType)

  datatype Table = Table(name: string, columns: seq<Column>)

  const TableNotFound: string := "table not found"

  /** SchemaManager: table name to table, updated in place by AddTable. */
  class SchemaManager {
    var tables: map<string, Table>

    /** NewSchemaManager: no tables. */
    constructor ()
      ensures tables == map[]
    {
      tables := map[];
    }

    /** AddTable: binds `name` to `table`, replacing an earlier binding; no other name changes. */
    method AddTable(name: string, table: Table)
      modifies this
      ensures tables == old(tables)[name := table]
      ensures GetTable(name) == Ok(table)
      ensures forall n :: n != name ==> GetTable(n) == old(GetTable(n))
    {
      tables := tables[name := table];
    }

    /** GetTable: the table bound to `name`, or an error exactly when there is none. */
    function GetTable(name: string): (r: Outcome<Table>)
      reads this
      ensures r.Ok? <==> name in tables
      ensures r.Ok? ==> r.value == tables[name]
      ensures !r.Ok? ==> r == Err(TableNotFound)
    {
      if name in tables then Ok(tables[name]) else Err(TableNotFound)
    }

    /** IsTableExists: true exactly when GetTable succeeds. */
    function IsTableExists(name: string): (b: bool)
      reads this
      ensures b <==> GetTable(name).Ok?
    {
      name in tables
    }
  }

  /** A new catalogue knows no table, and an added one is found by its name only. */
  method CatalogueExample() returns (found: bool, missing: bool)
    ensures found && !missing
  {
    var sm := new SchemaManager();
    sm.AddTable("users", Table("users", [Column("id", Int), Column("name", Varchar)]));
    found := sm.IsTableExists("users");
    missing := sm.IsTableExists("orders");
  }
}
