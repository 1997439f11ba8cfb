/**
 * The token streams of parser/parser_test.go and a few edge cases, run
 * through the functions of `Grammar`.
 */
module GrammarExamples {
  import opened Outcomes
  import opened Tokens
  import opened Ast
  import opened Grammar

  function Kw(v: string): Token { Token(Keyword, v) }
  function Id(v: string): Token { Token(Identifier, v) }
  function Op(v: string): Token { Token(Operator, v) }
  function Lit(v: string): Token { Token(Literal, v) }
  function Sym(v: string): Token { Token(Symbol, v) }
  const Comma: Token := Token(Delimiter, ",")

  // `SELECT id FROM users`
  const SimpleSelect: seq<Token> := [Kw("SELECT"), Id("id"), Kw("FROM"), Id("users")]

  // `SELECT id, name, age FROM users`
  const MultiColumnSelect: seq<Token> :=
    [Kw("SELECT"), Id("id"), Comma, Id("name"), Comma, Id("age"), Kw("FROM"), Id("users")]

  // `SELECT id FROM users WHERE name = 'marty' AND age = 18`
  const ConjunctionSelect: seq<Token> :=
    [Kw("SELECT"), Id("id"), Kw("FROM"), Id("users"), Kw("WHERE"),
     Id("name"), Op("="), Lit("marty"), Op("AND"), Id("age"), Op("="), Lit("18")]

  // `INSERT INTO users (id, name, age) VALUES (1, 'marty', 18)`
  const SimpleInsert: seq<Token> :=
    [Kw("INSERT"), Kw("INTO"), Id("users"), Sym("("), Id("id"), Comma, Id("name"), Comma, Id("age"), Sym(")"),
     Kw("VALUES"), Sym("("), Lit("1"), Comma, Lit("marty"), Comma, Lit("18"), Sym(")")]

  // `UPDATE users SET name = 'marty' WHERE id = 1`
  const SimpleUpdate: seq<Token> :=
    [Kw("UPDATE"), Id("users"), Kw("SET"), Id("name"), Op("="), Lit("marty"),
     Kw("WHERE"), Id("id"), Op("="), Lit("1")]

  // `DELETE FROM users WHERE id = 1`
  const SimpleDelete: seq<Token> :=
    [Kw("DELETE"), Kw("FROM"), Id("users"), Kw("WHERE"), Id("id"), Op("="), Lit("1")]

  /** The plain SELECT validates and parses to its columns and table. */
  lemma SimpleSelectExample()
    ensures ValidateSpec(SimpleSelect) == Ok(true)
    ensures ParseSpec(SimpleSelect) == Ok(Some(Select(SelectStatement(["id"], "users", Some(EmptyClause)))))
  {
  }

  /** A trailing ";" is the one SYMBOL allowed at the end. */
  lemma SemicolonExample()
    ensures ValidateSpec([Kw("SELECT"), Id("id"), Kw("FROM"), Id("users"), Sym(";")]) == Ok(true)
    ensures ValidateSpec([Kw("SELECT"), Id("id"), Kw("FROM"), Id("users"), Sym(";"), Sym(";")]) == Ok(false)
  {
  }

  /** Columns are collected in order. */
  lemma MultiColumnExample()
    ensures ValidateSpec(MultiColumnSelect) == Ok(true)
    ensures SelectSpec(MultiColumnSelect) == Ok(SelectStatement(["id", "name", "age"], "users", Some(EmptyClause)))
  {
    var ts := MultiColumnSelect;
    assert ["id", "name"] + ["age"] == ["id", "name", "age"];
    assert ["id"] + ["name"] == ["id", "name"];
    assert [] + ["id"] == ["id"];
    assert ColumnList(ts, 6, true, ["id", "name", "age"]) == Ok(ColumnScan(6, ["id", "name", "age"]));
    assert ColumnList(ts, 5, false, ["id", "name"]) == Ok(ColumnScan(6, ["id", "name", "age"]));
    assert ColumnList(ts, 4, true, ["id", "name"]) == Ok(ColumnScan(6, ["id", "name", "age"]));
    assert ColumnList(ts, 3, false, ["id"]) == Ok(ColumnScan(6, ["id", "name", "age"]));
    assert ColumnList(ts, 2, true, ["id"]) == Ok(ColumnScan(6, ["id", "name", "age"]));
    assert ColumnList(ts, 1, false, []) == Ok(ColumnScan(6, ["id", "name", "age"]));
    assert ColumnsValid(ts, 6, true) == Ok(6);
    assert ColumnsValid(ts, 5, false) == Ok(6);
    assert ColumnsValid(ts, 4, true) == Ok(6);
    assert ColumnsValid(ts, 3, false) == Ok(6);
    assert ColumnsValid(ts, 2, true) == Ok(6);
  }

  /** `SELECT * FROM users`: the wildcard ends the column list. */
  lemma WildcardExample()
    ensures SelectSpec([Kw("SELECT"), Op("*"), Kw("FROM"), Id("users")])
      == Ok(SelectStatement(["*"], "users", Some(EmptyClause)))
  {
  }

  /** `SELECT id * FROM users`: a wildcard after a column is taken as one more column. */
  lemma WildcardAfterColumnExample()
    ensures SelectSpec([Kw("SELECT"), Id("id"), Op("*"), Kw("FROM"), Id("users")])
      == Ok(SelectStatement(["id", "*"], "users", Some(EmptyClause)))
  {
    var ts := [Kw("SELECT"), Id("id"), Op("*"), Kw("FROM"), Id("users")];
    assert ["id"] + ["*"] == ["id", "*"];
    assert ColumnList(ts, 2, true, ["id"]) == Ok(ColumnScan(3, ["id", "*"]));
    assert [] + ["id"] == ["id"];
    assert ColumnList(ts, 1, false, []) == Ok(ColumnScan(3, ["id", "*"]));
  }

  /** `SELECT id, FROM users`: a dangling comma is an error, and the validator says false. */
  lemma DanglingCommaExample()
    ensures SelectSpec([Kw("SELECT"), Id("id"), Comma, Kw("FROM"), Id("users")]) == Err("expected IDENTIFIER")
    ensures ValidateSpec([Kw("SELECT"), Id("id"), Comma, Kw("FROM"), Id("users")]) == Ok(false)
  {
    var ts := [Kw("SELECT"), Id("id"), Comma, Kw("FROM"), Id("users")];
    assert ColumnList(ts, 3, false, ["id"]) == Err("expected IDENTIFIER");
    assert ColumnList(ts, 2, true, ["id"]) == Err("expected IDENTIFIER");
    assert [] + ["id"] == ["id"];
    assert ColumnList(ts, 1, false, []) == Err("expected IDENTIFIER");
    assert ColumnsValid(ts, 3, false) == Err(Rejected);
    assert ColumnsValid(ts, 2, true) == Err(Rejected);
    assert ColumnsValid(ts, 1, false) == Err(Rejected);
  }

  /** Without FROM the table is empty; a SELECT that stops after its columns panics instead. */
  lemma FromExamples()
    ensures SelectSpec([Kw("SELECT"), Id("id"), Sym(";")]) == Ok(SelectStatement(["id"], "", Some(EmptyClause)))
    ensures SelectSpec([Kw("SELECT"), Id("id")]) == Panic(IndexOutOfRange)
    ensures SelectSpec([Kw("SELECT"), Id("id"), Kw("FROM"), Lit("users")]) == Err("expected Table Name")
  {
  }

  /**
   * A WHERE with conditions: the recogniser keeps the last operator and
   * literal in the clause, while parseWhere as written panics.
   */
  lemma ConjunctionExample()
    ensures ValidateSpec(ConjunctionSelect) == Ok(true)
    ensures SelectSpec(ConjunctionSelect) == Ok(SelectStatement(["id"], "users", Some(ConjunctionRoot)))
    ensures SelectAsWritten(ConjunctionSelect) == Panic(NilDereference)
  {
    ConjunctionConditions();
    var ts := ConjunctionSelect;
    assert ColumnList(ts, 1, false, []) == Ok(ColumnScan(2, ["id"])) by {
      assert [] + ["id"] == ["id"];
    }
    assert FromClause(ts, 2) == Ok(FromScan(4, "users"));
    assert WhereCursor(ts, 4) == Ok(WhereScan(12, ConjunctionRoot));
  }

  /** The clause the recogniser leaves for ConjunctionSelect: the last operator and literal. */
  const ConjunctionRoot: WhereClause := EmptyClause.(kind := "=", right := Some(EmptyClause.(name := "18")))

  lemma ConjunctionConditions()
    ensures Conditions(ConjunctionSelect, 5, EmptyClause) == Ok(WhereScan(12, ConjunctionRoot))
  {
    var ts := ConjunctionSelect;
    var first := EmptyClause.(kind := "=", right := Some(EmptyClause.(name := "marty")));
    assert IsConnective(ts[8]);
    assert Conditions(ts, 9, first) == Ok(WhereScan(12, ConjunctionRoot));
  }

  /** A connective with nothing after it is accepted. */
  lemma TrailingConnectiveExample()
    ensures ValidateSpec([Kw("SELECT"), Id("id"), Kw("FROM"), Id("users"),
                          Kw("WHERE"), Id("id"), Op("="), Lit("1"), Op("OR")]) == Ok(true)
  {
  }

  /** So is a bare WHERE. */
  lemma BareWhereExample()
    ensures ValidateSpec([Kw("SELECT"), Id("id"), Kw("FROM"), Id("users"), Kw("WHERE")]) == Ok(true)
  {
  }

  /** A condition cut short reads past the end. */
  lemma ShortConditionPanics()
    ensures ValidateSpec([Kw("SELECT"), Id("id"), Kw("FROM"), Id("users"), Kw("WHERE"), Id("id"), Op("=")])
      == Panic(IndexOutOfRange)
  {
  }

  /** The "=" check also lets any OPERATOR through, `<` included ... */
  lemma LessThanCompares()
    ensures ValidateSpec([Kw("SELECT"), Id("id"), Kw("FROM"), Id("users"), Kw("WHERE"), Id("id"), Op("<"), Lit("1")])
      == Ok(true)
  {
  }

  /** ... and even AND. */
  lemma ConnectiveCompares()
    ensures ValidateSpec([Kw("SELECT"), Id("id"), Kw("FROM"), Id("users"), Kw("WHERE"), Id("id"), Op("AND"), Lit("1")])
      == Ok(true)
  {
  }

  /** Parse builds nothing for the other statements, which only the validator checks. */
  lemma OtherStatementsExample()
    ensures ParseSpec(SimpleInsert) == Ok(None)
    ensures ParseSpec([Lit("1")]) == Err("expected KEYWORD")
    ensures ParseSpec([]) == Panic(IndexOutOfRange)
  {
  }

  lemma InsertExample()
    ensures ValidateSpec(SimpleInsert) == Ok(true)
  {
    var ts := SimpleInsert;
    assert ParenList(ts, 8, Identifier, false) == Ok(10);
    assert ParenList(ts, 6, Identifier, false) == Ok(10);
    assert ParenList(ts, 4, Identifier, false) == Ok(10);
    assert ParenList(ts, 16, Literal, false) == Ok(18);
    assert ParenList(ts, 14, Literal, false) == Ok(18);
    assert ParenList(ts, 12, Literal, false) == Ok(18);
  }

  /** The VALUES list may stay open, and either list may be empty or end in a comma. */
  lemma LooseInsertExamples()
    ensures ValidateSpec(SimpleInsert[..17]) == Ok(true)
    ensures ValidateSpec([Kw("INSERT"), Kw("INTO"), Id("users"), Sym("("), Sym(")"), Kw("VALUES"), Sym("("), Sym(")")]) == Ok(true)
    ensures ValidateSpec([Kw("INSERT"), Kw("INTO"), Id("users"), Sym("("), Id("id"), Comma, Sym(")"),
                          Kw("VALUES"), Sym("("), Lit("1"), Comma, Sym(")")]) == Ok(true)
    ensures ValidateSpec(SimpleInsert[..9]) == Panic(IndexOutOfRange)
  {
    var open := SimpleInsert[..17];
    assert open == [Kw("INSERT"), Kw("INTO"), Id("users"), Sym("("), Id("id"), Comma, Id("name"), Comma, Id("age"), Sym(")"),
                    Kw("VALUES"), Sym("("), Lit("1"), Comma, Lit("marty"), Comma, Lit("18")];
    assert ParenList(open, 8, Identifier, false) == Ok(10);
    assert ParenList(open, 6, Identifier, false) == Ok(10);
    assert ParenList(open, 4, Identifier, false) == Ok(10);
    assert ParenList(open, 16, Literal, false) == Ok(17);
    assert ParenList(open, 14, Literal, false) == Ok(17);
    assert ParenList(open, 12, Literal, false) == Ok(17);
    var trailing := [Kw("INSERT"), Kw("INTO"), Id("users"), Sym("("), Id("id"), Comma, Sym(")"),
                     Kw("VALUES"), Sym("("), Lit("1"), Comma, Sym(")")];
    assert ParenList(trailing, 6, Identifier, false) == Ok(7);
    assert ParenList(trailing, 5, Identifier, true) == Ok(7);
    assert ParenList(trailing, 4, Identifier, false) == Ok(7);
    assert ParenList(trailing, 11, Literal, false) == Ok(12);
    assert ParenList(trailing, 10, Literal, true) == Ok(12);
    assert ParenList(trailing, 9, Literal, false) == Ok(12);
    var columnsOnly := SimpleInsert[..9];
    assert columnsOnly == [Kw("INSERT"), Kw("INTO"), Id("users"), Sym("("), Id("id"), Comma, Id("name"), Comma, Id("age")];
    assert ParenList(columnsOnly, 8, Identifier, false) == Ok(9);
    assert ParenList(columnsOnly, 6, Identifier, false) == Ok(9);
    assert ParenList(columnsOnly, 4, Identifier, false) == Ok(9);
  }

  lemma UpdateExample()
    ensures ValidateSpec(SimpleUpdate) == Ok(true)
  {
  }

  /** An UPDATE whose last assignment ends the stream reads past the end. */
  lemma UpdateWithoutWherePanics()
    ensures ValidateSpec(SimpleUpdate[..6]) == Panic(IndexOutOfRange)
    ensures ValidateSpec([Kw("UPDATE"), Id("users")]) == Panic(IndexOutOfRange)
    ensures ValidateSpec([Kw("UPDATE"), Id("users"), Sym(";")]) == Ok(false)
  {
    assert SimpleUpdate[..6] == [Kw("UPDATE"), Id("users"), Kw("SET"), Id("name"), Op("="), Lit("marty")];
  }

  /** SET is optional: a table name followed by WHERE, or by nothing after SET, validates. */
  lemma UpdateWithoutSetExample()
    ensures ValidateSpec([Kw("UPDATE"), Id("users"), Kw("WHERE"), Id("id"), Op("="), Lit("1")]) == Ok(true)
    ensures ValidateSpec([Kw("UPDATE"), Id("users"), Kw("SET")]) == Ok(true)
    ensures ValidateSpec([Kw("UPDATE"), Id("users"), Kw("SET"), Id("name"), Op("="), Lit("marty"), Comma]) == Ok(true)
  {
    var trailing := [Kw("UPDATE"), Id("users"), Kw("SET"), Id("name"), Op("="), Lit("marty"), Comma];
    assert Assignments(trailing, 7) == Ok(7);
    assert Assignments(trailing, 3) == Ok(7);
  }

  /** The assignment check rejects only an OPERATOR other than "=": any other token stands for it. */
  lemma UpdateInvertedCheck()
    ensures ValidateSpec([Kw("UPDATE"), Id("users"), Kw("SET"), Id("name"), Lit("x"), Lit("marty"),
                          Kw("WHERE"), Id("id"), Op("="), Lit("1")]) == Ok(true)
    ensures ValidateSpec([Kw("UPDATE"), Id("users"), Kw("SET"), Id("name"), Op("<"), Lit("marty"),
                          Kw("WHERE"), Id("id"), Op("="), Lit("1")]) == Ok(false)
  {
  }

  lemma DeleteExample()
    ensures ValidateSpec(SimpleDelete) == Ok(true)
    ensures ValidateSpec(SimpleDelete[..3]) == Ok(true)
    ensures ValidateSpec(SimpleDelete[..2]) == Panic(IndexOutOfRange)
  {
    assert SimpleDelete[..3] == [Kw("DELETE"), Kw("FROM"), Id("users")];
    assert SimpleDelete[..2] == [Kw("DELETE"), Kw("FROM")];
  }

  /** DELETE's FROM check passes any KEYWORD and any token that reads FROM. */
  lemma KeywordOrValueChecks()
    ensures ValidateSpec([Kw("DELETE"), Kw("SELECT"), Id("users")]) == Ok(true)
    ensures ValidateSpec([Kw("DELETE"), Id("FROM"), Id("users")]) == Ok(true)
    ensures ValidateSpec([Kw("DELETE"), Id("from"), Id("users")]) == Ok(false)
  {
  }
}
