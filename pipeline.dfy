/**
 * Queries taken through the stages in the order `ExecuteQuery` of
 * api/cli.go calls them: tokenize, parse, analyze, then optimize.  The
 * analyser it calls is taken to be `SelectStatement.Analyze` of
 * parser/semantic_analyzer.go.
 */
module Pipeline {
  import opened Outcomes
  import opened Tokens
  import opened Ast
  import opened Lexer
  import opened LexerExamples
  import opened Grammar
  import opened GrammarExamples
  import opened Engine
  import opened SemanticAnalyzer
  import opened QueryOptimizer

  /** The token groups of the simplest tokenizer test, one after another, are the parser test's tokens. */
  lemma SimpleQueryTokens()
    ensures Concat(SimpleGroups) == SimpleSelect
  {
    var G := SimpleGroups;
    assert G[..1][..0] == G[..0];
    assert Concat(G[..1]) == G[0];
    assert G[..2][..1] == G[..1];
    assert Concat(G[..2]) == G[0] + G[1];
    assert G[..3][..2] == G[..2];
    assert Concat(G[..3]) == G[0] + G[1] + G[2];
    assert G[..4][..3] == G[..3];
    assert G[..4] == G;
  }

  /** `SELECT id FROM users` tokenizes to the test's tokens, which validate and parse. */
  lemma SimpleQueryPipeline()
    ensures Lex("SELECT id FROM users") == Ok(SimpleSelect)
    ensures ValidateSpec(SimpleSelect) == Ok(true)
    ensures ParseSpec(SimpleSelect) == Ok(Some(Select(SelectStatement(["id"], "users", Some(EmptyClause)))))
  {
    SimpleExample();
    SimpleSelectExample();
    SimpleQueryTokens();
  }

  const WildcardTokens: seq<Token> := [Kw("SELECT"), Op("*"), Kw("FROM"), Id("users")]

  /** The same for the wildcard query. */
  lemma WildcardQueryTokens()
    ensures Concat(WildcardGroups) == WildcardTokens
  {
    var G := WildcardGroups;
    assert G[..1][..0] == G[..0];
    assert Concat(G[..1]) == G[0];
    assert G[..2][..1] == G[..1];
    assert Concat(G[..2]) == G[0] + G[1];
    assert G[..3][..2] == G[..2];
    assert G[..3] == G;
  }

  /**
   * `SELECT * FROM users` against a `users (id, name)` table: the analyser
   * runs before the wildcard is expanded and rejects `*` as an unknown
   * column; expanded first, the same statement would pass.
   */
  lemma WildcardQueryPipeline(schema: SchemaManager)
    requires schema.tables == map["users" := Table("users", [Column("id", Int), Column("name", Varchar)])]
    ensures Lex("SELECT * FROM users") == Ok(WildcardTokens)
    ensures ParseSpec(WildcardTokens) == Ok(Some(Select(SelectStatement(["*"], "users", Some(EmptyClause)))))
    ensures Analyze(SelectStatement(["*"], "users", Some(EmptyClause)), schema) == Err(ColumnNotInTable)
    ensures Optimized(SelectStatement(["*"], "users", Some(EmptyClause)), schema.GetTable("users"))
      == Ok(SelectStatement(["id", "name"], "users", Some(EmptyClause)))
    ensures Analyze(SelectStatement(["id", "name"], "users", Some(EmptyClause)), schema) == Ok(())
  {
    LexerExamples.WildcardExample();
    WildcardQueryTokens();
    GrammarExamples.WildcardExample();
    var columns := [Column("id", Int), Column("name", Varchar)];
    assert !ContainsColumn(columns, "*") by {
      assert columns[0].name != "*" && columns[1].name != "*";
    }
    assert ContainsColumn(columns, "name") by {
      assert columns[1].name == "name";
    }
    assert ColumnNames(columns) == ["id", "name"];
  }
}
