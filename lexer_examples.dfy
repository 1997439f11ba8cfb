/**
 * The tokenizer examples of parser/lexer_test.go, proved about `Lex`.
 * Each query is written as pieces that start at a blank; each piece is
 * tokenized on its own and `LexAppend` joins the results.
 */
module LexerExamples {
  import opened Outcomes
  import opened CharUtil
  import opened Tokens
  import opened Lexer

  /** The parts of a query, or of its token list, written one after another. */
  function Concat<T>(xs: seq<seq<T>>): seq<T> {
    if xs == [] then [] else Concat(xs[..|xs| - 1]) + xs[|xs| - 1]
  }

  /**
   * A piece that is one word, at the start or after one blank, is one token
   * holding that word.
   */
  lemma WordPiece(lead: seq<Byte>, w: seq<Byte>)
    requires lead == [] || lead == " "
    requires |w| > 0 && forall k :: 0 <= k < |w| ==> IsLetter(w[k])
    ensures Lex(lead + w) == Ok([Token(WordKind(w), w)])
  {
    var s := lead + w;
    var o := |lead|;
    if o == 1 {
      ScanSkip(s, 0, []);
    }
    assert forall k :: o <= k < |s| ==> IsLetter(s[k]) by {
      forall k | o <= k < |s| ensures IsLetter(s[k]) {
        assert s[k] == w[k - o];
      }
    }
    WordStep(s, o, |s|);
    assert s[o..|s|] == w;
    ScanEmit(s, o, [], Token(WordKind(w), w), |s|);
    assert [] + [Token(WordKind(w), w)] == [Token(WordKind(w), w)];
  }

  /** The wildcard query of lexer_test.go. */
  const WildcardPieces: seq<seq<Byte>> := ["SELECT", " * FROM", " users"]

  const WildcardGroups: seq<seq<Token>> := [[Token(Keyword, "SELECT")], [Token(Operator, "*"), Token(Keyword, "FROM")], [Token(Identifier, "users")]]

  lemma LexStarFromFrom0()
    ensures Scan(" * FROM", 1, []) == Ok([Token(Operator, "*"), Token(Keyword, "FROM")])
  {
    var s: seq<Byte> := " * FROM";
    ScanEmit(s, 1, [], Token(Operator, "*"), 2);
    assert [] + [Token(Operator, "*")] == [Token(Operator, "*")];
    ScanSkip(s, 2, [Token(Operator, "*")]);
    LexStarFromFrom1();
  }

  lemma LexStarFromFrom1()
    ensures Scan(" * FROM", 3, [Token(Operator, "*")]) == Ok([Token(Operator, "*"), Token(Keyword, "FROM")])
  {
    var s: seq<Byte> := " * FROM";
    WordStep(s, 3, 7);
    assert s[3..7] == "FROM";
    ScanEmit(s, 3, [Token(Operator, "*")], Token(Keyword, "FROM"), 7);
    assert [Token(Operator, "*")] + [Token(Keyword, "FROM")] == [Token(Operator, "*"), Token(Keyword, "FROM")];
  }

  lemma LexStarFrom()
    ensures Lex(" * FROM") == Ok([Token(Operator, "*"), Token(Keyword, "FROM")])
  {
    var s: seq<Byte> := " * FROM";
    ScanSkip(s, 0, []);
    LexStarFromFrom0();
  }

  lemma WildcardTextUpTo1()
    ensures Concat(WildcardPieces[..1]) == "SELECT"
  {
    assert WildcardPieces[..1][..0] == [];
  }

  lemma WildcardUpTo1()
    ensures Lex(Concat(WildcardPieces[..1])) == Ok(Concat(WildcardGroups[..1]))
  {
    WordPiece([], "SELECT");
    assert WordKind("SELECT") == Keyword;
    assert WildcardPieces[0] == "SELECT" && WildcardGroups[0] == [Token(Keyword, "SELECT")];
    assert Concat(WildcardPieces[..1]) == WildcardPieces[0] by {
      assert WildcardPieces[..1][..0] == [];
    }
    assert Concat(WildcardGroups[..1]) == WildcardGroups[0] by {
      assert WildcardGroups[..1][..0] == [];
    }
  }

  lemma WildcardTextUpTo2()
    ensures Concat(WildcardPieces[..2]) == "SELECT * FROM"
  {
    WildcardTextUpTo1();
    assert WildcardPieces[..2][..1] == WildcardPieces[..1];
    assert "SELECT" + " * FROM" == "SELECT * FROM";
  }

  lemma WildcardUpTo2()
    ensures Lex(Concat(WildcardPieces[..2])) == Ok(Concat(WildcardGroups[..2]))
  {
    LexStarFrom();
    assert WildcardPieces[1] == " * FROM" && WildcardGroups[1] == [Token(Operator, "*"), Token(Keyword, "FROM")];
    WildcardUpTo1();
    assert WildcardPieces[..2][..1] == WildcardPieces[..1];
    assert WildcardGroups[..2][..1] == WildcardGroups[..1];
    LexAppend(Concat(WildcardPieces[..1]), WildcardPieces[1], Concat(WildcardGroups[..1]), WildcardGroups[1]);
  }

  lemma WildcardTextUpTo3()
    ensures Concat(WildcardPieces[..3]) == "SELECT * FROM users"
  {
    WildcardTextUpTo2();
    assert WildcardPieces[..3][..2] == WildcardPieces[..2];
    assert "SELECT * FROM" + " users" == "SELECT * FROM users";
  }

  lemma WildcardUpTo3()
    ensures Lex(Concat(WildcardPieces[..3])) == Ok(Concat(WildcardGroups[..3]))
  {
    WordPiece(" ", "users");
    assert WordKind("users") == Identifier;
    assert " " + "users" == " users";
    assert WildcardPieces[2] == " users" && WildcardGroups[2] == [Token(Identifier, "users")];
    WildcardUpTo2();
    assert WildcardPieces[..3][..2] == WildcardPieces[..2];
    assert WildcardGroups[..3][..2] == WildcardGroups[..2];
    LexAppend(Concat(WildcardPieces[..2]), WildcardPieces[2], Concat(WildcardGroups[..2]), WildcardGroups[2]);
  }

  lemma WildcardExample()
    ensures Concat(WildcardPieces) == "SELECT * FROM users"
    ensures Lex("SELECT * FROM users") == Ok(Concat(WildcardGroups))
  {
    WildcardUpTo3();
    WildcardTextUpTo3();
    assert WildcardPieces[..3] == WildcardPieces && WildcardGroups[..3] == WildcardGroups;
  }

  /** A column list. */
  const ColumnsPieces: seq<seq<Byte>> := ["SELECT", " id,", " name,", " age", " FROM", " users"]

  const ColumnsGroups: seq<seq<Token>> := [[Token(Keyword, "SELECT")], [Token(Identifier, "id"), Token(Delimiter, ",")], [Token(Identifier, "name"), Token(Delimiter, ",")], [Token(Identifier, "age")], [Token(Keyword, "FROM")], [Token(Identifier, "users")]]

  lemma LexIdCommaFrom0()
    ensures Scan(" id,", 1, []) == Ok([Token(Identifier, "id"), Token(Delimiter, ",")])
  {
    var s: seq<Byte> := " id,";
    WordStep(s, 1, 3);
    assert s[1..3] == "id";
    ScanEmit(s, 1, [], Token(Identifier, "id"), 3);
    assert [] + [Token(Identifier, "id")] == [Token(Identifier, "id")];
    LexIdCommaFrom1();
  }

  lemma LexIdCommaFrom1()
    ensures Scan(" id,", 3, [Token(Identifier, "id")]) == Ok([Token(Identifier, "id"), Token(Delimiter, ",")])
  {
    var s: seq<Byte> := " id,";
    ScanEmit(s, 3, [Token(Identifier, "id")], Token(Delimiter, ","), 4);
    assert [Token(Identifier, "id")] + [Token(Delimiter, ",")] == [Token(Identifier, "id"), Token(Delimiter, ",")];
  }

  lemma LexIdComma()
    ensures Lex(" id,") == Ok([Token(Identifier, "id"), Token(Delimiter, ",")])
  {
    var s: seq<Byte> := " id,";
    ScanSkip(s, 0, []);
    LexIdCommaFrom0();
  }

  lemma LexNameCommaFrom0()
    ensures Scan(" name,", 1, []) == Ok([Token(Identifier, "name"), Token(Delimiter, ",")])
  {
    var s: seq<Byte> := " name,";
    WordStep(s, 1, 5);
    assert s[1..5] == "name";
    ScanEmit(s, 1, [], Token(Identifier, "name"), 5);
    assert [] + [Token(Identifier, "name")] == [Token(Identifier, "name")];
    LexNameCommaFrom1();
  }

  lemma LexNameCommaFrom1()
    ensures Scan(" name,", 5, [Token(Identifier, "name")]) == Ok([Token(Identifier, "name"), Token(Delimiter, ",")])
  {
    var s: seq<Byte> := " name,";
    ScanEmit(s, 5, [Token(Identifier, "name")], Token(Delimiter, ","), 6);
    assert [Token(Identifier, "name")] + [Token(Delimiter, ",")] == [Token(Identifier, "name"), Token(Delimiter, ",")];
  }

  lemma LexNameComma()
    ensures Lex(" name,") == Ok([Token(Identifier, "name"), Token(Delimiter, ",")])
  {
    var s: seq<Byte> := " name,";
    ScanSkip(s, 0, []);
    LexNameCommaFrom0();
  }

  lemma ColumnsTextUpTo1()
    ensures Concat(ColumnsPieces[..1]) == "SELECT"
  {
    assert ColumnsPieces[..1][..0] == [];
  }

  lemma ColumnsUpTo1()
    ensures Lex(Concat(ColumnsPieces[..1])) == Ok(Concat(ColumnsGroups[..1]))
  {
    WordPiece([], "SELECT");
    assert WordKind("SELECT") == Keyword;
    assert ColumnsPieces[0] == "SELECT" && ColumnsGroups[0] == [Token(Keyword, "SELECT")];
    assert Concat(ColumnsPieces[..1]) == ColumnsPieces[0] by {
      assert ColumnsPieces[..1][..0] == [];
    }
    assert Concat(ColumnsGroups[..1]) == ColumnsGroups[0] by {
      assert ColumnsGroups[..1][..0] == [];
    }
  }

  lemma ColumnsTextUpTo2()
    ensures Concat(ColumnsPieces[..2]) == "SELECT id,"
  {
    ColumnsTextUpTo1();
    assert ColumnsPieces[..2][..1] == ColumnsPieces[..1];
    assert "SELECT" + " id," == "SELECT id,";
  }

  lemma ColumnsUpTo2()
    ensures Lex(Concat(ColumnsPieces[..2])) == Ok(Concat(ColumnsGroups[..2]))
  {
    LexIdComma();
    assert ColumnsPieces[1] == " id," && ColumnsGroups[1] == [Token(Identifier, "id"), Token(Delimiter, ",")];
    ColumnsUpTo1();
    assert ColumnsPieces[..2][..1] == ColumnsPieces[..1];
    assert ColumnsGroups[..2][..1] == ColumnsGroups[..1];
    LexAppend(Concat(ColumnsPieces[..1]), ColumnsPieces[1], Concat(ColumnsGroups[..1]), ColumnsGroups[1]);
  }

  lemma ColumnsTextUpTo3()
    ensures Concat(ColumnsPieces[..3]) == "SELECT id, name,"
  {
    ColumnsTextUpTo2();
    assert ColumnsPieces[..3][..2] == ColumnsPieces[..2];
    assert "SELECT id," + " name," == "SELECT id, name,";
  }

  lemma ColumnsUpTo3()
    ensures Lex(Concat(ColumnsPieces[..3])) == Ok(Concat(ColumnsGroups[..3]))
  {
    LexNameComma();
    assert ColumnsPieces[2] == " name," && ColumnsGroups[2] == [Token(Identifier, "name"), Token(Delimiter, ",")];
    ColumnsUpTo2();
    assert ColumnsPieces[..3][..2] == ColumnsPieces[..2];
    assert ColumnsGroups[..3][..2] == ColumnsGroups[..2];
    LexAppend(Concat(ColumnsPieces[..2]), ColumnsPieces[2], Concat(ColumnsGroups[..2]), ColumnsGroups[2]);
  }

  lemma ColumnsTextUpTo4()
    ensures Concat(ColumnsPieces[..4]) == "SELECT id, name, age"
  {
    ColumnsTextUpTo3();
    assert ColumnsPieces[..4][..3] == ColumnsPieces[..3];
    assert "SELECT id, name," + " age" == "SELECT id, name, age";
  }

  lemma ColumnsUpTo4()
    ensures Lex(Concat(ColumnsPieces[..4])) == Ok(Concat(ColumnsGroups[..4]))
  {
    WordPiece(" ", "age");
    assert WordKind("age") == Identifier;
    assert " " + "age" == " age";
    assert ColumnsPieces[3] == " age" && ColumnsGroups[3] == [Token(Identifier, "age")];
    ColumnsUpTo3();
    assert ColumnsPieces[..4][..3] == ColumnsPieces[..3];
    assert ColumnsGroups[..4][..3] == ColumnsGroups[..3];
    LexAppend(Concat(ColumnsPieces[..3]), ColumnsPieces[3], Concat(ColumnsGroups[..3]), ColumnsGroups[3]);
  }

  lemma ColumnsTextUpTo5()
    ensures Concat(ColumnsPieces[..5]) == "SELECT id, name, age FROM"
  {
    ColumnsTextUpTo4();
    assert ColumnsPieces[..5][..4] == ColumnsPieces[..4];
    assert "SELECT id, name, age" + " FROM" == "SELECT id, name, age FROM";
  }

  lemma ColumnsUpTo5()
    ensures Lex(Concat(ColumnsPieces[..5])) == Ok(Concat(ColumnsGroups[..5]))
  {
    WordPiece(" ", "FROM");
    assert WordKind("FROM") == Keyword;
    assert " " + "FROM" == " FROM";
    assert ColumnsPieces[4] == " FROM" && ColumnsGroups[4] == [Token(Keyword, "FROM")];
    ColumnsUpTo4();
    assert ColumnsPieces[..5][..4] == ColumnsPieces[..4];
    assert ColumnsGroups[..5][..4] == ColumnsGroups[..4];
    LexAppend(Concat(ColumnsPieces[..4]), ColumnsPieces[4], Concat(ColumnsGroups[..4]), ColumnsGroups[4]);
  }

  lemma ColumnsTextUpTo6()
    ensures Concat(ColumnsPieces[..6]) == "SELECT id, name, age FROM users"
  {
    ColumnsTextUpTo5();
    assert ColumnsPieces[..6][..5] == ColumnsPieces[..5];
    assert "SELECT id, name, age FROM" + " users" == "SELECT id, name, age FROM users";
  }

  lemma ColumnsUpTo6()
    ensures Lex(Concat(ColumnsPieces[..6])) == Ok(Concat(ColumnsGroups[..6]))
  {
    WordPiece(" ", "users");
    assert WordKind("users") == Identifier;
    assert " " + "users" == " users";
    assert ColumnsPieces[5] == " users" && ColumnsGroups[5] == [Token(Identifier, "users")];
    ColumnsUpTo5();
    assert ColumnsPieces[..6][..5] == ColumnsPieces[..5];
    assert ColumnsGroups[..6][..5] == ColumnsGroups[..5];
    LexAppend(Concat(ColumnsPieces[..5]), ColumnsPieces[5], Concat(ColumnsGroups[..5]), ColumnsGroups[5]);
  }

  lemma ColumnsExample()
    ensures Concat(ColumnsPieces) == "SELECT id, name, age FROM users"
    ensures Lex("SELECT id, name, age FROM users") == Ok(Concat(ColumnsGroups))
  {
    ColumnsUpTo6();
    ColumnsTextUpTo6();
    assert ColumnsPieces[..6] == ColumnsPieces && ColumnsGroups[..6] == ColumnsGroups;
  }

  /** A WHERE clause with a connective and a double-quoted literal. */
  const ConjunctionPieces: seq<seq<Byte>> := ["SELECT", " id", " FROM", " users", " WHERE", " name", " = \"marty\"", " AND", " age", " = 18"]

  const ConjunctionGroups: seq<seq<Token>> := [[Token(Keyword, "SELECT")], [Token(Identifier, "id")], [Token(Keyword, "FROM")], [Token(Identifier, "users")], [Token(Keyword, "WHERE")], [Token(Identifier, "name")], [Token(Operator, "="), Token(Literal, "marty")], [Token(Operator, "AND")], [Token(Identifier, "age")], [Token(Operator, "="), Token(Literal, "18")]]

  lemma LexEqQuoteMartyQuoteFrom0()
    ensures Scan(" = \"marty\"", 1, []) == Ok([Token(Operator, "="), Token(Literal, "marty")])
  {
    var s: seq<Byte> := " = \"marty\"";
    ScanEmit(s, 1, [], Token(Operator, "="), 2);
    assert [] + [Token(Operator, "=")] == [Token(Operator, "=")];
    ScanSkip(s, 2, [Token(Operator, "=")]);
    LexEqQuoteMartyQuoteFrom1();
  }

  lemma LexEqQuoteMartyQuoteFrom1()
    ensures Scan(" = \"marty\"", 3, [Token(Operator, "=")]) == Ok([Token(Operator, "="), Token(Literal, "marty")])
  {
    var s: seq<Byte> := " = \"marty\"";
    QuoteStep(s, 3, 9);
    assert s[4..9] == "marty";
    ScanEmit(s, 3, [Token(Operator, "=")], Token(Literal, "marty"), 10);
    assert [Token(Operator, "=")] + [Token(Literal, "marty")] == [Token(Operator, "="), Token(Literal, "marty")];
  }

  lemma LexEqQuoteMartyQuote()
    ensures Lex(" = \"marty\"") == Ok([Token(Operator, "="), Token(Literal, "marty")])
  {
    var s: seq<Byte> := " = \"marty\"";
    ScanSkip(s, 0, []);
    LexEqQuoteMartyQuoteFrom0();
  }

  lemma LexEq18From0()
    ensures Scan(" = 18", 1, []) == Ok([Token(Operator, "="), Token(Literal, "18")])
  {
    var s: seq<Byte> := " = 18";
    ScanEmit(s, 1, [], Token(Operator, "="), 2);
    assert [] + [Token(Operator, "=")] == [Token(Operator, "=")];
    ScanSkip(s, 2, [Token(Operator, "=")]);
    LexEq18From1();
  }

  lemma LexEq18From1()
    ensures Scan(" = 18", 3, [Token(Operator, "=")]) == Ok([Token(Operator, "="), Token(Literal, "18")])
  {
    var s: seq<Byte> := " = 18";
    NumberStep(s, 3, 5);
    assert s[3..5] == "18";
    ScanEmit(s, 3, [Token(Operator, "=")], Token(Literal, "18"), 5);
    assert [Token(Operator, "=")] + [Token(Literal, "18")] == [Token(Operator, "="), Token(Literal, "18")];
  }

  lemma LexEq18()
    ensures Lex(" = 18") == Ok([Token(Operator, "="), Token(Literal, "18")])
  {
    var s: seq<Byte> := " = 18";
    ScanSkip(s, 0, []);
    LexEq18From0();
  }

  lemma ConjunctionTextUpTo1()
    ensures Concat(ConjunctionPieces[..1]) == "SELECT"
  {
    assert ConjunctionPieces[..1][..0] == [];
  }

  lemma ConjunctionUpTo1()
    ensures Lex(Concat(ConjunctionPieces[..1])) == Ok(Concat(ConjunctionGroups[..1]))
  {
    WordPiece([], "SELECT");
    assert WordKind("SELECT") == Keyword;
    assert ConjunctionPieces[0] == "SELECT" && ConjunctionGroups[0] == [Token(Keyword, "SELECT")];
    assert Concat(ConjunctionPieces[..1]) == ConjunctionPieces[0] by {
      assert ConjunctionPieces[..1][..0] == [];
    }
    assert Concat(ConjunctionGroups[..1]) == ConjunctionGroups[0] by {
      assert ConjunctionGroups[..1][..0] == [];
    }
  }

  lemma ConjunctionTextUpTo2()
    ensures Concat(ConjunctionPieces[..2]) == "SELECT id"
  {
    ConjunctionTextUpTo1();
    assert ConjunctionPieces[..2][..1] == ConjunctionPieces[..1];
    assert "SELECT" + " id" == "SELECT id";
  }

  lemma ConjunctionUpTo2()
    ensures Lex(Concat(ConjunctionPieces[..2])) == Ok(Concat(ConjunctionGroups[..2]))
  {
    WordPiece(" ", "id");
    assert WordKind("id") == Identifier;
    assert " " + "id" == " id";
    assert ConjunctionPieces[1] == " id" && ConjunctionGroups[1] == [Token(Identifier, "id")];
    ConjunctionUpTo1();
    assert ConjunctionPieces[..2][..1] == ConjunctionPieces[..1];
    assert ConjunctionGroups[..2][..1] == ConjunctionGroups[..1];
    LexAppend(Concat(ConjunctionPieces[..1]), ConjunctionPieces[1], Concat(ConjunctionGroups[..1]), ConjunctionGroups[1]);
  }

  lemma ConjunctionTextUpTo3()
    ensures Concat(ConjunctionPieces[..3]) == "SELECT id FROM"
  {
    ConjunctionTextUpTo2();
    assert ConjunctionPieces[..3][..2] == ConjunctionPieces[..2];
    assert "SELECT id" + " FROM" == "SELECT id FROM";
  }

  lemma ConjunctionUpTo3()
    ensures Lex(Concat(ConjunctionPieces[..3])) == Ok(Concat(ConjunctionGroups[..3]))
  {
    WordPiece(" ", "FROM");
    assert WordKind("FROM") == Keyword;
    assert " " + "FROM" == " FROM";
    assert ConjunctionPieces[2] == " FROM" && ConjunctionGroups[2] == [Token(Keyword, "FROM")];
    ConjunctionUpTo2();
    assert ConjunctionPieces[..3][..2] == ConjunctionPieces[..2];
    assert ConjunctionGroups[..3][..2] == ConjunctionGroups[..2];
    LexAppend(Concat(ConjunctionPieces[..2]), ConjunctionPieces[2], Concat(ConjunctionGroups[..2]), ConjunctionGroups[2]);
  }

  lemma ConjunctionTextUpTo4()
    ensures Concat(ConjunctionPieces[..4]) == "SELECT id FROM users"
  {
    ConjunctionTextUpTo3();
    assert ConjunctionPieces[..4][..3] == ConjunctionPieces[..3];
    assert "SELECT id FROM" + " users" == "SELECT id FROM users";
  }

  lemma ConjunctionUpTo4()
    ensures Lex(Concat(ConjunctionPieces[..4])) == Ok(Concat(ConjunctionGroups[..4]))
  {
    WordPiece(" ", "users");
    assert WordKind("users") == Identifier;
    assert " " + "users" == " users";
    assert ConjunctionPieces[3] == " users" && ConjunctionGroups[3] == [Token(Identifier, "users")];
    ConjunctionUpTo3();
    assert ConjunctionPieces[..4][..3] == ConjunctionPieces[..3];
    assert ConjunctionGroups[..4][..3] == ConjunctionGroups[..3];
    LexAppend(Concat(ConjunctionPieces[..3]), ConjunctionPieces[3], Concat(ConjunctionGroups[..3]), ConjunctionGroups[3]);
  }

  lemma ConjunctionTextUpTo5()
    ensures Concat(ConjunctionPieces[..5]) == "SELECT id FROM users WHERE"
  {
    ConjunctionTextUpTo4();
    assert ConjunctionPieces[..5][..4] == ConjunctionPieces[..4];
    assert "SELECT id FROM users" + " WHERE" == "SELECT id FROM users WHERE";
  }

  lemma ConjunctionUpTo5()
    ensures Lex(Concat(ConjunctionPieces[..5])) == Ok(Concat(ConjunctionGroups[..5]))
  {
    WordPiece(" ", "WHERE");
    assert WordKind("WHERE") == Keyword;
    assert " " + "WHERE" == " WHERE";
    assert ConjunctionPieces[4] == " WHERE" && ConjunctionGroups[4] == [Token(Keyword, "WHERE")];
    ConjunctionUpTo4();
    assert ConjunctionPieces[..5][..4] == ConjunctionPieces[..4];
    assert ConjunctionGroups[..5][..4] == ConjunctionGroups[..4];
    LexAppend(Concat(ConjunctionPieces[..4]), ConjunctionPieces[4], Concat(ConjunctionGroups[..4]), ConjunctionGroups[4]);
  }

  lemma ConjunctionTextUpTo6()
    ensures Concat(ConjunctionPieces[..6]) == "SELECT id FROM users WHERE name"
  {
    ConjunctionTextUpTo5();
    assert ConjunctionPieces[..6][..5] == ConjunctionPieces[..5];
    assert "SELECT id FROM users WHERE" + " name" == "SELECT id FROM users WHERE name";
  }

  lemma ConjunctionUpTo6()
    ensures Lex(Concat(ConjunctionPieces[..6])) == Ok(Concat(ConjunctionGroups[..6]))
  {
    WordPiece(" ", "name");
    assert WordKind("name") == Identifier;
    assert " " + "name" == " name";
    assert ConjunctionPieces[5] == " name" && ConjunctionGroups[5] == [Token(Identifier, "name")];
    ConjunctionUpTo5();
    assert ConjunctionPieces[..6][..5] == ConjunctionPieces[..5];
    assert ConjunctionGroups[..6][..5] == ConjunctionGroups[..5];
    LexAppend(Concat(ConjunctionPieces[..5]), ConjunctionPieces[5], Concat(ConjunctionGroups[..5]), ConjunctionGroups[5]);
  }

  lemma ConjunctionTextUpTo7()
    ensures Concat(ConjunctionPieces[..7]) == "SELECT id FROM users WHERE name = \"marty\""
  {
    ConjunctionTextUpTo6();
    assert ConjunctionPieces[..7][..6] == ConjunctionPieces[..6];
    assert "SELECT id FROM users WHERE name" + " = \"marty\"" == "SELECT id FROM users WHERE name = \"marty\"";
  }

  lemma ConjunctionUpTo7()
    ensures Lex(Concat(ConjunctionPieces[..7])) == Ok(Concat(ConjunctionGroups[..7]))
  {
    LexEqQuoteMartyQuote();
    assert ConjunctionPieces[6] == " = \"marty\"" && ConjunctionGroups[6] == [Token(Operator, "="), Token(Literal, "marty")];
    ConjunctionUpTo6();
    assert ConjunctionPieces[..7][..6] == ConjunctionPieces[..6];
    assert ConjunctionGroups[..7][..6] == ConjunctionGroups[..6];
    LexAppend(Concat(ConjunctionPieces[..6]), ConjunctionPieces[6], Concat(ConjunctionGroups[..6]), ConjunctionGroups[6]);
  }

  lemma ConjunctionTextUpTo8()
    ensures Concat(ConjunctionPieces[..8]) == "SELECT id FROM users WHERE name = \"marty\" AND"
  {
    ConjunctionTextUpTo7();
    assert ConjunctionPieces[..8][..7] == ConjunctionPieces[..7];
    assert "SELECT id FROM users WHERE name = \"marty\"" + " AND" == "SELECT id FROM users WHERE name = \"marty\" AND";
  }

  lemma ConjunctionUpTo8()
    ensures Lex(Concat(ConjunctionPieces[..8])) == Ok(Concat(ConjunctionGroups[..8]))
  {
    WordPiece(" ", "AND");
    assert WordKind("AND") == Operator;
    assert " " + "AND" == " AND";
    assert ConjunctionPieces[7] == " AND" && ConjunctionGroups[7] == [Token(Operator, "AND")];
    ConjunctionUpTo7();
    assert ConjunctionPieces[..8][..7] == ConjunctionPieces[..7];
    assert ConjunctionGroups[..8][..7] == ConjunctionGroups[..7];
    LexAppend(Concat(ConjunctionPieces[..7]), ConjunctionPieces[7], Concat(ConjunctionGroups[..7]), ConjunctionGroups[7]);
  }

  lemma ConjunctionTextUpTo9()
    ensures Concat(ConjunctionPieces[..9]) == "SELECT id FROM users WHERE name = \"marty\" AND age"
  {
    ConjunctionTextUpTo8();
    assert ConjunctionPieces[..9][..8] == ConjunctionPieces[..8];
    assert "SELECT id FROM users WHERE name = \"marty\" AND" + " age" == "SELECT id FROM users WHERE name = \"marty\" AND age";
  }

  lemma ConjunctionUpTo9()
    ensures Lex(Concat(ConjunctionPieces[..9])) == Ok(Concat(ConjunctionGroups[..9]))
  {
    WordPiece(" ", "age");
    assert WordKind("age") == Identifier;
    assert " " + "age" == " age";
    assert ConjunctionPieces[8] == " age" && ConjunctionGroups[8] == [Token(Identifier, "age")];
    ConjunctionUpTo8();
    assert ConjunctionPieces[..9][..8] == ConjunctionPieces[..8];
    assert ConjunctionGroups[..9][..8] == ConjunctionGroups[..8];
    LexAppend(Concat(ConjunctionPieces[..8]), ConjunctionPieces[8], Concat(ConjunctionGroups[..8]), ConjunctionGroups[8]);
  }

  lemma ConjunctionTextUpTo10()
    ensures Concat(ConjunctionPieces[..10]) == "SELECT id FROM users WHERE name = \"marty\" AND age = 18"
  {
    ConjunctionTextUpTo9();
    assert ConjunctionPieces[..10][..9] == ConjunctionPieces[..9];
    assert "SELECT id FROM users WHERE name = \"marty\" AND age" + " = 18" == "SELECT id FROM users WHERE name = \"marty\" AND age = 18";
  }

  lemma ConjunctionUpTo10()
    ensures Lex(Concat(ConjunctionPieces[..10])) == Ok(Concat(ConjunctionGroups[..10]))
  {
    LexEq18();
    assert ConjunctionPieces[9] == " = 18" && ConjunctionGroups[9] == [Token(Operator, "="), Token(Literal, "18")];
    ConjunctionUpTo9();
    assert ConjunctionPieces[..10][..9] == ConjunctionPieces[..9];
    assert ConjunctionGroups[..10][..9] == ConjunctionGroups[..9];
    LexAppend(Concat(ConjunctionPieces[..9]), ConjunctionPieces[9], Concat(ConjunctionGroups[..9]), ConjunctionGroups[9]);
  }

  lemma ConjunctionExample()
    ensures Concat(ConjunctionPieces) == "SELECT id FROM users WHERE name = \"marty\" AND age = 18"
    ensures Lex("SELECT id FROM users WHERE name = \"marty\" AND age = 18") == Ok(Concat(ConjunctionGroups))
  {
    ConjunctionUpTo10();
    ConjunctionTextUpTo10();
    assert ConjunctionPieces[..10] == ConjunctionPieces && ConjunctionGroups[..10] == ConjunctionGroups;
  }

  /** An INSERT with a column list and a value list. */
  const InsertPieces: seq<seq<Byte>> := ["INSERT", " INTO", " users", " (id,", " name,", " age)", " VALUES", " (1,", " \"marty\",", " 18)"]

  const InsertGroups: seq<seq<Token>> := [[Token(Keyword, "INSERT")], [Token(Keyword, "INTO")], [Token(Identifier, "users")], [Token(Symbol, "("), Token(Identifier, "id"), Token(Delimiter, ",")], [Token(Identifier, "name"), Token(Delimiter, ",")], [Token(Identifier, "age"), Token(Symbol, ")")], [Token(Keyword, "VALUES")], [Token(Symbol, "("), Token(Literal, "1"), Token(Delimiter, ",")], [Token(Literal, "marty"), Token(Delimiter, ",")], [Token(Literal, "18"), Token(Symbol, ")")]]

  lemma LexOpenIdCommaFrom0()
    ensures Scan(" (id,", 1, []) == Ok([Token(Symbol, "("), Token(Identifier, "id"), Token(Delimiter, ",")])
  {
    var s: seq<Byte> := " (id,";
    ScanEmit(s, 1, [], Token(Symbol, "("), 2);
    assert [] + [Token(Symbol, "(")] == [Token(Symbol, "(")];
    LexOpenIdCommaFrom1();
  }

  lemma LexOpenIdCommaFrom1()
    ensures Scan(" (id,", 2, [Token(Symbol, "(")]) == Ok([Token(Symbol, "("), Token(Identifier, "id"), Token(Delimiter, ",")])
  {
    var s: seq<Byte> := " (id,";
    WordStep(s, 2, 4);
    assert s[2..4] == "id";
    ScanEmit(s, 2, [Token(Symbol, "(")], Token(Identifier, "id"), 4);
    assert [Token(Symbol, "(")] + [Token(Identifier, "id")] == [Token(Symbol, "("), Token(Identifier, "id")];
    LexOpenIdCommaFrom2();
  }

  lemma LexOpenIdCommaFrom2()
    ensures Scan(" (id,", 4, [Token(Symbol, "("), Token(Identifier, "id")]) == Ok([Token(Symbol, "("), Token(Identifier, "id"), Token(Delimiter, ",")])
  {
    var s: seq<Byte> := " (id,";
    ScanEmit(s, 4, [Token(Symbol, "("), Token(Identifier, "id")], Token(Delimiter, ","), 5);
    assert [Token(Symbol, "("), Token(Identifier, "id")] + [Token(Delimiter, ",")] == [Token(Symbol, "("), Token(Identifier, "id"), Token(Delimiter, ",")];
  }

  lemma LexOpenIdComma()
    ensures Lex(" (id,") == Ok([Token(Symbol, "("), Token(Identifier, "id"), Token(Delimiter, ",")])
  {
    var s: seq<Byte> := " (id,";
    ScanSkip(s, 0, []);
    LexOpenIdCommaFrom0();
  }

  lemma LexAgeCloseFrom0()
    ensures Scan(" age)", 1, []) == Ok([Token(Identifier, "age"), Token(Symbol, ")")])
  {
    var s: seq<Byte> := " age)";
    WordStep(s, 1, 4);
    assert s[1..4] == "age";
    ScanEmit(s, 1, [], Token(Identifier, "age"), 4);
    assert [] + [Token(Identifier, "age")] == [Token(Identifier, "age")];
    LexAgeCloseFrom1();
  }

  lemma LexAgeCloseFrom1()
    ensures Scan(" age)", 4, [Token(Identifier, "age")]) == Ok([Token(Identifier, "age"), Token(Symbol, ")")])
  {
    var s: seq<Byte> := " age)";
    ScanEmit(s, 4, [Token(Identifier, "age")], Token(Symbol, ")"), 5);
    assert [Token(Identifier, "age")] + [Token(Symbol, ")")] == [Token(Identifier, "age"), Token(Symbol, ")")];
  }

  lemma LexAgeClose()
    ensures Lex(" age)") == Ok([Token(Identifier, "age"), Token(Symbol, ")")])
  {
    var s: seq<Byte> := " age)";
    ScanSkip(s, 0, []);
    LexAgeCloseFrom0();
  }

  lemma LexOpen1CommaFrom0()
    ensures Scan(" (1,", 1, []) == Ok([Token(Symbol, "("), Token(Literal, "1"), Token(Delimiter, ",")])
  {
    var s: seq<Byte> := " (1,";
    ScanEmit(s, 1, [], Token(Symbol, "("), 2);
    assert [] + [Token(Symbol, "(")] == [Token(Symbol, "(")];
    LexOpen1CommaFrom1();
  }

  lemma LexOpen1CommaFrom1()
    ensures Scan(" (1,", 2, [Token(Symbol, "(")]) == Ok([Token(Symbol, "("), Token(Literal, "1"), Token(Delimiter, ",")])
  {
    var s: seq<Byte> := " (1,";
    NumberStep(s, 2, 3);
    assert s[2..3] == "1";
    ScanEmit(s, 2, [Token(Symbol, "(")], Token(Literal, "1"), 3);
    assert [Token(Symbol, "(")] + [Token(Literal, "1")] == [Token(Symbol, "("), Token(Literal, "1")];
    LexOpen1CommaFrom2();
  }

  lemma LexOpen1CommaFrom2()
    ensures Scan(" (1,", 3, [Token(Symbol, "("), Token(Literal, "1")]) == Ok([Token(Symbol, "("), Token(Literal, "1"), Token(Delimiter, ",")])
  {
    var s: seq<Byte> := " (1,";
    ScanEmit(s, 3, [Token(Symbol, "("), Token(Literal, "1")], Token(Delimiter, ","), 4);
    assert [Token(Symbol, "("), Token(Literal, "1")] + [Token(Delimiter, ",")] == [Token(Symbol, "("), Token(Literal, "1"), Token(Delimiter, ",")];
  }

  lemma LexOpen1Comma()
    ensures Lex(" (1,") == Ok([Token(Symbol, "("), Token(Literal, "1"), Token(Delimiter, ",")])
  {
    var s: seq<Byte> := " (1,";
    ScanSkip(s, 0, []);
    LexOpen1CommaFrom0();
  }

  lemma LexQuoteMartyQuoteCommaFrom0()
    ensures Scan(" \"marty\",", 1, []) == Ok([Token(Literal, "marty"), Token(Delimiter, ",")])
  {
    var s: seq<Byte> := " \"marty\",";
    QuoteStep(s, 1, 7);
    assert s[2..7] == "marty";
    ScanEmit(s, 1, [], Token(Literal, "marty"), 8);
    assert [] + [Token(Literal, "marty")] == [Token(Literal, "marty")];
    LexQuoteMartyQuoteCommaFrom1();
  }

  lemma LexQuoteMartyQuoteCommaFrom1()
    ensures Scan(" \"marty\",", 8, [Token(Literal, "marty")]) == Ok([Token(Literal, "marty"), Token(Delimiter, ",")])
  {
    var s: seq<Byte> := " \"marty\",";
    ScanEmit(s, 8, [Token(Literal, "marty")], Token(Delimiter, ","), 9);
    assert [Token(Literal, "marty")] + [Token(Delimiter, ",")] == [Token(Literal, "marty"), Token(Delimiter, ",")];
  }

  lemma LexQuoteMartyQuoteComma()
    ensures Lex(" \"marty\",") == Ok([Token(Literal, "marty"), Token(Delimiter, ",")])
  {
    var s: seq<Byte> := " \"marty\",";
    ScanSkip(s, 0, []);
    LexQuoteMartyQuoteCommaFrom0();
  }

  lemma Lex18CloseFrom0()
    ensures Scan(" 18)", 1, []) == Ok([Token(Literal, "18"), Token(Symbol, ")")])
  {
    var s: seq<Byte> := " 18)";
    NumberStep(s, 1, 3);
    assert s[1..3] == "18";
    ScanEmit(s, 1, [], Token(Literal, "18"), 3);
    assert [] + [Token(Literal, "18")] == [Token(Literal, "18")];
    Lex18CloseFrom1();
  }

  lemma Lex18CloseFrom1()
    ensures Scan(" 18)", 3, [Token(Literal, "18")]) == Ok([Token(Literal, "18"), Token(Symbol, ")")])
  {
    var s: seq<Byte> := " 18)";
    ScanEmit(s, 3, [Token(Literal, "18")], Token(Symbol, ")"), 4);
    assert [Token(Literal, "18")] + [Token(Symbol, ")")] == [Token(Literal, "18"), Token(Symbol, ")")];
  }

  lemma Lex18Close()
    ensures Lex(" 18)") == Ok([Token(Literal, "18"), Token(Symbol, ")")])
  {
    var s: seq<Byte> := " 18)";
    ScanSkip(s, 0, []);
    Lex18CloseFrom0();
  }

  lemma InsertTextUpTo1()
    ensures Concat(InsertPieces[..1]) == "INSERT"
  {
    assert InsertPieces[..1][..0] == [];
  }

  lemma InsertUpTo1()
    ensures Lex(Concat(InsertPieces[..1])) == Ok(Concat(InsertGroups[..1]))
  {
    WordPiece([], "INSERT");
    assert WordKind("INSERT") == Keyword;
    assert InsertPieces[0] == "INSERT" && InsertGroups[0] == [Token(Keyword, "INSERT")];
    assert Concat(InsertPieces[..1]) == InsertPieces[0] by {
      assert InsertPieces[..1][..0] == [];
    }
    assert Concat(InsertGroups[..1]) == InsertGroups[0] by {
      assert InsertGroups[..1][..0] == [];
    }
  }

  lemma InsertTextUpTo2()
    ensures Concat(InsertPieces[..2]) == "INSERT INTO"
  {
    InsertTextUpTo1();
    assert InsertPieces[..2][..1] == InsertPieces[..1];
    assert "INSERT" + " INTO" == "INSERT INTO";
  }

  lemma InsertUpTo2()
    ensures Lex(Concat(InsertPieces[..2])) == Ok(Concat(InsertGroups[..2]))
  {
    WordPiece(" ", "INTO");
    assert WordKind("INTO") == Keyword;
    assert " " + "INTO" == " INTO";
    assert InsertPieces[1] == " INTO" && InsertGroups[1] == [Token(Keyword, "INTO")];
    InsertUpTo1();
    assert InsertPieces[..2][..1] == InsertPieces[..1];
    assert InsertGroups[..2][..1] == InsertGroups[..1];
    LexAppend(Concat(InsertPieces[..1]), InsertPieces[1], Concat(InsertGroups[..1]), InsertGroups[1]);
  }

  lemma InsertTextUpTo3()
    ensures Concat(InsertPieces[..3]) == "INSERT INTO users"
  {
    InsertTextUpTo2();
    assert InsertPieces[..3][..2] == InsertPieces[..2];
    assert "INSERT INTO" + " users" == "INSERT INTO users";
  }

  lemma InsertUpTo3()
    ensures Lex(Concat(InsertPieces[..3])) == Ok(Concat(InsertGroups[..3]))
  {
    WordPiece(" ", "users");
    assert WordKind("users") == Identifier;
    assert " " + "users" == " users";
    assert InsertPieces[2] == " users" && InsertGroups[2] == [Token(Identifier, "users")];
    InsertUpTo2();
    assert InsertPieces[..3][..2] == InsertPieces[..2];
    assert InsertGroups[..3][..2] == InsertGroups[..2];
    LexAppend(Concat(InsertPieces[..2]), InsertPieces[2], Concat(InsertGroups[..2]), InsertGroups[2]);
  }

  lemma InsertTextUpTo4()
    ensures Concat(InsertPieces[..4]) == "INSERT INTO users (id,"
  {
    InsertTextUpTo3();
    assert InsertPieces[..4][..3] == InsertPieces[..3];
    assert "INSERT INTO users" + " (id," == "INSERT INTO users (id,";
  }

  lemma InsertUpTo4()
    ensures Lex(Concat(InsertPieces[..4])) == Ok(Concat(InsertGroups[..4]))
  {
    LexOpenIdComma();
    assert InsertPieces[3] == " (id," && InsertGroups[3] == [Token(Symbol, "("), Token(Identifier, "id"), Token(Delimiter, ",")];
    InsertUpTo3();
    assert InsertPieces[..4][..3] == InsertPieces[..3];
    assert InsertGroups[..4][..3] == InsertGroups[..3];
    LexAppend(Concat(InsertPieces[..3]), InsertPieces[3], Concat(InsertGroups[..3]), InsertGroups[3]);
  }

  lemma InsertTextUpTo5()
    ensures Concat(InsertPieces[..5]) == "INSERT INTO users (id, name,"
  {
    InsertTextUpTo4();
    assert InsertPieces[..5][..4] == InsertPieces[..4];
    assert "INSERT INTO users (id," + " name," == "INSERT INTO users (id, name,";
  }

  lemma InsertUpTo5()
    ensures Lex(Concat(InsertPieces[..5])) == Ok(Concat(InsertGroups[..5]))
  {
    LexNameComma();
    assert InsertPieces[4] == " name," && InsertGroups[4] == [Token(Identifier, "name"), Token(Delimiter, ",")];
    InsertUpTo4();
    assert InsertPieces[..5][..4] == InsertPieces[..4];
    assert InsertGroups[..5][..4] == InsertGroups[..4];
    LexAppend(Concat(InsertPieces[..4]), InsertPieces[4], Concat(InsertGroups[..4]), InsertGroups[4]);
  }

  lemma InsertTextUpTo6()
    ensures Concat(InsertPieces[..6]) == "INSERT INTO users (id, name, age)"
  {
    InsertTextUpTo5();
    assert InsertPieces[..6][..5] == InsertPieces[..5];
    assert "INSERT INTO users (id, name," + " age)" == "INSERT INTO users (id, name, age)";
  }

  lemma InsertUpTo6()
    ensures Lex(Concat(InsertPieces[..6])) == Ok(Concat(InsertGroups[..6]))
  {
    LexAgeClose();
    assert InsertPieces[5] == " age)" && InsertGroups[5] == [Token(Identifier, "age"), Token(Symbol, ")")];
    InsertUpTo5();
    assert InsertPieces[..6][..5] == InsertPieces[..5];
    assert InsertGroups[..6][..5] == InsertGroups[..5];
    LexAppend(Concat(InsertPieces[..5]), InsertPieces[5], Concat(InsertGroups[..5]), InsertGroups[5]);
  }

  lemma InsertTextUpTo7()
    ensures Concat(InsertPieces[..7]) == "INSERT INTO users (id, name, age) VALUES"
  {
    InsertTextUpTo6();
    assert InsertPieces[..7][..6] == InsertPieces[..6];
    assert "INSERT INTO users (id, name, age)" + " VALUES" == "INSERT INTO users (id, name, age) VALUES";
  }

  lemma InsertUpTo7()
    ensures Lex(Concat(InsertPieces[..7])) == Ok(Concat(InsertGroups[..7]))
  {
    WordPiece(" ", "VALUES");
    assert WordKind("VALUES") == Keyword;
    assert " " + "VALUES" == " VALUES";
    assert InsertPieces[6] == " VALUES" && InsertGroups[6] == [Token(Keyword, "VALUES")];
    InsertUpTo6();
    assert InsertPieces[..7][..6] == InsertPieces[..6];
    assert InsertGroups[..7][..6] == InsertGroups[..6];
    LexAppend(Concat(InsertPieces[..6]), InsertPieces[6], Concat(InsertGroups[..6]), InsertGroups[6]);
  }

  lemma InsertTextUpTo8()
    ensures Concat(InsertPieces[..8]) == "INSERT INTO users (id, name, age) VALUES (1,"
  {
    InsertTextUpTo7();
    assert InsertPieces[..8][..7] == InsertPieces[..7];
    assert "INSERT INTO users (id, name, age) VALUES" + " (1," == "INSERT INTO users (id, name, age) VALUES (1,";
  }

  lemma InsertUpTo8()
    ensures Lex(Concat(InsertPieces[..8])) == Ok(Concat(InsertGroups[..8]))
  {
    LexOpen1Comma();
    assert InsertPieces[7] == " (1," && InsertGroups[7] == [Token(Symbol, "("), Token(Literal, "1"), Token(Delimiter, ",")];
    InsertUpTo7();
    assert InsertPieces[..8][..7] == InsertPieces[..7];
    assert InsertGroups[..8][..7] == InsertGroups[..7];
    LexAppend(Concat(InsertPieces[..7]), InsertPieces[7], Concat(InsertGroups[..7]), InsertGroups[7]);
  }

  lemma InsertTextUpTo9()
    ensures Concat(InsertPieces[..9]) == "INSERT INTO users (id, name, age) VALUES (1, \"marty\","
  {
    InsertTextUpTo8();
    assert InsertPieces[..9][..8] == InsertPieces[..8];
    assert "INSERT INTO users (id, name, age) VALUES (1," + " \"marty\"," == "INSERT INTO users (id, name, age) VALUES (1, \"marty\",";
  }

  lemma InsertUpTo9()
    ensures Lex(Concat(InsertPieces[..9])) == Ok(Concat(InsertGroups[..9]))
  {
    LexQuoteMartyQuoteComma();
    assert InsertPieces[8] == " \"marty\"," && InsertGroups[8] == [Token(Literal, "marty"), Token(Delimiter, ",")];
    InsertUpTo8();
    assert InsertPieces[..9][..8] == InsertPieces[..8];
    assert InsertGroups[..9][..8] == InsertGroups[..8];
    LexAppend(Concat(InsertPieces[..8]), InsertPieces[8], Concat(InsertGroups[..8]), InsertGroups[8]);
  }

  lemma InsertTextUpTo10()
    ensures Concat(InsertPieces[..10]) == "INSERT INTO users (id, name, age) VALUES (1, \"marty\", 18)"
  {
    InsertTextUpTo9();
    assert InsertPieces[..10][..9] == InsertPieces[..9];
    assert "INSERT INTO users (id, name, age) VALUES (1, \"marty\"," + " 18)" == "INSERT INTO users (id, name, age) VALUES (1, \"marty\", 18)";
  }

  lemma InsertUpTo10()
    ensures Lex(Concat(InsertPieces[..10])) == Ok(Concat(InsertGroups[..10]))
  {
    Lex18Close();
    assert InsertPieces[9] == " 18)" && InsertGroups[9] == [Token(Literal, "18"), Token(Symbol, ")")];
    InsertUpTo9();
    assert InsertPieces[..10][..9] == InsertPieces[..9];
    assert InsertGroups[..10][..9] == InsertGroups[..9];
    LexAppend(Concat(InsertPieces[..9]), InsertPieces[9], Concat(InsertGroups[..9]), InsertGroups[9]);
  }

  lemma InsertExample()
    ensures Concat(InsertPieces) == "INSERT INTO users (id, name, age) VALUES (1, \"marty\", 18)"
    ensures Lex("INSERT INTO users (id, name, age) VALUES (1, \"marty\", 18)") == Ok(Concat(InsertGroups))
  {
    InsertUpTo10();
    InsertTextUpTo10();
    assert InsertPieces[..10] == InsertPieces && InsertGroups[..10] == InsertGroups;
  }

  /** An UPDATE with one assignment and a condition. */
  const UpdatePieces: seq<seq<Byte>> := ["UPDATE", " users", " SET", " name", " = \"marty\"", " WHERE", " id", " = 1"]

  const UpdateGroups: seq<seq<Token>> := [[Token(Keyword, "UPDATE")], [Token(Identifier, "users")], [Token(Keyword, "SET")], [Token(Identifier, "name")], [Token(Operator, "="), Token(Literal, "marty")], [Token(Keyword, "WHERE")], [Token(Identifier, "id")], [Token(Operator, "="), Token(Literal, "1")]]

  lemma LexEq1From0()
    ensures Scan(" = 1", 1, []) == Ok([Token(Operator, "="), Token(Literal, "1")])
  {
    var s: seq<Byte> := " = 1";
    ScanEmit(s, 1, [], Token(Operator, "="), 2);
    assert [] + [Token(Operator, "=")] == [Token(Operator, "=")];
    ScanSkip(s, 2, [Token(Operator, "=")]);
    LexEq1From1();
  }

  lemma LexEq1From1()
    ensures Scan(" = 1", 3, [Token(Operator, "=")]) == Ok([Token(Operator, "="), Token(Literal, "1")])
  {
    var s: seq<Byte> := " = 1";
    NumberStep(s, 3, 4);
    assert s[3..4] == "1";
    ScanEmit(s, 3, [Token(Operator, "=")], Token(Literal, "1"), 4);
    assert [Token(Operator, "=")] + [Token(Literal, "1")] == [Token(Operator, "="), Token(Literal, "1")];
  }

  lemma LexEq1()
    ensures Lex(" = 1") == Ok([Token(Operator, "="), Token(Literal, "1")])
  {
    var s: seq<Byte> := " = 1";
    ScanSkip(s, 0, []);
    LexEq1From0();
  }

  lemma UpdateTextUpTo1()
    ensures Concat(UpdatePieces[..1]) == "UPDATE"
  {
    assert UpdatePieces[..1][..0] == [];
  }

  lemma UpdateUpTo1()
    ensures Lex(Concat(UpdatePieces[..1])) == Ok(Concat(UpdateGroups[..1]))
  {
    WordPiece([], "UPDATE");
    assert WordKind("UPDATE") == Keyword;
    assert UpdatePieces[0] == "UPDATE" && UpdateGroups[0] == [Token(Keyword, "UPDATE")];
    assert Concat(UpdatePieces[..1]) == UpdatePieces[0] by {
      assert UpdatePieces[..1][..0] == [];
    }
    assert Concat(UpdateGroups[..1]) == UpdateGroups[0] by {
      assert UpdateGroups[..1][..0] == [];
    }
  }

  lemma UpdateTextUpTo2()
    ensures Concat(UpdatePieces[..2]) == "UPDATE users"
  {
    UpdateTextUpTo1();
    assert UpdatePieces[..2][..1] == UpdatePieces[..1];
    assert "UPDATE" + " users" == "UPDATE users";
  }

  lemma UpdateUpTo2()
    ensures Lex(Concat(UpdatePieces[..2])) == Ok(Concat(UpdateGroups[..2]))
  {
    WordPiece(" ", "users");
    assert WordKind("users") == Identifier;
    assert " " + "users" == " users";
    assert UpdatePieces[1] == " users" && UpdateGroups[1] == [Token(Identifier, "users")];
    UpdateUpTo1();
    assert UpdatePieces[..2][..1] == UpdatePieces[..1];
    assert UpdateGroups[..2][..1] == UpdateGroups[..1];
    LexAppend(Concat(UpdatePieces[..1]), UpdatePieces[1], Concat(UpdateGroups[..1]), UpdateGroups[1]);
  }

  lemma UpdateTextUpTo3()
    ensures Concat(UpdatePieces[..3]) == "UPDATE users SET"
  {
    UpdateTextUpTo2();
    assert UpdatePieces[..3][..2] == UpdatePieces[..2];
    assert "UPDATE users" + " SET" == "UPDATE users SET";
  }

  lemma UpdateUpTo3()
    ensures Lex(Concat(UpdatePieces[..3])) == Ok(Concat(UpdateGroups[..3]))
  {
    WordPiece(" ", "SET");
    assert WordKind("SET") == Keyword;
    assert " " + "SET" == " SET";
    assert UpdatePieces[2] == " SET" && UpdateGroups[2] == [Token(Keyword, "SET")];
    UpdateUpTo2();
    assert UpdatePieces[..3][..2] == UpdatePieces[..2];
    assert UpdateGroups[..3][..2] == UpdateGroups[..2];
    LexAppend(Concat(UpdatePieces[..2]), UpdatePieces[2], Concat(UpdateGroups[..2]), UpdateGroups[2]);
  }

  lemma UpdateTextUpTo4()
    ensures Concat(UpdatePieces[..4]) == "UPDATE users SET name"
  {
    UpdateTextUpTo3();
    assert UpdatePieces[..4][..3] == UpdatePieces[..3];
    assert "UPDATE users SET" + " name" == "UPDATE users SET name";
  }

  lemma UpdateUpTo4()
    ensures Lex(Concat(UpdatePieces[..4])) == Ok(Concat(UpdateGroups[..4]))
  {
    WordPiece(" ", "name");
    assert WordKind("name") == Identifier;
    assert " " + "name" == " name";
    assert UpdatePieces[3] == " name" && UpdateGroups[3] == [Token(Identifier, "name")];
    UpdateUpTo3();
    assert UpdatePieces[..4][..3] == UpdatePieces[..3];
    assert UpdateGroups[..4][..3] == UpdateGroups[..3];
    LexAppend(Concat(UpdatePieces[..3]), UpdatePieces[3], Concat(UpdateGroups[..3]), UpdateGroups[3]);
  }

  lemma UpdateTextUpTo5()
    ensures Concat(UpdatePieces[..5]) == "UPDATE users SET name = \"marty\""
  {
    UpdateTextUpTo4();
    assert UpdatePieces[..5][..4] == UpdatePieces[..4];
    assert "UPDATE users SET name" + " = \"marty\"" == "UPDATE users SET name = \"marty\"";
  }

  lemma UpdateUpTo5()
    ensures Lex(Concat(UpdatePieces[..5])) == Ok(Concat(UpdateGroups[..5]))
  {
    LexEqQuoteMartyQuote();
    assert UpdatePieces[4] == " = \"marty\"" && UpdateGroups[4] == [Token(Operator, "="), Token(Literal, "marty")];
    UpdateUpTo4();
    assert UpdatePieces[..5][..4] == UpdatePieces[..4];
    assert UpdateGroups[..5][..4] == UpdateGroups[..4];
    LexAppend(Concat(UpdatePieces[..4]), UpdatePieces[4], Concat(UpdateGroups[..4]), UpdateGroups[4]);
  }

  lemma UpdateTextUpTo6()
    ensures Concat(UpdatePieces[..6]) == "UPDATE users SET name = \"marty\" WHERE"
  {
    UpdateTextUpTo5();
    assert UpdatePieces[..6][..5] == UpdatePieces[..5];
    assert "UPDATE users SET name = \"marty\"" + " WHERE" == "UPDATE users SET name = \"marty\" WHERE";
  }

  lemma UpdateUpTo6()
    ensures Lex(Concat(UpdatePieces[..6])) == Ok(Concat(UpdateGroups[..6]))
  {
    WordPiece(" ", "WHERE");
    assert WordKind("WHERE") == Keyword;
    assert " " + "WHERE" == " WHERE";
    assert UpdatePieces[5] == " WHERE" && UpdateGroups[5] == [Token(Keyword, "WHERE")];
    UpdateUpTo5();
    assert UpdatePieces[..6][..5] == UpdatePieces[..5];
    assert UpdateGroups[..6][..5] == UpdateGroups[..5];
    LexAppend(Concat(UpdatePieces[..5]), UpdatePieces[5], Concat(UpdateGroups[..5]), UpdateGroups[5]);
  }

  lemma UpdateTextUpTo7()
    ensures Concat(UpdatePieces[..7]) == "UPDATE users SET name = \"marty\" WHERE id"
  {
    UpdateTextUpTo6();
    assert UpdatePieces[..7][..6] == UpdatePieces[..6];
    assert "UPDATE users SET name = \"marty\" WHERE" + " id" == "UPDATE users SET name = \"marty\" WHERE id";
  }

  lemma UpdateUpTo7()
    ensures Lex(Concat(UpdatePieces[..7])) == Ok(Concat(UpdateGroups[..7]))
  {
    WordPiece(" ", "id");
    assert WordKind("id") == Identifier;
    assert " " + "id" == " id";
    assert UpdatePieces[6] == " id" && UpdateGroups[6] == [Token(Identifier, "id")];
    UpdateUpTo6();
    assert UpdatePieces[..7][..6] == UpdatePieces[..6];
    assert UpdateGroups[..7][..6] == UpdateGroups[..6];
    LexAppend(Concat(UpdatePieces[..6]), UpdatePieces[6], Concat(UpdateGroups[..6]), UpdateGroups[6]);
  }

  lemma UpdateTextUpTo8()
    ensures Concat(UpdatePieces[..8]) == "UPDATE users SET name = \"marty\" WHERE id = 1"
  {
    UpdateTextUpTo7();
    assert UpdatePieces[..8][..7] == UpdatePieces[..7];
    assert "UPDATE users SET name = \"marty\" WHERE id" + " = 1" == "UPDATE users SET name = \"marty\" WHERE id = 1";
  }

  lemma UpdateUpTo8()
    ensures Lex(Concat(UpdatePieces[..8])) == Ok(Concat(UpdateGroups[..8]))
  {
    LexEq1();
    assert UpdatePieces[7] == " = 1" && UpdateGroups[7] == [Token(Operator, "="), Token(Literal, "1")];
    UpdateUpTo7();
    assert UpdatePieces[..8][..7] == UpdatePieces[..7];
    assert UpdateGroups[..8][..7] == UpdateGroups[..7];
    LexAppend(Concat(UpdatePieces[..7]), UpdatePieces[7], Concat(UpdateGroups[..7]), UpdateGroups[7]);
  }

  lemma UpdateExample()
    ensures Concat(UpdatePieces) == "UPDATE users SET name = \"marty\" WHERE id = 1"
    ensures Lex("UPDATE users SET name = \"marty\" WHERE id = 1") == Ok(Concat(UpdateGroups))
  {
    UpdateUpTo8();
    UpdateTextUpTo8();
    assert UpdatePieces[..8] == UpdatePieces && UpdateGroups[..8] == UpdateGroups;
  }

  /** The simplest query. */
  const SimplePieces: seq<seq<Byte>> := ["SELECT", " id", " FROM", " users"]

  const SimpleGroups: seq<seq<Token>> := [[Token(Keyword, "SELECT")], [Token(Identifier, "id")], [Token(Keyword, "FROM")], [Token(Identifier, "users")]]

  lemma SimpleTextUpTo1()
    ensures Concat(SimplePieces[..1]) == "SELECT"
  {
    assert SimplePieces[..1][..0] == [];
  }

  lemma SimpleUpTo1()
    ensures Lex(Concat(SimplePieces[..1])) == Ok(Concat(SimpleGroups[..1]))
  {
    WordPiece([], "SELECT");
    assert WordKind("SELECT") == Keyword;
    assert SimplePieces[0] == "SELECT" && SimpleGroups[0] == [Token(Keyword, "SELECT")];
    assert Concat(SimplePieces[..1]) == SimplePieces[0] by {
      assert SimplePieces[..1][..0] == [];
    }
    assert Concat(SimpleGroups[..1]) == SimpleGroups[0] by {
      assert SimpleGroups[..1][..0] == [];
    }
  }

  lemma SimpleTextUpTo2()
    ensures Concat(SimplePieces[..2]) == "SELECT id"
  {
    SimpleTextUpTo1();
    assert SimplePieces[..2][..1] == SimplePieces[..1];
    assert "SELECT" + " id" == "SELECT id";
  }

  lemma SimpleUpTo2()
    ensures Lex(Concat(SimplePieces[..2])) == Ok(Concat(SimpleGroups[..2]))
  {
    WordPiece(" ", "id");
    assert WordKind("id") == Identifier;
    assert " " + "id" == " id";
    assert SimplePieces[1] == " id" && SimpleGroups[1] == [Token(Identifier, "id")];
    SimpleUpTo1();
    assert SimplePieces[..2][..1] == SimplePieces[..1];
    assert SimpleGroups[..2][..1] == SimpleGroups[..1];
    LexAppend(Concat(SimplePieces[..1]), SimplePieces[1], Concat(SimpleGroups[..1]), SimpleGroups[1]);
  }

  lemma SimpleTextUpTo3()
    ensures Concat(SimplePieces[..3]) == "SELECT id FROM"
  {
    SimpleTextUpTo2();
    assert SimplePieces[..3][..2] == SimplePieces[..2];
    assert "SELECT id" + " FROM" == "SELECT id FROM";
  }

  lemma SimpleUpTo3()
    ensures Lex(Concat(SimplePieces[..3])) == Ok(Concat(SimpleGroups[..3]))
  {
    WordPiece(" ", "FROM");
    assert WordKind("FROM") == Keyword;
    assert " " + "FROM" == " FROM";
    assert SimplePieces[2] == " FROM" && SimpleGroups[2] == [Token(Keyword, "FROM")];
    SimpleUpTo2();
    assert SimplePieces[..3][..2] == SimplePieces[..2];
    assert SimpleGroups[..3][..2] == SimpleGroups[..2];
    LexAppend(Concat(SimplePieces[..2]), SimplePieces[2], Concat(SimpleGroups[..2]), SimpleGroups[2]);
  }

  lemma SimpleTextUpTo4()
    ensures Concat(SimplePieces[..4]) == "SELECT id FROM users"
  {
    SimpleTextUpTo3();
    assert SimplePieces[..4][..3] == SimplePieces[..3];
    assert "SELECT id FROM" + " users" == "SELECT id FROM users";
  }

  lemma SimpleUpTo4()
    ensures Lex(Concat(SimplePieces[..4])) == Ok(Concat(SimpleGroups[..4]))
  {
    WordPiece(" ", "users");
    assert WordKind("users") == Identifier;
    assert " " + "users" == " users";
    assert SimplePieces[3] == " users" && SimpleGroups[3] == [Token(Identifier, "users")];
    SimpleUpTo3();
    assert SimplePieces[..4][..3] == SimplePieces[..3];
    assert SimpleGroups[..4][..3] == SimpleGroups[..3];
    LexAppend(Concat(SimplePieces[..3]), SimplePieces[3], Concat(SimpleGroups[..3]), SimpleGroups[3]);
  }

  lemma SimpleExample()
    ensures Concat(SimplePieces) == "SELECT id FROM users"
    ensures Lex("SELECT id FROM users") == Ok(Concat(SimpleGroups))
  {
    SimpleUpTo4();
    SimpleTextUpTo4();
    assert SimplePieces[..4] == SimplePieces && SimpleGroups[..4] == SimpleGroups;
  }

  /** A query ended by a semicolon. */
  const SemicolonPieces: seq<seq<Byte>> := ["SELECT", " id", " FROM", " users;"]

  const SemicolonGroups: seq<seq<Token>> := [[Token(Keyword, "SELECT")], [Token(Identifier, "id")], [Token(Keyword, "FROM")], [Token(Identifier, "users"), Token(Symbol, ";")]]

  lemma LexUsersSemiFrom0()
    ensures Scan(" users;", 1, []) == Ok([Token(Identifier, "users"), Token(Symbol, ";")])
  {
    var s: seq<Byte> := " users;";
    WordStep(s, 1, 6);
    assert s[1..6] == "users";
    ScanEmit(s, 1, [], Token(Identifier, "users"), 6);
    assert [] + [Token(Identifier, "users")] == [Token(Identifier, "users")];
    LexUsersSemiFrom1();
  }

  lemma LexUsersSemiFrom1()
    ensures Scan(" users;", 6, [Token(Identifier, "users")]) == Ok([Token(Identifier, "users"), Token(Symbol, ";")])
  {
    var s: seq<Byte> := " users;";
    ScanEmit(s, 6, [Token(Identifier, "users")], Token(Symbol, ";"), 7);
    assert [Token(Identifier, "users")] + [Token(Symbol, ";")] == [Token(Identifier, "users"), Token(Symbol, ";")];
  }

  lemma LexUsersSemi()
    ensures Lex(" users;") == Ok([Token(Identifier, "users"), Token(Symbol, ";")])
  {
    var s: seq<Byte> := " users;";
    ScanSkip(s, 0, []);
    LexUsersSemiFrom0();
  }

  lemma SemicolonTextUpTo1()
    ensures Concat(SemicolonPieces[..1]) == "SELECT"
  {
    assert SemicolonPieces[..1][..0] == [];
  }

  lemma SemicolonUpTo1()
    ensures Lex(Concat(SemicolonPieces[..1])) == Ok(Concat(SemicolonGroups[..1]))
  {
    WordPiece([], "SELECT");
    assert WordKind("SELECT") == Keyword;
    assert SemicolonPieces[0] == "SELECT" && SemicolonGroups[0] == [Token(Keyword, "SELECT")];
    assert Concat(SemicolonPieces[..1]) == SemicolonPieces[0] by {
      assert SemicolonPieces[..1][..0] == [];
    }
    assert Concat(SemicolonGroups[..1]) == SemicolonGroups[0] by {
      assert SemicolonGroups[..1][..0] == [];
    }
  }

  lemma SemicolonTextUpTo2()
    ensures Concat(SemicolonPieces[..2]) == "SELECT id"
  {
    SemicolonTextUpTo1();
    assert SemicolonPieces[..2][..1] == SemicolonPieces[..1];
    assert "SELECT" + " id" == "SELECT id";
  }

  lemma SemicolonUpTo2()
    ensures Lex(Concat(SemicolonPieces[..2])) == Ok(Concat(SemicolonGroups[..2]))
  {
    WordPiece(" ", "id");
    assert WordKind("id") == Identifier;
    assert " " + "id" == " id";
    assert SemicolonPieces[1] == " id" && SemicolonGroups[1] == [Token(Identifier, "id")];
    SemicolonUpTo1();
    assert SemicolonPieces[..2][..1] == SemicolonPieces[..1];
    assert SemicolonGroups[..2][..1] == SemicolonGroups[..1];
    LexAppend(Concat(SemicolonPieces[..1]), SemicolonPieces[1], Concat(SemicolonGroups[..1]), SemicolonGroups[1]);
  }

  lemma SemicolonTextUpTo3()
    ensures Concat(SemicolonPieces[..3]) == "SELECT id FROM"
  {
    SemicolonTextUpTo2();
    assert SemicolonPieces[..3][..2] == SemicolonPieces[..2];
    assert "SELECT id" + " FROM" == "SELECT id FROM";
  }

  lemma SemicolonUpTo3()
    ensures Lex(Concat(SemicolonPieces[..3])) == Ok(Concat(SemicolonGroups[..3]))
  {
    WordPiece(" ", "FROM");
    assert WordKind("FROM") == Keyword;
    assert " " + "FROM" == " FROM";
    assert SemicolonPieces[2] == " FROM" && SemicolonGroups[2] == [Token(Keyword, "FROM")];
    SemicolonUpTo2();
    assert SemicolonPieces[..3][..2] == SemicolonPieces[..2];
    assert SemicolonGroups[..3][..2] == SemicolonGroups[..2];
    LexAppend(Concat(SemicolonPieces[..2]), SemicolonPieces[2], Concat(SemicolonGroups[..2]), SemicolonGroups[2]);
  }

  lemma SemicolonTextUpTo4()
    ensures Concat(SemicolonPieces[..4]) == "SELECT id FROM users;"
  {
    SemicolonTextUpTo3();
    assert SemicolonPieces[..4][..3] == SemicolonPieces[..3];
    assert "SELECT id FROM" + " users;" == "SELECT id FROM users;";
  }

  lemma SemicolonUpTo4()
    ensures Lex(Concat(SemicolonPieces[..4])) == Ok(Concat(SemicolonGroups[..4]))
  {
    LexUsersSemi();
    assert SemicolonPieces[3] == " users;" && SemicolonGroups[3] == [Token(Identifier, "users"), Token(Symbol, ";")];
    SemicolonUpTo3();
    assert SemicolonPieces[..4][..3] == SemicolonPieces[..3];
    assert SemicolonGroups[..4][..3] == SemicolonGroups[..3];
    LexAppend(Concat(SemicolonPieces[..3]), SemicolonPieces[3], Concat(SemicolonGroups[..3]), SemicolonGroups[3]);
  }

  lemma SemicolonExample()
    ensures Concat(SemicolonPieces) == "SELECT id FROM users;"
    ensures Lex("SELECT id FROM users;") == Ok(Concat(SemicolonGroups))
  {
    SemicolonUpTo4();
    SemicolonTextUpTo4();
    assert SemicolonPieces[..4] == SemicolonPieces && SemicolonGroups[..4] == SemicolonGroups;
  }

  /** A WHERE clause with one condition. */
  const WherePieces: seq<seq<Byte>> := ["SELECT", " id", " FROM", " users", " WHERE", " id", " = 1"]

  const WhereGroups: seq<seq<Token>> := [[Token(Keyword, "SELECT")], [Token(Identifier, "id")], [Token(Keyword, "FROM")], [Token(Identifier, "users")], [Token(Keyword, "WHERE")], [Token(Identifier, "id")], [Token(Operator, "="), Token(Literal, "1")]]

  lemma WhereTextUpTo1()
    ensures Concat(WherePieces[..1]) == "SELECT"
  {
    assert WherePieces[..1][..0] == [];
  }

  lemma WhereUpTo1()
    ensures Lex(Concat(WherePieces[..1])) == Ok(Concat(WhereGroups[..1]))
  {
    WordPiece([], "SELECT");
    assert WordKind("SELECT") == Keyword;
    assert WherePieces[0] == "SELECT" && WhereGroups[0] == [Token(Keyword, "SELECT")];
    assert Concat(WherePieces[..1]) == WherePieces[0] by {
      assert WherePieces[..1][..0] == [];
    }
    assert Concat(WhereGroups[..1]) == WhereGroups[0] by {
      assert WhereGroups[..1][..0] == [];
    }
  }

  lemma WhereTextUpTo2()
    ensures Concat(WherePieces[..2]) == "SELECT id"
  {
    WhereTextUpTo1();
    assert WherePieces[..2][..1] == WherePieces[..1];
    assert "SELECT" + " id" == "SELECT id";
  }

  lemma WhereUpTo2()
    ensures Lex(Concat(WherePieces[..2])) == Ok(Concat(WhereGroups[..2]))
  {
    WordPiece(" ", "id");
    assert WordKind("id") == Identifier;
    assert " " + "id" == " id";
    assert WherePieces[1] == " id" && WhereGroups[1] == [Token(Identifier, "id")];
    WhereUpTo1();
    assert WherePieces[..2][..1] == WherePieces[..1];
    assert WhereGroups[..2][..1] == WhereGroups[..1];
    LexAppend(Concat(WherePieces[..1]), WherePieces[1], Concat(WhereGroups[..1]), WhereGroups[1]);
  }

  lemma WhereTextUpTo3()
    ensures Concat(WherePieces[..3]) == "SELECT id FROM"
  {
    WhereTextUpTo2();
    assert WherePieces[..3][..2] == WherePieces[..2];
    assert "SELECT id" + " FROM" == "SELECT id FROM";
  }

  lemma WhereUpTo3()
    ensures Lex(Concat(WherePieces[..3])) == Ok(Concat(WhereGroups[..3]))
  {
    WordPiece(" ", "FROM");
    assert WordKind("FROM") == Keyword;
    assert " " + "FROM" == " FROM";
    assert WherePieces[2] == " FROM" && WhereGroups[2] == [Token(Keyword, "FROM")];
    WhereUpTo2();
    assert WherePieces[..3][..2] == WherePieces[..2];
    assert WhereGroups[..3][..2] == WhereGroups[..2];
    LexAppend(Concat(WherePieces[..2]), WherePieces[2], Concat(WhereGroups[..2]), WhereGroups[2]);
  }

  lemma WhereTextUpTo4()
    ensures Concat(WherePieces[..4]) == "SELECT id FROM users"
  {
    WhereTextUpTo3();
    assert WherePieces[..4][..3] == WherePieces[..3];
    assert "SELECT id FROM" + " users" == "SELECT id FROM users";
  }

  lemma WhereUpTo4()
    ensures Lex(Concat(WherePieces[..4])) == Ok(Concat(WhereGroups[..4]))
  {
    WordPiece(" ", "users");
    assert WordKind("users") == Identifier;
    assert " " + "users" == " users";
    assert WherePieces[3] == " users" && WhereGroups[3] == [Token(Identifier, "users")];
    WhereUpTo3();
    assert WherePieces[..4][..3] == WherePieces[..3];
    assert WhereGroups[..4][..3] == WhereGroups[..3];
    LexAppend(Concat(WherePieces[..3]), WherePieces[3], Concat(WhereGroups[..3]), WhereGroups[3]);
  }

  lemma WhereTextUpTo5()
    ensures Concat(WherePieces[..5]) == "SELECT id FROM users WHERE"
  {
    WhereTextUpTo4();
    assert WherePieces[..5][..4] == WherePieces[..4];
    assert "SELECT id FROM users" + " WHERE" == "SELECT id FROM users WHERE";
  }

  lemma WhereUpTo5()
    ensures Lex(Concat(WherePieces[..5])) == Ok(Concat(WhereGroups[..5]))
  {
    WordPiece(" ", "WHERE");
    assert WordKind("WHERE") == Keyword;
    assert " " + "WHERE" == " WHERE";
    assert WherePieces[4] == " WHERE" && WhereGroups[4] == [Token(Keyword, "WHERE")];
    WhereUpTo4();
    assert WherePieces[..5][..4] == WherePieces[..4];
    assert WhereGroups[..5][..4] == WhereGroups[..4];
    LexAppend(Concat(WherePieces[..4]), WherePieces[4], Concat(WhereGroups[..4]), WhereGroups[4]);
  }

  lemma WhereTextUpTo6()
    ensures Concat(WherePieces[..6]) == "SELECT id FROM users WHERE id"
  {
    WhereTextUpTo5();
    assert WherePieces[..6][..5] == WherePieces[..5];
    assert "SELECT id FROM users WHERE" + " id" == "SELECT id FROM users WHERE id";
  }

  lemma WhereUpTo6()
    ensures Lex(Concat(WherePieces[..6])) == Ok(Concat(WhereGroups[..6]))
  {
    WordPiece(" ", "id");
    assert WordKind("id") == Identifier;
    assert " " + "id" == " id";
    assert WherePieces[5] == " id" && WhereGroups[5] == [Token(Identifier, "id")];
    WhereUpTo5();
    assert WherePieces[..6][..5] == WherePieces[..5];
    assert WhereGroups[..6][..5] == WhereGroups[..5];
    LexAppend(Concat(WherePieces[..5]), WherePieces[5], Concat(WhereGroups[..5]), WhereGroups[5]);
  }

  lemma WhereTextUpTo7()
    ensures Concat(WherePieces[..7]) == "SELECT id FROM users WHERE id = 1"
  {
    WhereTextUpTo6();
    assert WherePieces[..7][..6] == WherePieces[..6];
    assert "SELECT id FROM users WHERE id" + " = 1" == "SELECT id FROM users WHERE id = 1";
  }

  lemma WhereUpTo7()
    ensures Lex(Concat(WherePieces[..7])) == Ok(Concat(WhereGroups[..7]))
  {
    LexEq1();
    assert WherePieces[6] == " = 1" && WhereGroups[6] == [Token(Operator, "="), Token(Literal, "1")];
    WhereUpTo6();
    assert WherePieces[..7][..6] == WherePieces[..6];
    assert WhereGroups[..7][..6] == WhereGroups[..6];
    LexAppend(Concat(WherePieces[..6]), WherePieces[6], Concat(WhereGroups[..6]), WhereGroups[6]);
  }

  lemma WhereExample()
    ensures Concat(WherePieces) == "SELECT id FROM users WHERE id = 1"
    ensures Lex("SELECT id FROM users WHERE id = 1") == Ok(Concat(WhereGroups))
  {
    WhereUpTo7();
    WhereTextUpTo7();
    assert WherePieces[..7] == WherePieces && WhereGroups[..7] == WhereGroups;
  }

  /** A WHERE clause joined by OR. */
  const DisjunctionPieces: seq<seq<Byte>> := ["SELECT", " id", " FROM", " users", " WHERE", " name", " = \"marty\"", " OR", " age", " = 18"]

  const DisjunctionGroups: seq<seq<Token>> := [[Token(Keyword, "SELECT")], [Token(Identifier, "id")], [Token(Keyword, "FROM")], [Token(Identifier, "users")], [Token(Keyword, "WHERE")], [Token(Identifier, "name")], [Token(Operator, "="), Token(Literal, "marty")], [Token(Operator, "OR")], [Token(Identifier, "age")], [Token(Operator, "="), Token(Literal, "18")]]

  lemma DisjunctionTextUpTo1()
    ensures Concat(DisjunctionPieces[..1]) == "SELECT"
  {
    assert DisjunctionPieces[..1][..0] == [];
  }

  lemma DisjunctionUpTo1()
    ensures Lex(Concat(DisjunctionPieces[..1])) == Ok(Concat(DisjunctionGroups[..1]))
  {
    WordPiece([], "SELECT");
    assert WordKind("SELECT") == Keyword;
    assert DisjunctionPieces[0] == "SELECT" && DisjunctionGroups[0] == [Token(Keyword, "SELECT")];
    assert Concat(DisjunctionPieces[..1]) == DisjunctionPieces[0] by {
      assert DisjunctionPieces[..1][..0] == [];
    }
    assert Concat(DisjunctionGroups[..1]) == DisjunctionGroups[0] by {
      assert DisjunctionGroups[..1][..0] == [];
    }
  }

  lemma DisjunctionTextUpTo2()
    ensures Concat(DisjunctionPieces[..2]) == "SELECT id"
  {
    DisjunctionTextUpTo1();
    assert DisjunctionPieces[..2][..1] == DisjunctionPieces[..1];
    assert "SELECT" + " id" == "SELECT id";
  }

  lemma DisjunctionUpTo2()
    ensures Lex(Concat(DisjunctionPieces[..2])) == Ok(Concat(DisjunctionGroups[..2]))
  {
    WordPiece(" ", "id");
    assert WordKind("id") == Identifier;
    assert " " + "id" == " id";
    assert DisjunctionPieces[1] == " id" && DisjunctionGroups[1] == [Token(Identifier, "id")];
    DisjunctionUpTo1();
    assert DisjunctionPieces[..2][..1] == DisjunctionPieces[..1];
    assert DisjunctionGroups[..2][..1] == DisjunctionGroups[..1];
    LexAppend(Concat(DisjunctionPieces[..1]), DisjunctionPieces[1], Concat(DisjunctionGroups[..1]), DisjunctionGroups[1]);
  }

  lemma DisjunctionTextUpTo3()
    ensures Concat(DisjunctionPieces[..3]) == "SELECT id FROM"
  {
    DisjunctionTextUpTo2();
    assert DisjunctionPieces[..3][..2] == DisjunctionPieces[..2];
    assert "SELECT id" + " FROM" == "SELECT id FROM";
  }

  lemma DisjunctionUpTo3()
    ensures Lex(Concat(DisjunctionPieces[..3])) == Ok(Concat(DisjunctionGroups[..3]))
  {
    WordPiece(" ", "FROM");
    assert WordKind("FROM") == Keyword;
    assert " " + "FROM" == " FROM";
    assert DisjunctionPieces[2] == " FROM" && DisjunctionGroups[2] == [Token(Keyword, "FROM")];
    DisjunctionUpTo2();
    assert DisjunctionPieces[..3][..2] == DisjunctionPieces[..2];
    assert DisjunctionGroups[..3][..2] == DisjunctionGroups[..2];
    LexAppend(Concat(DisjunctionPieces[..2]), DisjunctionPieces[2], Concat(DisjunctionGroups[..2]), DisjunctionGroups[2]);
  }

  lemma DisjunctionTextUpTo4()
    ensures Concat(DisjunctionPieces[..4]) == "SELECT id FROM users"
  {
    DisjunctionTextUpTo3();
    assert DisjunctionPieces[..4][..3] == DisjunctionPieces[..3];
    assert "SELECT id FROM" + " users" == "SELECT id FROM users";
  }

  lemma DisjunctionUpTo4()
    ensures Lex(Concat(DisjunctionPieces[..4])) == Ok(Concat(DisjunctionGroups[..4]))
  {
    WordPiece(" ", "users");
    assert WordKind("users") == Identifier;
    assert " " + "users" == " users";
    assert DisjunctionPieces[3] == " users" && DisjunctionGroups[3] == [Token(Identifier, "users")];
    DisjunctionUpTo3();
    assert DisjunctionPieces[..4][..3] == DisjunctionPieces[..3];
    assert DisjunctionGroups[..4][..3] == DisjunctionGroups[..3];
    LexAppend(Concat(DisjunctionPieces[..3]), DisjunctionPieces[3], Concat(DisjunctionGroups[..3]), DisjunctionGroups[3]);
  }

  lemma DisjunctionTextUpTo5()
    ensures Concat(DisjunctionPieces[..5]) == "SELECT id FROM users WHERE"
  {
    DisjunctionTextUpTo4();
    assert DisjunctionPieces[..5][..4] == DisjunctionPieces[..4];
    assert "SELECT id FROM users" + " WHERE" == "SELECT id FROM users WHERE";
  }

  lemma DisjunctionUpTo5()
    ensures Lex(Concat(DisjunctionPieces[..5])) == Ok(Concat(DisjunctionGroups[..5]))
  {
    WordPiece(" ", "WHERE");
    assert WordKind("WHERE") == Keyword;
    assert " " + "WHERE" == " WHERE";
    assert DisjunctionPieces[4] == " WHERE" && DisjunctionGroups[4] == [Token(Keyword, "WHERE")];
    DisjunctionUpTo4();
    assert DisjunctionPieces[..5][..4] == DisjunctionPieces[..4];
    assert DisjunctionGroups[..5][..4] == DisjunctionGroups[..4];
    LexAppend(Concat(DisjunctionPieces[..4]), DisjunctionPieces[4], Concat(DisjunctionGroups[..4]), DisjunctionGroups[4]);
  }

  lemma DisjunctionTextUpTo6()
    ensures Concat(DisjunctionPieces[..6]) == "SELECT id FROM users WHERE name"
  {
    DisjunctionTextUpTo5();
    assert DisjunctionPieces[..6][..5] == DisjunctionPieces[..5];
    assert "SELECT id FROM users WHERE" + " name" == "SELECT id FROM users WHERE name";
  }

  lemma DisjunctionUpTo6()
    ensures Lex(Concat(DisjunctionPieces[..6])) == Ok(Concat(DisjunctionGroups[..6]))
  {
    WordPiece(" ", "name");
    assert WordKind("name") == Identifier;
    assert " " + "name" == " name";
    assert DisjunctionPieces[5] == " name" && DisjunctionGroups[5] == [Token(Identifier, "name")];
    DisjunctionUpTo5();
    assert DisjunctionPieces[..6][..5] == DisjunctionPieces[..5];
    assert DisjunctionGroups[..6][..5] == DisjunctionGroups[..5];
    LexAppend(Concat(DisjunctionPieces[..5]), DisjunctionPieces[5], Concat(DisjunctionGroups[..5]), DisjunctionGroups[5]);
  }

  lemma DisjunctionTextUpTo7()
    ensures Concat(DisjunctionPieces[..7]) == "SELECT id FROM users WHERE name = \"marty\""
  {
    DisjunctionTextUpTo6();
    assert DisjunctionPieces[..7][..6] == DisjunctionPieces[..6];
    assert "SELECT id FROM users WHERE name" + " = \"marty\"" == "SELECT id FROM users WHERE name = \"marty\"";
  }

  lemma DisjunctionUpTo7()
    ensures Lex(Concat(DisjunctionPieces[..7])) == Ok(Concat(DisjunctionGroups[..7]))
  {
    LexEqQuoteMartyQuote();
    assert DisjunctionPieces[6] == " = \"marty\"" && DisjunctionGroups[6] == [Token(Operator, "="), Token(Literal, "marty")];
    DisjunctionUpTo6();
    assert DisjunctionPieces[..7][..6] == DisjunctionPieces[..6];
    assert DisjunctionGroups[..7][..6] == DisjunctionGroups[..6];
    LexAppend(Concat(DisjunctionPieces[..6]), DisjunctionPieces[6], Concat(DisjunctionGroups[..6]), DisjunctionGroups[6]);
  }

  lemma DisjunctionTextUpTo8()
    ensures Concat(DisjunctionPieces[..8]) == "SELECT id FROM users WHERE name = \"marty\" OR"
  {
    DisjunctionTextUpTo7();
    assert DisjunctionPieces[..8][..7] == DisjunctionPieces[..7];
    assert "SELECT id FROM users WHERE name = \"marty\"" + " OR" == "SELECT id FROM users WHERE name = \"marty\" OR";
  }

  lemma DisjunctionUpTo8()
    ensures Lex(Concat(DisjunctionPieces[..8])) == Ok(Concat(DisjunctionGroups[..8]))
  {
    WordPiece(" ", "OR");
    assert WordKind("OR") == Operator;
    assert " " + "OR" == " OR";
    assert DisjunctionPieces[7] == " OR" && DisjunctionGroups[7] == [Token(Operator, "OR")];
    DisjunctionUpTo7();
    assert DisjunctionPieces[..8][..7] == DisjunctionPieces[..7];
    assert DisjunctionGroups[..8][..7] == DisjunctionGroups[..7];
    LexAppend(Concat(DisjunctionPieces[..7]), DisjunctionPieces[7], Concat(DisjunctionGroups[..7]), DisjunctionGroups[7]);
  }

  lemma DisjunctionTextUpTo9()
    ensures Concat(DisjunctionPieces[..9]) == "SELECT id FROM users WHERE name = \"marty\" OR age"
  {
    DisjunctionTextUpTo8();
    assert DisjunctionPieces[..9][..8] == DisjunctionPieces[..8];
    assert "SELECT id FROM users WHERE name = \"marty\" OR" + " age" == "SELECT id FROM users WHERE name = \"marty\" OR age";
  }

  lemma DisjunctionUpTo9()
    ensures Lex(Concat(DisjunctionPieces[..9])) == Ok(Concat(DisjunctionGroups[..9]))
  {
    WordPiece(" ", "age");
    assert WordKind("age") == Identifier;
    assert " " + "age" == " age";
    assert DisjunctionPieces[8] == " age" && DisjunctionGroups[8] == [Token(Identifier, "age")];
    DisjunctionUpTo8();
    assert DisjunctionPieces[..9][..8] == DisjunctionPieces[..8];
    assert DisjunctionGroups[..9][..8] == DisjunctionGroups[..8];
    LexAppend(Concat(DisjunctionPieces[..8]), DisjunctionPieces[8], Concat(DisjunctionGroups[..8]), DisjunctionGroups[8]);
  }

  lemma DisjunctionTextUpTo10()
    ensures Concat(DisjunctionPieces[..10]) == "SELECT id FROM users WHERE name = \"marty\" OR age = 18"
  {
    DisjunctionTextUpTo9();
    assert DisjunctionPieces[..10][..9] == DisjunctionPieces[..9];
    assert "SELECT id FROM users WHERE name = \"marty\" OR age" + " = 18" == "SELECT id FROM users WHERE name = \"marty\" OR age = 18";
  }

  lemma DisjunctionUpTo10()
    ensures Lex(Concat(DisjunctionPieces[..10])) == Ok(Concat(DisjunctionGroups[..10]))
  {
    LexEq18();
    assert DisjunctionPieces[9] == " = 18" && DisjunctionGroups[9] == [Token(Operator, "="), Token(Literal, "18")];
    DisjunctionUpTo9();
    assert DisjunctionPieces[..10][..9] == DisjunctionPieces[..9];
    assert DisjunctionGroups[..10][..9] == DisjunctionGroups[..9];
    LexAppend(Concat(DisjunctionPieces[..9]), DisjunctionPieces[9], Concat(DisjunctionGroups[..9]), DisjunctionGroups[9]);
  }

  lemma DisjunctionExample()
    ensures Concat(DisjunctionPieces) == "SELECT id FROM users WHERE name = \"marty\" OR age = 18"
    ensures Lex("SELECT id FROM users WHERE name = \"marty\" OR age = 18") == Ok(Concat(DisjunctionGroups))
  {
    DisjunctionUpTo10();
    DisjunctionTextUpTo10();
    assert DisjunctionPieces[..10] == DisjunctionPieces && DisjunctionGroups[..10] == DisjunctionGroups;
  }

  /** A DELETE with a condition. */
  const DeletePieces: seq<seq<Byte>> := ["DELETE", " FROM", " users", " WHERE", " id", " = 1"]

  const DeleteGroups: seq<seq<Token>> := [[Token(Keyword, "DELETE")], [Token(Keyword, "FROM")], [Token(Identifier, "users")], [Token(Keyword, "WHERE")], [Token(Identifier, "id")], [Token(Operator, "="), Token(Literal, "1")]]

  lemma DeleteTextUpTo1()
    ensures Concat(DeletePieces[..1]) == "DELETE"
  {
    assert DeletePieces[..1][..0] == [];
  }

  lemma DeleteUpTo1()
    ensures Lex(Concat(DeletePieces[..1])) == Ok(Concat(DeleteGroups[..1]))
  {
    WordPiece([], "DELETE");
    assert WordKind("DELETE") == Keyword;
    assert DeletePieces[0] == "DELETE" && DeleteGroups[0] == [Token(Keyword, "DELETE")];
    assert Concat(DeletePieces[..1]) == DeletePieces[0] by {
      assert DeletePieces[..1][..0] == [];
    }
    assert Concat(DeleteGroups[..1]) == DeleteGroups[0] by {
      assert DeleteGroups[..1][..0] == [];
    }
  }

  lemma DeleteTextUpTo2()
    ensures Concat(DeletePieces[..2]) == "DELETE FROM"
  {
    DeleteTextUpTo1();
    assert DeletePieces[..2][..1] == DeletePieces[..1];
    assert "DELETE" + " FROM" == "DELETE FROM";
  }

  lemma DeleteUpTo2()
    ensures Lex(Concat(DeletePieces[..2])) == Ok(Concat(DeleteGroups[..2]))
  {
    WordPiece(" ", "FROM");
    assert WordKind("FROM") == Keyword;
    assert " " + "FROM" == " FROM";
    assert DeletePieces[1] == " FROM" && DeleteGroups[1] == [Token(Keyword, "FROM")];
    DeleteUpTo1();
    assert DeletePieces[..2][..1] == DeletePieces[..1];
    assert DeleteGroups[..2][..1] == DeleteGroups[..1];
    LexAppend(Concat(DeletePieces[..1]), DeletePieces[1], Concat(DeleteGroups[..1]), DeleteGroups[1]);
  }

  lemma DeleteTextUpTo3()
    ensures Concat(DeletePieces[..3]) == "DELETE FROM users"
  {
    DeleteTextUpTo2();
    assert DeletePieces[..3][..2] == DeletePieces[..2];
    assert "DELETE FROM" + " users" == "DELETE FROM users";
  }

  lemma DeleteUpTo3()
    ensures Lex(Concat(DeletePieces[..3])) == Ok(Concat(DeleteGroups[..3]))
  {
    WordPiece(" ", "users");
    assert WordKind("users") == Identifier;
    assert " " + "users" == " users";
    assert DeletePieces[2] == " users" && DeleteGroups[2] == [Token(Identifier, "users")];
    DeleteUpTo2();
    assert DeletePieces[..3][..2] == DeletePieces[..2];
    assert DeleteGroups[..3][..2] == DeleteGroups[..2];
    LexAppend(Concat(DeletePieces[..2]), DeletePieces[2], Concat(DeleteGroups[..2]), DeleteGroups[2]);
  }

  lemma DeleteTextUpTo4()
    ensures Concat(DeletePieces[..4]) == "DELETE FROM users WHERE"
  {
    DeleteTextUpTo3();
    assert DeletePieces[..4][..3] == DeletePieces[..3];
    assert "DELETE FROM users" + " WHERE" == "DELETE FROM users WHERE";
  }

  lemma DeleteUpTo4()
    ensures Lex(Concat(DeletePieces[..4])) == Ok(Concat(DeleteGroups[..4]))
  {
    WordPiece(" ", "WHERE");
    assert WordKind("WHERE") == Keyword;
    assert " " + "WHERE" == " WHERE";
    assert DeletePieces[3] == " WHERE" && DeleteGroups[3] == [Token(Keyword, "WHERE")];
    DeleteUpTo3();
    assert DeletePieces[..4][..3] == DeletePieces[..3];
    assert DeleteGroups[..4][..3] == DeleteGroups[..3];
    LexAppend(Concat(DeletePieces[..3]), DeletePieces[3], Concat(DeleteGroups[..3]), DeleteGroups[3]);
  }

  lemma DeleteTextUpTo5()
    ensures Concat(DeletePieces[..5]) == "DELETE FROM users WHERE id"
  {
    DeleteTextUpTo4();
    assert DeletePieces[..5][..4] == DeletePieces[..4];
    assert "DELETE FROM users WHERE" + " id" == "DELETE FROM users WHERE id";
  }

  lemma DeleteUpTo5()
    ensures Lex(Concat(DeletePieces[..5])) == Ok(Concat(DeleteGroups[..5]))
  {
    WordPiece(" ", "id");
    assert WordKind("id") == Identifier;
    assert " " + "id" == " id";
    assert DeletePieces[4] == " id" && DeleteGroups[4] == [Token(Identifier, "id")];
    DeleteUpTo4();
    assert DeletePieces[..5][..4] == DeletePieces[..4];
    assert DeleteGroups[..5][..4] == DeleteGroups[..4];
    LexAppend(Concat(DeletePieces[..4]), DeletePieces[4], Concat(DeleteGroups[..4]), DeleteGroups[4]);
  }

  lemma DeleteTextUpTo6()
    ensures Concat(DeletePieces[..6]) == "DELETE FROM users WHERE id = 1"
  {
    DeleteTextUpTo5();
    assert DeletePieces[..6][..5] == DeletePieces[..5];
    assert "DELETE FROM users WHERE id" + " = 1" == "DELETE FROM users WHERE id = 1";
  }

  lemma DeleteUpTo6()
    ensures Lex(Concat(DeletePieces[..6])) == Ok(Concat(DeleteGroups[..6]))
  {
    LexEq1();
    assert DeletePieces[5] == " = 1" && DeleteGroups[5] == [Token(Operator, "="), Token(Literal, "1")];
    DeleteUpTo5();
    assert DeletePieces[..6][..5] == DeletePieces[..5];
    assert DeleteGroups[..6][..5] == DeleteGroups[..5];
    LexAppend(Concat(DeletePieces[..5]), DeletePieces[5], Concat(DeleteGroups[..5]), DeleteGroups[5]);
  }

  lemma DeleteExample()
    ensures Concat(DeletePieces) == "DELETE FROM users WHERE id = 1"
    ensures Lex("DELETE FROM users WHERE id = 1") == Ok(Concat(DeleteGroups))
  {
    DeleteUpTo6();
    DeleteTextUpTo6();
    assert DeletePieces[..6] == DeletePieces && DeleteGroups[..6] == DeleteGroups;
  }
}
