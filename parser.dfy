/**
 * The `Parser` of parser/parser.go: a token slice and the cursor-driven
 * procedures over it.  Each method walks the tokens with a moving cursor,
 * as the Go code does, and is proved to compute the function of `Grammar`
 * that states its result.  A Go panic is a `Panic` outcome; a validator's
 * `bool` is `Ok(true)` or `Ok(false)`.
 */
module Parser {
  import opened Outcomes
  import opened Tokens
  import opened Ast
  import opened Grammar
  import opened GrammarFacts

  class Parser {
    /** Parser.Tokens */
    var tokens: seq<Token>

    /** NewParser */
    constructor (tokens: seq<Token>)
      ensures this.tokens == tokens
    {
      this.tokens := tokens;
    }

    /** Parse: only a leading SELECT builds a statement; other keywords give no node. */
    method Parse() returns (r: Outcome<Option<AstNode>>)
      ensures r == ParseSpec(tokens)
    {
      if |tokens| == 0 {
        return Panic(IndexOutOfRange);
      }
      if tokens[0].kind != Keyword {
        return Err("expected KEYWORD");
      }
      if tokens[0].value == SELECT {
        var s :- ParseSelect();
        return Ok(Some(Select(s)));
      }
      return Ok(None);
    }

    /** parseSelect, reading its own token slice. */
    method ParseSelect() returns (r: Outcome<SelectStatement>)
      ensures r == SelectSpec(tokens)
    {
      if |tokens| == 0 {
        return Panic(IndexOutOfRange);
      }
      if tokens[0].kind != Keyword && tokens[0].value != SELECT {
        return Ok(SelectStatement([], "", None));
      }
      var cs :- ScanColumns();
      var pos := cs.pos;
      var table := "";
      if pos == |tokens| {
        return Panic(IndexOutOfRange);
      }
      if tokens[pos].kind == Keyword && tokens[pos].value == FROM {
        pos := pos + 1;
        if pos == |tokens| {
          return Panic(IndexOutOfRange);
        }
        if tokens[pos].kind != Identifier {
          return Err("expected Table Name");
        }
        table := tokens[pos].value;
        pos := pos + 1;
      }
      assert FromClause(tokens, cs.pos) == Ok(FromScan(pos, table));
      var w :- ScanWhere(pos);
      pos := w.pos;
      if pos < |tokens| {
        if tokens[pos].kind != Symbol && tokens[pos].value != ";" {
          return Err("expected SYMBOL");
        }
        pos := pos + 1;
      }
      if pos == |tokens| {
        return Ok(SelectStatement(cs.columns, table, Some(w.root)));
      }
      return Err("expected EOF");
    }

    /** The column loop of parseSelect, from the token after SELECT. */
    method ScanColumns() returns (r: Outcome<ColumnScan>)
      requires |tokens| > 0
      ensures r == ColumnList(tokens, 1, false, [])
    {
      var pos := 1;
      var expectDelimiter := false;
      var columns: seq<string> := [];
      while pos < |tokens|
        invariant 1 <= pos <= |tokens|
        invariant ColumnList(tokens, pos, expectDelimiter, columns) == ColumnList(tokens, 1, false, [])
        decreases |tokens| - pos
      {
        var t := tokens[pos];
        if t.kind == Operator && t.value == WILDCARD {
          return Ok(ColumnScan(pos + 1, columns + [t.value]));
        }
        if !expectDelimiter && t.kind != Identifier {
          return Err("expected IDENTIFIER");
        }
        if t.kind != Identifier && t.kind != Delimiter {
          break;
        }
        if t.kind == Identifier {
          if expectDelimiter {
            return Err("expected IDENTIFIER");
          }
          columns := columns + [t.value];
          expectDelimiter := true;
        } else {
          if !expectDelimiter {
            return Err("expected DELIMITER");
          }
          expectDelimiter := false;
        }
        pos := pos + 1;
      }
      return Ok(ColumnScan(pos, columns));
    }

    /**
     * parseWhere read as a recogniser, which is also validateWhereTokens
     * and the WHERE loops copied into validateUpdateTokens and
     * validateDeleteTokens: from `start`, an optional WHERE and its
     * conditions; the result is where the cursor stopped and the clause
     * parseWhere fills in.
     */
    method ScanWhere(start: nat) returns (r: Outcome<WhereScan>)
      requires start <= |tokens|
      ensures r == WhereCursor(tokens, start)
    {
      var pos := start;
      var root := EmptyClause;
      if pos < |tokens| && tokens[pos].kind == Keyword && tokens[pos].value == WHERE {
        pos := pos + 1;
        while pos < |tokens|
          invariant start < pos <= |tokens|
          invariant Conditions(tokens, pos, root) == Conditions(tokens, start + 1, EmptyClause)
          decreases |tokens| - pos
        {
          ghost var before, root0 := pos, root;
          if tokens[pos].kind != Identifier {
            return Err("expected IDENTIFIER");
          }
          pos := pos + 1;
          if pos == |tokens| {
            return Panic(IndexOutOfRange);
          }
          if tokens[pos].kind != Operator && tokens[pos].value != EQUALS {
            return Err("expected EQUALS");
          }
          root := root.(kind := tokens[pos].value);
          pos := pos + 1;
          if pos == |tokens| {
            return Panic(IndexOutOfRange);
          }
          if tokens[pos].kind != Literal {
            return Err("expected LITERAL");
          }
          root := root.(right := Some(EmptyClause.(name := tokens[pos].value)));
          pos := pos + 1;
          assert root == root0.(kind := tokens[before + 1].value, right := Some(EmptyClause.(name := tokens[before + 2].value)));
          if pos < |tokens| {
            if tokens[pos].kind == Operator {
              if tokens[pos].value != AND && tokens[pos].value != OR {
                break;
              }
              pos := pos + 1;
            } else {
              break;
            }
          }
        }
      }
      return Ok(WhereScan(pos, root));
    }

    /** ValidateTokens: the validator of the leading keyword, else false. */
    method ValidateTokens() returns (r: Outcome<bool>)
      ensures r == ValidateSpec(tokens)
    {
      if |tokens| == 0 {
        return Panic(IndexOutOfRange);
      }
      if tokens[0].kind == Keyword {
        if tokens[0].value == SELECT {
          r := ValidateSelectTokens();
          return;
        } else if tokens[0].value == INSERT {
          r := ValidateInsertTokens();
          return;
        } else if tokens[0].value == UPDATE {
          r := ValidateUpdateTokens();
          return;
        } else if tokens[0].value == DELETE {
          r := ValidateDeleteTokens();
          return;
        }
      }
      return Ok(false);
    }

    /** validateSelectTokens */
    method ValidateSelectTokens() returns (r: Outcome<bool>)
      ensures r == Verdict(SelectCursor(tokens))
    {
      if |tokens| == 0 {
        return Panic(IndexOutOfRange);
      }
      var pos := 1;
      var expectDelimiter := false;
      while pos < |tokens|
        invariant 1 <= pos <= |tokens|
        invariant ColumnsValid(tokens, pos, expectDelimiter) == ColumnsValid(tokens, 1, false)
        decreases |tokens| - pos
      {
        var t := tokens[pos];
        if t.kind == Operator && t.value == WILDCARD {
          pos := pos + 1;
          break;
        }
        if !expectDelimiter && t.kind != Identifier {
          return Ok(false);
        }
        if t.kind != Identifier && t.kind != Delimiter {
          break;
        }
        if t.kind == Identifier {
          if expectDelimiter {
            return Ok(false);
          }
          expectDelimiter := true;
        } else {
          if !expectDelimiter {
            return Ok(false);
          }
          expectDelimiter := false;
        }
        pos := pos + 1;
      }
      assert ColumnsValid(tokens, 1, false) == Ok(pos);
      ghost var c := pos;
      if pos == |tokens| {
        return Panic(IndexOutOfRange);
      }
      if tokens[pos].kind == Keyword && tokens[pos].value == FROM {
        pos := pos + 1;
        if pos == |tokens| {
          return Panic(IndexOutOfRange);
        }
        if tokens[pos].kind != Identifier {
          return Ok(false);
        }
        pos := pos + 1;
      }
      assert FromClause(tokens, c).Ok? && FromClause(tokens, c).value.pos == pos;
      var w := ScanWhere(pos);
      if w.Panic? {
        return Panic(w.kind);
      }
      if w.Err? {
        return Ok(false);
      }
      pos := w.value.pos;
      if pos < |tokens| {
        if tokens[pos].kind != Symbol && tokens[pos].value != ";" {
          return Ok(false);
        }
        pos := pos + 1;
      }
      return Ok(pos == |tokens|);
    }

    /**
     * The two bracketed lists of validateInsertTokens, from `start`: tokens
     * of kind `item` alternating with DELIMITERs, up to a ")"; the result
     * is the cursor after it (or the end of the tokens).
     */
    method ScanParenList(start: nat, item: TokenType) returns (r: Outcome<nat>)
      requires start <= |tokens|
      ensures r == ParenList(tokens, start, item, false)
    {
      var pos := start;
      var expectDelimiter := false;
      while pos < |tokens|
        invariant start <= pos <= |tokens|
        invariant ParenList(tokens, pos, item, expectDelimiter) == ParenList(tokens, start, item, false)
        decreases |tokens| - pos
      {
        if tokens[pos].kind == item {
          if expectDelimiter {
            return Err(Rejected);
          }
          expectDelimiter := true;
          pos := pos + 1;
        } else if tokens[pos].kind == Delimiter {
          if !expectDelimiter {
            return Err(Rejected);
          }
          expectDelimiter := false;
          pos := pos + 1;
        } else if tokens[pos].value == ")" {
          return Ok(pos + 1);
        } else {
          return Err(Rejected);
        }
      }
      return Ok(pos);
    }

    /** validateInsertTokens */
    method ValidateInsertTokens() returns (r: Outcome<bool>)
      ensures r == Verdict(InsertCursor(tokens))
      ensures r == Ok(true) <==> InsertForm(tokens)
    {
      InsertExact(tokens);
      if |tokens| < 2 {
        return Panic(IndexOutOfRange);
      }
      if tokens[1].kind != Keyword && tokens[1].value != INTO {
        return Ok(false);
      }
      if |tokens| < 3 {
        return Panic(IndexOutOfRange);
      }
      if tokens[2].kind != Identifier {
        return Ok(false);
      }
      if |tokens| < 4 {
        return Panic(IndexOutOfRange);
      }
      if !(tokens[3].kind == Symbol && tokens[3].value == "(") {
        return Ok(false);
      }
      var columns := ScanParenList(4, Identifier);
      if !columns.Ok? {
        return Verdict(columns);
      }
      var pos := columns.value;
      if pos == |tokens| {
        return Panic(IndexOutOfRange);
      }
      if tokens[pos].kind != Keyword && tokens[pos].value != VALUES {
        return Ok(false);
      }
      pos := pos + 1;
      if pos == |tokens| {
        return Panic(IndexOutOfRange);
      }
      if !(tokens[pos].kind == Symbol && tokens[pos].value == "(") {
        return Ok(false);
      }
      var values := ScanParenList(pos + 1, Literal);
      if !values.Ok? {
        return Verdict(values);
      }
      return Ok(values.value == |tokens|);
    }

    /** The SET loop of validateUpdateTokens, from the token after SET. */
    method ScanAssignments(start: nat) returns (r: Outcome<nat>)
      requires start <= |tokens|
      ensures r == Assignments(tokens, start)
      ensures r.Ok? ==> AssignmentRun(tokens, start, r.value)
    {
      if Assignments(tokens, start).Ok? {
        AssignmentsExact(tokens, start, Assignments(tokens, start).value);
      }
      var pos := start;
      while pos < |tokens|
        invariant start <= pos <= |tokens|
        invariant Assignments(tokens, pos) == Assignments(tokens, start)
        decreases |tokens| - pos
      {
        if tokens[pos].kind != Identifier {
          return Err(Rejected);
        }
        pos := pos + 1;
        if pos == |tokens| {
          return Panic(IndexOutOfRange);
        }
        if tokens[pos].kind == Operator && tokens[pos].value != EQUALS {
          return Err(Rejected);
        }
        pos := pos + 1;
        if pos == |tokens| {
          return Panic(IndexOutOfRange);
        }
        if tokens[pos].kind != Literal {
          return Err(Rejected);
        }
        pos := pos + 1;
        if pos == |tokens| {
          return Panic(IndexOutOfRange);
        }
        if tokens[pos].kind == Delimiter && tokens[pos].value == "," {
          pos := pos + 1;
        } else {
          break;
        }
      }
      return Ok(pos);
    }

    /** validateUpdateTokens */
    method ValidateUpdateTokens() returns (r: Outcome<bool>)
      ensures r == Verdict(UpdateCursor(tokens))
      ensures r == Ok(true) <==> UpdateForm(tokens)
    {
      UpdateExact(tokens);
      if |tokens| < 2 {
        return Panic(IndexOutOfRange);
      }
      if tokens[1].kind != Identifier {
        return Ok(false);
      }
      if |tokens| < 3 {
        return Panic(IndexOutOfRange);
      }
      var pos := 2;
      if tokens[2].kind == Keyword && tokens[2].value == SET {
        var a := ScanAssignments(3);
        if !a.Ok? {
          return Verdict(a);
        }
        pos := a.value;
      }
      var w := ScanWhere(pos);
      if !w.Ok? {
        return Verdict(w);
      }
      return Ok(w.value.pos == |tokens|);
    }

    /** validateDeleteTokens */
    method ValidateDeleteTokens() returns (r: Outcome<bool>)
      ensures r == Verdict(DeleteCursor(tokens))
      ensures r == Ok(true) <==> DeleteForm(tokens)
    {
      DeleteExact(tokens);
      if |tokens| < 2 {
        return Panic(IndexOutOfRange);
      }
      if tokens[1].kind != Keyword && tokens[1].value != FROM {
        return Ok(false);
      }
      if |tokens| < 3 {
        return Panic(IndexOutOfRange);
      }
      if tokens[2].kind != Identifier {
        return Ok(false);
      }
      var w := ScanWhere(3);
      if !w.Ok? {
        return Verdict(w);
      }
      return Ok(w.value.pos == |tokens|);
    }
  }
}
