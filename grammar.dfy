/**
 * What the cursor-driven procedures of parser/parser.go compute, written as
 * recursive functions over the token sequence and a cursor `pos`.  Each
 * function follows one loop or one block of the Go code branch by branch;
 * an unguarded `p.Tokens[pos]` past the end is a `Panic(IndexOutOfRange)`.
 * The validators' `false` is `Err(Rejected)` here and becomes `Ok(false)`
 * through `Verdict`.
 */
module Grammar {
  import opened Outcomes
  import opened Tokens
  import opened Ast

  const Rejected: string := "rejected"

  /** Where the column list of parseSelect stopped, and what it collected. */
  datatype ColumnScan = ColumnScan(pos: nat, columns: seq<string>)

  /** Where the FROM part stopped, and the table it named ("" without FROM). */
  datatype FromScan = FromScan(pos: nat, table: string)

  /** Where the WHERE part stopped, and the clause parseWhere returns. */
  datatype WhereScan = WhereScan(pos: nat, root: WhereClause)

  // ---------------------------------------------------------------- SELECT

  /**
   * The column loop of parseSelect from `pos`; `expectDelimiter` is the Go
   * flag nextShouldDelimiter and `cols` the columns appended so far.
   */
  function ColumnList(tokens: seq<Token>, pos: nat, expectDelimiter: bool, cols: seq<string>): (r: Outcome<ColumnScan>)
    requires pos <= |tokens|
    ensures r.Ok? ==> pos <= r.value.pos <= |tokens| && |cols| <= |r.value.columns|
    ensures r.Ok? ==> r.value.columns[..|cols|] == cols
    ensures !r.Panic?
    decreases |tokens| - pos
  {
    if pos == |tokens| then Ok(ColumnScan(pos, cols))
    else
      var t := tokens[pos];
      if Is(t, Operator, WILDCARD) then Ok(ColumnScan(pos + 1, cols + [t.value]))
      else if !expectDelimiter && t.kind != Identifier then Err("expected IDENTIFIER")
      else if t.kind != Identifier && t.kind != Delimiter then Ok(ColumnScan(pos, cols))
      else if t.kind == Identifier then
        if expectDelimiter then Err("expected IDENTIFIER")
        else
          var r := ColumnList(tokens, pos + 1, true, cols + [t.value]);
          assert r.Ok? ==> r.value.columns[..|cols|] == (cols + [t.value])[..|cols|];
          r
      else if !expectDelimiter then Err("expected DELIMITER")
      else ColumnList(tokens, pos + 1, false, cols)
  }

  /** The FROM part of parseSelect and validateSelectTokens (optional, then a table name). */
  function FromClause(tokens: seq<Token>, pos: nat): (r: Outcome<FromScan>)
    requires pos <= |tokens|
    ensures r.Ok? ==> pos <= r.value.pos <= |tokens|
    ensures r.Panic? <==> pos == |tokens| || (Is(tokens[pos], Keyword, FROM) && pos + 1 == |tokens|)
  {
    if pos == |tokens| then Panic(IndexOutOfRange)
    else if Is(tokens[pos], Keyword, FROM) then
      if pos + 1 == |tokens| then Panic(IndexOutOfRange)
      else if tokens[pos + 1].kind != Identifier then Err("expected Table Name")
      else Ok(FromScan(pos + 2, tokens[pos + 1].value))
    else Ok(FromScan(pos, ""))
  }

  /** An OPERATOR token whose value is AND or OR. */
  predicate IsConnective(t: Token) {
    t.kind == Operator && IsConditionalOperator(t.value)
  }

  /**
   * The condition loop shared by parseWhere and the three validators:
   * IDENTIFIER, then a token that is an OPERATOR or reads "=", then a
   * LITERAL, then optionally AND/OR and the next condition.  parseWhere
   * also records the last operator and literal in `root`.
   */
  function Conditions(tokens: seq<Token>, pos: nat, root: WhereClause): (r: Outcome<WhereScan>)
    requires pos <= |tokens|
    ensures r.Ok? ==> pos <= r.value.pos <= |tokens|
    decreases |tokens| - pos
  {
    if pos == |tokens| then Ok(WhereScan(pos, root))
    else if tokens[pos].kind != Identifier then Err("expected IDENTIFIER")
    else if pos + 1 == |tokens| then Panic(IndexOutOfRange)
    else if tokens[pos + 1].kind != Operator && tokens[pos + 1].value != EQUALS then Err("expected EQUALS")
    else if pos + 2 == |tokens| then Panic(IndexOutOfRange)
    else if tokens[pos + 2].kind != Literal then Err("expected LITERAL")
    else
      var next := root.(kind := tokens[pos + 1].value, right := Some(EmptyClause.(name := tokens[pos + 2].value)));
      if pos + 3 < |tokens| && IsConnective(tokens[pos + 3]) then Conditions(tokens, pos + 4, next)
      else Ok(WhereScan(pos + 3, next))
  }

  /** parseWhere / validateWhereTokens: an optional WHERE and its conditions. */
  function WhereCursor(tokens: seq<Token>, pos: nat): (r: Outcome<WhereScan>)
    requires pos <= |tokens|
    ensures r.Ok? ==> pos <= r.value.pos <= |tokens|
    ensures !(pos < |tokens| && Is(tokens[pos], Keyword, WHERE)) ==> r == Ok(WhereScan(pos, EmptyClause))
  {
    if pos < |tokens| && Is(tokens[pos], Keyword, WHERE) then Conditions(tokens, pos + 1, EmptyClause)
    else Ok(WhereScan(pos, EmptyClause))
  }

  /**
   * parseWhere as written: the first IDENTIFIER after WHERE reaches
   * `currentClause.Right = ...` with `currentClause` still nil.
   */
  function WhereCursorAsWritten(tokens: seq<Token>, pos: nat): (r: Outcome<WhereScan>)
    requires pos <= |tokens|
  {
    if pos < |tokens| && Is(tokens[pos], Keyword, WHERE) then
      if pos + 1 == |tokens| then Ok(WhereScan(pos + 1, EmptyClause))
      else if tokens[pos + 1].kind != Identifier then Err("expected IDENTIFIER")
      else Panic(NilDereference)
    else Ok(WhereScan(pos, EmptyClause))
  }

  /** The end of parseSelect and validateSelectTokens: at most one SYMBOL, then the end. */
  function Trailer(tokens: seq<Token>, pos: nat): (r: Outcome<()>)
    requires pos <= |tokens|
    ensures r.Ok? <==> pos == |tokens| || (pos + 1 == |tokens| && (tokens[pos].kind == Symbol || tokens[pos].value == ";"))
    ensures !r.Panic?
  {
    if pos < |tokens| && tokens[pos].kind != Symbol && tokens[pos].value != ";" then Err("expected SYMBOL")
    else
      var end := if pos < |tokens| then pos + 1 else pos;
      if end == |tokens| then Ok(()) else Err("expected EOF")
  }

  /** parseSelect; `asWritten` chooses parseWhere as written or as the recogniser. */
  function SelectWith(tokens: seq<Token>, asWritten: bool): (r: Outcome<SelectStatement>) {
    if |tokens| == 0 then Panic(IndexOutOfRange)
    else if tokens[0].kind != Keyword && tokens[0].value != SELECT then Ok(SelectStatement([], "", None))
    else
      var cs :- ColumnList(tokens, 1, false, []);
      var from :- FromClause(tokens, cs.pos);
      var w :- if asWritten then WhereCursorAsWritten(tokens, from.pos) else WhereCursor(tokens, from.pos);
      var _ :- Trailer(tokens, w.pos);
      Ok(SelectStatement(cs.columns, from.table, Some(w.root)))
  }

  /** parseSelect with parseWhere read as the recogniser it evidently is. */
  function SelectSpec(tokens: seq<Token>): Outcome<SelectStatement> {
    SelectWith(tokens, false)
  }

  /** parseSelect as written, with the nil dereference in parseWhere. */
  function SelectAsWritten(tokens: seq<Token>): Outcome<SelectStatement> {
    SelectWith(tokens, true)
  }

  /** Parse: a KEYWORD first; only SELECT builds a node. */
  function ParseSpec(tokens: seq<Token>): (r: Outcome<Option<AstNode>>) {
    if |tokens| == 0 then Panic(IndexOutOfRange)
    else if tokens[0].kind != Keyword then Err("expected KEYWORD")
    else if tokens[0].value == SELECT then
      var s :- SelectSpec(tokens);
      Ok(Some(Select(s)))
    else Ok(None)
  }

  // ------------------------------------------------------------ validators

  /** The column loop of validateSelectTokens. */
  function ColumnsValid(tokens: seq<Token>, pos: nat, expectDelimiter: bool): (r: Outcome<nat>)
    requires pos <= |tokens|
    ensures r.Ok? ==> pos <= r.value <= |tokens|
    decreases |tokens| - pos
  {
    if pos == |tokens| then Ok(pos)
    else
      var t := tokens[pos];
      if Is(t, Operator, WILDCARD) then Ok(pos + 1)
      else if !expectDelimiter && t.kind != Identifier then Err(Rejected)
      else if t.kind != Identifier && t.kind != Delimiter then Ok(pos)
      else if t.kind == Identifier then
        if expectDelimiter then Err(Rejected) else ColumnsValid(tokens, pos + 1, true)
      else if !expectDelimiter then Err(Rejected)
      else ColumnsValid(tokens, pos + 1, false)
  }

  /** validateSelectTokens, before its `bool` result. */
  function SelectCursor(tokens: seq<Token>): Outcome<()> {
    if |tokens| == 0 then Panic(IndexOutOfRange)
    else
      var c :- ColumnsValid(tokens, 1, false);
      var from :- FromClause(tokens, c);
      var w :- WhereCursor(tokens, from.pos);
      Trailer(tokens, w.pos)
  }

  /**
   * The bracketed lists of validateInsertTokens: tokens of kind `item`
   * alternating with DELIMITERs, up to a token reading ")" or the end.
   */
  function ParenList(tokens: seq<Token>, pos: nat, item: TokenType, expectDelimiter: bool): (r: Outcome<nat>)
    requires pos <= |tokens|
    ensures r.Ok? ==> pos <= r.value <= |tokens|
    ensures !r.Panic?
    decreases |tokens| - pos
  {
    if pos == |tokens| then Ok(pos)
    else
      var t := tokens[pos];
      if t.kind == item then
        if expectDelimiter then Err(Rejected) else ParenList(tokens, pos + 1, item, true)
      else if t.kind == Delimiter then
        if !expectDelimiter then Err(Rejected) else ParenList(tokens, pos + 1, item, false)
      else if t.value == ")" then Ok(pos + 1)
      else Err(Rejected)
  }

  /** validateInsertTokens, before its `bool` result. */
  function InsertCursor(tokens: seq<Token>): Outcome<()> {
    if |tokens| < 2 then Panic(IndexOutOfRange)
    else if tokens[1].kind != Keyword && tokens[1].value != INTO then Err(Rejected)
    else if |tokens| < 3 then Panic(IndexOutOfRange)
    else if tokens[2].kind != Identifier then Err(Rejected)
    else if |tokens| < 4 then Panic(IndexOutOfRange)
    else if !Is(tokens[3], Symbol, "(") then Err(Rejected)
    else
      var p :- ParenList(tokens, 4, Identifier, false);
      if p == |tokens| then Panic(IndexOutOfRange)
      else if tokens[p].kind != Keyword && tokens[p].value != VALUES then Err(Rejected)
      else if p + 1 == |tokens| then Panic(IndexOutOfRange)
      else if !Is(tokens[p + 1], Symbol, "(") then Err(Rejected)
      else
        var q :- ParenList(tokens, p + 2, Literal, false);
        if q == |tokens| then Ok(()) else Err(Rejected)
  }

  /**
   * The SET loop of validateUpdateTokens: IDENTIFIER, a token that is not
   * an OPERATOR other than "=", a LITERAL, and a "," to go on; every
   * cursor move is followed by an unguarded read.
   */
  function Assignments(tokens: seq<Token>, pos: nat): (r: Outcome<nat>)
    requires pos <= |tokens|
    ensures r.Ok? ==> pos <= r.value <= |tokens|
    decreases |tokens| - pos
  {
    if pos == |tokens| then Ok(pos)
    else if tokens[pos].kind != Identifier then Err(Rejected)
    else if pos + 1 == |tokens| then Panic(IndexOutOfRange)
    else if tokens[pos + 1].kind == Operator && tokens[pos + 1].value != EQUALS then Err(Rejected)
    else if pos + 2 == |tokens| then Panic(IndexOutOfRange)
    else if tokens[pos + 2].kind != Literal then Err(Rejected)
    else if pos + 3 == |tokens| then Panic(IndexOutOfRange)
    else if Is(tokens[pos + 3], Delimiter, ",") then Assignments(tokens, pos + 4)
    else Ok(pos + 3)
  }

  /** validateUpdateTokens, before its `bool` result. */
  function UpdateCursor(tokens: seq<Token>): Outcome<()> {
    if |tokens| < 2 then Panic(IndexOutOfRange)
    else if tokens[1].kind != Identifier then Err(Rejected)
    else if |tokens| < 3 then Panic(IndexOutOfRange)
    else
      var p :- if Is(tokens[2], Keyword, SET) then Assignments(tokens, 3) else Ok(2);
      var w :- WhereCursor(tokens, p);
      if w.pos == |tokens| then Ok(()) else Err(Rejected)
  }

  /** validateDeleteTokens, before its `bool` result; it always starts at 1. */
  function DeleteCursor(tokens: seq<Token>): Outcome<()> {
    if |tokens| < 2 then Panic(IndexOutOfRange)
    else if tokens[1].kind != Keyword && tokens[1].value != FROM then Err(Rejected)
    else if |tokens| < 3 then Panic(IndexOutOfRange)
    else if tokens[2].kind != Identifier then Err(Rejected)
    else
      var w :- WhereCursor(tokens, 3);
      if w.pos == |tokens| then Ok(()) else Err(Rejected)
  }

  /** ValidateTokens: dispatch on a leading KEYWORD. */
  function ValidateSpec(tokens: seq<Token>): (r: Outcome<bool>) {
    if |tokens| == 0 then Panic(IndexOutOfRange)
    else if tokens[0].kind != Keyword then Ok(false)
    else if tokens[0].value == SELECT then Verdict(SelectCursor(tokens))
    else if tokens[0].value == INSERT then Verdict(InsertCursor(tokens))
    else if tokens[0].value == UPDATE then Verdict(UpdateCursor(tokens))
    else if tokens[0].value == DELETE then Verdict(DeleteCursor(tokens))
    else Ok(false)
  }
}
