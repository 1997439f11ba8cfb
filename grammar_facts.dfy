/** What the parser's procedures promise, proved about the functions of `Grammar`. */
module GrammarFacts {
  import opened Outcomes
  import opened Tokens
  import opened Ast
  import opened Grammar

  // ------------------------------------------------------------ agreement

  /** The two column loops accept, reject and stop alike. */
  lemma {:induction false} ColumnLoopsAgree(tokens: seq<Token>, pos: nat, expectDelimiter: bool, cols: seq<string>)
    requires pos <= |tokens|
    ensures ColumnsValid(tokens, pos, expectDelimiter).Ok? <==> ColumnList(tokens, pos, expectDelimiter, cols).Ok?
    ensures ColumnList(tokens, pos, expectDelimiter, cols).Ok? ==>
      ColumnsValid(tokens, pos, expectDelimiter).value == ColumnList(tokens, pos, expectDelimiter, cols).value.pos
    ensures !ColumnsValid(tokens, pos, expectDelimiter).Panic?
    decreases |tokens| - pos
  {
    if pos < |tokens| {
      var t := tokens[pos];
      if Is(t, Operator, WILDCARD) {
      } else if !expectDelimiter && t.kind != Identifier {
      } else if t.kind != Identifier && t.kind != Delimiter {
      } else if t.kind == Identifier {
        if !expectDelimiter {
          ColumnLoopsAgree(tokens, pos + 1, true, cols + [t.value]);
        }
      } else if expectDelimiter {
        ColumnLoopsAgree(tokens, pos + 1, false, cols);
      }
    }
  }

  /**
   * validateSelectTokens returns true exactly when parseSelect (with the
   * WHERE recogniser) returns no error, and the two panic alike.
   */
  lemma SelectValidatorAgrees(tokens: seq<Token>)
    requires |tokens| > 0 && Is(tokens[0], Keyword, SELECT)
    ensures ValidateSpec(tokens) == Ok(true) <==> SelectSpec(tokens).Ok?
    ensures ValidateSpec(tokens).Panic? <==> SelectSpec(tokens).Panic?
    ensures SelectSpec(tokens).Panic? ==> ValidateSpec(tokens) == Panic(SelectSpec(tokens).kind)
  {
    ColumnLoopsAgree(tokens, 1, false, []);
  }

  /** Parse with a leading SELECT is parseSelect; errors and panics pass through. */
  lemma ParseSelectOnly(tokens: seq<Token>)
    ensures |tokens| == 0 ==> ParseSpec(tokens) == Panic(IndexOutOfRange)
    ensures |tokens| > 0 && tokens[0].kind != Keyword ==> ParseSpec(tokens) == Err("expected KEYWORD")
    ensures |tokens| > 0 && tokens[0].kind == Keyword && tokens[0].value != SELECT ==> ParseSpec(tokens) == Ok(None)
    ensures |tokens| > 0 && Is(tokens[0], Keyword, SELECT) ==>
      (ParseSpec(tokens).Ok? <==> SelectSpec(tokens).Ok?)
      && (SelectSpec(tokens).Ok? ==> ParseSpec(tokens) == Ok(Some(Select(SelectSpec(tokens).value))))
      && (!SelectSpec(tokens).Ok? ==> ParseSpec(tokens) == SelectSpec(tokens).PropagateFailure())
  {
  }

  /** ValidateTokens is false unless the first token is one of the four statement keywords. */
  lemma ValidateDispatch(tokens: seq<Token>)
    requires |tokens| > 0
    requires !(tokens[0].kind == Keyword && tokens[0].value in {SELECT, INSERT, UPDATE, DELETE})
    ensures ValidateSpec(tokens) == Ok(false)
  {
  }

  /** Once WHERE reaches a condition, parseSelect as written panics on a nil pointer. */
  lemma WhereAsWrittenPanics(tokens: seq<Token>, pos: nat)
    requires pos + 1 < |tokens|
    requires Is(tokens[pos], Keyword, WHERE) && tokens[pos + 1].kind == Identifier
    ensures WhereCursorAsWritten(tokens, pos) == Panic(NilDereference)
    ensures Conditions(tokens, pos + 1, EmptyClause) != Panic(NilDereference)
  {
    ConditionsNeverDereference(tokens, pos + 1, EmptyClause);
  }

  lemma {:induction false} ConditionsNeverDereference(tokens: seq<Token>, pos: nat, root: WhereClause)
    requires pos <= |tokens|
    ensures Conditions(tokens, pos, root) != Panic(NilDereference)
    decreases |tokens| - pos
  {
    if pos + 3 < |tokens| && tokens[pos].kind == Identifier
       && (tokens[pos + 1].kind == Operator || tokens[pos + 1].value == EQUALS)
       && tokens[pos + 2].kind == Literal && IsConnective(tokens[pos + 3]) {
      var next := root.(kind := tokens[pos + 1].value, right := Some(EmptyClause.(name := tokens[pos + 2].value)));
      ConditionsNeverDereference(tokens, pos + 4, next);
    }
  }

  /** Where no condition follows a WHERE, parseWhere as written is the recogniser. */
  lemma WhereAsWrittenAgrees(tokens: seq<Token>, pos: nat)
    requires pos <= |tokens|
    requires !(pos + 1 < |tokens| && Is(tokens[pos], Keyword, WHERE) && tokens[pos + 1].kind == Identifier)
    ensures WhereCursorAsWritten(tokens, pos) == WhereCursor(tokens, pos)
  {
  }

  /**
   * For a stream where no WHERE condition is reached, validateSelectTokens
   * returns true exactly when parseSelect as written returns no error.
   */
  lemma SelectAsWrittenAgrees(tokens: seq<Token>)
    requires |tokens| > 0 && Is(tokens[0], Keyword, SELECT)
    requires forall p :: 0 <= p < |tokens| - 1 && Is(tokens[p], Keyword, WHERE) ==> tokens[p + 1].kind != Identifier
    ensures SelectAsWritten(tokens) == SelectSpec(tokens)
    ensures ValidateSpec(tokens) == Ok(true) <==> SelectAsWritten(tokens).Ok?
  {
    SelectValidatorAgrees(tokens);
    var cs := ColumnList(tokens, 1, false, []);
    if cs.Ok? {
      var from := FromClause(tokens, cs.value.pos);
      if from.Ok? {
        WhereAsWrittenAgrees(tokens, from.value.pos);
      }
    }
  }

  // -------------------------------------------------------- column lists

  /**
   * From `lo` to `hi`, tokens of kind `item` and DELIMITERs alternate;
   * `expectDelimiter` says which comes first.
   */
  predicate Alternating(tokens: seq<Token>, lo: nat, hi: nat, item: TokenType, expectDelimiter: bool)
    requires lo <= hi <= |tokens|
  {
    forall k :: lo <= k < hi ==>
      tokens[k].kind == (if ((k - lo) % 2 == 0) == expectDelimiter then Delimiter else item)
  }

  /** The values of the non-DELIMITER tokens of an alternating run. */
  function Items(tokens: seq<Token>, lo: nat, hi: nat, expectDelimiter: bool): seq<string>
    requires lo <= hi <= |tokens|
    decreases hi - lo
  {
    if lo == hi then []
    else (if expectDelimiter then [] else [tokens[lo].value]) + Items(tokens, lo + 1, hi, !expectDelimiter)
  }

  lemma AlternatingStep(tokens: seq<Token>, lo: nat, hi: nat, item: TokenType, expectDelimiter: bool)
    requires lo < hi <= |tokens|
    requires tokens[lo].kind == (if expectDelimiter then Delimiter else item)
    requires Alternating(tokens, lo + 1, hi, item, !expectDelimiter)
    ensures Alternating(tokens, lo, hi, item, expectDelimiter)
  {
    forall k | lo < k < hi
      ensures tokens[k].kind == (if ((k - lo) % 2 == 0) == expectDelimiter then Delimiter else item)
    {
      assert ((k - lo) % 2 == 0) == ((k - (lo + 1)) % 2 != 0);
    }
  }

  /** The last token read by a column list is the "*" exactly when it ended at one. */
  predicate EndsAtWildcard(tokens: seq<Token>, pos: nat, stop: nat)
    requires pos <= stop <= |tokens|
  {
    stop > pos && Is(tokens[stop - 1], Operator, WILDCARD)
  }

  /**
   * The column list of parseSelect: identifiers and delimiters alternate
   * from `pos`, the columns are the identifiers in order (then "*" if the
   * list ended at one), and a list that stops before the end stops at a
   * token that is neither an IDENTIFIER nor a DELIMITER, after an identifier.
   */
  lemma {:induction false} ColumnListShape(tokens: seq<Token>, pos: nat, expectDelimiter: bool, cols: seq<string>)
    requires pos <= |tokens| && ColumnList(tokens, pos, expectDelimiter, cols).Ok?
    ensures var cs := ColumnList(tokens, pos, expectDelimiter, cols).value;
      var w := EndsAtWildcard(tokens, pos, cs.pos);
      var e := if w then cs.pos - 1 else cs.pos;
      Alternating(tokens, pos, e, Identifier, expectDelimiter)
      && cs.columns == cols + Items(tokens, pos, e, expectDelimiter) + (if w then [WILDCARD] else [])
      && (!w && cs.pos < |tokens| ==>
            ((cs.pos - pos) % 2 == 0) == expectDelimiter
            && tokens[cs.pos].kind != Identifier && tokens[cs.pos].kind != Delimiter
            && !Is(tokens[cs.pos], Operator, WILDCARD))
    decreases |tokens| - pos
  {
    var cs := ColumnList(tokens, pos, expectDelimiter, cols).value;
    if pos == |tokens| {
      assert cols + [] + [] == cols;
    } else {
      var t := tokens[pos];
      if Is(t, Operator, WILDCARD) {
        assert cols + [] + [WILDCARD] == cols + [t.value];
      } else if t.kind != Identifier && t.kind != Delimiter {
        assert cols + [] + [] == cols;
      } else if t.kind == Identifier {
        var cols' := cols + [t.value];
        ColumnListShape(tokens, pos + 1, true, cols');
        var w := EndsAtWildcard(tokens, pos + 1, cs.pos);
        assert w == EndsAtWildcard(tokens, pos, cs.pos);
        var e := if w then cs.pos - 1 else cs.pos;
        AlternatingStep(tokens, pos, e, Identifier, false);
        assert Items(tokens, pos, e, false) == [t.value] + Items(tokens, pos + 1, e, true);
        assert cols' + Items(tokens, pos + 1, e, true) == cols + Items(tokens, pos, e, false);
      } else {
        ColumnListShape(tokens, pos + 1, false, cols);
        var w := EndsAtWildcard(tokens, pos + 1, cs.pos);
        assert w == EndsAtWildcard(tokens, pos, cs.pos);
        var e := if w then cs.pos - 1 else cs.pos;
        AlternatingStep(tokens, pos, e, Identifier, true);
        assert Items(tokens, pos, e, true) == [] + Items(tokens, pos + 1, e, false);
      }
    }
  }

  // ----------------------------------------------------------- conditions

  /** An IDENTIFIER, a token that is an OPERATOR or reads "=", and a LITERAL, from k. */
  predicate ConditionAt(tokens: seq<Token>, k: nat) {
    k + 3 <= |tokens| && tokens[k].kind == Identifier
    && (tokens[k + 1].kind == Operator || tokens[k + 1].value == EQUALS)
    && tokens[k + 2].kind == Literal
  }

  /**
   * From `pos` to `stop` the tokens are conditions joined by AND/OR:
   * conditions start at pos, pos+4, ..., connectives sit between them, and
   * the run either ends after a condition at a token that is no connective
   * (or at the end), or reaches the end right after a connective or with
   * no condition at all.
   */
  predicate ConditionRun(tokens: seq<Token>, pos: nat, stop: nat) {
    pos <= stop <= |tokens|
    && (forall k :: pos <= k < stop && (k - pos) % 4 == 0 ==> ConditionAt(tokens, k))
    && (forall k :: pos <= k < stop && (k - pos) % 4 == 3 ==> IsConnective(tokens[k]))
    && (((stop - pos) % 4 == 3 && (stop < |tokens| ==> !IsConnective(tokens[stop])))
        || ((stop - pos) % 4 == 0 && stop == |tokens|))
  }

  /** The WHERE recogniser stops only at the end of a run of conditions. */
  lemma {:induction false} ConditionsShape(tokens: seq<Token>, pos: nat, root: WhereClause)
    requires pos <= |tokens| && Conditions(tokens, pos, root).Ok?
    ensures var w := Conditions(tokens, pos, root).value;
      ConditionRun(tokens, pos, w.pos) && (w.pos == pos ==> w.root == root)
    decreases |tokens| - pos
  {
    var w := Conditions(tokens, pos, root).value;
    if pos < |tokens| {
      var next := root.(kind := tokens[pos + 1].value, right := Some(EmptyClause.(name := tokens[pos + 2].value)));
      assert ConditionAt(tokens, pos);
      if pos + 3 < |tokens| && IsConnective(tokens[pos + 3]) {
        ConditionsShape(tokens, pos + 4, next);
        forall k | pos <= k < w.pos && (k - pos) % 4 == 0 ensures ConditionAt(tokens, k) {
          if k > pos {
            assert (k - (pos + 4)) % 4 == 0;
          }
        }
        forall k | pos <= k < w.pos && (k - pos) % 4 == 3 ensures IsConnective(tokens[k]) {
          if k > pos + 3 {
            assert (k - (pos + 4)) % 4 == 3;
          }
        }
        assert (w.pos - pos) % 4 == (w.pos - (pos + 4)) % 4;
      } else {
        forall k | pos <= k < w.pos && (k - pos) % 4 == 0 ensures ConditionAt(tokens, k) {
          assert k == pos;
        }
      }
    }
  }

  /** Conversely, every run of conditions is accepted, and the recogniser stops where it ends. */
  lemma {:induction false} ConditionsAccepted(tokens: seq<Token>, pos: nat, stop: nat, root: WhereClause)
    requires ConditionRun(tokens, pos, stop)
    ensures Conditions(tokens, pos, root).Ok? && Conditions(tokens, pos, root).value.pos == stop
    decreases |tokens| - pos
  {
    if pos < |tokens| {
      assert pos < stop;
      assert ConditionAt(tokens, pos);
      if pos + 3 < stop {
        assert IsConnective(tokens[pos + 3]);
        var next := root.(kind := tokens[pos + 1].value, right := Some(EmptyClause.(name := tokens[pos + 2].value)));
        forall k | pos + 4 <= k < stop && (k - (pos + 4)) % 4 == 0 ensures ConditionAt(tokens, k) {
          assert (k - pos) % 4 == 0;
        }
        forall k | pos + 4 <= k < stop && (k - (pos + 4)) % 4 == 3 ensures IsConnective(tokens[k]) {
          assert (k - pos) % 4 == 3;
        }
        assert (stop - (pos + 4)) % 4 == (stop - pos) % 4;
        ConditionsAccepted(tokens, pos + 4, stop, next);
      }
    }
  }

  /** The recogniser stops at `stop` exactly when a run of conditions ends there. */
  lemma ConditionsExact(tokens: seq<Token>, pos: nat, stop: nat, root: WhereClause)
    requires pos <= |tokens|
    ensures (Conditions(tokens, pos, root).Ok? && Conditions(tokens, pos, root).value.pos == stop)
      <==> ConditionRun(tokens, pos, stop)
  {
    if Conditions(tokens, pos, root).Ok? {
      ConditionsShape(tokens, pos, root);
    }
    if ConditionRun(tokens, pos, stop) {
      ConditionsAccepted(tokens, pos, stop, root);
    }
  }

  /**
   * After a WHERE at `p`, the WHERE part stops at `stop` exactly when the
   * tokens between are a run of conditions; a bare WHERE at the end and a
   * trailing connective included.
   */
  lemma WhereAccepts(tokens: seq<Token>, p: nat, stop: nat)
    requires p < |tokens| && Is(tokens[p], Keyword, WHERE)
    ensures (WhereCursor(tokens, p).Ok? && WhereCursor(tokens, p).value.pos == stop)
      <==> ConditionRun(tokens, p + 1, stop)
  {
    ConditionsExact(tokens, p + 1, stop, EmptyClause);
  }

  /** From `p` to the end, an optional WHERE clause. */
  predicate WhereToEnd(tokens: seq<Token>, p: nat) {
    p == |tokens| || (p < |tokens| && Is(tokens[p], Keyword, WHERE) && ConditionRun(tokens, p + 1, |tokens|))
  }

  /** The WHERE part consumes the rest of the stream exactly when the rest is an optional WHERE clause. */
  lemma WhereCursorToEnd(tokens: seq<Token>, p: nat)
    requires p <= |tokens|
    ensures (WhereCursor(tokens, p).Ok? && WhereCursor(tokens, p).value.pos == |tokens|) <==> WhereToEnd(tokens, p)
  {
    if p < |tokens| && Is(tokens[p], Keyword, WHERE) {
      WhereAccepts(tokens, p, |tokens|);
    }
  }

  // ------------------------------------------------------ bracketed lists

  /**
   * validateInsertTokens' lists: from `pos`, items and DELIMITERs
   * alternate up to a token reading ")" (that is neither), or up to the end.
   */
  lemma {:induction false} ParenListShape(tokens: seq<Token>, pos: nat, item: TokenType, expectDelimiter: bool)
    requires pos <= |tokens| && ParenList(tokens, pos, item, expectDelimiter).Ok?
    requires item != Delimiter
    ensures var p := ParenList(tokens, pos, item, expectDelimiter).value;
      (p == |tokens| && Alternating(tokens, pos, p, item, expectDelimiter))
      || (pos < p && tokens[p - 1].value == ")" && tokens[p - 1].kind != item && tokens[p - 1].kind != Delimiter
          && Alternating(tokens, pos, p - 1, item, expectDelimiter))
    decreases |tokens| - pos
  {
    var p := ParenList(tokens, pos, item, expectDelimiter).value;
    if pos < |tokens| && (tokens[pos].kind == item || tokens[pos].kind == Delimiter) {
      ParenListShape(tokens, pos + 1, item, !expectDelimiter);
      if p == |tokens| && Alternating(tokens, pos + 1, p, item, !expectDelimiter) {
        AlternatingStep(tokens, pos, p, item, expectDelimiter);
      } else {
        AlternatingStep(tokens, pos, p - 1, item, expectDelimiter);
      }
    }
  }

  /** Conversely, an alternating run to the end is accepted although no ")" closes it. */
  lemma {:induction false} OpenListAccepted(tokens: seq<Token>, pos: nat, item: TokenType, expectDelimiter: bool)
    requires pos <= |tokens| && Alternating(tokens, pos, |tokens|, item, expectDelimiter)
    requires item != Delimiter
    ensures ParenList(tokens, pos, item, expectDelimiter) == Ok(|tokens|)
    decreases |tokens| - pos
  {
    if pos < |tokens| {
      assert tokens[pos].kind == (if expectDelimiter then Delimiter else item);
      forall k | pos + 1 <= k < |tokens|
        ensures tokens[k].kind == (if ((k - (pos + 1)) % 2 == 0) == !expectDelimiter then Delimiter else item)
      {
        assert ((k - pos) % 2 == 0) == ((k - (pos + 1)) % 2 != 0);
      }
      OpenListAccepted(tokens, pos + 1, item, !expectDelimiter);
    }
  }

  /**
   * What validateInsertTokens accepts: a KEYWORD (or INTO), a table name,
   * "(" and the column list, a KEYWORD (or VALUES), "(" and the value
   * list, and nothing after it.
   */
  lemma InsertShape(tokens: seq<Token>)
    requires InsertCursor(tokens).Ok?
    ensures |tokens| > 4
    ensures tokens[1].kind == Keyword || tokens[1].value == INTO
    ensures tokens[2].kind == Identifier && Is(tokens[3], Symbol, "(")
    ensures ParenList(tokens, 4, Identifier, false).Ok?
    ensures var p := ParenList(tokens, 4, Identifier, false).value;
      p + 1 < |tokens| && (tokens[p].kind == Keyword || tokens[p].value == VALUES)
      && Is(tokens[p + 1], Symbol, "(") && ParenList(tokens, p + 2, Literal, false) == Ok(|tokens|)
  {
  }

  /**
   * validateInsertTokens' closed lists: from `lo`, items and DELIMITERs
   * alternate up to the token at `close`, which reads ")" and is neither.
   */
  predicate ClosedList(tokens: seq<Token>, lo: nat, close: nat, item: TokenType) {
    lo <= close < |tokens| && Alternating(tokens, lo, close, item, false)
    && tokens[close].value == ")" && tokens[close].kind != item && tokens[close].kind != Delimiter
  }

  /** Conversely, an alternating run closed by ")" is accepted, and the list ends just after the ")". */
  lemma {:induction false} ClosedListAccepted(tokens: seq<Token>, pos: nat, close: nat, item: TokenType, expectDelimiter: bool)
    requires pos <= close < |tokens| && Alternating(tokens, pos, close, item, expectDelimiter)
    requires tokens[close].value == ")" && tokens[close].kind != item && tokens[close].kind != Delimiter
    requires item != Delimiter
    ensures ParenList(tokens, pos, item, expectDelimiter) == Ok(close + 1)
    decreases close - pos
  {
    if pos < close {
      assert tokens[pos].kind == (if expectDelimiter then Delimiter else item);
      forall k | pos + 1 <= k < close
        ensures tokens[k].kind == (if ((k - (pos + 1)) % 2 == 0) == !expectDelimiter then Delimiter else item)
      {
        assert ((k - pos) % 2 == 0) == ((k - (pos + 1)) % 2 != 0);
      }
      ClosedListAccepted(tokens, pos + 1, close, item, !expectDelimiter);
    }
  }

  /**
   * From `p`: a KEYWORD (or VALUES), "(", and a value list that is closed by
   * the last token of the stream or runs open to the end.
   */
  predicate ValuesPart(tokens: seq<Token>, p: nat) {
    p + 1 < |tokens| && (tokens[p].kind == Keyword || tokens[p].value == VALUES) && Is(tokens[p + 1], Symbol, "(")
    && (Alternating(tokens, p + 2, |tokens|, Literal, false) || ClosedList(tokens, p + 2, |tokens| - 1, Literal))
  }

  /**
   * The INSERT streams validateInsertTokens accepts: a KEYWORD (or INTO), a
   * table name, "(" and a column list closed by ")", then the value part.
   */
  predicate InsertForm(tokens: seq<Token>) {
    |tokens| >= 4 && (tokens[1].kind == Keyword || tokens[1].value == INTO)
    && tokens[2].kind == Identifier && Is(tokens[3], Symbol, "(")
    && exists c :: 4 <= c < |tokens| && ClosedList(tokens, 4, c, Identifier) && ValuesPart(tokens, c + 1)
  }

  /** Every stream validateInsertTokens accepts has that form. */
  lemma InsertFormNeeded(tokens: seq<Token>)
    requires InsertCursor(tokens).Ok?
    ensures InsertForm(tokens)
  {
    InsertShape(tokens);
    var p := ParenList(tokens, 4, Identifier, false).value;
    ParenListShape(tokens, 4, Identifier, false);
    ParenListShape(tokens, p + 2, Literal, false);
    assert ClosedList(tokens, 4, p - 1, Identifier);
    assert ValuesPart(tokens, p - 1 + 1);
  }

  /** Every stream of that form is accepted. */
  lemma InsertFormAccepted(tokens: seq<Token>)
    requires InsertForm(tokens)
    ensures InsertCursor(tokens) == Ok(())
  {
    var c :| 4 <= c < |tokens| && ClosedList(tokens, 4, c, Identifier) && ValuesPart(tokens, c + 1);
    ClosedListAccepted(tokens, 4, c, Identifier, false);
    if Alternating(tokens, c + 3, |tokens|, Literal, false) {
      OpenListAccepted(tokens, c + 3, Literal, false);
    } else {
      ClosedListAccepted(tokens, c + 3, |tokens| - 1, Literal, false);
    }
  }

  /** validateInsertTokens returns true exactly for the streams of that form. */
  lemma InsertExact(tokens: seq<Token>)
    ensures InsertCursor(tokens).Ok? <==> InsertForm(tokens)
    ensures |tokens| > 0 && Is(tokens[0], Keyword, INSERT) ==> (ValidateSpec(tokens) == Ok(true) <==> InsertForm(tokens))
  {
    if InsertCursor(tokens).Ok? {
      InsertFormNeeded(tokens);
    }
    if InsertForm(tokens) {
      InsertFormAccepted(tokens);
    }
  }

  // ---------------------------------------------------------- UPDATE, DELETE

  /** An IDENTIFIER, a token that is not an OPERATOR other than "=", and a LITERAL, from k. */
  predicate AssignmentAt(tokens: seq<Token>, k: nat) {
    k + 3 <= |tokens| && tokens[k].kind == Identifier
    && !(tokens[k + 1].kind == Operator && tokens[k + 1].value != EQUALS)
    && tokens[k + 2].kind == Literal
  }

  predicate IsComma(t: Token) {
    Is(t, Delimiter, ",")
  }

  /**
   * From `pos` to `stop` the tokens are assignments separated by ",": the
   * run ends after an assignment at a token that is not ",", or reaches the
   * end right after a "," or with no assignment at all.
   */
  predicate AssignmentRun(tokens: seq<Token>, pos: nat, stop: nat) {
    pos <= stop <= |tokens|
    && (forall k :: pos <= k < stop && (k - pos) % 4 == 0 ==> AssignmentAt(tokens, k))
    && (forall k :: pos <= k < stop && (k - pos) % 4 == 3 ==> IsComma(tokens[k]))
    && (((stop - pos) % 4 == 3 && stop < |tokens| && !IsComma(tokens[stop]))
        || ((stop - pos) % 4 == 0 && stop == |tokens|))
  }

  /** The SET loop stops at `stop` exactly when a run of assignments ends there. */
  lemma {:induction false} AssignmentsExact(tokens: seq<Token>, pos: nat, stop: nat)
    requires pos <= |tokens|
    ensures Assignments(tokens, pos) == Ok(stop) <==> AssignmentRun(tokens, pos, stop)
    decreases |tokens| - pos
  {
    if pos < |tokens| {
      if AssignmentRun(tokens, pos, stop) {
        assert pos < stop;
        assert AssignmentAt(tokens, pos);
      }
      if AssignmentAt(tokens, pos) && pos + 3 < |tokens| && IsComma(tokens[pos + 3]) {
        AssignmentsExact(tokens, pos + 4, stop);
        if AssignmentRun(tokens, pos, stop) {
          assert pos + 3 < stop;
          forall k | pos + 4 <= k < stop && (k - (pos + 4)) % 4 == 0 ensures AssignmentAt(tokens, k) {
            assert (k - pos) % 4 == 0;
          }
          forall k | pos + 4 <= k < stop && (k - (pos + 4)) % 4 == 3 ensures IsComma(tokens[k]) {
            assert (k - pos) % 4 == 3;
          }
          assert (stop - (pos + 4)) % 4 == (stop - pos) % 4;
        }
        if AssignmentRun(tokens, pos + 4, stop) {
          forall k | pos <= k < stop && (k - pos) % 4 == 0 ensures AssignmentAt(tokens, k) {
            if k > pos {
              assert (k - (pos + 4)) % 4 == 0;
            }
          }
          forall k | pos <= k < stop && (k - pos) % 4 == 3 ensures IsComma(tokens[k]) {
            if k > pos + 3 {
              assert (k - (pos + 4)) % 4 == 3;
            }
          }
          assert (stop - (pos + 4)) % 4 == (stop - pos) % 4;
        }
      } else if AssignmentAt(tokens, pos) && pos + 3 < |tokens| {
        if stop == pos + 3 {
          forall k | pos <= k < stop && (k - pos) % 4 == 0 ensures AssignmentAt(tokens, k) {
            assert k == pos;
          }
        }
      }
    }
  }

  /**
   * The SET part of an UPDATE ends at `p`: with no SET at token 2 it is
   * empty (p == 2); after SET it is a run of assignments from 3 to p.
   */
  predicate SetPart(tokens: seq<Token>, p: nat) {
    2 < |tokens| && (if Is(tokens[2], Keyword, SET) then AssignmentRun(tokens, 3, p) else p == 2)
  }

  /**
   * The UPDATE streams validateUpdateTokens accepts: a table name, an
   * optional SET part, then an optional WHERE clause to the end.
   */
  predicate UpdateForm(tokens: seq<Token>) {
    |tokens| >= 3 && tokens[1].kind == Identifier
    && exists p :: 2 <= p <= |tokens| && SetPart(tokens, p) && WhereToEnd(tokens, p)
  }

  /** validateUpdateTokens returns true exactly for the streams of that form; SET is optional. */
  lemma UpdateExact(tokens: seq<Token>)
    ensures UpdateCursor(tokens).Ok? <==> UpdateForm(tokens)
    ensures |tokens| > 0 && Is(tokens[0], Keyword, UPDATE) ==> (ValidateSpec(tokens) == Ok(true) <==> UpdateForm(tokens))
  {
    if |tokens| >= 3 && tokens[1].kind == Identifier {
      if Is(tokens[2], Keyword, SET) {
        var a := Assignments(tokens, 3);
        if a.Ok? {
          AssignmentsExact(tokens, 3, a.value);
          WhereCursorToEnd(tokens, a.value);
        }
        if UpdateForm(tokens) {
          var p :| 2 <= p <= |tokens| && SetPart(tokens, p) && WhereToEnd(tokens, p);
          AssignmentsExact(tokens, 3, p);
          WhereCursorToEnd(tokens, p);
        }
      } else {
        WhereCursorToEnd(tokens, 2);
        assert SetPart(tokens, 2);
      }
    }
  }

  /**
   * The DELETE streams validateDeleteTokens accepts: a KEYWORD (or FROM), a
   * table name, then an optional WHERE clause to the end.
   */
  predicate DeleteForm(tokens: seq<Token>) {
    |tokens| >= 3 && (tokens[1].kind == Keyword || tokens[1].value == FROM)
    && tokens[2].kind == Identifier && WhereToEnd(tokens, 3)
  }

  /** validateDeleteTokens returns true exactly for the streams of that form. */
  lemma DeleteExact(tokens: seq<Token>)
    ensures DeleteCursor(tokens).Ok? <==> DeleteForm(tokens)
    ensures |tokens| > 0 && Is(tokens[0], Keyword, DELETE) ==> (ValidateSpec(tokens) == Ok(true) <==> DeleteForm(tokens))
  {
    if |tokens| >= 3 {
      WhereCursorToEnd(tokens, 3);
    }
  }
}
